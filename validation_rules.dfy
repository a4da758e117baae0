/**
 * The developer-tools validation rules of the objectiv tracker: checks of a tracker event's
 * global contexts and location stack that report each problem as one error message on the
 * tracker console.
 *
 * A rule is made by one of three factories (missing global context, unique global context,
 * location context). Every rule can be restricted to some events by `eventMatches` and can tag
 * its messages with a `logPrefix`. `Validate` gives the messages a rule emits for an event, in
 * emission order; `MockConsole` records them as the console's `groupCollapsed` calls.
 */
module TrackerValidation {
  import opened Wrappers

  /** A context of an event: its type name (`_type`) and its `id`. */
  datatype Context = Context(name: string, id: string)

  /** A tracker event: its type name, its global contexts and its location stack. */
  datatype Event = Event(name: string, globalContexts: seq<Context>, locationStack: seq<Context>)

  /**
   * A validation rule as one of the three factories configures it. `eventMatches` absent means
   * the rule applies to every event; `once` and `position` restrict where a location context
   * may appear.
   */
  datatype Rule =
    | MissingGlobalContextRule(contextName: string, eventMatches: Option<Event -> bool>, logPrefix: Option<string>)
    | UniqueGlobalContextRule(eventMatches: Option<Event -> bool>, logPrefix: Option<string>)
    | LocationContextRule(contextName: string, once: bool, position: Option<nat>,
                          eventMatches: Option<Event -> bool>, logPrefix: Option<string>)

  /** Whether the rule validates `e` at all. */
  predicate Applies(rule: Rule, e: Event)
  {
    rule.eventMatches.None? || rule.eventMatches.value(e)
  }

  // ---------------------------------------------------------------------------------------
  // Message formatting

  /** `｢objectiv｣`, or `｢objectiv:<logPrefix>｣` when a log prefix is given. */
  function Prefix(logPrefix: Option<string>): (r: string)
    ensures |r| >= 10 && r[..9] == "\U{FF62}objectiv" && r[|r| - 1] == '\U{FF63}'
    ensures logPrefix.None? ==> |r| == 10
    ensures logPrefix.Some? ==> r[9] == ':' && r[10..|r| - 1] == logPrefix.value
  {
    if logPrefix.None? then "\U{FF62}objectiv\U{FF63}"
    else "\U{FF62}objectiv:" + logPrefix.value + "\U{FF63}"
  }

  /** An error line followed by the taxonomy documentation link of the context concerned. */
  function ErrorMessage(logPrefix: Option<string>, description: string, docsUrl: string): string
  {
    Prefix(logPrefix) + " Error: " + description + "\nTaxonomy documentation: " + docsUrl + "."
  }

  /** A message of the form above starts with the prefix it was formatted with. */
  lemma ErrorMessagePrefixed(logPrefix: Option<string>, description: string, docsUrl: string)
    ensures Prefix(logPrefix) <= ErrorMessage(logPrefix, description, docsUrl)
  {
    var tail := " Error: " + description + "\nTaxonomy documentation: " + docsUrl + ".";
    assert ErrorMessage(logPrefix, description, docsUrl) == Prefix(logPrefix) + tail;
  }

  /** The taxonomy reference page of a global context type. */
  function GlobalContextDocs(name: string): string
  {
    "https://objectiv.io/docs/taxonomy/reference/global-contexts/" + name
  }

  /** The taxonomy reference page of a location context type. */
  function LocationContextDocs(name: string): string
  {
    "https://objectiv.io/docs/taxonomy/reference/location-contexts/" + name
  }

  // ---------------------------------------------------------------------------------------
  // What the rules look for

  /** Whether some context in `cs` has type `name`. */
  predicate HasContext(cs: seq<Context>, name: string)
  {
    exists i | 0 <= i < |cs| :: cs[i].name == name
  }

  /** The number of contexts in `cs` of type `name`. */
  function Occurrences(cs: seq<Context>, name: string): (n: nat)
    ensures n <= |cs|
    ensures n == 0 <==> !HasContext(cs, name)
  {
    if cs == [] then 0
    else
      var rest := Occurrences(cs[1..], name);
      assert forall i | 0 < i < |cs| :: cs[i] == cs[1..][i - 1];
      if cs[0].name == name then rest + 1
      else
        assert HasContext(cs, name) ==> HasContext(cs[1..], name);
        rest
  }

  /** The position of the first context of type `name` in `cs`, if any. */
  function FirstIndex(cs: seq<Context>, name: string): (r: Option<nat>)
    ensures r.Some? <==> HasContext(cs, name)
    ensures r.Some? ==> r.value < |cs| && cs[r.value].name == name
    ensures r.Some? ==> forall i | 0 <= i < r.value :: cs[i].name != name
  {
    if cs == [] then None
    else if cs[0].name == name then Some(0)
    else
      var p := FirstIndex(cs[1..], name);
      assert forall i | 0 < i < |cs| :: cs[i] == cs[1..][i - 1];
      if p.Some? then Some(p.value + 1) else None
  }

  /**
   * The contexts that occur more than once in `cs`, keyed by type and id, each listed once,
   * in the order in which they first repeat.
   */
  function Duplicates(cs: seq<Context>): seq<Context>
  {
    if cs == [] then []
    else
      var front, last := cs[..|cs| - 1], cs[|cs| - 1];
      var rest := Duplicates(front);
      if last in front && last !in rest then rest + [last] else rest
  }

  /** A context is reported as duplicated exactly when it occurs at least twice. */
  lemma {:induction false} DuplicatesAreRepeated(cs: seq<Context>, c: Context)
    ensures c in Duplicates(cs) <==> multiset(cs)[c] >= 2
  {
    if cs != [] {
      var front, last := cs[..|cs| - 1], cs[|cs| - 1];
      assert cs == front + [last];
      DuplicatesAreRepeated(front, c);
      if c == last {
        assert c in front <==> multiset(front)[c] >= 1;
      }
    }
  }

  /** No context is reported twice. */
  lemma {:induction false} DuplicatesAreDistinct(cs: seq<Context>)
    ensures forall i, j | 0 <= i < j < |Duplicates(cs)| :: Duplicates(cs)[i] != Duplicates(cs)[j]
  {
    if cs != [] {
      DuplicatesAreDistinct(cs[..|cs| - 1]);
    }
  }

  // ---------------------------------------------------------------------------------------
  // Validation

  /** A problem a rule can find in an event. */
  datatype Problem =
    | MissingGlobal(contextName: string)
    | DuplicatedGlobal(context: Context)
    | MissingLocation(contextName: string)
    | RepeatedLocation(contextName: string)
    | MisplacedLocation(contextName: string)

  /** The sentence that states the problem. */
  function Describe(problem: Problem, e: Event): string
  {
    match problem
    case MissingGlobal(n) => n + " is missing from Global Contexts of " + e.name + "."
    case DuplicatedGlobal(c) =>
      "Only one " + c.name + "(id: " + c.id + ") should be present in Global Contexts of " + e.name + "."
    case MissingLocation(n) => n + " is missing from Location Stack of " + e.name + "."
    case RepeatedLocation(n) => "Only one " + n + " should be present in Location Stack of " + e.name + "."
    case MisplacedLocation(n) => n + " is in the wrong position of the Location Stack of " + e.name + "."
  }

  /** The taxonomy page of the context type the problem is about. */
  function Docs(problem: Problem): string
  {
    match problem
    case MissingGlobal(n) => GlobalContextDocs(n)
    case DuplicatedGlobal(c) => GlobalContextDocs(c.name)
    case MissingLocation(n) => LocationContextDocs(n)
    case RepeatedLocation(n) => LocationContextDocs(n)
    case MisplacedLocation(n) => LocationContextDocs(n)
  }

  /**
   * The problems `rule.validate(e)` reports, in order. The location rule reports at most one:
   * a missing context first, then a repeated one (`once`), then a misplaced one (`position`,
   * checked against the context's first occurrence).
   */
  function Problems(rule: Rule, e: Event): seq<Problem>
  {
    if !Applies(rule, e) then []
    else match rule
      case MissingGlobalContextRule(name, _, _) =>
        if HasContext(e.globalContexts, name) then [] else [MissingGlobal(name)]
      case UniqueGlobalContextRule(_, _) =>
        var d := Duplicates(e.globalContexts);
        seq(|d|, i requires 0 <= i < |d| => DuplicatedGlobal(d[i]))
      case LocationContextRule(name, once, position, _, _) =>
        var count := Occurrences(e.locationStack, name);
        if count == 0 then [MissingLocation(name)]
        else if once && count > 1 then [RepeatedLocation(name)]
        else if position.Some? && FirstIndex(e.locationStack, name) != position then [MisplacedLocation(name)]
        else []
  }

  /** The messages `rule.validate(e)` emits, one per problem, in order. */
  function Validate(rule: Rule, e: Event): (msgs: seq<string>)
    ensures |msgs| == |Problems(rule, e)|
  {
    var ps := Problems(rule, e);
    seq(|ps|, i requires 0 <= i < |ps| => ErrorMessage(rule.logPrefix, Describe(ps[i], e), Docs(ps[i])))
  }

  /** Every message starts with the rule's prefix, so that the log prefix tags all of them. */
  lemma MessagesArePrefixed(rule: Rule, e: Event)
    ensures forall i | 0 <= i < |Validate(rule, e)| :: Prefix(rule.logPrefix) <= Validate(rule, e)[i]
  {
    var ps := Problems(rule, e);
    forall i | 0 <= i < |Validate(rule, e)|
      ensures Prefix(rule.logPrefix) <= Validate(rule, e)[i]
    {
      ErrorMessagePrefixed(rule.logPrefix, Describe(ps[i], e), Docs(ps[i]));
    }
  }

  /** What each rule requires of an event it applies to. */
  predicate Conforms(rule: Rule, e: Event)
  {
    match rule
    case MissingGlobalContextRule(name, _, _) => HasContext(e.globalContexts, name)
    case UniqueGlobalContextRule(_, _) =>
      forall i, j | 0 <= i < j < |e.globalContexts| :: e.globalContexts[i] != e.globalContexts[j]
    case LocationContextRule(name, once, position, _, _) =>
      && HasContext(e.locationStack, name)
      && (once ==> Occurrences(e.locationStack, name) == 1)
      && (position.Some? ==> FirstIndex(e.locationStack, name) == position)
  }

  /** A rule whose `eventMatches` rejects the event emits nothing. */
  lemma SkipsUnmatchedEvents(rule: Rule, e: Event)
    requires rule.eventMatches.Some? && !rule.eventMatches.value(e)
    ensures Problems(rule, e) == [] && Validate(rule, e) == []
  {
  }

  /** A context sequence with no repeated entry has no duplicates to report, and conversely. */
  lemma {:induction false} NoDuplicatesIffDistinct(cs: seq<Context>)
    ensures Duplicates(cs) == [] <==> forall i, j | 0 <= i < j < |cs| :: cs[i] != cs[j]
  {
    if Duplicates(cs) == [] {
      forall i, j | 0 <= i < j < |cs|
        ensures cs[i] != cs[j]
      {
        if cs[i] == cs[j] {
          RepeatedEntryCounts(cs, i, j);
          DuplicatesAreRepeated(cs, cs[i]);
          assert false;
        }
      }
    } else {
      var c := Duplicates(cs)[0];
      DuplicatesAreRepeated(cs, c);
      var i, j := RepeatedEntry(cs, c);
    }
  }

  /** Two equal entries make their context occur at least twice. */
  lemma {:induction false} RepeatedEntryCounts(cs: seq<Context>, i: nat, j: nat)
    requires i < j < |cs| && cs[i] == cs[j]
    ensures multiset(cs)[cs[i]] >= 2
  {
    assert cs == cs[..i] + [cs[i]] + cs[i + 1..j] + [cs[j]] + cs[j + 1..];
  }

  /** A context occurring at least twice sits at two different positions. */
  lemma {:induction false} RepeatedEntry(cs: seq<Context>, c: Context) returns (i: nat, j: nat)
    requires multiset(cs)[c] >= 2
    ensures i < j < |cs| && cs[i] == c && cs[j] == c
  {
    var front, last := cs[..|cs| - 1], cs[|cs| - 1];
    assert cs == front + [last];
    if last == c {
      assert c in multiset(front);
      i := FindIn(front, c);
      j := |cs| - 1;
    } else {
      i, j := RepeatedEntry(front, c);
    }
  }

  function FindIn(cs: seq<Context>, c: Context): (i: nat)
    requires c in cs
    ensures i < |cs| && cs[i] == c
  {
    if cs[0] == c then 0 else FindIn(cs[1..], c) + 1
  }

  /**
   * A rule that applies to an event emits nothing exactly when the event conforms to it;
   * the missing-context and location rules emit at most one message, and the unique rule one
   * per context that occurs more than once.
   */
  lemma ValidateIffConforms(rule: Rule, e: Event)
    requires Applies(rule, e)
    ensures Validate(rule, e) == [] <==> Conforms(rule, e)
    ensures !rule.UniqueGlobalContextRule? ==> |Validate(rule, e)| <= 1
    ensures rule.UniqueGlobalContextRule? ==> |Validate(rule, e)| == |Duplicates(e.globalContexts)|
  {
    if rule.UniqueGlobalContextRule? {
      NoDuplicatesIffDistinct(e.globalContexts);
    }
  }

  /** The problems each rule reports, exactly when the event breaks the corresponding requirement. */
  lemma ProblemsOfEachRule(rule: Rule, e: Event)
    requires Applies(rule, e)
    ensures rule.MissingGlobalContextRule? ==>
              (Problems(rule, e) == [MissingGlobal(rule.contextName)] <==> !HasContext(e.globalContexts, rule.contextName))
    ensures rule.UniqueGlobalContextRule? ==>
              forall c :: DuplicatedGlobal(c) in Problems(rule, e) <==> multiset(e.globalContexts)[c] >= 2
    ensures rule.LocationContextRule? ==>
              (Problems(rule, e) == [MissingLocation(rule.contextName)] <==> !HasContext(e.locationStack, rule.contextName))
    ensures rule.LocationContextRule? ==>
              (Problems(rule, e) == [RepeatedLocation(rule.contextName)] <==>
               rule.once && Occurrences(e.locationStack, rule.contextName) > 1)
    ensures rule.LocationContextRule? ==>
              (Problems(rule, e) == [MisplacedLocation(rule.contextName)] <==>
               && HasContext(e.locationStack, rule.contextName)
               && !(rule.once && Occurrences(e.locationStack, rule.contextName) > 1)
               && rule.position.Some? && FirstIndex(e.locationStack, rule.contextName) != rule.position)
  {
    if rule.UniqueGlobalContextRule? {
      var d := Duplicates(e.globalContexts);
      forall c
        ensures DuplicatedGlobal(c) in Problems(rule, e) <==> multiset(e.globalContexts)[c] >= 2
      {
        DuplicatesAreRepeated(e.globalContexts, c);
        if c in d {
          var i :| 0 <= i < |d| && d[i] == c;
          assert Problems(rule, e)[i] == DuplicatedGlobal(c);
        }
      }
    }
  }

  /** Distinct log prefixes give distinct message prefixes. */
  lemma PrefixIdentifiesLogPrefix(a: Option<string>, b: Option<string>)
    requires Prefix(a) == Prefix(b)
    ensures a == b
  {
    if a.Some? && b.Some? {
      assert a.value == Prefix(a)[10..|Prefix(a)| - 1];
    }
  }

  // ---------------------------------------------------------------------------------------
  // The console

  /** The tracker console as the tests mock it: the messages passed to `groupCollapsed`. */
  class MockConsole {
    var groupCollapsed: seq<string>

    constructor ()
      ensures groupCollapsed == []
    {
      groupCollapsed := [];
    }

    /** `jest.resetAllMocks()`: forget the calls recorded so far. */
    method ResetAllMocks()
      modifies this
      ensures groupCollapsed == []
    {
      groupCollapsed := [];
    }

    method GroupCollapsed(message: string)
      modifies this
      ensures groupCollapsed == old(groupCollapsed) + [message]
    {
      groupCollapsed := groupCollapsed + [message];
    }
  }

  /** Logs each message with one `groupCollapsed` call, in order. */
  method LogErrors(messages: seq<string>, console: MockConsole)
    modifies console
    ensures console.groupCollapsed == old(console.groupCollapsed) + messages
  {
    var i := 0;
    while i < |messages|
      invariant 0 <= i <= |messages|
      invariant console.groupCollapsed == old(console.groupCollapsed) + messages[..i]
    {
      console.GroupCollapsed(messages[i]);
      assert messages[..i + 1] == messages[..i] + [messages[i]];
      i := i + 1;
    }
  }

  /** `rule.validate(e)`: one `groupCollapsed` call per message of `Validate`. */
  method ValidateOn(rule: Rule, e: Event, console: MockConsole)
    modifies console
    ensures console.groupCollapsed == old(console.groupCollapsed) + Validate(rule, e)
  {
    LogErrors(Validate(rule, e), console);
  }
}

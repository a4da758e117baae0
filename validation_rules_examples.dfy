/**
 * The validation-rule tests: each builds a rule, resets the console mock, validates one
 * `PressEvent` and inspects the `groupCollapsed` calls.
 */
module TrackerValidationExamples {
  import opened Wrappers
  import opened TrackerValidation

  /** `makePressEvent()` with the given global contexts and location stack. */
  function PressEvent(globalContexts: seq<Context>, locationStack: seq<Context>): Event
  {
    Event("PressEvent", globalContexts, locationStack)
  }

  /** The rule under test validated on `e` with a freshly reset console: the calls it makes. */
  method CallsFor(rule: Rule, e: Event) returns (calls: seq<string>)
    ensures calls == Validate(rule, e)
  {
    var console := new MockConsole();
    console.ResetAllMocks();
    ValidateOn(rule, e, console);
    calls := console.groupCollapsed;
  }

  /** Each rule stays silent when its `eventMatches` returns false. */
  method SkipsWhenEventDoesNotMatch() returns (missing: seq<string>, unique: seq<string>, location: seq<string>)
    ensures missing == [] && unique == [] && location == []
  {
    var never := (e: Event) => false;
    missing := CallsFor(MissingGlobalContextRule("PathContext", Some(never), None), PressEvent([], []));
    unique := CallsFor(UniqueGlobalContextRule(Some(never), None), PressEvent([], []));
    location := CallsFor(LocationContextRule("ContentContext", false, None, Some(never), None), PressEvent([], []));
  }

  // The layout of each kind of message, fragment by fragment: the literal pieces of the
  // formatter with the context name, event name and log prefix substituted.

  lemma Assoc(a: string, b: string, c: string)
    ensures a + (b + c) == a + b + c
  {
  }

  /** A validation that finds exactly one problem logs exactly its message. */
  lemma ValidateFindsOne(rule: Rule, e: Event, q: Problem)
    requires Problems(rule, e) == [q]
    ensures Validate(rule, e) == [ErrorMessage(rule.logPrefix, Describe(q, e), Docs(q))]
  {
  }

  /** A validation that finds exactly two problems logs exactly their messages, in order. */
  lemma ValidateFindsTwo(rule: Rule, e: Event, q: Problem, r: Problem)
    requires Problems(rule, e) == [q, r]
    ensures Validate(rule, e) ==
      [ErrorMessage(rule.logPrefix, Describe(q, e), Docs(q)), ErrorMessage(rule.logPrefix, Describe(r, e), Docs(r))]
  {
    var msgs := Validate(rule, e);
    assert |msgs| == 2;
    assert msgs[0] == ErrorMessage(rule.logPrefix, Describe(q, e), Docs(q));
    assert msgs[1] == ErrorMessage(rule.logPrefix, Describe(r, e), Docs(r));
  }

  /** The duplicates of `[a, a, b, b]` for distinct `a` and `b`. */
  lemma TwoDuplicates(a: Context, b: Context)
    requires a != b
    ensures Duplicates([a, a, b, b]) == [a, b]
  {
    var cs := [a, a, b, b];
    assert cs[..3] == [a, a, b] && cs[..3][..2] == [a, a];
    assert [a, a][..1] == [a] && [a][..0] == [];
    assert Duplicates([a]) == [];
    assert Duplicates([a, a]) == [a];
    assert Duplicates([a, a, b]) == [a];
  }

  lemma MissingGlobalText(p: Option<string>, n: string, e: Event)
    ensures ErrorMessage(p, Describe(MissingGlobal(n), e), Docs(MissingGlobal(n))) ==
      Prefix(p) + " Error: " + n + " is missing from Global Contexts of " + e.name + "."
      + "\nTaxonomy documentation: " + "https://objectiv.io/docs/taxonomy/reference/global-contexts/" + n + "."
  {
    var x, l := Prefix(p) + " Error: ", " is missing from Global Contexts of ";
    Assoc(x, n + l + e.name, ".");
    Assoc(x, n + l, e.name);
    Assoc(x, n, l);
    var y := x + (n + l + e.name + ".") + "\nTaxonomy documentation: ";
    Assoc(y, "https://objectiv.io/docs/taxonomy/reference/global-contexts/", n);
  }

  lemma DuplicatedGlobalText(p: Option<string>, c: Context, e: Event)
    ensures ErrorMessage(p, Describe(DuplicatedGlobal(c), e), Docs(DuplicatedGlobal(c))) ==
      Prefix(p) + " Error: " + "Only one " + c.name + "(id: " + c.id + ") should be present in Global Contexts of " + e.name + "."
      + "\nTaxonomy documentation: " + "https://objectiv.io/docs/taxonomy/reference/global-contexts/" + c.name + "."
  {
    var x, o, i, l := Prefix(p) + " Error: ", "Only one ", "(id: ", ") should be present in Global Contexts of ";
    Assoc(x, o + c.name + i + c.id + l + e.name, ".");
    Assoc(x, o + c.name + i + c.id + l, e.name);
    Assoc(x, o + c.name + i + c.id, l);
    Assoc(x, o + c.name + i, c.id);
    Assoc(x, o + c.name, i);
    Assoc(x, o, c.name);
    var y := x + (o + c.name + i + c.id + l + e.name + ".") + "\nTaxonomy documentation: ";
    Assoc(y, "https://objectiv.io/docs/taxonomy/reference/global-contexts/", c.name);
  }

  lemma MissingLocationText(p: Option<string>, n: string, e: Event)
    ensures ErrorMessage(p, Describe(MissingLocation(n), e), Docs(MissingLocation(n))) ==
      Prefix(p) + " Error: " + n + " is missing from Location Stack of " + e.name + "."
      + "\nTaxonomy documentation: " + "https://objectiv.io/docs/taxonomy/reference/location-contexts/" + n + "."
  {
    var x, l := Prefix(p) + " Error: ", " is missing from Location Stack of ";
    Assoc(x, n + l + e.name, ".");
    Assoc(x, n + l, e.name);
    Assoc(x, n, l);
    var y := x + (n + l + e.name + ".") + "\nTaxonomy documentation: ";
    Assoc(y, "https://objectiv.io/docs/taxonomy/reference/location-contexts/", n);
  }

  lemma RepeatedLocationText(p: Option<string>, n: string, e: Event)
    ensures ErrorMessage(p, Describe(RepeatedLocation(n), e), Docs(RepeatedLocation(n))) ==
      Prefix(p) + " Error: " + "Only one " + n + " should be present in Location Stack of " + e.name + "."
      + "\nTaxonomy documentation: " + "https://objectiv.io/docs/taxonomy/reference/location-contexts/" + n + "."
  {
    var x, o, l := Prefix(p) + " Error: ", "Only one ", " should be present in Location Stack of ";
    Assoc(x, o + n + l + e.name, ".");
    Assoc(x, o + n + l, e.name);
    Assoc(x, o + n, l);
    Assoc(x, o, n);
    var y := x + (o + n + l + e.name + ".") + "\nTaxonomy documentation: ";
    Assoc(y, "https://objectiv.io/docs/taxonomy/reference/location-contexts/", n);
  }

  lemma MisplacedLocationText(p: Option<string>, n: string, e: Event)
    ensures ErrorMessage(p, Describe(MisplacedLocation(n), e), Docs(MisplacedLocation(n))) ==
      Prefix(p) + " Error: " + n + " is in the wrong position of the Location Stack of " + e.name + "."
      + "\nTaxonomy documentation: " + "https://objectiv.io/docs/taxonomy/reference/location-contexts/" + n + "."
  {
    var x, l := Prefix(p) + " Error: ", " is in the wrong position of the Location Stack of ";
    Assoc(x, n + l + e.name, ".");
    Assoc(x, n + l, e.name);
    Assoc(x, n, l);
    var y := x + (n + l + e.name + ".") + "\nTaxonomy documentation: ";
    Assoc(y, "https://objectiv.io/docs/taxonomy/reference/location-contexts/", n);
  }

  method MissingGlobalContext() returns (calls: seq<string>)
    ensures calls == [
      "\U{FF62}objectiv\U{FF63}" + " Error: " + "PathContext" + " is missing from Global Contexts of " + "PressEvent" + "."
      + "\nTaxonomy documentation: " + "https://objectiv.io/docs/taxonomy/reference/global-contexts/" + "PathContext" + "."]
  {
    var rule, e := MissingGlobalContextRule("PathContext", None, None), PressEvent([], []);
    calls := CallsFor(rule, e);
    assert Problems(rule, e) == [MissingGlobal("PathContext")];
    ValidateFindsOne(rule, e, MissingGlobal("PathContext"));
    MissingGlobalText(None, "PathContext", e);
  }

  method MissingGlobalContextWithPrefix() returns (calls: seq<string>)
    ensures calls == [
      "\U{FF62}objectiv:" + "TestPrefix" + "\U{FF63}" + " Error: " + "PathContext" + " is missing from Global Contexts of " + "PressEvent" + "."
      + "\nTaxonomy documentation: " + "https://objectiv.io/docs/taxonomy/reference/global-contexts/" + "PathContext" + "."]
  {
    var rule, e := MissingGlobalContextRule("PathContext", None, Some("TestPrefix")), PressEvent([], []);
    calls := CallsFor(rule, e);
    assert Problems(rule, e) == [MissingGlobal("PathContext")];
    ValidateFindsOne(rule, e, MissingGlobal("PathContext"));
    MissingGlobalText(Some("TestPrefix"), "PathContext", e);
  }

  method DuplicatedGlobalContextWithPrefix() returns (calls: seq<string>)
    ensures calls == [
      "\U{FF62}objectiv:" + "TestPrefix" + "\U{FF63}" + " Error: " + "Only one " + "PathContext" + "(id: " + "test" + ") should be present in Global Contexts of " + "PressEvent" + "."
      + "\nTaxonomy documentation: " + "https://objectiv.io/docs/taxonomy/reference/global-contexts/" + "PathContext" + "."]
  {
    var path := Context("PathContext", "test");
    var rule, e := UniqueGlobalContextRule(None, Some("TestPrefix")), PressEvent([path, path], []);
    calls := CallsFor(rule, e);
    assert [path, path][..1] == [path] && [path][..0] == [];
    assert Duplicates([path]) == [];
    assert Duplicates(e.globalContexts) == [path];
    assert Problems(rule, e) == [DuplicatedGlobal(path)];
    ValidateFindsOne(rule, e, DuplicatedGlobal(path));
    DuplicatedGlobalText(Some("TestPrefix"), path, e);
  }

  /** Two duplicated contexts: one message each, in the order in which they repeat. */
  method TwoDuplicatedGlobalContexts() returns (calls: seq<string>)
    ensures calls == [
      "\U{FF62}objectiv\U{FF63}" + " Error: " + "Only one " + "InputValueContext" + "(id: " + "test" + ") should be present in Global Contexts of " + "PressEvent" + "."
      + "\nTaxonomy documentation: " + "https://objectiv.io/docs/taxonomy/reference/global-contexts/" + "InputValueContext" + ".",
      "\U{FF62}objectiv\U{FF63}" + " Error: " + "Only one " + "PathContext" + "(id: " + "test" + ") should be present in Global Contexts of " + "PressEvent" + "."
      + "\nTaxonomy documentation: " + "https://objectiv.io/docs/taxonomy/reference/global-contexts/" + "PathContext" + "."]
  {
    var input, path := Context("InputValueContext", "test"), Context("PathContext", "test");
    var rule, e := UniqueGlobalContextRule(None, None), PressEvent([input, input, path, path], []);
    calls := CallsFor(rule, e);
    TwoDuplicates(input, path);
    assert Problems(rule, e) == [DuplicatedGlobal(input), DuplicatedGlobal(path)];
    ValidateFindsTwo(rule, e, DuplicatedGlobal(input), DuplicatedGlobal(path));
    DuplicatedGlobalText(None, input, e);
    DuplicatedGlobalText(None, path, e);
  }

  method MissingLocationContext() returns (calls: seq<string>)
    ensures calls == [
      "\U{FF62}objectiv\U{FF63}" + " Error: " + "ContentContext" + " is missing from Location Stack of " + "PressEvent" + "."
      + "\nTaxonomy documentation: " + "https://objectiv.io/docs/taxonomy/reference/location-contexts/" + "ContentContext" + "."]
  {
    var rule, e := LocationContextRule("ContentContext", false, None, None, None), PressEvent([], []);
    calls := CallsFor(rule, e);
    assert Problems(rule, e) == [MissingLocation("ContentContext")];
    ValidateFindsOne(rule, e, MissingLocation("ContentContext"));
    MissingLocationText(None, "ContentContext", e);
  }

  method MissingLocationContextWithPrefix() returns (calls: seq<string>)
    ensures calls == [
      "\U{FF62}objectiv:" + "TestPrefix" + "\U{FF63}" + " Error: " + "ContentContext" + " is missing from Location Stack of " + "PressEvent" + "."
      + "\nTaxonomy documentation: " + "https://objectiv.io/docs/taxonomy/reference/location-contexts/" + "ContentContext" + "."]
  {
    var rule, e := LocationContextRule("ContentContext", false, None, None, Some("TestPrefix")), PressEvent([], []);
    calls := CallsFor(rule, e);
    assert Problems(rule, e) == [MissingLocation("ContentContext")];
    ValidateFindsOne(rule, e, MissingLocation("ContentContext"));
    MissingLocationText(Some("TestPrefix"), "ContentContext", e);
  }

  method RepeatedLocationContext() returns (calls: seq<string>)
    ensures calls == [
      "\U{FF62}objectiv\U{FF63}" + " Error: " + "Only one " + "ContentContext" + " should be present in Location Stack of " + "PressEvent" + "."
      + "\nTaxonomy documentation: " + "https://objectiv.io/docs/taxonomy/reference/location-contexts/" + "ContentContext" + "."]
  {
    var content := Context("ContentContext", "test");
    var rule, e := LocationContextRule("ContentContext", true, None, None, None), PressEvent([], [content, content]);
    calls := CallsFor(rule, e);
    assert Occurrences(e.locationStack, "ContentContext") == 2;
    assert Problems(rule, e) == [RepeatedLocation("ContentContext")];
    ValidateFindsOne(rule, e, RepeatedLocation("ContentContext"));
    RepeatedLocationText(None, "ContentContext", e);
  }

  method MisplacedLocationContext() returns (calls: seq<string>)
    ensures calls == [
      "\U{FF62}objectiv\U{FF63}" + " Error: " + "ContentContext" + " is in the wrong position of the Location Stack of " + "PressEvent" + "."
      + "\nTaxonomy documentation: " + "https://objectiv.io/docs/taxonomy/reference/location-contexts/" + "ContentContext" + "."]
  {
    var stack := [Context("RootLocationContext", "test"), Context("ContentContext", "test")];
    var rule, e := LocationContextRule("ContentContext", true, Some(0), None, None), PressEvent([], stack);
    calls := CallsFor(rule, e);
    assert Occurrences(e.locationStack, "ContentContext") == 1;
    assert FirstIndex(e.locationStack, "ContentContext") == Some(1);
    assert Problems(rule, e) == [MisplacedLocation("ContentContext")];
    ValidateFindsOne(rule, e, MisplacedLocation("ContentContext"));
    MisplacedLocationText(None, "ContentContext", e);
  }
}

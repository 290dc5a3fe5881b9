/** Rule S2699, "tests should include assertions": every non-abstract JUnit test method must call
    an assertion method (from a list of known frameworks, from the configured custom methods, or
    a method of the same file that itself calls one), unless it declares an `expected` exception.
    The checker keeps two stacks of flags, one frame per method being visited, and a per-file memo
    of the methods of the file already found to contain an assertion. */
module AssertionsInTests {
  import opened JavaLang
  import opened MethodMatchers

  datatype Option<T> = None | Some(value: T)

  const JUNIT_TEST: string := "org.junit.Test"

  const MESSAGE: string := "Add at least one assertion to this test case."

  function WithAnyParameters(owner: TypeCriterion, name: NameCriterion): Matcher {
    Matcher(owner, name, MethodMatchers.AnyParameters)
  }

  const ASSERT: NameCriterion := NameStartsWith("assert")
  const FAIL: NameCriterion := NameStartsWith("fail")
  const REST_ASSURED: TypeCriterion := TypeIs("io.restassured.response.ValidatableResponseOptions")
  const ASSERTJ_ASSERTIONS: TypeCriterion := TypeIs("org.assertj.core.api.Assertions")
  const ASSERTJ_FAIL: TypeCriterion := TypeIs("org.assertj.core.api.Fail")

  /** The assertion methods of JUnit 4 and JUnit 3. */
  const JUNIT_MATCHERS: seq<Matcher> := [
    WithAnyParameters(TypeIs("org.junit.Assert"), ASSERT),
    WithAnyParameters(TypeIs("org.junit.Assert"), FAIL),
    WithAnyParameters(TypeIs("org.junit.rules.ExpectedException"), NameStartsWith("expect")),
    WithAnyParameters(SubtypeOf("junit.framework.Assert"), ASSERT),
    WithAnyParameters(SubtypeOf("junit.framework.Assert"), FAIL),
    WithAnyParameters(TypeIs("org.junit.rules.ErrorCollector"), NameIs("checkThat"))
  ]

  /** The assertion methods of the known test frameworks. */
  const ASSERTION_INVOCATION_MATCHERS: seq<Matcher> := JUNIT_MATCHERS + OTHER_FRAMEWORK_MATCHERS

  /** The assertion methods of the other known frameworks, in the order the rule lists them. */
  const OTHER_FRAMEWORK_MATCHERS: seq<Matcher> := [
    // Fest 1.x
    WithAnyParameters(SubtypeOf("org.fest.assertions.GenericAssert"), AnyName),
    WithAnyParameters(TypeIs("org.fest.assertions.Assertions"), ASSERT),
    WithAnyParameters(TypeIs("org.fest.assertions.Fail"), FAIL),
    // Fest 2.x
    WithAnyParameters(SubtypeOf("org.fest.assertions.api.AbstractAssert"), AnyName),
    WithAnyParameters(TypeIs("org.fest.assertions.api.Fail"), FAIL),
    // REST Assured 2.0
    WithAnyParameters(REST_ASSURED, NameIs("body")),
    WithAnyParameters(REST_ASSURED, NameIs("time")),
    WithAnyParameters(REST_ASSURED, NameStartsWith("content")),
    WithAnyParameters(REST_ASSURED, NameStartsWith("status")),
    WithAnyParameters(REST_ASSURED, NameStartsWith("header")),
    WithAnyParameters(REST_ASSURED, NameStartsWith("cookie")),
    WithAnyParameters(REST_ASSURED, NameStartsWith("spec")),
    // ReactiveX 2.x and 1.x
    WithAnyParameters(SubtypeOf("io.reactivex.observers.BaseTestConsumer"), ASSERT),
    WithAnyParameters(SubtypeOf("rx.observers.TestObserver"), ASSERT),
    WithAnyParameters(SubtypeOf("rx.observers.TestSubscriber"), ASSERT),
    WithAnyParameters(TypeIs("rx.observers.AssertableSubscriber"), ASSERT),
    // AssertJ
    WithAnyParameters(SubtypeOf("org.assertj.core.api.AbstractAssert"), AnyName),
    WithAnyParameters(ASSERTJ_FAIL, FAIL),
    WithAnyParameters(ASSERTJ_FAIL, NameIs("shouldHaveThrown")),
    WithAnyParameters(ASSERTJ_ASSERTIONS, FAIL),
    WithAnyParameters(ASSERTJ_ASSERTIONS, NameIs("shouldHaveThrown")),
    WithAnyParameters(ASSERTJ_ASSERTIONS, ASSERT),
    WithAnyParameters(SubtypeOf("org.assertj.core.api.AbstractSoftAssertions"), ASSERT),
    // Hamcrest
    WithAnyParameters(TypeIs("org.hamcrest.MatcherAssert"), ASSERT),
    // Mockito
    WithAnyParameters(TypeIs("org.mockito.Mockito"), NameStartsWith("verify")),
    WithAnyParameters(TypeIs("org.mockito.InOrder"), NameStartsWith("verify")),
    // Spring: andExpect with exactly one parameter of any type
    Matcher(TypeIs("org.springframework.test.web.servlet.ResultActions"), NameIs("andExpect"), Parameters([AnyType])),
    // EasyMock
    WithAnyParameters(TypeIs("org.easymock.EasyMock"), NameIs("verify")),
    WithAnyParameters(SubtypeOf("org.easymock.IMocksControl"), NameIs("verify")),
    WithAnyParameters(SubtypeOf("org.easymock.EasyMockSupport"), NameIs("verifyAll")),
    // Truth
    WithAnyParameters(TypeIs("com.google.common.truth.Truth"), ASSERT),
    WithAnyParameters(TypeIs("com.google.common.truth.Truth8"), ASSERT),
    // JMock
    WithAnyParameters(SubtypeOf("org.jmock.Mockery"), NameIs("assertIsSatisfied")),
    // WireMock
    WithAnyParameters(TypeIs("com.github.tomakehurst.wiremock.client.WireMock"), NameIs("verify")),
    WithAnyParameters(TypeIs("com.github.tomakehurst.wiremock.WireMockServer"), NameIs("verify")),
    // Vert.x
    WithAnyParameters(TypeIs("io.vertx.ext.unit.TestContext"), ASSERT),
    WithAnyParameters(TypeIs("io.vertx.ext.unit.TestContext"), FAIL),
    // Selenide
    WithAnyParameters(TypeIs("com.codeborne.selenide.SelenideElement"), NameStartsWith("should")),
    WithAnyParameters(TypeIs("com.codeborne.selenide.ElementsCollection"), NameStartsWith("should"))
  ]

  /** `new mockit.Verifications() {{ ... }}` counts as an assertion. */
  const JMOCKIT_CONSTRUCTOR_MATCHER: Matcher := WithAnyParameters(TypeIs("mockit.Verifications"), NameIs("<init>"))

  // ---------------------------------------------------------------------------------------------
  // The customAssertionFrameworksMethods property

  /** The name criterion of a custom entry: a trailing `*` asks for a prefix match. */
  function CustomNameCriterion(methodName: string): (r: NameCriterion)
    ensures EndsWith(methodName, "*") ==> r == NameStartsWith(methodName[..|methodName| - 1])
    ensures !EndsWith(methodName, "*") ==> r == NameIs(methodName)
  {
    if EndsWith(methodName, "*") then NameStartsWith(methodName[..|methodName| - 1]) else NameIs(methodName)
  }

  /** One entry `type#method` of the property: accepted when it splits on `#` into exactly two
      parts that are both non-blank. */
  function ParseEntry(entry: string): Option<Matcher> {
    var parts := Split(entry, '#');
    if |parts| == 2 && Trim(parts[0]) != "" && Trim(parts[1]) != "" then
      Some(WithAnyParameters(TypeIs(Trim(parts[0])), CustomNameCriterion(Trim(parts[1]))))
    else
      None
  }

  /** A warning logged for a refused entry. */
  datatype Warning = Warning(symbol: string)

  /** The text of the warning. */
  function WarningText(w: Warning): string {
    "Unable to create a corresponding matcher for custom assertion method, please check the format of the following symbol: '" +
    w.symbol + "'"
  }

  /** The matchers of the accepted entries, in order. */
  function ParsedMatchers(entries: seq<string>): (r: seq<Matcher>)
    ensures |r| <= |entries|
  {
    if entries == [] then []
    else
      var last := ParseEntry(entries[|entries| - 1]);
      ParsedMatchers(entries[..|entries| - 1]) + (if last.Some? then [last.value] else [])
  }

  /** The warnings of the rejected entries, in order. */
  function ParseWarnings(entries: seq<string>): (r: seq<Warning>)
    ensures |r| <= |entries|
  {
    if entries == [] then []
    else
      var last := entries[|entries| - 1];
      ParseWarnings(entries[..|entries| - 1]) + (if ParseEntry(last).None? then [Warning(last)] else [])
  }

  function CustomMatchers(property: string): seq<Matcher> {
    ParsedMatchers(Split(property, ','))
  }

  function CustomWarnings(property: string): seq<Warning> {
    ParseWarnings(Split(property, ','))
  }

  /** Every entry gives either a matcher or a warning. */
  lemma {:induction false} EveryEntryAccountedFor(entries: seq<string>)
    ensures |ParsedMatchers(entries)| + |ParseWarnings(entries)| == |entries|
  {
    if entries != [] {
      EveryEntryAccountedFor(entries[..|entries| - 1]);
    }
  }

  /** An entry is accepted exactly when it has two non-blank parts; the owner is then an exact
      type on the trimmed first part and the name criterion comes from the trimmed second part. */
  lemma ParseEntryAccepts(entry: string)
    ensures ParseEntry(entry).Some? <==>
      |Split(entry, '#')| == 2 && Trim(Split(entry, '#')[0]) != "" && Trim(Split(entry, '#')[1]) != ""
    ensures ParseEntry(entry).Some? ==>
      && ParseEntry(entry).value.owner == TypeIs(Trim(Split(entry, '#')[0]))
      && ParseEntry(entry).value.parameters == MethodMatchers.AnyParameters
      && (EndsWith(Trim(Split(entry, '#')[1]), "*") <==> ParseEntry(entry).value.name.NameStartsWith?)
  {
  }

  /** `owner#name`, both non-blank and free of `#`, gives back the trimmed owner and name. */
  lemma ParseWellFormedEntry(owner: string, name: string)
    requires '#' !in owner && '#' !in name
    requires Trim(owner) != "" && Trim(name) != ""
    ensures ParseEntry(owner + "#" + name) == Some(WithAnyParameters(TypeIs(Trim(owner)), CustomNameCriterion(Trim(name))))
  {
    var entry := owner + "#" + name;
    assert entry == owner + ['#'] + name;
    PiecesOfTwo(owner, name, '#');
    assert entry[|owner|] == '#';
    assert Split(entry, '#') == DropTrailingEmpty([owner, name]);
    assert name != "";
    assert Split(entry, '#') == [owner, name];
  }

  /** Java's split drops trailing empty strings, so `owner#name#` is accepted as `owner#name`. */
  lemma TrailingSeparatorAccepted(owner: string, name: string)
    requires '#' !in owner && '#' !in name
    requires Trim(owner) != "" && Trim(name) != ""
    ensures ParseEntry(owner + "#" + name + "#") == Some(WithAnyParameters(TypeIs(Trim(owner)), CustomNameCriterion(Trim(name))))
  {
    assert Trim("") == "";
    assert name != "";
    SplitTrailingSeparator(owner, name);
    ParseEntryOfParts(owner + "#" + name + "#", owner, name);
  }

  /** An entry that splits into two non-blank parts is accepted. */
  lemma ParseEntryOfParts(entry: string, owner: string, name: string)
    requires Split(entry, '#') == [owner, name] && Trim(owner) != "" && Trim(name) != ""
    ensures ParseEntry(entry) == Some(WithAnyParameters(TypeIs(Trim(owner)), CustomNameCriterion(Trim(name))))
  {
  }

  /** A trailing separator is dropped by the split. */
  lemma SplitTrailingSeparator(owner: string, name: string)
    requires '#' !in owner && '#' !in name && name != ""
    ensures Split(owner + "#" + name + "#", '#') == [owner, name]
  {
    var entry := owner + "#" + name + "#";
    assert entry == owner + ['#'] + (name + ['#'] + "");
    PiecesOfTwo(name, "", '#');
    PiecesPrefix(owner, name + ['#'] + "", '#');
    var pieces := [owner, name, ""];
    assert Pieces(entry, '#') == pieces;
    assert entry[|owner|] == '#';
    assert DropTrailingEmpty(pieces) == DropTrailingEmpty(pieces[..2]);
  }

  /** The pieces of a separator-free prefix, a separator and a rest. */
  lemma {:induction false} PiecesPrefix(a: string, b: string, sep: char)
    requires sep !in a
    ensures Pieces(a + [sep] + b, sep) == [a] + Pieces(b, sep)
  {
    var s := a + [sep] + b;
    if a == [] {
      assert s[0] == sep && s[1..] == b;
    } else {
      assert s[0] == a[0] && s[1..] == a[1..] + [sep] + b;
      PiecesPrefix(a[1..], b, sep);
      assert [a[0]] + a[1..] == a;
    }
  }

  /** Three parts are refused. */
  lemma ThreePartsRefused()
    ensures ParseEntry("a#b#c") == None
  {
    assert "a#b#c" == "a" + ['#'] + ("b" + ['#'] + "c");
    PiecesOfTwo("b", "c", '#');
    PiecesPrefix("a", "b" + ['#'] + "c", '#');
    assert Split("a#b#c", '#') == ["a", "b", "c"];
  }

  /** The default, empty property is one empty entry, which is refused with a warning. */
  lemma EmptyPropertyWarnsOnce()
    ensures CustomMatchers("") == []
    ensures CustomWarnings("") == [Warning("")]
  {
    assert Split("", ',') == [""];
    assert Split("", '#') == [""];
    assert [""][..0] == [];
  }

  // ---------------------------------------------------------------------------------------------
  // Methods, their annotations and the unit-test decision

  /** An annotation on a symbol: its type and the names of the values it sets. */
  datatype Annotation = Annotation(typeName: string, valueNames: seq<string>)

  /** What the rule reads of a method symbol: its name, whether it is abstract, its own
      annotations, the annotations of each symbol of its overridden-symbol chain (nearest first)
      and its enclosing class, when known. */
  datatype MethodInfo = MethodInfo(
    simpleName: string,
    isAbstract: bool,
    annotations: seq<Annotation>,
    overridden: seq<seq<Annotation>>,
    enclosingClass: Option<TypeFacts>)

  predicate AnnotatedWith(annotations: seq<Annotation>, typeName: string) {
    exists i :: 0 <= i < |annotations| && annotations[i].typeName == typeName
  }

  /** SymbolMetadata.valuesForAnnotation: the values of the first annotation of that type. */
  function ValuesForAnnotation(annotations: seq<Annotation>, typeName: string): (r: Option<seq<string>>)
    ensures r.None? <==> !AnnotatedWith(annotations, typeName)
  {
    if annotations == [] then None
    else if annotations[0].typeName == typeName then Some(annotations[0].valueNames)
    else ValuesForAnnotation(annotations[1..], typeName)
  }

  /** The symbol and its overridden symbols, as the annotation lists of each. */
  function SymbolChain(info: MethodInfo): seq<seq<Annotation>> {
    [info.annotations] + info.overridden
  }

  /** A unit test is a method some symbol of whose overridden chain is annotated with JUnit's Test,
      or a method whose name starts with "test" in a subclass of JUnit 3's TestCase. */
  predicate IsUnitTestMethod(info: MethodInfo) {
    || (exists i :: 0 <= i < |SymbolChain(info)| && AnnotatedWith(SymbolChain(info)[i], JUNIT_TEST))
    || (info.enclosingClass.Some? && IsSubtypeOf(info.enclosingClass.value, "junit.framework.TestCase") &&
        StartsWith(info.simpleName, "test"))
  }

  /** The method declares an expected exception: its Test annotation sets `expected`. */
  predicate ExpectsException(info: MethodInfo) {
    var values := ValuesForAnnotation(info.annotations, JUNIT_TEST);
    values.Some? && "expected" in values.value
  }

  /** isUnitTest: walk the overridden-symbol chain looking for the Test annotation, then fall back
      to the JUnit 3 naming convention. */
  method IsUnitTest(info: MethodInfo) returns (r: bool)
    ensures r == IsUnitTestMethod(info)
  {
    var chain := SymbolChain(info);
    var i := 0;
    while i < |chain|
      invariant 0 <= i <= |chain|
      invariant forall j :: 0 <= j < i ==> !AnnotatedWith(chain[j], JUNIT_TEST)
    {
      var annotations := chain[i];
      var k := 0;
      while k < |annotations|
        invariant 0 <= k <= |annotations|
        invariant forall j :: 0 <= j < k ==> annotations[j].typeName != JUNIT_TEST
      {
        if annotations[k].typeName == JUNIT_TEST {
          return true;
        }
        k := k + 1;
      }
      i := i + 1;
    }
    var enclosingClass := info.enclosingClass;
    r := enclosingClass.Some? && IsSubtypeOf(enclosingClass.value, "junit.framework.TestCase") &&
         StartsWith(info.simpleName, "test");
  }

  /** expectAssertion: look for a value named `expected` on the method's Test annotation. */
  method ExpectAssertion(info: MethodInfo) returns (r: bool)
    ensures r == ExpectsException(info)
  {
    var annotationValues := ValuesForAnnotation(info.annotations, JUNIT_TEST);
    if annotationValues.Some? {
      var values := annotationValues.value;
      for i := 0 to |values|
        invariant forall j :: 0 <= j < i ==> values[j] != "expected"
      {
        if values[i] == "expected" {
          return true;
        }
      }
    }
    return false;
  }

  // ---------------------------------------------------------------------------------------------
  // The trees the rule visits

  /** A syntax tree reduced to what the rule looks at. `children` are all the sub-trees the
      default traversal visits; a method reference, a method invocation and a constructor call
      carry the facts of the method they call. */
  datatype JTree =
    | MethodDecl(info: MethodInfo, children: seq<JTree>)
    | Invocation(call: Call, children: seq<JTree>)
    | MethodReference(call: Call, children: seq<JTree>)
    | NewClass(call: Call, children: seq<JTree>)
    | Other(children: seq<JTree>)

  /** The symbol table of a file: the declaration of each symbol declared in it. */
  type Declarations = map<nat, JTree>

  /** What AssertionVisitor finds in a tree: an invocation or method reference matched by the known
      or the custom matchers, or a JMockit Verifications block, anywhere in it. */
  predicate DirectAssertion(custom: seq<Matcher>, t: JTree)
    decreases t
  {
    match t
    case Invocation(call, children) =>
      DirectAssertionIn(custom, children) || AnyMatch(ASSERTION_INVOCATION_MATCHERS, call) || AnyMatch(custom, call)
    case MethodReference(call, children) =>
      DirectAssertionIn(custom, children) || AnyMatch(ASSERTION_INVOCATION_MATCHERS, call) || AnyMatch(custom, call)
    case NewClass(call, children) => DirectAssertionIn(custom, children) || Matches(JMOCKIT_CONSTRUCTOR_MATCHER, call)
    case MethodDecl(_, children) => DirectAssertionIn(custom, children)
    case Other(children) => DirectAssertionIn(custom, children)
  }

  predicate DirectAssertionIn(custom: seq<Matcher>, ts: seq<JTree>)
    decreases ts
  {
    ts != [] && (DirectAssertion(custom, ts[0]) || DirectAssertionIn(custom, ts[1..]))
  }

  /** A method of the file contains an assertion of its own; a symbol without declaration does
      not. */
  predicate LocalAssertion(custom: seq<Matcher>, declarations: Declarations, symbol: nat) {
    symbol in declarations && DirectAssertion(custom, declarations[symbol])
  }

  /** isAssertion for an invocation or a method reference. */
  predicate IsAssertionCall(custom: seq<Matcher>, declarations: Declarations, call: Call) {
    AnyMatch(ASSERTION_INVOCATION_MATCHERS, call) || AnyMatch(custom, call) ||
    LocalAssertion(custom, declarations, call.symbol)
  }

  /** An assertion seen in the frame of the enclosing method: nested non-abstract methods have
      frames of their own and abstract ones are not entered, so neither contributes. */
  predicate FrameAssertion(custom: seq<Matcher>, declarations: Declarations, t: JTree)
    decreases t
  {
    match t
    case MethodDecl(_, _) => false
    case Invocation(call, children) =>
      FrameAssertionIn(custom, declarations, children) || IsAssertionCall(custom, declarations, call)
    case MethodReference(call, children) =>
      FrameAssertionIn(custom, declarations, children) || IsAssertionCall(custom, declarations, call)
    case NewClass(call, children) =>
      FrameAssertionIn(custom, declarations, children) || Matches(JMOCKIT_CONSTRUCTOR_MATCHER, call)
    case Other(children) => FrameAssertionIn(custom, declarations, children)
  }

  predicate FrameAssertionIn(custom: seq<Matcher>, declarations: Declarations, ts: seq<JTree>)
    decreases ts
  {
    ts != [] && (FrameAssertion(custom, declarations, ts[0]) || FrameAssertionIn(custom, declarations, ts[1..]))
  }

  /** A tree whose scan never looks for an assertion when it starts in a frame that does not check
      for one: every method in it is abstract, or is not a unit test and its own children are such
      trees. (The frame of any other node is the enclosing one, so it stays unchecked.) */
  predicate Quiet(t: JTree)
    decreases t
  {
    match t
    case MethodDecl(info, children) => info.isAbstract || (!IsUnitTestMethod(info) && QuietIn(children))
    case _ => QuietIn(t.children)
  }

  predicate QuietIn(ts: seq<JTree>)
    decreases ts
  {
    ts == [] || (Quiet(ts[0]) && QuietIn(ts[1..]))
  }

  datatype Issue = Issue(methodName: string, message: string)

  /** The issues of a tree, in the order they are reported: the methods nested in a method are
      reported before it. */
  function ExpectedIssues(custom: seq<Matcher>, declarations: Declarations, t: JTree): seq<Issue>
    decreases t
  {
    match t
    case MethodDecl(info, children) =>
      if info.isAbstract then []
      else
        ExpectedIssuesIn(custom, declarations, children) +
        (if IsUnitTestMethod(info) && !ExpectsException(info) && !FrameAssertionIn(custom, declarations, children)
         then [Issue(info.simpleName, MESSAGE)] else [])
    case _ => ExpectedIssuesIn(custom, declarations, t.children)
  }

  function ExpectedIssuesIn(custom: seq<Matcher>, declarations: Declarations, ts: seq<JTree>): seq<Issue>
    decreases ts
  {
    if ts == [] then [] else ExpectedIssues(custom, declarations, ts[0]) + ExpectedIssuesIn(custom, declarations, ts[1..])
  }

  /** The non-abstract unit-test methods of a tree, in the order their issues would be reported. */
  function TestMethods(t: JTree): seq<MethodInfo>
    decreases t
  {
    match t
    case MethodDecl(info, children) =>
      if info.isAbstract then []
      else TestMethodsIn(children) + (if IsUnitTestMethod(info) then [info] else [])
    case _ => TestMethodsIn(t.children)
  }

  function TestMethodsIn(ts: seq<JTree>): seq<MethodInfo>
    decreases ts
  {
    if ts == [] then [] else TestMethods(ts[0]) + TestMethodsIn(ts[1..])
  }

  /** A tree is quiet exactly when it holds no unit test that the scan enters. */
  lemma {:induction false} QuietIffNoTests(t: JTree)
    ensures Quiet(t) <==> TestMethods(t) == []
    decreases t, 1
  {
    match t
    case MethodDecl(info, children) =>
      QuietIffNoTestsIn(children);
    case _ =>
      QuietIffNoTestsIn(t.children);
  }

  lemma {:induction false} QuietIffNoTestsIn(ts: seq<JTree>)
    ensures QuietIn(ts) <==> TestMethodsIn(ts) == []
    decreases ts, 0
  {
    if ts != [] {
      QuietIffNoTests(ts[0]);
      QuietIffNoTestsIn(ts[1..]);
    }
  }

  // ---------------------------------------------------------------------------------------------
  // AssertionVisitor

  /** Scans the declaration of a method of the file for a direct assertion. */
  class AssertionVisitor {
    var hasAssertion: bool
    const customAssertionMethodsMatcher: seq<Matcher>

    constructor (custom: seq<Matcher>)
      ensures !hasAssertion && customAssertionMethodsMatcher == custom
    {
      hasAssertion := false;
      customAssertionMethodsMatcher := custom;
    }

    method Visit(t: JTree)
      modifies this
      ensures hasAssertion == (old(hasAssertion) || DirectAssertion(customAssertionMethodsMatcher, t))
      decreases t
    {
      VisitAll(t.children);
      match t {
        case Invocation(call, _) =>
          if !hasAssertion && (AnyMatch(ASSERTION_INVOCATION_MATCHERS, call) || AnyMatch(customAssertionMethodsMatcher, call)) {
            hasAssertion := true;
          }
        case MethodReference(call, _) =>
          if !hasAssertion && (AnyMatch(ASSERTION_INVOCATION_MATCHERS, call) || AnyMatch(customAssertionMethodsMatcher, call)) {
            hasAssertion := true;
          }
        case NewClass(call, _) =>
          if !hasAssertion && Matches(JMOCKIT_CONSTRUCTOR_MATCHER, call) {
            hasAssertion := true;
          }
        case MethodDecl(_, _) =>
        case Other(_) =>
      }
    }

    method VisitAll(ts: seq<JTree>)
      modifies this
      ensures hasAssertion == (old(hasAssertion) || DirectAssertionIn(customAssertionMethodsMatcher, ts))
      decreases ts
    {
      for i := 0 to |ts|
        invariant (hasAssertion || DirectAssertionIn(customAssertionMethodsMatcher, ts[i..])) ==
                  (old(hasAssertion) || DirectAssertionIn(customAssertionMethodsMatcher, ts))
      {
        assert ts[i..][1..] == ts[i + 1..];
        Visit(ts[i]);
      }
    }
  }

  // ---------------------------------------------------------------------------------------------
  // The checker

  /** One more entry adds its matcher or its warning, after those of the entries before it. */
  lemma ParseOneMore(entries: seq<string>, i: nat)
    requires i < |entries|
    ensures var parsed := ParseEntry(entries[i]);
            && ParsedMatchers(entries[..i + 1]) == ParsedMatchers(entries[..i]) + (if parsed.Some? then [parsed.value] else [])
            && ParseWarnings(entries[..i + 1]) == ParseWarnings(entries[..i]) + (if parsed.None? then [Warning(entries[i])] else [])
  {
    var prefix := entries[..i + 1];
    assert prefix[..i] == entries[..i];
    assert prefix[i] == entries[i];
  }

  /** The loop of getCustomAssertionMethodsMatcher over the entries of the property: the matchers
      of the accepted entries and the warnings of the refused ones, both in order. */
  method ParseCustomAssertionMethods(property: string) returns (matchers: seq<Matcher>, logged: seq<Warning>)
    ensures matchers == CustomMatchers(property) && logged == CustomWarnings(property)
  {
    var entries := Split(property, ',');
    matchers := [];
    logged := [];
    for i := 0 to |entries|
      invariant matchers == ParsedMatchers(entries[..i])
      invariant logged == ParseWarnings(entries[..i])
    {
      ParseOneMore(entries, i);
      var parsed := ParseEntry(entries[i]);
      if parsed.Some? {
        matchers := matchers + [parsed.value];
      } else {
        logged := logged + [Warning(entries[i])];
      }
    }
    assert entries[..|entries|] == entries;
  }

  /** The trees from index i on: tree i, then the rest. */
  lemma ScanStep(custom: seq<Matcher>, declarations: Declarations, ts: seq<JTree>, i: nat)
    requires i < |ts|
    ensures ExpectedIssuesIn(custom, declarations, ts[i..]) ==
            ExpectedIssues(custom, declarations, ts[i]) + ExpectedIssuesIn(custom, declarations, ts[i + 1..])
    ensures FrameAssertionIn(custom, declarations, ts[i..]) ==
            (FrameAssertion(custom, declarations, ts[i]) || FrameAssertionIn(custom, declarations, ts[i + 1..]))
  {
    assert ts[i..][0] == ts[i] && ts[i..][1..] == ts[i + 1..];
  }

  /** The issues of a non-abstract method: those nested in it, then its own. */
  lemma MethodIssuesAppended(custom: seq<Matcher>, declarations: Declarations, info: MethodInfo, children: seq<JTree>,
                             before: seq<Issue>)
    requires !info.isAbstract
    ensures before + ExpectedIssues(custom, declarations, MethodDecl(info, children)) ==
            (before + ExpectedIssuesIn(custom, declarations, children)) +
            (if IsUnitTestMethod(info) && !ExpectsException(info) && !FrameAssertionIn(custom, declarations, children)
             then [Issue(info.simpleName, MESSAGE)] else [])
  {
    IssuesAssociative(before, ExpectedIssuesIn(custom, declarations, children),
      if IsUnitTestMethod(info) && !ExpectsException(info) && !FrameAssertionIn(custom, declarations, children)
      then [Issue(info.simpleName, MESSAGE)] else []);
  }

  lemma IssuesAssociative(a: seq<Issue>, b: seq<Issue>, c: seq<Issue>)
    ensures a + (b + c) == (a + b) + c
  {
  }

  class AssertionsInTestsChecker {
    /** The customAssertionFrameworksMethods rule property. */
    const customAssertionFrameworksMethods: string
    /** What the property parses to: its matchers and the warnings of its refused entries. */
    ghost const custom: seq<Matcher>
    ghost const customWarnings: seq<Warning>
    /** The custom matchers, built on first use. */
    var customAssertionMethodsMatcher: Option<seq<Matcher>>
    /** The warnings logged while building them. */
    var warnings: seq<Warning>
    /** The two stacks, top at the end. */
    var methodContainsAssertion: seq<bool>
    var inUnitTest: seq<bool>
    var assertionInMethod: map<nat, bool>
    /** The symbol table of the file being scanned. */
    var declarations: Declarations
    var issues: seq<Issue>

    /** The two stacks have the same depth; the custom matchers, once built, are those of the
        property and were built with its warnings; every memo entry is the right answer for the
        current file. */
    ghost predicate Valid()
      reads this
    {
      |methodContainsAssertion| == |inUnitTest| && MemoValid()
    }

    /** The part of Valid that the stacks and the issues do not touch: the custom matchers and
        the memo. */
    ghost predicate MemoValid()
      reads this`customAssertionMethodsMatcher, this`warnings, this`assertionInMethod, this`declarations
    {
      MatchersValid() && MemoEntriesValid()
    }

    ghost predicate MatchersValid()
      reads this`customAssertionMethodsMatcher, this`warnings
    {
      && (customAssertionMethodsMatcher.Some? ==> customAssertionMethodsMatcher.value == custom)
      && warnings == (if customAssertionMethodsMatcher.Some? then customWarnings else [])
    }

    ghost predicate MemoEntriesValid()
      reads this`assertionInMethod, this`declarations
    {
      forall s :: s in assertionInMethod ==> assertionInMethod[s] == LocalAssertion(custom, declarations, s)
    }


    /** The ghost parse of the property is the real one (this reads constants only, so no update
        of the checker can change it). */
    ghost predicate Configured() {
      forall property {:trigger CustomMatchers(property)} :: property == customAssertionFrameworksMethods ==>
        custom == CustomMatchers(property) && customWarnings == CustomWarnings(property)
    }

    /** The parse of the property gives the configured matchers and warnings. */
    lemma ParsedAsConfigured(matchers: seq<Matcher>, logged: seq<Warning>)
      requires Configured()
      requires matchers == CustomMatchers(customAssertionFrameworksMethods)
      requires logged == CustomWarnings(customAssertionFrameworksMethods)
      ensures matchers == custom && logged == customWarnings
    {
    }

    /** The flag of the current frame: has it seen an assertion? */
    ghost function Top(): bool
      reads this
      requires |methodContainsAssertion| >= 1
    {
      methodContainsAssertion[|methodContainsAssertion| - 1]
    }

    /** The frames below the current one. */
    ghost function Below(): seq<bool>
      reads this
      requires |methodContainsAssertion| >= 1
    {
      methodContainsAssertion[..|methodContainsAssertion| - 1]
    }

    /** Is the current frame a unit test? */
    ghost function InTest(): bool
      reads this
      requires |inUnitTest| >= 1
    {
      inUnitTest[|inUnitTest| - 1]
    }

    /** The memo only gains entries within a file, and the custom matchers, once built, stay. */
    twostate predicate Grew()
      reads this
    {
      && old(assertionInMethod).Keys <= assertionInMethod.Keys
      && (old(customAssertionMethodsMatcher).Some? ==> customAssertionMethodsMatcher == old(customAssertionMethodsMatcher))
    }

    /** No matching was attempted: the custom matchers were not built (so no warning was logged)
        and the memo was neither read into nor written. */
    twostate predicate NothingLookedUp()
      reads this
    {
      && customAssertionMethodsMatcher == old(customAssertionMethodsMatcher)
      && warnings == old(warnings)
      && assertionInMethod == old(assertionInMethod)
    }

    constructor (property: string)
      ensures Valid() && Configured()
      ensures customAssertionFrameworksMethods == property && customAssertionMethodsMatcher == None
      ensures methodContainsAssertion == [] && inUnitTest == [] && assertionInMethod == map[]
      ensures warnings == [] && issues == [] && declarations == map[]
    {
      customAssertionFrameworksMethods := property;
      custom := CustomMatchers(property);
      customWarnings := CustomWarnings(property);
      customAssertionMethodsMatcher := None;
      warnings := [];
      methodContainsAssertion := [];
      inUnitTest := [];
      assertionInMethod := map[];
      declarations := map[];
      issues := [];
    }

    /** getCustomAssertionMethodsMatcher: parse the property on first use, logging one warning per
        refused entry, and reuse the result afterwards. */
    method GetCustomAssertionMethodsMatcher() returns (matchers: seq<Matcher>)
      requires Valid() && Configured()
      modifies this
      ensures Valid()
      ensures matchers == custom && customAssertionMethodsMatcher == Some(matchers)
      ensures old(customAssertionMethodsMatcher).Some? ==> warnings == old(warnings)
      ensures methodContainsAssertion == old(methodContainsAssertion) && inUnitTest == old(inUnitTest)
      ensures assertionInMethod == old(assertionInMethod) && declarations == old(declarations)
      ensures issues == old(issues)
    {
      if customAssertionMethodsMatcher.None? {
        var customMethodMatchers, logged := ParseCustomAssertionMethods(customAssertionFrameworksMethods);
        ParsedAsConfigured(customMethodMatchers, logged);
        assert warnings + logged == logged;
        warnings := warnings + logged;
        customAssertionMethodsMatcher := Some(customMethodMatchers);
      }
      matchers := customAssertionMethodsMatcher.value;
    }

    /** isLocalMethodWithAssertion: look the symbol up in the memo, or scan its declaration once
        and remember the answer. */
    method IsLocalMethodWithAssertion(symbol: nat) returns (r: bool)
      requires Valid() && Configured()
      modifies this
      ensures Valid() && Grew()
      ensures r == LocalAssertion(custom, declarations, symbol)
      ensures assertionInMethod == old(assertionInMethod)[symbol := r]
      ensures old(symbol in assertionInMethod) || symbol !in declarations ==>
        customAssertionMethodsMatcher == old(customAssertionMethodsMatcher) && warnings == old(warnings)
      ensures methodContainsAssertion == old(methodContainsAssertion) && inUnitTest == old(inUnitTest)
      ensures declarations == old(declarations) && issues == old(issues)
    {
      if symbol in assertionInMethod {
        r := assertionInMethod[symbol];
      } else {
        if symbol !in declarations {
          r := false;
        } else {
          var custom := GetCustomAssertionMethodsMatcher();
          var visitor := new AssertionVisitor(custom);
          visitor.Visit(declarations[symbol]);
          r := visitor.hasAssertion;
        }
        assertionInMethod := assertionInMethod[symbol := r];
      }
    }

    /** isAssertion, trying the known matchers, then the custom ones, then the methods of the file. */
    method IsAssertion(call: Call) returns (r: bool)
      requires Valid() && Configured()
      modifies this
      ensures Valid() && Grew()
      ensures r == IsAssertionCall(custom, declarations, call)
      ensures AnyMatch(ASSERTION_INVOCATION_MATCHERS, call) ==> NothingLookedUp()
      ensures AnyMatch(custom, call) ==> assertionInMethod == old(assertionInMethod)
      ensures methodContainsAssertion == old(methodContainsAssertion) && inUnitTest == old(inUnitTest)
      ensures declarations == old(declarations) && issues == old(issues)
    {
      r := AnyMatch(ASSERTION_INVOCATION_MATCHERS, call);
      if !r {
        var custom := GetCustomAssertionMethodsMatcher();
        r := AnyMatch(custom, call);
        if !r {
          r := IsLocalMethodWithAssertion(call.symbol);
        }
      }
    }

    /** shouldCheckForAssertion: the current frame is a unit test that has no assertion yet. */
    function ShouldCheckForAssertion(): bool
      reads this
      requires |methodContainsAssertion| >= 1 && |inUnitTest| >= 1
    {
      !methodContainsAssertion[|methodContainsAssertion| - 1] && inUnitTest[|inUnitTest| - 1]
    }

    /** The flag of the current frame, set to true (pop, then push). */
    method MarkAssertion()
      requires Valid() && Configured() && |methodContainsAssertion| >= 1
      modifies this
      ensures Valid() && |methodContainsAssertion| >= 1
      ensures Below() == old(Below()) && Top()
      ensures inUnitTest == old(inUnitTest) && issues == old(issues) && declarations == old(declarations)
      ensures NothingLookedUp()
    {
      methodContainsAssertion := methodContainsAssertion[..|methodContainsAssertion| - 1];
      methodContainsAssertion := methodContainsAssertion + [true];
    }

    /** scan: dispatch on the kind of the tree. After it, the frames below the current one are as
        before, the current flag became true exactly when the current frame is a unit test and the
        tree holds an assertion of that frame, and the issues of the tree were reported. */
    method Scan(t: JTree)
      requires Valid() && Configured() && |methodContainsAssertion| >= 1
      modifies this
      ensures Valid() && Grew() && |methodContainsAssertion| >= 1
      ensures inUnitTest == old(inUnitTest) && declarations == old(declarations)
      ensures Below() == old(Below())
      ensures Top() == (old(Top()) || (InTest() && FrameAssertion(custom, declarations, t)))
      ensures issues == old(issues) + ExpectedIssues(custom, declarations, t)
      ensures !old(ShouldCheckForAssertion()) && Quiet(t) ==> NothingLookedUp()
      decreases t, 2
    {
      match t {
        case MethodDecl(info, children) =>
          assert !FrameAssertion(custom, declarations, t);
          VisitMethod(info, children);
          assert Top() == old(Top()) && Below() == old(Below());
        case Invocation(call, children) =>
          assert ExpectedIssues(custom, declarations, t) == ExpectedIssuesIn(custom, declarations, children);
          assert FrameAssertion(custom, declarations, t) ==
            (FrameAssertionIn(custom, declarations, children) || IsAssertionCall(custom, declarations, call));
          VisitInvocation(call, children);
        case MethodReference(call, children) =>
          assert ExpectedIssues(custom, declarations, t) == ExpectedIssuesIn(custom, declarations, children);
          assert FrameAssertion(custom, declarations, t) ==
            (FrameAssertionIn(custom, declarations, children) || IsAssertionCall(custom, declarations, call));
          VisitInvocation(call, children);
        case NewClass(call, children) =>
          assert ExpectedIssues(custom, declarations, t) == ExpectedIssuesIn(custom, declarations, children);
          assert FrameAssertion(custom, declarations, t) ==
            (FrameAssertionIn(custom, declarations, children) || Matches(JMOCKIT_CONSTRUCTOR_MATCHER, call));
          VisitNewClass(call, children);
        case Other(children) =>
          assert ExpectedIssues(custom, declarations, t) == ExpectedIssuesIn(custom, declarations, children);
          assert FrameAssertion(custom, declarations, t) == FrameAssertionIn(custom, declarations, children);
          ScanChildren(children);
      }
    }

    /** visitMethodInvocation and visitMethodReference: scan the children, then check the call. */
    method VisitInvocation(call: Call, children: seq<JTree>)
      requires Valid() && Configured() && |methodContainsAssertion| >= 1
      modifies this
      ensures Valid() && Grew() && |methodContainsAssertion| >= 1
      ensures inUnitTest == old(inUnitTest) && declarations == old(declarations)
      ensures Below() == old(Below())
      ensures Top() == (old(Top()) || (InTest() &&
        (FrameAssertionIn(custom, declarations, children) || IsAssertionCall(custom, declarations, call))))
      ensures issues == old(issues) + ExpectedIssuesIn(custom, declarations, children)
      ensures !old(ShouldCheckForAssertion()) && QuietIn(children) ==> NothingLookedUp()
      decreases children, 1
    {
      ScanChildren(children);
      if ShouldCheckForAssertion() {
        var isAssertion := IsAssertion(call);
        if isAssertion {
          MarkAssertion();
        }
      }
    }

    /** visitNewClass: scan the children, then check for a JMockit Verifications block. */
    method VisitNewClass(call: Call, children: seq<JTree>)
      requires Valid() && Configured() && |methodContainsAssertion| >= 1
      modifies this
      ensures Valid() && Grew() && |methodContainsAssertion| >= 1
      ensures inUnitTest == old(inUnitTest) && declarations == old(declarations)
      ensures Below() == old(Below())
      ensures Top() == (old(Top()) || (InTest() &&
        (FrameAssertionIn(custom, declarations, children) || Matches(JMOCKIT_CONSTRUCTOR_MATCHER, call))))
      ensures issues == old(issues) + ExpectedIssuesIn(custom, declarations, children)
      ensures !old(ShouldCheckForAssertion()) && QuietIn(children) ==> NothingLookedUp()
      decreases children, 1
    {
      ScanChildren(children);
      if ShouldCheckForAssertion() && Matches(JMOCKIT_CONSTRUCTOR_MATCHER, call) {
        MarkAssertion();
      }
    }

    method ScanChildren(ts: seq<JTree>)
      requires Valid() && Configured() && |methodContainsAssertion| >= 1
      modifies this
      ensures Valid() && Grew() && |methodContainsAssertion| >= 1
      ensures inUnitTest == old(inUnitTest) && declarations == old(declarations)
      ensures Below() == old(Below())
      ensures Top() == (old(Top()) || (InTest() && FrameAssertionIn(custom, declarations, ts)))
      ensures issues == old(issues) + ExpectedIssuesIn(custom, declarations, ts)
      ensures !old(ShouldCheckForAssertion()) && QuietIn(ts) ==> NothingLookedUp()
      decreases ts, 0
    {
      for i := 0 to |ts|
        invariant Valid() && Grew() && |methodContainsAssertion| >= 1
        invariant inUnitTest == old(inUnitTest) && declarations == old(declarations)
        invariant Below() == old(Below()) && (old(Top()) ==> Top())
        invariant QuietIn(ts) ==> QuietIn(ts[i..])
        invariant !old(ShouldCheckForAssertion()) && QuietIn(ts) ==> NothingLookedUp()
        invariant (Top() || (InTest() && FrameAssertionIn(custom, declarations, ts[i..]))) ==
                  (old(Top()) || (InTest() && FrameAssertionIn(custom, declarations, ts)))
        invariant old(issues) + ExpectedIssuesIn(custom, declarations, ts) ==
                  issues + ExpectedIssuesIn(custom, declarations, ts[i..])
      {
        ghost var before := issues;
        ScanStep(custom, declarations, ts, i);
        assert ts[i..][1..] == ts[i + 1..];
        Scan(ts[i]);
        IssuesAssociative(before, ExpectedIssues(custom, declarations, ts[i]), ExpectedIssuesIn(custom, declarations, ts[i + 1..]));
      }
      assert ts[|ts|..] == [];
    }

    /** visitMethod: skip abstract methods; otherwise push a frame, scan the method, pop the frame
        and report a unit test without assertion that expects no exception. */
    method VisitMethod(info: MethodInfo, children: seq<JTree>)
      requires Valid() && Configured() && |methodContainsAssertion| >= 1
      modifies this
      ensures Valid() && Grew()
      ensures inUnitTest == old(inUnitTest) && methodContainsAssertion == old(methodContainsAssertion)
      ensures declarations == old(declarations)
      ensures issues == old(issues) + ExpectedIssues(custom, declarations, MethodDecl(info, children))
      ensures Quiet(MethodDecl(info, children)) ==> NothingLookedUp()
      decreases children, 2
    {
      if info.isAbstract {
        return;
      }
      var isUnitTest := IsUnitTest(info);
      var containsAssertion := ScanInOwnFrame(isUnitTest, children);
      if isUnitTest {
        var expected := ExpectAssertion(info);
        if !expected && !containsAssertion {
          issues := issues + [Issue(info.simpleName, MESSAGE)];
        }
      }
      MethodIssuesAppended(custom, declarations, info, children, old(issues));
    }

    /** The frame of visitMethod: push the method's flags, scan its children, pop the flags and
        tell whether the method saw an assertion of its own. */
    method ScanInOwnFrame(isUnitTest: bool, children: seq<JTree>) returns (containsAssertion: bool)
      requires Valid() && Configured() && |methodContainsAssertion| >= 1
      modifies this
      ensures Valid() && Grew()
      ensures inUnitTest == old(inUnitTest) && methodContainsAssertion == old(methodContainsAssertion)
      ensures declarations == old(declarations)
      ensures containsAssertion == (isUnitTest && FrameAssertionIn(custom, declarations, children))
      ensures issues == old(issues) + ExpectedIssuesIn(custom, declarations, children)
      ensures !isUnitTest && QuietIn(children) ==> NothingLookedUp()
      decreases children, 1
    {
      inUnitTest := inUnitTest + [isUnitTest];
      methodContainsAssertion := methodContainsAssertion + [false];
      assert Below() == old(methodContainsAssertion) && !Top();
      ScanChildren(children);
      containsAssertion := methodContainsAssertion[|methodContainsAssertion| - 1];
      assert methodContainsAssertion[..|methodContainsAssertion| - 1] == old(methodContainsAssertion);
      methodContainsAssertion := methodContainsAssertion[..|methodContainsAssertion| - 1];
      assert inUnitTest[..|inUnitTest| - 1] == old(inUnitTest);
      inUnitTest := inUnitTest[..|inUnitTest| - 1];
    }

    /** scanFile: take the file's symbol table, clear the memo, scan the tree in a non-test frame,
        and clear the memo again. */
    method ScanFile(tree: JTree, fileDeclarations: Declarations)
      requires Valid() && Configured()
      modifies this
      ensures Valid()
      ensures issues == old(issues) + ExpectedIssues(custom, fileDeclarations, tree)
      ensures inUnitTest == old(inUnitTest) && methodContainsAssertion == old(methodContainsAssertion)
      ensures assertionInMethod == map[] && declarations == fileDeclarations
      ensures old(customAssertionMethodsMatcher).Some? ==> customAssertionMethodsMatcher == old(customAssertionMethodsMatcher)
    {
      declarations := fileDeclarations;
      assertionInMethod := map[];
      inUnitTest := inUnitTest + [false];
      methodContainsAssertion := methodContainsAssertion + [false];
      Scan(tree);
      methodContainsAssertion := methodContainsAssertion[..|methodContainsAssertion| - 1];
      inUnitTest := inUnitTest[..|inUnitTest| - 1];
      assertionInMethod := map[];
    }
  }

  // ---------------------------------------------------------------------------------------------
  // Properties of the expected issues

  /** A method gets an issue exactly when it is not abstract, is a unit test, expects no exception
      and saw no assertion in its own frame. */
  lemma MethodIssue(custom: seq<Matcher>, declarations: Declarations, info: MethodInfo, children: seq<JTree>)
    ensures
      var own := ExpectedIssues(custom, declarations, MethodDecl(info, children));
      var nested := ExpectedIssuesIn(custom, declarations, children);
      (info.isAbstract ==> own == []) &&
      (!info.isAbstract ==>
        own[..|nested|] == nested &&
        (|own| == |nested| + 1 <==>
          IsUnitTestMethod(info) && !ExpectsException(info) && !FrameAssertionIn(custom, declarations, children)) &&
        (|own| == |nested| + 1 ==> own[|nested|] == Issue(info.simpleName, MESSAGE)) &&
        |own| <= |nested| + 1)
  {
  }

  /** Every issue carries the message and names one of the tests, and there are no more issues
      than tests. */
  ghost predicate ReportedOn(issues: seq<Issue>, tests: seq<MethodInfo>) {
    && |issues| <= |tests|
    && forall k :: 0 <= k < |issues| ==>
         issues[k].message == MESSAGE && exists j :: 0 <= j < |tests| && issues[k].methodName == tests[j].simpleName
  }

  lemma ReportedOnAppend(a: seq<Issue>, ta: seq<MethodInfo>, b: seq<Issue>, tb: seq<MethodInfo>)
    requires ReportedOn(a, ta) && ReportedOn(b, tb)
    ensures ReportedOn(a + b, ta + tb)
  {
    var all, tests := a + b, ta + tb;
    forall k | 0 <= k < |all|
      ensures all[k].message == MESSAGE && exists j :: 0 <= j < |tests| && all[k].methodName == tests[j].simpleName
    {
      if k < |a| {
        assert all[k] == a[k];
        var j :| 0 <= j < |ta| && a[k].methodName == ta[j].simpleName;
        assert tests[j] == ta[j];
      } else {
        assert all[k] == b[k - |a|];
        var j :| 0 <= j < |tb| && b[k - |a|].methodName == tb[j].simpleName;
        assert tests[|ta| + j] == tb[j];
      }
    }
  }

  /** Issues are only ever reported on unit tests: the i-th issue is on the method named by some
      unit test of the tree, and there are at most as many issues as unit tests. */
  lemma {:induction false} IssuesOnUnitTests(custom: seq<Matcher>, declarations: Declarations, t: JTree)
    ensures ReportedOn(ExpectedIssues(custom, declarations, t), TestMethods(t))
    decreases t
  {
    match t {
      case MethodDecl(info, children) =>
        if !info.isAbstract {
          IssuesOnUnitTestsIn(custom, declarations, children);
          var own := if IsUnitTestMethod(info) && !ExpectsException(info) && !FrameAssertionIn(custom, declarations, children)
                     then [Issue(info.simpleName, MESSAGE)] else [];
          var ownTests := if IsUnitTestMethod(info) then [info] else [];
          if own != [] {
            assert own[0].methodName == ownTests[0].simpleName;
          }
          assert ReportedOn(own, ownTests);
          ReportedOnAppend(ExpectedIssuesIn(custom, declarations, children), TestMethodsIn(children), own, ownTests);
        }
      case _ =>
        IssuesOnUnitTestsIn(custom, declarations, t.children);
    }
  }

  lemma {:induction false} IssuesOnUnitTestsIn(custom: seq<Matcher>, declarations: Declarations, ts: seq<JTree>)
    ensures ReportedOn(ExpectedIssuesIn(custom, declarations, ts), TestMethodsIn(ts))
    decreases ts
  {
    if ts != [] {
      IssuesOnUnitTests(custom, declarations, ts[0]);
      IssuesOnUnitTestsIn(custom, declarations, ts[1..]);
      ReportedOnAppend(ExpectedIssues(custom, declarations, ts[0]), TestMethods(ts[0]),
                       ExpectedIssuesIn(custom, declarations, ts[1..]), TestMethodsIn(ts[1..]));
    }
  }

  /** An assertion inside a nested method (a method of an anonymous or local class) does not count
      for the enclosing test. */
  lemma NestedMethodHidesAssertion(custom: seq<Matcher>, declarations: Declarations, info: MethodInfo, children: seq<JTree>)
    ensures !FrameAssertion(custom, declarations, MethodDecl(info, children))
  {
  }

  /** A JUnit test whose body calls org.junit.Assert.assertEquals has no issue; the same test with
      an empty body has one. */
  lemma JUnitScenario(custom: seq<Matcher>, declarations: Declarations)
    ensures
      var test := MethodInfo("shouldWork", false, [Annotation(JUNIT_TEST, [])], [], None);
      var assertEquals := Call(1, true, TypeFacts("org.junit.Assert", {}), "assertEquals", []);
      && ExpectedIssues(custom, declarations, MethodDecl(test, [Invocation(assertEquals, [])])) == []
      && ExpectedIssues(custom, declarations, MethodDecl(test, [])) == [Issue("shouldWork", MESSAGE)]
  {
    var test := MethodInfo("shouldWork", false, [Annotation(JUNIT_TEST, [])], [], None);
    var assertEquals := Call(1, true, TypeFacts("org.junit.Assert", {}), "assertEquals", []);
    assert SymbolChain(test)[0][0].typeName == JUNIT_TEST;
    assert IsUnitTestMethod(test);
    assert "assertEquals"[..6] == "assert";
    assert Matches(JUNIT_MATCHERS[0], assertEquals);
    AnyMatchAppend(JUNIT_MATCHERS, OTHER_FRAMEWORK_MATCHERS, assertEquals);
    var body := [Invocation(assertEquals, [])];
    assert FrameAssertion(custom, declarations, body[0]);
    assert FrameAssertionIn(custom, declarations, body);
    assert ExpectedIssuesIn(custom, declarations, body[0].children) == [];
    assert ExpectedIssuesIn(custom, declarations, body) == [];
    assert ValuesForAnnotation(test.annotations, JUNIT_TEST) == Some([]);
    assert !ExpectsException(test);
  }

  /** A test expecting an exception is never reported. */
  lemma ExpectedExceptionScenario(custom: seq<Matcher>, declarations: Declarations)
    ensures
      var test := MethodInfo("throws", false, [Annotation(JUNIT_TEST, ["expected"])], [], None);
      ExpectedIssues(custom, declarations, MethodDecl(test, [])) == []
  {
    var test := MethodInfo("throws", false, [Annotation(JUNIT_TEST, ["expected"])], [], None);
    assert ExpectsException(test);
  }
}

/** Rule S3553: an Optional should not be a method parameter. For each parameter of a method
    or constructor that overrides nothing, the rule suggests the type to use instead. */
module OptionalAsParameter {
  import opened JavaLang

  datatype Option<T> = None | Some(value: T)

  /** The type of a parameter as the rule reads it: its fully qualified name and the erasure names
      of its type arguments (none for a raw or non-generic type). */
  datatype ParameterType = ParameterType(fqn: string, typeArgumentNames: seq<string>)

  /** A parameter: the annotations on its symbol (fully qualified names), its type, and its type
      tree (the position where the issue is reported). */
  datatype Parameter = Parameter(annotations: seq<string>, parameterType: ParameterType, typeTree: nat)

  /** A method or constructor: whether it overrides something (None when that cannot be
      decided) and its parameters. */
  datatype MethodTree = MethodTree(isOverriding: Option<bool>, parameters: seq<Parameter>)

  datatype Issue = Issue(tree: nat, message: string)

  const JAVA_UTIL_OPTIONAL: string := "java.util.Optional"
  const GUAVA_OPTIONAL: string := "com.google.common.base.Optional"
  const PRIMITIVE_OPTIONALS: seq<string> := ["java.util.OptionalDouble", "java.util.OptionalInt", "java.util.OptionalLong"]
  const REQUEST_PARAM: string := "org.springframework.web.bind.annotation.RequestParam"
  const PATH_VARIABLE: string := "org.springframework.web.bind.annotation.PathVariable"

  /** formatMsg: the suggestion naming the type to use instead. */
  function FormatMsg(typeName: string): string {
    "Specify a \"" + typeName + "\" parameter instead."
  }

  predicate IsParameterized(t: ParameterType) {
    |t.typeArgumentNames| > 0
  }

  /** The first primitive optional that the type is, if any. */
  function FirstPrimitiveOptional(t: ParameterType, candidates: seq<string>): (r: Option<string>)
    ensures r.None? <==> t.fqn !in candidates
    ensures r.Some? ==> r.value == t.fqn
  {
    if candidates == [] then None
    else if t.fqn == candidates[0] then Some(candidates[0])
    else FirstPrimitiveOptional(t, candidates[1..])
  }

  /** expectedTypeInsteadOfOptional: a message for the Optional types, none for any other. */
  function ExpectedTypeInsteadOfOptional(t: ParameterType): (r: Option<string>)
    ensures r.Some? <==> t.fqn in [JAVA_UTIL_OPTIONAL, GUAVA_OPTIONAL] + PRIMITIVE_OPTIONALS
    ensures t.fqn in [JAVA_UTIL_OPTIONAL, GUAVA_OPTIONAL] && IsParameterized(t) ==> r == Some(FormatMsg(t.typeArgumentNames[0]))
    ensures t.fqn in [JAVA_UTIL_OPTIONAL, GUAVA_OPTIONAL] && !IsParameterized(t) ==> r == Some("Specify a type instead.")
  {
    if t.fqn == JAVA_UTIL_OPTIONAL || t.fqn == GUAVA_OPTIONAL then
      if IsParameterized(t) then Some(FormatMsg(t.typeArgumentNames[0]))
      else Some("Specify a type instead.")
    else
      var optional := FirstPrimitiveOptional(t, PRIMITIVE_OPTIONALS);
      if optional.Some? then
        assert optional.value in PRIMITIVE_OPTIONALS;
        Some(FormatMsg(ToLower(optional.value[|JAVA_UTIL_OPTIONAL|..])))
      else None
  }

  /** A primitive optional asks for the primitive named by the end of its name, lowercased. */
  lemma PrimitiveOptionalMessage(t: ParameterType)
    requires t.fqn in PRIMITIVE_OPTIONALS
    ensures ExpectedTypeInsteadOfOptional(t) == Some(FormatMsg(ToLower(t.fqn[|JAVA_UTIL_OPTIONAL|..])))
  {
    assert t.fqn != JAVA_UTIL_OPTIONAL && t.fqn != GUAVA_OPTIONAL;
  }

  /** A primitive optional named JAVA_UTIL_OPTIONAL + suffix asks for the lowercased suffix. */
  lemma PrimitiveOptionalNamed(t: ParameterType, suffix: string, lower: string)
    requires t.fqn == JAVA_UTIL_OPTIONAL + suffix && t.fqn in PRIMITIVE_OPTIONALS
    requires ToLower(suffix) == lower
    ensures ExpectedTypeInsteadOfOptional(t) == Some(FormatMsg(lower))
  {
    PrimitiveOptionalMessage(t);
    assert t.fqn[|JAVA_UTIL_OPTIONAL|..] == suffix;
  }

  lemma OptionalDoubleMessage(t: ParameterType)
    requires t.fqn == "java.util.OptionalDouble"
    ensures ExpectedTypeInsteadOfOptional(t) == Some("Specify a \"double\" parameter instead.")
  {
    DoubleTexts();
    LowerDouble();
    PrimitiveOptionalNamed(t, "Double", "double");
  }

  lemma DoubleTexts()
    ensures JAVA_UTIL_OPTIONAL + "Double" == "java.util.OptionalDouble"
    ensures FormatMsg("double") == "Specify a \"double\" parameter instead."
  {
  }

  lemma LowerDouble()
    ensures ToLower("Double") == "double"
  {
    var r := ToLower("Double");
    assert r[0] == 'd' && r[1] == 'o' && r[2] == 'u' && r[3] == 'b' && r[4] == 'l' && r[5] == 'e';
  }

  lemma OptionalIntMessage(t: ParameterType)
    requires t.fqn == "java.util.OptionalInt"
    ensures ExpectedTypeInsteadOfOptional(t) == Some("Specify a \"int\" parameter instead.")
  {
    IntTexts();
    LowerInt();
    PrimitiveOptionalNamed(t, "Int", "int");
  }

  lemma IntTexts()
    ensures JAVA_UTIL_OPTIONAL + "Int" == "java.util.OptionalInt"
    ensures FormatMsg("int") == "Specify a \"int\" parameter instead."
  {
  }

  lemma LowerInt()
    ensures ToLower("Int") == "int"
  {
    var r := ToLower("Int");
    assert r[0] == 'i' && r[1] == 'n' && r[2] == 't';
  }

  lemma OptionalLongMessage(t: ParameterType)
    requires t.fqn == "java.util.OptionalLong"
    ensures ExpectedTypeInsteadOfOptional(t) == Some("Specify a \"long\" parameter instead.")
  {
    LongTexts();
    LowerLong();
    PrimitiveOptionalNamed(t, "Long", "long");
  }

  lemma LongTexts()
    ensures JAVA_UTIL_OPTIONAL + "Long" == "java.util.OptionalLong"
    ensures FormatMsg("long") == "Specify a \"long\" parameter instead."
  {
  }

  lemma LowerLong()
    ensures ToLower("Long") == "long"
  {
    var r := ToLower("Long");
    assert r[0] == 'l' && r[1] == 'o' && r[2] == 'n' && r[3] == 'g';
  }

  /** The type arguments after the first do not change the message. */
  lemma OnlyFirstTypeArgumentNamed(name: string, rest: seq<string>)
    ensures ExpectedTypeInsteadOfOptional(ParameterType(JAVA_UTIL_OPTIONAL, [name] + rest)) == Some(FormatMsg(name))
    ensures ExpectedTypeInsteadOfOptional(ParameterType(GUAVA_OPTIONAL, [name] + rest)) == Some(FormatMsg(name))
  {
  }

  predicate IsAnnotatedWith(p: Parameter, annotationType: string) {
    annotationType in p.annotations
  }

  /** A parameter bound by Spring from the request is left alone. */
  predicate IsSkipped(p: Parameter) {
    IsAnnotatedWith(p, REQUEST_PARAM) || IsAnnotatedWith(p, PATH_VARIABLE)
  }

  /** The issue of one parameter: on its type tree when it is not skipped and its type has a
      message. */
  function IssueOf(p: Parameter): (r: seq<Issue>)
    ensures |r| <= 1
    ensures r != [] <==> !IsSkipped(p) && ExpectedTypeInsteadOfOptional(p.parameterType).Some?
    ensures r != [] ==> r[0] == Issue(p.typeTree, ExpectedTypeInsteadOfOptional(p.parameterType).value)
  {
    var msg := ExpectedTypeInsteadOfOptional(p.parameterType);
    if !IsSkipped(p) && msg.Some? then [Issue(p.typeTree, msg.value)] else []
  }

  /** The issues of the parameters, in order. */
  function ParameterIssues(parameters: seq<Parameter>): (r: seq<Issue>)
    ensures |r| <= |parameters|
  {
    if parameters == [] then []
    else IssueOf(parameters[0]) + ParameterIssues(parameters[1..])
  }

  /** Issue k of the parameters is the issue of parameter i. */
  predicate ParameterIssued(parameters: seq<Parameter>, k: nat, i: int) {
    && k < |ParameterIssues(parameters)|
    && 0 <= i < |parameters| && !IsSkipped(parameters[i])
    && ExpectedTypeInsteadOfOptional(parameters[i].parameterType).Some?
    && ParameterIssues(parameters)[k] == Issue(parameters[i].typeTree, ExpectedTypeInsteadOfOptional(parameters[i].parameterType).value)
  }

  /** Every parameter that is not skipped and whose type has a message gets its issue. */
  lemma {:induction false} ParameterIssuesComplete(parameters: seq<Parameter>, i: nat)
    requires i < |parameters| && !IsSkipped(parameters[i])
    requires ExpectedTypeInsteadOfOptional(parameters[i].parameterType).Some?
    ensures Issue(parameters[i].typeTree, ExpectedTypeInsteadOfOptional(parameters[i].parameterType).value) in ParameterIssues(parameters)
  {
    var head := IssueOf(parameters[0]);
    var rest := ParameterIssues(parameters[1..]);
    assert ParameterIssues(parameters) == head + rest;
    if i == 0 {
      assert head[0] in head + rest;
    } else {
      var tail := parameters[1..];
      assert tail[i - 1] == parameters[i];
      ParameterIssuesComplete(tail, i - 1);
      var issue := Issue(parameters[i].typeTree, ExpectedTypeInsteadOfOptional(parameters[i].parameterType).value);
      assert issue in rest;
      assert issue in head + rest;
    }
  }

  /** Every issue is on the type tree of a parameter that is not skipped, with the message of its
      type. */
  lemma {:induction false} ParameterIssuesSound(parameters: seq<Parameter>, k: nat)
    requires k < |ParameterIssues(parameters)|
    ensures exists i :: ParameterIssued(parameters, k, i)
  {
    var head := IssueOf(parameters[0]);
    var rest := ParameterIssues(parameters[1..]);
    assert ParameterIssues(parameters) == head + rest;
    if k < |head| {
      assert ParameterIssues(parameters)[k] == head[0];
      assert ParameterIssued(parameters, k, 0);
    } else {
      var tail := parameters[1..];
      ParameterIssuesSound(tail, k - |head|);
      var i :| ParameterIssued(tail, k - |head|, i);
      assert tail[i] == parameters[i + 1];
      assert ParameterIssues(parameters)[k] == rest[k - |head|];
      assert ParameterIssued(parameters, k, i + 1);
    }
  }

  /** visitNode: only a method that is known not to override anything is checked. */
  function VisitNode(m: MethodTree): (r: seq<Issue>)
    ensures m.isOverriding != Some(false) ==> r == []
    ensures m.isOverriding == Some(false) ==> r == ParameterIssues(m.parameters)
  {
    if m.isOverriding == Some(false) then ParameterIssues(m.parameters) else []
  }

  /** One Optional parameter of an overriding method, or of a method whose overriding cannot be
      decided, gives nothing; the same parameter in a method that overrides nothing is
      reported. */
  lemma OverridingScenario(p: Parameter)
    requires p.parameterType == ParameterType(JAVA_UTIL_OPTIONAL, ["String"]) && p.annotations == []
    ensures VisitNode(MethodTree(Some(true), [p])) == []
    ensures VisitNode(MethodTree(None, [p])) == []
    ensures VisitNode(MethodTree(Some(false), [p])) == [Issue(p.typeTree, "Specify a \"String\" parameter instead.")]
  {
    StringText();
    assert ExpectedTypeInsteadOfOptional(p.parameterType) == Some(FormatMsg("String"));
    assert !IsSkipped(p);
    assert [p][1..] == [];
    assert ParameterIssues([p]) == IssueOf(p);
  }

  lemma StringText()
    ensures FormatMsg("String") == "Specify a \"String\" parameter instead."
  {
  }

  /** A path variable of type Optional is not reported. */
  lemma PathVariableScenario(p: Parameter)
    requires p.parameterType == ParameterType(GUAVA_OPTIONAL, []) && p.annotations == [PATH_VARIABLE]
    ensures VisitNode(MethodTree(Some(false), [p])) == []
  {
    assert IsSkipped(p);
    assert [p][1..] == [];
  }
}

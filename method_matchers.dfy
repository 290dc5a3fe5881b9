/** Method matchers as the rules build them: a criterion on the owner type of the called method,
    one on its name and one on its parameters. The type facts a matcher needs (the fully qualified
    name of a type and the names of all its supertypes) are data of the call, as symbol resolution
    provides them. */
module MethodMatchers {
  import opened JavaLang

  /** A resolved type: its fully qualified name and the names of all its proper supertypes. */
  datatype TypeFacts = TypeFacts(fqn: string, supertypes: set<string>)

  /** Type.is(fqn). */
  predicate IsType(t: TypeFacts, fqn: string) {
    t.fqn == fqn
  }

  /** Type.isSubtypeOf(fqn): the type itself or one of its supertypes. */
  predicate IsSubtypeOf(t: TypeFacts, fqn: string) {
    t.fqn == fqn || fqn in t.supertypes
  }

  datatype TypeCriterion = AnyType | TypeIs(fqn: string) | SubtypeOf(fqn: string)

  datatype NameCriterion = AnyName | NameIs(name: string) | NameStartsWith(prefix: string)

  datatype ParametersCriterion = AnyParameters | Parameters(types: seq<TypeCriterion>)

  datatype Matcher = Matcher(owner: TypeCriterion, name: NameCriterion, parameters: ParametersCriterion)

  /** What the matchers see of a method invocation, method reference or constructor call: its
      symbol (a number; one number stands for the unknown symbol), whether that symbol is a resolved
      method symbol, the type that declares it, its name ("<init>" for a constructor) and its
      declared parameter types. */
  datatype Call = Call(symbol: nat, resolved: bool, owner: TypeFacts, name: string, parameterTypes: seq<TypeFacts>)

  predicate TypeMatches(c: TypeCriterion, t: TypeFacts) {
    match c
    case AnyType => true
    case TypeIs(fqn) => IsType(t, fqn)
    case SubtypeOf(fqn) => IsSubtypeOf(t, fqn)
  }

  predicate NameMatches(c: NameCriterion, name: string) {
    match c
    case AnyName => true
    case NameIs(n) => name == n
    case NameStartsWith(prefix) => StartsWith(name, prefix)
  }

  predicate ParametersMatch(c: ParametersCriterion, types: seq<TypeFacts>) {
    match c
    case AnyParameters => true
    case Parameters(criteria) =>
      |criteria| == |types| && forall i :: 0 <= i < |types| ==> TypeMatches(criteria[i], types[i])
  }

  /** MethodMatcher.matches: an unresolved symbol never matches. */
  predicate Matches(m: Matcher, call: Call) {
    call.resolved && TypeMatches(m.owner, call.owner) && NameMatches(m.name, call.name) &&
    ParametersMatch(m.parameters, call.parameterTypes)
  }

  /** MethodMatcherCollection.anyMatch, scanning the matchers in order. */
  function AnyMatch(ms: seq<Matcher>, call: Call): (r: bool)
    ensures r <==> exists i :: 0 <= i < |ms| && Matches(ms[i], call)
  {
    if ms == [] then false
    else Matches(ms[0], call) || AnyMatch(ms[1..], call)
  }

  /** A collection built from two lists matches exactly when one of them does. */
  lemma AnyMatchAppend(a: seq<Matcher>, b: seq<Matcher>, call: Call)
    ensures AnyMatch(a + b, call) <==> AnyMatch(a, call) || AnyMatch(b, call)
  {
    if AnyMatch(a + b, call) {
      var i :| 0 <= i < |a + b| && Matches((a + b)[i], call);
      if i >= |a| {
        assert b[i - |a|] == (a + b)[i];
      }
    }
    if AnyMatch(a, call) {
      var i :| 0 <= i < |a| && Matches(a[i], call);
      assert (a + b)[i] == a[i];
    }
    if AnyMatch(b, call) {
      var i :| 0 <= i < |b| && Matches(b[i], call);
      assert (a + b)[|a| + i] == b[i];
    }
  }
}

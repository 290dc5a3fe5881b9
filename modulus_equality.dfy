/** Rule S2197: the remainder of a division by a method parameter can be negative, so comparing
    it for equality with a non-zero int literal is suspicious, unless one operand of the remainder
    is a size or a length (never negative). The checker collects the parameters of the methods
    of the file and examines both operands of every `==`. */
module ModulusEquality {
  import opened JavaLang
  import opened MethodMatchers

  datatype Option<T> = None | Some(value: T)

  /** The type of an expression as the rule reads it: its type facts and whether it is an array. */
  datatype ExprType = ExprType(facts: TypeFacts, isArray: bool)

  /** The expressions the rule tells apart. Symbols are numbers; a literal is given with the value
      that LiteralUtils.intLiteralValue gives it (None when it is not an int literal); an operator
      token is given by its position number. */
  datatype Expr =
    | Identifier(symbol: nat)
    | MemberSelect(expression: Expr, expressionType: ExprType, identifier: string)
    | MethodInvocation(methodSelect: Expr)
    | Remainder(leftOperand: Expr, operatorToken: nat, rightOperand: Expr)
    | Literal(intValue: Option<int>)
    | OtherExpr

  /** The nodes the rule subscribes to: `==` and method declarations (with the symbols of their
      parameters). */
  datatype Node = EqualTo(leftOperand: Expr, rightOperand: Expr) | Method(parameters: seq<nat>)

  datatype Issue = Issue(token: nat, message: string)

  // ---------------------------------------------------------------------------------------------
  // The two classifiers

  /** isMethodParameter: an identifier of a parameter, possibly behind member selects and
      invocations. */
  predicate IsMethodParameter(methodParams: set<nat>, e: Expr) {
    match e
    case Identifier(symbol) => symbol in methodParams
    case MemberSelect(expression, _, _) => IsMethodParameter(methodParams, expression)
    case MethodInvocation(methodSelect) => IsMethodParameter(methodParams, methodSelect)
    case _ => false
  }

  /** The symbol at the root of a chain of member selects and invocations, if it is an
      identifier. */
  function RootSymbol(e: Expr): (r: Option<nat>)
    ensures e.Identifier? ==> r == Some(e.symbol)
    ensures !e.Identifier? && !e.MemberSelect? && !e.MethodInvocation? ==> r == None
  {
    match e
    case Identifier(symbol) => Some(symbol)
    case MemberSelect(expression, _, _) => RootSymbol(expression)
    case MethodInvocation(methodSelect) => RootSymbol(methodSelect)
    case _ => None
  }

  /** An expression traces to a parameter exactly when the root of its select chain is one. */
  lemma {:induction false} MethodParameterIsRoot(methodParams: set<nat>, e: Expr)
    ensures IsMethodParameter(methodParams, e) <==> TracesToParameter(methodParams, e)
  {
    match e
    case MemberSelect(expression, _, _) => MethodParameterIsRoot(methodParams, expression);
    case MethodInvocation(methodSelect) => MethodParameterIsRoot(methodParams, methodSelect);
    case _ =>
  }

  /** The root of the select chain of the expression is a parameter. */
  predicate TracesToParameter(methodParams: set<nat>, e: Expr) {
    RootSymbol(e).Some? && RootSymbol(e).value in methodParams
  }

  predicate IsArrayLength(t: ExprType, memberName: string) {
    t.isArray && memberName == "length"
  }

  predicate IsStringLength(t: ExprType, memberName: string) {
    IsType(t.facts, "java.lang.String") && memberName == "length"
  }

  predicate IsCollectionSize(t: ExprType, memberName: string) {
    IsSubtypeOf(t.facts, "java.util.Collection") && memberName == "size"
  }

  /** isSizeAccessor: `size` of a collection, `length` of a string or of an array, possibly
      invoked. */
  predicate IsSizeAccessor(e: Expr) {
    match e
    case MemberSelect(expression, t, name) => IsCollectionSize(t, name) || IsStringLength(t, name) || IsArrayLength(t, name)
    case MethodInvocation(methodSelect) => IsSizeAccessor(methodSelect)
    case _ => false
  }

  /** The expression with its invocations peeled off. */
  function Uninvoked(e: Expr): (r: Expr)
    ensures !r.MethodInvocation?
    ensures !e.MethodInvocation? ==> r == e
  {
    if e.MethodInvocation? then Uninvoked(e.methodSelect) else e
  }

  /** A size accessor is, once its invocations are peeled off, a member select of `size` on a
      collection or of `length` on a string or an array. */
  lemma {:induction false} SizeAccessorShape(e: Expr)
    ensures IsSizeAccessor(e) <==>
      var s := Uninvoked(e);
      s.MemberSelect? &&
      ((s.identifier == "size" && IsSubtypeOf(s.expressionType.facts, "java.util.Collection")) ||
       (s.identifier == "length" && (s.expressionType.isArray || s.expressionType.facts.fqn == "java.lang.String")))
  {
    if e.MethodInvocation? {
      SizeAccessorShape(e.methodSelect);
    }
  }

  /** A member select on a parameter that reads some other member is not a size accessor: the
      two classifiers are independent. */
  lemma ParameterFieldIsNoSize(t: ExprType)
    ensures IsMethodParameter({1}, MemberSelect(Identifier(1), t, "value"))
    ensures !IsSizeAccessor(MemberSelect(Identifier(1), t, "value"))
  {
  }

  // ---------------------------------------------------------------------------------------------
  // The decision

  /** LiteralUtils.intLiteralValue. */
  function IntLiteralValue(e: Expr): (r: Option<int>)
    ensures e.Literal? ==> r == e.intValue
    ensures !e.Literal? ==> r == None
  {
    if e.Literal? then e.intValue else None
  }

  function ModulusMessage(value: int): string {
    "The results of this modulus operation may not be " + (if value > 0 then "positive" else "negative") + "."
  }

  /** checkModulusAndIntLiteral: the issue, if any, for a remainder compared with an operand. */
  function ModulusIssue(methodParams: set<nat>, operand1: Expr, operand2: Expr): (r: Option<Issue>)
    ensures r.Some? <==>
      && operand1.Remainder?
      && IntLiteralValue(operand2).Some? && IntLiteralValue(operand2).value != 0
      && (TracesToParameter(methodParams, operand1.leftOperand) || TracesToParameter(methodParams, operand1.rightOperand))
      && !IsSizeAccessor(operand1.leftOperand) && !IsSizeAccessor(operand1.rightOperand)
    ensures r.Some? ==> r.value.token == operand1.operatorToken
    ensures r.Some? && operand2.intValue.value > 0 ==> r.value.message == "The results of this modulus operation may not be positive."
    ensures r.Some? && operand2.intValue.value < 0 ==> r.value.message == "The results of this modulus operation may not be negative."
  {
    if operand1.Remainder? then
      var intValue := IntLiteralValue(operand2);
      var leftOperand := operand1.leftOperand;
      var rightOperand := operand1.rightOperand;
      MethodParameterIsRoot(methodParams, leftOperand);
      MethodParameterIsRoot(methodParams, rightOperand);
      var usesMethodParam := IsMethodParameter(methodParams, leftOperand) || IsMethodParameter(methodParams, rightOperand);
      var usesSize := IsSizeAccessor(leftOperand) || IsSizeAccessor(rightOperand);
      if intValue.Some? && intValue.value != 0 && usesMethodParam && !usesSize then
        Some(Issue(operand1.operatorToken, ModulusMessage(intValue.value)))
      else None
    else None
  }

  function AsSeq(o: Option<Issue>): seq<Issue> {
    if o.Some? then [o.value] else []
  }

  /** The parameters a node adds to the set. */
  function ParametersOf(node: Node): set<nat> {
    match node
    case EqualTo(_, _) => {}
    case Method(parameters) => set p | p in parameters
  }

  /** The issues of a node: for `==`, the remainder on the left, then the one on the right. */
  function NodeIssues(methodParams: set<nat>, node: Node): seq<Issue> {
    match node
    case EqualTo(left, right) => AsSeq(ModulusIssue(methodParams, left, right)) + AsSeq(ModulusIssue(methodParams, right, left))
    case Method(_) => []
  }

  /** Both operand orders are examined: swapping the operands of `==` gives the same issues, in
      the other order. */
  lemma OperandOrderIrrelevant(methodParams: set<nat>, a: Expr, b: Expr)
    ensures multiset(NodeIssues(methodParams, EqualTo(a, b))) == multiset(NodeIssues(methodParams, EqualTo(b, a)))
  {
  }

  /** A remainder of a parameter compared with zero is never reported, whatever side it is on. */
  lemma ZeroIsFine(methodParams: set<nat>, modulus: Expr)
    ensures NodeIssues(methodParams, EqualTo(modulus, Literal(Some(0)))) == []
    ensures NodeIssues(methodParams, EqualTo(Literal(Some(0)), modulus)) == []
  {
  }

  /** `x % 2 == 1` for a parameter `x` is reported with "positive", and `-1 == x % 2` with
      "negative". */
  lemma ParameterRemainderScenario()
    ensures var modulus := Remainder(Identifier(7), 30, Literal(Some(2)));
            && NodeIssues({7}, EqualTo(modulus, Literal(Some(1)))) == [Issue(30, "The results of this modulus operation may not be positive.")]
            && NodeIssues({7}, EqualTo(Literal(Some(-1)), modulus)) == [Issue(30, "The results of this modulus operation may not be negative.")]
  {
    var modulus := Remainder(Identifier(7), 30, Literal(Some(2)));
    assert TracesToParameter({7}, modulus.leftOperand);
    assert ModulusIssue({7}, modulus, Literal(Some(1))).Some?;
    assert ModulusIssue({7}, modulus, Literal(Some(-1))).Some?;
  }

  /** `list.size() % n == 1` is not reported even when `n` is a parameter. */
  lemma SizeScenario(listType: TypeFacts)
    requires IsSubtypeOf(listType, "java.util.Collection")
    ensures var size := MethodInvocation(MemberSelect(Identifier(3), ExprType(listType, false), "size"));
            NodeIssues({9}, EqualTo(Remainder(size, 40, Identifier(9)), Literal(Some(1)))) == []
  {
    var select := MemberSelect(Identifier(3), ExprType(listType, false), "size");
    assert IsCollectionSize(select.expressionType, select.identifier);
    assert IsSizeAccessor(MethodInvocation(select));
  }

  // ---------------------------------------------------------------------------------------------
  // The checker

  class ModulusEqualityChecker {
    /** The symbols of the parameters of the methods visited in the current file. */
    var methodParams: set<nat>
    /** The issues reported so far. */
    var issues: seq<Issue>

    constructor ()
      ensures methodParams == {} && issues == []
    {
      methodParams := {};
      issues := [];
    }

    method LeaveFile()
      modifies this
      ensures methodParams == {} && issues == old(issues)
    {
      methodParams := {};
    }

    method CheckModulusAndIntLiteral(operand1: Expr, operand2: Expr)
      modifies this
      ensures methodParams == old(methodParams)
      ensures issues == old(issues) + AsSeq(ModulusIssue(methodParams, operand1, operand2))
    {
      if operand1.Remainder? {
        var intValue := IntLiteralValue(operand2);
        var leftOperand := operand1.leftOperand;
        var rightOperand := operand1.rightOperand;
        var usesMethodParam := IsMethodParameter(methodParams, leftOperand) || IsMethodParameter(methodParams, rightOperand);
        var usesSize := IsSizeAccessor(leftOperand) || IsSizeAccessor(rightOperand);
        if intValue.Some? && intValue.value != 0 && usesMethodParam && !usesSize {
          var sign := if intValue.value > 0 then "positive" else "negative";
          issues := issues + [Issue(operand1.operatorToken, "The results of this modulus operation may not be " + sign + ".")];
        }
      }
    }

    /** visitNode: examine both orders of an `==`; add the parameters of a method. The set only
        grows. */
    method VisitNode(node: Node)
      modifies this
      ensures methodParams == old(methodParams) + ParametersOf(node)
      ensures issues == old(issues) + NodeIssues(old(methodParams), node)
    {
      match node
      case EqualTo(left, right) =>
        CheckModulusAndIntLiteral(left, right);
        CheckModulusAndIntLiteral(right, left);
      case Method(parameters) =>
        for i := 0 to |parameters|
          invariant methodParams == old(methodParams) + set p | p in parameters[..i]
          invariant issues == old(issues)
        {
          assert parameters[..i + 1] == parameters[..i] + [parameters[i]];
          methodParams := methodParams + {parameters[i]};
        }
        assert parameters[..|parameters|] == parameters;
    }
  }

  /** The parameters seen in a file: those of every method among the nodes. */
  function FileParameters(nodes: seq<Node>): set<nat> {
    if nodes == [] then {} else FileParameters(nodes[..|nodes| - 1]) + ParametersOf(nodes[|nodes| - 1])
  }

  /** The issues of a file, each `==` judged with the parameters of the methods visited before
      it. */
  function FileIssues(nodes: seq<Node>): seq<Issue> {
    if nodes == [] then []
    else FileIssues(nodes[..|nodes| - 1]) + NodeIssues(FileParameters(nodes[..|nodes| - 1]), nodes[|nodes| - 1])
  }

  /** Visit the nodes of a file in order, then leave it: the issues are those of the file and the
      parameter set is empty again for the next file. */
  method ScanFile(checker: ModulusEqualityChecker, nodes: seq<Node>)
    requires checker.methodParams == {}
    modifies checker
    ensures checker.methodParams == {}
    ensures checker.issues == old(checker.issues) + FileIssues(nodes)
  {
    for i := 0 to |nodes|
      invariant checker.methodParams == FileParameters(nodes[..i])
      invariant checker.issues == old(checker.issues) + FileIssues(nodes[..i])
    {
      assert nodes[..i + 1][..i] == nodes[..i];
      checker.VisitNode(nodes[i]);
    }
    assert nodes[..|nodes|] == nodes;
    checker.LeaveFile();
  }

  /** The parameter set only grows within a file: what one prefix of the nodes adds stays for the
      rest. */
  lemma {:induction false} ParametersOnlyGrow(nodes: seq<Node>, k: nat)
    requires k <= |nodes|
    ensures FileParameters(nodes[..k]) <= FileParameters(nodes)
    decreases |nodes|
  {
    if k < |nodes| {
      var init := nodes[..|nodes| - 1];
      assert init[..k] == nodes[..k];
      ParametersOnlyGrow(init, k);
    } else {
      assert nodes[..k] == nodes;
    }
  }

  /** The parameters are not scoped per method: a parameter of an earlier method of the file still
      makes a later remainder suspicious. */
  lemma EarlierMethodParameterCounts()
    ensures var modulus := Remainder(Identifier(5), 12, Literal(Some(2)));
            FileIssues([Method([5]), Method([]), EqualTo(modulus, Literal(Some(1)))]) ==
              [Issue(12, "The results of this modulus operation may not be positive.")]
  {
    var nodes := [Method([5]), Method([]), EqualTo(Remainder(Identifier(5), 12, Literal(Some(2))), Literal(Some(1)))];
    assert nodes[..2][..1] == [Method([5])];
    assert nodes[..2][..1][..0] == [];
    assert ParametersOf(Method([5])) == {5};
    assert FileParameters(nodes[..2][..1]) == FileParameters([]) + ParametersOf(Method([5]));
    assert FileParameters(nodes[..2]) == {5};
    var modulus := Remainder(Identifier(5), 12, Literal(Some(2)));
    assert TracesToParameter({5}, modulus.leftOperand);
    assert ModulusIssue({5}, modulus, Literal(Some(1))).Some?;
    assert FileIssues(nodes[..2][..1]) == [];
    assert FileIssues(nodes[..2]) == [];
    assert NodeIssues({5}, nodes[2]) == [Issue(12, "The results of this modulus operation may not be positive.")];
  }
}

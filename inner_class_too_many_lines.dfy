/** Rule S2972: an inner class should not have too many lines of code. Only the classes nested
    directly in a top-level class are measured, so that a deeply nested class is reported once,
    through its outermost inner class. */
module InnerClassTooManyLines {
  import opened JavaLang

  datatype Option<T> = None | Some(value: T)

  /** The owner chain of a symbol, up to its package: a class (interface, enum or annotation
      type) or a member (a method, a variable) of its owner. */
  datatype Symbol = Package | TypeSymbol(owner: Symbol) | MemberSymbol(owner: Symbol)

  /** The type of a symbol as `isClass` sees it: a package has no type and a type symbol has a
      class type. A member is given a non-class type here. A field's declared type can be a class,
      but a member is never owned by a package, so the owner's owner test of IsMeasured fails for
      it anyway and its type never decides the outcome. */
  function TypeIsClass(s: Symbol): (r: Option<bool>)
    ensures r.None? <==> s.Package?
    ensures r == Some(true) <==> s.TypeSymbol?
  {
    match s
    case Package => None
    case TypeSymbol(_) => Some(true)
    case MemberSymbol(_) => Some(false)
  }

  /** A class, enum, interface or annotation type declaration: its symbol, its lines of code (as
      the metrics computer counts them) and the tree the issue is reported on. */
  datatype ClassTree = ClassTree(symbol: Symbol, linesOfCode: int, reportTree: nat)

  datatype Issue = Issue(tree: nat, message: string)

  const DEFAULT_MAX: int := 25

  function Message(lines: int, max: int): string {
    "Reduce this class from " + IntToString(lines) + " lines to the maximum allowed " + IntToString(max) +
    " or externalize it in a public class."
  }

  /** The owner of the class has a class type and is itself owned by a package. */
  predicate IsMeasured(symbol: Symbol) {
    !symbol.Package? &&
    var owner := symbol.owner;
    var ownerType := TypeIsClass(owner);
    ownerType.Some? && ownerType.value && owner.owner.Package?
  }

  /** Exactly the classes at the first level of nesting are measured: those whose owner is a
      top-level class. */
  lemma MeasuredIffFirstLevel(symbol: Symbol)
    requires symbol.TypeSymbol?
    ensures IsMeasured(symbol) <==> symbol.owner == TypeSymbol(Package)
  {
  }

  /** visitNode: an issue when a measured class has more lines of code than allowed. */
  function VisitNode(node: ClassTree, max: int): (r: Option<Issue>)
    ensures r.Some? <==> IsMeasured(node.symbol) && node.linesOfCode > max
    ensures r.Some? ==> r.value.tree == node.reportTree && r.value.message == Message(node.linesOfCode, max)
  {
    if IsMeasured(node.symbol) && node.linesOfCode > max then
      Some(Issue(node.reportTree, Message(node.linesOfCode, max)))
    else None
  }

  /** The threshold is strict: a class of exactly `max` lines passes, one more line is
      reported. */
  lemma ThresholdIsStrict(symbol: Symbol, reportTree: nat, max: int)
    requires IsMeasured(symbol)
    ensures VisitNode(ClassTree(symbol, max, reportTree), max).None?
    ensures VisitNode(ClassTree(symbol, max + 1, reportTree), max).Some?
  {
  }

  /** A larger maximum never adds an issue. */
  lemma MonotoneInMax(node: ClassTree, max1: int, max2: int)
    requires max1 <= max2
    ensures VisitNode(node, max2).Some? ==> VisitNode(node, max1).Some?
  {
  }

  /** Top-level classes, classes nested two levels deep and classes declared in a method are
      never measured. */
  lemma OtherNestingNotMeasured(s: Symbol)
    ensures !IsMeasured(TypeSymbol(Package))
    ensures !IsMeasured(TypeSymbol(TypeSymbol(TypeSymbol(s))))
    ensures !IsMeasured(TypeSymbol(MemberSymbol(s)))
  {
  }

  /** The message of a 26-line inner class under the default maximum. */
  lemma DefaultMaxScenario(reportTree: nat)
    ensures var inner := TypeSymbol(TypeSymbol(Package));
            && VisitNode(ClassTree(inner, 26, reportTree), DEFAULT_MAX) ==
                 Some(Issue(reportTree, "Reduce this class from 26 lines to the maximum allowed 25 or externalize it in a public class."))
            && VisitNode(ClassTree(inner, 25, reportTree), DEFAULT_MAX) == None
  {
    MessageOf26();
  }

  lemma MessageOf26()
    ensures Message(26, DEFAULT_MAX) == "Reduce this class from 26 lines to the maximum allowed 25 or externalize it in a public class."
  {
    DecimalForms();
    MessageText();
  }

  lemma DecimalForms()
    ensures IntToString(26) == "26" && IntToString(25) == "25"
  {
    assert NatToString(26) == NatToString(2) + [Digit(6)];
    assert NatToString(25) == NatToString(2) + [Digit(5)];
  }

  lemma MessageText()
    ensures "Reduce this class from " + "26" + " lines to the maximum allowed " + "25" + " or externalize it in a public class." ==
            "Reduce this class from 26 lines to the maximum allowed 25 or externalize it in a public class."
  {
    MessageTextHead();
    MessageTextMax();
    MessageTextTail();
  }

  lemma MessageTextHead()
    ensures "Reduce this class from " + "26" + " lines to the maximum allowed " == "Reduce this class from 26 lines to the maximum allowed "
  {
  }

  lemma MessageTextMax()
    ensures "Reduce this class from 26 lines to the maximum allowed " + "25" == "Reduce this class from 26 lines to the maximum allowed 25"
  {
  }

  lemma MessageTextTail()
    ensures "Reduce this class from 26 lines to the maximum allowed 25" + " or externalize it in a public class." ==
            "Reduce this class from 26 lines to the maximum allowed 25 or externalize it in a public class."
  {
  }
}

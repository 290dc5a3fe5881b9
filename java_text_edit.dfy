/** JavaTextEdit: the edits of a quick fix, each a text span of the file and the text that
    replaces it, built from the tokens of a tree. A token is given by where it starts and where it
    ends; a tree by its tokens, in source order (a broken tree has none). */
module JavaTextEdit {

  datatype Position = Position(line: int, column: int)

  datatype Token = Token(start: Position, end: Position)

  datatype Tree = Tree(tokens: seq<Token>)

  datatype TextSpan = TextSpan(startLine: int, startCharacter: int, endLine: int, endCharacter: int)

  datatype Edit = Edit(textSpan: TextSpan, replacement: string)

  /** The outcome of a factory: an edit, or the exception it throws. A tree without tokens has no
      span: the insertions throw IllegalStateException with their own message; a removal or
      replacement of such a tree fails on the missing token. */
  datatype Outcome = Built(edit: Edit) | IllegalState(message: string) | MissingToken

  const BEFORE_WITHOUT_TOKEN: string := "Trying to insert a quick fix before a Tree without token."

  const AFTER_WITHOUT_TOKEN: string := "Trying to insert a quick fix after a Tree without token."

  function FirstToken(t: Tree): Token
    requires |t.tokens| > 0
  {
    t.tokens[0]
  }

  function LastToken(t: Tree): Token
    requires |t.tokens| > 0
  {
    t.tokens[|t.tokens| - 1]
  }

  /** The span from one position to another. */
  function SpanFrom(from: Position, to: Position): TextSpan {
    TextSpan(from.line, from.column, to.line, to.column)
  }

  /** The width-zero span at a position. */
  predicate IsEmptySpanAt(s: TextSpan, p: Position) {
    s == SpanFrom(p, p)
  }

  /** The span between two tokens: from the start of the first (or its end when it is excluded)
      to the end of the second (or its start when it is excluded). */
  function SpanBetween(startToken: Token, includeStart: bool, endToken: Token, includeEnd: bool): TextSpan {
    var from := if includeStart then startToken.start else startToken.end;
    var to := if includeEnd then endToken.end else endToken.start;
    TextSpan(from.line, from.column, to.line, to.column)
  }

  /** The span of a whole tree: from the start of its first token to the end of its last. */
  function SpanOfTree(t: Tree): (r: TextSpan)
    requires |t.tokens| > 0
    ensures r == SpanFrom(FirstToken(t).start, LastToken(t).end)
  {
    SpanBetween(FirstToken(t), true, LastToken(t), true)
  }

  function ReplaceTree(t: Tree, replacement: string): (r: Outcome)
    ensures |t.tokens| == 0 <==> r == MissingToken
    ensures |t.tokens| > 0 ==>
      r.Built? && r.edit.replacement == replacement && r.edit.textSpan == SpanFrom(FirstToken(t).start, LastToken(t).end)
  {
    if |t.tokens| == 0 then MissingToken else Built(Edit(SpanOfTree(t), replacement))
  }

  function RemoveTree(t: Tree): (r: Outcome)
    ensures |t.tokens| == 0 <==> r == MissingToken
    ensures |t.tokens| > 0 ==>
      r.Built? && r.edit.replacement == "" && r.edit.textSpan == SpanFrom(FirstToken(t).start, LastToken(t).end)
  {
    ReplaceTree(t, "")
  }

  function InsertBeforeTree(t: Tree, text: string): (r: Outcome)
    ensures |t.tokens| == 0 <==> r == IllegalState(BEFORE_WITHOUT_TOKEN)
    ensures |t.tokens| > 0 ==>
      r.Built? && r.edit.replacement == text && IsEmptySpanAt(r.edit.textSpan, FirstToken(t).start)
  {
    if |t.tokens| == 0 then IllegalState(BEFORE_WITHOUT_TOKEN)
    else Built(Edit(SpanBetween(FirstToken(t), true, FirstToken(t), false), text))
  }

  function InsertAfterTree(t: Tree, text: string): (r: Outcome)
    ensures |t.tokens| == 0 <==> r == IllegalState(AFTER_WITHOUT_TOKEN)
    ensures |t.tokens| > 0 ==>
      r.Built? && r.edit.replacement == text && IsEmptySpanAt(r.edit.textSpan, LastToken(t).end)
  {
    if |t.tokens| == 0 then IllegalState(AFTER_WITHOUT_TOKEN)
    else Built(Edit(SpanBetween(LastToken(t), false, LastToken(t), true), text))
  }

  /** replaceBetweenTree with both bounds chosen. */
  function ReplaceBetweenTreeBounds(startToken: Token, includeStart: bool, endToken: Token, includeEnd: bool, replacement: string): (r: Edit)
    ensures r.replacement == replacement
    ensures includeStart ==> r.textSpan.startLine == startToken.start.line && r.textSpan.startCharacter == startToken.start.column
    ensures !includeStart ==> r.textSpan.startLine == startToken.end.line && r.textSpan.startCharacter == startToken.end.column
    ensures includeEnd ==> r.textSpan.endLine == endToken.end.line && r.textSpan.endCharacter == endToken.end.column
    ensures !includeEnd ==> r.textSpan.endLine == endToken.start.line && r.textSpan.endCharacter == endToken.start.column
  {
    Edit(SpanBetween(startToken, includeStart, endToken, includeEnd), replacement)
  }

  /** replaceBetweenTree with both bounds included. */
  function ReplaceBetweenTree(startToken: Token, endToken: Token, replacement: string): (r: Edit)
    ensures r.replacement == replacement
    ensures r.textSpan == SpanFrom(startToken.start, endToken.end)
  {
    ReplaceBetweenTreeBounds(startToken, true, endToken, true, replacement)
  }

  function RemoveBetweenTree(startToken: Token, endToken: Token): (r: Edit)
    ensures r.replacement == ""
    ensures r.textSpan == SpanFrom(startToken.start, endToken.end)
  {
    ReplaceBetweenTree(startToken, endToken, "")
  }

  // ---------------------------------------------------------------------------------------------
  // Relations between the factories

  /** Replacing a tree, removing it, and replacing or removing between its first and last token
      with both bounds included all cover the same span. */
  lemma WholeTreeSpansAgree(t: Tree, replacement: string)
    requires |t.tokens| > 0
    ensures RemoveTree(t).edit.textSpan == ReplaceTree(t, replacement).edit.textSpan
    ensures ReplaceBetweenTree(FirstToken(t), LastToken(t), replacement).textSpan == ReplaceTree(t, replacement).edit.textSpan
    ensures RemoveBetweenTree(FirstToken(t), LastToken(t)) == RemoveTree(t).edit
  {
  }

  /** The insertions sit at the two ends of the span of the tree. */
  lemma InsertionsAtTheEnds(t: Tree, text: string)
    requires |t.tokens| > 0
    ensures var whole := RemoveTree(t).edit.textSpan;
            var before := InsertBeforeTree(t, text).edit.textSpan;
            var after := InsertAfterTree(t, text).edit.textSpan;
            && before.startLine == before.endLine == whole.startLine
            && before.startCharacter == before.endCharacter == whole.startCharacter
            && after.startLine == after.endLine == whole.endLine
            && after.startCharacter == after.endCharacter == whole.endCharacter
  {
  }

  /** Excluding a bound moves that end of the span from the outer edge of the token to its inner
      edge; the other end does not move. */
  lemma ExcludingBoundsShrinks(startToken: Token, endToken: Token, replacement: string)
    ensures var both := ReplaceBetweenTree(startToken, endToken, replacement).textSpan;
            var noStart := ReplaceBetweenTreeBounds(startToken, false, endToken, true, replacement).textSpan;
            var noEnd := ReplaceBetweenTreeBounds(startToken, true, endToken, false, replacement).textSpan;
            var neither := ReplaceBetweenTreeBounds(startToken, false, endToken, false, replacement).textSpan;
            && noStart == SpanFrom(startToken.end, Position(both.endLine, both.endCharacter))
            && noEnd == SpanFrom(Position(both.startLine, both.startCharacter), endToken.start)
            && neither == SpanFrom(startToken.end, endToken.start)
  {
  }

  /** Removing a tree and inserting before it again start at the same place: the text removed
      can be put back where it was. */
  lemma RemoveThenInsertBefore(t: Tree, text: string)
    requires |t.tokens| > 0
    ensures var removed := RemoveTree(t).edit.textSpan;
            InsertBeforeTree(t, text).edit.textSpan == SpanFrom(Position(removed.startLine, removed.startCharacter),
                                                               Position(removed.startLine, removed.startCharacter))
  {
  }

  /** The field of the example file: its first token spans columns 2 to 5 of line 4 and its last
      token (the semicolon) columns 12 to 13. */
  function ExampleMember(): Tree {
    Tree([Token(Position(4, 2), Position(4, 5)), Token(Position(4, 6), Position(4, 7)),
          Token(Position(4, 12), Position(4, 13))])
  }

  /** The spans the tests of JavaTextEdit expect on that member. */
  lemma ExampleMemberSpans()
    ensures RemoveTree(ExampleMember()) == Built(Edit(TextSpan(4, 2, 4, 13), ""))
    ensures ReplaceTree(ExampleMember(), "replacement") == Built(Edit(TextSpan(4, 2, 4, 13), "replacement"))
    ensures InsertBeforeTree(ExampleMember(), "replacement") == Built(Edit(TextSpan(4, 2, 4, 2), "replacement"))
    ensures InsertAfterTree(ExampleMember(), "replacement") == Built(Edit(TextSpan(4, 13, 4, 13), "replacement"))
    ensures var first := FirstToken(ExampleMember());
            var last := LastToken(ExampleMember());
            && ReplaceBetweenTree(first, last, "replacement").textSpan == TextSpan(4, 2, 4, 13)
            && ReplaceBetweenTreeBounds(first, false, last, false, "replacement").textSpan == TextSpan(4, 5, 4, 12)
            && ReplaceBetweenTreeBounds(first, false, last, true, "replacement").textSpan == TextSpan(4, 5, 4, 13)
            && ReplaceBetweenTreeBounds(first, true, last, false, "replacement").textSpan == TextSpan(4, 2, 4, 12)
            && RemoveBetweenTree(first, last) == Edit(TextSpan(4, 2, 4, 13), "")
  {
  }

  /** A broken tree without tokens: the insertions throw with their messages. */
  lemma TokenlessTreeRefused(text: string)
    ensures InsertBeforeTree(Tree([]), text) == IllegalState("Trying to insert a quick fix before a Tree without token.")
    ensures InsertAfterTree(Tree([]), text) == IllegalState("Trying to insert a quick fix after a Tree without token.")
  {
  }
}

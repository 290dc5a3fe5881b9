/** Rule S122, "statements should be on separate lines": a visitor over the body of a method,
    constructor or initializer fills a line -> count map, and every line whose count is above 1
    gets an issue. Tokens are reduced to their start line (LineUtils.startLine) and text. */
module TooManyStatementsPerLine {
  import opened JavaLang

  datatype Option<T> = None | Some(value: T)

  datatype Token = Token(line: int, text: string)

  /** An expression the visitor never enters. `nested` are the statements inside it (lambda
      bodies, anonymous classes) that a full traversal would reach. */
  datatype Expr = Expr(nested: seq<Stmt>)

  /** The five statements counted as keyword ... semicolon. */
  datatype TerminatedKind = AssertKind | BreakKind | ContinueKind | ReturnKind | ThrowKind

  datatype Block = Block(body: seq<Stmt>, closeBrace: Token)

  datatype CaseGroup = CaseGroup(body: seq<Stmt>)

  datatype Catch = Catch(parameter: Stmt, block: Block)

  datatype Stmt =
    | Terminated(kind: TerminatedKind, keyword: Token, semicolon: Token)
    | ExpressionStatement(firstToken: Option<Token>, semicolon: Token)
    | If(ifKeyword: Token, thenStatement: Stmt, elseStatement: Option<Stmt>)
    | Synchronized(synchronizedKeyword: Token, block: Block)
    | Switch(switchKeyword: Token, openBrace: Token, cases: seq<CaseGroup>, closeBrace: Token)
    | Variable(endToken: Option<Token>)
    | While(whileKeyword: Token, condition: Expr, closeParen: Token, statement: Stmt)
    | DoWhile(doKeyword: Token, statement: Stmt, whileKeyword: Token, condition: Expr, semicolon: Token)
    | For(forKeyword: Token, initializer: seq<Stmt>, condition: Expr, update: seq<Stmt>,
          closeParen: Token, statement: Stmt)
    | ForEach(forKeyword: Token, variable: Stmt, expression: Expr, closeParen: Token, statement: Stmt)
    | Try(tryKeyword: Token, resources: seq<Stmt>, closeParen: Token, block: Block,
          catches: seq<Catch>, finallyKeyword: Option<Token>, finallyBlock: Option<Block>)
    | BlockStatement(block: Block)
    | LocalClass(members: seq<Stmt>)
      /** Any other tree (labeled, empty, yield statement, ...): the default traversal scans the
          statements nested in it. */
    | Other(children: seq<Stmt>)

  /** The trees the rule subscribes to: a method or constructor (whose body may be absent) and a
      static or instance initializer (which is the block itself). */
  datatype Member = MethodLike(block: Option<Block>) | Initializer(body: Block)

  type Counts = map<int, int>

  /** How many statements a map records on `line` (0 when absent). */
  function Get(m: Counts, line: int): int {
    if line in m then m[line] else 0
  }

  // ---------------------------------------------------------------------------------------------
  // The map updates of StatementVisitor, as functions of the map before

  /** addLine: one more statement on the token's line. */
  function AddLine(m: Counts, token: Token): Counts {
    m[token.line := if token.line in m then m[token.line] + 1 else 1]
  }

  /** addLines: the start line, and the end line too when it differs. */
  function AddLines(m: Counts, start: Token, end: Token): Counts {
    var m1 := AddLine(m, start);
    if start.line != end.line then AddLine(m1, end) else m1
  }

  /** addLineOfCloseBrace. */
  function AddLineOfCloseBrace(m: Counts, start: Token, s: Stmt): Counts {
    if s.BlockStatement? && start.line != s.block.closeBrace.line && s.block.closeBrace.line !in m
    then AddLine(m, s.block.closeBrace)
    else m
  }

  /** The map after the visitor scans `s`. */
  function ScanStmt(m: Counts, s: Stmt): Counts
    decreases s
  {
    match s
    case Terminated(_, keyword, semicolon) => AddLines(m, keyword, semicolon)
    case ExpressionStatement(first, semicolon) =>
      if first.Some? then AddLines(m, first.value, semicolon) else AddLine(m, semicolon)
    case If(ifKeyword, thenStatement, elseStatement) =>
      var m1 := ScanStmt(AddLine(m, ifKeyword), thenStatement);
      var m2 := if elseStatement.Some? then ScanStmt(m1, elseStatement.value) else m1;
      AddLineOfCloseBrace(m2, ifKeyword, if elseStatement.None? then thenStatement else elseStatement.value)
    case Synchronized(keyword, block) =>
      ScanBlock(AddLineOfCloseBrace(AddLine(m, keyword), keyword, BlockStatement(block)), block)
    case Switch(keyword, openBrace, cases, closeBrace) =>
      AddLine(ScanCases(AddLines(m, keyword, openBrace), cases), closeBrace)
    case Variable(endToken) =>
      if endToken.Some? && endToken.value.text == ";" then AddLine(m, endToken.value) else m
    case While(keyword, _, closeParen, statement) =>
      ScanStmt(AddLineOfCloseBrace(AddLines(m, keyword, closeParen), keyword, statement), statement)
    case DoWhile(doKeyword, statement, whileKeyword, _, semicolon) =>
      var m1 := AddLine(m, doKeyword);
      ScanStmt(if doKeyword.line != whileKeyword.line then AddLines(m1, whileKeyword, semicolon) else m1, statement)
    case For(keyword, _, _, _, closeParen, statement) =>
      ScanStmt(AddLineOfCloseBrace(AddLines(m, keyword, closeParen), keyword, statement), statement)
    case ForEach(keyword, _, _, closeParen, statement) =>
      ScanStmt(AddLineOfCloseBrace(AddLines(m, keyword, closeParen), keyword, statement), statement)
    case Try(tryKeyword, resources, closeParen, block, catches, finallyKeyword, finallyBlock) =>
      var m1 := if resources == [] then AddLine(m, tryKeyword) else AddLines(m, tryKeyword, closeParen);
      var m2 := ScanCatches(ScanBlock(m1, block), catches);
      var m3 := if finallyKeyword.Some? then AddLine(m2, finallyKeyword.value) else m2;
      if finallyBlock.Some? then ScanBlock(m3, finallyBlock.value) else m3
    case BlockStatement(block) => ScanBlock(m, block)
    case LocalClass(_) => m
    case Other(children) => ScanAll(m, children)
  }

  function ScanAll(m: Counts, ss: seq<Stmt>): Counts
    decreases ss
  {
    if ss == [] then m else ScanAll(ScanStmt(m, ss[0]), ss[1..])
  }

  function ScanBlock(m: Counts, b: Block): Counts
    decreases b
  {
    ScanAll(m, b.body)
  }

  function ScanCase(m: Counts, c: CaseGroup): Counts
    decreases c
  {
    ScanAll(m, c.body)
  }

  function ScanCases(m: Counts, cases: seq<CaseGroup>): Counts
    decreases cases
  {
    if cases == [] then m else ScanCases(ScanCase(m, cases[0]), cases[1..])
  }

  /** A catch clause: its parameter, then its block. */
  function ScanCatch(m: Counts, c: Catch): Counts
    decreases c
  {
    ScanBlock(ScanStmt(m, c.parameter), c.block)
  }

  function ScanCatches(m: Counts, catches: seq<Catch>): Counts
    decreases catches
  {
    if catches == [] then m else ScanCatches(ScanCatch(m, catches[0]), catches[1..])
  }

  /** The map a member's body produces; a method without body produces nothing. */
  function MemberCounts(member: Member): Counts {
    match member
    case MethodLike(block) => if block.Some? then ScanBlock(map[], block.value) else map[]
    case Initializer(body) => ScanBlock(map[], body)
  }

  datatype Issue = Issue(line: int, message: string)

  function Message(count: int): string {
    "At most one statement is allowed per line, but " + IntToString(count) +
    " statements were found on this line."
  }

  /** One issue per line counted more than once. */
  function IssuesOf(m: Counts): set<Issue> {
    set line | line in m && m[line] > 1 :: Issue(line, Message(m[line]))
  }

  // ---------------------------------------------------------------------------------------------
  // The visitor, updating its map in place

  class StatementVisitor {
    var statementsPerLine: Counts

    constructor ()
      ensures statementsPerLine == map[]
    {
      statementsPerLine := map[];
    }

    method AddLineTo(token: Token)
      modifies this
      ensures statementsPerLine == AddLine(old(statementsPerLine), token)
    {
      var line := token.line;
      if line in statementsPerLine {
        statementsPerLine := statementsPerLine[line := statementsPerLine[line] + 1];
      } else {
        statementsPerLine := statementsPerLine[line := 1];
      }
    }

    method AddLinesTo(start: Token, end: Token)
      modifies this
      ensures statementsPerLine == AddLines(old(statementsPerLine), start, end)
    {
      AddLineTo(start);
      if start.line != end.line {
        AddLineTo(end);
      }
    }

    method AddLineOfCloseBraceTo(start: Token, s: Stmt)
      modifies this
      ensures statementsPerLine == AddLineOfCloseBrace(old(statementsPerLine), start, s)
    {
      if s.BlockStatement? {
        var closeBrace := s.block.closeBrace;
        if start.line != closeBrace.line && closeBrace.line !in statementsPerLine {
          AddLineTo(closeBrace);
        }
      }
    }

    /** scan(tree), dispatching to the visit method of the tree's kind. */
    method Scan(s: Stmt)
      modifies this
      ensures statementsPerLine == ScanStmt(old(statementsPerLine), s)
      decreases s
    {
      match s {
        case Terminated(_, keyword, semicolon) =>
          AddLinesTo(keyword, semicolon);
        case ExpressionStatement(first, semicolon) =>
          if first.Some? {
            AddLinesTo(first.value, semicolon);
          } else {
            AddLineTo(semicolon);
          }
        case If(ifKeyword, thenStatement, elseStatement) =>
          AddLineTo(ifKeyword);
          Scan(thenStatement);
          if elseStatement.Some? {
            Scan(elseStatement.value);
          }
          if elseStatement.None? {
            AddLineOfCloseBraceTo(ifKeyword, thenStatement);
          } else {
            AddLineOfCloseBraceTo(ifKeyword, elseStatement.value);
          }
        case Synchronized(keyword, block) =>
          AddLineTo(keyword);
          AddLineOfCloseBraceTo(keyword, BlockStatement(block));
          ScanList(block.body);
        case Switch(keyword, openBrace, cases, closeBrace) =>
          AddLinesTo(keyword, openBrace);
          ScanCaseGroups(cases);
          AddLineTo(closeBrace);
        case Variable(endToken) =>
          if endToken.Some? && endToken.value.text == ";" {
            AddLineTo(endToken.value);
          }
        case While(keyword, _, closeParen, statement) =>
          AddLinesTo(keyword, closeParen);
          AddLineOfCloseBraceTo(keyword, statement);
          Scan(statement);
        case DoWhile(doKeyword, statement, whileKeyword, _, semicolon) =>
          AddLineTo(doKeyword);
          if doKeyword.line != whileKeyword.line {
            AddLinesTo(whileKeyword, semicolon);
          }
          Scan(statement);
        case For(keyword, _, _, _, closeParen, statement) =>
          AddLinesTo(keyword, closeParen);
          AddLineOfCloseBraceTo(keyword, statement);
          Scan(statement);
        case ForEach(keyword, _, _, closeParen, statement) =>
          AddLinesTo(keyword, closeParen);
          AddLineOfCloseBraceTo(keyword, statement);
          Scan(statement);
        case Try(tryKeyword, resources, closeParen, block, catches, finallyKeyword, finallyBlock) =>
          if resources == [] {
            AddLineTo(tryKeyword);
          } else {
            AddLinesTo(tryKeyword, closeParen);
          }
          ScanList(block.body);
          ScanCatchList(catches);
          if finallyKeyword.Some? {
            AddLineTo(finallyKeyword.value);
          }
          if finallyBlock.Some? {
            ScanList(finallyBlock.value.body);
          }
        case BlockStatement(block) =>
          ScanList(block.body);
        case LocalClass(_) =>
          // inner classes are visited on their own
        case Other(children) =>
          ScanList(children);
      }
    }

    method ScanList(ss: seq<Stmt>)
      modifies this
      ensures statementsPerLine == ScanAll(old(statementsPerLine), ss)
      decreases ss
    {
      for i := 0 to |ss|
        invariant ScanAll(old(statementsPerLine), ss) == ScanAll(statementsPerLine, ss[i..])
      {
        assert ss[i..][1..] == ss[i + 1..];
        Scan(ss[i]);
      }
    }

    method ScanCaseGroups(cases: seq<CaseGroup>)
      modifies this
      ensures statementsPerLine == ScanCases(old(statementsPerLine), cases)
      decreases cases
    {
      for i := 0 to |cases|
        invariant ScanCases(old(statementsPerLine), cases) == ScanCases(statementsPerLine, cases[i..])
      {
        assert cases[i..][1..] == cases[i + 1..];
        ScanList(cases[i].body);
      }
    }

    method ScanCatchList(catches: seq<Catch>)
      modifies this
      ensures statementsPerLine == ScanCatches(old(statementsPerLine), catches)
      decreases catches
    {
      for i := 0 to |catches|
        invariant ScanCatches(old(statementsPerLine), catches) == ScanCatches(statementsPerLine, catches[i..])
      {
        assert catches[i..][1..] == catches[i + 1..];
        ScanCatchClause(catches[i]);
      }
    }

    method ScanCatchClause(c: Catch)
      modifies this
      ensures statementsPerLine == ScanCatch(old(statementsPerLine), c)
      decreases c
    {
      Scan(c.parameter);
      ScanList(c.block.body);
    }
  }

  /** visitNode: run a fresh StatementVisitor over the member's block, then report every line with
      more than one statement. */
  method CheckMember(member: Member) returns (issues: set<Issue>)
    ensures issues == IssuesOf(MemberCounts(member))
  {
    issues := {};
    var block := if member.MethodLike? then member.block else Some(member.body);
    if block.Some? {
      var visitor := new StatementVisitor();
      visitor.ScanList(block.value.body);
      var counts := visitor.statementsPerLine;
      var remaining := counts.Keys;
      while remaining != {}
        invariant remaining <= counts.Keys
        invariant issues == set line | line in counts.Keys - remaining && counts[line] > 1 :: Issue(line, Message(counts[line]))
        decreases |remaining|
      {
        if forall line :: line !in remaining {
          assert false;  // remaining is not empty
        }
        // the iteration order of the map is not specified
        var next :| next in remaining;
        if counts[next] > 1 {
          issues := issues + {Issue(next, Message(counts[next]))};
        }
        remaining := remaining - {next};
      }
    }
  }

  // ---------------------------------------------------------------------------------------------
  // Properties

  /** addLine raises the token's line by exactly one (inserting it at 1) and leaves every other
      line as it was. */
  lemma AddLineCounts(m: Counts, token: Token)
    ensures forall line :: Get(AddLine(m, token), line) == Get(m, line) + (if line == token.line then 1 else 0)
    ensures AddLine(m, token).Keys == m.Keys + {token.line}
  {
  }

  /** addLines always counts the start line, and the end line only when it is another line. */
  lemma AddLinesCounts(m: Counts, start: Token, end: Token)
    ensures forall line ::
      Get(AddLines(m, start, end), line) == (Get(m, line) + (if line == start.line then 1 else 0) + (if line == end.line && end.line != start.line then 1 else 0))
  {
    AddLineCounts(m, start);
    AddLineCounts(AddLine(m, start), end);
  }

  /** addLineOfCloseBrace changes the map exactly when the statement is a block whose close brace
      is on another line than the start token and on a line not yet counted; the line then gets 1. */
  lemma CloseBraceCounts(m: Counts, start: Token, s: Stmt)
    ensures AddLineOfCloseBrace(m, start, s) != m <==>
      (s.BlockStatement? && start.line != s.block.closeBrace.line && s.block.closeBrace.line !in m)
    ensures AddLineOfCloseBrace(m, start, s) != m ==>
      AddLineOfCloseBrace(m, start, s) == m[s.block.closeBrace.line := 1]
  {
    if s.BlockStatement? && start.line != s.block.closeBrace.line && s.block.closeBrace.line !in m {
      assert s.block.closeBrace.line in AddLineOfCloseBrace(m, start, s);
    }
  }

  /** `m'` keeps every line of `m` without lowering its count, and every line it adds has a count
      of at least 1. */
  ghost predicate Grows(m: Counts, m': Counts) {
    && m.Keys <= m'.Keys
    && (forall line :: line in m ==> m[line] <= m'[line])
    && (forall line :: line in m' && line !in m ==> m'[line] >= 1)
  }

  lemma GrowsTransitive(m0: Counts, m1: Counts, m2: Counts)
    requires Grows(m0, m1) && Grows(m1, m2)
    ensures Grows(m0, m2)
  {
  }

  lemma AddLineGrows(m: Counts, token: Token)
    ensures Grows(m, AddLine(m, token))
  {
  }

  lemma AddLinesGrows(m: Counts, start: Token, end: Token)
    ensures Grows(m, AddLines(m, start, end))
  {
    AddLineGrows(m, start);
    AddLineGrows(AddLine(m, start), end);
    GrowsTransitive(m, AddLine(m, start), AddLine(AddLine(m, start), end));
  }

  lemma CloseBraceGrows(m: Counts, start: Token, s: Stmt)
    ensures Grows(m, AddLineOfCloseBrace(m, start, s))
  {
    if s.BlockStatement? {
      AddLineGrows(m, s.block.closeBrace);
    }
  }

  /** Scanning only ever adds: no line disappears, no count goes down, and every line it adds has
      a count of at least 1. */
  lemma {:induction false} ScanStmtGrows(m: Counts, s: Stmt)
    ensures Grows(m, ScanStmt(m, s))
    decreases s, 1
  {
    match s
    case Terminated(_, keyword, semicolon) =>
      AddLinesGrows(m, keyword, semicolon);
    case ExpressionStatement(first, semicolon) =>
      if first.Some? {
        AddLinesGrows(m, first.value, semicolon);
      } else {
        AddLineGrows(m, semicolon);
      }
    case If(ifKeyword, thenStatement, elseStatement) =>
      IfGrows(m, ifKeyword, thenStatement, elseStatement);
    case Synchronized(keyword, block) =>
      var m1 := AddLine(m, keyword);
      var m2 := AddLineOfCloseBrace(m1, keyword, BlockStatement(block));
      AddLineGrows(m, keyword);
      CloseBraceGrows(m1, keyword, BlockStatement(block));
      ScanBlockGrows(m2, block);
      GrowsTransitive(m, m1, m2);
      GrowsTransitive(m, m2, ScanBlock(m2, block));
    case Switch(keyword, openBrace, cases, closeBrace) =>
      var m1 := AddLines(m, keyword, openBrace);
      var m2 := ScanCases(m1, cases);
      AddLinesGrows(m, keyword, openBrace);
      ScanCasesGrows(m1, cases);
      AddLineGrows(m2, closeBrace);
      GrowsTransitive(m, m1, m2);
      GrowsTransitive(m, m2, AddLine(m2, closeBrace));
    case Variable(endToken) =>
      if endToken.Some? {
        AddLineGrows(m, endToken.value);
      }
    case While(keyword, _, closeParen, statement) =>
      LoopGrows(m, keyword, closeParen, statement);
    case DoWhile(doKeyword, statement, whileKeyword, _, semicolon) =>
      var m1 := AddLine(m, doKeyword);
      var m2 := if doKeyword.line != whileKeyword.line then AddLines(m1, whileKeyword, semicolon) else m1;
      AddLineGrows(m, doKeyword);
      AddLinesGrows(m1, whileKeyword, semicolon);
      ScanStmtGrows(m2, statement);
      GrowsTransitive(m, m1, m2);
      GrowsTransitive(m, m2, ScanStmt(m2, statement));
    case For(keyword, _, _, _, closeParen, statement) =>
      LoopGrows(m, keyword, closeParen, statement);
    case ForEach(keyword, _, _, closeParen, statement) =>
      LoopGrows(m, keyword, closeParen, statement);
    case Try(tryKeyword, resources, closeParen, block, catches, finallyKeyword, finallyBlock) =>
      TryGrows(m, tryKeyword, resources, closeParen, block, catches, finallyKeyword, finallyBlock);
    case BlockStatement(block) =>
      ScanBlockGrows(m, block);
    case LocalClass(_) =>
    case Other(children) =>
      ScanAllGrows(m, children);
  }

  lemma {:induction false} IfGrows(m: Counts, ifKeyword: Token, thenStatement: Stmt, elseStatement: Option<Stmt>)
    ensures Grows(m, ScanStmt(m, If(ifKeyword, thenStatement, elseStatement)))
    decreases If(ifKeyword, thenStatement, elseStatement), 0
  {
    var m0 := AddLine(m, ifKeyword);
    var m1 := ScanStmt(m0, thenStatement);
    var m2 := if elseStatement.Some? then ScanStmt(m1, elseStatement.value) else m1;
    var last := if elseStatement.None? then thenStatement else elseStatement.value;
    AddLineGrows(m, ifKeyword);
    ScanStmtGrows(m0, thenStatement);
    GrowsTransitive(m, m0, m1);
    if elseStatement.Some? {
      ScanStmtGrows(m1, elseStatement.value);
      GrowsTransitive(m, m1, m2);
    }
    CloseBraceGrows(m2, ifKeyword, last);
    GrowsTransitive(m, m2, AddLineOfCloseBrace(m2, ifKeyword, last));
  }

  /** The common shape of while, for and for-each. */
  lemma {:induction false} LoopGrows(m: Counts, keyword: Token, closeParen: Token, statement: Stmt)
    ensures Grows(m, ScanStmt(AddLineOfCloseBrace(AddLines(m, keyword, closeParen), keyword, statement), statement))
    decreases statement, 2
  {
    var m1 := AddLines(m, keyword, closeParen);
    var m2 := AddLineOfCloseBrace(m1, keyword, statement);
    AddLinesGrows(m, keyword, closeParen);
    CloseBraceGrows(m1, keyword, statement);
    ScanStmtGrows(m2, statement);
    GrowsTransitive(m, m1, m2);
    GrowsTransitive(m, m2, ScanStmt(m2, statement));
  }

  lemma {:induction false} TryGrows(m: Counts, tryKeyword: Token, resources: seq<Stmt>, closeParen: Token,
                                    block: Block, catches: seq<Catch>, finallyKeyword: Option<Token>,
                                    finallyBlock: Option<Block>)
    ensures Grows(m, ScanStmt(m, Try(tryKeyword, resources, closeParen, block, catches, finallyKeyword, finallyBlock)))
    decreases Try(tryKeyword, resources, closeParen, block, catches, finallyKeyword, finallyBlock), 0
  {
    var m1 := if resources == [] then AddLine(m, tryKeyword) else AddLines(m, tryKeyword, closeParen);
    var m2 := ScanBlock(m1, block);
    var m3 := ScanCatches(m2, catches);
    var m4 := if finallyKeyword.Some? then AddLine(m3, finallyKeyword.value) else m3;
    if resources == [] {
      AddLineGrows(m, tryKeyword);
    } else {
      AddLinesGrows(m, tryKeyword, closeParen);
    }
    ScanBlockGrows(m1, block);
    ScanCatchesGrows(m2, catches);
    GrowsTransitive(m, m1, m2);
    GrowsTransitive(m, m2, m3);
    if finallyKeyword.Some? {
      AddLineGrows(m3, finallyKeyword.value);
      GrowsTransitive(m, m3, m4);
    }
    if finallyBlock.Some? {
      ScanBlockGrows(m4, finallyBlock.value);
      GrowsTransitive(m, m4, ScanBlock(m4, finallyBlock.value));
    }
  }

  lemma {:induction false} ScanAllGrows(m: Counts, ss: seq<Stmt>)
    ensures Grows(m, ScanAll(m, ss))
    decreases ss
  {
    if ss != [] {
      ScanStmtGrows(m, ss[0]);
      ScanAllGrows(ScanStmt(m, ss[0]), ss[1..]);
      GrowsTransitive(m, ScanStmt(m, ss[0]), ScanAll(m, ss));
    }
  }

  lemma {:induction false} ScanBlockGrows(m: Counts, b: Block)
    ensures Grows(m, ScanBlock(m, b))
    decreases b
  {
    ScanAllGrows(m, b.body);
  }

  lemma {:induction false} ScanCasesGrows(m: Counts, cases: seq<CaseGroup>)
    ensures Grows(m, ScanCases(m, cases))
    decreases cases
  {
    if cases != [] {
      ScanCaseGrows(m, cases[0]);
      ScanCasesGrows(ScanCase(m, cases[0]), cases[1..]);
      GrowsTransitive(m, ScanCase(m, cases[0]), ScanCases(m, cases));
    }
  }

  lemma {:induction false} ScanCaseGrows(m: Counts, c: CaseGroup)
    ensures Grows(m, ScanCase(m, c))
    decreases c
  {
    ScanAllGrows(m, c.body);
  }

  lemma {:induction false} ScanCatchesGrows(m: Counts, catches: seq<Catch>)
    ensures Grows(m, ScanCatches(m, catches))
    decreases catches
  {
    if catches != [] {
      ScanCatchGrows(m, catches[0]);
      ScanCatchesGrows(ScanCatch(m, catches[0]), catches[1..]);
      GrowsTransitive(m, ScanCatch(m, catches[0]), ScanCatches(m, catches));
    }
  }

  lemma {:induction false} ScanCatchGrows(m: Counts, c: Catch)
    ensures Grows(m, ScanCatch(m, c))
    decreases c
  {
    ScanStmtGrows(m, c.parameter);
    ScanBlockGrows(ScanStmt(m, c.parameter), c.block);
    GrowsTransitive(m, ScanStmt(m, c.parameter), ScanCatch(m, c));
  }

  /** Every line in a member's map was counted at least once, so the lines reported are exactly
      those counted at least twice, and a line counted once is never reported. */
  lemma MemberIssues(member: Member, line: int, message: string)
    ensures forall l :: l in MemberCounts(member) ==> MemberCounts(member)[l] >= 1
    ensures Issue(line, message) in IssuesOf(MemberCounts(member)) <==>
      Get(MemberCounts(member), line) > 1 && message == Message(MemberCounts(member)[line])
  {
    match member
    case MethodLike(block) =>
      if block.Some? {
        ScanBlockGrows(map[], block.value);
      }
    case Initializer(body) =>
      ScanBlockGrows(map[], body);
  }

  /** A method without a body produces no issue. */
  lemma NoBodyNoIssue()
    ensures IssuesOf(MemberCounts(MethodLike(None))) == {}
  {
  }

  /** Local classes inside a body add nothing: they are checked on their own. */
  lemma LocalClassAddsNothing(m: Counts, members: seq<Stmt>)
    ensures ScanStmt(m, LocalClass(members)) == m
  {
  }

  /** Loop conditions, for initializers and updates, for-each variables and expressions and try
      resources are never scanned: whatever they hold, the map is the same. */
  lemma HeadersNotScanned(m: Counts, k: Token, cp: Token, semi: Token, body: Stmt, c1: Expr, c2: Expr,
                          i1: seq<Stmt>, i2: seq<Stmt>, u1: seq<Stmt>, u2: seq<Stmt>, v1: Stmt, v2: Stmt,
                          b: Block, cs: seq<Catch>, f: Option<Token>, fb: Option<Block>)
    ensures ScanStmt(m, While(k, c1, cp, body)) == ScanStmt(m, While(k, c2, cp, body))
    ensures ScanStmt(m, DoWhile(k, body, cp, c1, semi)) == ScanStmt(m, DoWhile(k, body, cp, c2, semi))
    ensures ScanStmt(m, For(k, i1, c1, u1, cp, body)) == ScanStmt(m, For(k, i2, c2, u2, cp, body))
    ensures ScanStmt(m, ForEach(k, v1, c1, cp, body)) == ScanStmt(m, ForEach(k, v2, c2, cp, body))
    ensures i1 != [] && i2 != [] ==>
      ScanStmt(m, Try(k, i1, cp, b, cs, f, fb)) == ScanStmt(m, Try(k, i2, cp, b, cs, f, fb))
  {
    WhileHeaderNotScanned(m, k, cp, body, c1, c2);
    DoWhileHeaderNotScanned(m, k, cp, semi, body, c1, c2);
    ForHeaderNotScanned(m, k, cp, body, c1, c2, i1, i2, u1, u2);
    ForEachHeaderNotScanned(m, k, cp, body, c1, c2, v1, v2);
    if i1 != [] && i2 != [] {
      TryResourcesNotScanned(m, k, cp, i1, i2, b, cs, f, fb);
    }
  }

  lemma WhileHeaderNotScanned(m: Counts, k: Token, cp: Token, body: Stmt, c1: Expr, c2: Expr)
    ensures ScanStmt(m, While(k, c1, cp, body)) == ScanStmt(m, While(k, c2, cp, body))
  {
  }

  lemma DoWhileHeaderNotScanned(m: Counts, k: Token, cp: Token, semi: Token, body: Stmt, c1: Expr, c2: Expr)
    ensures ScanStmt(m, DoWhile(k, body, cp, c1, semi)) == ScanStmt(m, DoWhile(k, body, cp, c2, semi))
  {
  }

  lemma ForHeaderNotScanned(m: Counts, k: Token, cp: Token, body: Stmt, c1: Expr, c2: Expr,
                            i1: seq<Stmt>, i2: seq<Stmt>, u1: seq<Stmt>, u2: seq<Stmt>)
    ensures ScanStmt(m, For(k, i1, c1, u1, cp, body)) == ScanStmt(m, For(k, i2, c2, u2, cp, body))
  {
  }

  lemma ForEachHeaderNotScanned(m: Counts, k: Token, cp: Token, body: Stmt, c1: Expr, c2: Expr, v1: Stmt, v2: Stmt)
    ensures ScanStmt(m, ForEach(k, v1, c1, cp, body)) == ScanStmt(m, ForEach(k, v2, c2, cp, body))
  {
  }

  lemma TryResourcesNotScanned(m: Counts, k: Token, cp: Token, i1: seq<Stmt>, i2: seq<Stmt>,
                               b: Block, cs: seq<Catch>, f: Option<Token>, fb: Option<Block>)
    requires i1 != [] && i2 != []
    ensures ScanStmt(m, Try(k, i1, cp, b, cs, f, fb)) == ScanStmt(m, Try(k, i2, cp, b, cs, f, fb))
  {
  }

  /** In a do-while the `while (...);` line is counted only when it is not the `do` line. */
  lemma DoWhileLines(m: Counts, d: Token, body: Stmt, w: Token, c: Expr, semi: Token)
    ensures d.line == w.line ==>
      ScanStmt(m, DoWhile(d, body, w, c, semi)) == ScanStmt(AddLine(m, d), body)
    ensures d.line != w.line ==>
      ScanStmt(m, DoWhile(d, body, w, c, semi)) == ScanStmt(AddLines(AddLine(m, d), w, semi), body)
  {
  }

  /** A variable counts only when its end token is a semicolon (not the comma of a multiple
      declaration, nor absent). */
  lemma VariableCounts(m: Counts, endToken: Option<Token>, line: int)
    ensures Get(ScanStmt(m, Variable(endToken)), line) ==
      Get(m, line) + (if endToken.Some? && endToken.value.text == ";" && endToken.value.line == line then 1 else 0)
  {
  }

  /** `int a=1; int b=2;` on line 7 gives one issue on line 7 saying that 2 statements were
      found. */
  lemma TwoDeclarationsScenario()
    ensures IssuesOf(MemberCounts(MethodLike(Some(Block(
              [Variable(Some(Token(7, ";"))), Variable(Some(Token(7, ";")))], Token(8, "}")))))) ==
            {Issue(7, "At most one statement is allowed per line, but 2 statements were found on this line.")}
  {
    TwoDeclarationsCounts();
    IssuesOfOneLine(7, 2);
    MessageOfTwo();
  }

  lemma TwoDeclarationsCounts()
    ensures MemberCounts(MethodLike(Some(Block(
              [Variable(Some(Token(7, ";"))), Variable(Some(Token(7, ";")))], Token(8, "}"))))) == map[7 := 2]
  {
    var body := [Variable(Some(Token(7, ";"))), Variable(Some(Token(7, ";")))];
    assert ScanStmt(map[], body[0]) == map[7 := 1];
    assert ScanStmt(map[7 := 1], body[1]) == map[7 := 2];
    assert body[1..] == [body[1]];
    assert body[1..][1..] == [];
    assert ScanAll(map[], body) == map[7 := 2];
  }

  lemma MessageOfTwo()
    ensures Message(2) == "At most one statement is allowed per line, but 2 statements were found on this line."
  {
    DecimalTwo();
    MessageOfTwoText();
  }

  lemma DecimalTwo()
    ensures IntToString(2) == "2"
  {
  }

  lemma MessageOfTwoText()
    ensures "At most one statement is allowed per line, but " + "2" + " statements were found on this line." ==
            "At most one statement is allowed per line, but 2 statements were found on this line."
  {
    var head := "At most one statement is allowed per line, but ";
    var tail := " statements were found on this line.";
    MessageOfTwoPrefix();
    MessageOfTwoTail();
    assert head + "2" + tail == (head + "2" + " statements were") + " found on this line.";
  }

  lemma MessageOfTwoPrefix()
    ensures "At most one statement is allowed per line, but " + "2" + " statements were" ==
            "At most one statement is allowed per line, but 2 statements were"
  {
  }

  lemma MessageOfTwoTail()
    ensures "At most one statement is allowed per line, but 2 statements were" + " found on this line." ==
            "At most one statement is allowed per line, but 2 statements were found on this line."
  {
  }

  /** A map holding one line reports it exactly when its count is above 1. */
  lemma IssuesOfOneLine(line: int, count: int)
    ensures IssuesOf(map[line := count]) == if count > 1 then {Issue(line, Message(count))} else {}
  {
    var m := map[line := count];
    forall issue | issue in IssuesOf(m)
      ensures issue == Issue(line, Message(count))
    {
    }
    if count > 1 {
      assert line in m && m[line] > 1;
      assert Issue(line, Message(count)) in IssuesOf(m);
    }
  }

  /** `if (c) { f(); }` alone on line 3 counts the `if` and the expression statement, so line 3
      has two statements and is reported: the close brace on the same line adds nothing. */
  lemma SingleLineIfScenario()
    ensures
      var ifStatement := If(Token(3, "if"), BlockStatement(Block(
        [ExpressionStatement(Some(Token(3, "f")), Token(3, ";"))], Token(3, "}"))), None);
      MemberCounts(MethodLike(Some(Block([ifStatement], Token(4, "}"))))) == map[3 := 2]
  {
    var thenBlock := BlockStatement(Block([ExpressionStatement(Some(Token(3, "f")), Token(3, ";"))], Token(3, "}")));
    assert ScanStmt(map[3 := 1], thenBlock) == map[3 := 2];
  }
}

# A verified model of sonar-java's traversal driver, six of its rules, its regex issue locations and its quick-fix text edits

sonar-java analyses Java source. It walks each file's syntax tree and hands the nodes to rules. The model covers:

- the subscription traversal driver (`SubscriptionVisitor`);
- six rules:
  - S122, one statement per line;
  - S2699, assertions in tests;
  - S2197, modulus equality;
  - S3553, Optional as parameter;
  - S3042, a synchronized writeObject;
  - S2972, inner class length;
- the location builder of regex issues (`RegexCheck.RegexIssueLocation`);
- the quick-fix text edits whose behaviour `JavaTextEditTest` describes.

Each source file becomes one Dafny module. Two support modules sit beside them:

- `JavaLang` gives the few `java.lang.String` operations the rules use, with Java's meaning:
  - `split` on one character drops trailing empty strings;
  - `trim` removes every char up to U+0020;
  - `toLowerCase` covers ASCII, as in a locale without special casing rules;
  - `"" + int` gives the decimal form.
- `MethodMatchers` gives the matcher criteria the rules build: an owner type, a name, parameters.

Code that changes state keeps that form:

- a class with fields, and methods with `modifies` clauses and loop invariants;
- each method's `ensures` ties the new state to a specification function of the old state and the input;
- the source's promises are then proved about those functions as lemmas.

Pure code becomes functions and lemmas.

Facts the analyser gets from elsewhere become data fields of the input datatypes or function parameters:

- symbol resolution, types and subtyping;
- `LineUtils.startLine` and `LiteralUtils.intLiteralValue`;
- the lines-of-code metric and the writeObject contract matcher;
- `textSpansFor`.

The rules' issues are collected as values, not sent to a sink.

## Model

| member | source | states |
|---|---|---|
| SubscriptionVisitor.Driver.ScanTree | java-frontend/src/main/java/org/sonar/java/ast/visitors/SubscriptionVisitor.java:69-81 | The subscription set comes from `nodesToVisit()` on the first scan only, and an empty list gives the empty set. Later scans keep it. The token and trivia flags are recomputed from it on every scan, and the scan appends the events of the tree to the trace. |
| SubscriptionVisitor.Driver.Visit | java-frontend/src/main/java/org/sonar/java/ast/visitors/SubscriptionVisitor.java:83-103 | Visiting a tree appends exactly the events `Events(subs, tree)` to the trace. A token seen as a syntax token gets visitToken, then its trivia in order; otherwise a subscribed node gets visitNode, its children's events, then leaveNode. |
| SubscriptionVisitor.Driver.VisitSyntaxToken | java-frontend/src/main/java/org/sonar/java/ast/visitors/SubscriptionVisitor.java:86-95 | A token visited as a syntax token appends visitToken when TOKEN is subscribed, then visitTrivia for each of its trivia in order when TRIVIA is. Nothing else changes. |
| SubscriptionVisitor.Driver.VisitChildren | java-frontend/src/main/java/org/sonar/java/ast/visitors/SubscriptionVisitor.java:117-126 | Children are visited in list order, null children are skipped, and a leaf's children are never visited. |
| SubscriptionVisitor.EventsBalanced | java-frontend/src/main/java/org/sonar/java/ast/visitors/SubscriptionVisitor.java:96-102 | Replaying the events of any tree against a stack of open nodes leaves the stack as it was. Every visitNode is closed by its own leaveNode after all events of the node's subtree. |
| SubscriptionVisitor.ScanIsWellNested | java-frontend/src/main/java/org/sonar/java/ast/visitors/SubscriptionVisitor.java:96-102 | The trace of every scan is well nested. |
| SubscriptionVisitor.EnteredIsPreorder | java-frontend/src/main/java/org/sonar/java/ast/visitors/SubscriptionVisitor.java:84-99 | visitNode is received exactly by the subscribed reached trees that are not visited as tokens, once each, in pre-order. |
| SubscriptionVisitor.TokensArePreorder | java-frontend/src/main/java/org/sonar/java/ast/visitors/SubscriptionVisitor.java:85-90 | With TOKEN subscribed, visitToken is received by every reached token in pre-order; without it, by none. |
| SubscriptionVisitor.TriviaArePreorder | java-frontend/src/main/java/org/sonar/java/ast/visitors/SubscriptionVisitor.java:91-95 | With TRIVIA subscribed, visitTrivia is received by the trivia of every reached token, each token's in list order; without it, by none. |
| SubscriptionVisitor.UnsubscribedIsTransparent | java-frontend/src/main/java/org/sonar/java/ast/visitors/SubscriptionVisitor.java:96-101 | An unsubscribed node has no event of its own, and its trace is exactly its children's traces. |
| SubscriptionVisitor.NotEnteredSelf | java-frontend/src/main/java/org/sonar/java/ast/visitors/SubscriptionVisitor.java:96-99 | An unsubscribed node is never entered while it is visited. |
| SubscriptionVisitor.LeaveWasEntered | java-frontend/src/main/java/org/sonar/java/ast/visitors/SubscriptionVisitor.java:100-102 | Every leaveNode in a tree's trace closes a tree that the trace entered. |
| SubscriptionVisitor.DriverOrderScenario | java-frontend/src/main/java/org/sonar/java/ast/visitors/SubscriptionVisitor.java:83-126 | For a class with a method declaring one variable, subscribed to METHOD and VARIABLE, the events are visitNode(method), visitNode(variable), leaveNode(variable), leaveNode(method). |
| TooManyStatementsPerLine.StatementVisitor.AddLineTo | java-checks/src/main/java/org/sonar/java/checks/TooManyStatementsPerLineCheck.java:219-221 | The map becomes `AddLine` of the old map; AddLineCounts gives what that means. |
| TooManyStatementsPerLine.StatementVisitor.AddLinesTo | java-checks/src/main/java/org/sonar/java/checks/TooManyStatementsPerLineCheck.java:223-228 | The map becomes `AddLines` of the old map. |
| TooManyStatementsPerLine.StatementVisitor.AddLineOfCloseBraceTo | java-checks/src/main/java/org/sonar/java/checks/TooManyStatementsPerLineCheck.java:137-145 | The map becomes `AddLineOfCloseBrace` of the old map. |
| TooManyStatementsPerLine.StatementVisitor.Scan | java-checks/src/main/java/org/sonar/java/checks/TooManyStatementsPerLineCheck.java:84-217 | Scanning a statement in place leaves the map that the specification `ScanStmt` gives. That function follows each visit method: which tokens are counted, what is scanned, and the close-brace rule for if, synchronized, while, for and for-each. |
| TooManyStatementsPerLine.StatementVisitor.ScanList | java-checks/src/main/java/org/sonar/java/checks/TooManyStatementsPerLineCheck.java:128-129 | Scanning a list of statements in order leaves the map `ScanAll` gives. |
| TooManyStatementsPerLine.StatementVisitor.ScanCaseGroups | java-checks/src/main/java/org/sonar/java/checks/TooManyStatementsPerLineCheck.java:157 | Scanning the cases of a switch in order leaves the map `ScanCases` gives. |
| TooManyStatementsPerLine.StatementVisitor.ScanCatchList | java-checks/src/main/java/org/sonar/java/checks/TooManyStatementsPerLineCheck.java:212 | Scanning the catch clauses in order leaves the map `ScanCatches` gives. |
| TooManyStatementsPerLine.StatementVisitor.ScanCatchClause | java-checks/src/main/java/org/sonar/java/checks/TooManyStatementsPerLineCheck.java:212 | A catch clause scans its parameter, then its block. |
| TooManyStatementsPerLine.CheckMember | java-checks/src/main/java/org/sonar/java/checks/TooManyStatementsPerLineCheck.java:62-78 | The issues are those of the map a fresh visitor builds over the member's block, and none when there is no block. |
| TooManyStatementsPerLine.AddLineCounts | java-checks/src/main/java/org/sonar/java/checks/TooManyStatementsPerLineCheck.java:219-221 | addLine raises the token's line by exactly one, starting at 1 when absent. Every other line is unchanged, and the key set gains only that line. |
| TooManyStatementsPerLine.AddLinesCounts | java-checks/src/main/java/org/sonar/java/checks/TooManyStatementsPerLineCheck.java:223-228 | addLines always counts the start line, and counts the end line only when it is a different line. |
| TooManyStatementsPerLine.CloseBraceCounts | java-checks/src/main/java/org/sonar/java/checks/TooManyStatementsPerLineCheck.java:137-145 | addLineOfCloseBrace changes the map exactly when three things hold: the statement is a block, its close brace is on another line than the start token, and that line is not yet counted. The line then gets 1. |
| TooManyStatementsPerLine.ScanStmtGrows | java-checks/src/main/java/org/sonar/java/checks/TooManyStatementsPerLineCheck.java:84-217 | Scanning never removes a line or lowers a count, and every line it adds has a count of at least 1. |
| TooManyStatementsPerLine.MemberIssues | java-checks/src/main/java/org/sonar/java/checks/TooManyStatementsPerLineCheck.java:72-76 | Every counted line has a count of at least 1. An issue is reported on a line iff its count is above 1, with the message naming that count. |
| TooManyStatementsPerLine.NoBodyNoIssue | java-checks/src/main/java/org/sonar/java/checks/TooManyStatementsPerLineCheck.java:69 | A method without a body has no issue. |
| TooManyStatementsPerLine.LocalClassAddsNothing | java-checks/src/main/java/org/sonar/java/checks/TooManyStatementsPerLineCheck.java:84-86 | A class declared inside a body leaves the map unchanged. |
| TooManyStatementsPerLine.HeadersNotScanned | java-checks/src/main/java/org/sonar/java/checks/TooManyStatementsPerLineCheck.java:170-217 | These never change the map: loop conditions, for initializers and updates, for-each variables and expressions, and try resources. |
| TooManyStatementsPerLine.DoWhileLines | java-checks/src/main/java/org/sonar/java/checks/TooManyStatementsPerLineCheck.java:178-185 | In a do-while, the `while ... ;` lines are counted only when `while` is not on the `do` line. |
| TooManyStatementsPerLine.VariableCounts | java-checks/src/main/java/org/sonar/java/checks/TooManyStatementsPerLineCheck.java:162-167 | A variable adds one to its end token's line iff that token exists and is `;`. |
| TooManyStatementsPerLine.TwoDeclarationsScenario | java-checks/src/main/java/org/sonar/java/checks/TooManyStatementsPerLineCheck.java:72-76 | Two declarations on line 7 give one issue on line 7 saying 2 statements were found. |
| TooManyStatementsPerLine.IssuesOfOneLine | java-checks/src/main/java/org/sonar/java/checks/TooManyStatementsPerLineCheck.java:72-76 | A map holding one line is reported iff its count is above 1. |
| TooManyStatementsPerLine.SingleLineIfScenario | java-checks/src/main/java/org/sonar/java/checks/TooManyStatementsPerLineCheck.java:124-135 | `if (c) { f(); }` alone on a line counts 2 on that line: the `if` and the statement. The close brace on the same line adds nothing. |
| AssertionsInTests.CustomNameCriterion | java-checks/src/main/java/org/sonar/java/checks/AssertionsInTestsCheck.java:239-245 | A name ending in `*` gives a starts-with criterion on the name without the `*`; any other gives an exact-name criterion. |
| AssertionsInTests.ParseEntryAccepts | java-checks/src/main/java/org/sonar/java/checks/AssertionsInTestsCheck.java:236-249 | An accepted entry is matched by an exact type on its trimmed owner part, with any parameters. Its name criterion is starts-with iff the trimmed name part ends in `*`. An entry is accepted iff it splits on `#` into two parts that are non-blank after trimming. |
| AssertionsInTests.ParseWellFormedEntry | java-checks/src/main/java/org/sonar/java/checks/AssertionsInTestsCheck.java:237-246 | `owner#name`, both non-blank and free of `#`, parses to the matcher of the trimmed owner and name. |
| AssertionsInTests.TrailingSeparatorAccepted | java-checks/src/main/java/org/sonar/java/checks/AssertionsInTestsCheck.java:237-238 | Because split drops trailing empty strings, `owner#name#` is accepted and parses like `owner#name`. |
| AssertionsInTests.ThreePartsRefused | java-checks/src/main/java/org/sonar/java/checks/AssertionsInTestsCheck.java:238 | `a#b#c` is refused. |
| AssertionsInTests.EveryEntryAccountedFor | java-checks/src/main/java/org/sonar/java/checks/AssertionsInTestsCheck.java:236-250 | Every entry of the property gives either a matcher or a warning. |
| AssertionsInTests.EmptyPropertyWarnsOnce | java-checks/src/main/java/org/sonar/java/checks/AssertionsInTestsCheck.java:234-249 | The default empty property splits into one empty entry. It gives no matcher and logs one warning. |
| AssertionsInTests.ParseCustomAssertionMethods | java-checks/src/main/java/org/sonar/java/checks/AssertionsInTestsCheck.java:234-252 | The loop over the entries yields the matchers of the accepted entries and the warnings of the refused ones, both in order. |
| AssertionsInTests.ValuesForAnnotation | java-checks/src/main/java/org/sonar/java/checks/AssertionsInTestsCheck.java:259-260 | There are no values iff the method has no annotation of that type. |
| AssertionsInTests.IsUnitTest | java-checks/src/main/java/org/sonar/java/checks/AssertionsInTestsCheck.java:270-280 | The while loop over the overridden chain answers exactly `IsUnitTestMethod`: a symbol of the chain is annotated `org.junit.Test`, or the enclosing class is a TestCase subtype and the name starts with "test". |
| AssertionsInTests.ExpectAssertion | java-checks/src/main/java/org/sonar/java/checks/AssertionsInTestsCheck.java:258-268 | True iff the method's `org.junit.Test` annotation sets a value named `expected`. |
| AssertionsInTests.AssertionVisitor.Visit | java-checks/src/main/java/org/sonar/java/checks/AssertionsInTestsCheck.java:298-328 | The flag becomes true iff it was true or the tree holds a direct assertion. A direct assertion is an invocation or method reference matched by the known or custom matchers, or a JMockit Verifications block. |
| AssertionsInTests.AssertionVisitor.VisitAll | java-checks/src/main/java/org/sonar/java/checks/AssertionsInTestsCheck.java:298-328 | The same, for a list of trees visited in order. |
| AssertionsInTests.AssertionsInTestsChecker.GetCustomAssertionMethodsMatcher | java-checks/src/main/java/org/sonar/java/checks/AssertionsInTestsCheck.java:232-256 | The matchers are built from the property on first use, logging its warnings once, and reused unchanged afterwards. No other state changes. |
| AssertionsInTests.AssertionsInTestsChecker.IsLocalMethodWithAssertion | java-checks/src/main/java/org/sonar/java/checks/AssertionsInTestsCheck.java:219-230 | The answer is whether the symbol's declaration in the file holds a direct assertion; a symbol without declaration gives false. It is memoised, and every memo entry stays correct. A symbol already in the memo, or one without a declaration, leaves the custom matchers and the warnings as they were: computeIfAbsent runs its function only for a missing key. |
| AssertionsInTests.AssertionsInTestsChecker.IsAssertion | java-checks/src/main/java/org/sonar/java/checks/AssertionsInTestsCheck.java:209-217 | A call is an assertion iff the known matchers, the custom matchers or a local method with an assertion match it. The tries short-circuit in that order. A call the known matchers accept builds no custom matcher, logs no warning and leaves the memo alone. A call the custom matchers accept leaves the memo alone. |
| AssertionsInTests.AssertionsInTestsChecker.MarkAssertion | java-checks/src/main/java/org/sonar/java/checks/AssertionsInTestsCheck.java:182-183 | Pop then push sets the current frame's flag to true and leaves the frames below unchanged. Nothing is looked up. |
| AssertionsInTests.AssertionsInTestsChecker.Scan | java-checks/src/main/java/org/sonar/java/checks/AssertionsInTestsCheck.java:162-207 | The frames below the current one are unchanged. The current flag becomes true iff it was true, or the frame is a unit test and the tree holds an assertion of this frame. The tree's issues are appended in order. Starting in a frame that does not check, a tree with no entered unit test attempts no matching. |
| AssertionsInTests.AssertionsInTestsChecker.VisitInvocation | java-checks/src/main/java/org/sonar/java/checks/AssertionsInTestsCheck.java:179-194 | The children are scanned first. The flag is then set only in a unit-test frame that has not yet seen an assertion, and only when the call is one. In a frame whose flag is set or that is not a unit test, a scan whose children hold no entered unit test attempts no matching: the custom matchers, the warnings and the memo are unchanged. |
| AssertionsInTests.AssertionsInTestsChecker.VisitNewClass | java-checks/src/main/java/org/sonar/java/checks/AssertionsInTestsCheck.java:197-203 | The same, for a JMockit `Verifications` constructor call, including that nothing is looked up in a frame that does not check. |
| AssertionsInTests.AssertionsInTestsChecker.ScanChildren | java-checks/src/main/java/org/sonar/java/checks/AssertionsInTestsCheck.java:162-207 | Scanning the trees in order keeps the stacks and appends the issues of each tree. Starting in a frame that does not check, trees with no entered unit test attempt no matching. |
| AssertionsInTests.AssertionsInTestsChecker.VisitMethod | java-checks/src/main/java/org/sonar/java/checks/AssertionsInTestsCheck.java:162-176 | Abstract methods are skipped. Otherwise both stacks get a frame, which is popped afterwards, so both stacks end as they began. The method's issues are appended, its nested methods' issues first. An abstract method, or a non-test method holding no entered unit test, attempts no matching. |
| AssertionsInTests.AssertionsInTestsChecker.ScanInOwnFrame | java-checks/src/main/java/org/sonar/java/checks/AssertionsInTestsCheck.java:167-171 | Pushing the method's frames, scanning its children and popping them leaves both stacks as they were. The popped flag is true iff the method is a unit test and its children hold an assertion of its own frame. The children's issues are appended. In a non-test frame over children with no entered unit test, nothing is looked up. |
| AssertionsInTests.AssertionsInTestsChecker.ScanFile | java-checks/src/main/java/org/sonar/java/checks/AssertionsInTestsCheck.java:150-160 | The file is scanned in a non-test frame with the memo cleared before and after. The stacks end as they began, the file's issues are appended, and the custom matchers, once built, stay. |
| AssertionsInTests.MethodIssue | java-checks/src/main/java/org/sonar/java/checks/AssertionsInTestsCheck.java:164-175 | A method adds one issue, "Add at least one assertion to this test case.", iff four things hold: it is not abstract, it is a unit test, it expects no exception, and its own frame saw no assertion. |
| AssertionsInTests.IssuesOnUnitTests | java-checks/src/main/java/org/sonar/java/checks/AssertionsInTestsCheck.java:167-175 | Every issue carries the message and names a unit-test method of the tree, and there are at most as many issues as unit tests. |
| AssertionsInTests.QuietIffNoTests | java-checks/src/main/java/org/sonar/java/checks/AssertionsInTestsCheck.java:162-207 | A tree is quiet, the hypothesis under which a scan in a non-checking frame looks nothing up, exactly when it holds no unit test that the scan enters (every method in it is abstract or a non-test one, all the way down). |
| AssertionsInTests.NestedMethodHidesAssertion | java-checks/src/main/java/org/sonar/java/checks/AssertionsInTestsCheck.java:168-172 | An assertion inside a nested method does not count for the enclosing method's frame. |
| AssertionsInTests.JUnitScenario | java-checks/src/main/java/org/sonar/java/checks/AssertionsInTestsCheck.java:173-175 | A JUnit test calling `org.junit.Assert.assertEquals` has no issue; with an empty body it has one. |
| AssertionsInTests.ExpectedExceptionScenario | java-checks/src/main/java/org/sonar/java/checks/AssertionsInTestsCheck.java:258-268 | A test whose annotation sets `expected` is never reported. |
| RegexLocations.Coalesce | java-frontend/src/main/java/org/sonar/java/regex/RegexCheck.java:83-96 | The flushed ranges are at least one and at most as many as the elements. The first starts where the first element starts, and the last ends where the last element ends. |
| RegexLocations.CoalesceStep | java-frontend/src/main/java/org/sonar/java/regex/RegexCheck.java:84-91 | One more element extends the last range iff it begins where the previous element ends. Otherwise it becomes a new range. |
| RegexLocations.CoalesceCount | java-frontend/src/main/java/org/sonar/java/regex/RegexCheck.java:83-96 | There is one range more than the number of consecutive pairs that do not abut. |
| RegexLocations.GappedRangesStaySeparate | java-frontend/src/main/java/org/sonar/java/regex/RegexCheck.java:88-91 | When no consecutive elements abut, because of gaps or overlaps, the ranges are the elements themselves. |
| RegexLocations.AbuttingRangesMerge | java-frontend/src/main/java/org/sonar/java/regex/RegexCheck.java:86-87 | When every element abuts the previous one, there is a single range from the first beginning to the last end. |
| RegexLocations.TextSpansFromRegexSyntaxElements | java-frontend/src/main/java/org/sonar/java/regex/RegexCheck.java:79-97 | The loop's spans are exactly the spans of the coalesced ranges, range by range, with the last open range flushed. An empty list fails with `IndexOutOfBounds`, because the source reads `trees.get(0)` at line 80 first. |
| RegexLocations.FromElement | java-frontend/src/main/java/org/sonar/java/regex/RegexCheck.java:42-45 | The location of one element carries the spans of its range and the message. |
| RegexLocations.FromElements | java-frontend/src/main/java/org/sonar/java/regex/RegexCheck.java:47-50 | The location of a list of elements carries the spans of the coalesced ranges and the message. An empty list fails with `IndexOutOfBounds`, as the constructor does. |
| RegexLocations.ToSingleLocationItems | java-frontend/src/main/java/org/sonar/java/regex/RegexCheck.java:69-77 | There are three cases. A location with one span is returned as the singleton list of itself. A location with no span fails, as `locations.get(0)` throws. Otherwise there is one item per span, in order, each with that one span; the first keeps the message and the later ones say "Continuing here". |
| RegexLocations.SingleLocationItemsKeepSpans | java-frontend/src/main/java/org/sonar/java/regex/RegexCheck.java:73-76 | The items' spans, taken in order, are exactly the location's spans. |
| RegexLocations.SplitItemsAreSingle | java-frontend/src/main/java/org/sonar/java/regex/RegexCheck.java:56-72 | Splitting is idempotent: every item splits into itself. |
| RegexLocations.AbuttingPairScenario | java-frontend/src/main/java/org/sonar/java/regex/RegexCheck.java:86-87 | Elements 2-5 and 5-9 give the spans of the range 2-9. |
| JavaTextEdit.SpanOfTree | java-frontend/src/test/java/org/sonar/java/reporting/JavaTextEditTest.java:43-47 | A tree's span runs from the start of its first token to the end of its last. |
| JavaTextEdit.RemoveTree | java-frontend/src/test/java/org/sonar/java/reporting/JavaTextEditTest.java:43-47 | The replacement is empty and the span is the whole tree. A tree without tokens fails. |
| JavaTextEdit.ReplaceTree | java-frontend/src/test/java/org/sonar/java/reporting/JavaTextEditTest.java:50-54 | The span is the whole tree and the replacement is the given text. A tree without tokens fails. |
| JavaTextEdit.InsertBeforeTree | java-frontend/src/test/java/org/sonar/java/reporting/JavaTextEditTest.java:57-69 | The span has zero width at the start of the first token. A tree without tokens fails with the IllegalStateException message "before". |
| JavaTextEdit.InsertAfterTree | java-frontend/src/test/java/org/sonar/java/reporting/JavaTextEditTest.java:72-84 | The span has zero width at the end of the last token. A tree without tokens fails with the IllegalStateException message "after". |
| JavaTextEdit.ReplaceBetweenTreeBounds | java-frontend/src/test/java/org/sonar/java/reporting/JavaTextEditTest.java:94-109 | The start is the start token's start, or its end when excluded. The end is the end token's end, or its start when excluded. The replacement is the given text. |
| JavaTextEdit.ReplaceBetweenTree | java-frontend/src/test/java/org/sonar/java/reporting/JavaTextEditTest.java:86-92 | With both bounds included, the span runs from the start token's start to the end token's end. |
| JavaTextEdit.RemoveBetweenTree | java-frontend/src/test/java/org/sonar/java/reporting/JavaTextEditTest.java:111-117 | The replacement is empty, over the same span as the inclusive replacement. |
| JavaTextEdit.WholeTreeSpansAgree | java-frontend/src/test/java/org/sonar/java/reporting/JavaTextEditTest.java:43-54 | These all cover the same span: removing a tree, replacing it, and replacing or removing between its first and last tokens. |
| JavaTextEdit.InsertionsAtTheEnds | java-frontend/src/test/java/org/sonar/java/reporting/JavaTextEditTest.java:57-76 | The insertions sit at the two ends of the tree's span. |
| JavaTextEdit.ExcludingBoundsShrinks | java-frontend/src/test/java/org/sonar/java/reporting/JavaTextEditTest.java:94-109 | Excluding a bound moves only that end, from the outer edge of its token to the inner edge. |
| JavaTextEdit.RemoveThenInsertBefore | java-frontend/src/test/java/org/sonar/java/reporting/JavaTextEditTest.java:43-61 | Inserting before a tree starts where removing it starts. |
| JavaTextEdit.ExampleMemberSpans | java-frontend/src/test/java/org/sonar/java/reporting/JavaTextEditTest.java:42-117 | On a member whose tokens span 4:2-4:5 … 4:12-4:13, every factory gives the span the tests assert. |
| JavaTextEdit.TokenlessTreeRefused | java-frontend/src/test/java/org/sonar/java/reporting/JavaTextEditTest.java:63-84 | Both insertions on a tree without tokens fail with the asserted messages. |
| ModulusEquality.MethodParameterIsRoot | java-checks/src/main/java/org/sonar/java/checks/ModulusEqualityCheck.java:83-96 | isMethodParameter holds iff the identifier at the root of the chain of member selects and invocations is a collected parameter. |
| ModulusEquality.SizeAccessorShape | java-checks/src/main/java/org/sonar/java/checks/ModulusEqualityCheck.java:98-121 | isSizeAccessor holds iff, once invocations are peeled off, the expression is one of three member selects: `size` on a Collection subtype, `length` on String, or `length` on an array. |
| ModulusEquality.ParameterFieldIsNoSize | java-checks/src/main/java/org/sonar/java/checks/ModulusEqualityCheck.java:88-103 | A parameter's other member counts as a parameter but not as a size accessor. |
| ModulusEquality.ModulusIssue | java-checks/src/main/java/org/sonar/java/checks/ModulusEqualityCheck.java:68-81 | There is an issue iff three things hold: the first operand is a remainder, the other side is a non-zero int literal, and some operand of the remainder traces to a parameter while neither is a size accessor. It is reported at the operator, saying "positive" for a literal above 0 and "negative" below. |
| ModulusEquality.OperandOrderIrrelevant | java-checks/src/main/java/org/sonar/java/checks/ModulusEqualityCheck.java:56-59 | Swapping the operands of `==` gives the same issues. |
| ModulusEquality.ZeroIsFine | java-checks/src/main/java/org/sonar/java/checks/ModulusEqualityCheck.java:76 | A comparison with 0 is never reported, on either side. |
| ModulusEquality.ParameterRemainderScenario | java-checks/src/main/java/org/sonar/java/checks/ModulusEqualityCheck.java:76-78 | `x % 2 == 1` on a parameter says "positive", and `-1 == x % 2` says "negative". |
| ModulusEquality.SizeScenario | java-checks/src/main/java/org/sonar/java/checks/ModulusEqualityCheck.java:75-106 | `list.size() % n == 1` is not reported. |
| ModulusEquality.ModulusEqualityChecker.LeaveFile | java-checks/src/main/java/org/sonar/java/checks/ModulusEqualityCheck.java:44-47 | The parameter set is emptied and the issues are kept. |
| ModulusEquality.ModulusEqualityChecker.CheckModulusAndIntLiteral | java-checks/src/main/java/org/sonar/java/checks/ModulusEqualityCheck.java:68-81 | The set is unchanged, and the issue `ModulusIssue` decides is appended. |
| ModulusEquality.ModulusEqualityChecker.VisitNode | java-checks/src/main/java/org/sonar/java/checks/ModulusEqualityCheck.java:54-66 | An `==` appends the issues of both operand orders. A method adds its parameters to the set. |
| ModulusEquality.ScanFile | java-checks/src/main/java/org/sonar/java/checks/ModulusEqualityCheck.java:42-66 | Visiting a file's nodes and leaving it appends the file's issues. Each `==` is judged with the parameters of the methods visited before it, and the set is empty afterwards. |
| ModulusEquality.ParametersOnlyGrow | java-checks/src/main/java/org/sonar/java/checks/ModulusEqualityCheck.java:61-64 | Within a file the parameter set only grows. |
| ModulusEquality.EarlierMethodParameterCounts | java-checks/src/main/java/org/sonar/java/checks/ModulusEqualityCheck.java:42-64 | A parameter of an earlier method of the file still counts in a later method. |
| OptionalAsParameter.FirstPrimitiveOptional | java-checks/src/main/java/org/sonar/java/checks/OptionalAsParameterCheck.java:78-80 | The filter over the primitive optionals finds one iff the type is one of them, and then it is the type's own name. |
| OptionalAsParameter.ExpectedTypeInsteadOfOptional | java-checks/src/main/java/org/sonar/java/checks/OptionalAsParameterCheck.java:67-82 | There is a message iff the type is one of five: `java.util.Optional`, Guava's `Optional`, or a primitive optional. A parameterized Optional names its first type argument, and a raw one gives "Specify a type instead.". |
| OptionalAsParameter.PrimitiveOptionalMessage | java-checks/src/main/java/org/sonar/java/checks/OptionalAsParameterCheck.java:78-81 | A primitive optional names its name without the `java.util.Optional` prefix, lowercased. |
| OptionalAsParameter.OptionalDoubleMessage | java-checks/src/main/java/org/sonar/java/checks/OptionalAsParameterCheck.java:78-85 | OptionalDouble gives `Specify a "double" parameter instead.`. |
| OptionalAsParameter.OptionalIntMessage | java-checks/src/main/java/org/sonar/java/checks/OptionalAsParameterCheck.java:78-85 | OptionalInt gives `Specify a "int" parameter instead.`. |
| OptionalAsParameter.OptionalLongMessage | java-checks/src/main/java/org/sonar/java/checks/OptionalAsParameterCheck.java:78-85 | OptionalLong gives `Specify a "long" parameter instead.`. |
| OptionalAsParameter.OnlyFirstTypeArgumentNamed | java-checks/src/main/java/org/sonar/java/checks/OptionalAsParameterCheck.java:70-72 | Only the first type argument is named, whatever follows it. |
| OptionalAsParameter.IssueOf | java-checks/src/main/java/org/sonar/java/checks/OptionalAsParameterCheck.java:54-62 | A parameter gives at most one issue. It gives one iff it is not `@RequestParam` or `@PathVariable` and its type has a message, and the issue is then on its type tree with that message. |
| OptionalAsParameter.ParameterIssues | java-checks/src/main/java/org/sonar/java/checks/OptionalAsParameterCheck.java:53-63 | There are no more issues than parameters. |
| OptionalAsParameter.ParameterIssuesComplete | java-checks/src/main/java/org/sonar/java/checks/OptionalAsParameterCheck.java:53-63 | Every parameter that is not Spring-bound and has a message gets its issue on its type tree. |
| OptionalAsParameter.ParameterIssuesSound | java-checks/src/main/java/org/sonar/java/checks/OptionalAsParameterCheck.java:53-63 | Every issue is on the type tree of a parameter that is not `@RequestParam` or `@PathVariable`, with its type's message. |
| OptionalAsParameter.VisitNode | java-checks/src/main/java/org/sonar/java/checks/OptionalAsParameterCheck.java:46-65 | Only a method whose `isOverriding()` is exactly FALSE is checked; an overriding or undecided one gives nothing. |
| OptionalAsParameter.OverridingScenario | java-checks/src/main/java/org/sonar/java/checks/OptionalAsParameterCheck.java:50-51 | An `Optional<String>` parameter is reported only when the method is known not to override. |
| OptionalAsParameter.PathVariableScenario | java-checks/src/main/java/org/sonar/java/checks/OptionalAsParameterCheck.java:55-57 | A `@PathVariable` Optional is not reported. |
| WriteObjectSynchronized.SynchronizationVisitor.Scan | java-checks/src/main/java/org/sonar/java/checks/synchronization/WriteObjectTheOnlySynchronizedMethodCheck.java:60-85 | The flag becomes its old value or `FoundLock` of the tree, so it only goes from false to true. The methods entered are exactly `Entered` from the old flag. |
| WriteObjectSynchronized.SynchronizationVisitor.VisitSynchronizedStatement | java-checks/src/main/java/org/sonar/java/checks/synchronization/WriteObjectTheOnlySynchronizedMethodCheck.java:69-72 | A synchronized statement sets the flag and enters nothing. |
| WriteObjectSynchronized.SynchronizationVisitor.VisitMethod | java-checks/src/main/java/org/sonar/java/checks/synchronization/WriteObjectTheOnlySynchronizedMethodCheck.java:74-84 | writeObject itself is skipped, and so is everything once the flag is set. Another synchronized method sets the flag. Any other method is entered. |
| WriteObjectSynchronized.SynchronizationVisitor.ScanChildren | java-checks/src/main/java/org/sonar/java/checks/synchronization/WriteObjectTheOnlySynchronizedMethodCheck.java:60-85 | The same, for the children in order, the flag carrying over from one child to the next. |
| WriteObjectSynchronized.VisitNode | java-checks/src/main/java/org/sonar/java/checks/synchronization/WriteObjectTheOnlySynchronizedMethodCheck.java:45-58 | There is one issue, on the `synchronized` modifier with `Remove this "synchronized" keyword.`, iff three things hold: the method matches writeObject, it is synchronized, and the class holds no other lock. |
| WriteObjectSynchronized.WriteObjectNeverEntered | java-checks/src/main/java/org/sonar/java/checks/synchronization/WriteObjectTheOnlySynchronizedMethodCheck.java:76-78 | The body of writeObject is never entered. |
| WriteObjectSynchronized.NothingEnteredOnceLocked | java-checks/src/main/java/org/sonar/java/checks/synchronization/WriteObjectTheOnlySynchronizedMethodCheck.java:63-76 | Once the flag is set, no method is entered. |
| WriteObjectSynchronized.BlockInsideWriteObjectIgnored | java-checks/src/main/java/org/sonar/java/checks/synchronization/WriteObjectTheOnlySynchronizedMethodCheck.java:76-78 | A synchronized block inside writeObject is not another lock. |
| WriteObjectSynchronized.OtherLocksFound | java-checks/src/main/java/org/sonar/java/checks/synchronization/WriteObjectTheOnlySynchronizedMethodCheck.java:69-82 | Another synchronized method is a lock, and so is a synchronized block in another method. |
| InnerClassTooManyLines.MeasuredIffFirstLevel | java-checks/src/main/java/org/sonar/java/checks/InnerClassTooManyLinesCheck.java:52-55 | A class is measured iff its owner is a top-level class. |
| InnerClassTooManyLines.VisitNode | java-checks/src/main/java/org/sonar/java/checks/InnerClassTooManyLinesCheck.java:48-63 | There is an issue iff the class is measured and has more lines than the maximum. It is reported on the class with the message naming lines and maximum. |
| InnerClassTooManyLines.ThresholdIsStrict | java-checks/src/main/java/org/sonar/java/checks/InnerClassTooManyLinesCheck.java:58 | Exactly `max` lines pass, and one more is reported. |
| InnerClassTooManyLines.MonotoneInMax | java-checks/src/main/java/org/sonar/java/checks/InnerClassTooManyLinesCheck.java:58 | A larger maximum never adds an issue. |
| InnerClassTooManyLines.OtherNestingNotMeasured | java-checks/src/main/java/org/sonar/java/checks/InnerClassTooManyLinesCheck.java:54-55 | Three kinds of class are never measured: top-level classes, classes two levels deep, and classes declared in a method. |
| InnerClassTooManyLines.DefaultMaxScenario | java-checks/src/main/java/org/sonar/java/checks/InnerClassTooManyLinesCheck.java:36-60 | Under the default maximum 25, a 26-line inner class gets "Reduce this class from 26 lines to the maximum allowed 25 or externalize it in a public class." A 25-line one passes. |
| JavaLang.Split | java-checks/src/main/java/org/sonar/java/checks/AssertionsInTestsCheck.java:234-237 | A string without the separator is one part. Otherwise the parts are the pieces between separators, with trailing empty pieces dropped. |
| JavaLang.JoinPieces | java-checks/src/main/java/org/sonar/java/checks/AssertionsInTestsCheck.java:234-237 | Joining the pieces of a string with its separator gives the string back. |
| JavaLang.Trim | java-checks/src/main/java/org/sonar/java/checks/AssertionsInTestsCheck.java:238-239 | The result is empty iff every char is at most U+0020; otherwise neither end is. |
| JavaLang.ToLower | java-checks/src/main/java/org/sonar/java/checks/OptionalAsParameterCheck.java:81 | Same length, each ASCII letter lowered as in a locale without special casing rules, every other char kept. |
| JavaLang.IntToString | java-checks/src/main/java/org/sonar/java/checks/InnerClassTooManyLinesCheck.java:59-60 | The decimal digits of the value, with a leading `-` when it is negative. |
| MethodMatchers.AnyMatch | java-checks/src/main/java/org/sonar/java/checks/AssertionsInTestsCheck.java:209-211 | A collection matches a call iff one of its matchers does. |
| MethodMatchers.AnyMatchAppend | java-checks/src/main/java/org/sonar/java/checks/AssertionsInTestsCheck.java:69-134 | A collection built from two lists matches iff one of the lists does. |

## Left out

- MethodMatchers: `MethodMatcher`, `MethodMatcherCollection`, `TypeCriteria` and `NameCriteria` are not part of this model. Their criteria are modelled from their names: `is` is exact, `subtypeOf` is the type or a supertype, `startsWith` is a prefix, an unresolved symbol never matches, and "any parameters" accepts every list.
- Symbol resolution, types, `isSubtypeOf`, erasure names, `intLiteralValue`, the lines-of-code metric, `LineUtils.startLine` and `textSpansFor` come from outside the core. They are data of the input trees or function parameters, not computed.
- The writeObject contract matcher (`SerializableContract.writeObjectMatcher`) is not part of this model. Whether a method matches it is a field of the method tree.
- `LOG.warn` is modelled as a list of `Warning` records holding the refused entry. `WarningText` gives the logged text. The logger itself is left out.
- The issue sink (`reportIssue`, `addIssue`) is left out. The issues are returned or collected as values.
- The contexts of the rules (`setContext`, `JavaFileScannerContext`) and file I/O are left out.
- JavaLang.ToLower: lowers ASCII letters as `toLowerCase()` does in a locale without special casing rules. The source calls `toLowerCase()` with no argument (OptionalAsParameterCheck.java:81), which uses the JVM's default locale, and under a Turkish or Azeri locale `I` lowers to the dotless `ı`. The default locale is not modelled.
- OptionalAsParameter.OptionalIntMessage: states `Specify a "int" parameter instead.`, the message in a locale without special casing rules. Under a Turkish or Azeri default locale the source reports `Specify a "ınt" parameter instead.`, through JavaLang.ToLower's gap. OptionalDouble and OptionalLong hold no `I` and are not affected.
- TooManyStatementsPerLine.CheckMember: the issues are a set, because they are reported from a `HashMap.forEach`, whose order is unspecified.
- TooManyStatementsPerLine: expressions are carried by the tree but never scanned, as in the source. The conditions of `if`, `while`, `do` and `for`, the `for` and for-each headers, the switch selector and the try resources are never scanned (java-checks/src/main/java/org/sonar/java/checks/TooManyStatementsPerLineCheck.java:124-212). Expression, return, throw and variable statements count their own lines without visiting their children (89-121, 162-167), so a lambda body inside them is not scanned. Anonymous and local classes reach the empty `visitClass` (84-86). Where the default traversal does reach statements, as for labeled and yield statements, `Other(children)` scans them.
- TooManyStatementsPerLine: a lone `if (c) { f(); }` on one line counts 2, the `if` keyword (TooManyStatementsPerLineCheck.java:125) and the expression statement (114-121), so the line is reported (SingleLineIfScenario).
- JavaTextEdit: the implementation of `JavaTextEdit` is not part of this model. Its behaviour comes only from what the tests assert.
- JavaTextEdit.RemoveTree: it fails with an unspecified exception on a tree without tokens, as does ReplaceTree. This is modelled as a distinct `MissingToken` outcome, because the tests do not show it.
- JavaTextEdit: a token is given by its start and end positions. How a multi-line token's end is computed is not modelled.
- ModulusEquality: the parameter set is not scoped per method, as in the source (EarlierMethodParameterCounts). Symbols are compared by identity, modelled as numbers.
- Integers are unbounded. Java's 32-bit `int` only matters for lines, counts and literal values, which stay far from the bounds.
- No overflow behaviour is modelled.
- SubscriptionVisitor: `nodesToVisit()` is given as an argument to each scan. The model's trace stands in for the callbacks a rule overrides, so the callbacks' own effects are left out.

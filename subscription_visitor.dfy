/** The subscription traversal driver: one pre-order walk of a syntax tree that calls
    visitNode/leaveNode on the node kinds a rule subscribed to, and visitToken/visitTrivia on token
    leaves when the synthetic TOKEN or TRIVIA kinds are subscribed. The callbacks received are
    recorded as a trace of events. */
module SubscriptionVisitor {

  datatype Option<T> = None | Some(value: T)

  /** Tree.Kind: the two synthetic leaf kinds and every other syntax kind by name. */
  datatype Kind = TOKEN | TRIVIA | Syntax(name: string)

  /** A comment or white-space run attached to a token. */
  datatype Trivia = Trivia(text: string)

  /** A syntax tree: a token leaf with its trivia, or a node of some syntax kind whose children
      may contain nulls. `isLeaf` is JavaTree.isLeaf(); a leaf's children are never visited. */
  datatype Tree =
    | Token(text: string, trivias: seq<Trivia>)
    | Node(name: string, isLeaf: bool, children: seq<Option<Tree>>)

  function KindOf(t: Tree): Kind {
    if t.Token? then TOKEN else Syntax(t.name)
  }

  predicate IsLeaf(t: Tree) {
    t.Token? || t.isLeaf
  }

  /** The children the driver descends into (none for a leaf). */
  function Children(t: Tree): seq<Option<Tree>> {
    if IsLeaf(t) then [] else t.children
  }

  /** The callbacks, as the rule receives them. */
  datatype Event =
    | VisitNode(tree: Tree)
    | LeaveNode(tree: Tree)
    | VisitToken(token: Tree)
    | VisitTrivia(trivia: Trivia)

  /** True when `t` is visited as a syntax token: TOKEN or TRIVIA is subscribed and `t` is a token. */
  predicate TokenMode(subs: set<Kind>, t: Tree) {
    (TOKEN in subs || TRIVIA in subs) && t.Token?
  }

  function TriviaEvents(trivias: seq<Trivia>): (r: seq<Event>)
    ensures |r| == |trivias| && forall i :: 0 <= i < |r| ==> r[i] == VisitTrivia(trivias[i])
  {
    seq(|trivias|, i requires 0 <= i < |trivias| => VisitTrivia(trivias[i]))
  }

  /** The events `t` itself produces before its children are visited. */
  function Head(subs: set<Kind>, t: Tree): seq<Event> {
    if TokenMode(subs, t) then
      (if TOKEN in subs then [VisitToken(t)] else []) +
      (if TRIVIA in subs then TriviaEvents(t.trivias) else [])
    else if KindOf(t) in subs then [VisitNode(t)]
    else []
  }

  /** The events `t` itself produces after its children are visited. */
  function Tail(subs: set<Kind>, t: Tree): seq<Event> {
    if !TokenMode(subs, t) && KindOf(t) in subs then [LeaveNode(t)] else []
  }

  /** The whole trace of visiting `t`, as SubscriptionVisitor.visit produces it. */
  function Events(subs: set<Kind>, t: Tree): seq<Event>
    decreases t, 1, 0
  {
    Head(subs, t) + ChildEventsFrom(subs, t, 0) + Tail(subs, t)
  }

  /** The trace of visiting the children of `t` from index `i` on, skipping null children. */
  function ChildEventsFrom(subs: set<Kind>, t: Tree, i: nat): seq<Event>
    requires i <= |Children(t)|
    decreases t, 0, |Children(t)| - i
  {
    if i == |Children(t)| then []
    else
      (match Children(t)[i] case Some(c) => Events(subs, c) case None => []) +
      ChildEventsFrom(subs, t, i + 1)
  }

  // ---------------------------------------------------------------------------------------------
  // Reference semantics: the pre-order enumeration of the trees the walk reaches.

  /** Every tree the driver reaches from `t`, in pre-order: `t`, then the reached trees of each
      non-null child in list order; a leaf's children are not reached. */
  function Preorder(t: Tree): seq<Tree>
    decreases t, 1, 0
  {
    [t] + PreorderFrom(t, 0)
  }

  function PreorderFrom(t: Tree, i: nat): seq<Tree>
    requires i <= |Children(t)|
    decreases t, 0, |Children(t)| - i
  {
    if i == |Children(t)| then []
    else
      (match Children(t)[i] case Some(c) => Preorder(c) case None => []) + PreorderFrom(t, i + 1)
  }

  /** The trees that get visitNode: subscribed nodes that are not visited as tokens. */
  function EnteredTrees(subs: set<Kind>, ts: seq<Tree>): seq<Tree> {
    if ts == [] then []
    else (if !TokenMode(subs, ts[0]) && KindOf(ts[0]) in subs then [ts[0]] else []) +
         EnteredTrees(subs, ts[1..])
  }

  function TokenTrees(ts: seq<Tree>): seq<Tree> {
    if ts == [] then [] else (if ts[0].Token? then [ts[0]] else []) + TokenTrees(ts[1..])
  }

  function TriviaOf(ts: seq<Tree>): seq<Trivia> {
    if ts == [] then [] else (if ts[0].Token? then ts[0].trivias else []) + TriviaOf(ts[1..])
  }

  /** The trees a trace enters with visitNode, in order. */
  function Entered(trace: seq<Event>): seq<Tree> {
    if trace == [] then [] else (if trace[0].VisitNode? then [trace[0].tree] else []) + Entered(trace[1..])
  }

  /** The tokens a trace passes to visitToken, in order. */
  function TokensVisited(trace: seq<Event>): seq<Tree> {
    if trace == [] then [] else (if trace[0].VisitToken? then [trace[0].token] else []) + TokensVisited(trace[1..])
  }

  /** The trivia a trace passes to visitTrivia, in order. */
  function TriviaVisited(trace: seq<Event>): seq<Trivia> {
    if trace == [] then [] else (if trace[0].VisitTrivia? then [trace[0].trivia] else []) + TriviaVisited(trace[1..])
  }

  /** Replaying a trace against a stack of open nodes: visitNode opens, leaveNode must close the
      innermost open node; None when a leaveNode does not match. */
  function Replay(stack: seq<Tree>, trace: seq<Event>): Option<seq<Tree>>
    decreases |trace|
  {
    if trace == [] then Some(stack)
    else match trace[0]
      case VisitNode(t) => Replay([t] + stack, trace[1..])
      case LeaveNode(t) =>
        if stack != [] && stack[0] == t then Replay(stack[1..], trace[1..]) else None
      case _ => Replay(stack, trace[1..])
  }

  /** A trace is well nested when every leaveNode closes the innermost open visitNode and nothing
      is left open. */
  predicate WellNested(trace: seq<Event>) {
    Replay([], trace) == Some([])
  }

  // ---------------------------------------------------------------------------------------------
  // Lemmas about the trace

  lemma {:induction false} EnteredAppend(a: seq<Event>, b: seq<Event>)
    ensures Entered(a + b) == Entered(a) + Entered(b)
  {
    if a != [] {
      assert (a + b)[0] == a[0] && (a + b)[1..] == a[1..] + b;
      EnteredAppend(a[1..], b);
    } else {
      assert a + b == b;
    }
  }

  lemma {:induction false} TokensVisitedAppend(a: seq<Event>, b: seq<Event>)
    ensures TokensVisited(a + b) == TokensVisited(a) + TokensVisited(b)
  {
    if a != [] {
      assert (a + b)[0] == a[0] && (a + b)[1..] == a[1..] + b;
      TokensVisitedAppend(a[1..], b);
    } else {
      assert a + b == b;
    }
  }

  lemma {:induction false} TriviaVisitedAppend(a: seq<Event>, b: seq<Event>)
    ensures TriviaVisited(a + b) == TriviaVisited(a) + TriviaVisited(b)
  {
    if a != [] {
      assert (a + b)[0] == a[0] && (a + b)[1..] == a[1..] + b;
      TriviaVisitedAppend(a[1..], b);
    } else {
      assert a + b == b;
    }
  }

  lemma {:induction false} EnteredTreesAppend(subs: set<Kind>, a: seq<Tree>, b: seq<Tree>)
    ensures EnteredTrees(subs, a + b) == EnteredTrees(subs, a) + EnteredTrees(subs, b)
  {
    if a != [] {
      assert (a + b)[0] == a[0] && (a + b)[1..] == a[1..] + b;
      EnteredTreesAppend(subs, a[1..], b);
    } else {
      assert a + b == b;
    }
  }

  lemma {:induction false} TokenTreesAppend(a: seq<Tree>, b: seq<Tree>)
    ensures TokenTrees(a + b) == TokenTrees(a) + TokenTrees(b)
  {
    if a != [] {
      assert (a + b)[0] == a[0] && (a + b)[1..] == a[1..] + b;
      TokenTreesAppend(a[1..], b);
    } else {
      assert a + b == b;
    }
  }

  lemma {:induction false} TriviaOfAppend(a: seq<Tree>, b: seq<Tree>)
    ensures TriviaOf(a + b) == TriviaOf(a) + TriviaOf(b)
  {
    if a != [] {
      assert (a + b)[0] == a[0] && (a + b)[1..] == a[1..] + b;
      TriviaOfAppend(a[1..], b);
    } else {
      assert a + b == b;
    }
  }

  lemma {:induction false} ReplayAppend(stack: seq<Tree>, a: seq<Event>, b: seq<Event>)
    ensures Replay(stack, a + b) == match Replay(stack, a) case Some(s) => Replay(s, b) case None => None
    decreases |a|
  {
    if a != [] {
      assert (a + b)[0] == a[0] && (a + b)[1..] == a[1..] + b;
      match a[0]
      case VisitNode(t) => ReplayAppend([t] + stack, a[1..], b);
      case LeaveNode(t) =>
        if stack != [] && stack[0] == t { ReplayAppend(stack[1..], a[1..], b); }
      case VisitToken(_) => ReplayAppend(stack, a[1..], b);
      case VisitTrivia(_) => ReplayAppend(stack, a[1..], b);
    } else {
      assert a + b == b;
    }
  }

  lemma {:induction false} ReplayFlat(stack: seq<Tree>, trace: seq<Event>)
    requires forall i :: 0 <= i < |trace| ==> !trace[i].VisitNode? && !trace[i].LeaveNode?
    ensures Replay(stack, trace) == Some(stack)
  {
    if trace != [] {
      ReplayFlat(stack, trace[1..]);
    }
  }

  /** The events of visiting any tree leave the stack of open nodes as they found it: every
      visitNode is closed by its own leaveNode after all the events of the node's subtree. */
  lemma {:induction false} EventsBalanced(subs: set<Kind>, t: Tree, stack: seq<Tree>)
    ensures Replay(stack, Events(subs, t)) == Some(stack)
    decreases t, 1, 0
  {
    var h, c, l := Head(subs, t), ChildEventsFrom(subs, t, 0), Tail(subs, t);
    var inner := if !TokenMode(subs, t) && KindOf(t) in subs then [t] + stack else stack;
    ReplayAppend(stack, h + c, l);
    ReplayAppend(stack, h, c);
    if TokenMode(subs, t) {
      ReplayFlat(stack, h);
    } else if KindOf(t) in subs {
      assert Replay(stack, h) == Replay([t] + stack, []);
    }
    assert Replay(stack, h) == Some(inner);
    ChildEventsBalanced(subs, t, 0, inner);
    if !TokenMode(subs, t) && KindOf(t) in subs {
      assert Replay(inner, l) == Replay(stack, []);
    }
  }

  lemma {:induction false} ChildEventsBalanced(subs: set<Kind>, t: Tree, i: nat, stack: seq<Tree>)
    requires i <= |Children(t)|
    ensures Replay(stack, ChildEventsFrom(subs, t, i)) == Some(stack)
    decreases t, 0, |Children(t)| - i
  {
    if i < |Children(t)| {
      var first := match Children(t)[i] case Some(c) => Events(subs, c) case None => [];
      ReplayAppend(stack, first, ChildEventsFrom(subs, t, i + 1));
      match Children(t)[i] {
        case Some(c) => EventsBalanced(subs, c, stack);
        case None =>
      }
      ChildEventsBalanced(subs, t, i + 1, stack);
    }
  }

  /** visitNode is called exactly on the subscribed reached nodes, once each, in pre-order; a token
      visited as a syntax token never gets visitNode. */
  lemma {:induction false} EnteredIsPreorder(subs: set<Kind>, t: Tree)
    ensures Entered(Events(subs, t)) == EnteredTrees(subs, Preorder(t))
    decreases t, 1, 0
  {
    var h, c, l := Head(subs, t), ChildEventsFrom(subs, t, 0), Tail(subs, t);
    EnteredAppend(h + c, l);
    EnteredAppend(h, c);
    if TokenMode(subs, t) {
      assert Entered(h) == [] by { EnteredFlat(h); }
    }
    assert Entered(l) == [] by { EnteredFlat(l); }
    EnteredChildren(subs, t, 0);
    EnteredTreesAppend(subs, [t], PreorderFrom(t, 0));
  }

  lemma {:induction false} EnteredFlat(trace: seq<Event>)
    requires forall i :: 0 <= i < |trace| ==> !trace[i].VisitNode?
    ensures Entered(trace) == []
  {
    if trace != [] {
      EnteredFlat(trace[1..]);
    }
  }

  lemma {:induction false} EnteredChildren(subs: set<Kind>, t: Tree, i: nat)
    requires i <= |Children(t)|
    ensures Entered(ChildEventsFrom(subs, t, i)) == EnteredTrees(subs, PreorderFrom(t, i))
    decreases t, 0, |Children(t)| - i
  {
    if i < |Children(t)| {
      match Children(t)[i] {
        case Some(c) =>
          EnteredAppend(Events(subs, c), ChildEventsFrom(subs, t, i + 1));
          EnteredTreesAppend(subs, Preorder(c), PreorderFrom(t, i + 1));
          EnteredIsPreorder(subs, c);
        case None =>
          assert ChildEventsFrom(subs, t, i) == ChildEventsFrom(subs, t, i + 1);
          assert PreorderFrom(t, i) == PreorderFrom(t, i + 1);
      }
      EnteredChildren(subs, t, i + 1);
    }
  }

  /** When TOKEN is subscribed, visitToken is called on every reached token, once each, in order;
      otherwise never. */
  lemma {:induction false} TokensArePreorder(subs: set<Kind>, t: Tree)
    ensures TokensVisited(Events(subs, t)) == if TOKEN in subs then TokenTrees(Preorder(t)) else []
    decreases t, 1, 0
  {
    var h, c, l := Head(subs, t), ChildEventsFrom(subs, t, 0), Tail(subs, t);
    TokensVisitedAppend(h + c, l);
    TokensVisitedAppend(h, c);
    assert TokensVisited(l) == [];
    if TokenMode(subs, t) {
      var tr := if TRIVIA in subs then TriviaEvents(t.trivias) else [];
      TokensVisitedAppend(if TOKEN in subs then [VisitToken(t)] else [], tr);
      TokensVisitedFlat(tr);
    } else {
      assert TokensVisited(h) == [];
    }
    TokensChildren(subs, t, 0);
    TokenTreesAppend([t], PreorderFrom(t, 0));
  }

  lemma {:induction false} TokensVisitedFlat(trace: seq<Event>)
    requires forall i :: 0 <= i < |trace| ==> trace[i].VisitTrivia?
    ensures TokensVisited(trace) == []
  {
    if trace != [] {
      TokensVisitedFlat(trace[1..]);
    }
  }

  lemma {:induction false} TokensChildren(subs: set<Kind>, t: Tree, i: nat)
    requires i <= |Children(t)|
    ensures TokensVisited(ChildEventsFrom(subs, t, i)) ==
            if TOKEN in subs then TokenTrees(PreorderFrom(t, i)) else []
    decreases t, 0, |Children(t)| - i
  {
    if i < |Children(t)| {
      match Children(t)[i] {
        case Some(c) =>
          TokensVisitedAppend(Events(subs, c), ChildEventsFrom(subs, t, i + 1));
          TokenTreesAppend(Preorder(c), PreorderFrom(t, i + 1));
          TokensArePreorder(subs, c);
        case None =>
          assert ChildEventsFrom(subs, t, i) == ChildEventsFrom(subs, t, i + 1);
          assert PreorderFrom(t, i) == PreorderFrom(t, i + 1);
      }
      TokensChildren(subs, t, i + 1);
    }
  }

  /** When TRIVIA is subscribed, visitTrivia is called on the trivia of every reached token, each
      token's trivia in list order and tokens in pre-order; otherwise never. */
  lemma {:induction false} TriviaArePreorder(subs: set<Kind>, t: Tree)
    ensures TriviaVisited(Events(subs, t)) == if TRIVIA in subs then TriviaOf(Preorder(t)) else []
    decreases t, 1, 0
  {
    var h, c, l := Head(subs, t), ChildEventsFrom(subs, t, 0), Tail(subs, t);
    assert Events(subs, t) == h + c + l;
    TriviaVisitedAppend(h + c, l);
    TriviaVisitedAppend(h, c);
    assert TriviaVisited(l) == [];
    TriviaOfHead(subs, t);
    TriviaChildren(subs, t, 0);
    TriviaOfAppend([t], PreorderFrom(t, 0));
  }

  /** The trivia events of a tree's own head are the trivia of the tree, when TRIVIA is
      subscribed. */
  lemma TriviaOfHead(subs: set<Kind>, t: Tree)
    ensures TriviaVisited(Head(subs, t)) == if TRIVIA in subs then TriviaOf([t]) else []
  {
    assert [t][1..] == [];
    assert TriviaOf([t]) == if t.Token? then t.trivias else [];
    if TokenMode(subs, t) {
      var tk := if TOKEN in subs then [VisitToken(t)] else [];
      var tr := if TRIVIA in subs then TriviaEvents(t.trivias) else [];
      TriviaVisitedAppend(tk, tr);
      assert TriviaVisited(tk) == [];
      if TRIVIA in subs {
        TriviaEventsVisited(t.trivias);
      }
    } else {
      assert TriviaVisited(Head(subs, t)) == [];
      if TRIVIA in subs {
        assert t.Node?;
      }
    }
  }

  lemma {:induction false} TriviaEventsVisited(trivias: seq<Trivia>)
    ensures TriviaVisited(TriviaEvents(trivias)) == trivias
  {
    if trivias != [] {
      assert TriviaEvents(trivias)[1..] == TriviaEvents(trivias[1..]);
      TriviaEventsVisited(trivias[1..]);
    }
  }

  lemma {:induction false} TriviaChildren(subs: set<Kind>, t: Tree, i: nat)
    requires i <= |Children(t)|
    ensures TriviaVisited(ChildEventsFrom(subs, t, i)) ==
            if TRIVIA in subs then TriviaOf(PreorderFrom(t, i)) else []
    decreases t, 0, |Children(t)| - i
  {
    if i < |Children(t)| {
      match Children(t)[i] {
        case Some(c) =>
          TriviaVisitedAppend(Events(subs, c), ChildEventsFrom(subs, t, i + 1));
          TriviaOfAppend(Preorder(c), PreorderFrom(t, i + 1));
          TriviaArePreorder(subs, c);
        case None =>
          assert ChildEventsFrom(subs, t, i) == ChildEventsFrom(subs, t, i + 1);
          assert PreorderFrom(t, i) == PreorderFrom(t, i + 1);
      }
      TriviaChildren(subs, t, i + 1);
    }
  }

  /** A node that no rule subscribed to produces no event of its own: its trace is exactly the
      traces of its non-null children, which are still visited. */
  lemma UnsubscribedIsTransparent(subs: set<Kind>, t: Tree)
    requires t.Node? && KindOf(t) !in subs
    ensures Events(subs, t) == ChildEventsFrom(subs, t, 0)
    ensures forall i :: 0 <= i < |Events(subs, t)| ==> Events(subs, t)[i] != VisitNode(t) && Events(subs, t)[i] != LeaveNode(t)
  {
    assert !TokenMode(subs, t);
    assert Head(subs, t) == [] && Tail(subs, t) == [];
    assert Events(subs, t) == [] + ChildEventsFrom(subs, t, 0) + [];
    var trace := Events(subs, t);
    NotEnteredSelf(subs, t);
    forall i | 0 <= i < |trace|
      ensures trace[i] != VisitNode(t) && trace[i] != LeaveNode(t)
    {
      if trace[i].VisitNode? {
        InEntered(trace, i);
      }
      if trace[i].LeaveNode? {
        LeaveWasEntered(subs, t, i);
      }
    }
  }

  lemma {:induction false} InEntered(trace: seq<Event>, i: nat)
    requires i < |trace| && trace[i].VisitNode?
    ensures trace[i].tree in Entered(trace)
  {
    if i > 0 {
      InEntered(trace[1..], i - 1);
    }
  }

  lemma {:induction false} EnteredTreesIn(subs: set<Kind>, ts: seq<Tree>, u: Tree)
    requires u in EnteredTrees(subs, ts)
    ensures u in ts
  {
    if ts != [] && u != ts[0] {
      EnteredTreesIn(subs, ts[1..], u);
    }
  }

  /** Every tree reached below `t` is strictly smaller than `t`. */
  lemma {:induction false} PreorderFromBelow(t: Tree, i: nat)
    requires i <= |Children(t)|
    ensures forall u :: u in PreorderFrom(t, i) ==> u < t
    decreases t, 0, |Children(t)| - i
  {
    if i < |Children(t)| {
      PreorderFromBelow(t, i + 1);
      match Children(t)[i] {
        case Some(c) =>
          assert Children(t)[i] in t.children;
          PreorderBelowOrSelf(c);
        case None =>
      }
    }
  }

  lemma {:induction false} PreorderBelowOrSelf(t: Tree)
    ensures forall u :: u in Preorder(t) ==> u == t || u < t
    decreases t, 1, 0
  {
    PreorderFromBelow(t, 0);
  }

  /** An unsubscribed node is never entered while visiting it: everything entered lies strictly
      below it. */
  lemma NotEnteredSelf(subs: set<Kind>, t: Tree)
    requires t.Node? && KindOf(t) !in subs
    ensures t !in Entered(Events(subs, t))
  {
    EnteredIsPreorder(subs, t);
    EnteredTreesAppend(subs, [t], PreorderFrom(t, 0));
    PreorderFromBelow(t, 0);
    if t in EnteredTrees(subs, PreorderFrom(t, 0)) {
      EnteredTreesIn(subs, PreorderFrom(t, 0), t);
      assert false;
    }
  }

  /** Every leaveNode in the trace of a tree closes a tree that the trace entered. */
  lemma LeaveWasEntered(subs: set<Kind>, t: Tree, i: nat)
    requires i < |Events(subs, t)| && Events(subs, t)[i].LeaveNode?
    ensures Events(subs, t)[i].tree in Entered(Events(subs, t))
  {
    var trace := Events(subs, t);
    var u := trace[i].tree;
    EventsBalanced(subs, t, []);
    assert trace == trace[..i] + trace[i..];
    ReplayAppend([], trace[..i], trace[i..]);
    var open := Replay([], trace[..i]);
    assert open.Some?;
    assert trace[i..][0] == LeaveNode(u);
    assert open.value != [] && open.value[0] == u;
    OpenWasEntered([], trace[..i], u);
    EnteredTakePrefix(trace, i);
  }

  /** Every tree on the stack after replaying a trace was on the stack before or was entered by
      the trace. */
  lemma {:induction false} OpenWasEntered(stack: seq<Tree>, trace: seq<Event>, u: Tree)
    requires Replay(stack, trace).Some? && u in Replay(stack, trace).value
    ensures u in stack || u in Entered(trace)
    decreases |trace|
  {
    if trace != [] {
      match trace[0]
      case VisitNode(t) =>
        OpenWasEntered([t] + stack, trace[1..], u);
      case LeaveNode(t) =>
        OpenWasEntered(stack[1..], trace[1..], u);
      case VisitToken(_) =>
        OpenWasEntered(stack, trace[1..], u);
      case VisitTrivia(_) =>
        OpenWasEntered(stack, trace[1..], u);
    }
  }

  lemma EnteredTakePrefix(trace: seq<Event>, i: nat)
    requires i <= |trace|
    ensures forall u :: u in Entered(trace[..i]) ==> u in Entered(trace)
  {
    assert trace == trace[..i] + trace[i..];
    EnteredAppend(trace[..i], trace[i..]);
  }

  // ---------------------------------------------------------------------------------------------
  // The driver

  /** SubscriptionVisitor: the subscription set is computed from nodesToVisit() on the first scan
      only; the token and trivia flags are recomputed on every scan. `trace` records the callbacks
      received, in order. */
  class Driver {
    var nodesToVisit: Option<set<Kind>>
    var visitToken: bool
    var visitTrivia: bool
    var trace: seq<Event>

    ghost predicate Valid()
      reads this
    {
      nodesToVisit.Some? &&
      visitToken == (TOKEN in nodesToVisit.value) &&
      visitTrivia == (TRIVIA in nodesToVisit.value)
    }

    constructor ()
      ensures nodesToVisit == None && !visitToken && !visitTrivia && trace == []
    {
      nodesToVisit := None;
      visitToken, visitTrivia := false, false;
      trace := [];
    }

    /** scanTree; `kinds` is what nodesToVisit() returns at this call. */
    method ScanTree(tree: Tree, kinds: seq<Kind>)
      modifies this
      ensures old(nodesToVisit).None? ==> nodesToVisit == Some(set k | k in kinds)
      ensures old(nodesToVisit).Some? ==> nodesToVisit == old(nodesToVisit)
      ensures Valid()
      ensures trace == old(trace) + Events(nodesToVisit.value, tree)
    {
      if nodesToVisit.None? {
        if |kinds| == 0 {
          assert (set k | k in kinds) == {};
          nodesToVisit := Some({});
        } else {
          nodesToVisit := Some(set k | k in kinds);
        }
      }
      visitToken := IsVisitingTokens();
      visitTrivia := IsVisitingTrivia();
      Visit(tree);
    }

    function IsSubscribed(tree: Tree): bool
      reads this
      requires nodesToVisit.Some?
    {
      KindOf(tree) in nodesToVisit.value
    }

    function IsVisitingTokens(): bool
      reads this
      requires nodesToVisit.Some?
    {
      TOKEN in nodesToVisit.value
    }

    function IsVisitingTrivia(): bool
      reads this
      requires nodesToVisit.Some?
    {
      TRIVIA in nodesToVisit.value
    }

    method Visit(tree: Tree)
      requires Valid()
      modifies this`trace
      ensures trace == old(trace) + Events(nodesToVisit.value, tree)
      decreases tree, 1, 0
    {
      ghost var subs := nodesToVisit.value;
      var isSubscribed := IsSubscribed(tree);
      var shouldVisitSyntaxToken := (visitToken || visitTrivia) && tree.Token?;
      if shouldVisitSyntaxToken {
        VisitSyntaxToken(tree);
      } else if isSubscribed {
        trace := trace + [VisitNode(tree)];
      }
      ghost var afterHead := trace;
      assert afterHead == old(trace) + Head(subs, tree);
      VisitChildren(tree);
      ghost var afterChildren := trace;
      assert afterChildren == afterHead + ChildEventsFrom(subs, tree, 0);
      if !shouldVisitSyntaxToken && isSubscribed {
        trace := trace + [LeaveNode(tree)];
      }
      assert trace == afterChildren + Tail(subs, tree);
      EventsAssembled(subs, tree, old(trace));
    }

    /** The callbacks of a token visited as a syntax token: visitToken, then visitTrivia on each
        of its trivia in order. */
    method VisitSyntaxToken(tree: Tree)
      requires Valid() && TokenMode(nodesToVisit.value, tree)
      modifies this`trace
      ensures trace == old(trace) + Head(nodesToVisit.value, tree)
    {
      if visitToken {
        trace := trace + [VisitToken(tree)];
      }
      if visitTrivia {
        ghost var before := trace;
        for i := 0 to |tree.trivias|
          invariant trace == before + TriviaEvents(tree.trivias[..i])
        {
          assert tree.trivias[..i + 1] == tree.trivias[..i] + [tree.trivias[i]];
          trace := trace + [VisitTrivia(tree.trivias[i])];
        }
        assert tree.trivias[..|tree.trivias|] == tree.trivias;
      }
    }

    method VisitChildren(tree: Tree)
      requires Valid()
      modifies this`trace
      ensures trace == old(trace) + ChildEventsFrom(nodesToVisit.value, tree, 0)
      decreases tree, 0, 0
    {
      ghost var subs := nodesToVisit.value;
      if !IsLeaf(tree) {
        var children := tree.children;
        for i := 0 to |children|
          invariant old(trace) + ChildEventsFrom(subs, tree, 0) == trace + ChildEventsFrom(subs, tree, i)
        {
          var next := children[i];
          if next.Some? {
            assert next in tree.children;
            ghost var before := trace;
            Visit(next.value);
            ChildVisited(subs, tree, i, next.value, before);
          } else {
            ChildSkipped(subs, tree, i);
          }
        }
      } else {
        assert ChildEventsFrom(subs, tree, 0) == [];
      }
    }
  }

  /** The trace of a visit is the head, then the children's events, then the tail. */
  lemma EventsAssembled(subs: set<Kind>, t: Tree, before: seq<Event>)
    ensures before + Events(subs, t) == ((before + Head(subs, t)) + ChildEventsFrom(subs, t, 0)) + Tail(subs, t)
  {
    var h, c, l := Head(subs, t), ChildEventsFrom(subs, t, 0), Tail(subs, t);
    assert Events(subs, t) == (h + c) + l;
    AppendAssociative(before, h + c, l);
    AppendAssociative(before, h, c);
  }

  lemma AppendAssociative(a: seq<Event>, b: seq<Event>, c: seq<Event>)
    ensures a + (b + c) == (a + b) + c
  {
  }

  /** A non-null child contributes its own events, ahead of those of the later children. */
  lemma ChildVisited(subs: set<Kind>, t: Tree, i: nat, c: Tree, before: seq<Event>)
    requires i < |Children(t)| && Children(t)[i] == Some(c)
    ensures before + ChildEventsFrom(subs, t, i) == (before + Events(subs, c)) + ChildEventsFrom(subs, t, i + 1)
  {
    assert ChildEventsFrom(subs, t, i) == Events(subs, c) + ChildEventsFrom(subs, t, i + 1);
  }

  /** A null child contributes nothing. */
  lemma ChildSkipped(subs: set<Kind>, t: Tree, i: nat)
    requires i < |Children(t)| && Children(t)[i] == None
    ensures ChildEventsFrom(subs, t, i) == ChildEventsFrom(subs, t, i + 1)
  {
  }

  /** Each scan's share of the trace is well nested. */
  lemma ScanIsWellNested(subs: set<Kind>, tree: Tree)
    ensures WellNested(Events(subs, tree))
  {
    EventsBalanced(subs, tree, []);
  }

  /** The scenario of a class `A { void f(){ int x = 1; } }` with METHOD and VARIABLE subscribed:
      visitNode(METHOD), visitNode(VARIABLE), leaveNode(VARIABLE), leaveNode(METHOD). */
  lemma DriverOrderScenario()
    ensures
      var x := Node("VARIABLE", false, [Some(Token("int", [])), Some(Token("x", []))]);
      var body := Node("BLOCK", false, [Some(x)]);
      var f := Node("METHOD", false, [None, Some(body)]);
      var a := Node("CLASS", false, [Some(f)]);
      Events({Syntax("METHOD"), Syntax("VARIABLE")}, a) ==
        [VisitNode(f), VisitNode(x), LeaveNode(x), LeaveNode(f)]
  {
    var subs := {Syntax("METHOD"), Syntax("VARIABLE")};
    var x := Node("VARIABLE", false, [Some(Token("int", [])), Some(Token("x", []))]);
    var body := Node("BLOCK", false, [Some(x)]);
    var f := Node("METHOD", false, [None, Some(body)]);
    var a := Node("CLASS", false, [Some(f)]);
    assert Syntax("CLASS") !in subs && Syntax("BLOCK") !in subs;
    assert Events(subs, Token("int", [])) == [];
    assert Events(subs, Token("x", [])) == [];
    assert ChildEventsFrom(subs, x, 1) == [];
    assert ChildEventsFrom(subs, x, 0) == [];
    assert Events(subs, x) == [VisitNode(x), LeaveNode(x)];
    assert ChildEventsFrom(subs, body, 0) == [VisitNode(x), LeaveNode(x)];
    assert Events(subs, body) == [VisitNode(x), LeaveNode(x)];
    assert ChildEventsFrom(subs, f, 1) == [VisitNode(x), LeaveNode(x)];
    assert ChildEventsFrom(subs, f, 0) == [VisitNode(x), LeaveNode(x)];
    assert Events(subs, f) == [VisitNode(f), VisitNode(x), LeaveNode(x), LeaveNode(f)];
    assert ChildEventsFrom(subs, a, 0) == Events(subs, f);
  }
}

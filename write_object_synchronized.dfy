/** Rule S3042: a `synchronized` writeObject is pointless when it is the only lock of its class.
    For a synchronized method matching the writeObject contract, the rule scans the declaration
    of the enclosing class for any other lock (a synchronized statement, or another synchronized
    method) and reports the modifier when it finds none. */
module WriteObjectSynchronized {

  datatype Option<T> = None | Some(value: T)

  /** The trees the scan tells apart. A method is given by its identity, the position of its
      `synchronized` modifier (if it has one), whether it matches the writeObject contract of its
      enclosing class, and its children (modifiers, parameters, body). Everything else, class
      declarations included, is only a list of children. */
  datatype Tree =
    | Method(id: nat, synchronizedModifier: Option<nat>, matchesWriteObject: bool, children: seq<Tree>)
    | SynchronizedStatement(children: seq<Tree>)
    | Other(children: seq<Tree>)

  datatype Issue = Issue(token: nat, message: string)

  const MESSAGE: string := "Remove this \"synchronized\" keyword."

  /** What SynchronizationVisitor finds in a tree: a synchronized statement, or a synchronized
      method other than writeObject, outside writeObject's own body. */
  predicate FoundLock(writeObject: nat, t: Tree)
    decreases t
  {
    match t
    case Method(id, synchronizedModifier, _, children) =>
      id != writeObject && (synchronizedModifier.Some? || FoundLockIn(writeObject, children))
    case SynchronizedStatement(_) => true
    case Other(children) => FoundLockIn(writeObject, children)
  }

  predicate FoundLockIn(writeObject: nat, ts: seq<Tree>)
    decreases ts
  {
    ts != [] && (FoundLock(writeObject, ts[0]) || FoundLockIn(writeObject, ts[1..]))
  }

  /** The methods whose children the visitor enters, in order, starting with the flag `locked`:
      none once a lock is known, never writeObject, never a synchronized method. */
  function Entered(writeObject: nat, locked: bool, t: Tree): seq<nat>
    decreases t
  {
    match t
    case Method(id, synchronizedModifier, _, children) =>
      if id == writeObject || locked || synchronizedModifier.Some? then []
      else [id] + EnteredIn(writeObject, locked, children)
    case SynchronizedStatement(_) => []
    case Other(children) => EnteredIn(writeObject, locked, children)
  }

  function EnteredIn(writeObject: nat, locked: bool, ts: seq<Tree>): seq<nat>
    decreases ts
  {
    if ts == [] then []
    else
      Entered(writeObject, locked, ts[0]) +
      EnteredIn(writeObject, locked || FoundLock(writeObject, ts[0]), ts[1..])
  }

  /** The visitor never enters writeObject. */
  lemma {:induction false} WriteObjectNeverEntered(writeObject: nat, locked: bool, t: Tree)
    ensures writeObject !in Entered(writeObject, locked, t)
    decreases t, 1
  {
    match t
    case Method(id, synchronizedModifier, _, children) =>
      if !(id == writeObject || locked || synchronizedModifier.Some?) {
        WriteObjectNeverEnteredIn(writeObject, locked, children);
      }
    case SynchronizedStatement(_) =>
    case Other(children) => WriteObjectNeverEnteredIn(writeObject, locked, children);
  }

  lemma {:induction false} WriteObjectNeverEnteredIn(writeObject: nat, locked: bool, ts: seq<Tree>)
    ensures writeObject !in EnteredIn(writeObject, locked, ts)
    decreases ts, 0
  {
    if ts != [] {
      WriteObjectNeverEntered(writeObject, locked, ts[0]);
      WriteObjectNeverEnteredIn(writeObject, locked || FoundLock(writeObject, ts[0]), ts[1..]);
    }
  }

  /** Once a lock is known, no method is entered any more. */
  lemma {:induction false} NothingEnteredOnceLocked(writeObject: nat, t: Tree)
    ensures Entered(writeObject, true, t) == []
    decreases t, 1
  {
    match t
    case Method(_, _, _, _) =>
    case SynchronizedStatement(_) =>
    case Other(children) => NothingEnteredOnceLockedIn(writeObject, children);
  }

  lemma {:induction false} NothingEnteredOnceLockedIn(writeObject: nat, ts: seq<Tree>)
    ensures EnteredIn(writeObject, true, ts) == []
    decreases ts, 0
  {
    if ts != [] {
      NothingEnteredOnceLocked(writeObject, ts[0]);
      NothingEnteredOnceLockedIn(writeObject, ts[1..]);
    }
  }

  /** SynchronizationVisitor: a tree visitor with a one-way lock flag. */
  class SynchronizationVisitor {
    const writeObjectMethodTree: nat
    var moreThanSingleLock: bool
    /** The methods whose children the visitor entered, in order. */
    ghost var entered: seq<nat>

    constructor (writeObjectMethodTree: nat)
      ensures this.writeObjectMethodTree == writeObjectMethodTree
      ensures !moreThanSingleLock && entered == []
    {
      this.writeObjectMethodTree := writeObjectMethodTree;
      moreThanSingleLock := false;
      entered := [];
    }

    method Scan(t: Tree)
      modifies this
      ensures moreThanSingleLock == (old(moreThanSingleLock) || FoundLock(writeObjectMethodTree, t))
      ensures entered == old(entered) + Entered(writeObjectMethodTree, old(moreThanSingleLock), t)
      decreases t, 2
    {
      match t
      case Method(_, _, _, _) => VisitMethod(t);
      case SynchronizedStatement(_) => VisitSynchronizedStatement();
      case Other(children) => ScanChildren(children);
    }

    /** visitSynchronizedStatement: a lock, whatever it contains. */
    method VisitSynchronizedStatement()
      modifies this
      ensures moreThanSingleLock && entered == old(entered)
    {
      moreThanSingleLock := true;
    }

    /** visitMethod: skip writeObject and everything once a lock is known; a synchronized method
        is a lock; any other method is entered. */
    method VisitMethod(t: Tree)
      requires t.Method?
      modifies this
      ensures moreThanSingleLock == (old(moreThanSingleLock) || FoundLock(writeObjectMethodTree, t))
      ensures entered == old(entered) + Entered(writeObjectMethodTree, old(moreThanSingleLock), t)
      decreases t.children, 1
    {
      if t.id == writeObjectMethodTree || moreThanSingleLock {
        return;
      }
      if t.synchronizedModifier.Some? {
        moreThanSingleLock := true;
        return;
      }
      entered := entered + [t.id];
      ScanChildren(t.children);
    }

    method ScanChildren(ts: seq<Tree>)
      modifies this
      ensures moreThanSingleLock == (old(moreThanSingleLock) || FoundLockIn(writeObjectMethodTree, ts))
      ensures entered == old(entered) + EnteredIn(writeObjectMethodTree, old(moreThanSingleLock), ts)
      decreases ts, 0
    {
      for i := 0 to |ts|
        invariant (moreThanSingleLock || FoundLockIn(writeObjectMethodTree, ts[i..])) ==
                  (old(moreThanSingleLock) || FoundLockIn(writeObjectMethodTree, ts))
        invariant old(entered) + EnteredIn(writeObjectMethodTree, old(moreThanSingleLock), ts) ==
                  entered + EnteredIn(writeObjectMethodTree, moreThanSingleLock, ts[i..])
      {
        assert ts[i..][1..] == ts[i + 1..];
        Scan(ts[i]);
      }
      assert ts[|ts|..] == [];
    }
  }

  /** visitNode for a method of a class: a synchronized writeObject is reported on its modifier
      exactly when the scan of the class declaration finds no other lock. */
  method VisitNode(methodTree: Tree, enclosingClass: Tree) returns (issues: seq<Issue>)
    requires methodTree.Method?
    ensures issues ==
      if methodTree.matchesWriteObject && methodTree.synchronizedModifier.Some? &&
         !FoundLock(methodTree.id, enclosingClass)
      then [Issue(methodTree.synchronizedModifier.value, MESSAGE)]
      else []
  {
    issues := [];
    if methodTree.matchesWriteObject && methodTree.synchronizedModifier.Some? {
      var visitor := new SynchronizationVisitor(methodTree.id);
      visitor.Scan(enclosingClass);
      if !visitor.moreThanSingleLock {
        issues := [Issue(methodTree.synchronizedModifier.value, MESSAGE)];
      }
    }
  }

  /** A synchronized block inside writeObject itself does not count as another lock. */
  lemma BlockInsideWriteObjectIgnored(modifier: nat)
    ensures var writeObject := Method(1, Some(modifier), true, [SynchronizedStatement([])]);
            !FoundLock(1, Other([writeObject]))
  {
    var writeObject := Method(1, Some(modifier), true, [SynchronizedStatement([])]);
    assert [writeObject][1..] == [];
    assert !FoundLock(1, writeObject);
    assert !FoundLockIn(1, [writeObject]);
  }

  /** Another synchronized method, or a synchronized block in another method, is a lock. */
  lemma OtherLocksFound(modifier: nat, other: nat)
    requires other != 1
    ensures var writeObject := Method(1, Some(modifier), true, []);
            && FoundLock(1, Other([writeObject, Method(other, Some(modifier + 1), false, [])]))
            && FoundLock(1, Other([writeObject, Method(other, None, false, [SynchronizedStatement([])])]))
  {
    var writeObject := Method(1, Some(modifier), true, []);
    var syncMethod := Method(other, Some(modifier + 1), false, []);
    var blockMethod := Method(other, None, false, [SynchronizedStatement([])]);
    assert [writeObject, syncMethod][1..] == [syncMethod];
    assert [writeObject, blockMethod][1..] == [blockMethod];
    assert FoundLock(1, blockMethod.children[0]);
    assert FoundLockIn(1, blockMethod.children);
    assert FoundLock(1, syncMethod);
    assert FoundLockIn(1, [writeObject, syncMethod][1..]);
    assert FoundLockIn(1, [writeObject, blockMethod][1..]);
  }
}

/**
 Worktree maintenance reservations (desktop/delivery_worktree.go:431-767,
 desktop/worktree_runtime_admission.go:39-75): merge and cleanup take path reservations, runtimes are
 published under an admission that holds the reservation mutex, and a lock-free snapshot mirrors the merge
 table. Every critical section is one step; runs are arbitrary sequences of steps.
 */
module WorktreeReservations {
  import opened Common

  // ---- Canonical paths ----

  /** A canonical workspace key: the components of a cleaned absolute path, or none when resolution failed. */
  datatype Key = NoKey | Root(parts: seq<string>)

  predicate Clean(k: Key) { k.Root? ==> ".." !in k.parts }

  function CommonLength(a: seq<string>, b: seq<string>): (n: nat)
    ensures n <= |a| && n <= |b| && a[..n] == b[..n]
    ensures n < |a| && n < |b| ==> a[n] != b[n]
  {
    if a != [] && b != [] && a[0] == b[0] then 1 + CommonLength(a[1..], b[1..]) else 0
  }

  /** The relative path from base to target: climb out of what is not shared, then descend. */
  function Rel(base: seq<string>, target: seq<string>): seq<string> {
    var n := CommonLength(base, target);
    seq(|base| - n, _ => "..") + target[n..]
  }

  predicate Within(path: Key, root: Key) {
    && path.Root? && root.Root?
    && (path == root || (var rel := Rel(root.parts, path.parts); rel != [] && rel[0] != ".."))
  }

  /** The relative-path test is exactly the prefix relation on components. */
  lemma WithinIsPrefix(path: Key, root: Key)
    requires path.Root? && root.Root? && Clean(path) && Clean(root)
    ensures Within(path, root) <==> root.parts <= path.parts
  {
    var n := CommonLength(root.parts, path.parts);
    if root.parts <= path.parts {
      assert n == |root.parts|;
      if path != root {
        assert path.parts[n] in path.parts;
      }
    }
  }

  predicate Overlap(a: Key, b: Key) { Within(a, b) || Within(b, a) }

  predicate OverlapsAny(k: Key, roots: set<Key>) { exists r :: r in roots && Overlap(k, r) }

  predicate InsideAny(k: Key, roots: set<Key>) { exists r :: r in roots && Within(k, r) }

  /** The query as asked of a published list of roots. */
  predicate OverlapsAnyListed(k: Key, roots: seq<Key>) { exists i :: 0 <= i < |roots| && Overlap(k, roots[i]) }

  function Parent(k: Key): Key { if k.NoKey? || k.parts == [] then k else Root(k.parts[..|k.parts| - 1]) }

  // ---- State and steps ----

  type Id = nat

  /** project runtimes are published through admission; others (global scope) are not. */
  datatype Runtime = Runtime(root: Key, project: bool, visible: bool, active: bool)

  datatype Operation = MergeOp(keys: seq<Key>) | CleanupOp(key: Key)

  datatype Admission = Admission(thread: Id, key: Key)

  datatype State = State(
    cleanup: set<Key>,
    merge: set<Key>,
    snapshot: Option<set<Key>>,
    runtimes: map<Id, Runtime>,
    mutex: Option<Admission>,
    held: map<Id, Operation>)

  datatype Event =
    | ReserveMerge(op: Id, keys: seq<Key>, unresolved: set<Id>, terminals: set<Id>)
    | ReserveCleanup(op: Id, root: Key, unresolved: set<Id>)
    | Release(op: Id)
    | BeginAdmission(thread: Id, key: Key)
    | Publish(thread: Id, id: Id, visible: bool)
    | EndAdmission(thread: Id)
    | PublishGlobal(id: Id, root: Key)
    | Move(id: Id, visible: bool)
    | Close(id: Id)
    | StartTurn(id: Id)
    | EndTurn(id: Id)

  function KeysOf(op: Operation): set<Key> {
    match op
    case MergeOp(keys) => set k | k in keys
    case CleanupOp(key) => {key}
  }

  /** The key a runtime resolves to at this moment. */
  function RootNow(s: State, id: Id, unresolved: set<Id>): Key
    requires id in s.runtimes
  {
    if id in unresolved then NoKey else s.runtimes[id].root
  }

  predicate MergeBlocked(s: State, keys: seq<Key>, unresolved: set<Id>, terminals: set<Id>) {
    exists id :: id in s.runtimes && OverlapsAnyListed(RootNow(s, id, unresolved), keys)
      && (s.runtimes[id].active || id in terminals)
  }

  predicate Referenced(s: State, allocation: Key, unresolved: set<Id>) {
    allocation.NoKey? || exists id :: id in s.runtimes && Within(RootNow(s, id, unresolved), allocation)
  }

  predicate Reserved(s: State, k: Key) { InsideAny(k, s.cleanup) || OverlapsAny(k, s.merge) }

  predicate Conflicts(s: State, k: Key) { OverlapsAny(k, s.cleanup) || OverlapsAny(k, s.merge) }

  predicate MergeAllowed(s: State, op: Id, keys: seq<Key>, unresolved: set<Id>, terminals: set<Id>) {
    && s.mutex.None? && op !in s.held && keys != []
    && (forall k :: k in keys ==> k.Root? && !Conflicts(s, k))
    && !MergeBlocked(s, keys, unresolved, terminals)
  }

  predicate CleanupAllowed(s: State, op: Id, root: Key, unresolved: set<Id>) {
    && s.mutex.None? && op !in s.held && root.Root?
    && !Conflicts(s, Parent(root))
    && !Referenced(s, Parent(root), unresolved)
  }

  function Step(s: State, e: Event): State {
    match e
    case ReserveMerge(op, keys, unresolved, terminals) =>
      if !MergeAllowed(s, op, keys, unresolved, terminals) then s
      else
        var merge := s.merge + set k | k in keys;
        s.(merge := merge, snapshot := Some(merge), held := s.held[op := MergeOp(keys)])
    case ReserveCleanup(op, root, unresolved) =>
      if !CleanupAllowed(s, op, root, unresolved) then s
      else s.(cleanup := s.cleanup + {Parent(root)}, held := s.held[op := CleanupOp(Parent(root))])
    case Release(op) =>
      if s.mutex.Some? || op !in s.held then s
      else if s.held[op].MergeOp? then
        var merge := s.merge - KeysOf(s.held[op]);
        s.(merge := merge, snapshot := Some(merge), held := s.held - {op})
      else s.(cleanup := s.cleanup - KeysOf(s.held[op]), held := s.held - {op})
    case BeginAdmission(thread, key) =>
      if s.mutex.Some? || key.NoKey? || Reserved(s, key) then s else s.(mutex := Some(Admission(thread, key)))
    case Publish(thread, id, visible) =>
      if s.mutex.None? || s.mutex.value.thread != thread || id in s.runtimes then s
      else s.(runtimes := s.runtimes[id := Runtime(s.mutex.value.key, true, visible, false)])
    case EndAdmission(thread) =>
      if s.mutex.Some? && s.mutex.value.thread == thread then s.(mutex := None) else s
    case PublishGlobal(id, root) =>
      if id in s.runtimes then s else s.(runtimes := s.runtimes[id := Runtime(root, false, true, false)])
    case Move(id, visible) =>
      if id !in s.runtimes then s else s.(runtimes := s.runtimes[id := s.runtimes[id].(visible := visible)])
    case Close(id) => s.(runtimes := s.runtimes - {id})
    case StartTurn(id) =>
      if s.mutex.Some? || id !in s.runtimes || (s.runtimes[id].project && Reserved(s, s.runtimes[id].root)) then s
      else s.(runtimes := s.runtimes[id := s.runtimes[id].(active := true)])
    case EndTurn(id) =>
      if id !in s.runtimes then s else s.(runtimes := s.runtimes[id := s.runtimes[id].(active := false)])
  }

  function Run(s: State, events: seq<Event>): State {
    if events == [] then s else Step(Run(s, events[..|events| - 1]), events[|events| - 1])
  }

  const EMPTY := State({}, {}, None, map[], None, map[])

  // ---- The gate itself ----

  class Gate {
    var cleanup: set<Key>
    var merge: set<Key>
    var mergeSnapshot: Option<seq<Key>>
    var runtimes: map<Id, Runtime>
    var mutex: Option<Admission>
    var held: map<Id, Operation>

    ghost function Abs(): State
      reads this
    {
      var snapshot := if mergeSnapshot.None? then None else Some(set k | k in mergeSnapshot.value);
      State(cleanup, merge, snapshot, runtimes, mutex, held)
    }

    constructor ()
      ensures Abs() == EMPTY
    {
      cleanup, merge, mergeSnapshot, runtimes, mutex, held := {}, {}, None, map[], None, map[];
    }

    /** Publishes the merge table as an immutable list. */
    method PublishMergeSnapshot()
      modifies this`mergeSnapshot
      ensures Abs() == old(Abs()).(snapshot := Some(merge))
    {
      var roots: seq<Key> := [];
      var rest := merge;
      while rest != {}
        invariant rest <= merge && (set k | k in roots) == merge - rest
        decreases rest
      {
        var root :| root in rest;
        ghost var listed := set k | k in roots;
        roots := roots + [root];
        assert (set k | k in roots) == listed + {root};
        rest := rest - {root};
      }
      mergeSnapshot := Some(roots);
      assert (set k | k in mergeSnapshot.value) == merge;
    }

    /** The lock-free query. */
    method MergeReservedSnapshot(k: Key) returns (reserved: bool)
      ensures reserved <==> Abs().snapshot.Some? && OverlapsAny(k, Abs().snapshot.value)
    {
      reserved := mergeSnapshot.Some? && OverlapsAnyListed(k, mergeSnapshot.value);
      if mergeSnapshot.Some? {
        ListedIsMembership(k, mergeSnapshot.value);
      }
    }

    /** Reserves the source and worktree roots of a merge; on success the caller owes one Release(op). */
    method ReserveMergeRuntime(op: Id, source: Key, worktree: Key, unresolved: set<Id>, terminals: set<Id>) returns (ok: bool)
      requires op !in held
      modifies this
      ensures
        source.Root? && worktree.Root? ==>
          var e := ReserveMerge(op, MergeKeys(source, worktree), unresolved, terminals);
          && Abs() == Step(old(Abs()), e)
          && ok == MergeAllowed(old(Abs()), op, MergeKeys(source, worktree), unresolved, terminals)
      ensures source.NoKey? || worktree.NoKey? ==> !ok && Abs() == old(Abs())
    {
      if source.NoKey? || worktree.NoKey? || mutex.Some? {
        return false;
      }
      var keys := MergeKeys(source, worktree);
      for i := 0 to |keys|
        invariant forall j :: 0 <= j < i ==> !Conflicts(Abs(), keys[j])
      {
        if OverlapsAny(keys[i], cleanup) || OverlapsAny(keys[i], merge) {
          return false;
        }
      }
      if MergeBlocked(State(cleanup, merge, None, runtimes, mutex, held), keys, unresolved, terminals) {
        return false;
      }
      for i := 0 to |keys|
        invariant merge == old(merge) + set k | k in keys[..i]
        invariant unchanged(this`cleanup, this`mergeSnapshot, this`runtimes, this`mutex, this`held)
      {
        merge := merge + {keys[i]};
      }
      assert keys[..|keys|] == keys;
      held := held[op := MergeOp(keys)];
      PublishMergeSnapshot();
      return true;
    }

    /** Reserves the whole allocation around a worktree, unless any runtime still refers to it. */
    method ReserveWorktreeCleanup(op: Id, root: Key, unresolved: set<Id>) returns (ok: bool)
      requires op !in held
      modifies this
      ensures Abs() == Step(old(Abs()), ReserveCleanup(op, root, unresolved))
      ensures ok == CleanupAllowed(old(Abs()), op, root, unresolved)
    {
      if root.NoKey? || mutex.Some? {
        return false;
      }
      var allocation := Parent(root);
      if OverlapsAny(allocation, cleanup) || OverlapsAny(allocation, merge) {
        return false;
      }
      if Referenced(State(cleanup, merge, None, runtimes, mutex, held), allocation, unresolved) {
        return false;
      }
      cleanup := cleanup + {allocation};
      held := held[op := CleanupOp(allocation)];
      return true;
    }

    /** The release function an operation was given: it deletes by key. */
    method ReleaseOperation(op: Id)
      requires op in held && mutex.None?
      modifies this
      ensures Abs() == Step(old(Abs()), Release(op))
    {
      var operation := held[op];
      held := held - {op};
      match operation
      case MergeOp(keys) =>
        for i := 0 to |keys|
          invariant merge == old(merge) - set k | k in keys[..i]
          invariant unchanged(this`cleanup, this`mergeSnapshot, this`runtimes, this`mutex)
          invariant held == old(held) - {op}
        {
          merge := merge - {keys[i]};
        }
        assert keys[..|keys|] == keys;
        PublishMergeSnapshot();
      case CleanupOp(key) =>
        cleanup := cleanup - {key};
    }

    /** On success the reservation mutex stays held until EndAdmission. */
    method BeginWorkspaceRuntimeAdmission(thread: Id, key: Key) returns (ok: bool)
      requires mutex.None?
      modifies this
      ensures Abs() == Step(old(Abs()), BeginAdmission(thread, key))
      ensures ok <==> key.Root? && !Reserved(old(Abs()), key)
    {
      if key.NoKey? {
        return false;
      }
      if InsideAny(key, cleanup) {
        return false;
      }
      if OverlapsAny(key, merge) {
        return false;
      }
      mutex := Some(Admission(thread, key));
      return true;
    }
  }

  /** Distinct canonical roots of one merge. */
  function MergeKeys(source: Key, worktree: Key): (keys: seq<Key>)
    ensures forall k :: k in keys <==> k == source || k == worktree
    ensures forall i, j :: 0 <= i < j < |keys| ==> keys[i] != keys[j]
  {
    if source == worktree then [source] else [source, worktree]
  }

  lemma ListedIsMembership(k: Key, roots: seq<Key>)
    ensures OverlapsAnyListed(k, roots) <==> OverlapsAny(k, set r | r in roots)
  {
    if OverlapsAny(k, set r | r in roots) {
      var r :| r in roots && Overlap(k, r);
      var i :| 0 <= i < |roots| && roots[i] == r;
      assert Overlap(k, roots[i]);
    }
    if OverlapsAnyListed(k, roots) {
      var i :| 0 <= i < |roots| && Overlap(k, roots[i]);
      assert roots[i] in set r | r in roots;
    }
  }

  // ---- Invariants over every run ----

  function HeldKeys(held: map<Id, Operation>, merges: bool): set<Key> {
    set op, k | op in held && k in KeysOf(held[op]) && held[op].MergeOp? == merges :: k
  }

  /** The tables hold exactly the keys of the operations in progress, and the snapshot mirrors the merge table. */
  ghost predicate Accounted(s: State) {
    && s.merge == HeldKeys(s.held, true)
    && s.cleanup == HeldKeys(s.held, false)
    && s.merge == s.snapshot.GetOr({})
  }

  /** Operations in progress never overlap each other, in either direction, within or across the tables. */
  ghost predicate Disjoint(s: State) {
    forall a, b, k, l :: a in s.held && b in s.held && a != b && k in KeysOf(s.held[a]) && l in KeysOf(s.held[b]) ==> !Overlap(k, l)
  }

  /** No project runtime, visible or detached, lies inside a cleanup allocation. */
  ghost predicate CleanupVacant(s: State) {
    forall id, r :: id in s.runtimes && s.runtimes[id].project && r in s.cleanup ==> !Within(s.runtimes[id].root, r)
  }

  /** No project runtime that overlaps a merge root is running a turn. */
  ghost predicate MergeQuiet(s: State) {
    forall id, r :: id in s.runtimes && s.runtimes[id].project && s.runtimes[id].active && r in s.merge ==> !Overlap(s.runtimes[id].root, r)
  }

  /** An admission in progress has a key that nothing reserves. */
  ghost predicate AdmissionClear(s: State) { s.mutex.Some? ==> !Reserved(s, s.mutex.value.key) }

  /** Keys in the tables resolved when they were reserved. */
  ghost predicate Resolved(s: State) { forall op, k :: op in s.held && k in KeysOf(s.held[op]) ==> k.Root? }

  ghost predicate Inv(s: State) {
    Accounted(s) && Disjoint(s) && Resolved(s) && CleanupVacant(s) && MergeQuiet(s) && AdmissionClear(s)
  }

  /** A reservation that saw every runtime it has to look at: no relevant root failed to resolve just then. */
  ghost predicate SawEveryRuntime(s: State, e: Event) {
    match e
    case ReserveMerge(_, keys, unresolved, _) =>
      forall id :: id in unresolved && id in s.runtimes && s.runtimes[id].project && s.runtimes[id].active
        ==> !OverlapsAnyListed(s.runtimes[id].root, keys)
    case ReserveCleanup(_, root, unresolved) =>
      forall id :: id in unresolved && id in s.runtimes && s.runtimes[id].project ==> !Within(s.runtimes[id].root, Parent(root))
    case _ => true
  }

  predicate Granted(s: State, e: Event) {
    (e.ReserveMerge? && MergeAllowed(s, e.op, e.keys, e.unresolved, e.terminals))
    || (e.ReserveCleanup? && CleanupAllowed(s, e.op, e.root, e.unresolved))
  }

  lemma HeldKeyListed(s: State, op: Id, k: Key)
    requires Accounted(s) && op in s.held && k in KeysOf(s.held[op])
    ensures s.held[op].MergeOp? ==> k in s.merge
    ensures s.held[op].CleanupOp? ==> k in s.cleanup
  {
    assert k in HeldKeys(s.held, s.held[op].MergeOp?);
  }

  lemma HeldKeysGrow(held: map<Id, Operation>, op: Id, operation: Operation, merges: bool)
    requires op !in held
    ensures HeldKeys(held[op := operation], merges)
         == HeldKeys(held, merges) + if operation.MergeOp? == merges then KeysOf(operation) else {}
  {
    var held' := held[op := operation];
    forall k | k in HeldKeys(held, merges)
      ensures k in HeldKeys(held', merges)
    {
      var other :| other in held && k in KeysOf(held[other]) && held[other].MergeOp? == merges;
      assert other in held' && held'[other] == held[other];
    }
    if operation.MergeOp? == merges {
      forall k | k in KeysOf(operation)
        ensures k in HeldKeys(held', merges)
      {
        assert op in held' && held'[op] == operation;
      }
    }
  }

  function OperationOf(e: Event): Operation
    requires e.ReserveMerge? || e.ReserveCleanup?
  {
    if e.ReserveMerge? then MergeOp(e.keys) else CleanupOp(Parent(e.root))
  }

  lemma ReserveIsAccounted(s: State, e: Event)
    requires Accounted(s) && Granted(s, e)
    ensures Accounted(Step(s, e)) && Step(s, e).held == s.held[e.op := OperationOf(e)]
  {
    HeldKeysGrow(s.held, e.op, OperationOf(e), true);
    HeldKeysGrow(s.held, e.op, OperationOf(e), false);
  }

  /** What is granted clears everything held already. */
  lemma GrantedIsClear(s: State, e: Event, op: Id, k: Key, l: Key)
    requires Accounted(s) && Granted(s, e) && op in s.held && k in KeysOf(s.held[op]) && l in KeysOf(OperationOf(e))
    ensures !Overlap(k, l) && !Overlap(l, k)
  {
    HeldKeyListed(s, op, k);
    assert !Conflicts(s, l);
  }

  lemma GrantedIsDisjoint(held: map<Id, Operation>, op: Id, operation: Operation)
    requires forall a, b, k, l :: a in held && b in held && a != b && k in KeysOf(held[a]) && l in KeysOf(held[b]) ==> !Overlap(k, l)
    requires forall a, k, l :: a in held && k in KeysOf(held[a]) && l in KeysOf(operation) ==> !Overlap(k, l) && !Overlap(l, k)
    ensures
      var held' := held[op := operation];
      forall a, b, k, l :: a in held' && b in held' && a != b && k in KeysOf(held'[a]) && l in KeysOf(held'[b]) ==> !Overlap(k, l)
  {
  }

  lemma ReserveIsDisjoint(s: State, e: Event)
    requires Accounted(s) && Disjoint(s) && Granted(s, e)
    ensures Disjoint(Step(s, e))
  {
    ReserveIsAccounted(s, e);
    forall op, k, l | op in s.held && k in KeysOf(s.held[op]) && l in KeysOf(OperationOf(e))
      ensures !Overlap(k, l) && !Overlap(l, k)
    {
      GrantedIsClear(s, e, op, k, l);
    }
    GrantedIsDisjoint(s.held, e.op, OperationOf(e));
  }

  lemma ReserveKeepsTables(s: State, e: Event)
    requires Inv(s) && Granted(s, e)
    ensures Accounted(Step(s, e)) && Disjoint(Step(s, e)) && Resolved(Step(s, e))
  {
    ReserveIsAccounted(s, e);
    ReserveIsDisjoint(s, e);
  }

  /** A granted reservation keeps the invariant exactly when it saw every runtime it has to look at. */
  lemma ReservationKeepsInvariantExactly(s: State, e: Event)
    requires Inv(s) && Granted(s, e)
    ensures Inv(Step(s, e)) <==> SawEveryRuntime(s, e)
  {
    ReserveKeepsTables(s, e);
    var s' := Step(s, e);
    match e
    case ReserveMerge(op, keys, unresolved, terminals) =>
      if SawEveryRuntime(s, e) {
        forall id, r | id in s.runtimes && s.runtimes[id].project && s.runtimes[id].active && r in keys
          ensures !Overlap(s.runtimes[id].root, r)
        {
          var i :| 0 <= i < |keys| && keys[i] == r;
          if id !in unresolved {
            assert !OverlapsAnyListed(RootNow(s, id, unresolved), keys);
          }
        }
      } else {
        var id :| id in unresolved && id in s.runtimes && s.runtimes[id].project && s.runtimes[id].active
          && OverlapsAnyListed(s.runtimes[id].root, keys);
        var i :| 0 <= i < |keys| && Overlap(s.runtimes[id].root, keys[i]);
        assert keys[i] in s'.merge;
      }
    case ReserveCleanup(op, root, unresolved) =>
      assert Parent(root) in s'.cleanup;
      if SawEveryRuntime(s, e) {
        forall id | id in s.runtimes && s.runtimes[id].project
          ensures !Within(s.runtimes[id].root, Parent(root))
        {
          if id !in unresolved {
            assert !Within(RootNow(s, id, unresolved), Parent(root));
          }
        }
      }
  }

  /** A release removes exactly its own operation's keys: every other operation keeps all of its own. */
  lemma ReleaseIsExact(s: State, op: Id)
    requires Inv(s) && op in s.held && s.mutex.None?
    ensures
      var s' := Step(s, Release(op));
      && Accounted(s') && Disjoint(s') && Resolved(s')
      && s'.merge + s'.cleanup == s.merge + s.cleanup - KeysOf(s.held[op])
      && forall other :: other in s.held && other != op ==>
           other in s'.held && KeysOf(s.held[other]) <= s'.merge + s'.cleanup
  {
    var s' := Step(s, Release(op));
    forall other, k | other in s.held && other != op && k in KeysOf(s.held[other])
      ensures k !in KeysOf(s.held[op])
    {
      assert Overlap(k, k);
    }
    forall merges | merges in {true, false}
      ensures HeldKeys(s'.held, merges) == HeldKeys(s.held, merges) - if s.held[op].MergeOp? == merges then KeysOf(s.held[op]) else {}
    {
      forall k | k in HeldKeys(s.held, merges) && !(s.held[op].MergeOp? == merges && k in KeysOf(s.held[op]))
        ensures k in HeldKeys(s'.held, merges)
      {
        var other :| other in s.held && k in KeysOf(s.held[other]) && s.held[other].MergeOp? == merges;
        assert other != op && other in s'.held && s'.held[other] == s.held[other];
      }
      forall k | k in HeldKeys(s'.held, merges)
        ensures k in HeldKeys(s.held, merges) && !(s.held[op].MergeOp? == merges && k in KeysOf(s.held[op]))
      {
        var other :| other in s'.held && k in KeysOf(s'.held[other]) && s'.held[other].MergeOp? == merges;
        assert other != op && s'.held[other] == s.held[other];
      }
    }
    forall other, k | other in s.held && other != op && k in KeysOf(s.held[other])
      ensures k in s'.merge + s'.cleanup
    {
      assert other in s'.held && s'.held[other] == s.held[other];
      HeldKeyListed(s', other, k);
    }
    OtherTableUntouched(s, op);
  }

  lemma OtherTableUntouched(s: State, op: Id)
    requires Inv(s) && op in s.held
    ensures s.held[op].MergeOp? ==> s.cleanup !! KeysOf(s.held[op])
    ensures s.held[op].CleanupOp? ==> s.merge !! KeysOf(s.held[op])
  {
    var merges := s.held[op].MergeOp?;
    forall k | k in HeldKeys(s.held, !merges)
      ensures k !in KeysOf(s.held[op])
    {
      var other :| other in s.held && k in KeysOf(s.held[other]) && s.held[other].MergeOp? == !merges;
      assert Overlap(k, k);
    }
  }

  lemma StepKeepsInvariant(s: State, e: Event)
    requires Inv(s) && SawEveryRuntime(s, e)
    ensures Inv(Step(s, e))
  {
    var s' := Step(s, e);
    if Granted(s, e) {
      ReservationKeepsInvariantExactly(s, e);
    } else if e.Release? && s.mutex.None? && e.op in s.held {
      ReleaseIsExact(s, e.op);
      assert s'.merge <= s.merge && s'.cleanup <= s.cleanup;
    } else {
      assert s'.held == s.held && s'.merge == s.merge && s'.cleanup == s.cleanup && s'.snapshot == s.snapshot;
      assert HeldKeys(s'.held, true) == HeldKeys(s.held, true) && HeldKeys(s'.held, false) == HeldKeys(s.held, false);
    }
  }

  ghost predicate AllSeen(s: State, events: seq<Event>) {
    forall i :: 0 <= i < |events| ==> SawEveryRuntime(Run(s, events[..i]), events[i])
  }

  /** The invariant holds after every run from the empty state, in any interleaving. */
  lemma {:induction false} EveryRunIsSafe(events: seq<Event>)
    requires AllSeen(EMPTY, events)
    ensures Inv(Run(EMPTY, events))
  {
    if events == [] {
      assert HeldKeys(EMPTY.held, true) == {} && HeldKeys(EMPTY.held, false) == {};
    } else {
      var rest := events[..|events| - 1];
      forall i | 0 <= i < |rest|
        ensures SawEveryRuntime(Run(EMPTY, rest[..i]), rest[i])
      {
        assert rest[..i] == events[..i];
      }
      EveryRunIsSafe(rest);
      StepKeepsInvariant(Run(EMPTY, rest), events[|events| - 1]);
    }
  }

  /** Outside the mutex's critical sections the lock-free snapshot answers every query as the table does. */
  lemma SnapshotAnswersAsTable(s: State, k: Key)
    requires Inv(s)
    ensures (s.snapshot.Some? && OverlapsAny(k, s.snapshot.value)) <==> OverlapsAny(k, s.merge)
  {
  }

  /** Cleanup safety, in terms of paths: a project runtime's components never extend a reserved allocation's. */
  lemma NoRuntimeInsideReservedAllocation(events: seq<Event>, op: Id, id: Id)
    requires AllSeen(EMPTY, events)
    ensures
      var s := Run(EMPTY, events);
      op in s.held && s.held[op].CleanupOp? && id in s.runtimes && s.runtimes[id].project
      && s.held[op].key.Root? && Clean(s.held[op].key)
      && s.runtimes[id].root.Root? && Clean(s.runtimes[id].root)
      ==> !(s.held[op].key.parts <= s.runtimes[id].root.parts)
  {
    EveryRunIsSafe(events);
    var s := Run(EMPTY, events);
    if op in s.held && s.held[op].CleanupOp? && id in s.runtimes && s.runtimes[id].project
       && s.held[op].key.Root? && Clean(s.held[op].key) && s.runtimes[id].root.Root? && Clean(s.runtimes[id].root) {
      HeldKeyListed(s, op, s.held[op].key);
      WithinIsPrefix(s.runtimes[id].root, s.held[op].key);
    }
  }

  /**
   From the empty state: a runtime is admitted and published, and while its root does not resolve a cleanup of the
   allocation around it is granted. The run ends with the runtime inside the reserved allocation.
   */
  lemma UnresolvedRuntimeIsReservedOver(thread: Id, id: Id, op: Id, root: Key, visible: bool)
    requires root.Root? && root.parts != [] && Clean(root)
    ensures
      var s := Run(EMPTY, [BeginAdmission(thread, root), Publish(thread, id, visible), EndAdmission(thread), ReserveCleanup(op, root, {id})]);
      && op in s.held && s.held[op] == CleanupOp(Parent(root)) && s.cleanup == {Parent(root)}
      && id in s.runtimes && s.runtimes[id].project && Within(s.runtimes[id].root, Parent(root))
      && !CleanupVacant(s)
  {
    var (a, b, c, d) := (BeginAdmission(thread, root), Publish(thread, id, visible), EndAdmission(thread), ReserveCleanup(op, root, {id}));
    RunFour(EMPTY, a, b, c, d);
    var published := EMPTY.(runtimes := map[id := Runtime(root, true, visible, false)]);
    assert Step(EMPTY, a) == EMPTY.(mutex := Some(Admission(thread, root)));
    assert Step(Step(Step(EMPTY, a), b), c) == published;
    assert !Referenced(published, Parent(root), {id});
    assert CleanupAllowed(published, op, root, {id});
    WithinIsPrefix(root, Parent(root));
    var s := Step(published, d);
    assert s.cleanup == {Parent(root)} && Parent(root) in s.cleanup && id in s.runtimes;
  }

  lemma RunFour(s: State, a: Event, b: Event, c: Event, d: Event)
    ensures Run(s, [a, b, c, d]) == Step(Step(Step(Step(s, a), b), c), d)
  {
    assert [a, b, c, d][..3] == [a, b, c] && [a, b, c][..2] == [a, b] && [a, b][..1] == [a] && [a][..0] == [];
    assert Run(s, [a]) == Step(s, a);
    assert Run(s, [a, b]) == Step(Step(s, a), b);
    assert Run(s, [a, b, c]) == Step(Step(Step(s, a), b), c);
  }

  // ---- What is granted, in terms of paths and operations in progress ----

  /** One path extends the other. */
  predicate Touches(a: Key, b: Key) { a.Root? && b.Root? && (a.parts <= b.parts || b.parts <= a.parts) }

  predicate Extends(a: Key, b: Key) { a.Root? && b.Root? && b.parts <= a.parts }

  /** Canonical paths have no component that climbs. */
  ghost predicate AllClean(s: State) {
    && (forall op, k :: op in s.held && k in KeysOf(s.held[op]) ==> Clean(k))
    && (forall id :: id in s.runtimes ==> Clean(s.runtimes[id].root))
  }

  lemma WithinIsExtending(a: Key, b: Key)
    requires Clean(a) && Clean(b)
    ensures Within(a, b) <==> Extends(a, b)
    ensures Overlap(a, b) <==> Touches(a, b)
  {
    if a.Root? && b.Root? {
      WithinIsPrefix(a, b);
      WithinIsPrefix(b, a);
    }
  }

  lemma HeldKeyHasOperation(s: State, k: Key, merges: bool) returns (op: Id)
    requires k in HeldKeys(s.held, merges)
    ensures op in s.held && k in KeysOf(s.held[op]) && s.held[op].MergeOp? == merges
  {
    op :| op in s.held && k in KeysOf(s.held[op]) && s.held[op].MergeOp? == merges;
  }

  /** No operation of the kind in progress has a root that touches the path. */
  ghost predicate ClearOf(s: State, k: Key, merges: bool) {
    forall op, h :: op in s.held && s.held[op].MergeOp? == merges && h in KeysOf(s.held[op]) ==> !Touches(k, h)
  }

  lemma OverlapsHeldExactly(s: State, k: Key, merges: bool)
    requires AllClean(s) && Clean(k)
    ensures OverlapsAny(k, HeldKeys(s.held, merges)) <==> !ClearOf(s, k, merges)
  {
    if OverlapsAny(k, HeldKeys(s.held, merges)) {
      var h :| h in HeldKeys(s.held, merges) && Overlap(k, h);
      var op := HeldKeyHasOperation(s, h, merges);
      WithinIsExtending(k, h);
    }
    if !ClearOf(s, k, merges) {
      var op, h :| op in s.held && s.held[op].MergeOp? == merges && h in KeysOf(s.held[op]) && Touches(k, h);
      WithinIsExtending(k, h);
      assert h in HeldKeys(s.held, merges);
    }
  }

  /**
   A merge is granted exactly if its roots resolve, none of them touches a root of an operation in progress, and no
   runtime whose root resolves and touches one of them is running a turn or has a terminal.
   */
  lemma MergeGrantedExactly(s: State, op: Id, keys: seq<Key>, unresolved: set<Id>, terminals: set<Id>)
    requires Inv(s) && AllClean(s) && s.mutex.None? && op !in s.held && keys != [] && forall k :: k in keys ==> Clean(k)
    ensures MergeAllowed(s, op, keys, unresolved, terminals) <==>
      && (forall k :: k in keys ==> k.Root? && ClearOf(s, k, true) && ClearOf(s, k, false))
      && (forall id, k :: id in s.runtimes && id !in unresolved && k in keys && Touches(s.runtimes[id].root, k)
            ==> !s.runtimes[id].active && id !in terminals)
  {
    forall k | k in keys ensures !Conflicts(s, k) <==> ClearOf(s, k, true) && ClearOf(s, k, false) {
      OverlapsHeldExactly(s, k, true);
      OverlapsHeldExactly(s, k, false);
    }
    MergeBlockedExactly(s, keys, unresolved, terminals);
  }

  lemma MergeBlockedExactly(s: State, keys: seq<Key>, unresolved: set<Id>, terminals: set<Id>)
    requires AllClean(s) && forall k :: k in keys ==> Clean(k)
    ensures MergeBlocked(s, keys, unresolved, terminals) <==>
      exists id, k :: id in s.runtimes && id !in unresolved && k in keys && Touches(s.runtimes[id].root, k)
        && (s.runtimes[id].active || id in terminals)
  {
    forall id | id in s.runtimes
      ensures OverlapsAnyListed(RootNow(s, id, unresolved), keys) <==>
        id !in unresolved && exists k :: k in keys && Touches(s.runtimes[id].root, k)
    {
      TouchesListed(RootNow(s, id, unresolved), keys);
    }
  }

  lemma TouchesListed(root: Key, keys: seq<Key>)
    requires Clean(root) && forall k :: k in keys ==> Clean(k)
    ensures OverlapsAnyListed(root, keys) <==> exists k :: k in keys && Touches(root, k)
  {
    forall i | 0 <= i < |keys| ensures Overlap(root, keys[i]) <==> Touches(root, keys[i]) {
      WithinIsExtending(root, keys[i]);
    }
    if exists k :: k in keys && Touches(root, k) {
      var k :| k in keys && Touches(root, k);
      var i :| 0 <= i < |keys| && keys[i] == k;
      assert Overlap(root, keys[i]);
    }
  }

  /**
   A cleanup is granted exactly if its root resolves, the directory around it touches no root of an operation in
   progress, and no runtime whose root resolves, visible or not, lies inside that directory. It reserves that directory.
   */
  lemma CleanupGrantedExactly(s: State, op: Id, root: Key, unresolved: set<Id>)
    requires Inv(s) && AllClean(s) && s.mutex.None? && op !in s.held && Clean(root)
    ensures CleanupAllowed(s, op, root, unresolved) <==>
      && root.Root? && ClearOf(s, Parent(root), true) && ClearOf(s, Parent(root), false)
      && (forall id :: id in s.runtimes && id !in unresolved ==> !Extends(s.runtimes[id].root, Parent(root)))
    ensures CleanupAllowed(s, op, root, unresolved) ==> Step(s, ReserveCleanup(op, root, unresolved)).held == s.held[op := CleanupOp(Parent(root))]
    ensures root.Root? && root.parts != [] ==> exists name :: root == Root(Parent(root).parts + [name])
  {
    if root.Root? && root.parts != [] {
      assert root.parts == Parent(root).parts + [root.parts[|root.parts| - 1]];
    }
    OverlapsHeldExactly(s, Parent(root), true);
    OverlapsHeldExactly(s, Parent(root), false);
    forall id | id in s.runtimes
      ensures Within(RootNow(s, id, unresolved), Parent(root)) <==> id !in unresolved && Extends(s.runtimes[id].root, Parent(root))
    {
      WithinIsExtending(RootNow(s, id, unresolved), Parent(root));
    }
  }

  /** The path lies outside every cleanup in progress and touches no merge in progress. */
  ghost predicate Admissible(s: State, key: Key) {
    ClearOf(s, key, true) && forall op, h :: op in s.held && s.held[op].CleanupOp? && h in KeysOf(s.held[op]) ==> !Extends(key, h)
  }

  lemma ReservedExactly(s: State, key: Key)
    requires Inv(s) && AllClean(s) && Clean(key)
    ensures Reserved(s, key) <==> !Admissible(s, key)
  {
    OverlapsHeldExactly(s, key, true);
    forall op, h | op in s.held && s.held[op].CleanupOp? && h in KeysOf(s.held[op])
      ensures h in s.cleanup && (Within(key, h) <==> Extends(key, h))
    {
      WithinIsExtending(key, h);
      HeldKeyListed(s, op, h);
    }
    if InsideAny(key, s.cleanup) {
      var h :| h in s.cleanup && Within(key, h);
      var op := HeldKeyHasOperation(s, h, false);
    }
  }

  /** A runtime is admitted, or a turn of a project runtime started, exactly while nothing in progress reserves its root. */
  lemma AdmittedExactly(s: State, thread: Id, key: Key, id: Id)
    requires Inv(s) && AllClean(s) && Clean(key) && s.mutex.None?
    ensures Step(s, BeginAdmission(thread, key)) == if key.Root? && Admissible(s, key) then s.(mutex := Some(Admission(thread, key))) else s
    ensures id in s.runtimes ==>
      Step(s, StartTurn(id)).runtimes ==
        if s.runtimes[id].project && !Admissible(s, s.runtimes[id].root) then s.runtimes
        else s.runtimes[id := s.runtimes[id].(active := true)]
  {
    ReservedExactly(s, key);
    if id in s.runtimes {
      ReservedExactly(s, s.runtimes[id].root);
    }
  }

  /** A runtime appears exactly by publication, under the admitted root if it is a project's, and goes by being closed. */
  lemma RuntimesExactly(s: State, e: Event, id: Id)
    ensures
      var admitted := e.Publish? && e.id == id && s.mutex.Some? && s.mutex.value.thread == e.thread;
      var s' := Step(s, e);
      && (id in s'.runtimes <==> (id in s.runtimes && e != Close(id)) || admitted || (e.PublishGlobal? && e.id == id))
      && (id in s'.runtimes && id !in s.runtimes ==>
            s'.runtimes[id] == if admitted then Runtime(s.mutex.value.key, true, e.visible, false) else Runtime(e.root, false, true, false))
      && (id in s'.runtimes && id in s.runtimes ==>
            && s'.runtimes[id].root == s.runtimes[id].root && s'.runtimes[id].project == s.runtimes[id].project
            && s'.runtimes[id].visible == (if e.Move? && e.id == id then e.visible else s.runtimes[id].visible)
            && (e == EndTurn(id) ==> !s'.runtimes[id].active)
            && (e != EndTurn(id) && e != StartTurn(id) ==> s'.runtimes[id].active == s.runtimes[id].active))
  {
  }
}

/**
 Moving a tab to another session (desktop/app.go:3705-4092): a candidate controller and lease are built while the
 source stays live, then committed or rolled back; a source with work in progress moves to the detached table,
 and a detached target is reattached instead of rebuilt. Controllers and leases are resources with a count of how
 often they were closed or released. Tab structs are named by references, as the two tables of the source hold
 pointers to them.
 */
module SessionRebind {
  import opened Common

  type Key = string
  type Ref = nat
  type Id = nat

  datatype Tab = Tab(key: Key, ctrl: Option<Id>, lease: Option<Id>, sink: Option<Id>, runtime: Option<Id>,
                     claimed: bool, readOnly: bool, ready: bool)

  datatype Resource = Resource(key: Key, ended: nat)

  datatype Runtime = Runtime(key: Key, owner: Ref, epoch: nat, ready: bool)

  datatype Transition = Transition(tab: Ref, source: Option<Id>, active: bool, runtime: Id, oldKey: Key, target: Key, epoch: nat)

  /** The one rebind in progress: its candidate so far, or the idle source it still has to tear down. */
  datatype Transaction =
    | Quiet
    | Open(transition: Transition, ctrl: Option<Id>, sink: Option<Id>, lease: Option<Id>)
    | Retiring(ctrl: Option<Id>, lease: Option<Id>)

  datatype State = State(tabs: map<Ref, Tab>, visible: set<Ref>, detached: map<Key, Ref>,
                         runtimes: map<Id, Runtime>, byKey: map<Key, Id>,
                         ctrls: map<Id, Resource>, leases: map<Id, Resource>, txn: Transaction, next: nat)

  const INITIAL := State(map[], {}, map[], map[], map[], map[], map[], Quiet, 0)

  // ---- Reading a tab ----

  function KeyOf(res: map<Id, Resource>, id: Option<Id>): Key {
    if id.Some? && id.value in res then res[id.value].key else ""
  }

  /** The lease-backed path first, then the controller's, then the tab's own. */
  function CurrentKey(s: State, t: Tab): Key {
    if t.key != "" && t.key == KeyOf(s.leases, t.lease) then t.key
    else if KeyOf(s.ctrls, t.ctrl) != "" then KeyOf(s.ctrls, t.ctrl)
    else t.key
  }

  /** The path compared with the target: the controller's first. */
  function ShownKey(s: State, t: Tab): Key {
    if KeyOf(s.ctrls, t.ctrl) != "" then KeyOf(s.ctrls, t.ctrl) else t.key
  }

  predicate OwnsRuntime(s: State, r: Ref)
    requires r in s.tabs
  {
    s.tabs[r].runtime.Some? && s.tabs[r].runtime.value in s.runtimes && s.runtimes[s.tabs[r].runtime.value].owner == r
  }

  predicate TakenByOther(s: State, r: Ref, key: Key) {
    key in s.byKey && s.byKey[key] in s.runtimes && s.runtimes[s.byKey[key]].owner != r
  }

  predicate LeaseFree(s: State, key: Key) {
    forall l :: l in s.leases && s.leases[l].key == key ==> s.leases[l].ended > 0
  }

  // ---- The registry of runtimes ----

  function Unmap(byKey: map<Key, Id>, key: Key, rt: Id): map<Key, Id> {
    if key in byKey && byKey[key] == rt then byKey - {key} else byKey
  }

  function UnmapAll(byKey: map<Key, Id>, rt: Id): map<Key, Id> {
    map k | k in byKey && byKey[k] != rt :: byKey[k]
  }

  function NewRuntime(s: State, r: Ref, key: Key): State
    requires r in s.tabs
  {
    var own := if TakenByOther(s, r, key) then "" else key;
    var rt := Runtime(own, r, s.next, s.tabs[r].ctrl.Some? && s.tabs[r].ready);
    s.(runtimes := s.runtimes[s.next := rt],
       byKey := if own != "" then s.byKey[own := s.next] else s.byKey,
       tabs := s.tabs[r := s.tabs[r].(runtime := Some(s.next))],
       next := s.next + 1)
  }

  /** Moves the tab's runtime to a key nobody else owns; a runtime bound elsewhere gives up its old key. */
  function Bind(s: State, r: Ref, key: Key): State
    requires r in s.tabs
  {
    if key == "" || TakenByOther(s, r, key) then s
    else if !OwnsRuntime(s, r) then NewRuntime(s, r, key)
    else
      var rt := s.tabs[r].runtime.value;
      var freed := if s.runtimes[rt].key != key then Unmap(s.byKey, s.runtimes[rt].key, rt) else s.byKey;
      s.(runtimes := s.runtimes[rt := s.runtimes[rt].(key := key)], byKey := freed[key := rt])
  }

  function AdvanceEpoch(s: State, r: Ref): State
    requires r in s.tabs && OwnsRuntime(s, r)
  {
    var rt := s.tabs[r].runtime.value;
    s.(runtimes := s.runtimes[rt := s.runtimes[rt].(epoch := s.next, ready := true)], next := s.next + 1)
  }

  function ReleaseRuntime(s: State, r: Ref): State
    requires r in s.tabs
  {
    if !OwnsRuntime(s, r) then s
    else
      var rt := s.tabs[r].runtime.value;
      s.(runtimes := s.runtimes - {rt}, byKey := UnmapAll(s.byKey, rt))
  }

  // ---- Ending resources ----

  function End(res: map<Id, Resource>, id: Option<Id>): map<Id, Resource> {
    if id.Some? && id.value in res then res[id.value := res[id.value].(ended := res[id.value].ended + 1)] else res
  }

  // ---- The transaction ----

  /** Reservation of the target: an alias of the tab's runtime keeps any other tab from claiming it. */
  function Reserve(s: State, r: Ref, target: Key, active: bool): State
    requires r in s.tabs
  {
    if TakenByOther(s, r, target) then s
    else
      var s1 := if OwnsRuntime(s, r) then s else NewRuntime(s, r, CurrentKey(s, s.tabs[r]));
      var t := s1.tabs[r];
      var rt := t.runtime.value;
      s1.(byKey := s1.byKey[target := rt],
          txn := Open(Transition(r, t.ctrl, active && t.ctrl.Some?, rt, s1.runtimes[rt].key, target, s1.runtimes[rt].epoch),
                      None, None, None))
  }

  /** Releases the candidate's lease, closes its controller and takes the alias back, in that order. */
  function Abort(s: State): State
    requires s.txn.Open?
  {
    var tr := s.txn.transition;
    s.(leases := End(s.leases, s.txn.lease), ctrls := End(s.ctrls, s.txn.ctrl),
       byKey := if tr.target != tr.oldKey then Unmap(s.byKey, tr.target, tr.runtime) else s.byKey,
       txn := Quiet)
  }

  function BuildCandidate(s: State): State
    requires s.txn.Open?
  {
    s.(ctrls := s.ctrls[s.next := Resource(s.txn.transition.target, 0)],
       txn := Open(s.txn.transition, Some(s.next), Some(s.next + 1), s.txn.lease), next := s.next + 2)
  }

  function AcquireLease(s: State): State
    requires s.txn.Open?
  {
    if !LeaseFree(s, s.txn.transition.target) then Abort(s)
    else
      s.(leases := s.leases[s.next := Resource(s.txn.transition.target, 0)],
         txn := Open(s.txn.transition, s.txn.ctrl, s.txn.sink, Some(s.next)), next := s.next + 1)
  }

  predicate TransitionValid(s: State, tr: Transition) {
    && tr.runtime in s.runtimes
    && s.runtimes[tr.runtime].owner == tr.tab
    && s.runtimes[tr.runtime].epoch == tr.epoch
    && (s.runtimes[tr.runtime].key == tr.oldKey || s.runtimes[tr.runtime].key == tr.target)
    && tr.target in s.byKey && s.byKey[tr.target] == tr.runtime
  }

  predicate Publishable(s: State)
    requires s.txn.Open?
  {
    var tr := s.txn.transition;
    && tr.tab in s.tabs && tr.tab in s.visible
    && s.tabs[tr.tab].ctrl == tr.source
    && OwnsRuntime(s, tr.tab) && s.tabs[tr.tab].runtime == Some(tr.runtime)
    && TransitionValid(s, tr)
  }

  /** Moves a visible tab's runtime to a fresh struct in the detached table; the tab keeps only stale fields. */
  function Detach(s: State, r: Ref): State
    requires r in s.tabs
  {
    var t := s.tabs[r];
    var key := CurrentKey(s, t);
    var clone := t.(key := key);
    var s1 := s.(tabs := s.tabs[s.next := clone][r := t.(lease := None)], detached := s.detached[key := s.next], next := s.next + 1);
    if !OwnsRuntime(s, r) then s1
    else
      var rt := t.runtime.value;
      s1.(tabs := s1.tabs[r := s1.tabs[r].(runtime := None)],
          runtimes := s.runtimes[rt := s.runtimes[rt].(owner := s.next)])
  }

  function Install(t: Tab, txn: Transaction, target: Key): Tab
    requires txn.Open?
  {
    t.(key := target, ctrl := txn.ctrl, lease := txn.lease, sink := txn.sink, claimed := true, ready := true)
  }

  /** The source is idle: it leaves the tab and waits for its teardown. */
  function CommitOver(s: State): State
    requires s.txn.Open? && Publishable(s)
  {
    var tr := s.txn.transition;
    var t := s.tabs[tr.tab];
    var freed := if tr.oldKey != tr.target then Unmap(s.byKey, tr.oldKey, tr.runtime) else s.byKey;
    var s1 := s.(byKey := freed[tr.target := tr.runtime],
                 runtimes := s.runtimes[tr.runtime := s.runtimes[tr.runtime].(key := tr.target)],
                 tabs := s.tabs[tr.tab := Install(t, s.txn, tr.target)]);
    AdvanceEpoch(s1, tr.tab).(txn := Retiring(t.ctrl, t.lease))
  }

  /** The source still works: it moves to the detached table with everything it holds. */
  function CommitBeside(s: State): State
    requires s.txn.Open? && Publishable(s)
  {
    var tr := s.txn.transition;
    var s1 := Detach(s, tr.tab);
    var s2 := s1.(byKey := Unmap(s1.byKey, tr.target, tr.runtime),
                  tabs := s1.tabs[tr.tab := Install(s1.tabs[tr.tab], s.txn, tr.target)]);
    AdvanceEpoch(NewRuntime(s2, tr.tab, tr.target), tr.tab).(txn := Retiring(None, None))
  }

  function Commit(s: State): State
    requires s.txn.Open?
  {
    var tr := s.txn.transition;
    if !Publishable(s) then Abort(s)
    else if !tr.active then CommitOver(s)
    else if CurrentKey(s, s.tabs[tr.tab]) == "" then Abort(s)
    else CommitBeside(s)
  }

  function Teardown(s: State): State
    requires s.txn.Retiring?
  {
    s.(ctrls := End(s.ctrls, s.txn.ctrl), leases := End(s.leases, s.txn.lease), txn := Quiet)
  }

  predicate Reattachable(s: State, target: Key) {
    && target in s.detached && s.detached[target] in s.tabs
    && Attachable(s, s.detached[target])
  }

  /** The struct has a controller whose runtime is ready. */
  predicate Attachable(s: State, d: Ref)
    requires d in s.tabs
  {
    && s.tabs[d].ctrl.Some?
    && (if OwnsRuntime(s, d) then s.runtimes[s.tabs[d].runtime.value].ready else s.tabs[d].ready)
  }

  /** The runtime record the tab goes on with: the detached one if it has any, else the tab's own, else a new one. */
  function Handover(s: State, r: Ref, d: Ref, target: Key): (State, Id)
    requires r in s.tabs && d in s.tabs
  {
    if OwnsRuntime(s, d) then
      (if OwnsRuntime(s, r) && s.tabs[r].runtime != s.tabs[d].runtime then ReleaseRuntime(s, r) else s, s.tabs[d].runtime.value)
    else if OwnsRuntime(s, r) then (s, s.tabs[r].runtime.value)
    else (NewRuntime(s, d, target), s.next)
  }

  function TakeOver(s: State, r: Ref, d: Ref, target: Key, rt: Id): State
    requires r in s.tabs && d in s.tabs
  {
    var from := s.tabs[d];
    var before := if rt in s.runtimes then s.runtimes[rt] else Runtime(target, r, 0, false);
    var freed := if before.key != target then Unmap(s.byKey, before.key, rt) else s.byKey;
    s.(tabs := (s.tabs - {d})[r := s.tabs[r].(key := target, ctrl := from.ctrl, lease := from.lease, sink := from.sink,
                                              runtime := Some(rt), claimed := true, ready := from.ready && from.ctrl.Some?)],
       detached := s.detached - {target},
       runtimes := s.runtimes[rt := Runtime(target, r, before.epoch, before.ready || (from.ctrl.Some? && from.ready))],
       byKey := freed[target := rt])
  }

  /** Gives everything the struct d holds to the tab, which goes on under target. */
  function Adopt(s: State, r: Ref, d: Ref, target: Key): State
    requires r in s.tabs && d in s.tabs
  {
    var (s1, rt) := Handover(s, r, d, target);
    TakeOver(s1, r, d, target, rt)
  }

  /** Gives the detached runtime of target to the tab, after the tab's own runtime has been moved aside. */
  function Apply(s: State, r: Ref, target: Key): State
    requires r in s.tabs && target in s.detached && s.detached[target] in s.tabs
  {
    Adopt(s, r, s.detached[target], target)
  }

  /** The source's key is never the target here (KeysAgree), so moving it aside cannot replace the entry of target. */
  function Reattach(s: State, r: Ref, target: Key, active: bool): State
    requires r in s.tabs
  {
    var t := s.tabs[r];
    if !Reattachable(s, target) then s
    else if !(active && t.ctrl.Some?) then Apply(s, r, target).(txn := Retiring(t.ctrl, t.lease))
    else if CurrentKey(s, t) == "" || CurrentKey(s, t) == target then s
    else Apply(Detach(s, r), r, target).(txn := Retiring(None, None))
  }

  /** A build in progress on the tab loses its claim to publish. */
  function Unclaim(s: State, r: Ref): State
    requires r in s.tabs
  {
    s.(tabs := s.tabs[r := s.tabs[r].(claimed := s.tabs[r].claimed && s.tabs[r].ctrl.Some?)])
  }

  predicate HasDetached(s: State, target: Key) {
    target in s.detached && s.detached[target] in s.tabs && s.tabs[s.detached[target]].ctrl.Some?
  }

  /** First part of a rebind, up to the reservation or the reattachment. saved is false when saving the source failed. */
  function Start(s: State, r: Ref, target: Key, active: bool, saved: bool): State {
    if !s.txn.Quiet? || r !in s.tabs || r !in s.visible || target == "" || ShownKey(s, s.tabs[r]) == target then s
    else if s.tabs[r].ctrl.Some? && !saved then Unclaim(s, r)
    else if HasDetached(s, target) then Reattach(Unclaim(s, r), r, target, active)
    else Reserve(Unclaim(s, r), r, target, active)
  }

  /** How the fallible parts of one rebind turn out. */
  datatype World = World(active: bool, saved: bool, built: bool, restored: bool, leased: bool, hook: bool, bound: bool)

  /** A whole rebind with nothing in between; the flag says whether it returned without an error. */
  function Rebind(s: State, r: Ref, target: Key, w: World): (State, bool) {
    if r in s.tabs && r in s.visible && target != "" && ShownKey(s, s.tabs[r]) == target then (s, true)
    else
      var s1 := Start(s, r, target, w.active, w.saved);
      match s1.txn
      case Quiet => (s1, false)
      case Retiring(_, _) => (Teardown(s1), true)
      case Open(_, _, _, _) => Finish(s1, w)
  }

  /** The part after the reservation. */
  function Finish(s1: State, w: World): (State, bool)
    requires s1.txn.Open?
  {
    if !w.built then (Abort(s1), false)
    else
      var s2 := BuildCandidate(s1);
      if !w.restored || !w.leased then (Abort(s2), false)
      else
        var s3 := AcquireLease(s2);
        if !s3.txn.Open? then (s3, false)
        else if !w.hook || !w.bound then (Abort(s3), false)
        else
          var s4 := Commit(s3);
          if !s4.txn.Retiring? then (s4, false) else (Teardown(s4), true)
  }

  // ---- What else changes tabs between the steps of a rebind ----

  function OpenTab(s: State, key: Key, readOnly: bool): State {
    s.(tabs := s.tabs[s.next := Tab(key, None, None, Some(s.next + 1), None, false, readOnly, false)],
       visible := s.visible + {s.next}, next := s.next + 2)
  }

  function Claimed(s: State, r: Ref): State
    requires r in s.tabs
  {
    s.(tabs := s.tabs[r := s.tabs[r].(claimed := true)])
  }

  function Leased(s: State, r: Ref): State
    requires r in s.tabs
  {
    s.(tabs := s.tabs[r := s.tabs[r].(claimed := true, lease := Some(s.next))],
       leases := s.leases[s.next := Resource(s.tabs[r].key, 0)], next := s.next + 1)
  }

  /** A startup claims its session in the registry, then takes the lease unless the tab only reads. */
  function Claim(s: State, r: Ref): State {
    if r !in s.tabs || r !in s.visible || s.tabs[r].ctrl.Some? || s.tabs[r].key == "" || TakenByOther(s, r, s.tabs[r].key) then s
    else FinishClaim(Bind(s, r, s.tabs[r].key), r)
  }

  function FinishClaim(s: State, r: Ref): State
    requires r in s.tabs
  {
    if s.tabs[r].readOnly || s.tabs[r].lease.Some? then Claimed(s, r)
    else if !LeaseFree(s, s.tabs[r].key) then s
    else Leased(s, r)
  }

  /**
   Where a startup finds its session running already: in the detached table, else with the owner the registry names,
   else in a visible tab that shows it, of which q is the one found.
   */
  function AttachSource(s: State, r: Ref, q: Ref): Option<Ref>
    requires r in s.tabs
  {
    var key := s.tabs[r].key;
    if key in s.detached && s.detached[key] in s.tabs then Some(s.detached[key])
    else if TakenByOther(s, r, key) && s.runtimes[s.byKey[key]].owner in s.tabs then Some(s.runtimes[s.byKey[key]].owner)
    else if q in s.visible && q in s.tabs && q != r && CurrentKey(s, s.tabs[q]) == key then Some(q)
    else None
  }

  /** The tab takes over what d holds; d leaves its table, and a lease the tab had is released. */
  function AttachTo(s: State, r: Ref, d: Ref): State
    requires r in s.tabs && d in s.tabs
  {
    Adopt(s, r, d, s.tabs[r].key).(visible := s.visible - {d}, leases := End(s.leases, s.tabs[r].lease))
  }

  /** A startup attaches the running session instead of building, unless its owner is still starting. */
  function Attach(s: State, r: Ref, q: Ref): State {
    if r !in s.tabs || r !in s.visible || s.tabs[r].ctrl.Some? || s.tabs[r].key == "" then s
    else if TakenByOther(s, r, s.tabs[r].key) && !s.runtimes[s.byKey[s.tabs[r].key]].ready then s
    else
      var source := AttachSource(s, r, q);
      if source.None? || source.value == r || !Attachable(s, source.value) then s else AttachTo(s, r, source.value)
  }

  /** A startup whose build was not superseded publishes its controller. */
  function Publish(s: State, r: Ref): State {
    if r !in s.tabs || r !in s.visible || s.tabs[r].ctrl.Some? || !s.tabs[r].claimed then s
    else
      var s1 := s.(tabs := s.tabs[r := s.tabs[r].(ctrl := Some(s.next), ready := true)],
                   ctrls := s.ctrls[s.next := Resource(s.tabs[r].key, 0)], next := s.next + 1);
      var s2 := Bind(s1, r, CurrentKey(s1, s1.tabs[r]));
      if OwnsRuntime(s2, r) then AdvanceEpoch(s2, r) else s2
  }

  /** Closing a visible tab: a working runtime goes to the detached table, any other is torn down. */
  function Close(s: State, r: Ref, active: bool): State {
    if r !in s.tabs || r !in s.visible then s
    else
      var t := s.tabs[r];
      var key := CurrentKey(s, t);
      if active && t.ctrl.Some? && key != "" then
        var s1 := Bind(s, r, key);
        s1.(tabs := s1.tabs[r := s1.tabs[r].(key := key)], visible := s.visible - {r}, detached := s.detached[key := r])
      else
        var s1 := ReleaseRuntime(s, r);
        s1.(tabs := s.tabs - {r}, visible := s.visible - {r}, ctrls := End(s.ctrls, t.ctrl), leases := End(s.leases, t.lease))
  }

  /** Stopping a detached runtime for good. */
  function Discard(s: State, key: Key): State {
    if key !in s.detached || s.detached[key] !in s.tabs then s
    else
      var r := s.detached[key];
      var s1 := ReleaseRuntime(s, r);
      s1.(tabs := s.tabs - {r}, detached := s.detached - {key},
          ctrls := End(s.ctrls, s.tabs[r].ctrl), leases := End(s.leases, s.tabs[r].lease))
  }

  // ---- Runs ----

  datatype Event =
    | EStart(r: Ref, target: Key, active: bool, saved: bool)
    | EBuild
    | ELease
    | EFail
    | ECommit
    | ETeardown
    | EOpenTab(key: Key, readOnly: bool)
    | EClaim(r: Ref)
    | EAttach(r: Ref, q: Ref)
    | EPublish(r: Ref)
    | EClose(r: Ref, active: bool)
    | EDiscard(key: Key)

  function Step(s: State, e: Event): State {
    match e
    case EStart(r, target, active, saved) => Start(s, r, target, active, saved)
    case EBuild => if s.txn.Open? && s.txn.ctrl.None? then BuildCandidate(s) else s
    case ELease => if s.txn.Open? && s.txn.ctrl.Some? && s.txn.lease.None? then AcquireLease(s) else s
    case EFail => if s.txn.Open? then Abort(s) else s
    case ECommit => if s.txn.Open? && s.txn.ctrl.Some? && s.txn.lease.Some? then Commit(s) else s
    case ETeardown => if s.txn.Retiring? then Teardown(s) else s
    case EOpenTab(key, readOnly) => OpenTab(s, key, readOnly)
    case EClaim(r) => Claim(s, r)
    case EAttach(r, q) => Attach(s, r, q)
    case EPublish(r) => Publish(s, r)
    case EClose(r, active) => Close(s, r, active)
    case EDiscard(key) => Discard(s, key)
  }

  function Run(s: State, events: seq<Event>): State
    decreases events
  {
    if events == [] then s else Run(Step(s, events[0]), events[1..])
  }

  // ---- What every run keeps ----

  /** The two tables share no struct; the detached one files each working runtime under its session. */
  ghost predicate Tables(s: State) {
    && (forall r :: r in s.tabs <==> r in s.visible || r in s.detached.Values)
    && (forall k :: k in s.detached ==>
          s.detached[k] !in s.visible && s.detached[k] in s.tabs && s.tabs[s.detached[k]].key == k && s.tabs[s.detached[k]].ctrl.Some?)
  }

  function Opt(id: Option<Id>): set<Id> { if id.Some? then {id.value} else {} }

  function CtrlOf(t: Tab): Option<Id> { t.ctrl }

  function LeaseOf(t: Tab): Option<Id> { t.lease }

  function LooseCtrls(txn: Transaction): set<Id> { if txn.Quiet? then {} else Opt(txn.ctrl) }

  function LooseLeases(txn: Transaction): set<Id> { if txn.Quiet? then {} else Opt(txn.lease) }

  /** Every live resource is in exactly one place: one tab under its own session, or loose in the transaction. */
  ghost predicate Owned(tabs: map<Ref, Tab>, get: Tab -> Option<Id>, res: map<Id, Resource>, loose: set<Id>) {
    && (forall r :: r in tabs && get(tabs[r]).Some? ==>
          get(tabs[r]).value in res && res[get(tabs[r]).value] == Resource(tabs[r].key, 0) && get(tabs[r]).value !in loose)
    && (forall q, r :: q in tabs && r in tabs && q != r && get(tabs[q]).Some? ==> get(tabs[q]) != get(tabs[r]))
    && (forall c :: c in loose ==> c in res && res[c].ended == 0)
    && (forall c :: c in res ==> res[c].ended <= 1)
    && (forall c :: c in res && res[c].ended == 0 && c !in loose ==> exists r :: r in tabs && get(tabs[r]) == Some(c))
  }

  /** A session is claimed by the tab its registry entry names, and every controller belongs to a claimed tab. */
  ghost predicate Mapped(s: State) {
    forall r :: r in s.tabs && (s.tabs[r].claimed || s.tabs[r].ctrl.Some?) ==>
      s.tabs[r].key != "" && OwnsRuntime(s, r) && s.tabs[r].key in s.byKey && s.byKey[s.tabs[r].key] == s.tabs[r].runtime.value
  }

  ghost predicate OneLeaseEach(leases: map<Id, Resource>) {
    forall l, m :: l in leases && m in leases && l != m && leases[l].ended == 0 && leases[m].ended == 0 ==>
      leases[l].key != leases[m].key
  }

  ghost predicate Fresh(s: State) {
    && (forall r :: r in s.tabs ==> r < s.next)
    && (forall c :: c in s.ctrls ==> c < s.next)
    && (forall l :: l in s.leases ==> l < s.next)
    && (forall rt :: rt in s.runtimes ==> rt < s.next && s.runtimes[rt].owner < s.next)
  }

  ghost predicate Candidate(s: State) {
    s.txn.Open? ==>
      var tr := s.txn.transition;
      && tr.target != "" && tr.runtime < s.next && tr.tab < s.next
      && (tr.runtime in s.runtimes && s.runtimes[tr.runtime].owner in s.tabs ==> s.tabs[s.runtimes[tr.runtime].owner].key != tr.target)
      && (tr.tab in s.tabs ==> s.tabs[tr.tab].key != tr.target)
      && (tr.active ==> tr.source.Some?)
      && (s.txn.ctrl.Some? ==> s.txn.ctrl.value in s.ctrls && s.ctrls[s.txn.ctrl.value].key == tr.target)
      && (s.txn.lease.Some? ==> s.txn.lease.value in s.leases && s.leases[s.txn.lease.value].key == tr.target)
  }

  ghost predicate CtrlsOwned(s: State) { Owned(s.tabs, CtrlOf, s.ctrls, LooseCtrls(s.txn)) }

  ghost predicate LeasesOwned(s: State) { Owned(s.tabs, LeaseOf, s.leases, LooseLeases(s.txn)) }

  ghost predicate Holdings(s: State) { CtrlsOwned(s) && LeasesOwned(s) && OneLeaseEach(s.leases) }

  ghost predicate Inv(s: State) {
    Tables(s) && Holdings(s) && Mapped(s) && Fresh(s) && Candidate(s)
  }

  /** The safety claim: no two places hold controllers for one session, nor live leases for one session. */
  ghost predicate Exclusive(s: State) {
    && (forall q, r :: q in s.tabs && r in s.tabs && q != r && s.tabs[q].ctrl.Some? && s.tabs[r].ctrl.Some? ==>
          KeyOf(s.ctrls, s.tabs[q].ctrl) != KeyOf(s.ctrls, s.tabs[r].ctrl))
    && (forall q, r :: q in s.tabs && r in s.tabs && q != r && s.tabs[q].lease.Some? && s.tabs[r].lease.Some? ==>
          KeyOf(s.leases, s.tabs[q].lease) != KeyOf(s.leases, s.tabs[r].lease))
  }

  lemma InvIsExclusive(s: State)
    requires Inv(s)
    ensures Exclusive(s)
  {
  }

  lemma KeysAgree(s: State, r: Ref)
    requires Inv(s) && r in s.tabs
    ensures CurrentKey(s, s.tabs[r]) == s.tabs[r].key == ShownKey(s, s.tabs[r])
  {
  }

  // ---- Moving resources ----

  lemma Move(tabs: map<Ref, Tab>, get: Tab -> Option<Id>, res: map<Id, Resource>, loose: set<Id>, r: Ref, t: Tab, rest: set<Id>)
    requires Owned(tabs, get, res, loose)
    requires get(t).Some? ==> get(t).value in res && res[get(t).value].key == t.key
    requires get(t).Some? ==> get(t).value in loose || (r in tabs && get(t) == get(tabs[r]))
    requires rest == (if r in tabs then loose + Opt(get(tabs[r])) else loose) - Opt(get(t))
    ensures Owned(tabs[r := t], get, res, rest)
  {
    var tabs' := tabs[r := t];
    forall c | c in res && res[c].ended == 0 && c !in rest
      ensures exists q :: q in tabs' && get(tabs'[q]) == Some(c)
    {
      if Some(c) == get(t) {
        assert get(tabs'[r]) == Some(c);
      } else {
        var q :| q in tabs && get(tabs[q]) == Some(c);
        assert get(tabs'[q]) == Some(c);
      }
    }
  }

  lemma Drop(tabs: map<Ref, Tab>, get: Tab -> Option<Id>, res: map<Id, Resource>, loose: set<Id>, r: Ref, rest: set<Id>)
    requires Owned(tabs, get, res, loose) && r in tabs
    requires rest == loose + Opt(get(tabs[r]))
    ensures Owned(tabs - {r}, get, res, rest)
  {
    var tabs' := tabs - {r};
    forall c | c in res && res[c].ended == 0 && c !in rest
      ensures exists q :: q in tabs' && get(tabs'[q]) == Some(c)
    {
      var q :| q in tabs && get(tabs[q]) == Some(c);
      assert q in tabs' && get(tabs'[q]) == Some(c);
    }
  }

  lemma Ended(tabs: map<Ref, Tab>, get: Tab -> Option<Id>, res: map<Id, Resource>, loose: set<Id>, id: Option<Id>)
    requires Owned(tabs, get, res, loose) && Opt(id) <= loose
    ensures Owned(tabs, get, End(res, id), loose - Opt(id))
    ensures id.Some? ==> End(res, id) == res[id.value := Resource(res[id.value].key, 1)]
  {
  }

  lemma Made(tabs: map<Ref, Tab>, get: Tab -> Option<Id>, res: map<Id, Resource>, loose: set<Id>, id: Id, key: Key)
    requires Owned(tabs, get, res, loose) && id !in res
    ensures Owned(tabs, get, res[id := Resource(key, 0)], loose + {id})
  {
  }

  /** The step moves no resource: only runtimes, keys, claims and the counter change. */
  ghost predicate SameHoldings(s: State, s': State) {
    && s'.visible == s.visible && s'.detached == s.detached && s'.ctrls == s.ctrls && s'.leases == s.leases
    && s'.tabs.Keys == s.tabs.Keys && s.next <= s'.next
    && forall r :: r in s.tabs ==> s'.tabs[r] == s.tabs[r].(runtime := s'.tabs[r].runtime, claimed := s'.tabs[r].claimed)
  }

  lemma SameOwned(tabs: map<Ref, Tab>, tabs': map<Ref, Tab>, get: Tab -> Option<Id>, res: map<Id, Resource>, loose: set<Id>)
    requires Owned(tabs, get, res, loose) && tabs.Keys == tabs'.Keys
    requires forall r :: r in tabs ==> get(tabs'[r]) == get(tabs[r]) && tabs'[r].key == tabs[r].key
    ensures Owned(tabs', get, res, loose)
  {
    forall c | c in res && res[c].ended == 0 && c !in loose
      ensures exists q :: q in tabs' && get(tabs'[q]) == Some(c)
    {
      var q :| q in tabs && get(tabs[q]) == Some(c);
      assert get(tabs'[q]) == Some(c);
    }
  }

  lemma SameHoldingsKeep(s: State, s': State)
    requires Tables(s) && Holdings(s) && SameHoldings(s, s')
    requires LooseCtrls(s'.txn) == LooseCtrls(s.txn) && LooseLeases(s'.txn) == LooseLeases(s.txn)
    ensures Tables(s') && Holdings(s')
  {
    SameOwned(s.tabs, s'.tabs, CtrlOf, s.ctrls, LooseCtrls(s.txn));
    SameOwned(s.tabs, s'.tabs, LeaseOf, s.leases, LooseLeases(s.txn));
  }

  /** What Inv says besides Holdings. */
  ghost predicate Registered(s: State) {
    Tables(s) && Mapped(s) && Fresh(s) && Candidate(s)
  }

  lemma AbortKeepsHoldings(s: State)
    requires Holdings(s) && s.txn.Open?
    ensures Holdings(Abort(s))
  {
    EndLoose(s, Abort(s));
  }

  /** Ending everything loose leaves the tabs' holdings as they are. */
  lemma EndLoose(s: State, s': State)
    requires Holdings(s) && !s.txn.Quiet? && s'.txn.Quiet? && s'.tabs == s.tabs
    requires s'.ctrls == End(s.ctrls, s.txn.ctrl) && s'.leases == End(s.leases, s.txn.lease)
    ensures Holdings(s')
  {
    EndLooseCtrls(s, s');
    EndLooseLeases(s, s');
  }

  lemma EndLooseCtrls(s: State, s': State)
    requires CtrlsOwned(s) && !s.txn.Quiet? && s'.txn.Quiet? && s'.tabs == s.tabs && s'.ctrls == End(s.ctrls, s.txn.ctrl)
    ensures CtrlsOwned(s')
  {
    Ended(s.tabs, CtrlOf, s.ctrls, LooseCtrls(s.txn), s.txn.ctrl);
    assert LooseCtrls(s.txn) - Opt(s.txn.ctrl) == {};
  }

  lemma EndLooseLeases(s: State, s': State)
    requires LeasesOwned(s) && OneLeaseEach(s.leases) && !s.txn.Quiet? && s'.txn.Quiet? && s'.tabs == s.tabs
    requires s'.leases == End(s.leases, s.txn.lease)
    ensures LeasesOwned(s') && OneLeaseEach(s'.leases)
  {
    Ended(s.tabs, LeaseOf, s.leases, LooseLeases(s.txn), s.txn.lease);
    assert LooseLeases(s.txn) - Opt(s.txn.lease) == {};
  }

  lemma AbortKeepsRegistered(s: State)
    requires Registered(s) && s.txn.Open?
    ensures Registered(Abort(s))
  {
  }

  lemma BuildKeepsHoldings(s: State)
    requires Holdings(s) && Fresh(s) && s.txn.Open? && s.txn.ctrl.None?
    ensures Holdings(BuildCandidate(s))
  {
    Made(s.tabs, CtrlOf, s.ctrls, LooseCtrls(s.txn), s.next, s.txn.transition.target);
    assert LooseCtrls(s.txn) + {s.next} == LooseCtrls(BuildCandidate(s).txn);
  }

  lemma BuildKeepsRegistered(s: State)
    requires Registered(s) && s.txn.Open? && s.txn.ctrl.None?
    ensures Registered(BuildCandidate(s))
  {
  }

  lemma LeaseKeepsHoldings(s: State)
    requires Holdings(s) && Fresh(s) && s.txn.Open? && s.txn.lease.None? && LeaseFree(s, s.txn.transition.target)
    ensures Holdings(AcquireLease(s))
  {
    Made(s.tabs, LeaseOf, s.leases, LooseLeases(s.txn), s.next, s.txn.transition.target);
    assert LooseLeases(s.txn) + {s.next} == LooseLeases(AcquireLease(s).txn);
  }

  lemma LeaseKeepsRegistered(s: State)
    requires Registered(s) && s.txn.Open? && s.txn.lease.None? && LeaseFree(s, s.txn.transition.target)
    ensures Registered(AcquireLease(s))
  {
  }

  lemma TeardownKeepsHoldings(s: State)
    requires Holdings(s) && s.txn.Retiring?
    ensures Holdings(Teardown(s))
  {
    EndLoose(s, Teardown(s));
  }

  /** The candidate is complete and its transition still stands. */
  ghost predicate Complete(s: State) { s.txn.Open? && s.txn.ctrl.Some? && s.txn.lease.Some? && Publishable(s) }

  lemma CommitOverKeepsCtrls(s: State)
    requires CtrlsOwned(s) && Candidate(s) && Complete(s)
    ensures CtrlsOwned(CommitOver(s))
  {
    var r := s.txn.transition.tab;
    Move(s.tabs, CtrlOf, s.ctrls, LooseCtrls(s.txn), r, Install(s.tabs[r], s.txn, s.txn.transition.target), Opt(s.tabs[r].ctrl));
  }

  lemma CommitOverKeepsLeases(s: State)
    requires LeasesOwned(s) && Candidate(s) && Complete(s)
    ensures LeasesOwned(CommitOver(s))
  {
    var r := s.txn.transition.tab;
    Move(s.tabs, LeaseOf, s.leases, LooseLeases(s.txn), r, Install(s.tabs[r], s.txn, s.txn.transition.target), Opt(s.tabs[r].lease));
  }

  lemma CommitOverKeepsHoldings(s: State)
    requires Holdings(s) && Candidate(s) && Complete(s)
    ensures Holdings(CommitOver(s))
  {
    CommitOverKeepsCtrls(s);
    CommitOverKeepsLeases(s);
  }

  lemma CommitOverKeepsTables(s: State)
    requires Tables(s) && Complete(s)
    ensures Tables(CommitOver(s))
  {
  }

  lemma CommitOverKeepsRegistry(s: State)
    requires Mapped(s) && Fresh(s) && Candidate(s) && Complete(s)
    ensures Mapped(CommitOver(s)) && Fresh(CommitOver(s))
  {
  }

  /** Two structs change hands at once: r takes what a dropped or loose holder had, the clone takes what r had. */
  lemma MoveBoth(tabs: map<Ref, Tab>, get: Tab -> Option<Id>, res: map<Id, Resource>, loose: set<Id>, r: Ref, t: Tab, q: Ref, u: Tab)
    requires Owned(tabs, get, res, loose) && r in tabs && q !in tabs
    requires get(t).Some? ==> get(t).value in res && res[get(t).value].key == t.key
    requires loose == Opt(get(t)) && get(u) == get(tabs[r]) && u.key == tabs[r].key
    ensures Owned(tabs[r := t][q := u], get, res, {})
  {
    Move(tabs, get, res, loose, r, t, Opt(get(tabs[r])));
    Move(tabs[r := t], get, res, Opt(get(tabs[r])), q, u, {});
  }

  /** What a commit with a working source does to the tabs: the source lives on in a fresh struct, unchanged. */
  lemma CommitBesideMoves(s: State)
    requires s.txn.Open? && Publishable(s) && Fresh(s) && CurrentKey(s, s.tabs[s.txn.transition.tab]) == s.tabs[s.txn.transition.tab].key
    ensures
      var r := s.txn.transition.tab;
      var s' := CommitBeside(s);
      var (u, clone) := (s'.tabs[r], s'.tabs[s.next]);
      && s'.tabs == s.tabs[r := u][s.next := clone]
      && u == Install(s.tabs[r], s.txn, s.txn.transition.target).(runtime := u.runtime)
      && clone == s.tabs[r]
      && s'.detached == s.detached[s.tabs[r].key := s.next]
      && s'.visible == s.visible && s'.ctrls == s.ctrls && s'.leases == s.leases && s'.txn == Retiring(None, None)
  {
    var s' := CommitBeside(s);
    var r := s.txn.transition.tab;
    assert s'.tabs == s.tabs[r := s'.tabs[r]][s.next := s'.tabs[s.next]];
  }

  lemma CommitBesideKeepsCtrls(s: State)
    requires CtrlsOwned(s) && Fresh(s) && Candidate(s) && Complete(s)
    requires CurrentKey(s, s.tabs[s.txn.transition.tab]) == s.tabs[s.txn.transition.tab].key
    ensures CtrlsOwned(CommitBeside(s))
  {
    var (r, s') := (s.txn.transition.tab, CommitBeside(s));
    CommitBesideMoves(s);
    MoveBoth(s.tabs, CtrlOf, s.ctrls, LooseCtrls(s.txn), r, s'.tabs[r], s.next, s'.tabs[s.next]);
  }

  lemma CommitBesideKeepsLeases(s: State)
    requires LeasesOwned(s) && Fresh(s) && Candidate(s) && Complete(s)
    requires CurrentKey(s, s.tabs[s.txn.transition.tab]) == s.tabs[s.txn.transition.tab].key
    ensures LeasesOwned(CommitBeside(s))
  {
    var (r, s') := (s.txn.transition.tab, CommitBeside(s));
    CommitBesideMoves(s);
    MoveBoth(s.tabs, LeaseOf, s.leases, LooseLeases(s.txn), r, s'.tabs[r], s.next, s'.tabs[s.next]);
  }

  lemma CommitBesideKeepsHoldings(s: State)
    requires Holdings(s) && Fresh(s) && Candidate(s) && Complete(s)
    requires CurrentKey(s, s.tabs[s.txn.transition.tab]) == s.tabs[s.txn.transition.tab].key
    ensures Holdings(CommitBeside(s))
  {
    CommitBesideKeepsCtrls(s);
    CommitBesideKeepsLeases(s);
    CommitBesideMoves(s);
  }

  lemma CommitBesideKeepsTables(s: State)
    requires Inv(s) && s.txn.Open? && s.txn.ctrl.Some? && s.txn.lease.Some? && Publishable(s) && s.txn.transition.active
    ensures Tables(CommitBeside(s))
  {
    var r := s.txn.transition.tab;
    KeysAgree(s, r);
    CommitBesideMoves(s);
    VisibleIsNotDetached(s, r);
    DetachedAfter(s, CommitBeside(s), r);
  }

  lemma DetachedAfter(s: State, s': State, r: Ref)
    requires Tables(s) && s'.visible == s.visible && s'.tabs.Keys == s.tabs.Keys + {s.next} && Fresh(s)
    requires r in s.visible && s.tabs[r].key !in s.detached
    requires s'.detached == s.detached[s.tabs[r].key := s.next]
    requires s'.tabs[s.next].key == s.tabs[r].key && s'.tabs[s.next].ctrl.Some?
    requires forall q :: q in s.tabs && q != r ==> s'.tabs[q] == s.tabs[q]
    ensures Tables(s')
  {
    forall q ensures q in s'.tabs <==> q in s'.visible || q in s'.detached.Values {
      if q in s.detached.Values {
        var k :| k in s.detached && s.detached[k] == q;
        assert s'.detached[k] == q;
      }
      if q == s.next {
        assert s'.detached[s.tabs[r].key] == q;
      }
    }
  }

  /** A session with a controller on a visible tab is not filed in the detached table as well. */
  lemma VisibleIsNotDetached(s: State, r: Ref)
    requires Inv(s) && r in s.visible && s.tabs[r].ctrl.Some?
    ensures s.tabs[r].key !in s.detached
  {
  }

  lemma NewRuntimeKeeps(s: State, r: Ref, key: Key)
    requires Mapped(s) && Fresh(s) && r in s.tabs && !OwnsRuntime(s, r)
    ensures Mapped(NewRuntime(s, r, key)) && Fresh(NewRuntime(s, r, key))
    ensures SameHoldings(s, NewRuntime(s, r, key)) && OwnsRuntime(NewRuntime(s, r, key), r)
    ensures NewRuntime(s, r, key).txn == s.txn && NewRuntime(s, r, key).tabs[r].claimed == s.tabs[r].claimed
  {
  }

  lemma AliasKeepsMapped(s: State, r: Ref, target: Key)
    requires Mapped(s) && r in s.tabs && OwnsRuntime(s, r) && !TakenByOther(s, r, target)
    ensures Mapped(s.(byKey := s.byKey[target := s.tabs[r].runtime.value]))
  {
  }

  lemma ReserveKeepsMapped(s: State, r: Ref, target: Key, active: bool)
    requires Registered(s) && s.txn.Quiet? && r in s.tabs && target != "" && s.tabs[r].key != target
    ensures Mapped(Reserve(s, r, target, active))
  {
    if !TakenByOther(s, r, target) {
      var s1 := if OwnsRuntime(s, r) then s else NewRuntime(s, r, CurrentKey(s, s.tabs[r]));
      if !OwnsRuntime(s, r) {
        NewRuntimeKeeps(s, r, CurrentKey(s, s.tabs[r]));
      }
      AliasKeepsMapped(s1, r, target);
    }
  }

  lemma ReserveKeepsRegistered(s: State, r: Ref, target: Key, active: bool)
    requires Registered(s) && s.txn.Quiet? && r in s.tabs && target != "" && s.tabs[r].key != target
    ensures Mapped(Reserve(s, r, target, active)) && Fresh(Reserve(s, r, target, active)) && Candidate(Reserve(s, r, target, active))
    ensures SameHoldings(s, Reserve(s, r, target, active))
  {
    ReserveKeepsMapped(s, r, target, active);
    if !TakenByOther(s, r, target) && !OwnsRuntime(s, r) {
      NewRuntimeKeeps(s, r, CurrentKey(s, s.tabs[r]));
    }
  }

  ghost predicate ReattachReady(s: State, r: Ref, target: Key) {
    && r in s.visible && r in s.tabs && s.tabs[r].key != target
    && target in s.detached && s.detached[target] in s.tabs
    && OwnsRuntime(s, s.detached[target]) && s.tabs[s.detached[target]].ctrl.Some?
    && CurrentKey(s, s.tabs[r]) == s.tabs[r].key
  }

  /** The tab takes everything the detached struct held, keeping only its own mode. */
  function Taken(t: Tab, from: Tab, target: Key): Tab {
    t.(key := target, ctrl := from.ctrl, lease := from.lease, sink := from.sink, runtime := from.runtime,
       claimed := true, ready := from.ready && from.ctrl.Some?)
  }

  lemma ReattachOverMoves(s: State, r: Ref, target: Key)
    requires ReattachReady(s, r, target) && Tables(s) && Reattachable(s, target)
    ensures
      var d := s.detached[target];
      var s' := Apply(s, r, target);
      && s'.tabs == (s.tabs - {d})[r := Taken(s.tabs[r], s.tabs[d], target)]
      && s'.detached == s.detached - {target}
      && s'.visible == s.visible && s'.ctrls == s.ctrls && s'.leases == s.leases && s'.next == s.next
  {
  }

  /** Detaching a registered source: the fresh struct is the tab as it was, runtime included. */
  lemma DetachMoves(s: State, r: Ref)
    requires Fresh(s) && r in s.tabs && OwnsRuntime(s, r) && CurrentKey(s, s.tabs[r]) == s.tabs[r].key
    ensures Detach(s, r) == Detached(s, r)
  {
    assert Detach(s, r).tabs == Detached(s, r).tabs;
  }

  function Detached(s: State, r: Ref): State
    requires r in s.tabs && OwnsRuntime(s, r)
  {
    var t := s.tabs[r];
    s.(tabs := s.tabs[r := t.(lease := None, runtime := None)][s.next := t],
       runtimes := s.runtimes[t.runtime.value := s.runtimes[t.runtime.value].(owner := s.next)],
       detached := s.detached[t.key := s.next], next := s.next + 1)
  }

  /** A source that can be detached, beside a detached target. */
  ghost predicate BesideReady(s: State, r: Ref, target: Key) {
    ReattachReady(s, r, target) && Reattachable(s, target) && OwnsRuntime(s, r) && s.detached[target] !in s.visible
  }

  lemma DetachLeavesTarget(s: State, r: Ref, target: Key)
    requires Fresh(s) && BesideReady(s, r, target)
    ensures
      var s1 := Detached(s, r);
      var d := s.detached[target];
      && target in s1.detached && s1.detached[target] == d && d in s1.tabs && s1.tabs[d] == s.tabs[d]
      && r in s1.tabs && OwnsRuntime(s1, d) && !OwnsRuntime(s1, r)
  {
  }

  lemma ReattachBesideMoves(s: State, r: Ref, target: Key)
    requires Fresh(s) && BesideReady(s, r, target)
    ensures
      var d := s.detached[target];
      var s1 := Detached(s, r);
      && target in s1.detached && s1.detached[target] in s1.tabs && r in s1.tabs
      && var s' := Apply(s1, r, target);
      && s'.tabs == (s.tabs - {d})[r := Taken(s.tabs[r], s.tabs[d], target)][s.next := s.tabs[r]]
      && s'.detached == s.detached[s.tabs[r].key := s.next] - {target}
      && s'.visible == s.visible && s'.ctrls == s.ctrls && s'.leases == s.leases
  {
    var d := s.detached[target];
    DetachLeavesTarget(s, r, target);
    var s' := Apply(Detached(s, r), r, target);
    assert s'.tabs[r] == Taken(s.tabs[r], s.tabs[d], target);
    assert s'.tabs == (s.tabs - {d})[r := Taken(s.tabs[r], s.tabs[d], target)][s.next := s.tabs[r]];
  }

  lemma DropThenMove(tabs: map<Ref, Tab>, get: Tab -> Option<Id>, res: map<Id, Resource>, d: Ref, r: Ref, t: Tab)
    requires Owned(tabs, get, res, {}) && r in tabs && d in tabs && r != d && get(t) == get(tabs[d]) && t.key == tabs[d].key
    ensures Owned((tabs - {d})[r := t], get, res, Opt(get(tabs[r])))
  {
    Drop(tabs, get, res, {}, d, Opt(get(tabs[d])));
    Move(tabs - {d}, get, res, Opt(get(tabs[d])), r, t, Opt(get(tabs[r])));
  }

  lemma DropThenMoveBoth(tabs: map<Ref, Tab>, get: Tab -> Option<Id>, res: map<Id, Resource>, d: Ref, r: Ref, t: Tab, q: Ref)
    requires Owned(tabs, get, res, {}) && r in tabs && d in tabs && r != d && get(t) == get(tabs[d]) && t.key == tabs[d].key
    requires q !in tabs
    ensures Owned((tabs - {d})[r := t][q := tabs[r]], get, res, {})
  {
    DropThenMove(tabs, get, res, d, r, t);
    Move((tabs - {d})[r := t], get, res, Opt(get(tabs[r])), q, tabs[r], {});
  }

  lemma ReattachOverKeepsHoldings(s: State, r: Ref, target: Key)
    requires Holdings(s) && Tables(s) && s.txn.Quiet? && ReattachReady(s, r, target) && Reattachable(s, target)
    ensures Holdings(Apply(s, r, target).(txn := Retiring(s.tabs[r].ctrl, s.tabs[r].lease)))
  {
    ReattachOverMoves(s, r, target);
    var d := s.detached[target];
    ReattachOverKeepsOwned(s, Apply(s, r, target).(txn := Retiring(s.tabs[r].ctrl, s.tabs[r].lease)), r, d,
                           Taken(s.tabs[r], s.tabs[d], target));
  }

  lemma ReattachOverKeepsOwned(s: State, s': State, r: Ref, d: Ref, u: Tab)
    requires Holdings(s) && s.txn.Quiet? && r in s.tabs && d in s.tabs && r != d
    requires u.ctrl == s.tabs[d].ctrl && u.lease == s.tabs[d].lease && u.key == s.tabs[d].key
    requires s'.tabs == (s.tabs - {d})[r := u] && s'.ctrls == s.ctrls && s'.leases == s.leases
    requires s'.txn == Retiring(s.tabs[r].ctrl, s.tabs[r].lease)
    ensures Holdings(s')
  {
    DropThenMove(s.tabs, CtrlOf, s.ctrls, d, r, u);
    DropThenMove(s.tabs, LeaseOf, s.leases, d, r, u);
  }

  lemma ReattachOverKeepsTables(s: State, r: Ref, target: Key)
    requires Tables(s) && ReattachReady(s, r, target) && Reattachable(s, target)
    ensures Tables(Apply(s, r, target))
  {
    ReattachOverMoves(s, r, target);
    LeavesTable(s, target);
  }

  /** Taking one entry out of the detached table removes exactly its struct from the range. */
  lemma LeavesTable(s: State, target: Key)
    requires Tables(s) && target in s.detached
    ensures (s.detached - {target}).Values == s.detached.Values - {s.detached[target]}
  {
    forall q | q in s.detached.Values - {s.detached[target]} ensures q in (s.detached - {target}).Values {
      var k :| k in s.detached && s.detached[k] == q;
      assert k in s.detached - {target};
    }
  }

  lemma ReattachBesideKeepsHoldings(s: State, s': State, r: Ref, d: Ref, u: Tab)
    requires Holdings(s) && s.txn.Quiet? && r in s.tabs && d in s.tabs && r != d && s.next !in s.tabs
    requires u.ctrl == s.tabs[d].ctrl && u.lease == s.tabs[d].lease && u.key == s.tabs[d].key
    requires s'.tabs == (s.tabs - {d})[r := u][s.next := s.tabs[r]] && s'.ctrls == s.ctrls && s'.leases == s.leases
    requires s'.txn == Retiring(None, None)
    ensures Holdings(s')
  {
    DropThenMoveBoth(s.tabs, CtrlOf, s.ctrls, d, r, u, s.next);
    DropThenMoveBoth(s.tabs, LeaseOf, s.leases, d, r, u, s.next);
  }

  lemma ReattachBesideKeepsTables(s: State, r: Ref, target: Key)
    requires Tables(s) && Fresh(s) && BesideReady(s, r, target) && s.tabs[r].ctrl.Some? && s.tabs[r].key !in s.detached
    ensures
      var s1 := Detached(s, r);
      && target in s1.detached && s1.detached[target] in s1.tabs && r in s1.tabs
      && Tables(Apply(s1, r, target))
  {
    ReattachBesideMoves(s, r, target);
    DetachedAfter(s, Detached(s, r), r);
    TakenFromTable(Detached(s, r), Apply(Detached(s, r), r, target), r, target);
  }

  lemma TakenFromTable(s: State, s': State, r: Ref, target: Key)
    requires Tables(s) && r in s.visible && target in s.detached
    requires s'.tabs.Keys == s.tabs.Keys - {s.detached[target]} && s'.visible == s.visible && s'.detached == s.detached - {target}
    requires forall q :: q in s'.tabs && q != r ==> s'.tabs[q] == s.tabs[q]
    ensures Tables(s')
  {
    LeavesTable(s, target);
  }

  /** Registered everywhere but at r, whose fields are stale between the detachment and the take-over. */
  ghost predicate MappedBut(s: State, r: Ref) {
    forall q :: q in s.tabs && q != r && (s.tabs[q].claimed || s.tabs[q].ctrl.Some?) ==>
      s.tabs[q].key != "" && OwnsRuntime(s, q) && s.tabs[q].key in s.byKey && s.byKey[s.tabs[q].key] == s.tabs[q].runtime.value
  }

  lemma DetachKeepsMapped(s: State, r: Ref)
    requires Mapped(s) && Fresh(s) && r in s.tabs && s.tabs[r].ctrl.Some?
    ensures MappedBut(Detached(s, r), r) && Fresh(Detached(s, r))
  {
  }

  /** The registry between the detachment and the new runtime: nobody but the tab itself is filed under target. */
  lemma UnmapKeepsOthers(s: State, r: Ref, t: Tab, target: Key, rt: Id)
    requires MappedBut(s, r) && target in s.byKey && s.byKey[target] == rt
    requires rt in s.runtimes && s.runtimes[rt].owner in s.tabs && s.tabs[s.runtimes[rt].owner].key != target
    ensures MappedBut(s.(byKey := Unmap(s.byKey, target, rt), tabs := s.tabs[r := t]), r)
  {
  }

  lemma NewRuntimeRegisters(s: State, r: Ref, target: Key)
    requires MappedBut(s, r) && Fresh(s) && r in s.tabs && s.tabs[r].runtime.None? && target != "" && target !in s.byKey
    requires s.tabs[r].key == target
    ensures Mapped(NewRuntime(s, r, target)) && Fresh(NewRuntime(s, r, target)) && OwnsRuntime(NewRuntime(s, r, target), r)
  {
  }

  lemma AdvanceKeepsMapped(s: State, r: Ref)
    requires Mapped(s) && Fresh(s) && r in s.tabs && OwnsRuntime(s, r)
    ensures Mapped(AdvanceEpoch(s, r)) && Fresh(AdvanceEpoch(s, r))
  {
  }

  /** The tabs and the registry of a commit beside its source, before the new runtime is made. */
  function Beside(s: State): State
    requires Complete(s)
  {
    var tr := s.txn.transition;
    var s1 := Detached(s, tr.tab);
    s1.(byKey := Unmap(s1.byKey, tr.target, tr.runtime), tabs := s1.tabs[tr.tab := Install(s1.tabs[tr.tab], s.txn, tr.target)])
  }

  lemma BesideKeepsMapped(s: State)
    requires Mapped(s) && Fresh(s) && Candidate(s) && Complete(s) && s.txn.transition.active
    ensures MappedBut(Beside(s), s.txn.transition.tab) && Fresh(Beside(s)) && s.txn.transition.target !in Beside(s).byKey
    ensures Beside(s).tabs[s.txn.transition.tab].runtime.None?
  {
    var tr := s.txn.transition;
    var s1 := Detached(s, tr.tab);
    DetachKeepsMapped(s, tr.tab);
    assert s1.runtimes[tr.runtime].owner == s.next && s1.tabs[s.next] == s.tabs[tr.tab];
    UnmapKeepsOthers(s1, tr.tab, Install(s1.tabs[tr.tab], s.txn, tr.target), tr.target, tr.runtime);
  }

  lemma CommitBesideKeepsRegistry(s: State)
    requires Mapped(s) && Fresh(s) && Candidate(s) && Complete(s) && s.txn.transition.active
    requires CurrentKey(s, s.tabs[s.txn.transition.tab]) == s.tabs[s.txn.transition.tab].key
    ensures Mapped(CommitBeside(s)) && Fresh(CommitBeside(s))
  {
    var tr := s.txn.transition;
    DetachMoves(s, tr.tab);
    BesideKeepsMapped(s);
    NewRuntimeRegisters(Beside(s), tr.tab, tr.target);
    AdvanceKeepsMapped(NewRuntime(Beside(s), tr.tab, tr.target), tr.tab);
  }

  lemma ApplyKeepsMapped(s: State, r: Ref, target: Key)
    requires MappedBut(s, r) && Fresh(s) && r in s.tabs && target in s.detached && s.detached[target] in s.tabs
    requires s.detached[target] != r && OwnsRuntime(s, s.detached[target]) && target != ""
    requires s.tabs[s.detached[target]].ctrl.Some? && s.tabs[s.detached[target]].key == target
    ensures Mapped(Apply(s, r, target)) && Fresh(Apply(s, r, target))
  {
    AdoptMaps(s, r, s.detached[target], target);
    AdoptKeepsFresh(s, r, s.detached[target], target);
  }

  lemma AdoptMaps(s: State, r: Ref, d: Ref, target: Key)
    requires MappedBut(s, r) && r in s.tabs && d in s.tabs && d != r && OwnsRuntime(s, d) && target != ""
    requires s.tabs[d].ctrl.Some? && s.tabs[d].key == target
    ensures Mapped(Adopt(s, r, d, target))
  {
  }

  lemma AdoptKeepsFresh(s: State, r: Ref, d: Ref, target: Key)
    requires Fresh(s) && r in s.tabs && d in s.tabs && OwnsRuntime(s, d)
    ensures Fresh(Adopt(s, r, d, target))
  {
  }

  lemma ReattachKeepsInv(s: State, r: Ref, target: Key, active: bool)
    requires Inv(s) && s.txn.Quiet? && r in s.tabs && r in s.visible && target != "" && s.tabs[r].key != target
    ensures Inv(Reattach(s, r, target, active))
  {
    if Reattachable(s, target) {
      var d := s.detached[target];
      var t := s.tabs[r];
      KeysAgree(s, r);
      if !(active && t.ctrl.Some?) {
        ReattachOverKeepsHoldings(s, r, target);
        ReattachOverKeepsTables(s, r, target);
        ApplyKeepsMapped(s, r, target);
      } else {
        VisibleIsNotDetached(s, r);
        DetachMoves(s, r);
        DetachLeavesTarget(s, r, target);
        ReattachBesideMoves(s, r, target);
        ReattachBesideKeepsHoldings(s, Reattach(s, r, target, active), r, d, Taken(t, s.tabs[d], target));
        ReattachBesideKeepsTables(s, r, target);
        DetachKeepsMapped(s, r);
        ApplyKeepsMapped(Detached(s, r), r, target);
      }
    }
  }

  lemma UnclaimMoves(s: State, r: Ref)
    requires r in s.tabs
    ensures SameHoldings(s, Unclaim(s, r)) && Unclaim(s, r).tabs[r].key == s.tabs[r].key
  {
  }

  lemma UnclaimKeepsRegistry(s: State, r: Ref)
    requires Mapped(s) && Fresh(s) && r in s.tabs
    ensures Mapped(Unclaim(s, r)) && Fresh(Unclaim(s, r))
  {
  }

  lemma UnclaimKeepsInv(s: State, r: Ref)
    requires Inv(s) && s.txn.Quiet? && r in s.tabs
    ensures Inv(Unclaim(s, r)) && Unclaim(s, r).tabs[r].key == s.tabs[r].key
  {
    UnclaimMoves(s, r);
    UnclaimKeepsRegistry(s, r);
    SameHoldingsKeep(s, Unclaim(s, r));
  }

  lemma ReserveKeepsInv(s: State, r: Ref, target: Key, active: bool)
    requires Inv(s) && s.txn.Quiet? && r in s.tabs && target != "" && s.tabs[r].key != target
    ensures Inv(Reserve(s, r, target, active))
  {
    ReserveKeepsRegistered(s, r, target, active);
    SameHoldingsKeep(s, Reserve(s, r, target, active));
  }

  lemma StartKeepsInv(s: State, r: Ref, target: Key, active: bool, saved: bool)
    requires Inv(s)
    ensures Inv(Start(s, r, target, active, saved))
  {
    var s' := Start(s, r, target, active, saved);
    if s' != s {
      KeysAgree(s, r);
      UnclaimKeepsInv(s, r);
      if s.tabs[r].ctrl.Some? && !saved {
        assert s' == Unclaim(s, r);
      } else if HasDetached(s, target) {
        ReattachKeepsInv(Unclaim(s, r), r, target, active);
      } else {
        ReserveKeepsInv(Unclaim(s, r), r, target, active);
      }
    }
  }

  lemma CommitKeepsInv(s: State)
    requires Inv(s) && s.txn.Open? && s.txn.ctrl.Some? && s.txn.lease.Some?
    ensures Inv(Commit(s))
  {
    if !Publishable(s) {
      AbortKeepsHoldings(s);
      AbortKeepsRegistered(s);
    } else if !s.txn.transition.active {
      CommitOverKeepsHoldings(s);
      CommitOverKeepsTables(s);
      CommitOverKeepsRegistry(s);
    } else {
      KeysAgree(s, s.txn.transition.tab);
      CommitBesideKeepsHoldings(s);
      CommitBesideKeepsTables(s);
      CommitBesideKeepsRegistry(s);
    }
  }

  // ---- The other steps keep the invariant ----

  /** The tab's own registry entry stands. */
  ghost predicate Registers(s: State, r: Ref) {
    r in s.tabs && s.tabs[r].key != "" && OwnsRuntime(s, r) && s.tabs[r].key in s.byKey && s.byKey[s.tabs[r].key] == s.tabs[r].runtime.value
  }

  predicate Bindable(s: State, r: Ref) { r in s.tabs && s.tabs[r].key != "" && !TakenByOther(s, r, s.tabs[r].key) }

  lemma BindKeepsMapped(s: State, r: Ref)
    requires MappedBut(s, r) && Fresh(s) && Bindable(s, r)
    ensures MappedBut(Bind(s, r, s.tabs[r].key), r)
  {
    if OwnsRuntime(s, r) {
      RekeyKeepsOthers(s, r);
    } else {
      NewRuntimeKeepsOthers(s, r);
    }
  }

  lemma NewRuntimeKeepsOthers(s: State, r: Ref)
    requires MappedBut(s, r) && Fresh(s) && Bindable(s, r)
    ensures MappedBut(NewRuntime(s, r, s.tabs[r].key), r)
  {
  }

  lemma RekeyKeepsOthers(s: State, r: Ref)
    requires MappedBut(s, r) && Bindable(s, r) && OwnsRuntime(s, r)
    ensures MappedBut(Bind(s, r, s.tabs[r].key), r)
  {
  }

  lemma BindMoves(s: State, r: Ref)
    requires Bindable(s, r)
    ensures
      var s' := Bind(s, r, s.tabs[r].key);
      && SameHoldings(s, s') && s'.txn == s.txn && s'.tabs == s.tabs[r := s.tabs[r].(runtime := s'.tabs[r].runtime)]
  {
  }

  lemma BindRegisters(s: State, r: Ref)
    requires Bindable(s, r)
    ensures Registers(Bind(s, r, s.tabs[r].key), r)
  {
  }

  lemma BindKeepsFresh(s: State, r: Ref)
    requires Fresh(s) && Candidate(s) && Bindable(s, r)
    ensures Fresh(Bind(s, r, s.tabs[r].key)) && Candidate(Bind(s, r, s.tabs[r].key))
  {
  }

  lemma BothMapped(s: State, r: Ref)
    requires MappedBut(s, r) && Registers(s, r)
    ensures Mapped(s)
  {
  }

  lemma BindKeepsHoldings(s: State, r: Ref)
    requires Tables(s) && Holdings(s) && Bindable(s, r)
    ensures Tables(Bind(s, r, s.tabs[r].key)) && Holdings(Bind(s, r, s.tabs[r].key))
  {
    BindMoves(s, r);
    SameHoldingsKeep(s, Bind(s, r, s.tabs[r].key));
  }

  lemma BindKeepsInv(s: State, r: Ref)
    requires Inv(s) && Bindable(s, r)
    ensures Inv(Bind(s, r, s.tabs[r].key)) && Registers(Bind(s, r, s.tabs[r].key), r)
  {
    BindKeepsMapped(s, r);
    BindRegisters(s, r);
    BothMapped(Bind(s, r, s.tabs[r].key), r);
    BindKeepsFresh(s, r);
    BindKeepsHoldings(s, r);
  }

  lemma OpenTabKeepsHoldings(s: State, key: Key, readOnly: bool)
    requires Holdings(s) && Fresh(s)
    ensures Holdings(OpenTab(s, key, readOnly))
  {
    var t := OpenTab(s, key, readOnly).tabs[s.next];
    Move(s.tabs, CtrlOf, s.ctrls, LooseCtrls(s.txn), s.next, t, LooseCtrls(s.txn));
    Move(s.tabs, LeaseOf, s.leases, LooseLeases(s.txn), s.next, t, LooseLeases(s.txn));
  }

  lemma OpenTabKeepsRegistered(s: State, key: Key, readOnly: bool)
    requires Registered(s)
    ensures Registered(OpenTab(s, key, readOnly))
  {
  }

  /** The tab after the claim, bound in the registry. */
  lemma ClaimKeepsHoldings(s1: State, r: Ref)
    requires Holdings(s1) && Fresh(s1) && r in s1.tabs && s1.tabs[r].lease.None? && LeaseFree(s1, s1.tabs[r].key)
    ensures Holdings(s1.(tabs := s1.tabs[r := s1.tabs[r].(claimed := true, lease := Some(s1.next))],
                         leases := s1.leases[s1.next := Resource(s1.tabs[r].key, 0)], next := s1.next + 1))
  {
    var t := s1.tabs[r].(claimed := true, lease := Some(s1.next));
    var leases := s1.leases[s1.next := Resource(s1.tabs[r].key, 0)];
    Made(s1.tabs, LeaseOf, s1.leases, LooseLeases(s1.txn), s1.next, s1.tabs[r].key);
    Move(s1.tabs, LeaseOf, leases, LooseLeases(s1.txn) + {s1.next}, r, t, LooseLeases(s1.txn));
    SameOwned(s1.tabs, s1.tabs[r := t], CtrlOf, s1.ctrls, LooseCtrls(s1.txn));
  }

  lemma ClaimedKeepsMapped(s: State, r: Ref, t: Tab)
    requires MappedBut(s, r) && Registers(s, r) && t.key == s.tabs[r].key && t.runtime == s.tabs[r].runtime
    ensures Mapped(s.(tabs := s.tabs[r := t]))
  {
  }

  lemma ClaimKeepsInv(s: State, r: Ref)
    requires Inv(s)
    ensures Inv(Claim(s, r))
  {
    if Claim(s, r) != s {
      BindKeepsInv(s, r);
      FinishClaimKeepsInv(Bind(s, r, s.tabs[r].key), r);
    }
  }

  lemma FinishClaimKeepsInv(s: State, r: Ref)
    requires Inv(s) && Registers(s, r)
    ensures Inv(FinishClaim(s, r))
  {
    if s.tabs[r].readOnly || s.tabs[r].lease.Some? {
      ClaimBareKeepsInv(s, r);
    } else if LeaseFree(s, s.tabs[r].key) {
      ClaimLeasedKeepsInv(s, r);
    }
  }

  lemma ClaimBareMoves(s: State, r: Ref)
    requires r in s.tabs
    ensures SameHoldings(s, Claimed(s, r))
  {
  }

  lemma ClaimBareKeepsRegistry(s: State, r: Ref)
    requires Mapped(s) && Fresh(s) && Candidate(s) && Registers(s, r)
    ensures Mapped(Claimed(s, r)) && Fresh(Claimed(s, r)) && Candidate(Claimed(s, r))
  {
  }

  lemma ClaimBareKeepsInv(s: State, r: Ref)
    requires Inv(s) && Registers(s, r)
    ensures Inv(Claimed(s, r))
  {
    ClaimBareMoves(s, r);
    SameHoldingsKeep(s, Claimed(s, r));
    ClaimBareKeepsRegistry(s, r);
  }

  lemma LeasedKeepsRegistered(s: State, r: Ref)
    requires Registered(s) && Registers(s, r)
    ensures Registered(Leased(s, r))
  {
    TablesOfSame(s, Leased(s, r));
    ClaimedKeepsMapped(s, r, Leased(s, r).tabs[r]);
  }

  lemma ClaimLeasedKeepsInv(s: State, r: Ref)
    requires Inv(s) && Registers(s, r) && s.tabs[r].lease.None? && LeaseFree(s, s.tabs[r].key)
    ensures Inv(Leased(s, r))
  {
    ClaimKeepsHoldings(s, r);
    LeasedKeepsRegistered(s, r);
  }

  lemma TablesOfSame(s: State, s': State)
    requires Tables(s) && s'.visible == s.visible && s'.detached == s.detached && s'.tabs.Keys == s.tabs.Keys
    requires forall r :: r in s.tabs ==> s'.tabs[r].key == s.tabs[r].key && (s.tabs[r].ctrl.Some? ==> s'.tabs[r].ctrl.Some?)
    ensures Tables(s')
  {
  }

  /** The tab with its new controller, before the registry is refreshed. */
  function Published(s: State, r: Ref): State
    requires r in s.tabs
  {
    s.(tabs := s.tabs[r := s.tabs[r].(ctrl := Some(s.next), ready := true)],
       ctrls := s.ctrls[s.next := Resource(s.tabs[r].key, 0)], next := s.next + 1)
  }

  lemma PublishedKeepsHoldings(s: State, r: Ref)
    requires Holdings(s) && Fresh(s) && r in s.tabs && s.tabs[r].ctrl.None?
    ensures Holdings(Published(s, r))
  {
    var t := s.tabs[r].(ctrl := Some(s.next), ready := true);
    var ctrls := s.ctrls[s.next := Resource(s.tabs[r].key, 0)];
    Made(s.tabs, CtrlOf, s.ctrls, LooseCtrls(s.txn), s.next, s.tabs[r].key);
    Move(s.tabs, CtrlOf, ctrls, LooseCtrls(s.txn) + {s.next}, r, t, LooseCtrls(s.txn));
    SameOwned(s.tabs, s.tabs[r := t], LeaseOf, s.leases, LooseLeases(s.txn));
  }

  lemma PublishedKeepsRegistered(s: State, r: Ref)
    requires Registered(s) && r in s.tabs && s.tabs[r].ctrl.None? && s.tabs[r].claimed
    ensures Registered(Published(s, r)) && Registers(Published(s, r), r)
    ensures !TakenByOther(Published(s, r), r, s.tabs[r].key)
  {
  }

  lemma AdvanceKeepsInv(s: State, r: Ref)
    requires Inv(s) && r in s.tabs && OwnsRuntime(s, r)
    ensures Inv(AdvanceEpoch(s, r))
  {
    AdvanceKeepsRegistry(s, r);
    SameHoldingsKeep(s, AdvanceEpoch(s, r));
  }

  lemma AdvanceKeepsRegistry(s: State, r: Ref)
    requires Mapped(s) && Fresh(s) && Candidate(s) && r in s.tabs && OwnsRuntime(s, r)
    ensures Mapped(AdvanceEpoch(s, r)) && Fresh(AdvanceEpoch(s, r)) && Candidate(AdvanceEpoch(s, r))
  {
  }

  lemma PublishedKeepsInv(s: State, r: Ref)
    requires Inv(s) && r in s.tabs && s.tabs[r].ctrl.None? && s.tabs[r].claimed
    ensures Inv(Published(s, r)) && s.tabs[r].key != "" && !TakenByOther(Published(s, r), r, s.tabs[r].key)
  {
    PublishedKeepsHoldings(s, r);
    PublishedKeepsRegistered(s, r);
  }

  lemma PublishKeepsInv(s: State, r: Ref)
    requires Inv(s)
    ensures Inv(Publish(s, r))
  {
    if r in s.tabs && r in s.visible && s.tabs[r].ctrl.None? && s.tabs[r].claimed {
      var s1 := Published(s, r);
      PublishedKeepsInv(s, r);
      KeysAgree(s1, r);
      BindKeepsInv(s1, r);
      var s2 := Bind(s1, r, s1.tabs[r].key);
      AdvanceKeepsInv(s2, r);
      assert Publish(s, r) == AdvanceEpoch(s2, r);
    }
  }

  /** The tab goes, and what it held ends. */
  function Removed(s: State, r: Ref): State
    requires r in s.tabs
  {
    ReleaseRuntime(s, r).(tabs := s.tabs - {r}, ctrls := End(s.ctrls, s.tabs[r].ctrl), leases := End(s.leases, s.tabs[r].lease))
  }

  lemma DropThenEnd(tabs: map<Ref, Tab>, get: Tab -> Option<Id>, res: map<Id, Resource>, loose: set<Id>, r: Ref)
    requires Owned(tabs, get, res, loose) && r in tabs
    ensures Owned(tabs - {r}, get, End(res, get(tabs[r])), loose)
  {
    var id := get(tabs[r]);
    Drop(tabs, get, res, loose, r, loose + Opt(id));
    Ended(tabs - {r}, get, res, loose + Opt(id), id);
    assert loose + Opt(id) - Opt(id) == loose;
  }

  lemma RemovedKeepsHoldings(s: State, r: Ref)
    requires Holdings(s) && r in s.tabs
    ensures Holdings(Removed(s, r))
  {
    DropThenEnd(s.tabs, CtrlOf, s.ctrls, LooseCtrls(s.txn), r);
    DropThenEnd(s.tabs, LeaseOf, s.leases, LooseLeases(s.txn), r);
  }

  lemma RemovedKeepsRegistry(s: State, r: Ref)
    requires Mapped(s) && Fresh(s) && Candidate(s) && r in s.tabs
    ensures Mapped(Removed(s, r)) && Fresh(Removed(s, r)) && Candidate(Removed(s, r))
  {
  }

  lemma CloseIdleKeepsInv(s: State, r: Ref)
    requires Inv(s) && r in s.tabs && r in s.visible
    ensures Inv(Removed(s, r).(visible := s.visible - {r}))
  {
    RemovedKeepsHoldings(s, r);
    RemovedKeepsRegistry(s, r);
  }

  lemma CloseBusyKeepsTables(s: State, s': State, r: Ref)
    requires Tables(s) && r in s.visible && s.tabs[r].ctrl.Some? && s.tabs[r].key !in s.detached && s'.tabs.Keys == s.tabs.Keys
    requires forall q :: q in s.tabs ==> s'.tabs[q].key == s.tabs[q].key && s'.tabs[q].ctrl == s.tabs[q].ctrl
    requires s'.visible == s.visible - {r} && s'.detached == s.detached[s.tabs[r].key := r]
    ensures Tables(s')
  {
    forall q ensures q in s'.tabs <==> q in s'.visible || q in s'.detached.Values {
      if q in s.detached.Values {
        var k :| k in s.detached && s.detached[k] == q;
        assert s'.detached[k] == q;
      }
      if q == r {
        assert s'.detached[s.tabs[r].key] == q;
      }
    }
  }

  lemma CloseKeepsInv(s: State, r: Ref, active: bool)
    requires Inv(s)
    ensures Inv(Close(s, r, active))
  {
    if r in s.tabs && r in s.visible {
      var t := s.tabs[r];
      KeysAgree(s, r);
      if active && t.ctrl.Some? && t.key != "" {
        assert Registers(s, r);
        BindKeepsInv(s, r);
        BindMoves(s, r);
        var s1 := Bind(s, r, t.key);
        VisibleIsNotDetached(s, r);
        var s' := Close(s, r, active);
        assert s1.tabs[r := s1.tabs[r]] == s1.tabs == s'.tabs;
        CloseBusyKeepsTables(s, s', r);
      } else {
        CloseIdleKeepsInv(s, r);
      }
    }
  }

  lemma DiscardKeepsInv(s: State, key: Key)
    requires Inv(s)
    ensures Inv(Discard(s, key))
  {
    if key in s.detached && s.detached[key] in s.tabs {
      var r := s.detached[key];
      RemovedKeepsHoldings(s, r);
      RemovedKeepsRegistry(s, r);
      LeavesTable(s, key);
    }
  }

  // ---- Startups that attach ----

  /** The source runs the very session the tab is starting. */
  ghost predicate SameSession(s: State, r: Ref, d: Ref) { r in s.tabs && d in s.tabs && s.tabs[d].key == s.tabs[r].key }

  /** A startup and a source it can attach: another struct with a controller, registered. */
  ghost predicate AttachReady(s: State, r: Ref, d: Ref) {
    && r in s.tabs && r in s.visible && s.tabs[r].ctrl.None? && s.tabs[r].key != ""
    && d in s.tabs && d != r && s.tabs[d].ctrl.Some? && OwnsRuntime(s, d)
  }

  lemma AttachMoves(s: State, r: Ref, d: Ref)
    requires AttachReady(s, r, d)
    ensures
      var key := s.tabs[r].key;
      var s' := AttachTo(s, r, d);
      && s'.tabs == (s.tabs - {d})[r := Taken(s.tabs[r], s.tabs[d], key)]
      && s'.visible == s.visible - {d} && s'.detached == s.detached - {key}
      && s'.ctrls == s.ctrls && s'.leases == End(s.leases, s.tabs[r].lease) && s'.txn == s.txn && s'.next == s.next
  {
  }

  lemma TakeFrom(tabs: map<Ref, Tab>, get: Tab -> Option<Id>, res: map<Id, Resource>, loose: set<Id>, d: Ref, r: Ref, t: Tab)
    requires Owned(tabs, get, res, loose) && r in tabs && d in tabs && r != d && get(t) == get(tabs[d]) && t.key == tabs[d].key
    ensures Owned((tabs - {d})[r := t], get, End(res, get(tabs[r])), loose)
  {
    var (mine, taken) := (get(tabs[r]), get(tabs[d]));
    Drop(tabs, get, res, loose, d, loose + Opt(taken));
    Move(tabs - {d}, get, res, loose + Opt(taken), r, t, loose + Opt(mine));
    Ended((tabs - {d})[r := t], get, res, loose + Opt(mine), mine);
    assert loose + Opt(mine) - Opt(mine) == loose;
  }

  lemma AttachKeepsHoldings(s: State, r: Ref, d: Ref)
    requires Holdings(s) && AttachReady(s, r, d) && SameSession(s, r, d)
    ensures Holdings(AttachTo(s, r, d))
  {
    AttachMoves(s, r, d);
    TakingKeepsHoldings(s, AttachTo(s, r, d), r, d, Taken(s.tabs[r], s.tabs[d], s.tabs[r].key));
  }

  lemma TakingKeepsHoldings(s: State, s': State, r: Ref, d: Ref, u: Tab)
    requires Holdings(s) && r in s.tabs && d in s.tabs && r != d && s.tabs[r].ctrl.None? && s'.txn == s.txn
    requires u.ctrl == s.tabs[d].ctrl && u.lease == s.tabs[d].lease && u.key == s.tabs[d].key
    requires s'.tabs == (s.tabs - {d})[r := u] && s'.ctrls == s.ctrls && s'.leases == End(s.leases, s.tabs[r].lease)
    ensures Holdings(s')
  {
    TakeFrom(s.tabs, CtrlOf, s.ctrls, LooseCtrls(s.txn), d, r, u);
    TakingKeepsLeases(s, s', r, d, u);
  }

  lemma TakingKeepsLeases(s: State, s': State, r: Ref, d: Ref, u: Tab)
    requires LeasesOwned(s) && OneLeaseEach(s.leases) && r in s.tabs && d in s.tabs && r != d && s'.txn == s.txn
    requires u.lease == s.tabs[d].lease && u.key == s.tabs[d].key
    requires s'.tabs == (s.tabs - {d})[r := u] && s'.leases == End(s.leases, s.tabs[r].lease)
    ensures LeasesOwned(s') && OneLeaseEach(s'.leases)
  {
    TakeFrom(s.tabs, LeaseOf, s.leases, LooseLeases(s.txn), d, r, u);
  }

  lemma TakenFromView(s: State, s': State, r: Ref, d: Ref)
    requires Tables(s) && d in s.visible && d !in s.detached.Values && r in s.visible && r != d
    requires s'.tabs.Keys == s.tabs.Keys - {d} && s'.visible == s.visible - {d} && s'.detached == s.detached
    requires forall q :: q in s'.tabs && q != r ==> s'.tabs[q] == s.tabs[q]
    ensures Tables(s')
  {
  }

  lemma DetachedUnderItsKey(s: State, d: Ref)
    requires Tables(s) && d in s.tabs && d !in s.visible
    ensures s.tabs[d].key in s.detached && s.detached[s.tabs[d].key] == d
  {
    var k :| k in s.detached && s.detached[k] == d;
  }

  lemma AttachKeepsTables(s: State, r: Ref, d: Ref)
    requires Tables(s) && AttachReady(s, r, d) && SameSession(s, r, d) && (d in s.visible ==> s.tabs[d].key !in s.detached)
    ensures Tables(AttachTo(s, r, d))
  {
    AttachMoves(s, r, d);
    if d in s.visible {
      assert s.detached - {s.tabs[r].key} == s.detached;
      TakenFromView(s, AttachTo(s, r, d), r, d);
    } else {
      DetachedUnderItsKey(s, d);
      assert s.visible - {d} == s.visible;
      TakenFromTable(s, AttachTo(s, r, d), r, s.tabs[r].key);
    }
  }

  lemma AttachKeepsRegistry(s: State, r: Ref, d: Ref)
    requires Mapped(s) && Fresh(s) && AttachReady(s, r, d) && SameSession(s, r, d)
    ensures Mapped(AttachTo(s, r, d)) && Fresh(AttachTo(s, r, d))
  {
    AdoptMaps(s, r, d, s.tabs[r].key);
    AdoptKeepsFresh(s, r, d, s.tabs[r].key);
  }

  lemma AttachKeepsCandidate(s: State, r: Ref, d: Ref)
    requires Candidate(s) && AttachReady(s, r, d) && SameSession(s, r, d)
    ensures Candidate(AttachTo(s, r, d))
  {
    AttachMoves(s, r, d);
  }

  lemma SameSessionAttachKeepsInv(s: State, r: Ref, d: Ref)
    requires Inv(s) && AttachReady(s, r, d) && SameSession(s, r, d)
    ensures Inv(AttachTo(s, r, d))
  {
    AttachKeepsHoldings(s, r, d);
    if d in s.visible {
      VisibleIsNotDetached(s, d);
    }
    AttachKeepsTables(s, r, d);
    AttachKeepsRegistry(s, r, d);
    AttachKeepsCandidate(s, r, d);
  }

  /** What an attached tab would hold under its own name is the controller of the session the source runs. */
  lemma OtherSessionAttachBreaksInv(s: State, r: Ref, d: Ref)
    requires Inv(s) && AttachReady(s, r, d) && !SameSession(s, r, d)
    ensures !CtrlsOwned(AttachTo(s, r, d))
  {
    AttachMoves(s, r, d);
    var t := AttachTo(s, r, d).tabs[r];
    assert CtrlOf(t) == s.tabs[d].ctrl && CtrlOf(s.tabs[d]) == s.tabs[d].ctrl;
  }

  /**
   A startup that attaches keeps the invariant exactly when its source runs the session it starts. The registry can
   name another: a tab that has only reserved the session for a rebind.
   */
  lemma AttachKeepsInvExactly(s: State, r: Ref, q: Ref)
    requires Inv(s) && Attach(s, r, q) != s
    ensures AttachSource(s, r, q).Some? && (Inv(Attach(s, r, q)) <==> SameSession(s, r, AttachSource(s, r, q).value))
  {
    var d := AttachSource(s, r, q).value;
    assert AttachReady(s, r, d);
    if SameSession(s, r, d) {
      SameSessionAttachKeepsInv(s, r, d);
    } else {
      OtherSessionAttachBreaksInv(s, r, d);
    }
  }

  /** Attached startups found the session they start. */
  ghost predicate Sourced(s: State, e: Event) {
    e.EAttach? && Attach(s, e.r, e.q) != s ==> SameSession(s, e.r, AttachSource(s, e.r, e.q).GetOr(e.r))
  }

  lemma AttachKeepsInv(s: State, r: Ref, q: Ref)
    requires Inv(s) && Sourced(s, EAttach(r, q))
    ensures Inv(Attach(s, r, q))
  {
    if Attach(s, r, q) != s {
      AttachKeepsInvExactly(s, r, q);
    }
  }

  lemma BuildKeepsInv(s: State)
    requires Inv(s) && s.txn.Open? && s.txn.ctrl.None?
    ensures Inv(BuildCandidate(s))
  {
    BuildKeepsHoldings(s);
    BuildKeepsRegistered(s);
  }

  lemma LeaseKeepsInv(s: State)
    requires Inv(s) && s.txn.Open? && s.txn.ctrl.Some? && s.txn.lease.None?
    ensures Inv(AcquireLease(s))
  {
    if LeaseFree(s, s.txn.transition.target) {
      LeaseKeepsHoldings(s);
      LeaseKeepsRegistered(s);
    } else {
      AbortKeepsInv(s);
    }
  }

  lemma AbortKeepsInv(s: State)
    requires Inv(s) && s.txn.Open?
    ensures Inv(Abort(s))
  {
    AbortKeepsHoldings(s);
    AbortKeepsRegistered(s);
  }

  lemma TeardownKeepsInv(s: State)
    requires Inv(s) && s.txn.Retiring?
    ensures Inv(Teardown(s))
  {
    TeardownKeepsHoldings(s);
  }

  lemma OpenTabKeepsInv(s: State, key: Key, readOnly: bool)
    requires Inv(s)
    ensures Inv(OpenTab(s, key, readOnly))
  {
    OpenTabKeepsHoldings(s, key, readOnly);
    OpenTabKeepsRegistered(s, key, readOnly);
  }

  lemma TransactionStepKeepsInv(s: State, e: Event)
    requires Inv(s) && (e.EBuild? || e.ELease? || e.EFail? || e.ECommit? || e.ETeardown?)
    ensures Inv(Step(s, e))
  {
    if Step(s, e) != s {
      match e
      case EBuild => BuildKeepsInv(s);
      case ELease => LeaseKeepsInv(s);
      case EFail => AbortKeepsInv(s);
      case ECommit => CommitKeepsInv(s);
      case ETeardown => TeardownKeepsInv(s);
    }
  }

  lemma StepKeepsInv(s: State, e: Event)
    requires Inv(s) && Sourced(s, e)
    ensures Inv(Step(s, e))
  {
    match e
    case EStart(r, target, active, saved) => StartKeepsInv(s, r, target, active, saved);
    case EOpenTab(key, readOnly) => OpenTabKeepsInv(s, key, readOnly);
    case EClaim(r) => ClaimKeepsInv(s, r);
    case EAttach(r, q) => AttachKeepsInv(s, r, q);
    case EPublish(r) => PublishKeepsInv(s, r);
    case EClose(r, active) => CloseKeepsInv(s, r, active);
    case EDiscard(key) => DiscardKeepsInv(s, key);
    case _ => TransactionStepKeepsInv(s, e);
  }

  ghost predicate AllSourced(s: State, events: seq<Event>)
    decreases events
  {
    events == [] || (Sourced(s, events[0]) && AllSourced(Step(s, events[0]), events[1..]))
  }

  /** Over any interleaving of a rebind's steps with startups and closings, no session is held twice. */
  lemma {:induction false} EveryRunIsExclusive(s: State, events: seq<Event>)
    requires Inv(s) && AllSourced(s, events)
    ensures Inv(Run(s, events)) && Exclusive(Run(s, events))
    decreases events
  {
    InvIsExclusive(s);
    if events != [] {
      StepKeepsInv(s, events[0]);
      EveryRunIsExclusive(Step(s, events[0]), events[1..]);
    }
  }

  /** In particular in every run of an application that starts without tabs. */
  lemma RunsFromStartAreExclusive(events: seq<Event>)
    requires AllSourced(INITIAL, events)
    ensures Inv(Run(INITIAL, events)) && Exclusive(Run(INITIAL, events))
  {
    EveryRunIsExclusive(INITIAL, events);
  }

  /** A run without attaching startups needs no condition. */
  lemma {:induction false} WithoutAttachesSourced(s: State, events: seq<Event>)
    requires forall i :: 0 <= i < |events| ==> !events[i].EAttach?
    ensures AllSourced(s, events)
    decreases events
  {
    if events != [] {
      WithoutAttachesSourced(Step(s, events[0]), events[1..]);
    }
  }

  /** A rebind has reserved key for the tab q, which still runs a ready session under another key. */
  ghost predicate ReservedByOther(s: State, r: Ref, q: Ref) {
    && r in s.tabs && q in s.tabs && r in s.visible && r != q && s.tabs[r].ctrl.None? && s.tabs[r].key != ""
    && s.tabs[r].key !in s.detached && s.tabs[q].key != s.tabs[r].key && s.tabs[q].ctrl.Some?
    && s.tabs[r].key in s.byKey && s.byKey[s.tabs[r].key] in s.runtimes && s.runtimes[s.byKey[s.tabs[r].key]].owner == q
    && s.tabs[q].runtime == Some(s.byKey[s.tabs[r].key]) && s.runtimes[s.byKey[s.tabs[r].key]].ready
  }

  /** The tab q is gone, and r holds its controller, one of session, under key. */
  ghost predicate TakenUnder(t: State, r: Ref, q: Ref, key: Key, session: Key) {
    q !in t.tabs && r in t.tabs && t.tabs[r].key == key && KeyOf(t.ctrls, t.tabs[r].ctrl) == session && !CtrlsOwned(t)
  }

  lemma ReservationIsAttached(s: State, r: Ref, q: Ref)
    requires Inv(s) && ReservedByOther(s, r, q)
    ensures Attach(s, r, q) == AttachTo(s, r, q) && TakenUnder(Attach(s, r, q), r, q, s.tabs[r].key, s.tabs[q].key)
  {
    assert AttachReady(s, r, q);
    AttachMoves(s, r, q);
    OtherSessionAttachBreaksInv(s, r, q);
  }

  lemma {:induction false} RunAppend(s: State, events: seq<Event>, e: Event)
    ensures Run(s, events + [e]) == Step(Run(s, events), e)
    decreases events
  {
    if events == [] {
      assert [e][1..] == [];
    } else {
      assert (events + [e])[1..] == events[1..] + [e];
      RunAppend(Step(s, events[0]), events[1..], e);
    }
  }

  /** One tab that runs session a, as it is once its startup has published. */
  function Running(a: Key): State {
    State(map[0 := Tab(a, Some(4), Some(3), Some(1), Some(2), true, false, true)], {0}, map[],
          map[2 := Runtime(a, 0, 5, true)], map[a := 2], map[4 := Resource(a, 0)], map[3 := Resource(a, 0)], Quiet, 6)
  }

  lemma StartupRuns(a: Key)
    requires a != ""
    ensures Publish(Claim(OpenTab(INITIAL, a, false), 0), 0) == Running(a)
  {
    var s1 := OpenTab(INITIAL, a, false);
    assert s1 == State(map[0 := Tab(a, None, None, Some(1), None, false, false, false)], {0}, map[], map[], map[], map[], map[], Quiet, 2);
    var s2 := Claim(s1, 0);
    assert s2 == State(map[0 := Tab(a, None, Some(3), Some(1), Some(2), true, false, false)], {0}, map[],
                       map[2 := Runtime(a, 0, 2, false)], map[a := 2], map[], map[3 := Resource(a, 0)], Quiet, 4);
    var s3 := Publish(s2, 0);
    assert s3.tabs == Running(a).tabs && s3.runtimes == Running(a).runtimes && s3.byKey == Running(a).byKey;
    assert s3.ctrls == Running(a).ctrls;
  }

  /** The second tab is open for k, and the first has begun a rebind to k. */
  function Reserving(a: Key, k: Key): State { Start(OpenTab(Running(a), k, false), 0, k, false, true) }

  lemma ReservingIsReserved(a: Key, k: Key)
    requires a != "" && k != "" && a != k
    ensures ReservedByOther(Reserving(a, k), 6, 0)
    ensures Reserving(a, k).ctrls == Running(a).ctrls && Reserving(a, k).tabs[0].ctrl == Some(4) && Reserving(a, k).tabs[0].key == a
    ensures Reserving(a, k).tabs[6].key == k
  {
    var s4 := OpenTab(Running(a), k, false);
    assert s4.tabs == Running(a).tabs[6 := Tab(k, None, None, Some(7), None, false, false, false)] && s4.visible == {0, 6};
    assert Unclaim(s4, 0) == s4;
    var s5 := Reserve(s4, 0, k, false);
    assert s5.tabs == s4.tabs && s5.byKey == map[a := 2][k := 2];
  }

  function Opening(a: Key, k: Key): seq<Event> {
    [] + [EOpenTab(a, false)] + [EClaim(0)] + [EPublish(0)] + [EOpenTab(k, false)] + [EStart(0, k, false, true)]
  }

  lemma RunOfFive(s: State, a: Event, b: Event, c: Event, d: Event, e: Event)
    ensures Run(s, [] + [a] + [b] + [c] + [d] + [e]) == Step(Step(Step(Step(Step(s, a), b), c), d), e)
  {
    RunAppend(s, [], a);
    RunAppend(s, [] + [a], b);
    RunAppend(s, [] + [a] + [b], c);
    RunAppend(s, [] + [a] + [b] + [c], d);
    RunAppend(s, [] + [a] + [b] + [c] + [d], e);
  }

  lemma OpeningSteps(s: State, a: Key, k: Key)
    ensures Run(s, Opening(a, k)) == Start(OpenTab(Publish(Claim(OpenTab(s, a, false), 0), 0), k, false), 0, k, false, true)
  {
    RunOfFive(s, EOpenTab(a, false), EClaim(0), EPublish(0), EOpenTab(k, false), EStart(0, k, false, true));
  }

  lemma OpeningRuns(a: Key, k: Key)
    requires a != ""
    ensures Run(INITIAL, Opening(a, k)) == Reserving(a, k)
  {
    OpeningSteps(INITIAL, a, k);
    StartupRuns(a);
  }

  lemma OpeningKeepsInv(a: Key, k: Key, s: State)
    requires s == Run(INITIAL, Opening(a, k))
    ensures Inv(s)
  {
    WithoutAttachesSourced(INITIAL, Opening(a, k));
    EveryRunIsExclusive(INITIAL, Opening(a, k));
  }

  lemma RunThenAttach(s0: State, events: seq<Event>, s: State, r: Ref, q: Ref)
    requires Run(s0, events) == s
    ensures Run(s0, events + [EAttach(r, q)]) == Attach(s, r, q)
  {
    RunAppend(s0, events, EAttach(r, q));
  }

  /**
   Such a run from the start: one tab runs session a, another is opened for session k, the first begins a rebind to
   k, and the second's startup finds the reservation and takes the first tab's controller of a under the name k.
   */
  lemma StartupTakesReservingTab(a: Key, k: Key)
    requires a != "" && k != "" && a != k
    ensures TakenUnder(Run(INITIAL, Opening(a, k) + [EAttach(6, 0)]), 6, 0, k, a)
  {
    OpeningRuns(a, k);
    OpeningKeepsInv(a, k, Reserving(a, k));
    ReservingIsReserved(a, k);
    ReservationIsAttached(Reserving(a, k), 6, 0);
    RunThenAttach(INITIAL, Opening(a, k), Reserving(a, k), 6, 0);
  }

  // ---- What one rebind does ----

  /** Nothing the old state knows changes: tabs keep their holdings, resources stay live or ended as they were. */
  ghost predicate Untouched(s: State, s': State) {
    && s'.visible == s.visible && s'.detached == s.detached && s'.tabs.Keys == s.tabs.Keys
    && (forall r :: r in s.tabs ==> s'.tabs[r] == s.tabs[r].(runtime := s'.tabs[r].runtime, claimed := s'.tabs[r].claimed))
    && Extends(s.ctrls, s'.ctrls) && Extends(s.leases, s'.leases)
  }

  /** Old resources are as they were, and whatever was made since has been ended exactly once. */
  ghost predicate Extends(res: map<Id, Resource>, res': map<Id, Resource>) {
    && (forall c :: c in res ==> c in res' && res'[c] == res[c])
    && (forall c :: c in res' && c !in res ==> res'[c].ended == 1)
  }

  /** What the candidate adds while it is being built. */
  ghost predicate Building(s: State, s': State) {
    && s'.txn.Open? && s'.visible == s.visible && s'.detached == s.detached && s'.tabs.Keys == s.tabs.Keys
    && (forall r :: r in s.tabs ==> s'.tabs[r] == s.tabs[r].(runtime := s'.tabs[r].runtime, claimed := s'.tabs[r].claimed))
    && (forall c :: c in s.ctrls ==> c in s'.ctrls && s'.ctrls[c] == s.ctrls[c] && Some(c) != s'.txn.ctrl)
    && (forall c :: c in s'.ctrls && c !in s.ctrls ==> Some(c) == s'.txn.ctrl)
    && (forall l :: l in s.leases ==> l in s'.leases && s'.leases[l] == s.leases[l] && Some(l) != s'.txn.lease)
    && (forall l :: l in s'.leases && l !in s.leases ==> Some(l) == s'.txn.lease)
  }

  lemma AbortRestores(s: State, s': State)
    requires Building(s, s') && Holdings(s')
    ensures Untouched(s, Abort(s'))
  {
  }

  lemma ReserveBuilds(s: State, r: Ref, target: Key, active: bool)
    requires Registered(s) && s.txn.Quiet? && r in s.tabs && target != "" && s.tabs[r].key != target && !TakenByOther(s, r, target)
    ensures Building(s, Reserve(s, r, target, active))
    ensures
      var txn := Reserve(s, r, target, active).txn;
      && txn.Open? && txn.ctrl.None? && txn.lease.None?
      && txn.transition.tab == r && txn.transition.target == target && txn.transition.active == (active && s.tabs[r].ctrl.Some?)
  {
    ReserveKeepsRegistered(s, r, target, active);
  }

  lemma BuildBuilds(s: State, s': State)
    requires Building(s, s') && Fresh(s') && s'.txn.ctrl.None?
    ensures Building(s, BuildCandidate(s'))
  {
  }

  lemma LeaseBuilds(s: State, s': State)
    requires Building(s, s') && Fresh(s') && s'.txn.lease.None? && LeaseFree(s', s'.txn.transition.target)
    ensures Building(s, AcquireLease(s'))
  {
  }

  /** The tab runs target, under a live controller of that session. */
  ghost predicate Runs(s: State, r: Ref, target: Key) {
    && r in s.visible && r in s.tabs && s.tabs[r].key == target && s.tabs[r].ctrl.Some?
    && s.tabs[r].ctrl.value in s.ctrls && s.ctrls[s.tabs[r].ctrl.value] == Resource(target, 0)
  }

  ghost predicate Kept(res: map<Id, Resource>, res': map<Id, Resource>) {
    forall c :: c in res ==> c in res' && res'[c] == res[c]
  }

  /** The source lives on in the detached table with controller, lease and sink. */
  ghost predicate MovedAside(s: State, s': State, t: Tab) {
    && t.key in s'.detached && s'.detached[t.key] in s'.tabs
    && SameRuntime(t, s'.tabs[s'.detached[t.key]])
    && Kept(s.ctrls, s'.ctrls) && Kept(s.leases, s'.leases)
  }

  predicate SameRuntime(t: Tab, q: Tab) {
    q.key == t.key && q.ctrl == t.ctrl && q.lease == t.lease && q.sink == t.sink && q.ready == t.ready
  }

  ghost predicate EndedOnly(res: map<Id, Resource>, res': map<Id, Resource>, id: Option<Id>) {
    forall c :: c in res ==> c in res' && res'[c].ended == res[c].ended + (if id == Some(c) then 1 else 0)
  }

  /** The source's controller was closed and its lease released, each exactly once, and nothing else was. */
  ghost predicate TornDown(s: State, s': State, t: Tab) {
    s'.detached.Keys <= s.detached.Keys && EndedOnly(s.ctrls, s'.ctrls, t.ctrl) && EndedOnly(s.leases, s'.leases, t.lease)
  }

  ghost predicate OthersKept(s: State, s': State, r: Ref, target: Key) {
    forall q :: q in s.tabs && q != r && !(target in s.detached && q == s.detached[target]) ==> q in s'.tabs && s'.tabs[q] == s.tabs[q]
  }

  ghost predicate Switched(s: State, s': State, r: Ref, target: Key, aside: bool)
    requires r in s.tabs
  {
    && Runs(s', r, target) && OthersKept(s, s', r, target) && s'.visible == s.visible
    && (if aside then MovedAside(s, s', s.tabs[r]) else TornDown(s, s', s.tabs[r]))
  }

  ghost predicate Outcome(s: State, s': State, ok: bool, r: Ref, target: Key, aside: bool)
    requires r in s.tabs
  {
    if ok then Switched(s, s', r, target, aside) else Untouched(s, s')
  }

  lemma CommitOverMoves(s: State)
    requires s.txn.Open? && Publishable(s)
    ensures
      var r := s.txn.transition.tab;
      var s' := Teardown(CommitOver(s));
      && s'.tabs == s.tabs[r := Install(s.tabs[r], s.txn, s.txn.transition.target)]
      && s'.visible == s.visible && s'.detached == s.detached
      && s'.ctrls == End(s.ctrls, s.tabs[r].ctrl) && s'.leases == End(s.leases, s.tabs[r].lease)
  {
  }

  lemma EndsOnly(res: map<Id, Resource>, res': map<Id, Resource>, id: Option<Id>)
    requires Kept(res, res') && (id.Some? ==> id.value in res)
    ensures EndedOnly(res, End(res', id), id)
  {
  }

  /** The candidate of a rebind, complete and admitted, over the state the rebind started from. */
  ghost predicate Admitted(s: State, s': State, r: Ref, target: Key) {
    && Building(s, s') && s'.txn.ctrl.Some? && s'.txn.lease.Some? && Candidate(s') && Publishable(s')
    && s'.txn.transition.tab == r && s'.txn.transition.target == target && r in s.tabs
    && s'.txn.ctrl.value in s'.ctrls && s'.ctrls[s'.txn.ctrl.value] == Resource(target, 0)
    && forall q :: q in s.tabs && q != r ==> s'.tabs[q] == s.tabs[q]
  }

  lemma CommitOverSwitches(s: State, s': State, r: Ref, target: Key)
    requires Admitted(s, s', r, target) && Fresh(s)
    requires s.tabs[r].ctrl.Some? ==> s.tabs[r].ctrl.value in s.ctrls
    requires s.tabs[r].lease.Some? ==> s.tabs[r].lease.value in s.leases
    ensures Switched(s, Teardown(CommitOver(s')), r, target, false)
  {
    CommitOverMoves(s');
    assert s'.tabs[r].ctrl == s.tabs[r].ctrl && s'.tabs[r].lease == s.tabs[r].lease;
    EndsOnly(s.ctrls, s'.ctrls, s.tabs[r].ctrl);
    EndsOnly(s.leases, s'.leases, s.tabs[r].lease);
    assert Teardown(CommitOver(s')).ctrls[s'.txn.ctrl.value] == Resource(target, 0);
  }

  lemma CommitBesideSwitches(s: State, s': State, r: Ref, target: Key)
    requires Admitted(s, s', r, target) && Fresh(s') && CurrentKey(s', s'.tabs[r]) == s'.tabs[r].key
    ensures Switched(s, Teardown(CommitBeside(s')), r, target, true)
  {
    CommitBesideMoves(s');
    var s2 := CommitBeside(s');
    assert SameRuntime(s.tabs[r], s2.tabs[s'.next]);
    assert s2.detached[s.tabs[r].key] == s'.next;
  }

  /** A candidate under way over the state the rebind started from, all of it in order. */
  ghost predicate UnderWay(s: State, s': State, r: Ref, target: Key) {
    && Inv(s') && Building(s, s') && s'.txn.transition.tab == r && s'.txn.transition.target == target && r in s.tabs
    && forall q :: q in s.tabs && q != r ==> s'.tabs[q] == s.tabs[q]
  }

  lemma BuildStaysUnderWay(s: State, s': State, r: Ref, target: Key)
    requires UnderWay(s, s', r, target) && s'.txn.ctrl.None?
    ensures UnderWay(s, BuildCandidate(s'), r, target)
  {
    BuildBuilds(s, s');
    BuildKeepsHoldings(s');
    BuildKeepsRegistered(s');
  }

  lemma LeaseStaysUnderWay(s: State, s': State, r: Ref, target: Key)
    requires UnderWay(s, s', r, target) && s'.txn.lease.None? && LeaseFree(s', target)
    ensures UnderWay(s, AcquireLease(s'), r, target)
  {
    LeaseBuilds(s, s');
    LeaseKeepsHoldings(s');
    LeaseKeepsRegistered(s');
  }

  lemma FinishIsAtomic(s: State, s1: State, r: Ref, target: Key, w: World)
    requires Inv(s) && UnderWay(s, s1, r, target) && s1.txn.ctrl.None? && s1.txn.lease.None?
    ensures
      var (s', ok) := Finish(s1, w);
      Outcome(s, s', ok, r, target, s1.txn.transition.active)
  {
    if !w.built {
      AbortRestores(s, s1);
    } else {
      var s2 := BuildCandidate(s1);
      BuildStaysUnderWay(s, s1, r, target);
      FinishBuilt(s, s2, r, target, w);
    }
  }

  lemma FinishBuilt(s: State, s2: State, r: Ref, target: Key, w: World)
    requires Inv(s) && UnderWay(s, s2, r, target) && s2.txn.ctrl.Some? && s2.txn.lease.None?
    ensures Untouched(s, Abort(s2))
    ensures w.leased && !AcquireLease(s2).txn.Open? ==> AcquireLease(s2) == Abort(s2)
    ensures AcquireLease(s2).txn.Open? ==>
      && AcquireLease(s2).txn.transition == s2.txn.transition
      && Untouched(s, Abort(AcquireLease(s2)))
      && (if Commit(AcquireLease(s2)).txn.Retiring?
          then Switched(s, Teardown(Commit(AcquireLease(s2))), r, target, s2.txn.transition.active)
          else Untouched(s, Commit(AcquireLease(s2))))
  {
    AbortRestores(s, s2);
    if LeaseFree(s2, target) {
      var s3 := AcquireLease(s2);
      LeaseStaysUnderWay(s, s2, r, target);
      AbortRestores(s, s3);
      if Publishable(s3) {
        AdmittedSwitches(s, s3, r, target);
      }
    }
  }

  lemma AdmittedSwitches(s: State, s3: State, r: Ref, target: Key)
    requires Inv(s) && UnderWay(s, s3, r, target) && Publishable(s3) && s3.txn.ctrl.Some? && s3.txn.lease.Some?
    ensures Commit(s3).txn.Retiring? && Switched(s, Teardown(Commit(s3)), r, target, s3.txn.transition.active)
  {
    KeysAgree(s3, r);
    if s3.txn.transition.active {
      assert s3.tabs[r].key != "";
      CommitBesideSwitches(s, s3, r, target);
    } else {
      CommitOverSwitches(s, s3, r, target);
    }
  }

  lemma OverSwitches(s: State, s': State, r: Ref, target: Key, d: Ref, u: Tab)
    requires r in s.tabs && r in s.visible && target in s.detached && d == s.detached[target] && s'.visible == s.visible
    requires s'.tabs == (s.tabs - {d})[r := u] && s'.detached == s.detached - {target}
    requires EndedOnly(s.ctrls, s'.ctrls, s.tabs[r].ctrl) && EndedOnly(s.leases, s'.leases, s.tabs[r].lease)
    requires u.key == target && u.ctrl.Some? && u.ctrl.value in s'.ctrls && s'.ctrls[u.ctrl.value] == Resource(target, 0)
    ensures Switched(s, s', r, target, false)
  {
  }

  lemma BesideSwitches(s: State, s': State, r: Ref, target: Key, d: Ref, u: Tab)
    requires r in s.tabs && r in s.visible && target in s.detached && d == s.detached[target] && s'.visible == s.visible
    requires s.next !in s.tabs && s.tabs[r].key != target
    requires s'.tabs == (s.tabs - {d})[r := u][s.next := s.tabs[r]] && s'.detached == s.detached[s.tabs[r].key := s.next] - {target}
    requires s'.ctrls == s.ctrls && s'.leases == s.leases
    requires u.key == target && u.ctrl.Some? && u.ctrl.value in s'.ctrls && s'.ctrls[u.ctrl.value] == Resource(target, 0)
    ensures Switched(s, s', r, target, true)
  {
    assert s'.detached[s.tabs[r].key] == s.next;
    assert s'.tabs[s.next] == s.tabs[r];
  }

  lemma ReattachOverSwitches(s: State, r: Ref, target: Key)
    requires Inv(s) && s.txn.Quiet? && ReattachReady(s, r, target) && Reattachable(s, target)
    ensures Switched(s, Teardown(Apply(s, r, target).(txn := Retiring(s.tabs[r].ctrl, s.tabs[r].lease))), r, target, false)
  {
    var d := s.detached[target];
    var s' := Teardown(Apply(s, r, target).(txn := Retiring(s.tabs[r].ctrl, s.tabs[r].lease)));
    ReattachOverMoves(s, r, target);
    HeldOnly(s, r, d);
    OverSwitches(s, s', r, target, d, Taken(s.tabs[r], s.tabs[d], target));
  }

  /** Ending what one tab holds leaves what another holds live. */
  lemma HeldOnly(s: State, r: Ref, d: Ref)
    requires Inv(s) && r in s.tabs && d in s.tabs && r != d && s.tabs[d].ctrl.Some?
    ensures EndedOnly(s.ctrls, End(s.ctrls, s.tabs[r].ctrl), s.tabs[r].ctrl)
    ensures EndedOnly(s.leases, End(s.leases, s.tabs[r].lease), s.tabs[r].lease)
    ensures
      var c := s.tabs[d].ctrl.value;
      c in s.ctrls && s.ctrls[c] == Resource(s.tabs[d].key, 0) == End(s.ctrls, s.tabs[r].ctrl)[c]
  {
  }

  lemma ReattachBesideSwitches(s: State, r: Ref, target: Key)
    requires Inv(s) && s.txn.Quiet? && BesideReady(s, r, target) && s.tabs[r].ctrl.Some?
    ensures
      var s2 := Detached(s, r);
      && target in s2.detached && s2.detached[target] in s2.tabs && r in s2.tabs
      && Switched(s, Teardown(Apply(s2, r, target).(txn := Retiring(None, None))), r, target, true)
  {
    var d := s.detached[target];
    ReattachBesideMoves(s, r, target);
    HeldOnly(s, r, d);
    BesideSwitches(s, Teardown(Apply(Detached(s, r), r, target).(txn := Retiring(None, None))), r, target, d,
                   Taken(s.tabs[r], s.tabs[d], target));
  }

  lemma ReattachIsAtomic(s: State, r: Ref, target: Key, active: bool)
    requires Inv(s) && s.txn.Quiet? && r in s.tabs && r in s.visible && target != "" && s.tabs[r].key != target && HasDetached(s, target)
    ensures
      var s1 := Reattach(s, r, target, active);
      Outcome(s, if s1.txn.Retiring? then Teardown(s1) else s1, s1.txn.Retiring?, r, target, active && s.tabs[r].ctrl.Some?)
  {
    if Reattachable(s, target) {
      KeysAgree(s, r);
      if active && s.tabs[r].ctrl.Some? {
        DetachMoves(s, r);
        ReattachBesideSwitches(s, r, target);
      } else {
        ReattachOverSwitches(s, r, target);
      }
    }
  }

  lemma ReserveGetsUnderWay(s: State, r: Ref, target: Key, active: bool)
    requires Inv(s) && s.txn.Quiet? && r in s.tabs && target != "" && s.tabs[r].key != target && !TakenByOther(s, r, target)
    ensures UnderWay(s, Reserve(s, r, target, active), r, target)
  {
    ReserveBuilds(s, r, target, active);
    ReserveKeepsInv(s, r, target, active);
  }

  lemma AfterUnclaim(s: State, s': State, ok: bool, r: Ref, target: Key, aside: bool)
    requires r in s.tabs && Outcome(Unclaim(s, r), s', ok, r, target, aside)
    ensures Outcome(s, s', ok, r, target, aside)
  {
    if ok {
      SwitchedAfterUnclaim(s, s', r, target, aside);
    }
  }

  lemma SwitchedAfterUnclaim(s: State, s': State, r: Ref, target: Key, aside: bool)
    requires r in s.tabs && Switched(Unclaim(s, r), s', r, target, aside)
    ensures Switched(s, s', r, target, aside)
  {
    assert OthersKept(s, s', r, target);
    assert if aside then MovedAside(s, s', s.tabs[r]) else TornDown(s, s', s.tabs[r]);
  }

  /** The rebind of a tab that is not already on the target, once its build is superseded. */
  function Proceed(s: State, r: Ref, target: Key, w: World): (State, bool)
    requires r in s.tabs && s.txn.Quiet?
  {
    if s.tabs[r].ctrl.Some? && !w.saved then (s, false)
    else if HasDetached(s, target) then
      var s1 := Reattach(s, r, target, w.active);
      if s1.txn.Retiring? then (Teardown(s1), true) else (s1, false)
    else
      var s1 := Reserve(s, r, target, w.active);
      if s1.txn.Open? then Finish(s1, w) else (s1, false)
  }

  lemma RebindProceeds(s: State, r: Ref, target: Key, w: World)
    requires s.txn.Quiet? && r in s.tabs && r in s.visible && target != "" && ShownKey(s, s.tabs[r]) != target
    ensures Rebind(s, r, target, w) == Proceed(Unclaim(s, r), r, target, w)
  {
  }

  lemma ReserveIsAtomic(s: State, r: Ref, target: Key, w: World)
    requires Inv(s) && s.txn.Quiet? && r in s.tabs && target != "" && s.tabs[r].key != target && !TakenByOther(s, r, target)
    ensures
      var s1 := Reserve(s, r, target, w.active);
      && s1.txn.Open?
      && var (s', ok) := Finish(s1, w);
         Outcome(s, s', ok, r, target, w.active && s.tabs[r].ctrl.Some?)
  {
    ReserveGetsUnderWay(s, r, target, w.active);
    ReserveBuilds(s, r, target, w.active);
    FinishIsAtomic(s, Reserve(s, r, target, w.active), r, target, w);
  }

  lemma UnsavedIsUntouched(s: State, r: Ref, target: Key, w: World)
    requires r in s.tabs && s.txn.Quiet? && s.tabs[r].ctrl.Some? && !w.saved
    ensures Proceed(s, r, target, w) == (s, false) && Untouched(s, s)
  {
  }

  lemma TakenIsUntouched(s: State, r: Ref, target: Key, w: World)
    requires r in s.tabs && s.txn.Quiet? && (s.tabs[r].ctrl.Some? ==> w.saved) && !HasDetached(s, target) && TakenByOther(s, r, target)
    ensures Proceed(s, r, target, w) == (s, false) && Untouched(s, s)
  {
  }

  lemma ProceedIsAtomic(s: State, r: Ref, target: Key, w: World)
    requires Inv(s) && s.txn.Quiet? && r in s.tabs && r in s.visible && target != "" && s.tabs[r].key != target
    ensures
      var (s', ok) := Proceed(s, r, target, w);
      Outcome(s, s', ok, r, target, w.active && s.tabs[r].ctrl.Some?)
  {
    if s.tabs[r].ctrl.Some? && !w.saved {
      UnsavedIsUntouched(s, r, target, w);
    } else if HasDetached(s, target) {
      ReattachIsAtomic(s, r, target, w.active);
    } else if TakenByOther(s, r, target) {
      TakenIsUntouched(s, r, target, w);
    } else {
      ReserveIsAtomic(s, r, target, w);
    }
  }

  lemma OtherSessionIsAtomic(s: State, r: Ref, target: Key, w: World)
    requires Inv(s) && s.txn.Quiet? && r in s.tabs && r in s.visible && target != "" && s.tabs[r].key != target
    ensures
      var (s', ok) := Proceed(Unclaim(s, r), r, target, w);
      Outcome(s, s', ok, r, target, w.active && s.tabs[r].ctrl.Some?)
  {
    UnclaimKeepsInv(s, r);
    ProceedIsAtomic(Unclaim(s, r), r, target, w);
    AfterUnclaim(s, Proceed(Unclaim(s, r), r, target, w).0, Proceed(Unclaim(s, r), r, target, w).1, r, target, w.active && s.tabs[r].ctrl.Some?);
  }

  lemma RefusedRebind(s: State, r: Ref, target: Key, w: World)
    requires s.txn.Quiet? && !(r in s.tabs && r in s.visible && target != "")
    ensures Rebind(s, r, target, w) == (s, false)
  {
  }

  /**
   A rebind is all or nothing. On an error every tab keeps its controller, lease and sink, and all the candidate
   acquired has ended exactly once; on success the tab runs the target while its source lives on whole in the
   detached table, if it had work, and otherwise was closed and released exactly once.
   */
  lemma RebindIsAtomic(s: State, r: Ref, target: Key, w: World)
    requires Inv(s) && s.txn.Quiet?
    ensures Atomic(s, r, target, w, Rebind(s, r, target, w).0, Rebind(s, r, target, w).1)
  {
    if r in s.tabs && r in s.visible && target != "" {
      KeysAgree(s, r);
      if s.tabs[r].key != target {
        OtherSessionIsAtomic(s, r, target, w);
        RebindProceeds(s, r, target, w);
      }
    } else {
      RefusedRebind(s, r, target, w);
    }
  }

  ghost predicate Atomic(s: State, r: Ref, target: Key, w: World, s': State, ok: bool) {
    if r !in s.tabs || r !in s.visible || target == "" then !ok && s' == s
    else if s.tabs[r].key == target then ok && s' == s
    else Outcome(s, s', ok, r, target, w.active && s.tabs[r].ctrl.Some?)
  }

  // ---- The registry names live tabs ----

  /** Every session on record is recorded for a runtime that some tab, visible or detached, goes by. */
  ghost predicate Recorded(s: State) {
    forall k :: k in s.byKey ==>
      && s.byKey[k] in s.runtimes && s.runtimes[s.byKey[k]].owner in s.tabs
      && s.tabs[s.runtimes[s.byKey[k]].owner].runtime == Some(s.byKey[k])
  }

  lemma NewRuntimeKeepsRecord(s: State, r: Ref, key: Key)
    requires Recorded(s) && r in s.tabs && !OwnsRuntime(s, r) && (forall rt :: rt in s.runtimes ==> rt < s.next)
    ensures Recorded(NewRuntime(s, r, key))
  {
  }

  lemma BindKeepsRecord(s: State, r: Ref, key: Key)
    requires Recorded(s) && r in s.tabs && Fresh(s)
    ensures Recorded(Bind(s, r, key))
  {
    if !OwnsRuntime(s, r) {
      NewRuntimeKeepsRecord(s, r, key);
    }
  }

  lemma ReleaseKeepsRecord(s: State, r: Ref)
    requires Recorded(s) && r in s.tabs
    ensures Recorded(ReleaseRuntime(s, r))
    ensures forall k :: k in ReleaseRuntime(s, r).byKey ==> s.runtimes[s.byKey[k]].owner != r
  {
  }

  lemma ReserveKeepsRecord(s: State, r: Ref, target: Key, active: bool)
    requires Recorded(s) && Fresh(s) && r in s.tabs
    ensures Recorded(Reserve(s, r, target, active))
  {
    if !OwnsRuntime(s, r) {
      NewRuntimeKeepsRecord(s, r, CurrentKey(s, s.tabs[r]));
    }
  }

  lemma DetachKeepsRecord(s: State, r: Ref)
    requires Recorded(s) && Fresh(s) && r in s.tabs
    ensures Recorded(Detach(s, r)) && r in Detach(s, r).tabs && !OwnsRuntime(Detach(s, r), r)
  {
  }

  lemma CommitOverKeepsRecord(s: State)
    requires s.txn.Open? && Publishable(s) && Recorded(s)
    ensures Recorded(CommitOver(s))
  {
  }

  lemma CommitBesideKeepsRecord(s: State)
    requires s.txn.Open? && Publishable(s) && Recorded(s) && Fresh(s)
    ensures Recorded(CommitBeside(s))
  {
    DetachKeepsRecord(s, s.txn.transition.tab);
  }

  lemma TakeOverKeepsRecord(s: State, r: Ref, d: Ref, target: Key, rt: Id)
    requires Recorded(s) && r in s.tabs && d in s.tabs && r != d
    requires forall k :: k in s.byKey && s.runtimes[s.byKey[k]].owner in {r, d} ==> s.byKey[k] == rt
    ensures Recorded(TakeOver(s, r, d, target, rt))
  {
  }

  lemma HandoverKeepsRecord(s: State, r: Ref, d: Ref, target: Key)
    requires Recorded(s) && Fresh(s) && r in s.tabs && d in s.tabs && r != d
    ensures
      var (s1, rt) := Handover(s, r, d, target);
      && Recorded(s1) && r in s1.tabs && d in s1.tabs
      && (forall k :: k in s1.byKey && s1.runtimes[s1.byKey[k]].owner in {r, d} ==> s1.byKey[k] == rt)
  {
    if OwnsRuntime(s, d) {
      ReleaseKeepsRecord(s, r);
    } else if !OwnsRuntime(s, r) {
      NewRuntimeKeepsRecord(s, d, target);
    }
  }

  lemma AdoptKeepsRecord(s: State, r: Ref, d: Ref, target: Key)
    requires Recorded(s) && Fresh(s) && r in s.tabs && d in s.tabs && r != d
    ensures Recorded(Adopt(s, r, d, target))
  {
    HandoverKeepsRecord(s, r, d, target);
    var (s1, rt) := Handover(s, r, d, target);
    TakeOverKeepsRecord(s1, r, d, target, rt);
  }

  lemma AbortKeepsRecord(s: State)
    requires s.txn.Open? && Recorded(s)
    ensures Recorded(Abort(s))
  {
  }

  lemma ReattachKeepsRecord(s: State, r: Ref, target: Key, active: bool)
    requires Recorded(s) && Fresh(s) && Tables(s) && r in s.tabs && r in s.visible
    ensures Recorded(Reattach(s, r, target, active))
  {
    var t := s.tabs[r];
    if Reattachable(s, target) {
      var d := s.detached[target];
      if !(active && t.ctrl.Some?) {
        AdoptKeepsRecord(s, r, d, target);
      } else if CurrentKey(s, t) != "" && CurrentKey(s, t) != target {
        DetachKeepsRecord(s, r);
        DetachKeepsFresh(s, r);
        AdoptKeepsRecord(Detach(s, r), r, d, target);
      }
    }
  }

  lemma DetachKeepsFresh(s: State, r: Ref)
    requires Fresh(s) && r in s.tabs
    ensures Fresh(Detach(s, r))
  {
  }

  lemma UnclaimKeepsRecord(s: State, r: Ref)
    requires Recorded(s) && Fresh(s) && Tables(s) && r in s.tabs
    ensures Recorded(Unclaim(s, r)) && Fresh(Unclaim(s, r)) && Tables(Unclaim(s, r))
  {
  }

  lemma StartKeepsRecord(s: State, r: Ref, target: Key, active: bool, saved: bool)
    requires Inv(s) && Recorded(s)
    ensures Recorded(Start(s, r, target, active, saved))
  {
    if r in s.tabs && r in s.visible {
      UnclaimKeepsRecord(s, r);
      ReattachKeepsRecord(Unclaim(s, r), r, target, active);
      ReserveKeepsRecord(Unclaim(s, r), r, target, active);
    }
  }

  lemma CommitKeepsRecord(s: State)
    requires Inv(s) && Recorded(s) && s.txn.Open?
    ensures Recorded(Commit(s))
  {
    if !Publishable(s) {
      AbortKeepsRecord(s);
    } else if !s.txn.transition.active {
      CommitOverKeepsRecord(s);
    } else if CurrentKey(s, s.tabs[s.txn.transition.tab]) == "" {
      AbortKeepsRecord(s);
    } else {
      CommitBesideKeepsRecord(s);
    }
  }

  lemma FinishClaimKeepsRecord(s: State, r: Ref)
    requires Recorded(s) && r in s.tabs
    ensures Recorded(FinishClaim(s, r))
  {
  }

  lemma ClaimKeepsRecord(s: State, r: Ref)
    requires Inv(s) && Recorded(s)
    ensures Recorded(Claim(s, r))
  {
    if r in s.tabs {
      BindKeepsRecord(s, r, s.tabs[r].key);
      FinishClaimKeepsRecord(Bind(s, r, s.tabs[r].key), r);
    }
  }

  lemma AttachKeepsRecord(s: State, r: Ref, q: Ref)
    requires Inv(s) && Recorded(s)
    ensures Recorded(Attach(s, r, q))
  {
    if r in s.tabs && AttachSource(s, r, q).Some? && AttachSource(s, r, q).value != r {
      AdoptKeepsRecord(s, r, AttachSource(s, r, q).value, s.tabs[r].key);
    }
  }

  lemma AdvanceKeepsRecord(s: State, r: Ref)
    requires Recorded(s) && r in s.tabs && OwnsRuntime(s, r)
    ensures Recorded(AdvanceEpoch(s, r))
  {
  }

  lemma PublishedKeepsRecord(s: State, r: Ref)
    requires Fresh(s) && Recorded(s) && r in s.tabs
    ensures Recorded(Published(s, r)) && Fresh(Published(s, r)) && r in Published(s, r).tabs
  {
  }

  lemma BoundKeepsRecord(s: State, r: Ref, key: Key)
    requires Fresh(s) && Recorded(s) && r in s.tabs
    ensures r in Bind(s, r, key).tabs && Recorded(if OwnsRuntime(Bind(s, r, key), r) then AdvanceEpoch(Bind(s, r, key), r) else Bind(s, r, key))
  {
    BindKeepsRecord(s, r, key);
    if OwnsRuntime(Bind(s, r, key), r) {
      AdvanceKeepsRecord(Bind(s, r, key), r);
    }
  }

  lemma PublishKeepsRecord(s: State, r: Ref)
    requires Inv(s) && Recorded(s)
    ensures Recorded(Publish(s, r))
  {
    if r in s.tabs {
      PublishedKeepsRecord(s, r);
      BoundKeepsRecord(Published(s, r), r, CurrentKey(Published(s, r), Published(s, r).tabs[r]));
    }
  }

  lemma CloseBusyKeepsRecord(s: State, r: Ref, key: Key)
    requires Fresh(s) && Recorded(s) && r in s.tabs
    ensures
      var s1 := Bind(s, r, key);
      r in s1.tabs && Recorded(s1.(tabs := s1.tabs[r := s1.tabs[r].(key := key)], visible := s.visible - {r}, detached := s.detached[key := r]))
  {
    BindKeepsRecord(s, r, key);
  }

  lemma CloseIdleKeepsRecord(s: State, r: Ref, active: bool)
    requires Recorded(s) && r in s.tabs && !(active && s.tabs[r].ctrl.Some?)
    ensures Recorded(Close(s, r, active))
  {
    ReleaseKeepsRecord(s, r);
  }

  lemma CloseKeepsRecord(s: State, r: Ref, active: bool)
    requires Inv(s) && Recorded(s)
    ensures Recorded(Close(s, r, active))
  {
    if r in s.tabs && r in s.visible {
      if active && s.tabs[r].ctrl.Some? {
        KeysAgree(s, r);
        CloseBusyKeepsRecord(s, r, CurrentKey(s, s.tabs[r]));
      } else {
        CloseIdleKeepsRecord(s, r, active);
      }
    }
  }

  lemma DiscardKeepsRecord(s: State, key: Key)
    requires Inv(s) && Recorded(s)
    ensures Recorded(Discard(s, key))
  {
    if key in s.detached && s.detached[key] in s.tabs {
      ReleaseKeepsRecord(s, s.detached[key]);
    }
  }

  lemma StepKeepsRecord(s: State, e: Event)
    requires Inv(s) && Recorded(s)
    ensures Recorded(Step(s, e))
  {
    match e
    case EStart(r, target, active, saved) => StartKeepsRecord(s, r, target, active, saved);
    case EBuild =>
    case ELease => if s.txn.Open? { AbortKeepsRecord(s); }
    case EFail => if s.txn.Open? { AbortKeepsRecord(s); }
    case ECommit => if s.txn.Open? { CommitKeepsRecord(s); }
    case ETeardown =>
    case EOpenTab(_, _) =>
    case EClaim(r) => ClaimKeepsRecord(s, r);
    case EAttach(r, q) => AttachKeepsRecord(s, r, q);
    case EPublish(r) => PublishKeepsRecord(s, r);
    case EClose(r, active) => CloseKeepsRecord(s, r, active);
    case EDiscard(key) => DiscardKeepsRecord(s, key);
  }

  lemma {:induction false} EveryRunIsRecorded(s: State, events: seq<Event>)
    requires Inv(s) && Recorded(s) && AllSourced(s, events)
    ensures Inv(Run(s, events)) && Recorded(Run(s, events))
    decreases events
  {
    if events != [] {
      StepKeepsInv(s, events[0]);
      StepKeepsRecord(s, events[0]);
      EveryRunIsRecorded(Step(s, events[0]), events[1..]);
    }
  }

  /** The runtime that tab q goes by is on record for the session. */
  predicate OnRecord(s: State, q: Ref, key: Key) {
    q in s.tabs && s.tabs[q].runtime.Some? && key in s.byKey && s.byKey[key] == s.tabs[q].runtime.value && OwnsRuntime(s, q)
  }

  /** A session is taken exactly if another tab, visible or detached, is on record for it. */
  lemma TakenExactly(s: State, r: Ref, key: Key)
    requires Recorded(s)
    ensures TakenByOther(s, r, key) <==> exists q :: q != r && OnRecord(s, q, key)
  {
    if TakenByOther(s, r, key) {
      assert OnRecord(s, s.runtimes[s.byKey[key]].owner, key);
    }
  }

  lemma HeldLeaseIsLive(s: State, q: Ref)
    requires LeasesOwned(s) && q in s.tabs && s.tabs[q].lease.Some?
    ensures s.tabs[q].lease.value in s.leases && s.leases[s.tabs[q].lease.value] == Resource(s.tabs[q].key, 0)
  {
    assert LeaseOf(s.tabs[q]) == s.tabs[q].lease;
  }

  /** Nobody holds a lease of the session: no tab, visible or detached, and not the rebind in progress. */
  ghost predicate Unheld(s: State, key: Key) {
    && (forall q :: q in s.tabs && s.tabs[q].key == key ==> s.tabs[q].lease.None?)
    && (forall l :: l in LooseLeases(s.txn) && l in s.leases ==> s.leases[l].key != key)
  }

  /** A session's lease is free exactly if nobody holds one. */
  lemma LeaseFreeExactly(s: State, key: Key)
    requires Inv(s)
    ensures LeaseFree(s, key) <==> Unheld(s, key)
  {
    forall q | q in s.tabs && s.tabs[q].key == key && s.tabs[q].lease.Some? ensures !LeaseFree(s, key) {
      HeldLeaseIsLive(s, q);
    }
    if !LeaseFree(s, key) {
      var l :| l in s.leases && s.leases[l].key == key && s.leases[l].ended == 0;
      if l !in LooseLeases(s.txn) {
        var q :| q in s.tabs && LeaseOf(s.tabs[q]) == Some(l);
        HeldLeaseIsLive(s, q);
      }
    }
  }

  /** No other tab, visible or detached, is on record for the session. */
  ghost predicate Vacant(s: State, r: Ref, key: Key) { forall q :: q != r ==> !OnRecord(s, q, key) }

  // ---- When a rebind succeeds ----

  /** The target can be built: no other tab is on record for it, nobody holds its lease, and every part works. */
  ghost predicate BuildWorks(s: State, r: Ref, target: Key, w: World) {
    && Vacant(s, r, target) && Unheld(s, target)
    && w.built && w.restored && w.leased && w.hook && w.bound
  }

  lemma ReservePublishable(s: State, r: Ref, target: Key, active: bool)
    requires r in s.tabs && r in s.visible && s.txn.Quiet? && !TakenByOther(s, r, target)
    ensures Reserve(s, r, target, active).txn.Open? && Publishable(Reserve(s, r, target, active))
    ensures Reserve(s, r, target, active).leases == s.leases && Reserve(s, r, target, active).txn.transition.target == target
    ensures Reserve(s, r, target, active).txn.transition.active == (active && s.tabs[r].ctrl.Some?)
  {
  }

  lemma CandidateStaysPublishable(s: State)
    requires s.txn.Open? && Publishable(s)
    ensures BuildCandidate(s).txn.Open? && Publishable(BuildCandidate(s)) && BuildCandidate(s).leases == s.leases
    ensures LeaseFree(s, s.txn.transition.target) ==>
      AcquireLease(BuildCandidate(s)).txn.Open? && Publishable(AcquireLease(BuildCandidate(s)))
    ensures !LeaseFree(s, s.txn.transition.target) ==> AcquireLease(BuildCandidate(s)).txn.Quiet?
  {
  }

  lemma PublishableCommits(s: State)
    requires s.txn.Open? && Publishable(s)
    requires s.txn.transition.active ==> CurrentKey(s, s.tabs[s.txn.transition.tab]) != ""
    ensures Commit(s).txn.Retiring?
  {
  }

  /** The candidate under way keeps the source's name. */
  lemma NamedSource(s: State, s': State, r: Ref, target: Key)
    requires Inv(s) && UnderWay(s, s', r, target) && s.tabs[r].ctrl.Some?
    ensures CurrentKey(s', s'.tabs[r]) != ""
  {
    KeysAgree(s', r);
  }

  lemma LeasedCandidateCommits(s: State, s1: State, r: Ref, target: Key)
    requires Inv(s) && UnderWay(s, s1, r, target) && s1.txn.ctrl.None? && s1.txn.lease.None? && Publishable(s1)
    requires s1.txn.transition.active ==> s.tabs[r].ctrl.Some?
    requires LeaseFree(s1, target)
    ensures AcquireLease(BuildCandidate(s1)).txn.Open? && Commit(AcquireLease(BuildCandidate(s1))).txn.Retiring?
  {
    CandidateStaysPublishable(s1);
    var s2 := BuildCandidate(s1);
    BuildStaysUnderWay(s, s1, r, target);
    LeaseStaysUnderWay(s, s2, r, target);
    var s3 := AcquireLease(s2);
    if s3.txn.transition.active {
      NamedSource(s, s3, r, target);
    }
    PublishableCommits(s3);
  }

  lemma FinishSucceedsExactly(s: State, s1: State, r: Ref, target: Key, w: World)
    requires Inv(s) && UnderWay(s, s1, r, target) && s1.txn.ctrl.None? && s1.txn.lease.None? && Publishable(s1)
    requires s1.txn.transition.active ==> s.tabs[r].ctrl.Some?
    ensures Finish(s1, w).1 <==> LeaseFree(s1, target) && w.built && w.restored && w.leased && w.hook && w.bound
  {
    CandidateStaysPublishable(s1);
    if LeaseFree(s1, target) {
      LeasedCandidateCommits(s, s1, r, target);
    }
  }

  lemma ReserveSucceedsExactly(s: State, r: Ref, target: Key, w: World)
    requires Inv(s) && s.txn.Quiet? && r in s.tabs && r in s.visible && target != "" && s.tabs[r].key != target
    requires (s.tabs[r].ctrl.Some? ==> w.saved) && !HasDetached(s, target)
    ensures Proceed(s, r, target, w).1 <==>
      !TakenByOther(s, r, target) && LeaseFree(s, target) && w.built && w.restored && w.leased && w.hook && w.bound
  {
    if !TakenByOther(s, r, target) {
      ReserveGetsUnderWay(s, r, target, w.active);
      ReserveBuilds(s, r, target, w.active);
      ReservePublishable(s, r, target, w.active);
      FinishSucceedsExactly(s, Reserve(s, r, target, w.active), r, target, w);
    }
  }

  lemma ReattachSucceedsExactly(s: State, r: Ref, target: Key, w: World)
    requires Inv(s) && s.txn.Quiet? && r in s.tabs && target != "" && s.tabs[r].key != target
    requires (s.tabs[r].ctrl.Some? ==> w.saved) && HasDetached(s, target)
    ensures Proceed(s, r, target, w).1 <==> Attachable(s, s.detached[target])
  {
    KeysAgree(s, r);
  }

  lemma UnclaimTellsNothing(s: State, r: Ref, target: Key)
    requires r in s.tabs
    ensures HasDetached(Unclaim(s, r), target) <==> HasDetached(s, target)
    ensures HasDetached(s, target) ==> (Attachable(Unclaim(s, r), s.detached[target]) <==> Attachable(s, s.detached[target]))
    ensures TakenByOther(Unclaim(s, r), r, target) <==> TakenByOther(s, r, target)
    ensures Unclaim(s, r).leases == s.leases && Unclaim(s, r).detached == s.detached
  {
  }

  predicate RuntimeReady(s: State, d: Ref)
    requires d in s.tabs
  {
    s.tabs[d].runtime.Some? && s.tabs[d].runtime.value in s.runtimes && s.runtimes[s.tabs[d].runtime.value].ready
  }

  /** What a caller can check before the call, and how the fallible parts turn out. */
  ghost predicate RebindWorks(s: State, r: Ref, target: Key, w: World)
    requires r in s.tabs
  {
    && (s.tabs[r].ctrl.Some? ==> w.saved)
    && (if target in s.detached then s.detached[target] in s.tabs && RuntimeReady(s, s.detached[target]) else BuildWorks(s, r, target, w))
  }

  lemma DetachedIsAttachable(s: State, target: Key)
    requires Inv(s) && target in s.detached
    ensures HasDetached(s, target) && (Attachable(s, s.detached[target]) <==> RuntimeReady(s, s.detached[target]))
  {
  }

  /**
   A rebind to another session succeeds exactly if its source, if there is one, could be saved, and the target's detached
   runtime is ready or, when there is none, nobody else has the target and every part of building it works.
   */
  lemma RebindSucceedsExactly(s: State, r: Ref, target: Key, w: World)
    requires Inv(s) && Recorded(s) && s.txn.Quiet? && r in s.tabs && r in s.visible && target != "" && s.tabs[r].key != target
    ensures Rebind(s, r, target, w).1 <==> RebindWorks(s, r, target, w)
  {
    TakenExactly(s, r, target);
    LeaseFreeExactly(s, target);
    KeysAgree(s, r);
    RebindProceeds(s, r, target, w);
    UnclaimKeepsInv(s, r);
    UnclaimTellsNothing(s, r, target);
    if target in s.detached {
      DetachedIsAttachable(s, target);
    }
    var s1 := Unclaim(s, r);
    if s.tabs[r].ctrl.Some? && !w.saved {
      UnsavedIsUntouched(s1, r, target, w);
    } else if HasDetached(s, target) {
      ReattachSucceedsExactly(s1, r, target, w);
    } else {
      ReserveSucceedsExactly(s1, r, target, w);
    }
  }

  /**
   A candidate is published exactly if, since its reservation, its tab is still shown with the same controller and
   runtime, that runtime was not published anew, renamed or given away, and the target is still reserved for it. Otherwise
   the candidate is given up.
   */
  lemma CommitPublishesExactly(s: State)
    requires Inv(s) && s.txn.Open?
    ensures
      var (tr, t) := (s.txn.transition, Commit(s));
      && (t.txn.Retiring? <==>
            && tr.tab in s.tabs && tr.tab in s.visible && s.tabs[tr.tab].ctrl == tr.source && s.tabs[tr.tab].runtime == Some(tr.runtime)
            && tr.runtime in s.runtimes && s.runtimes[tr.runtime].owner == tr.tab && s.runtimes[tr.runtime].epoch == tr.epoch
            && s.runtimes[tr.runtime].key in {tr.oldKey, tr.target}
            && tr.target in s.byKey && s.byKey[tr.target] == tr.runtime)
      && (!t.txn.Retiring? ==> t == Abort(s))
  {
    var r := s.txn.transition.tab;
    if r in s.tabs && s.tabs[r].ctrl.Some? {
      KeysAgree(s, r);
    }
  }

  // ---- What a successful rebind installs ----

  /** The tab goes on with a controller, a lease and a sink that did not exist before, under a ready runtime of its own. */
  ghost predicate RunsBuilt(s: State, s': State, r: Ref, target: Key) {
    && r in s'.tabs && s'.tabs[r].key == target && s'.tabs[r].claimed && s'.tabs[r].ready
    && s'.tabs[r].ctrl.Some? && s'.tabs[r].ctrl.value >= s.next
    && s'.tabs[r].lease.Some? && s'.tabs[r].lease.value >= s.next
    && s'.tabs[r].lease.value in s'.leases && s'.leases[s'.tabs[r].lease.value] == Resource(target, 0)
    && s'.tabs[r].sink.Some? && s'.tabs[r].sink.value >= s.next
  }

  /** The tab goes on with everything the detached struct of the target held, and that struct is gone. */
  ghost predicate RunsReattached(s: State, s': State, r: Ref, target: Key) {
    && target in s.detached && s.detached[target] in s.tabs && target !in s'.detached && s.detached[target] !in s'.tabs
    && r in s'.tabs && SameRuntime(s.tabs[s.detached[target]], s'.tabs[r])
    && s'.tabs[r].runtime == s.tabs[s.detached[target]].runtime
  }

  lemma CommitInstalls(s: State)
    requires s.txn.Open? && Commit(s).txn.Retiring?
    ensures
      var t := Commit(s);
      var r := s.txn.transition.tab;
      && r in t.tabs && t.leases == s.leases && t.tabs[r].key == s.txn.transition.target && t.tabs[r].claimed && t.tabs[r].ready
      && t.tabs[r].ctrl == s.txn.ctrl && t.tabs[r].lease == s.txn.lease && t.tabs[r].sink == s.txn.sink
      && (t.txn.lease.Some? ==> Publishable(s) && t.txn.lease == s.tabs[r].lease)
  {
  }

  /** The candidate before its commit: all of it newer than the state the rebind started from. */
  ghost predicate NewCandidate(s: State, s3: State, r: Ref, target: Key) {
    && s3.txn.Open? && s3.txn.transition.tab == r && s3.txn.transition.target == target
    && s3.txn.ctrl.Some? && s3.txn.ctrl.value >= s.next && s3.txn.sink.Some? && s3.txn.sink.value >= s.next
    && s3.txn.lease.Some? && s3.txn.lease.value >= s.next && s3.txn.lease.value in s3.leases
    && s3.leases[s3.txn.lease.value] == Resource(target, 0)
    && (r in s3.tabs ==> s3.tabs[r].lease != s3.txn.lease)
  }

  lemma NewCandidateInstalled(s: State, s3: State, r: Ref, target: Key)
    requires NewCandidate(s, s3, r, target) && Commit(s3).txn.Retiring?
    ensures RunsBuilt(s, Teardown(Commit(s3)), r, target)
  {
    CommitInstalls(s3);
  }

  lemma FinishInstalls(s: State, s1: State, r: Ref, target: Key, w: World)
    requires UnderWay(s, s1, r, target) && s1.txn.ctrl.None? && s1.txn.lease.None? && s.next <= s1.next && Finish(s1, w).1
    ensures RunsBuilt(s, Finish(s1, w).0, r, target)
  {
    var s3 := AcquireLease(BuildCandidate(s1));
    assert r in s3.tabs ==> s3.tabs[r].lease == s1.tabs[r].lease;
    NewCandidateInstalled(s, s3, r, target);
  }

  lemma ReattachedTab(s: State, s': State, r: Ref, target: Key, d: Ref)
    requires target in s.detached && d == s.detached[target] && d in s.tabs && d != r && r in s.tabs && d < s.next
    requires s.tabs[d].ctrl.Some? && s.tabs[d].key == target && target !in s'.detached
    requires r in s'.tabs && s'.tabs[r] == Taken(s.tabs[r], s.tabs[d], target) && d !in s'.tabs
    ensures RunsReattached(s, s', r, target)
  {
  }

  lemma ReattachOverInstalls(s: State, r: Ref, target: Key)
    requires Tables(s) && Fresh(s) && ReattachReady(s, r, target) && Reattachable(s, target) && s.tabs[s.detached[target]].key == target
    ensures RunsReattached(s, Teardown(Apply(s, r, target).(txn := Retiring(s.tabs[r].ctrl, s.tabs[r].lease))), r, target)
  {
    ReattachOverMoves(s, r, target);
    ReattachedTab(s, Teardown(Apply(s, r, target).(txn := Retiring(s.tabs[r].ctrl, s.tabs[r].lease))), r, target, s.detached[target]);
  }

  lemma ReattachBesideInstalls(s: State, r: Ref, target: Key)
    requires Fresh(s) && BesideReady(s, r, target) && s.tabs[s.detached[target]].key == target
    ensures
      var s1 := Detached(s, r);
      && target in s1.detached && s1.detached[target] in s1.tabs && r in s1.tabs
      && RunsReattached(s, Teardown(Apply(s1, r, target).(txn := Retiring(None, None))), r, target)
  {
    ReattachBesideMoves(s, r, target);
    ReattachedTab(s, Teardown(Apply(Detached(s, r), r, target).(txn := Retiring(None, None))), r, target, s.detached[target]);
  }

  lemma ReattachInstalls(s: State, r: Ref, target: Key, active: bool)
    requires Inv(s) && s.txn.Quiet? && r in s.tabs && r in s.visible && s.tabs[r].key != target && HasDetached(s, target)
    requires Reattach(s, r, target, active).txn.Retiring?
    ensures RunsReattached(s, Teardown(Reattach(s, r, target, active)), r, target)
  {
    KeysAgree(s, r);
    if active && s.tabs[r].ctrl.Some? {
      DetachMoves(s, r);
      ReattachBesideInstalls(s, r, target);
    } else {
      ReattachOverInstalls(s, r, target);
    }
  }

  /** After a successful rebind the tab holds the candidate whole, or the detached runtime whole. */
  lemma RebindInstalls(s: State, r: Ref, target: Key, w: World)
    requires Inv(s) && s.txn.Quiet? && r in s.tabs && r in s.visible && target != "" && s.tabs[r].key != target
    requires Rebind(s, r, target, w).1
    ensures
      var s' := Rebind(s, r, target, w).0;
      if target in s.detached then RunsReattached(s, s', r, target) else RunsBuilt(s, s', r, target)
  {
    KeysAgree(s, r);
    RebindProceeds(s, r, target, w);
    UnclaimKeepsInv(s, r);
    UnclaimTellsNothing(s, r, target);
    var s1 := Unclaim(s, r);
    if target in s.detached {
      DetachedIsAttachable(s, target);
      ReattachInstalls(s1, r, target, w.active);
    } else {
      BuiltInstalls(s1, r, target, w);
    }
  }

  lemma BuiltInstalls(s: State, r: Ref, target: Key, w: World)
    requires Inv(s) && s.txn.Quiet? && r in s.tabs && target != "" && s.tabs[r].key != target && target !in s.detached
    requires Proceed(s, r, target, w).1
    ensures RunsBuilt(s, Proceed(s, r, target, w).0, r, target)
  {
    ReserveGetsUnderWay(s, r, target, w.active);
    ReserveBuilds(s, r, target, w.active);
    ReserveKeepsRegistered(s, r, target, w.active);
    FinishInstalls(s, Reserve(s, r, target, w.active), r, target, w);
  }

  // ---- What a failed rebind leaves reserved ----

  /** A failure after the reservation gives the target back, unless the tab's own runtime is on record under it. */
  lemma AbortFreesExactly(s: State)
    requires s.txn.Open? && s.txn.transition.target in s.byKey && s.byKey[s.txn.transition.target] == s.txn.transition.runtime
    ensures s.txn.transition.target !in Abort(s).byKey <==> s.txn.transition.oldKey != s.txn.transition.target
    ensures forall k :: k != s.txn.transition.target ==> (k in Abort(s).byKey <==> k in s.byKey)
    ensures forall k :: k in Abort(s).byKey ==> Abort(s).byKey[k] == s.byKey[k]
  {
  }

  /** A reservation is refused exactly if another tab is on record, and then keeps every other tab out. */
  lemma ReserveReserves(s: State, r: Ref, target: Key, active: bool)
    requires Recorded(s) && r in s.tabs && s.txn.Quiet?
    ensures
      var s' := Reserve(s, r, target, active);
      s'.txn.Open? <==> Vacant(s, r, target)
    ensures
      var s' := Reserve(s, r, target, active);
      s'.txn.Open? ==>
        && r in s'.tabs && target in s'.byKey && s'.byKey[target] == s'.txn.transition.runtime
        && s'.tabs[r].runtime == Some(s'.txn.transition.runtime) && OwnsRuntime(s', r)
        && (forall q :: q in s.tabs && q != r ==> TakenByOther(s', q, target))
  {
    TakenExactly(s, r, target);
  }

  lemma RebindKeepsInv(s: State, r: Ref, target: Key, w: World)
    requires Inv(s) && s.txn.Quiet?
    ensures Inv(Rebind(s, r, target, w).0) && Rebind(s, r, target, w).0.txn.Quiet?
  {
    StartKeepsInv(s, r, target, w.active, w.saved);
    StartIsBare(s, r, target, w.active, w.saved);
    AfterStartKeepsInv(Start(s, r, target, w.active, w.saved), w);
  }

  lemma AfterStartKeepsInv(s1: State, w: World)
    requires Inv(s1) && (s1.txn.Open? ==> s1.txn.ctrl.None? && s1.txn.lease.None?)
    ensures s1.txn.Retiring? ==> Inv(Teardown(s1))
    ensures s1.txn.Open? ==> Inv(Finish(s1, w).0) && Finish(s1, w).0.txn.Quiet?
  {
    if s1.txn.Retiring? {
      TeardownKeepsInv(s1);
    } else if s1.txn.Open? {
      FinishKeepsInv(s1, w);
    }
  }

  lemma ReattachIsNotOpen(s: State, r: Ref, target: Key, active: bool)
    requires s.txn.Quiet? && r in s.tabs
    ensures !Reattach(s, r, target, active).txn.Open?
  {
  }

  lemma ReserveIsBare(s: State, r: Ref, target: Key, active: bool)
    requires s.txn.Quiet? && r in s.tabs
    ensures
      var txn := Reserve(s, r, target, active).txn;
      txn.Open? ==> txn.ctrl.None? && txn.lease.None?
  {
  }

  lemma StartIsBare(s: State, r: Ref, target: Key, active: bool, saved: bool)
    requires s.txn.Quiet?
    ensures
      var txn := Start(s, r, target, active, saved).txn;
      txn.Open? ==> txn.ctrl.None? && txn.lease.None?
  {
    if r in s.tabs {
      ReattachIsNotOpen(Unclaim(s, r), r, target, active);
      ReserveIsBare(Unclaim(s, r), r, target, active);
    }
  }

  lemma FinishKeepsInv(s1: State, w: World)
    requires Inv(s1) && s1.txn.Open? && s1.txn.ctrl.None? && s1.txn.lease.None?
    ensures Inv(Finish(s1, w).0) && Finish(s1, w).0.txn.Quiet?
  {
    if !w.built {
      AbortKeepsInv(s1);
    } else {
      BuildKeepsInv(s1);
      FinishBuiltKeepsInv(BuildCandidate(s1));
    }
  }

  lemma FinishBuiltKeepsInv(s2: State)
    requires Inv(s2) && s2.txn.Open? && s2.txn.ctrl.Some? && s2.txn.lease.None?
    ensures Inv(Abort(s2)) && Inv(AcquireLease(s2))
    ensures AcquireLease(s2).txn.Open? ==>
      Inv(Abort(AcquireLease(s2))) && Inv(Commit(AcquireLease(s2)))
      && (Commit(AcquireLease(s2)).txn.Retiring? ==> Inv(Teardown(Commit(AcquireLease(s2)))))
  {
    AbortKeepsInv(s2);
    LeaseKeepsInv(s2);
    if AcquireLease(s2).txn.Open? {
      FinishLeasedKeepsInv(AcquireLease(s2));
    }
  }

  lemma FinishLeasedKeepsInv(s3: State)
    requires Inv(s3) && s3.txn.Open? && s3.txn.ctrl.Some? && s3.txn.lease.Some?
    ensures Inv(Abort(s3)) && Inv(Commit(s3))
    ensures Commit(s3).txn.Retiring? ==> Inv(Teardown(Commit(s3)))
  {
    AbortKeepsInv(s3);
    CommitKeepsInv(s3);
    if Commit(s3).txn.Retiring? {
      TeardownKeepsInv(Commit(s3));
    }
  }

  // ---- What startups and closings do ----

  lemma FinishClaimDoes(s: State, r: Ref)
    requires Registers(s, r) && !s.tabs[r].claimed && LeasesOwned(s)
    ensures
      var t := FinishClaim(s, r);
      && Registers(t, r)
      && (t.tabs[r].claimed <==> s.tabs[r].readOnly || s.tabs[r].lease.Some? || LeaseFree(s, s.tabs[r].key))
      && (t.tabs[r].claimed && !s.tabs[r].readOnly ==>
            t.tabs[r].lease.Some? && t.tabs[r].lease.value in t.leases && t.leases[t.tabs[r].lease.value] == Resource(s.tabs[r].key, 0))
      && (s.tabs[r].readOnly ==> t.leases == s.leases)
  {
    assert LeaseOf(s.tabs[r]) == s.tabs[r].lease;
  }

  /** A startup may go on to publish exactly if no other tab's runtime has its session and its lease is its own, free or not needed. */
  lemma ClaimSucceedsExactly(s: State, r: Ref)
    requires Inv(s) && Recorded(s) && r in s.tabs && r in s.visible && s.tabs[r].ctrl.None? && !s.tabs[r].claimed && s.tabs[r].key != ""
    ensures
      var t := Claim(s, r);
      var free := Vacant(s, r, s.tabs[r].key);
      && r in t.tabs && (free ==> Registers(t, r))
      && (t.tabs[r].claimed <==> free && (s.tabs[r].readOnly || s.tabs[r].lease.Some? || Unheld(s, s.tabs[r].key)))
      && (t.tabs[r].claimed && !s.tabs[r].readOnly ==>
            t.tabs[r].lease.Some? && t.tabs[r].lease.value in t.leases && t.leases[t.tabs[r].lease.value] == Resource(s.tabs[r].key, 0))
      && (s.tabs[r].readOnly ==> t.leases == s.leases)
  {
    TakenExactly(s, r, s.tabs[r].key);
    LeaseFreeExactly(s, s.tabs[r].key);
    if !TakenByOther(s, r, s.tabs[r].key) {
      BindKeepsInv(s, r);
      BindMoves(s, r);
      FinishClaimDoes(Bind(s, r, s.tabs[r].key), r);
    }
  }

  /** A startup publishes exactly if its claim still stands, and then its session is ready for others to attach. */
  lemma PublishSucceedsExactly(s: State, r: Ref)
    requires Inv(s) && r in s.tabs && r in s.visible && s.tabs[r].ctrl.None?
    ensures
      var t := Publish(s, r);
      && r in t.tabs && (t.tabs[r].ctrl.Some? <==> s.tabs[r].claimed)
      && (s.tabs[r].claimed ==> RuntimeReady(t, r) && t.tabs[r].ready && t.tabs[r].lease == s.tabs[r].lease && Inv(t))
  {
    PublishKeepsInv(s, r);
    if s.tabs[r].claimed {
      PublishedKeepsInv(s, r);
      KeysAgree(Published(s, r), r);
      BindRegisters(Published(s, r), r);
      BindMoves(Published(s, r), r);
    }
  }

  ghost predicate Backgrounded(s: State, t: State, r: Ref)
    requires r in s.tabs
  {
    && r !in t.visible && s.tabs[r].key in t.detached && t.detached[s.tabs[r].key] == r && r in t.tabs && SameRuntime(s.tabs[r], t.tabs[r])
    && t.ctrls == s.ctrls && t.leases == s.leases
  }

  ghost predicate Gone(s: State, t: State, r: Ref)
    requires r in s.tabs
  {
    && r !in t.visible && r !in t.tabs
    && EndedOnly(s.ctrls, t.ctrls, s.tabs[r].ctrl) && EndedOnly(s.leases, t.leases, s.tabs[r].lease)
  }

  ghost predicate OtherTabsKept(s: State, t: State, r: Ref) { forall q :: q in s.tabs && q != r ==> q in t.tabs && t.tabs[q] == s.tabs[q] }

  lemma CloseBusyDoes(s: State, r: Ref)
    requires Inv(s) && r in s.tabs && r in s.visible && s.tabs[r].ctrl.Some?
    ensures Backgrounded(s, Close(s, r, true), r) && OtherTabsKept(s, Close(s, r, true), r)
  {
    KeysAgree(s, r);
    BindMoves(s, r);
  }

  lemma CloseIdleSpares(s: State, r: Ref, active: bool)
    requires r in s.tabs && r in s.visible && !(active && s.tabs[r].ctrl.Some?)
    ensures OtherTabsKept(s, Close(s, r, active), r) && Close(s, r, active).detached == s.detached
  {
  }

  lemma CloseIdleEnds(s: State, r: Ref, active: bool)
    requires Inv(s) && r in s.tabs && r in s.visible && !(active && s.tabs[r].ctrl.Some?)
    ensures Gone(s, Close(s, r, active), r)
  {
    HeldExists(s, r);
    EndsOnly(s.ctrls, s.ctrls, s.tabs[r].ctrl);
    EndsOnly(s.leases, s.leases, s.tabs[r].lease);
  }

  /** Closing a tab with work moves it, whole, to the detached table; closing any other ends what it held, and nothing else. */
  lemma CloseDoes(s: State, r: Ref, active: bool)
    requires Inv(s) && r in s.tabs && r in s.visible
    ensures OtherTabsKept(s, Close(s, r, active), r)
    ensures if active && s.tabs[r].ctrl.Some? then Backgrounded(s, Close(s, r, active), r) else Gone(s, Close(s, r, active), r)
  {
    if active && s.tabs[r].ctrl.Some? {
      CloseBusyDoes(s, r);
    } else {
      CloseIdleSpares(s, r, active);
      CloseIdleEnds(s, r, active);
    }
  }

  lemma HeldExists(s: State, r: Ref)
    requires Holdings(s) && r in s.tabs
    ensures s.tabs[r].ctrl.Some? ==> s.tabs[r].ctrl.value in s.ctrls
    ensures s.tabs[r].lease.Some? ==> s.tabs[r].lease.value in s.leases
  {
  }

  /** Stopping a detached runtime ends what it held, and nothing else. */
  lemma DiscardDoes(s: State, key: Key)
    requires Inv(s) && key in s.detached
    ensures key !in Discard(s, key).detached && Discard(s, key).visible == s.visible
    ensures Gone(s, Discard(s, key), s.detached[key]) && OtherTabsKept(s, Discard(s, key), s.detached[key])
  {
    var r := s.detached[key];
    HeldExists(s, r);
    EndsOnly(s.ctrls, s.ctrls, s.tabs[r].ctrl);
    EndsOnly(s.leases, s.leases, s.tabs[r].lease);
  }

  /** The struct a startup of tab r attaches: the detached one, else the tab on record, else the tab q shown under the session. */
  ghost predicate IsSource(s: State, r: Ref, q: Ref, d: Ref)
    requires r in s.tabs
  {
    var key := s.tabs[r].key;
    if key in s.detached then d == s.detached[key]
    else if !Vacant(s, r, key) then d != r && OnRecord(s, d, key)
    else d == q && q != r && q in s.visible && q in s.tabs && s.tabs[q].key == key
  }

  lemma SourceExactly(s: State, r: Ref, q: Ref, d: Ref)
    requires Inv(s) && Recorded(s) && r in s.tabs && s.tabs[r].key != ""
    ensures AttachSource(s, r, q) == Some(d) <==> IsSource(s, r, q, d)
  {
    TakenExactly(s, r, s.tabs[r].key);
    if q in s.tabs {
      KeysAgree(s, q);
    }
  }

  /** What a startup that attaches d leaves: the tab holds what d held, d is gone, and a lease of the tab's own ends. */
  ghost predicate Attached(s: State, t: State, r: Ref, d: Ref)
    requires r in s.tabs && d in s.tabs
  {
    && d !in t.tabs && d !in t.visible && r in t.tabs && t.tabs[r] == Taken(s.tabs[r], s.tabs[d], s.tabs[r].key)
    && t.leases == End(s.leases, s.tabs[r].lease) && t.ctrls == s.ctrls
  }

  lemma AttachMovesSource(s: State, r: Ref, q: Ref)
    requires Inv(s) && r in s.tabs && r in s.visible && s.tabs[r].ctrl.None? && s.tabs[r].key != ""
    requires NoWait(s, r)
    ensures
      var source := AttachSource(s, r, q);
      if source.Some? && s.tabs[source.value].ctrl.Some? && RuntimeReady(s, source.value)
      then Attached(s, Attach(s, r, q), r, source.value)
      else Attach(s, r, q) == s
  {
    var source := AttachSource(s, r, q);
    if source.Some? && s.tabs[source.value].ctrl.Some? {
      assert source.value != r && AttachReady(s, r, source.value);
      AttachMoves(s, r, source.value);
    }
  }

  /** d is the source, it runs and is ready, and nobody on record for the session is still starting. */
  ghost predicate AttachWorks(s: State, r: Ref, q: Ref, d: Ref)
    requires r in s.tabs
  {
    && IsSource(s, r, q, d) && d in s.tabs && s.tabs[d].ctrl.Some? && RuntimeReady(s, d)
    && (forall p :: p != r && OnRecord(s, p, s.tabs[r].key) ==> RuntimeReady(s, p))
  }

  /** The startup does not wait for an owner on record that is still starting. */
  predicate NoWait(s: State, r: Ref)
    requires r in s.tabs
  {
    TakenByOther(s, r, s.tabs[r].key) ==> s.runtimes[s.byKey[s.tabs[r].key]].ready
  }

  lemma NoWaitExactly(s: State, r: Ref)
    requires Recorded(s) && r in s.tabs
    ensures NoWait(s, r) <==> forall p :: p != r && OnRecord(s, p, s.tabs[r].key) ==> RuntimeReady(s, p)
  {
    var key := s.tabs[r].key;
    if TakenByOther(s, r, key) {
      assert OnRecord(s, s.runtimes[s.byKey[key]].owner, key);
    }
  }

  lemma AttachIsDone(s: State, r: Ref, q: Ref, d: Ref)
    requires Inv(s) && Recorded(s) && r in s.tabs && r in s.visible && s.tabs[r].ctrl.None? && s.tabs[r].key != ""
    requires AttachWorks(s, r, q, d)
    ensures Attached(s, Attach(s, r, q), r, d)
  {
    SourceExactly(s, r, q, d);
    NoWaitExactly(s, r);
    AttachMovesSource(s, r, q);
  }

  lemma AttachWaits(s: State, r: Ref, q: Ref)
    requires r in s.tabs && !NoWait(s, r)
    ensures Attach(s, r, q) == s
  {
  }

  lemma AttachedWorks(s: State, r: Ref, q: Ref)
    requires Inv(s) && Recorded(s) && r in s.tabs && r in s.visible && s.tabs[r].ctrl.None? && s.tabs[r].key != ""
    requires Attach(s, r, q) != s
    ensures exists d: Ref :: AttachWorks(s, r, q, d)
  {
    NoWaitExactly(s, r);
    if !NoWait(s, r) {
      AttachWaits(s, r, q);
    } else {
      AttachMovesSource(s, r, q);
      var d := AttachSource(s, r, q).value;
      SourceExactly(s, r, q, d);
      assert AttachWorks(s, r, q, d);
    }
  }

  /** A startup attaches exactly what works to attach, and otherwise changes nothing. */
  lemma AttachDoes(s: State, r: Ref, q: Ref)
    requires Inv(s) && Recorded(s) && r in s.tabs && r in s.visible && s.tabs[r].ctrl.None? && s.tabs[r].key != ""
    ensures forall d: Ref :: AttachWorks(s, r, q, d) ==> Attached(s, Attach(s, r, q), r, d)
    ensures (forall d: Ref :: !AttachWorks(s, r, q, d)) ==> Attach(s, r, q) == s
  {
    forall d: Ref | AttachWorks(s, r, q, d) ensures Attached(s, Attach(s, r, q), r, d) {
      AttachIsDone(s, r, q, d);
    }
    if Attach(s, r, q) != s {
      AttachedWorks(s, r, q);
    }
  }

  // ---- The application ----

  /** The fields the rebind reads and assigns under the application lock. */
  class App {
    var tabs: map<Ref, Tab>
    var visible: set<Ref>
    var detached: map<Key, Ref>
    var runtimes: map<Id, Runtime>
    var byKey: map<Key, Id>
    var ctrls: map<Id, Resource>
    var leases: map<Id, Resource>
    var txn: Transaction
    var next: nat

    function Abs(): State
      reads this
    {
      State(tabs, visible, detached, runtimes, byKey, ctrls, leases, txn, next)
    }

    constructor ()
      ensures Abs() == INITIAL
    {
      tabs, visible, detached, runtimes, byKey := map[], {}, map[], map[], map[];
      ctrls, leases, txn, next := map[], map[], Quiet, 0;
    }

    method NewSessionRuntime(r: Ref, key: Key)
      requires r in tabs
      modifies this`runtimes, this`byKey, this`tabs, this`next
      ensures Abs() == NewRuntime(old(Abs()), r, key)
    {
      var own := key;
      if TakenByOther(Abs(), r, key) {
        own := "";
      }
      runtimes := runtimes[next := Runtime(own, r, next, tabs[r].ctrl.Some? && tabs[r].ready)];
      if own != "" {
        byKey := byKey[own := next];
      }
      tabs := tabs[r := tabs[r].(runtime := Some(next))];
      next := next + 1;
    }

    method AdvanceSessionRuntimeEpoch(r: Ref)
      requires r in tabs && OwnsRuntime(Abs(), r)
      modifies this`runtimes, this`next
      ensures Abs() == AdvanceEpoch(old(Abs()), r)
    {
      var rt := tabs[r].runtime.value;
      runtimes := runtimes[rt := runtimes[rt].(epoch := next, ready := true)];
      next := next + 1;
    }

    method CloseController(id: Option<Id>)
      modifies this`ctrls
      ensures ctrls == End(old(ctrls), id)
    {
      if id.Some? && id.value in ctrls {
        ctrls := ctrls[id.value := ctrls[id.value].(ended := ctrls[id.value].ended + 1)];
      }
    }

    method ReleaseLease(id: Option<Id>)
      modifies this`leases
      ensures leases == End(old(leases), id)
    {
      if id.Some? && id.value in leases {
        leases := leases[id.value := leases[id.value].(ended := leases[id.value].ended + 1)];
      }
    }

    method ReserveSessionRuntimePath(r: Ref, target: Key, active: bool) returns (ok: bool)
      requires r in tabs && txn.Quiet?
      modifies this
      ensures Abs() == Reserve(old(Abs()), r, target, active) && ok == txn.Open?
    {
      if TakenByOther(Abs(), r, target) {
        return false;
      }
      if !OwnsRuntime(Abs(), r) {
        NewSessionRuntime(r, CurrentKey(Abs(), tabs[r]));
      }
      var rt := tabs[r].runtime.value;
      byKey := byKey[target := rt];
      txn := Open(Transition(r, tabs[r].ctrl, active && tabs[r].ctrl.Some?, rt, runtimes[rt].key, target, runtimes[rt].epoch),
                  None, None, None);
      ok := true;
    }

    /** The deferred clean-up of a rebind that does not commit. */
    method Rollback()
      requires txn.Open?
      modifies this
      ensures Abs() == Abort(old(Abs()))
    {
      ReleaseLease(txn.lease);
      CloseController(txn.ctrl);
      var tr := txn.transition;
      if tr.target != tr.oldKey && tr.target in byKey && byKey[tr.target] == tr.runtime {
        byKey := byKey - {tr.target};
      }
      txn := Quiet;
    }

    method DetachRuntimeForReplacement(r: Ref) returns (ok: bool)
      requires r in tabs
      modifies this
      ensures ok == (CurrentKey(old(Abs()), old(tabs[r])) != "")
      ensures Abs() == if ok then Detach(old(Abs()), r) else old(Abs())
    {
      var t := tabs[r];
      var key := CurrentKey(Abs(), t);
      if key == "" {
        return false;
      }
      var owned := OwnsRuntime(Abs(), r);
      tabs := tabs[next := t.(key := key)][r := t.(lease := None)];
      if owned {
        runtimes := runtimes[t.runtime.value := runtimes[t.runtime.value].(owner := next)];
        tabs := tabs[r := tabs[r].(runtime := None)];
      }
      detached := detached[key := next];
      next := next + 1;
      ok := true;
    }

    method ReleaseSessionRuntime(r: Ref)
      requires r in tabs
      modifies this`runtimes, this`byKey
      ensures Abs() == ReleaseRuntime(old(Abs()), r)
    {
      if !OwnsRuntime(Abs(), r) {
        return;
      }
      var rt := tabs[r].runtime.value;
      byKey := map k | k in byKey && byKey[k] != rt :: byKey[k];
      runtimes := runtimes - {rt};
    }

    method HandOverRuntime(r: Ref, d: Ref, target: Key) returns (rt: Id)
      requires r in tabs && d in tabs
      modifies this
      ensures (Abs(), rt) == Handover(old(Abs()), r, d, target)
    {
      if OwnsRuntime(Abs(), d) {
        rt := tabs[d].runtime.value;
        if OwnsRuntime(Abs(), r) && tabs[r].runtime != tabs[d].runtime {
          ReleaseSessionRuntime(r);
        }
      } else if OwnsRuntime(Abs(), r) {
        rt := tabs[r].runtime.value;
      } else {
        rt := next;
        NewSessionRuntime(d, target);
      }
    }

    method TakeOverTab(r: Ref, d: Ref, target: Key, rt: Id)
      requires r in tabs && d in tabs
      modifies this
      ensures Abs() == TakeOver(old(Abs()), r, d, target, rt)
    {
      var from := tabs[d];
      var before := if rt in runtimes then runtimes[rt] else Runtime(target, r, 0, false);
      if before.key != target && before.key in byKey && byKey[before.key] == rt {
        byKey := byKey - {before.key};
      }
      runtimes := runtimes[rt := Runtime(target, r, before.epoch, before.ready || (from.ctrl.Some? && from.ready))];
      byKey := byKey[target := rt];
      detached := detached - {target};
      tabs := (tabs - {d})[r := tabs[r].(key := target, ctrl := from.ctrl, lease := from.lease, sink := from.sink, runtime := Some(rt),
                                         claimed := true, ready := from.ready && from.ctrl.Some?)];
    }

    method ApplyRuntimeTab(r: Ref, target: Key)
      requires r in tabs && target in detached && detached[target] in tabs
      modifies this
      ensures Abs() == Apply(old(Abs()), r, target)
    {
      var d := detached[target];
      var rt := HandOverRuntime(r, d, target);
      TakeOverTab(r, d, target, rt);
    }

    /** Called by a startup; q is the visible tab it finds showing its session, if it comes to look for one. */
    method AttachExistingSessionRuntime(r: Ref, q: Ref) returns (attached: bool)
      modifies this
      ensures Abs() == Attach(old(Abs()), r, q)
      ensures !attached ==> Abs() == old(Abs())
    {
      if r !in tabs || r !in visible || tabs[r].ctrl.Some? || tabs[r].key == "" {
        return false;
      }
      if TakenByOther(Abs(), r, tabs[r].key) && !runtimes[byKey[tabs[r].key]].ready {
        return false;
      }
      var source := AttachSource(Abs(), r, q);
      if source.None? || source.value == r || !Attachable(Abs(), source.value) {
        return false;
      }
      var (d, key, lease) := (source.value, tabs[r].key, tabs[r].lease);
      var rt := HandOverRuntime(r, d, key);
      TakeOverTab(r, d, key, rt);
      visible := visible - {d};
      ReleaseLease(lease);
      return true;
    }

    /** The caller tears down what the transaction then holds. */
    method ReattachDetachedSessionRuntime(r: Ref, target: Key, active: bool) returns (attached: bool)
      requires r in tabs && txn.Quiet?
      modifies this
      ensures Abs() == Reattach(old(Abs()), r, target, active) && attached == txn.Retiring?
    {
      if !Reattachable(Abs(), target) {
        return false;
      }
      var t := tabs[r];
      if active && t.ctrl.Some? {
        if CurrentKey(Abs(), t) == target {
          return false;
        }
        attached := DetachRuntimeForReplacement(r);
        if !attached {
          return;
        }
        ApplyRuntimeTab(r, target);
        txn := Retiring(None, None);
      } else {
        ApplyRuntimeTab(r, target);
        txn := Retiring(t.ctrl, t.lease);
      }
      attached := true;
    }

    method BuildSessionRebindCandidate()
      requires txn.Open?
      modifies this
      ensures Abs() == BuildCandidate(old(Abs()))
    {
      ctrls := ctrls[next := Resource(txn.transition.target, 0)];
      txn := Open(txn.transition, Some(next), Some(next + 1), txn.lease);
      next := next + 2;
    }

    method AcquireCandidateSessionLease() returns (ok: bool)
      requires txn.Open?
      modifies this
      ensures Abs() == AcquireLease(old(Abs())) && ok == txn.Open?
    {
      if !LeaseFree(Abs(), txn.transition.target) {
        Rollback();
        return false;
      }
      leases := leases[next := Resource(txn.transition.target, 0)];
      txn := Open(txn.transition, txn.ctrl, txn.sink, Some(next));
      next := next + 1;
      ok := true;
    }

    method PublishOver()
      requires txn.Open? && Publishable(Abs())
      modifies this
      ensures Abs() == CommitOver(old(Abs()))
    {
      var tr := txn.transition;
      var t := tabs[tr.tab];
      if tr.oldKey != tr.target && tr.oldKey in byKey && byKey[tr.oldKey] == tr.runtime {
        byKey := byKey - {tr.oldKey};
      }
      runtimes := runtimes[tr.runtime := runtimes[tr.runtime].(key := tr.target)];
      byKey := byKey[tr.target := tr.runtime];
      tabs := tabs[tr.tab := Install(t, txn, tr.target)];
      AdvanceSessionRuntimeEpoch(tr.tab);
      txn := Retiring(t.ctrl, t.lease);
    }

    method PublishBeside() returns (ok: bool)
      requires txn.Open? && Publishable(Abs())
      modifies this
      ensures ok == (CurrentKey(old(Abs()), old(tabs)[old(txn).transition.tab]) != "")
      ensures Abs() == if ok then CommitBeside(old(Abs())) else old(Abs())
    {
      var tr := txn.transition;
      ok := DetachRuntimeForReplacement(tr.tab);
      if !ok {
        return;
      }
      if tr.target in byKey && byKey[tr.target] == tr.runtime {
        byKey := byKey - {tr.target};
      }
      tabs := tabs[tr.tab := Install(tabs[tr.tab], txn, tr.target)];
      NewSessionRuntime(tr.tab, tr.target);
      AdvanceSessionRuntimeEpoch(tr.tab);
      txn := Retiring(None, None);
    }

    method CommitRebind() returns (ok: bool)
      requires txn.Open?
      modifies this
      ensures Abs() == Commit(old(Abs())) && ok == txn.Retiring?
    {
      if !Publishable(Abs()) {
        Rollback();
        return false;
      }
      if txn.transition.active {
        ok := PublishBeside();
        if !ok {
          Rollback();
        }
      } else {
        PublishOver();
        ok := true;
      }
    }

    method TearDown()
      requires txn.Retiring?
      modifies this
      ensures Abs() == Teardown(old(Abs()))
    {
      CloseController(txn.ctrl);
      ReleaseLease(txn.lease);
      txn := Quiet;
    }

    method CompleteRebind(w: World) returns (ok: bool)
      requires txn.Open?
      modifies this
      ensures (Abs(), ok) == Finish(old(Abs()), w)
    {
      if !w.built {
        Rollback();
        return false;
      }
      BuildSessionRebindCandidate();
      if !w.restored || !w.leased {
        Rollback();
        return false;
      }
      ok := AcquireCandidateSessionLease();
      if !ok {
        return;
      }
      if !w.hook || !w.bound {
        Rollback();
        return false;
      }
      ok := CommitRebind();
      if ok {
        TearDown();
      }
    }

    method SupersedeTabBuild(r: Ref)
      requires r in tabs
      modifies this`tabs
      ensures Abs() == Unclaim(old(Abs()), r)
    {
      tabs := tabs[r := tabs[r].(claimed := tabs[r].claimed && tabs[r].ctrl.Some?)];
    }

    method RebindTabToLoadedSessionPath(r: Ref, target: Key, w: World) returns (ok: bool)
      requires txn.Quiet?
      modifies this
      ensures (Abs(), ok) == Rebind(old(Abs()), r, target, w)
      ensures Inv(old(Abs())) ==> Inv(Abs()) && Exclusive(Abs()) && Atomic(old(Abs()), r, target, w, Abs(), ok)
    {
      ghost var was := Abs();
      ok := RunRebind(r, target, w);
      if Inv(was) {
        RebindKeepsInv(was, r, target, w);
        RebindIsAtomic(was, r, target, w);
        InvIsExclusive(Abs());
      }
    }

    method RunRebind(r: Ref, target: Key, w: World) returns (ok: bool)
      requires txn.Quiet?
      modifies this
      ensures (Abs(), ok) == Rebind(old(Abs()), r, target, w)
    {
      if target == "" || r !in visible || r !in tabs {
        return false;
      }
      if ShownKey(Abs(), tabs[r]) == target {
        return true;
      }
      RebindProceeds(Abs(), r, target, w);
      SupersedeTabBuild(r);
      ok := ProceedRebind(r, target, w);
    }

    method ProceedRebind(r: Ref, target: Key, w: World) returns (ok: bool)
      requires txn.Quiet? && r in tabs
      modifies this
      ensures (Abs(), ok) == Proceed(old(Abs()), r, target, w)
    {
      if tabs[r].ctrl.Some? && !w.saved {
        return false;
      }
      if HasDetached(Abs(), target) {
        ok := ReattachDetachedSessionRuntime(r, target, w.active);
        if ok {
          TearDown();
        }
        return;
      }
      ok := ReserveSessionRuntimePath(r, target, w.active);
      if ok {
        ok := CompleteRebind(w);
      }
    }
  }
}

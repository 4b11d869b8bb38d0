/**
 One heartbeat execution (desktop/heartbeat.go:275-302, 320-393, 395-494, 579-594): the task claim, the choice of a
 topic, and the run itself with every early return, in the mode that starts a new conversation each run and
 in the legacy mode that reuses one topic.
 */
module HeartbeatRun {
  import opened Common

  type TaskId = string
  type Topic = nat

  const MAX_RUN_HISTORY := 20

  datatype RunRecord = RunRecord(at: int, topic: Topic)

  datatype Task = Task(id: TaskId, newEachRun: bool, topic: Option<Topic>, lastRunAt: int, createdAt: int, history: seq<RunRecord>)

  datatype Pending = Pending(topic: Topic, submitted: bool)

  datatype Controller = NotReady | Busy | Idle

  /** What the world answers during one pass through the run. */
  datatype World = World(created: bool, tabReady: bool, controller: Controller, accepted: bool, now: int)

  /** Observable steps of runs, per task; Seen is a look at the controller of a topic's tab. */
  datatype Mark = Created(id: TaskId, topic: Topic) | Seen(id: TaskId, topic: Topic, controller: Controller) | Submitted(id: TaskId, topic: Topic)

  datatype State = State(pendingTopics: map<TaskId, Pending>, nextTopic: Topic, trace: seq<Mark>)

  const INITIAL := State(map[], 0, [])

  // ---- Specification of a run ----

  /** The topic of this run, whether it was already submitted, or nothing when creating one failed. */
  function Resolve(s: State, t: Task, w: World): (State, Task, Option<Pending>) {
    if t.newEachRun && t.id in s.pendingTopics then (s, t, Some(s.pendingTopics[t.id]))
    else if !t.newEachRun && t.topic.Some? then (s, t, Some(Pending(t.topic.value, false)))
    else if !w.created then (s, t.(lastRunAt := w.now), None)
    else
      var unused := Pending(s.nextTopic, false);
      var s' := s.(nextTopic := s.nextTopic + 1, trace := s.trace + [Created(t.id, s.nextTopic)]);
      (if t.newEachRun then s'.(pendingTopics := s.pendingTopics[t.id := unused]) else s',
       t.(topic := Some(s.nextTopic)), Some(unused))
  }

  function Capped(history: seq<RunRecord>): seq<RunRecord> {
    if |history| > MAX_RUN_HISTORY then history[|history| - MAX_RUN_HISTORY..] else history
  }

  function Finished(t: Task, topic: Topic, now: int): Task {
    t.(lastRunAt := now, createdAt := if t.createdAt == 0 then now else t.createdAt,
       history := Capped(t.history + [RunRecord(now, topic)]))
  }

  predicate Guarded(s: State, t: Task) { t.newEachRun && t.id in s.pendingTopics && s.pendingTopics[t.id].submitted }

  /** The run; passes counts how often the topic was resolved. Pass k meets world(k). */
  function Execute(s: State, t: Task, world: nat -> World, k: nat): (r: (State, Task, nat))
    ensures r.2 <= if Guarded(s, t) then 2 else 1
    decreases if Guarded(s, t) then 1 else 0
  {
    var w := world(k);
    var (s1, t1, topic) := Resolve(s, t, w);
    if topic.None? then (s1, t1, 1)
    else if !w.tabReady then (s1, t1.(lastRunAt := w.now), 1)
    else if w.controller.NotReady? then (s1, t1, 1)
    else
      var s2 := s1.(trace := s1.trace + [Seen(t.id, topic.value.topic, w.controller)]);
      if w.controller.Busy? then (s2, t1, 1)
      else if t.newEachRun && topic.value.submitted then
        var (s3, t3, passes) := Execute(s2.(pendingTopics := s2.pendingTopics - {t.id}), t1, world, k + 1);
        (s3, t3, passes + 1)
      else if !w.accepted then (s2, t1, 1)
      else
        var done := s2.(trace := s2.trace + [Submitted(t.id, topic.value.topic)]);
        (if t.newEachRun then done.(pendingTopics := done.pendingTopics[t.id := Pending(topic.value.topic, true)]) else done,
         Finished(t1, topic.value.topic, w.now), 1)
  }

  // ---- The engine ----

  class Engine {
    var pendingTopics: map<TaskId, Pending>
    var runningTasks: set<TaskId>
    var nextTopic: Topic
    ghost var trace: seq<Mark>

    ghost function Abs(): State
      reads this
    {
      State(pendingTopics, nextTopic, trace)
    }

    constructor ()
      ensures Abs() == INITIAL && runningTasks == {}
    {
      pendingTopics, runningTasks, nextTopic, trace := map[], {}, 0, [];
    }

    method ClaimTask(id: TaskId) returns (claimed: bool)
      modifies this`runningTasks
      ensures claimed <==> id !in old(runningTasks)
      ensures runningTasks == old(runningTasks) + {id}
    {
      if id in runningTasks {
        return false;
      }
      runningTasks := runningTasks + {id};
      return true;
    }

    method ReleaseTask(id: TaskId)
      modifies this`runningTasks
      ensures runningTasks == old(runningTasks) - {id}
    {
      runningTasks := runningTasks - {id};
    }

    method CreateTopic(id: TaskId, w: World) returns (topic: Option<Topic>)
      modifies this`nextTopic, this`trace
      ensures topic == if w.created then Some(old(nextTopic)) else None
      ensures nextTopic == if w.created then old(nextTopic) + 1 else old(nextTopic)
      ensures trace == if w.created then old(trace) + [Created(id, old(nextTopic))] else old(trace)
    {
      if !w.created {
        return None;
      }
      topic := Some(nextTopic);
      nextTopic, trace := nextTopic + 1, trace + [Created(id, nextTopic)];
    }

    method ResolveTopic(t: Task, w: World) returns (t': Task, topic: Option<Pending>)
      modifies this`pendingTopics, this`nextTopic, this`trace
      ensures (Abs(), t', topic) == Resolve(old(Abs()), t, w)
    {
      t' := t;
      if t.newEachRun {
        if t.id in pendingTopics {
          return t, Some(pendingTopics[t.id]);
        }
        var created := CreateTopic(t.id, w);
        if created.None? {
          return t.(lastRunAt := w.now), None;
        }
        pendingTopics := pendingTopics[t.id := Pending(created.value, false)];
        return t.(topic := created), Some(Pending(created.value, false));
      } else {
        if t.topic.Some? {
          return t, Some(Pending(t.topic.value, false));
        }
        var created := CreateTopic(t.id, w);
        if created.None? {
          return t.(lastRunAt := w.now), None;
        }
        return t.(topic := created), Some(Pending(created.value, false));
      }
    }

    /** The caller holds the task's claim, so no other run of the same task changes its pending topic. */
    method ExecuteTaskOwned(task: Task, world: nat -> World, k: nat) returns (t: Task, ghost passes: nat)
      requires task.id in runningTasks
      modifies this`pendingTopics, this`nextTopic, this`trace
      ensures (Abs(), t, passes) == Execute(old(Abs()), task, world, k)
      decreases if Guarded(Abs(), task) then 1 else 0
    {
      var w := world(k);
      var topic;
      t, topic := ResolveTopic(task, w);
      passes := 1;
      if topic.None? {
        return;
      }
      if !w.tabReady {
        t := t.(lastRunAt := w.now);
        return;
      }
      if w.controller.NotReady? {
        return;
      }
      trace := trace + [Seen(t.id, topic.value.topic, w.controller)];
      if w.controller.Busy? {
        return;
      }
      if t.newEachRun && topic.value.submitted {
        if t.id in pendingTopics && pendingTopics[t.id] == Pending(topic.value.topic, true) {
          pendingTopics := pendingTopics - {t.id};
        }
        ghost var more;
        t, more := ExecuteTaskOwned(t, world, k + 1);
        passes := more + 1;
        return;
      }
      if !w.accepted {
        return;
      }
      trace := trace + [Submitted(t.id, topic.value.topic)];
      if t.newEachRun {
        pendingTopics := pendingTopics[t.id := Pending(topic.value.topic, true)];
      }
      t := t.(lastRunAt := w.now);
      if t.createdAt == 0 {
        t := t.(createdAt := t.lastRunAt);
      }
      t := t.(history := t.history + [RunRecord(t.lastRunAt, topic.value.topic)]);
      if |t.history| > MAX_RUN_HISTORY {
        t := t.(history := t.history[|t.history| - MAX_RUN_HISTORY..]);
      }
    }

    /**
     Claim, cross-process lease, revalidation, run. revalidated is the current definition of the task, absent
     when it is gone, disabled or no longer due.
     */
    method ExecuteTaskWithLease(task: Task, lease: bool, revalidated: Option<Task>, world: nat -> World) returns (t: Task, ran: bool)
      requires revalidated.Some? ==> revalidated.value.id == task.id
      modifies this
      ensures runningTasks == old(runningTasks)
      ensures ran <==> task.id !in old(runningTasks) && lease && revalidated.Some?
      ensures ran ==> (Abs(), t) == (Execute(old(Abs()), revalidated.value, world, 0).0, Execute(old(Abs()), revalidated.value, world, 0).1)
      ensures !ran ==> Abs() == old(Abs()) && t == task
    {
      var claimed := ClaimTask(task.id);
      if !claimed {
        return task, false;
      }
      if !lease {
        ReleaseTask(task.id);
        return task, false;
      }
      if revalidated.None? {
        ReleaseTask(task.id);
        return task, false;
      }
      ghost var passes;
      t, passes := ExecuteTaskOwned(revalidated.value, world, 0);
      ReleaseTask(task.id);
      ran := true;
    }

    method PrunePendingTopics(keep: set<TaskId>)
      modifies this`pendingTopics
      ensures Abs() == Pruned(old(Abs()), keep)
    {
      if |pendingTopics| == 0 {
        return;
      }
      var rest := pendingTopics.Keys;
      while rest != {}
        invariant rest <= pendingTopics.Keys
        invariant forall id :: id in pendingTopics <==> id in old(pendingTopics) && (id in rest || id in keep)
        invariant forall id :: id in pendingTopics ==> pendingTopics[id] == old(pendingTopics)[id]
        decreases rest
      {
        var id :| id in rest;
        rest := rest - {id};
        if id !in keep {
          pendingTopics := pendingTopics - {id};
        }
      }
    }
  }

  function Pruned(s: State, keep: set<TaskId>): State {
    s.(pendingTopics := map id | id in s.pendingTopics && id in keep :: s.pendingTopics[id])
  }

  // ---- Reading a trace ----

  function WaitingAfter(before: set<Topic>, m: Mark, id: TaskId): set<Topic> {
    if m.id != id || m.Seen? then before
    else if m.Created? then before + {m.topic}
    else before - {m.topic}
  }

  /** Topics created for a task and not submitted so far. */
  function Unsubmitted(trace: seq<Mark>, id: TaskId): set<Topic> {
    if trace == [] then {} else WaitingAfter(Unsubmitted(trace[..|trace| - 1], id), trace[|trace| - 1], id)
  }

  function FlightAfter(before: Option<Topic>, m: Mark, id: TaskId): Option<Topic> {
    if m.id != id || m.Created? then before
    else if m.Submitted? then Some(m.topic)
    else if before == Some(m.topic) && m.controller.Idle? then None
    else before
  }

  /** The topic submitted last for a task, until its controller has been seen idle. */
  function InFlight(trace: seq<Mark>, id: TaskId): Option<Topic> {
    if trace == [] then None else FlightAfter(InFlight(trace[..|trace| - 1], id), trace[|trace| - 1], id)
  }

  /** No topic was ever created for the task while its last submitted one could still be running. */
  ghost predicate NeverOverlaps(trace: seq<Mark>, id: TaskId) {
    forall i :: 0 <= i < |trace| && trace[i].Created? && trace[i].id == id ==> InFlight(trace[..i], id).None?
  }

  /** What the pending entry of a task stands for, while the task runs in new-conversation mode. */
  ghost predicate Tracked(s: State, id: TaskId) {
    && (if id in s.pendingTopics && !s.pendingTopics[id].submitted
        then Unsubmitted(s.trace, id) == {s.pendingTopics[id].topic} && InFlight(s.trace, id).None?
        else Unsubmitted(s.trace, id) == {})
    && (if id in s.pendingTopics && s.pendingTopics[id].submitted
        then InFlight(s.trace, id) == Some(s.pendingTopics[id].topic)
        else InFlight(s.trace, id).None?)
    && NeverOverlaps(s.trace, id)
  }

  lemma TraceGrows(trace: seq<Mark>, m: Mark, id: TaskId)
    requires NeverOverlaps(trace, id)
    requires m.Created? && m.id == id ==> InFlight(trace, id).None?
    ensures NeverOverlaps(trace + [m], id)
    ensures Unsubmitted(trace + [m], id) == WaitingAfter(Unsubmitted(trace, id), m, id)
    ensures InFlight(trace + [m], id) == FlightAfter(InFlight(trace, id), m, id)
  {
    assert (trace + [m])[..|trace|] == trace;
    forall i | 0 <= i < |trace + [m]| && (trace + [m])[i].Created? && (trace + [m])[i].id == id
      ensures InFlight((trace + [m])[..i], id).None?
    {
      if i < |trace| {
        assert (trace + [m])[..i] == trace[..i];
      }
    }
  }

  /** Resolving leaves the guard of every task intact, and hands the run exactly the entry it keeps for its task. */
  lemma ResolveKeepsTracked(s: State, t: Task, w: World, id: TaskId)
    requires Tracked(s, id) && (t.id == id ==> t.newEachRun)
    ensures Tracked(Resolve(s, t, w).0, id)
    ensures t.id == id && Resolve(s, t, w).2.Some? ==>
      id in Resolve(s, t, w).0.pendingTopics && Resolve(s, t, w).0.pendingTopics[id] == Resolve(s, t, w).2.value
  {
    if t.id != id || id !in s.pendingTopics {
      TraceGrows(s.trace, Created(t.id, s.nextTopic), id);
    }
  }

  /** The entry a run works on, as it stands in the table. */
  ghost predicate Entry(s: State, t: Task, topic: Pending) { t.id in s.pendingTopics && s.pendingTopics[t.id] == topic }

  lemma SeenKeepsTracked(s: State, t: Task, topic: Pending, controller: Controller, id: TaskId)
    requires Tracked(s, id) && (t.id == id ==> t.newEachRun && Entry(s, t, topic)) && !controller.NotReady?
    ensures
      var seen := s.(trace := s.trace + [Seen(t.id, topic.topic, controller)]);
      if t.newEachRun && topic.submitted && controller.Idle?
      then Tracked(seen.(pendingTopics := seen.pendingTopics - {t.id}), id)
      else Tracked(seen, id)
  {
    TraceGrows(s.trace, Seen(t.id, topic.topic, controller), id);
  }

  lemma SubmittedKeepsTracked(s: State, t: Task, topic: Pending, id: TaskId)
    requires Tracked(s, id) && (t.id == id ==> t.newEachRun && Entry(s, t, topic) && !topic.submitted)
    ensures
      var done := s.(trace := s.trace + [Submitted(t.id, topic.topic)]);
      Tracked(if t.newEachRun then done.(pendingTopics := done.pendingTopics[t.id := Pending(topic.topic, true)]) else done, id)
  {
    TraceGrows(s.trace, Submitted(t.id, topic.topic), id);
  }

  /** One run of any task, however it ends, keeps the guard of a task that runs in new-conversation mode. */
  lemma {:induction false} ExecuteKeepsTracked(s: State, t: Task, world: nat -> World, k: nat, id: TaskId)
    requires Tracked(s, id) && (t.id == id ==> t.newEachRun)
    ensures Tracked(Execute(s, t, world, k).0, id)
    decreases if Guarded(s, t) then 1 else 0
  {
    var w := world(k);
    var (s1, t1, topic) := Resolve(s, t, w);
    ResolveKeepsTracked(s, t, w, id);
    if topic.Some? && w.tabReady && !w.controller.NotReady? {
      var s2 := s1.(trace := s1.trace + [Seen(t.id, topic.value.topic, w.controller)]);
      SeenKeepsTracked(s1, t1, topic.value, w.controller, id);
      if w.controller.Idle? && t.newEachRun && topic.value.submitted {
        ExecuteKeepsTracked(s2.(pendingTopics := s2.pendingTopics - {t.id}), t1, world, k + 1, id);
      } else if w.controller.Idle? && w.accepted {
        SubmittedKeepsTracked(s2, t1, topic.value, id);
      }
    }
  }

  // ---- What a run does, read from the world ----

  predicate Ready(w: World) { w.tabReady && w.controller.Idle? }

  /** The task has a topic to reuse. */
  predicate HasTopic(s: State, t: Task) { if t.newEachRun then t.id in s.pendingTopics else t.topic.Some? }

  /** A guarded task gives up its submitted topic when its controller is idle, and then needs a fresh one. */
  predicate Creates(s: State, t: Task, world: nat -> World, k: nat) {
    if Guarded(s, t) then Ready(world(k)) && world(k + 1).created else !HasTopic(s, t) && world(k).created
  }

  /** The topic a run works on last. */
  function Target(s: State, t: Task): Topic {
    if Guarded(s, t) || !HasTopic(s, t) then s.nextTopic
    else if t.newEachRun then s.pendingTopics[t.id].topic
    else t.topic.value
  }

  /** The pass that decides whether the prompt is submitted. */
  function Deciding(s: State, t: Task, k: nat): nat { if Guarded(s, t) then k + 1 else k }

  predicate Submits(s: State, t: Task, world: nat -> World, k: nat) {
    var d := world(Deciding(s, t, k));
    (Guarded(s, t) ==> Ready(world(k))) && (Guarded(s, t) || !HasTopic(s, t) ==> d.created) && Ready(d) && d.accepted
  }

  /**
   A run creates a topic exactly when it has none to reuse, having seen the submitted one idle if there is one, and
   the topic is a new one; it resolves a second topic exactly when it saw the submitted one idle.
   */
  lemma CreatesExactly(s: State, t: Task, world: nat -> World, k: nat)
    ensures
      var (s', t', passes) := Execute(s, t, world, k);
      && (passes == 2 <==> Guarded(s, t) && Ready(world(k)))
      && s'.nextTopic == s.nextTopic + (if Creates(s, t, world, k) then 1 else 0)
      && t'.topic == (if Creates(s, t, world, k) then Some(s.nextTopic) else t.topic)
      && (forall i :: |s.trace| <= i < |s'.trace| && s'.trace[i].Created? ==>
            Creates(s, t, world, k) && s'.trace[i] == Created(t.id, s.nextTopic))
  {
    var (s1, t1, topic) := Resolve(s, t, world(k));
    if Guarded(s, t) && Ready(world(k)) {
      var s2 := s1.(trace := s1.trace + [Seen(t.id, topic.value.topic, Idle)], pendingTopics := s1.pendingTopics - {t.id});
      assert !Guarded(s2, t1) && !HasTopic(s2, t1);
    }
  }

  /**
   A run submits exactly when its deciding pass finds a topic, a ready tab, an idle controller and acceptance, after
   a guarded task's first pass has found the submitted topic idle. What it submits to, records and keeps is settled.
   */
  lemma SubmitsExactly(s: State, t: Task, world: nat -> World, k: nat)
    ensures
      var (s', t', passes) := Execute(s, t, world, k);
      var (topic, now) := (Target(s, t), world(Deciding(s, t, k)).now);
      if Submits(s, t, world, k)
      then
        && |s'.trace| > |s.trace| && s'.trace[|s'.trace| - 1] == Submitted(t.id, topic)
        && t'.history == Capped(t.history + [RunRecord(now, topic)])
        && t'.lastRunAt == now && t'.createdAt == (if t.createdAt == 0 then now else t.createdAt)
        && s'.pendingTopics == (if t.newEachRun then s.pendingTopics[t.id := Pending(topic, true)] else s.pendingTopics)
      else
        && (forall i :: |s.trace| <= i < |s'.trace| ==> !s'.trace[i].Submitted?)
        && t'.history == t.history && t'.createdAt == t.createdAt
  {
    var (s1, t1, topic) := Resolve(s, t, world(k));
    if Guarded(s, t) && Ready(world(k)) {
      var s2 := s1.(trace := s1.trace + [Seen(t.id, topic.value.topic, Idle)], pendingTopics := s1.pendingTopics - {t.id});
      assert !Guarded(s2, t1) && !HasTopic(s2, t1);
      assert s2.pendingTopics[t.id := Pending(s.nextTopic, true)] == s.pendingTopics[t.id := Pending(s.nextTopic, true)];
    }
  }

  /** The pass a run ends in. */
  function Last(s: State, t: Task, world: nat -> World, k: nat): nat { if Guarded(s, t) && Ready(world(k)) then k + 1 else k }

  /** In its last pass the run has a topic. */
  predicate FindsTopic(s: State, t: Task, world: nat -> World, k: nat) {
    world(Last(s, t, world, k)).created || (HasTopic(s, t) && Last(s, t, world, k) == k)
  }

  /**
   A run counts as this interval's exactly if it submits, or fails for want of a topic or of a tab in its last pass; for
   want of an idle controller or of acceptance it stays due.
   */
  lemma LastRunExactly(s: State, t: Task, world: nat -> World, k: nat)
    ensures
      var w := world(Last(s, t, world, k));
      Execute(s, t, world, k).1.lastRunAt ==
        if !FindsTopic(s, t, world, k) || !w.tabReady || (w.controller.Idle? && w.accepted) then w.now else t.lastRunAt
  {
    var (s1, t1, topic) := Resolve(s, t, world(k));
    if Guarded(s, t) && Ready(world(k)) {
      var s2 := s1.(trace := s1.trace + [Seen(t.id, topic.value.topic, Idle)], pendingTopics := s1.pendingTopics - {t.id});
      assert !Guarded(s2, t1) && !HasTopic(s2, t1);
    }
  }

  /**
   A pass whose controller is not idle, or whose tab does not open, is the last one: nothing is submitted or recorded,
   no entry is touched, and a submitted topic stays guarded. A controller that is not ready or busy leaves the task due.
   */
  lemma UnreadyPassStops(s: State, t: Task, world: nat -> World, k: nat)
    requires !Ready(world(k))
    ensures
      var (s', t', passes) := Execute(s, t, world, k);
      && passes == 1 && t'.history == t.history
      && (forall id :: id in s.pendingTopics ==> id in s'.pendingTopics && s'.pendingTopics[id] == s.pendingTopics[id])
      && (forall i :: |s.trace| <= i < |s'.trace| ==> !s'.trace[i].Submitted? && (s'.trace[i].Seen? ==> !s'.trace[i].controller.Idle?))
      && t'.lastRunAt == (if (HasTopic(s, t) || world(k).created) && world(k).tabReady then t.lastRunAt else world(k).now)
  {
  }

  /** The controller of one of the passes, seen in the tab it opened. */
  ghost predicate Observed(m: Mark, world: nat -> World, k: nat, passes: nat) {
    m.Seen? ==> exists j :: k <= j < k + passes && world(j).tabReady && m.controller == world(j).controller
  }

  /** A run looks at nothing but what its passes meet, and at most once in each. */
  lemma LooksAreReal(s: State, t: Task, world: nat -> World, k: nat)
    ensures
      var (s', t', passes) := Execute(s, t, world, k);
      && |s.trace| <= |s'.trace| && s'.trace[..|s.trace|] == s.trace
      && (forall i :: |s.trace| <= i < |s'.trace| ==> s'.trace[i].id == t.id && Observed(s'.trace[i], world, k, passes))
  {
    var (s1, t1, topic) := Resolve(s, t, world(k));
    var (w0, w1) := (world(k), world(k + 1));
    if Guarded(s, t) && Ready(w0) {
      var s2 := s1.(trace := s1.trace + [Seen(t.id, topic.value.topic, Idle)], pendingTopics := s1.pendingTopics - {t.id});
      assert !Guarded(s2, t1) && !HasTopic(s2, t1);
    }
  }

  // ---- Runs of the engine ----

  datatype Event = RunTask(t: Task, world: nat -> World) | Prune(keep: set<TaskId>)

  function Step(s: State, e: Event): State {
    match e
    case RunTask(t, world) => Execute(s, t, world, 0).0
    case Prune(keep) => Pruned(s, keep)
  }

  function Run(s: State, events: seq<Event>): State
    decreases events
  {
    if events == [] then s else Run(Step(s, events[0]), events[1..])
  }

  /** The task keeps its mode and its entry is not pruned. */
  ghost predicate Undisturbed(id: TaskId, events: seq<Event>) {
    forall i :: 0 <= i < |events| ==>
      match events[i]
      case RunTask(t, _) => t.id == id ==> t.newEachRun
      case Prune(keep) => id in keep
  }

  /**
   Whatever fails in whatever run, an undisturbed task never has more than one topic waiting for a prompt, and
   no topic was created for it before a look at the controller of the one submitted last had found it idle.
   */
  lemma {:induction false} EveryRunKeepsOneTopic(s: State, events: seq<Event>, id: TaskId)
    requires Tracked(s, id) && Undisturbed(id, events)
    ensures Tracked(Run(s, events), id)
    ensures |Unsubmitted(Run(s, events).trace, id)| <= 1
    ensures NeverOverlaps(Run(s, events).trace, id)
    decreases events
  {
    if events != [] {
      assert Undisturbed(id, events[1..]);
      if events[0].RunTask? {
        ExecuteKeepsTracked(s, events[0].t, events[0].world, 0, id);
      }
      EveryRunKeepsOneTopic(Step(s, events[0]), events[1..], id);
    }
  }

  /** In particular in every run of a fresh engine. */
  lemma FreshEngineKeepsOneTopic(events: seq<Event>, id: TaskId)
    requires Undisturbed(id, events)
    ensures |Unsubmitted(Run(INITIAL, events).trace, id)| <= 1 && NeverOverlaps(Run(INITIAL, events).trace, id)
  {
    EveryRunKeepsOneTopic(INITIAL, events, id);
  }

  /**
   While the topic a task submitted last has not been found idle, the next run looks at that very topic and, unless its
   tab opens and its controller is idle there and then, creates, submits and gives up nothing.
   */
  lemma RunningTopicBlocksCreation(events: seq<Event>, t: Task, world: nat -> World)
    requires Undisturbed(t.id, events) && t.newEachRun
    requires InFlight(Run(INITIAL, events).trace, t.id).Some?
    ensures
      var s := Run(INITIAL, events);
      var s' := Execute(s, t, world, 0).0;
      && Resolve(s, t, world(0)).2 == Some(Pending(InFlight(s.trace, t.id).value, true))
      && (!Ready(world(0)) ==>
            && s'.nextTopic == s.nextTopic && s'.pendingTopics == s.pendingTopics
            && (forall i :: |s.trace| <= i < |s'.trace| ==> s'.trace[i].Seen? && !s'.trace[i].controller.Idle?))
  {
    EveryRunKeepsOneTopic(INITIAL, events, t.id);
    var s := Run(INITIAL, events);
    CreatesExactly(s, t, world, 0);
    if !Ready(world(0)) {
      UnreadyPassStops(s, t, world, 0);
    }
  }

  /** A look that one of the runs took at what its world had there. */
  ghost predicate SeenInRun(m: Mark, events: seq<Event>) {
    m.Seen? ==> exists e :: 0 <= e < |events| && events[e].RunTask? && events[e].t.id == m.id && Observed(m, events[e].world, 0, 2)
  }

  /** Over every run of the engine, each look recorded was taken at a controller as it was in that pass. */
  lemma {:induction false} EveryLookIsReal(s: State, events: seq<Event>)
    ensures
      var s' := Run(s, events);
      && |s.trace| <= |s'.trace| && s'.trace[..|s.trace|] == s.trace
      && (forall i :: |s.trace| <= i < |s'.trace| ==> SeenInRun(s'.trace[i], events))
    decreases events
  {
    if events != [] {
      var (s1, s', e) := (Step(s, events[0]), Run(s, events), events[0]);
      EveryLookIsReal(s1, events[1..]);
      if e.RunTask? {
        LooksAreReal(s, e.t, e.world, 0);
      }
      forall i | |s.trace| <= i < |s'.trace| ensures SeenInRun(s'.trace[i], events) {
        if i < |s1.trace| {
          assert s'.trace[i] == s'.trace[..|s1.trace|][i] == s1.trace[i];
          FirstRunSaw(s, events, s1.trace[i]);
        } else {
          LaterRunSaw(events, s'.trace[i]);
        }
      }
      assert s'.trace[..|s.trace|] == s'.trace[..|s1.trace|][..|s.trace|];
    }
  }

  lemma FirstRunSaw(s: State, events: seq<Event>, m: Mark)
    requires events != [] && events[0].RunTask? && m.id == events[0].t.id
    requires Observed(m, events[0].world, 0, Execute(s, events[0].t, events[0].world, 0).2)
    ensures SeenInRun(m, events)
  {
    if m.Seen? {
      assert Observed(m, events[0].world, 0, 2);
    }
  }

  lemma LaterRunSaw(events: seq<Event>, m: Mark)
    requires events != [] && SeenInRun(m, events[1..])
    ensures SeenInRun(m, events)
  {
    if m.Seen? {
      var e :| 0 <= e < |events[1..]| && events[1..][e].RunTask? && events[1..][e].t.id == m.id && Observed(m, events[1..][e].world, 0, 2);
      assert events[e + 1] == events[1..][e];
    }
  }

  /** Pruning is harmless to a task exactly when it keeps the task's entry or there is none to lose. */
  lemma PruneIsSafeExactly(s: State, keep: set<TaskId>, id: TaskId)
    requires Tracked(s, id)
    ensures Tracked(Pruned(s, keep), id) <==> id in keep || id !in s.pendingTopics
  {
    if id in s.pendingTopics && id !in keep && !s.pendingTopics[id].submitted {
      assert s.pendingTopics[id].topic in Unsubmitted(s.trace, id);
    }
  }

  /** A run that creates a topic, sees it idle and is not accepted. */
  function Refused(t: Task): Event { RunTask(t, (k: nat) => World(true, true, Idle, false, 0)) }

  lemma RefusedRunWaits(s: State, t: Task)
    requires t.newEachRun && t.id !in s.pendingTopics
    ensures
      Step(s, Refused(t)) == State(s.pendingTopics[t.id := Pending(s.nextTopic, false)], s.nextTopic + 1,
                                   s.trace + [Created(t.id, s.nextTopic)] + [Seen(t.id, s.nextTopic, Idle)])
  {
  }

  lemma WaitingOneMore(trace: seq<Mark>, id: TaskId, topic: Topic)
    ensures Unsubmitted(trace + [Created(id, topic)] + [Seen(id, topic, Idle)], id) == Unsubmitted(trace, id) + {topic}
  {
    var created := trace + [Created(id, topic)];
    var seen := created + [Seen(id, topic, Idle)];
    assert created[..|created| - 1] == trace && seen[..|seen| - 1] == created;
  }

  /** Losing the entry of a failed attempt makes the next failed attempt create a second waiting topic. */
  lemma PrunedEntryLeavesTwoTopics(t: Task)
    requires t.newEachRun
    ensures Unsubmitted(Run(INITIAL, [Refused(t), Prune({}), Refused(t)]).trace, t.id) == {0, 1}
  {
    var events := [Refused(t), Prune({}), Refused(t)];
    var s1 := Step(INITIAL, Refused(t));
    var s2 := Pruned(s1, {});
    var s3 := Step(s2, Refused(t));
    RefusedRunWaits(INITIAL, t);
    RefusedRunWaits(s2, t);
    WaitingOneMore([], t.id, 0);
    WaitingOneMore(s1.trace, t.id, 1);
    assert events[1..] == [Prune({}), Refused(t)] && events[1..][1..] == [Refused(t)] && [Refused(t)][1..] == [];
    assert Run(s2, [Refused(t)]) == Run(s3, []) == s3;
    assert Run(INITIAL, events) == Run(s1, events[1..]) == Run(s2, [Refused(t)]);
  }

  // ---- The run history ----

  /** Finishing appends the record and drops the oldest one if the history is full. */
  lemma FinishedHistory(t: Task, topic: Topic, now: int, drop: nat)
    requires |t.history| <= MAX_RUN_HISTORY && drop == (if |t.history| == MAX_RUN_HISTORY then 1 else 0)
    ensures Finished(t, topic, now).history == t.history[drop..] + [RunRecord(now, topic)]
    ensures |Finished(t, topic, now).history| <= MAX_RUN_HISTORY && (drop > 0 ==> |Finished(t, topic, now).history| == MAX_RUN_HISTORY)
  {
    var all := t.history + [RunRecord(now, topic)];
    assert all[drop..] == t.history[drop..] + [RunRecord(now, topic)];
    assert all[0..] == all;
  }

  /** A run appends at most one record, the newest, and drops only the oldest ones. */
  lemma {:induction false} HistoryIsBoundedSuffix(s: State, t: Task, world: nat -> World, k: nat)
    requires |t.history| <= MAX_RUN_HISTORY
    ensures
      var h := Execute(s, t, world, k).1.history;
      && |h| <= MAX_RUN_HISTORY
      && (h == t.history || exists record, drop: nat ::
            && drop <= |t.history|
            && h == t.history[drop..] + [record]
            && (drop > 0 ==> |h| == MAX_RUN_HISTORY))
    decreases if Guarded(s, t) then 1 else 0
  {
    var w := world(k);
    var (s1, t1, topic) := Resolve(s, t, w);
    if topic.Some? && w.tabReady && w.controller.Idle? {
      var s2 := s1.(trace := s1.trace + [Seen(t.id, topic.value.topic, w.controller)]);
      if t.newEachRun && topic.value.submitted {
        HistoryIsBoundedSuffix(s2.(pendingTopics := s2.pendingTopics - {t.id}), t1, world, k + 1);
      } else if w.accepted {
        FinishedHistory(t1, topic.value.topic, w.now, if |t.history| == MAX_RUN_HISTORY then 1 else 0);
      }
    }
  }

  /** A new record is added exactly when the prompt was accepted, so a failed attempt never touches the history. */
  lemma {:induction false} HistoryRecordsSubmissions(s: State, t: Task, world: nat -> World, k: nat)
    requires |t.history| <= MAX_RUN_HISTORY
    ensures
      var (s', t', _) := Execute(s, t, world, k);
      if |s'.trace| > |s.trace| && s'.trace[|s'.trace| - 1].Submitted?
      then |t'.history| > 0 && t'.history[|t'.history| - 1] == RunRecord(t'.lastRunAt, s'.trace[|s'.trace| - 1].topic)
      else t'.history == t.history
    decreases if Guarded(s, t) then 1 else 0
  {
    var w := world(k);
    var (s1, t1, topic) := Resolve(s, t, w);
    if topic.Some? && w.tabReady && w.controller.Idle? {
      var s2 := s1.(trace := s1.trace + [Seen(t.id, topic.value.topic, w.controller)]);
      if t.newEachRun && topic.value.submitted {
        HistoryRecordsSubmissions(s2.(pendingTopics := s2.pendingTopics - {t.id}), t1, world, k + 1);
        ExecuteGrowsTrace(s2.(pendingTopics := s2.pendingTopics - {t.id}), t1, world, k + 1);
      }
    }
  }

  lemma {:induction false} ExecuteGrowsTrace(s: State, t: Task, world: nat -> World, k: nat)
    ensures
      var s' := Execute(s, t, world, k).0;
      |s.trace| <= |s'.trace| && s'.trace[..|s.trace|] == s.trace
    decreases if Guarded(s, t) then 1 else 0
  {
    var w := world(k);
    var (s1, t1, topic) := Resolve(s, t, w);
    if topic.Some? && w.tabReady && w.controller.Idle? {
      var s2 := s1.(trace := s1.trace + [Seen(t.id, topic.value.topic, w.controller)]);
      if t.newEachRun && topic.value.submitted {
        ExecuteGrowsTrace(s2.(pendingTopics := s2.pendingTopics - {t.id}), t1, world, k + 1);
      }
    }
  }
}

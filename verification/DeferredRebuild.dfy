/**
 The deferred rebuild queue (desktop/deferred_rebuild.go:26-215): requests per tab, numbered, retried by one
 background loop that runs only while there is work. Every section under the mutex is one step; ticks and
 rebuilds remember the sequence numbers they started from.
 */
module DeferredRebuild {
  import opened Common

  type Tab = string

  datatype Reason = Settings | Startup | Reload

  datatype Request = Request(reason: Reason, setting: string, runtimeID: string, sequence: nat)

  const STARTUP_LABEL := "__startup__"
  const RELOAD_LABEL := "__reload__"

  function ReasonOf(setting: string): Reason {
    if setting == STARTUP_LABEL then Startup else if setting == RELOAD_LABEL then Reload else Settings
  }

  datatype StopChannel = NoChannel | Open | Closed

  /** loops counts the live loop goroutines; ticks and rebuilds hold what they copied when they started. */
  datatype State = State(
    pending: map<Tab, Request>,
    next: nat,
    enabled: bool,
    running: bool,
    stopped: bool,
    stop: StopChannel,
    loops: nat,
    ticks: map<nat, map<Tab, Request>>,
    rebuilds: map<nat, (Tab, nat)>)

  const INITIAL := State(map[], 0, false, false, false, NoChannel, 0, map[], map[])

  datatype Event =
    | Enable
    | Schedule(tab: Tab, setting: string, runtimeID: string)
    | ClearVersion(tab: Tab, sequence: nat)
    | Stop
    | LoopTick(id: nat)
    | LoopStopped
    | Kick(id: nat)
    | RetryGivesUp(id: nat, tab: Tab)
    | RebuildStart(id: nat, tab: Tab)
    | RebuildEnd(id: nat)

  function StartLoop(s: State): State {
    if !s.enabled || s.running || s.stopped || s.pending == map[] then s
    else s.(running := true, stop := if s.stop.NoChannel? then Open else s.stop, loops := s.loops + 1)
  }

  function Cleared(pending: map<Tab, Request>, tab: Tab, sequence: nat): map<Tab, Request> {
    if sequence != 0 && tab in pending && pending[tab].sequence == sequence then pending - {tab} else pending
  }

  function Sequence(s: State, tab: Tab): nat { if tab in s.pending then s.pending[tab].sequence else 0 }

  function Scheduled(s: State, tab: Tab, setting: string, runtimeID: string): State {
    if tab == "" || s.stopped then s
    else
      StartLoop(s.(next := s.next + 1,
                   pending := s.pending[tab := Request(ReasonOf(setting), setting, runtimeID, s.next + 1)]))
  }

  function Step(s: State, e: Event): State {
    match e
    case Enable => StartLoop(s.(enabled := true))
    case Schedule(tab, setting, runtimeID) => Scheduled(s, tab, setting, runtimeID)
    case ClearVersion(tab, sequence) => s.(pending := Cleared(s.pending, tab, sequence))
    case Stop => if s.stopped then s else s.(stopped := true, stop := if s.stop.NoChannel? then NoChannel else Closed)
    case LoopTick(id) =>
      if s.loops == 0 then s
      else if s.stopped || s.pending == map[] then s.(running := false, loops := s.loops - 1)
      else s.(ticks := s.ticks[id := s.pending])
    case LoopStopped =>
      if s.loops == 0 || !s.stop.Closed? then s else s.(running := false, loops := s.loops - 1)
    case Kick(id) => if s.stopped || s.pending == map[] then s else s.(ticks := s.ticks[id := s.pending])
    case RetryGivesUp(id, tab) =>
      if id !in s.ticks || tab !in s.ticks[id] then s
      else s.(pending := Cleared(s.pending, tab, s.ticks[id][tab].sequence))
    case RebuildStart(id, tab) => s.(rebuilds := s.rebuilds[id := (tab, Sequence(s, tab))])
    case RebuildEnd(id) =>
      if id !in s.rebuilds then s
      else s.(pending := Cleared(s.pending, s.rebuilds[id].0, s.rebuilds[id].1), rebuilds := s.rebuilds - {id})
  }

  function Run(s: State, events: seq<Event>): State {
    if events == [] then s else Step(Run(s, events[..|events| - 1]), events[|events| - 1])
  }

  // ---- One pass over the waiting requests ----

  /** How the retry of one request ends: it keeps waiting, gives up, or rebuilds the tab while others go on. */
  datatype Outcome = Waits | GivesUp | Rebuilds(rebuild: nat, meanwhile: seq<Event>)

  /** The steps of one retry. A rebuild captures the tab's number when it starts and clears by it when it is done. */
  function RetryEvents(id: nat, tab: Tab, outcome: Outcome): seq<Event> {
    match outcome
    case Waits => []
    case GivesUp => [RetryGivesUp(id, tab)]
    case Rebuilds(rebuild, meanwhile) => [RebuildStart(rebuild, tab)] + meanwhile + [RebuildEnd(rebuild)]
  }

  /** The steps of a pass that retries the tabs in order; others(t) is what happens elsewhere before t is retried. */
  function PassEvents(id: nat, order: seq<Tab>, outcome: Tab -> Outcome, others: Tab -> seq<Event>): seq<Event> {
    if order == [] then []
    else
      var tab := order[|order| - 1];
      PassEvents(id, order[..|order| - 1], outcome, others) + (others(tab) + RetryEvents(id, tab, outcome(tab)))
  }

  function BeginEvent(id: nat, markIdle: bool): Event { if markIdle then LoopTick(id) else Kick(id) }

  ghost predicate Enumerates(order: seq<Tab>, tabs: set<Tab>) {
    && (forall i, j :: 0 <= i < j < |order| ==> order[i] != order[j])
    && (forall t :: t in tabs <==> t in order)
  }

  lemma {:induction false} RunConcat(s: State, a: seq<Event>, b: seq<Event>)
    ensures Run(s, a + b) == Run(Run(s, a), b)
  {
    if b == [] {
      assert a + b == a;
    } else {
      RunConcat(s, a, b[..|b| - 1]);
      assert (a + b)[..|a + b| - 1] == a + b[..|b| - 1];
    }
  }

  lemma RunOne(s: State, e: Event)
    ensures Run(s, [e]) == Step(s, e)
  {
    assert [e][..0] == [];
  }

  lemma PassOneMore(s: State, id: nat, order: seq<Tab>, tab: Tab, outcome: Tab -> Outcome, others: Tab -> seq<Event>)
    ensures
      Run(s, PassEvents(id, order + [tab], outcome, others)) ==
        Run(Run(Run(s, PassEvents(id, order, outcome, others)), others(tab)), RetryEvents(id, tab, outcome(tab)))
  {
    var before := PassEvents(id, order, outcome, others);
    var longer := order + [tab];
    assert longer[..|longer| - 1] == order && longer[|longer| - 1] == tab;
    RunConcat(s, before, others(tab) + RetryEvents(id, tab, outcome(tab)));
    RunConcat(Run(s, before), others(tab), RetryEvents(id, tab, outcome(tab)));
  }

  lemma EnumeratesOneMore(order: seq<Tab>, tabs: set<Tab>, tab: Tab)
    requires Enumerates(order, tabs) && tab !in tabs
    ensures Enumerates(order + [tab], tabs + {tab})
  {
  }

  /** loops, ticks and rebuilds stand for the goroutines alive and what each of them holds. */
  class Queue {
    var pending: map<Tab, Request>
    var next: nat
    var enabled: bool
    var running: bool
    var stopped: bool
    var stop: StopChannel
    var loops: nat
    var ticks: map<nat, map<Tab, Request>>
    var rebuilds: map<nat, (Tab, nat)>

    ghost function Abs(): State
      reads this
    {
      State(pending, next, enabled, running, stopped, stop, loops, ticks, rebuilds)
    }

    constructor ()
      ensures Abs() == INITIAL
    {
      pending, next, enabled, running, stopped, stop := map[], 0, false, false, false, NoChannel;
      loops, ticks, rebuilds := 0, map[], map[];
    }

    method StartLoopLocked()
      modifies this
      ensures Abs() == StartLoop(old(Abs()))
    {
      if !enabled || running || stopped || |pending| == 0 {
        return;
      }
      running := true;
      if stop == NoChannel {
        stop := Open;
      }
      loops := loops + 1;
    }

    method EnableRetry()
      modifies this
      ensures Abs() == Step(old(Abs()), Enable)
    {
      enabled := true;
      StartLoopLocked();
    }

    /** tab is already trimmed; runtimeID identifies the runtime the request was made for. */
    method ScheduleRebuild(tab: Tab, setting: string, runtimeID: string)
      modifies this
      ensures Abs() == Step(old(Abs()), Schedule(tab, setting, runtimeID))
    {
      if tab == "" {
        return;
      }
      var reason := Settings;
      if setting == STARTUP_LABEL {
        reason := Startup;
      } else if setting == RELOAD_LABEL {
        reason := Reload;
      }
      if stopped {
        return;
      }
      next := next + 1;
      pending := pending[tab := Request(reason, setting, runtimeID, next)];
      StartLoopLocked();
    }

    method ClearRebuildVersion(tab: Tab, sequence: nat)
      modifies this`pending
      ensures Abs() == Step(old(Abs()), ClearVersion(tab, sequence))
    {
      if sequence != 0 && tab in pending && pending[tab].sequence == sequence {
        pending := pending - {tab};
      }
    }

    method StopRetry()
      modifies this`stopped, this`stop
      ensures Abs() == Step(old(Abs()), Stop)
    {
      if stopped {
        return;
      }
      stopped := true;
      if stop != NoChannel {
        stop := Closed;
      }
    }

    /** The first section of a pass: done tells the loop to exit, otherwise the pass goes over a copy of the queue. */
    method BeginPass(id: nat, markIdle: bool) returns (done: bool)
      requires markIdle ==> loops > 0
      modifies this
      ensures Abs() == Step(old(Abs()), BeginEvent(id, markIdle))
      ensures done <==> old(stopped) || old(pending) == map[]
      ensures !done ==> id in ticks && ticks[id] == old(pending)
    {
      if stopped || |pending| == 0 {
        if markIdle {
          running := false;
          loops := loops - 1;
        }
        return true;
      }
      ticks := ticks[id := pending];
      return false;
    }

    /** The loop wakes up to a closed stop channel. */
    method LoopSeesStop()
      modifies this
      ensures Abs() == Step(old(Abs()), LoopStopped)
    {
      if loops == 0 || stop != Closed {
        return;
      }
      running := false;
      loops := loops - 1;
    }

    /** The clear of a retry names the request of its copy, never the one queued by then. */
    method GiveUp(id: nat, tab: Tab)
      modifies this`pending
      ensures Abs() == Step(old(Abs()), RetryGivesUp(id, tab))
    {
      if id in ticks && tab in ticks[id] {
        ClearRebuildVersion(tab, ticks[id][tab].sequence);
      }
    }

    method BeginRebuild(id: nat, tab: Tab)
      modifies this`rebuilds
      ensures Abs() == Step(old(Abs()), RebuildStart(id, tab))
    {
      var sequence := 0;
      if tab in pending {
        sequence := pending[tab].sequence;
      }
      rebuilds := rebuilds[id := (tab, sequence)];
    }

    method EndRebuild(id: nat)
      modifies this`pending, this`rebuilds
      ensures Abs() == Step(old(Abs()), RebuildEnd(id))
    {
      if id in rebuilds {
        ClearRebuildVersion(rebuilds[id].0, rebuilds[id].1);
        rebuilds := rebuilds - {id};
      }
    }

    /** One step, whoever takes it. */
    method Perform(e: Event)
      modifies this
      ensures Abs() == Step(old(Abs()), e)
    {
      match e
      case Enable => EnableRetry();
      case Schedule(tab, setting, runtimeID) => ScheduleRebuild(tab, setting, runtimeID);
      case ClearVersion(tab, sequence) => ClearRebuildVersion(tab, sequence);
      case Stop => StopRetry();
      case LoopTick(id) =>
        if loops > 0 {
          var done := BeginPass(id, true);
        }
      case LoopStopped => LoopSeesStop();
      case Kick(id) => var done := BeginPass(id, false);
      case RetryGivesUp(id, tab) => GiveUp(id, tab);
      case RebuildStart(id, tab) => BeginRebuild(id, tab);
      case RebuildEnd(id) => EndRebuild(id);
    }

    method PerformAll(events: seq<Event>)
      modifies this
      ensures Abs() == Run(old(Abs()), events)
    {
      for i := 0 to |events|
        invariant Abs() == Run(old(Abs()), events[..i])
      {
        assert events[..i + 1][..i] == events[..i];
        Perform(events[i]);
      }
      assert events[..|events|] == events;
    }

    method RetryDeferredRebuild(id: nat, tab: Tab, outcome: Outcome)
      modifies this
      ensures Abs() == Run(old(Abs()), RetryEvents(id, tab, outcome))
    {
      ghost var s := Abs();
      match outcome
      case Waits =>
      case GivesUp =>
        RunOne(s, RetryGivesUp(id, tab));
        GiveUp(id, tab);
      case Rebuilds(rebuild, meanwhile) =>
        RunOne(s, RebuildStart(rebuild, tab));
        RunConcat(s, [RebuildStart(rebuild, tab)], meanwhile);
        RunConcat(s, [RebuildStart(rebuild, tab)] + meanwhile, [RebuildEnd(rebuild)]);
        BeginRebuild(rebuild, tab);
        PerformAll(meanwhile);
        RunOne(Abs(), RebuildEnd(rebuild));
        EndRebuild(rebuild);
    }

    /** Retries the tabs given, each once, with anything happening between two retries and during a rebuild. */
    method RetryAll(id: nat, tabs: set<Tab>, outcome: Tab -> Outcome, others: Tab -> seq<Event>) returns (ghost order: seq<Tab>)
      modifies this
      ensures Enumerates(order, tabs)
      ensures Abs() == Run(old(Abs()), PassEvents(id, order, outcome, others))
    {
      var rest := tabs;
      order := [];
      while rest != {}
        invariant rest <= tabs && Enumerates(order, tabs - rest)
        invariant Abs() == Run(old(Abs()), PassEvents(id, order, outcome, others))
        decreases rest
      {
        var tab :| tab in rest;
        PassOneMore(old(Abs()), id, order, tab, outcome, others);
        PerformAll(others(tab));
        RetryDeferredRebuild(id, tab, outcome(tab));
        EnumeratesOneMore(order, tabs - rest, tab);
        assert tabs - (rest - {tab}) == tabs - rest + {tab};
        rest := rest - {tab};
        order := order + [tab];
      }
      assert tabs - rest == tabs;
    }

    /**
     One pass of the loop or of a kick, in whatever order the copied queue is gone over, with anything happening
     between two retries and during a rebuild.
     */
    method Tick(id: nat, markIdle: bool, outcome: Tab -> Outcome, others: Tab -> seq<Event>) returns (done: bool, ghost order: seq<Tab>)
      requires markIdle ==> loops > 0
      modifies this
      ensures done <==> old(stopped) || old(pending) == map[]
      ensures Enumerates(order, if done then {} else old(pending).Keys)
      ensures Abs() == Run(old(Abs()), [BeginEvent(id, markIdle)] + PassEvents(id, order, outcome, others))
    {
      ghost var s := Abs();
      var tabs := pending.Keys;
      RunOne(s, BeginEvent(id, markIdle));
      done := BeginPass(id, markIdle);
      if done {
        order := [];
        assert [BeginEvent(id, markIdle)] + PassEvents(id, [], outcome, others) == [BeginEvent(id, markIdle)];
        return;
      }
      order := RetryAll(id, tabs, outcome, others);
      RunConcat(s, [BeginEvent(id, markIdle)], PassEvents(id, order, outcome, others));
    }
  }

  // ---- What a pass clears ----

  /** The requests left once the tabs listed were retried and nothing else happened. */
  function Kept(pending: map<Tab, Request>, order: seq<Tab>, outcome: Tab -> Outcome): map<Tab, Request> {
    map t | t in pending && !(t in order && outcome(t).GivesUp?) :: pending[t]
  }

  lemma KeptOneMore(pending: map<Tab, Request>, order: seq<Tab>, tab: Tab, outcome: Tab -> Outcome)
    ensures Kept(pending, order + [tab], outcome) ==
      if outcome(tab).GivesUp? then Kept(pending, order, outcome) - {tab} else Kept(pending, order, outcome)
  {
    assert forall u :: u in order + [tab] <==> u in order || u == tab;
  }

  lemma RetryClears(s: State, id: nat, tab: Tab, outcome: Outcome)
    requires id in s.ticks && tab in s.ticks[id] && s.ticks[id][tab].sequence != 0 && !outcome.Rebuilds?
    requires tab in s.pending ==> s.pending[tab] == s.ticks[id][tab]
    ensures Run(s, RetryEvents(id, tab, outcome)) == s.(pending := if outcome.GivesUp? then s.pending - {tab} else s.pending)
  {
    RunOne(s, RetryGivesUp(id, tab));
    assert tab !in s.pending ==> s.pending - {tab} == s.pending;
  }

  lemma {:induction false} PassClears(s: State, id: nat, order: seq<Tab>, outcome: Tab -> Outcome, others: Tab -> seq<Event>)
    requires QueueNumbered(s.pending, s.next) && id in s.ticks && s.ticks[id] == s.pending
    requires forall t :: t in order ==> t in s.pending && !outcome(t).Rebuilds? && others(t) == []
    ensures Run(s, PassEvents(id, order, outcome, others)) == s.(pending := Kept(s.pending, order, outcome))
  {
    if order == [] {
      assert Kept(s.pending, [], outcome) == s.pending;
    } else {
      var (rest, tab) := (order[..|order| - 1], order[|order| - 1]);
      assert order == rest + [tab];
      PassClears(s, id, rest, outcome, others);
      var t := s.(pending := Kept(s.pending, rest, outcome));
      KeptOneMore(s.pending, rest, tab, outcome);
      RetryClears(t, id, tab, outcome(tab));
      RunConcat(s, PassEvents(id, rest, outcome, others), RetryEvents(id, tab, outcome(tab)));
      assert others(tab) + RetryEvents(id, tab, outcome(tab)) == RetryEvents(id, tab, outcome(tab));
    }
  }

  /** A pass that nothing else comes between leaves exactly the requests whose retry goes on waiting. */
  lemma UndisturbedPassClearsExactly(s: State, id: nat, order: seq<Tab>, outcome: Tab -> Outcome, others: Tab -> seq<Event>)
    requires Inv(s) && !s.stopped && s.pending != map[] && Enumerates(order, s.pending.Keys)
    requires forall t :: t in order ==> !outcome(t).Rebuilds? && others(t) == []
    ensures
      var s' := Run(s, [Kick(id)] + PassEvents(id, order, outcome, others));
      && s' == s.(ticks := s.ticks[id := s.pending], pending := s'.pending)
      && (forall t :: t in s'.pending <==> t in s.pending && outcome(t).Waits?)
      && (forall t :: t in s'.pending ==> s'.pending[t] == s.pending[t])
  {
    RunOne(s, Kick(id));
    RunConcat(s, [Kick(id)], PassEvents(id, order, outcome, others));
    PassClears(Step(s, Kick(id)), id, order, outcome, others);
  }

  // ---- Invariants over every run ----

  ghost predicate QueueNumbered(pending: map<Tab, Request>, next: nat) {
    && (forall t :: t in pending ==> 1 <= pending[t].sequence <= next)
    && (forall t, u :: t in pending && u in pending && pending[t].sequence == pending[u].sequence ==> t == u)
  }

  ghost predicate Numbered(s: State) {
    && QueueNumbered(s.pending, s.next)
    && (forall i, t :: i in s.ticks && t in s.ticks[i] ==> 1 <= s.ticks[i][t].sequence <= s.next)
    && (forall i :: i in s.rebuilds ==> s.rebuilds[i].1 <= s.next)
  }

  /** Exactly one loop lives while the queue is armed and has work; a stopped loop can always see the stop. */
  ghost predicate LoopAccounted(s: State) {
    && s.loops == (if s.running then 1 else 0)
    && (s.enabled && !s.stopped && s.pending != map[] ==> s.running)
    && (s.running ==> !s.stop.NoChannel?)
    && (s.stop.Closed? ==> s.stopped)
    && (s.stopped && s.running ==> s.stop.Closed?)
  }

  ghost predicate Inv(s: State) { Numbered(s) && LoopAccounted(s) }

  lemma StepKeepsLoop(s: State, e: Event)
    requires LoopAccounted(s)
    ensures LoopAccounted(Step(s, e))
  {
  }

  lemma ScheduleKeepsNumbers(s: State, tab: Tab, setting: string, runtimeID: string)
    requires Numbered(s)
    ensures Numbered(Scheduled(s, tab, setting, runtimeID)) && s.next <= Scheduled(s, tab, setting, runtimeID).next
    ensures tab != "" && !s.stopped ==>
      var s' := Scheduled(s, tab, setting, runtimeID);
      tab in s'.pending && s'.pending[tab].sequence == s'.next == s.next + 1 && s'.rebuilds == s.rebuilds
  {
    var s' := Scheduled(s, tab, setting, runtimeID);
    assert forall t :: t in s'.pending && t != tab ==> t in s.pending && s'.pending[t] == s.pending[t];
  }

  lemma StepOnlyDropsRequests(s: State, e: Event)
    requires !e.Schedule?
    ensures Step(s, e).next == s.next
    ensures forall t :: t in Step(s, e).pending ==> t in s.pending && Step(s, e).pending[t] == s.pending[t]
  {
  }

  ghost predicate CopyNumbered(copy: map<Tab, Request>, next: nat) { forall t :: t in copy ==> 1 <= copy[t].sequence <= next }

  lemma StepKeepsCopies(s: State, e: Event)
    requires Numbered(s) && !e.Schedule?
    ensures
      var s' := Step(s, e);
      && (forall i :: i in s'.ticks ==> CopyNumbered(s'.ticks[i], s.next))
      && (forall i :: i in s'.rebuilds ==> s'.rebuilds[i].1 <= s.next)
  {
    var s' := Step(s, e);
    assert CopyNumbered(s.pending, s.next);
    forall i | i in s'.ticks ensures CopyNumbered(s'.ticks[i], s.next) {
      if i in s.ticks && s'.ticks[i] == s.ticks[i] {
        assert CopyNumbered(s.ticks[i], s.next);
      } else {
        assert s'.ticks[i] == s.pending;
      }
    }
  }

  lemma StepKeepsNumbers(s: State, e: Event)
    requires Numbered(s)
    ensures Numbered(Step(s, e)) && s.next <= Step(s, e).next
  {
    if e.Schedule? {
      ScheduleKeepsNumbers(s, e.tab, e.setting, e.runtimeID);
    } else {
      StepOnlyDropsRequests(s, e);
      StepKeepsCopies(s, e);
      assert QueueNumbered(Step(s, e).pending, s.next);
    }
  }

  lemma StepKeepsInv(s: State, e: Event)
    requires Inv(s)
    ensures Inv(Step(s, e)) && s.next <= Step(s, e).next
  {
    StepKeepsLoop(s, e);
    StepKeepsNumbers(s, e);
  }

  lemma {:induction false} EveryRunKeepsInv(events: seq<Event>)
    ensures Inv(Run(INITIAL, events))
  {
    if events != [] {
      EveryRunKeepsInv(events[..|events| - 1]);
      StepKeepsInv(Run(INITIAL, events[..|events| - 1]), events[|events| - 1]);
    }
  }

  /** While retry is enabled and not stopped, pending work means exactly one live loop, in every run. */
  lemma PendingMeansOneLoop(events: seq<Event>)
    ensures
      var s := Run(INITIAL, events);
      s.loops <= 1 && (s.enabled && !s.stopped && s.pending != map[] ==> s.loops == 1)
  {
    EveryRunKeepsInv(events);
  }

  /** e names the request of tab with this sequence: by an explicit clear, a retry's copy or a rebuild's capture. */
  predicate NamesRequest(s: State, e: Event, tab: Tab, sequence: nat) {
    || e == ClearVersion(tab, sequence)
    || (e.RetryGivesUp? && e.tab == tab && e.id in s.ticks && tab in s.ticks[e.id] && s.ticks[e.id][tab].sequence == sequence)
    || (e.RebuildEnd? && e.id in s.rebuilds && s.rebuilds[e.id] == (tab, sequence))
  }

  /** A queued request goes away only by a clear that carries its own sequence or by a newer request for its tab. */
  lemma RequestLeavesOnlyByName(s: State, e: Event, tab: Tab)
    requires Inv(s) && tab in s.pending
    requires !(tab in Step(s, e).pending && Step(s, e).pending[tab] == s.pending[tab])
    ensures NamesRequest(s, e, tab, s.pending[tab].sequence) || (e.Schedule? && e.tab == tab)
  {
  }

  /** The same along a whole run: find the event that removed or replaced the request. */
  lemma {:induction false} RequestSurvivesRun(s: State, events: seq<Event>, tab: Tab) returns (i: nat)
    requires Inv(s) && tab in s.pending
    requires !(tab in Run(s, events).pending && Run(s, events).pending[tab] == s.pending[tab])
    ensures i < |events|
    ensures
      var before := Run(s, events[..i]);
      && tab in before.pending && before.pending[tab] == s.pending[tab]
      && (NamesRequest(before, events[i], tab, s.pending[tab].sequence) || (events[i].Schedule? && events[i].tab == tab))
  {
    var n := |events| - 1;
    var before := Run(s, events[..n]);
    RunKeepsInv(s, events[..n]);
    if tab in before.pending && before.pending[tab] == s.pending[tab] {
      RequestLeavesOnlyByName(before, events[n], tab);
      i := n;
    } else {
      i := RequestSurvivesRun(s, events[..n], tab);
      assert events[..n][..i] == events[..i];
    }
  }

  lemma {:induction false} RunKeepsInv(s: State, events: seq<Event>)
    requires Inv(s)
    ensures Inv(Run(s, events)) && s.next <= Run(s, events).next
  {
    if events != [] {
      RunKeepsInv(s, events[..|events| - 1]);
      StepKeepsInv(Run(s, events[..|events| - 1]), events[|events| - 1]);
    }
  }

  lemma {:induction false} CaptureIsKept(s: State, events: seq<Event>, id: nat)
    requires id in s.rebuilds
    requires forall i :: 0 <= i < |events| ==> events[i] != RebuildEnd(id) && !(events[i].RebuildStart? && events[i].id == id)
    ensures id in Run(s, events).rebuilds && Run(s, events).rebuilds[id] == s.rebuilds[id]
  {
    if events != [] {
      CaptureIsKept(s, events[..|events| - 1], id);
    }
  }

  /**
   A request queued while an older rebuild of the same tab is under way survives that rebuild's clear,
   whatever else happens in between.
   */
  lemma NewerRequestSurvivesOlderRebuild(s: State, id: nat, tab: Tab, between: seq<Event>, setting: string, runtimeID: string, after: seq<Event>)
    requires Inv(s) && tab != ""
    requires forall i :: 0 <= i < |between| ==> between[i] != RebuildEnd(id) && !(between[i].RebuildStart? && between[i].id == id)
    requires forall i :: 0 <= i < |after| ==> after[i] != RebuildEnd(id) && !(after[i].RebuildStart? && after[i].id == id)
    requires !Run(Step(s, RebuildStart(id, tab)), between).stopped
    ensures
      var queued := Step(Run(Step(s, RebuildStart(id, tab)), between), Schedule(tab, setting, runtimeID));
      var later := Run(queued, after);
      && tab in queued.pending
      && (tab in later.pending && later.pending[tab] == queued.pending[tab] ==>
            tab in Step(later, RebuildEnd(id)).pending && Step(later, RebuildEnd(id)).pending[tab] == queued.pending[tab])
  {
    var started := Step(s, RebuildStart(id, tab));
    var mid := Run(started, between);
    var queued := Scheduled(mid, tab, setting, runtimeID);
    CaptureIsBounded(s, id, tab);
    RunKeepsInv(started, between);
    CaptureIsKept(started, between, id);
    ScheduleKeepsNumbers(mid, tab, setting, runtimeID);
    CaptureIsKept(queued, after, id);
    ClearSkipsNewer(Run(queued, after), id, tab);
  }

  lemma CaptureIsBounded(s: State, id: nat, tab: Tab)
    requires Inv(s)
    ensures
      var started := Step(s, RebuildStart(id, tab));
      Inv(started) && id in started.rebuilds && started.rebuilds[id].1 <= started.next
  {
    StepKeepsInv(s, RebuildStart(id, tab));
  }

  lemma ClearSkipsNewer(s: State, id: nat, tab: Tab)
    requires id in s.rebuilds
    ensures tab in s.pending && s.rebuilds[id].1 < s.pending[tab].sequence ==>
      tab in Step(s, RebuildEnd(id)).pending && Step(s, RebuildEnd(id)).pending[tab] == s.pending[tab]
  {
  }

  // ---- Exactly what waits ----

  predicate Takes(s: State, e: Event, tab: Tab) { e.Schedule? && e.tab == tab && tab != "" && !s.stopped }

  /**
   After any step a tab's request is the one just made for it, under the next number, or the one that waited before,
   unless the step names that one. What was asked for, and for which runtime, is recorded.
   */
  lemma WaitsExactly(s: State, e: Event, tab: Tab)
    requires Inv(s)
    ensures
      var s' := Step(s, e);
      && (tab in s'.pending <==> Takes(s, e, tab) || (tab in s.pending && !NamesRequest(s, e, tab, s.pending[tab].sequence)))
      && (tab in s'.pending ==>
            if Takes(s, e, tab)
            then
              && s'.pending[tab].setting == e.setting && s'.pending[tab].runtimeID == e.runtimeID
              && s'.pending[tab].sequence == s.next + 1
              && (s'.pending[tab].reason.Startup? <==> e.setting == "__startup__")
              && (s'.pending[tab].reason.Reload? <==> e.setting == "__reload__")
            else s'.pending[tab] == s.pending[tab])
  {
  }

  /** The loop starts when there is work to do and ends when it finds none, or a stop. */
  lemma LoopsExactly(s: State, e: Event)
    requires Inv(s)
    ensures
      var s' := Step(s, e);
      && s'.enabled == (s.enabled || e.Enable?) && s'.stopped == (s.stopped || e.Stop?)
      && (s'.loops > s.loops <==>
            && (e.Enable? || e.Schedule?) && s.loops == 0 && !s.stopped && s'.enabled && s'.pending != map[])
      && (s'.loops < s.loops <==>
            && s.loops > 0
            && ((e.LoopTick? && (s.stopped || s.pending == map[])) || (e.LoopStopped? && s.stopped)))
  {
  }

  /** What is numbered no later than now was waiting now. */
  lemma {:induction false} OldNumbersAreOld(s: State, events: seq<Event>)
    requires Inv(s)
    ensures
      var s' := Run(s, events);
      forall t :: t in s'.pending && s'.pending[t].sequence <= s.next ==> t in s.pending && s'.pending[t] == s.pending[t]
  {
    if events != [] {
      var before := Run(s, events[..|events| - 1]);
      OldNumbersAreOld(s, events[..|events| - 1]);
      RunKeepsInv(s, events[..|events| - 1]);
      forall t | t in Run(s, events).pending && Run(s, events).pending[t].sequence <= s.next
        ensures t in s.pending && Run(s, events).pending[t] == s.pending[t]
      {
        WaitsExactly(before, events[|events| - 1], t);
      }
    }
  }

  lemma {:induction false} CopyIsKept(s: State, events: seq<Event>, id: nat)
    requires id in s.ticks
    requires forall i :: 0 <= i < |events| ==> events[i] != LoopTick(id) && events[i] != Kick(id)
    ensures id in Run(s, events).ticks && Run(s, events).ticks[id] == s.ticks[id]
  {
    if events != [] {
      CopyIsKept(s, events[..|events| - 1], id);
    }
  }

  /** Which request a clear can still find at the end: the one it was made for, or a later one that it spares. */
  ghost predicate OldOrNewer(s: State, tab: Tab, request: Request) {
    request.sequence > 0 && (tab in s.pending && s.pending[tab].sequence == request.sequence ==> s.pending[tab] == request)
  }

  lemma EndClears(s: State, id: nat, tab: Tab, request: Request)
    requires OldOrNewer(s, tab, request) && id in s.rebuilds && s.rebuilds[id] == (tab, request.sequence)
    ensures tab in Step(s, RebuildEnd(id)).pending <==> tab in s.pending && s.pending[tab] != request
  {
  }

  lemma GivingUpClears(s: State, id: nat, tab: Tab, request: Request)
    requires OldOrNewer(s, tab, request) && id in s.ticks && tab in s.ticks[id] && s.ticks[id][tab] == request
    ensures tab in Step(s, RetryGivesUp(id, tab)).pending <==> tab in s.pending && s.pending[tab] != request
  {
  }

  lemma RunsOnlyReplace(s: State, events: seq<Event>, tab: Tab)
    requires Inv(s) && tab in s.pending
    ensures OldOrNewer(Run(s, events), tab, s.pending[tab])
  {
    OldNumbersAreOld(s, events);
  }

  lemma StartCaptures(s: State, id: nat, tab: Tab)
    requires Inv(s) && tab in s.pending
    ensures
      var started := Step(s, RebuildStart(id, tab));
      Inv(started) && started.pending == s.pending && id in started.rebuilds && started.rebuilds[id] == (tab, s.pending[tab].sequence)
  {
    StepKeepsInv(s, RebuildStart(id, tab));
  }

  lemma CapturedRequestIsCleared(started: State, id: nat, tab: Tab, between: seq<Event>)
    requires Inv(started) && tab in started.pending
    requires id in started.rebuilds && started.rebuilds[id] == (tab, started.pending[tab].sequence)
    requires forall i :: 0 <= i < |between| ==> between[i] != RebuildEnd(id) && !(between[i].RebuildStart? && between[i].id == id)
    ensures
      var mid := Run(started, between);
      tab in Step(mid, RebuildEnd(id)).pending <==> tab in mid.pending && mid.pending[tab] != started.pending[tab]
  {
    RunsOnlyReplace(started, between, tab);
    CaptureIsKept(started, between, id);
    EndClears(Run(started, between), id, tab, started.pending[tab]);
  }

  /** A rebuild takes away the request that waited for its tab when it began, and no request made since. */
  lemma RebuildClearsExactly(s: State, id: nat, tab: Tab, between: seq<Event>)
    requires Inv(s) && tab in s.pending
    requires forall i :: 0 <= i < |between| ==> between[i] != RebuildEnd(id) && !(between[i].RebuildStart? && between[i].id == id)
    ensures
      var mid := Run(Step(s, RebuildStart(id, tab)), between);
      tab in Step(mid, RebuildEnd(id)).pending <==> tab in mid.pending && mid.pending[tab] != s.pending[tab]
  {
    StartCaptures(s, id, tab);
    CapturedRequestIsCleared(Step(s, RebuildStart(id, tab)), id, tab, between);
  }

  lemma KickCopies(s: State, id: nat, tab: Tab)
    requires Inv(s) && tab in s.pending && !s.stopped
    ensures
      var begun := Step(s, Kick(id));
      Inv(begun) && begun.pending == s.pending && id in begun.ticks && begun.ticks[id] == begun.pending
  {
    StepKeepsInv(s, Kick(id));
  }

  lemma CopiedRequestIsGivenUp(begun: State, id: nat, tab: Tab, between: seq<Event>)
    requires Inv(begun) && tab in begun.pending && id in begun.ticks && begun.ticks[id] == begun.pending
    requires forall i :: 0 <= i < |between| ==> between[i] != LoopTick(id) && between[i] != Kick(id)
    ensures
      var mid := Run(begun, between);
      tab in Step(mid, RetryGivesUp(id, tab)).pending <==> tab in mid.pending && mid.pending[tab] != begun.pending[tab]
  {
    RunsOnlyReplace(begun, between, tab);
    CopyIsKept(begun, between, id);
    GivingUpClears(Run(begun, between), id, tab, begun.pending[tab]);
  }

  /** A retry that gives up takes away the request its pass copied, and no request made since. */
  lemma GiveUpClearsExactly(s: State, id: nat, tab: Tab, between: seq<Event>)
    requires Inv(s) && tab in s.pending && !s.stopped
    requires forall i :: 0 <= i < |between| ==> between[i] != LoopTick(id) && between[i] != Kick(id)
    ensures
      var mid := Run(Step(s, Kick(id)), between);
      tab in Step(mid, RetryGivesUp(id, tab)).pending <==> tab in mid.pending && mid.pending[tab] != s.pending[tab]
  {
    KickCopies(s, id, tab);
    CopiedRequestIsGivenUp(Step(s, Kick(id)), id, tab, between);
  }
}

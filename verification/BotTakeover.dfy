/**
 Takeover bindings of the bot bridge (desktop/bot_bridge.go:569-708): a chat may drive one desktop tab, kept
 in two maps that must stay inverse to each other. Whole calls keep them so; the drive call reads its
 binding and clears it in two critical sections, and the module says exactly when that is safe.
 */
module BotTakeover {
  import opened Common

  /** A chat, identified by its route key (distinct for distinct routes, see BotWatch.KeyInjective). */
  datatype Chat = Chat(key: string, direct: bool)

  datatype Session = Absent | Background | Idle | Running

  datatype DriveOutcome = Submitted | Busy | Failed | Unavailable

  datatype Reply = Done | NotDirect | NoSession | InBackground | HeldByOther | NotBound | BindingDropped | SessionBusy | DriveFailed

  /** takeovers: tab to its driver; takeoverTabs: chat key to the tab it drives. */
  datatype State = State(takeovers: map<string, Chat>, takeoverTabs: map<string, string>)

  const EMPTY := State(map[], map[])

  ghost predicate Mutual(s: State) {
    && (forall t :: t in s.takeovers ==> s.takeovers[t].key in s.takeoverTabs && s.takeoverTabs[s.takeovers[t].key] == t)
    && (forall k :: k in s.takeoverTabs ==> s.takeoverTabs[k] in s.takeovers && s.takeovers[s.takeoverTabs[k]].key == k)
  }

  function Clear(s: State, key: string, tab: string): State { State(s.takeovers - {tab}, s.takeoverTabs - {key}) }

  /** The chat switches to tab: its previous tab, if another one, loses its driver. */
  function Bind(s: State, chat: Chat, tab: string): State {
    var prev := Lookup(s.takeoverTabs, chat.key, tab);
    State((if prev == tab then s.takeovers else s.takeovers - {prev})[tab := chat], s.takeoverTabs[chat.key := tab])
  }

  function TakeoverReply(s: State, chat: Chat, tab: string, session: Session): Reply {
    if !chat.direct then NotDirect
    else if session.Absent? then NoSession
    else if session.Background? then InBackground
    else if tab in s.takeovers && s.takeovers[tab].key != chat.key then HeldByOther
    else Done
  }

  /** A chat may take over a session that is open in the foreground, from a direct conversation, if no other chat drives it. */
  predicate Grants(s: State, chat: Chat, tab: string, session: Session) {
    chat.direct && (session.Idle? || session.Running?) && (tab in s.takeovers ==> s.takeovers[tab].key == chat.key)
  }

  class Hub {
    var takeovers: map<string, Chat>
    var takeoverTabs: map<string, string>

    ghost function Abs(): State
      reads this
    {
      State(takeovers, takeoverTabs)
    }

    constructor ()
      ensures Abs() == EMPTY
    {
      takeovers, takeoverTabs := map[], map[];
    }

    method Takeover(chat: Chat, tab: string, session: Session) returns (reply: Reply, released: string)
      modifies this
      ensures reply == TakeoverReply(old(Abs()), chat, tab, session)
      ensures reply == NotDirect <==> !chat.direct
      ensures reply == NoSession <==> chat.direct && session.Absent?
      ensures reply == InBackground <==> chat.direct && session.Background?
      ensures reply == Done <==> Grants(old(Abs()), chat, tab, session)
      ensures Abs() == Step(old(Abs()), CallTakeover(chat, tab, session))
      ensures released == if reply == Done && Lookup(old(takeoverTabs), chat.key, tab) != tab then old(takeoverTabs)[chat.key] else ""
    {
      released := "";
      if !chat.direct {
        return NotDirect, "";
      }
      if session.Absent? {
        return NoSession, "";
      }
      if session.Background? {
        return InBackground, "";
      }
      if tab in takeovers && takeovers[tab].key != chat.key {
        return HeldByOther, "";
      }
      if chat.key in takeoverTabs && takeoverTabs[chat.key] != tab {
        released := takeoverTabs[chat.key];
        takeovers := takeovers - {released};
      }
      takeovers := takeovers[tab := chat];
      takeoverTabs := takeoverTabs[chat.key := tab];
      reply := Done;
    }

    method Release(chat: Chat) returns (reply: Reply)
      modifies this
      ensures reply == if chat.key in old(takeoverTabs) then Done else NotBound
      ensures Abs() == Step(old(Abs()), CallRelease(chat))
    {
      if chat.key !in takeoverTabs {
        return NotBound;
      }
      var tab := takeoverTabs[chat.key];
      takeoverTabs := takeoverTabs - {chat.key};
      takeovers := takeovers - {tab};
      return Done;
    }

    /** A whole drive call: nothing else touches the bindings between its two critical sections. */
    method DriveInput(chat: Chat, session: Session, outcome: DriveOutcome) returns (reply: Reply)
      modifies this
      ensures Abs() == Step(old(Abs()), CallDrive(chat, session))
      ensures Lookup(old(takeoverTabs), chat.key, "") == "" <==> reply == NotBound
      ensures reply == BindingDropped ==> chat.key !in takeoverTabs
      ensures reply != NotBound ==> (reply == BindingDropped <==> session.Absent? || session.Background?)
      ensures reply == Done <==> Lookup(old(takeoverTabs), chat.key, "") != "" && session.Idle? && outcome.Submitted?
      ensures reply == SessionBusy <==>
        Lookup(old(takeoverTabs), chat.key, "") != "" && (session.Running? || (session.Idle? && outcome.Busy?))
    {
      var tab := Lookup(takeoverTabs, chat.key, "");
      if tab == "" {
        return NotBound;
      }
      if session.Absent? || session.Background? {
        takeoverTabs := takeoverTabs - {chat.key};
        takeovers := takeovers - {tab};
        return BindingDropped;
      }
      if session.Running? {
        return SessionBusy;
      }
      match outcome
      case Unavailable => return DriveFailed;
      case Busy => return SessionBusy;
      case Failed => return DriveFailed;
      case Submitted => return Done;
    }

    method ReclaimFromDesktop(tab: string) returns (notified: bool)
      modifies this
      ensures notified <==> tab in old(takeovers)
      ensures Abs() == Step(old(Abs()), CallReclaim(tab))
    {
      if tab !in takeovers {
        return false;
      }
      var chat := takeovers[tab];
      takeovers := takeovers - {tab};
      takeoverTabs := takeoverTabs - {chat.key};
      return true;
    }
  }

  // ---- Whole calls ----

  datatype Call =
    | CallTakeover(chat: Chat, tab: string, session: Session)
    | CallRelease(chat: Chat)
    | CallDrive(chat: Chat, session: Session)
    | CallReclaim(tab: string)

  function Step(s: State, c: Call): State {
    match c
    case CallTakeover(chat, tab, session) => if TakeoverReply(s, chat, tab, session).Done? then Bind(s, chat, tab) else s
    case CallRelease(chat) => if chat.key in s.takeoverTabs then Clear(s, chat.key, s.takeoverTabs[chat.key]) else s
    case CallDrive(chat, session) =>
      var tab := Lookup(s.takeoverTabs, chat.key, "");
      if tab != "" && (session.Absent? || session.Background?) then Clear(s, chat.key, tab) else s
    case CallReclaim(tab) => if tab in s.takeovers then Clear(s, s.takeovers[tab].key, tab) else s
  }

  function Run(calls: seq<Call>): State {
    if calls == [] then EMPTY else Step(Run(calls[..|calls| - 1]), calls[|calls| - 1])
  }

  lemma StepKeepsMutual(s: State, c: Call)
    requires Mutual(s)
    ensures Mutual(Step(s, c))
  {
  }

  /** After any sequence of whole calls the maps are inverse: one driver per tab and one tab per chat. */
  lemma {:induction false} EveryRunIsMutual(calls: seq<Call>)
    ensures Mutual(Run(calls))
    ensures
      var tabs := Run(calls).takeoverTabs;
      forall k, l :: k in tabs && l in tabs && tabs[k] == tabs[l] ==> k == l
  {
    if calls != [] {
      EveryRunIsMutual(calls[..|calls| - 1]);
      StepKeepsMutual(Run(calls[..|calls| - 1]), calls[|calls| - 1]);
    }
  }

  /** Nobody can take a tab from the chat that drives it: only that chat, the desktop or a lost session ends a takeover. */
  lemma DriverIsNotDisplaced(s: State, c: Call, tab: string)
    requires Mutual(s) && tab in s.takeovers
    ensures
      var driver := s.takeovers[tab].key;
      var s' := Step(s, c);
      (tab in s'.takeovers && s'.takeovers[tab].key == driver)
      || (c.CallTakeover? && c.chat.key == driver && c.tab != tab)
      || (c.CallRelease? && c.chat.key == driver)
      || (c.CallDrive? && c.chat.key == driver && (c.session.Absent? || c.session.Background?))
      || c == CallReclaim(tab)
  {
  }

  predicate Drives(s: State, key: string, tab: string) { key in s.takeoverTabs && s.takeoverTabs[key] == tab }

  /**
   Who drives what after a call, told from who drove what before: a granted takeover moves its chat to the tab, every
   refused one changes nothing, and a release, a lost session or the desktop ends exactly the bindings concerned.
   */
  lemma DrivesExactly(s: State, c: Call, key: string, tab: string)
    requires Mutual(s)
    ensures Drives(Step(s, c), key, tab) <==>
      match c
      case CallTakeover(chat, t, session) =>
        if chat.key == key && Grants(s, chat, t, session) then tab == t else Drives(s, key, tab)
      case CallRelease(chat) => Drives(s, key, tab) && chat.key != key
      case CallDrive(chat, session) =>
        Drives(s, key, tab) && !(chat.key == key && tab != "" && (session.Absent? || session.Background?))
      case CallReclaim(t) => Drives(s, key, tab) && t != tab
  {
    StepKeepsMutual(s, c);
  }

  /** The takeover table records the chat that was granted the tab last, as it was then, and nothing under its former tab. */
  lemma GrantedChatIsRecorded(s: State, chat: Chat, tab: string, session: Session, other: string)
    requires Mutual(s)
    ensures
      var s' := Step(s, CallTakeover(chat, tab, session));
      var granted := Grants(s, chat, tab, session);
      var given := granted && other == tab;
      && (other in s'.takeovers <==> given || (other in s.takeovers && !(granted && s.takeovers[other].key == chat.key)))
      && (other in s'.takeovers ==> s'.takeovers[other] == if given then chat else s.takeovers[other])
  {
  }

  // ---- The drive call as two critical sections ----

  /** Clearing a remembered binding keeps the maps inverse exactly when it still holds or nothing of it is left. */
  lemma ClearIsSafeExactly(s: State, key: string, tab: string)
    requires Mutual(s)
    ensures Mutual(Clear(s, key, tab)) <==>
      (key in s.takeoverTabs && s.takeoverTabs[key] == tab) || (key !in s.takeoverTabs && tab !in s.takeovers)
  {
    var s' := Clear(s, key, tab);
    if key in s.takeoverTabs && s.takeoverTabs[key] != tab {
      assert s.takeoverTabs[key] in s'.takeovers;
    }
    if key !in s.takeoverTabs && tab in s.takeovers {
      assert s.takeovers[tab].key in s'.takeoverTabs;
    }
  }

  datatype SplitEvent = Whole(call: Call) | DriveRead(id: nat, chat: Chat) | DriveClear(id: nat)

  /** Drive calls between their sections remember the chat key and the tab they read. */
  datatype SplitState = SplitState(s: State, pending: map<nat, (string, string)>)

  function SplitStep(x: SplitState, e: SplitEvent): SplitState {
    match e
    case Whole(call) => x.(s := Step(x.s, call))
    case DriveRead(id, chat) =>
      var tab := Lookup(x.s.takeoverTabs, chat.key, "");
      if tab == "" || id in x.pending then x else x.(pending := x.pending[id := (chat.key, tab)])
    case DriveClear(id) =>
      if id !in x.pending then x
      else SplitState(Clear(x.s, x.pending[id].0, x.pending[id].1), x.pending - {id})
  }

  function SplitRun(x: SplitState, events: seq<SplitEvent>): SplitState {
    if events == [] then x else SplitStep(SplitRun(x, events[..|events| - 1]), events[|events| - 1])
  }

  /** The clear still meets the binding it remembers, or nothing of it is left. */
  predicate ClearIsCurrent(x: SplitState, e: SplitEvent) {
    e.DriveClear? && e.id in x.pending ==>
      var (key, tab) := x.pending[e.id];
      (key in x.s.takeoverTabs && x.s.takeoverTabs[key] == tab) || (key !in x.s.takeoverTabs && tab !in x.s.takeovers)
  }

  /** In any interleaving a step keeps the maps inverse exactly when it is not a stale clear. */
  lemma SplitStepIsSafeExactly(x: SplitState, e: SplitEvent)
    requires Mutual(x.s)
    ensures Mutual(SplitStep(x, e).s) <==> ClearIsCurrent(x, e)
  {
    match e
    case Whole(call) => StepKeepsMutual(x.s, call);
    case DriveRead(_, _) =>
    case DriveClear(id) =>
      if id in x.pending {
        ClearIsSafeExactly(x.s, x.pending[id].0, x.pending[id].1);
      }
  }

  lemma {:induction false} SplitRunsAreSafe(events: seq<SplitEvent>)
    requires forall i :: 0 <= i < |events| ==> ClearIsCurrent(SplitRun(SplitState(EMPTY, map[]), events[..i]), events[i])
    ensures Mutual(SplitRun(SplitState(EMPTY, map[]), events).s)
  {
    if events != [] {
      var rest := events[..|events| - 1];
      forall i | 0 <= i < |rest|
        ensures ClearIsCurrent(SplitRun(SplitState(EMPTY, map[]), rest[..i]), rest[i])
      {
        assert rest[..i] == events[..i];
      }
      SplitRunsAreSafe(rest);
      SplitStepIsSafeExactly(SplitRun(SplitState(EMPTY, map[]), rest), events[|events| - 1]);
    }
  }

  /**
   The stale clear happens: a chat's drive call reads its tab, the chat releases it, another chat takes it
   over, and the clear then removes the new driver while that chat still believes it is bound.
   */
  lemma StaleClearStrandsNewDriver(a: Chat, b: Chat, tab: string)
    requires a.direct && b.direct && a.key != b.key && tab != ""
    ensures
      var events := [Whole(CallTakeover(a, tab, Idle)), DriveRead(0, a), Whole(CallRelease(a)), Whole(CallTakeover(b, tab, Idle)), DriveClear(0)];
      var s := SplitRun(SplitState(EMPTY, map[]), events).s;
      b.key in s.takeoverTabs && s.takeoverTabs[b.key] == tab && tab !in s.takeovers && !Mutual(s)
  {
    var e := [Whole(CallTakeover(a, tab, Idle)), DriveRead(0, a), Whole(CallRelease(a)), Whole(CallTakeover(b, tab, Idle)), DriveClear(0)];
    var x0 := SplitState(EMPTY, map[]);
    assert e[..4][..3][..2][..1][..0] == [] && e[..4][..3][..2][..1] == e[..1];
    assert e[..4][..3][..2] == e[..2] && e[..4][..3] == e[..3];
    var x1 := SplitStep(x0, e[0]);
    assert SplitRun(x0, e[..1]) == x1;
    var x2 := SplitStep(x1, e[1]);
    assert SplitRun(x0, e[..2]) == x2 by { assert e[..2][..1] == e[..1]; }
    assert x2.pending == map[0 := (a.key, tab)];
    var x3 := SplitStep(x2, e[2]);
    assert SplitRun(x0, e[..3]) == x3 by { assert e[..3][..2] == e[..2]; }
    var x4 := SplitStep(x3, e[3]);
    assert SplitRun(x0, e[..4]) == x4 by { assert e[..4][..3] == e[..3]; }
    assert x4.s.takeoverTabs[b.key] == tab && x4.s.takeovers[tab] == b;
    assert SplitRun(x0, e) == SplitStep(x4, e[4]);
  }
}

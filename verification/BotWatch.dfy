/**
 Watch subscriptions of the bot bridge (desktop/bot_bridge.go:434-507): changes are numbered under one
 mutex, persisted under a second one with stale snapshots dropped, and re-seeded from the config by a reader
 that took a version number first. Every critical section is one step of a transition system.
 */
module BotWatch {
  import opened Common

  // ---- Routes and their keys (internal/bot/desktop.go:45-49) ----

  datatype Route = Route(platform: string, connectionID: string, domain: string, chatType: string, chatID: string)

  function Digit(n: nat): char
    requires n < 10
  {
    "0123456789"[n]
  }

  function Decimal(n: nat): (s: string)
    ensures s != "" && forall i :: 0 <= i < |s| ==> s[i] in "0123456789"
  {
    if n < 10 then [Digit(n)] else Decimal(n / 10) + [Digit(n % 10)]
  }

  /** A field with its length in front, so that no separator inside a field can be mistaken for a boundary. */
  function Field(s: string): string { Decimal(|s|) + ":" + s }

  function Key(r: Route): string {
    Field(r.platform) + ("|" + (Field(r.connectionID) + ("|" + (Field(r.domain) + ("|" + (Field(r.chatType) + ("|" + Field(r.chatID))))))))
  }

  lemma {:induction false} DecimalInjective(a: nat, b: nat)
    requires Decimal(a) == Decimal(b)
    ensures a == b
  {
    var s, t := Decimal(a), Decimal(b);
    assert s[|s| - 1] == Digit(a % 10) && t[|t| - 1] == Digit(b % 10);
    assert a % 10 == b % 10;
    if a >= 10 && b >= 10 {
      assert s[..|s| - 1] == Decimal(a / 10) && t[..|t| - 1] == Decimal(b / 10);
      DecimalInjective(a / 10, b / 10);
    }
  }

  /** Two length-prefixed fields followed by anything: equal texts have equal fields and equal rests. */
  lemma FieldSplits(a: string, b: string, x: string, y: string)
    requires Field(a) + x == Field(b) + y
    ensures a == b && x == y
  {
    var s, t := Field(a) + x, Field(b) + y;
    var m, n := |Decimal(|a|)|, |Decimal(|b|)|;
    assert s[m] == ':' && t[n] == ':';
    assert forall i :: 0 <= i < m ==> s[i] == Decimal(|a|)[i];
    assert forall i :: 0 <= i < n ==> t[i] == Decimal(|b|)[i];
    assert m == n;
    assert s[..m] == Decimal(|a|) && t[..n] == Decimal(|b|);
    DecimalInjective(|a|, |b|);
    assert s[m + 1..m + 1 + |a|] == a && t[m + 1..m + 1 + |b|] == b;
    assert s[m + 1 + |a|..] == x && t[m + 1 + |b|..] == y;
  }

  lemma BarSplits(x: string, y: string)
    requires "|" + x == "|" + y
    ensures x == y
  {
    assert ("|" + x)[1..] == x && ("|" + y)[1..] == y;
  }

  /** The key separates every two routes, whatever characters their fields contain. */
  lemma KeyInjective(a: Route, b: Route)
    requires Key(a) == Key(b)
    ensures a == b
  {
    var a4, b4 := "|" + Field(a.chatID), "|" + Field(b.chatID);
    var a3, b3 := "|" + (Field(a.chatType) + a4), "|" + (Field(b.chatType) + b4);
    var a2, b2 := "|" + (Field(a.domain) + a3), "|" + (Field(b.domain) + b3);
    var a1, b1 := "|" + (Field(a.connectionID) + a2), "|" + (Field(b.connectionID) + b2);
    FieldSplits(a.platform, b.platform, a1, b1);
    BarSplits(Field(a.connectionID) + a2, Field(b.connectionID) + b2);
    FieldSplits(a.connectionID, b.connectionID, a2, b2);
    BarSplits(Field(a.domain) + a3, Field(b.domain) + b3);
    FieldSplits(a.domain, b.domain, a3, b3);
    BarSplits(Field(a.chatType) + a4, Field(b.chatType) + b4);
    FieldSplits(a.chatType, b.chatType, a4, b4);
    BarSplits(Field(a.chatID), Field(b.chatID));
    assert Field(a.chatID) + "" == Field(a.chatID) && Field(b.chatID) + "" == Field(b.chatID);
    FieldSplits(a.chatID, b.chatID, "", "");
  }

  // ---- Configuration round trip (desktop/bot_bridge_app.go:153-185) ----

  /** The white space that trimming removes, in and beyond ASCII. */
  predicate Space(c: char) {
    || '\U{0009}' <= c <= '\U{000d}' || c == ' ' || c == '\U{0085}' || c == '\U{00a0}' || c == '\U{1680}'
    || '\U{2000}' <= c <= '\U{200a}' || c == '\U{2028}' || c == '\U{2029}' || c == '\U{202f}' || c == '\U{205f}' || c == '\U{3000}'
  }

  function TrimLeft(s: string): (r: string)
    ensures r == "" || !Space(r[0])
    ensures r != "" ==> s != "" && r[|r| - 1] == s[|s| - 1]
    ensures s == "" || !Space(s[0]) ==> r == s
  {
    if s == "" || !Space(s[0]) then s else TrimLeft(s[1..])
  }

  function TrimRight(s: string): (r: string)
    ensures r == "" || !Space(r[|r| - 1])
    ensures r != "" ==> s != "" && r[0] == s[0]
    ensures s == "" || !Space(s[|s| - 1]) ==> r == s
  {
    if s == "" || !Space(s[|s| - 1]) then s else TrimRight(s[..|s| - 1])
  }

  function Trim(s: string): (r: string)
    ensures r == "" || (!Space(r[0]) && !Space(r[|r| - 1]))
  {
    TrimRight(TrimLeft(s))
  }

  ghost predicate Blank(s: string) { forall i :: 0 <= i < |s| ==> Space(s[i]) }

  lemma {:induction false} TrimLeftCuts(s: string) returns (cut: string)
    ensures s == cut + TrimLeft(s) && Blank(cut)
  {
    if s == "" || !Space(s[0]) {
      cut := "";
    } else {
      var rest := TrimLeftCuts(s[1..]);
      cut := [s[0]] + rest;
    }
  }

  lemma {:induction false} TrimRightCuts(s: string) returns (cut: string)
    ensures s == TrimRight(s) + cut && Blank(cut)
  {
    if s == "" || !Space(s[|s| - 1]) {
      cut := "";
    } else {
      var rest := TrimRightCuts(s[..|s| - 1]);
      cut := rest + [s[|s| - 1]];
    }
  }

  /** Trimming cuts white space off both ends, all of it, and nothing else. */
  lemma TrimExactly(s: string) returns (before: string, after: string)
    ensures s == before + Trim(s) + after && Blank(before) && Blank(after)
    ensures Trim(s) == "" || (!Space(Trim(s)[0]) && !Space(Trim(s)[|Trim(s)| - 1]))
  {
    before := TrimLeftCuts(s);
    after := TrimRightCuts(TrimLeft(s));
  }

  /** A route as it comes back from the config file. */
  function Reread(r: Route): Route {
    Route(Trim(r.platform), Trim(r.connectionID), Trim(r.domain), Trim(r.chatType), Trim(r.chatID))
  }

  /** Reading a route back once is enough. */
  lemma RereadOnce()
    ensures Settled(Reread)
  {
  }

  /** What the results below need of the way a route comes back: a second time changes nothing more. */
  ghost predicate Settled(reread: Route -> Route) { forall r :: reread(reread(r)) == reread(r) }

  /** Routes that survive a round trip through the config file. */
  predicate Durable(reread: Route -> Route, r: Route) { reread(r) == r && r.chatID != "" }

  function Seeded(reread: Route -> Route, config: set<Route>): set<Route> { set r | r in config && reread(r).chatID != "" :: reread(r) }

  /** Seeding watches what the stored routes read as, without those that have no chat. */
  lemma SeededExactly(reread: Route -> Route, config: set<Route>, r: Route)
    ensures r in Seeded(reread, config) <==> r.chatID != "" && exists stored :: stored in config && reread(stored) == r
  {
  }

  /** Re-seeding from the routes themselves changes nothing exactly when all of them are durable. */
  lemma SeedIsIdentityExactly(reread: Route -> Route, routes: set<Route>)
    requires Settled(reread)
    ensures Seeded(reread, routes) == routes <==> forall r :: r in routes ==> Durable(reread, r)
  {
    forall r | r in Seeded(reread, routes)
      ensures Durable(reread, r)
    {
      var x :| x in routes && reread(x).chatID != "" && r == reread(x);
    }
    forall r | r in routes && Durable(reread, r)
      ensures r in Seeded(reread, routes)
    {
      assert reread(r) == r;
    }
  }

  // ---- The hub ----

  type Watchers = map<string, Route>

  predicate WellKeyed(w: Watchers) { forall k :: k in w ==> k == Key(w[k]) }

  /** A change in progress: numbered with the routes it captured, persisted but not yet marked, or returned. */
  datatype Call = Waiting(seqNo: nat, routes: set<Route>) | Persisted(seqNo: nat) | Returned(seqNo: nat, ok: bool)

  /** A refresh: the version it took, whether nothing was dirty then, and the config it read. */
  datatype Reader = Reader(version: nat, cleanAtRead: bool, config: Option<set<Route>>)

  /** history[n] is the snapshot numbered n; history[0] is what the config held at start. */
  datatype State = State(
    watchers: set<Route>,
    watchSeq: nat,
    dirty: bool,
    lastPersistSeq: nat,
    store: set<Route>,
    persistHolder: Option<nat>,
    calls: map<nat, Call>,
    readers: map<nat, Reader>,
    history: seq<set<Route>>,
    edited: bool)

  datatype Event =
    | Change(call: nat, route: Route, enable: bool)
    | Persist(call: nat, ok: bool)
    | Mark(call: nat)
    | ReadVersion(reader: nat)
    | ReadConfig(reader: nat)
    | Seed(reader: nat)
    | OutsideEdit(routes: set<Route>)

  function Changed(routes: set<Route>, route: Route, enable: bool): set<Route> {
    if enable then routes + {route} else routes - {route}
  }

  function AfterChange(s: State, call: nat, route: Route, enable: bool): State {
    if call in s.calls then s
    else
      var w := Changed(s.watchers, route, enable);
      s.(watchers := w, watchSeq := s.watchSeq + 1, dirty := true,
         calls := s.calls[call := Waiting(s.watchSeq + 1, w)], history := s.history + [w])
  }

  function AfterPersist(s: State, call: nat, ok: bool): State {
    if call !in s.calls || !s.calls[call].Waiting? || s.persistHolder.Some? then s
    else
      var n := s.calls[call].seqNo;
      if n <= s.lastPersistSeq then s.(calls := s.calls[call := Returned(n, true)])
      else if !ok then s.(calls := s.calls[call := Returned(n, false)])
      else s.(store := s.calls[call].routes, lastPersistSeq := n, persistHolder := Some(call), calls := s.calls[call := Persisted(n)])
  }

  function AfterMark(s: State, call: nat): State {
    if call !in s.calls || !s.calls[call].Persisted? then s
    else
      var n := s.calls[call].seqNo;
      s.(dirty := s.dirty && s.watchSeq != n, persistHolder := None, calls := s.calls[call := Returned(n, true)])
  }

  function AfterSeed(reread: Route -> Route, s: State, reader: nat): State {
    if reader !in s.readers || s.readers[reader].config.None? || s.persistHolder.Some? then s
    else if s.watchSeq != s.readers[reader].version || s.dirty then s
    else s.(watchers := Seeded(reread, s.readers[reader].config.value))
  }

  function AfterRead(s: State, e: Event): State {
    match e
    case ReadVersion(reader) => s.(readers := s.readers[reader := Reader(s.watchSeq, !s.dirty, None)])
    case ReadConfig(reader) =>
      if reader !in s.readers then s else s.(readers := s.readers[reader := s.readers[reader].(config := Some(s.store))])
    case _ => s
  }

  function Step(reread: Route -> Route, s: State, e: Event): State {
    match e
    case Change(call, route, enable) => AfterChange(s, call, route, enable)
    case Persist(call, ok) => AfterPersist(s, call, ok)
    case Mark(call) => AfterMark(s, call)
    case Seed(reader) => AfterSeed(reread, s, reader)
    case OutsideEdit(routes) => s.(store := routes, edited := true)
    case _ => AfterRead(s, e)
  }

  function Run(reread: Route -> Route, s: State, events: seq<Event>): State {
    if events == [] then s else Step(reread, Run(reread, s, events[..|events| - 1]), events[|events| - 1])
  }

  /** A hub just seeded from its config. */
  function Start(config: set<Route>): State {
    State(config, 0, false, 0, config, None, map[], map[], [config], false)
  }

  class Hub {
    var watchers: Watchers
    var watchSeq: nat
    var watchPersistDirty: bool
    var lastPersistSeq: nat
    /** The config file, written only through PersistSnapshot. */
    var store: set<Route>
    ghost var persistHolder: Option<nat>
    ghost var calls: map<nat, Call>
    ghost var readers: map<nat, Reader>
    ghost var history: seq<set<Route>>
    ghost var edited: bool

    ghost function Abs(): State
      reads this
    {
      State(watchers.Values, watchSeq, watchPersistDirty, lastPersistSeq, store, persistHolder, calls, readers, history, edited)
    }

    ghost predicate Valid()
      reads this
    {
      WellKeyed(watchers) && Inv(Abs())
    }

    constructor ()
      ensures Valid() && Abs() == Start({})
    {
      watchers, watchSeq, watchPersistDirty, lastPersistSeq, store := map[], 0, false, 0, {};
      persistHolder, calls, readers, history, edited := None, map[], map[], [{}], false;
    }

    /** First critical section of SetWatch: numbers the change and takes its snapshot. */
    method Change(ghost call: nat, route: Route, enable: bool) returns (seqNo: nat, routes: set<Route>)
      requires Valid() && call !in calls
      modifies this
      ensures Valid() && Abs() == AfterChange(old(Abs()), call, route, enable)
      ensures calls[call] == Waiting(seqNo, routes)
    {
      ChangeKeepsInv(Abs(), call, route, enable);
      watchers := EditWatchers(watchers, route, enable);
      watchSeq := watchSeq + 1;
      watchPersistDirty := true;
      seqNo := watchSeq;
      routes := watchers.Values;
      calls, history := calls[call := Waiting(seqNo, routes)], history + [routes];
    }

    /**
     A whole SetWatch call with no other call between its sections. persist is absent when the hub has no
     config to write to; otherwise it tells whether the write succeeds.
     */
    method SetWatch(ghost call: nat, route: Route, enable: bool, persist: Option<bool>) returns (ok: bool)
      requires Valid() && call !in calls && persistHolder.None?
      modifies this
      ensures Valid() && ok == (persist != Some(false))
      ensures persist.None? ==> Abs() == AfterChange(old(Abs()), call, route, enable)
      ensures persist.Some? ==> Abs() == AfterMark(AfterPersist(AfterChange(old(Abs()), call, route, enable), call, persist.value), call)
      ensures persist.Some? ==> calls[call] == Returned(watchSeq, ok)
      ensures persist == Some(true) ==> store == watchers.Values && lastPersistSeq == watchSeq && !watchPersistDirty
    {
      var seqNo, routes := Change(call, route, enable);
      if persist.None? {
        return true;
      }
      var stored;
      stored, ok := PersistSnapshot(call, seqNo, routes, persist.value);
      if stored {
        MarkPersisted(call, seqNo);
      }
    }

    /** Second section, under the persist mutex: a snapshot older than the persisted one is dropped. */
    method PersistSnapshot(ghost call: nat, seqNo: nat, routes: set<Route>, writeOk: bool) returns (stored: bool, ok: bool)
      requires Valid() && call in calls && calls[call] == Waiting(seqNo, routes) && persistHolder.None?
      modifies this
      ensures Valid() && Abs() == AfterPersist(old(Abs()), call, writeOk)
      ensures calls[call] == if stored then Persisted(seqNo) else Returned(seqNo, ok)
      ensures stored ==> ok && persistHolder == Some(call)
    {
      PersistKeepsInv(Abs(), call, writeOk);
      if seqNo <= lastPersistSeq {
        calls := calls[call := Returned(seqNo, true)];
        return false, true;
      }
      if !writeOk {
        calls := calls[call := Returned(seqNo, false)];
        return false, false;
      }
      store := routes;
      lastPersistSeq := seqNo;
      persistHolder, calls := Some(call), calls[call := Persisted(seqNo)];
      return true, true;
    }

    /** Last section: clean only if nothing newer changed in the meantime. */
    method MarkPersisted(ghost call: nat, seqNo: nat)
      requires Valid() && call in calls && calls[call] == Persisted(seqNo)
      modifies this
      ensures Valid() && Abs() == AfterMark(old(Abs()), call) && calls[call] == Returned(seqNo, true)
    {
      MarkKeepsInv(Abs(), call);
      if watchSeq == seqNo {
        watchPersistDirty := false;
      }
      persistHolder, calls := None, calls[call := Returned(seqNo, true)];
    }

    method WatcherVersion(ghost reader: nat) returns (version: nat)
      requires Valid()
      modifies this`readers
      ensures Valid() && Abs() == AfterRead(old(Abs()), ReadVersion(reader))
      ensures readers[reader].version == version == watchSeq
    {
      readers := readers[reader := Reader(watchSeq, !watchPersistDirty, None)];
      return watchSeq;
    }

    /** Applies a config snapshot unless the runtime changed since the version was taken. */
    method SeedWatchers(ghost reader: nat, config: seq<Route>, expectedSeq: nat)
      requires Valid() && persistHolder.None?
      requires reader in readers && readers[reader].version == expectedSeq && readers[reader].config == Some(Listed(config))
      modifies this`watchers
      ensures Valid() && Abs() == AfterSeed(Reread, old(Abs()), reader)
    {
      if watchSeq != expectedSeq || watchPersistDirty {
        return;
      }
      SeedKeepsInv(Reread, Abs(), reader);
      watchers := ReadWatchers(config);
    }
  }

  method EditWatchers(watchers: Watchers, route: Route, enable: bool) returns (edited: Watchers)
    requires WellKeyed(watchers)
    ensures WellKeyed(edited) && edited.Values == Changed(watchers.Values, route, enable)
  {
    if enable {
      AddRoute(watchers, route);
      edited := watchers[Key(route) := route];
    } else {
      RemoveRoute(watchers, route);
      edited := watchers - {Key(route)};
    }
  }

  /** The subscriptions a config stands for. */
  method ReadWatchers(config: seq<Route>) returns (watchers: Watchers)
    ensures WellKeyed(watchers) && watchers.Values == Seeded(Reread, Listed(config))
  {
    watchers := map[];
    for i := 0 to |config|
      invariant WellKeyed(watchers)
      invariant watchers.Values == Seeded(Reread, Listed(config[..i]))
    {
      SeedOneMore(config, i);
      var r := Reread(config[i]);
      if r.chatID == "" {
        continue;
      }
      AddRoute(watchers, r);
      watchers := watchers[Key(r) := r];
    }
    assert config[..|config|] == config;
  }

  function Listed(routes: seq<Route>): set<Route> { set r | r in routes }

  lemma SeedOneMore(config: seq<Route>, i: nat)
    requires i < |config|
    ensures Seeded(Reread, Listed(config[..i + 1]))
         == Seeded(Reread, Listed(config[..i])) + if Reread(config[i]).chatID != "" then {Reread(config[i])} else {}
  {
    assert config[..i + 1] == config[..i] + [config[i]];
    assert Listed(config[..i + 1]) == Listed(config[..i]) + {config[i]};
  }

  lemma AddRoute(w: Watchers, r: Route)
    requires WellKeyed(w)
    ensures WellKeyed(w[Key(r) := r]) && w[Key(r) := r].Values == w.Values + {r}
  {
    var w' := w[Key(r) := r];
    forall x | x in w.Values
      ensures x in w'.Values
    {
      if Key(x) == Key(r) {
        KeyInjective(x, r);
      } else {
        assert Key(x) in w' && w'[Key(x)] == x;
      }
    }
    assert Key(r) in w' && w'[Key(r)] == r;
  }

  lemma RemoveRoute(w: Watchers, r: Route)
    requires WellKeyed(w)
    ensures WellKeyed(w - {Key(r)}) && (w - {Key(r)}).Values == w.Values - {r}
  {
    var w' := w - {Key(r)};
    forall x | x in w.Values && x != r
      ensures x in w'.Values
    {
      var k :| k in w && w[k] == x;
      if k == Key(r) {
        KeyInjective(x, r);
      }
      assert k in w' && w'[k] == x;
    }
    forall x | x in w'.Values
      ensures x in w.Values && x != r
    {
      var k :| k in w' && w'[k] == x;
      assert k in w;
    }
  }

  // ---- Safety over every interleaving ----

  ghost predicate CallsAccounted(s: State) {
    && (forall c :: c in s.calls ==>
          && s.calls[c].seqNo <= s.watchSeq
          && (s.calls[c].Waiting? ==> s.calls[c].seqNo < |s.history| && s.calls[c].routes == s.history[s.calls[c].seqNo])
          && (s.calls[c].Persisted? ==> s.persistHolder == Some(c) && s.calls[c].seqNo == s.lastPersistSeq)
          && (s.calls[c].Returned? && s.calls[c].ok ==> s.calls[c].seqNo <= s.lastPersistSeq))
    && (s.persistHolder.Some? ==> s.persistHolder.value in s.calls && s.calls[s.persistHolder.value].Persisted?)
  }

  /** The config holds the snapshot numbered lastPersistSeq; clean means the newest change is persisted. */
  ghost predicate Numbered(s: State) {
    && |s.history| == s.watchSeq + 1
    && s.lastPersistSeq <= s.watchSeq
    && (!s.edited ==> s.store == s.history[s.lastPersistSeq])
    && (!s.dirty ==> s.lastPersistSeq == s.watchSeq)
  }

  ghost predicate Inv(s: State) { Numbered(s) && CallsAccounted(s) }

  lemma ChangeKeepsInv(s: State, call: nat, route: Route, enable: bool)
    requires Inv(s)
    ensures Inv(AfterChange(s, call, route, enable))
  {
  }

  lemma PersistKeepsInv(s: State, call: nat, ok: bool)
    requires Inv(s)
    ensures Inv(AfterPersist(s, call, ok)) && s.lastPersistSeq <= AfterPersist(s, call, ok).lastPersistSeq
  {
    var s' := AfterPersist(s, call, ok);
    assert forall c :: c in s'.calls ==> c in s.calls && (c != call ==> s'.calls[c] == s.calls[c]);
  }

  lemma MarkKeepsInv(s: State, call: nat)
    requires Inv(s)
    ensures Inv(AfterMark(s, call))
  {
    var s' := AfterMark(s, call);
    assert forall c :: c in s'.calls ==> c in s.calls && (c != call ==> s'.calls[c] == s.calls[c]);
  }

  lemma SeedKeepsInv(reread: Route -> Route, s: State, reader: nat)
    requires Inv(s)
    ensures Inv(AfterSeed(reread, s, reader))
  {
  }

  lemma StepKeepsInv(reread: Route -> Route, s: State, e: Event)
    requires Inv(s)
    ensures Inv(Step(reread, s, e))
    ensures s.lastPersistSeq <= Step(reread, s, e).lastPersistSeq
  {
    match e
    case Change(call, route, enable) => ChangeKeepsInv(s, call, route, enable);
    case Persist(call, ok) => PersistKeepsInv(s, call, ok);
    case Mark(call) => MarkKeepsInv(s, call);
    case _ =>
  }

  lemma {:induction false} EveryRunKeepsInv(reread: Route -> Route, config: set<Route>, events: seq<Event>)
    ensures Inv(Run(reread, Start(config), events))
  {
    if events != [] {
      EveryRunKeepsInv(reread, config, events[..|events| - 1]);
      StepKeepsInv(reread, Run(reread, Start(config), events[..|events| - 1]), events[|events| - 1]);
    }
  }

  /**
   Persistence, in every interleaving with failing writes: a change that returned success is covered by the
   persisted number, and without outside edits the config is exactly the snapshot with that number.
   */
  lemma SuccessfulChangeIsPersisted(reread: Route -> Route, config: set<Route>, events: seq<Event>, call: nat)
    ensures
      var s := Run(reread, Start(config), events);
      && (call in s.calls && s.calls[call].Returned? && s.calls[call].ok ==> s.calls[call].seqNo <= s.lastPersistSeq)
      && s.lastPersistSeq < |s.history|
      && (!s.edited ==> s.store == s.history[s.lastPersistSeq])
  {
    EveryRunKeepsInv(reread, config, events);
  }

  lemma {:induction false} PersistedNumberNeverFalls(reread: Route -> Route, config: set<Route>, events: seq<Event>, k: nat)
    requires k <= |events|
    ensures Run(reread, Start(config), events[..k]).lastPersistSeq <= Run(reread, Start(config), events).lastPersistSeq
  {
    if k == |events| {
      assert events[..k] == events;
    } else {
      var rest := events[..|events| - 1];
      PersistedNumberNeverFalls(reread, config, rest, k);
      assert rest[..k] == events[..k];
      EveryRunKeepsInv(reread, config, rest);
      StepKeepsInv(reread, Run(reread, Start(config), rest), events[|events| - 1]);
    }
  }

  // ---- Seeding ----

  /** Seeds of one run all took their version while nothing was dirty, nobody edits the config, routes are durable. */
  ghost predicate Disciplined(reread: Route -> Route, s: State, e: Event) {
    && !e.OutsideEdit?
    && (e.Seed? && e.reader in s.readers ==> s.readers[e.reader].cleanAtRead)
    && (e.Change? ==> Durable(reread, e.route))
  }

  /** A config read under a version that is still current and was clean is the newest snapshot. */
  ghost predicate FreshRead(s: State, d: Reader)
    requires |s.history| == s.watchSeq + 1
  {
    && d.version <= s.watchSeq
    && (d.cleanAtRead && d.version == s.watchSeq ==>
          s.lastPersistSeq == s.watchSeq && (d.config.Some? ==> d.config.value == s.history[s.watchSeq]))
  }

  ghost predicate MemoryInv(reread: Route -> Route, s: State) {
    && Inv(s)
    && !s.edited
    && s.watchers == s.history[s.watchSeq]
    && (forall r :: r in s.watchers ==> Durable(reread, r))
    && (forall d :: d in s.readers ==> FreshRead(s, s.readers[d]))
  }

  lemma ChangeKeepsMemory(reread: Route -> Route, s: State, call: nat, route: Route, enable: bool)
    requires MemoryInv(reread, s) && Durable(reread, route)
    ensures MemoryInv(reread, AfterChange(s, call, route, enable))
  {
    ChangeKeepsInv(s, call, route, enable);
    var s' := AfterChange(s, call, route, enable);
    forall r | r in s'.watchers
      ensures Durable(reread, r)
    {
      assert r == route || r in s.watchers;
    }
    forall d | d in s'.readers
      ensures FreshRead(s', s'.readers[d])
    {
      assert FreshRead(s, s.readers[d]);
    }
  }

  /** A seed whose version was read clean changes nothing. */
  lemma CleanSeedChangesNothing(reread: Route -> Route, s: State, reader: nat)
    requires Settled(reread)
    requires MemoryInv(reread, s) && (reader in s.readers ==> s.readers[reader].cleanAtRead)
    ensures AfterSeed(reread, s, reader) == s
  {
    if reader in s.readers && s.readers[reader].config.Some? && s.watchSeq == s.readers[reader].version {
      assert FreshRead(s, s.readers[reader]);
      SeedIsIdentityExactly(reread, s.watchers);
    }
  }

  lemma ReadKeepsMemory(reread: Route -> Route, s: State, e: Event)
    requires MemoryInv(reread, s)
    ensures MemoryInv(reread, AfterRead(s, e))
  {
    var s' := AfterRead(s, e);
    forall d | d in s'.readers
      ensures FreshRead(s', s'.readers[d])
    {
      if d in s.readers {
        assert FreshRead(s, s.readers[d]);
      }
    }
  }

  lemma PersistKeepsMemory(reread: Route -> Route, s: State, call: nat, ok: bool)
    requires MemoryInv(reread, s)
    ensures MemoryInv(reread, AfterPersist(s, call, ok))
  {
    PersistKeepsInv(s, call, ok);
    var s' := AfterPersist(s, call, ok);
    forall d | d in s'.readers
      ensures FreshRead(s', s'.readers[d])
    {
      assert FreshRead(s, s.readers[d]);
    }
  }

  lemma DisciplinedStepKeepsMemory(reread: Route -> Route, s: State, e: Event)
    requires Settled(reread)
    requires MemoryInv(reread, s) && Disciplined(reread, s, e)
    ensures MemoryInv(reread, Step(reread, s, e))
  {
    match e
    case Change(call, route, enable) => ChangeKeepsMemory(reread, s, call, route, enable);
    case Persist(call, ok) => PersistKeepsMemory(reread, s, call, ok);
    case Mark(call) =>
      MarkKeepsInv(s, call);
      forall d | d in s.readers
        ensures FreshRead(AfterMark(s, call), s.readers[d])
      {
        assert FreshRead(s, s.readers[d]);
      }
    case Seed(reader) => CleanSeedChangesNothing(reread, s, reader);
    case _ => ReadKeepsMemory(reread, s, e);
  }

  ghost predicate AllDisciplined(reread: Route -> Route, s: State, events: seq<Event>) {
    forall i :: 0 <= i < |events| ==> Disciplined(reread, Run(reread, s, events[..i]), events[i])
  }

  /** Along every disciplined run seeding changes nothing, and not dirty means memory equals the config. */
  lemma {:induction false} DisciplinedRunsAgree(reread: Route -> Route, config: set<Route>, events: seq<Event>)
    requires Settled(reread)
    requires forall r :: r in config ==> Durable(reread, r)
    requires AllDisciplined(reread, Start(config), events)
    ensures
      var s := Run(reread, Start(config), events);
      MemoryInv(reread, s) && (!s.dirty ==> s.watchers == s.store)
  {
    if events != [] {
      var rest := events[..|events| - 1];
      forall i | 0 <= i < |rest|
        ensures Disciplined(reread, Run(reread, Start(config), rest[..i]), rest[i])
      {
        assert rest[..i] == events[..i];
      }
      DisciplinedRunsAgree(reread, config, rest);
      DisciplinedStepKeepsMemory(reread, Run(reread, Start(config), rest), events[|events| - 1]);
    }
  }

  // ---- Exactly when a version can be taken too early ----

  /** What every run over durable routes without outside edits keeps, however its seeds went. */
  ghost predicate Sound(reread: Route -> Route, s: State) {
    && Inv(s) && !s.edited
    && (s.dirty ==> s.watchers == s.history[s.watchSeq])
    && (forall r :: r in s.watchers ==> Durable(reread, r))
    && (forall n, r :: 0 <= n < |s.history| && r in s.history[n] ==> Durable(reread, r))
  }

  ghost predicate Plain(reread: Route -> Route, e: Event) { !e.OutsideEdit? && (e.Change? ==> Durable(reread, e.route)) }

  lemma SeededIsDurable(reread: Route -> Route, config: set<Route>)
    requires Settled(reread)
    ensures forall r :: r in Seeded(reread, config) ==> Durable(reread, r)
  {
  }

  lemma StepKeepsSound(reread: Route -> Route, s: State, e: Event)
    requires Settled(reread) && Sound(reread, s) && Plain(reread, e)
    ensures Sound(reread, Step(reread, s, e))
  {
    StepKeepsInv(reread, s, e);
    if e.Seed? && e.reader in s.readers && s.readers[e.reader].config.Some? {
      SeededIsDurable(reread, s.readers[e.reader].config.value);
    }
  }

  lemma {:induction false} PlainRunsAreSound(reread: Route -> Route, config: set<Route>, events: seq<Event>)
    requires Settled(reread) && (forall r :: r in config ==> Durable(reread, r))
    requires forall i :: 0 <= i < |events| ==> Plain(reread, events[i])
    ensures Sound(reread, Run(reread, Start(config), events))
  {
    if events != [] {
      PlainRunsAreSound(reread, config, events[..|events| - 1]);
      StepKeepsSound(reread, Run(reread, Start(config), events[..|events| - 1]), events[|events| - 1]);
    }
  }

  /** A refresh begins: it takes the version, and nothing else has happened yet. */
  function Begun(s: State, reader: nat): State { AfterRead(s, ReadVersion(reader)) }

  /** A run in which no one edits the config, the refresh is not begun anew, and no seed has changed anything so far. */
  ghost predicate Quiet(reread: Route -> Route, s: State, events: seq<Event>, reader: nat) {
    forall i :: 0 <= i < |events| ==>
      && !events[i].OutsideEdit? && events[i] != ReadVersion(reader)
      && (events[i].Seed? ==> Step(reread, Run(reread, s, events[..i]), events[i]) == Run(reread, s, events[..i]))
  }

  /** Some run from here ends with the refresh's seed changing what is watched. */
  ghost predicate SeedCanChange(reread: Route -> Route, s: State, reader: nat) {
    exists events ::
      Quiet(reread, Begun(s, reader), events, reader)
      && AfterSeed(reread, Run(reread, Begun(s, reader), events), reader).watchers != Run(reread, Begun(s, reader), events).watchers
  }

  predicate NewestWaits(s: State) { exists c :: c in s.calls && s.calls[c].Waiting? && s.calls[c].seqNo == s.watchSeq }

  /** An older change still waits to store a snapshot that differs from memory. */
  predicate OlderDiffers(s: State) {
    exists c :: c in s.calls && s.calls[c].Waiting? && s.lastPersistSeq < s.calls[c].seqNo < s.watchSeq && s.calls[c].routes != s.watchers
  }

  /** While dirty: the newest change has not reached the store, and the store holds or can come to hold other routes. */
  predicate Undoable(s: State) {
    if s.dirty then NewestWaits(s) && (s.store != s.watchers || OlderDiffers(s)) else s.store != s.watchers
  }

  // ---- Only then ----

  /** What the config can be read as while no further change is made. */
  ghost predicate Readable(s: State, config: set<Route>) {
    config == s.store || exists c :: c in s.calls && s.calls[c].Waiting? && s.lastPersistSeq < s.calls[c].seqNo && s.calls[c].routes == config
  }

  ghost predicate StillWaiting(s: State, t: State) {
    forall c :: c in t.calls && t.calls[c].Waiting? ==> c in s.calls && s.calls[c] == t.calls[c]
  }

  /** Where a quiet run from s can be while no change came in: memory is as it was, and the store is readable from s. */
  ghost predicate Tracks(s: State, t: State, reader: nat) {
    && Inv(t) && s.watchSeq <= t.watchSeq
    && reader in t.readers && t.readers[reader].version == s.watchSeq
    && (t.watchSeq == s.watchSeq ==>
          && t.watchers == s.watchers && s.lastPersistSeq <= t.lastPersistSeq && StillWaiting(s, t) && Readable(s, t.store)
          && (t.readers[reader].config.Some? ==> Readable(s, t.readers[reader].config.value))
          && (t.lastPersistSeq == s.watchSeq ==> NewestWaits(s) || s.lastPersistSeq == s.watchSeq))
  }

  lemma ChangeTracks(s: State, t: State, reader: nat, call: nat, route: Route, enable: bool)
    requires Tracks(s, t, reader)
    ensures Tracks(s, AfterChange(t, call, route, enable), reader)
  {
    ChangeKeepsInv(t, call, route, enable);
  }

  lemma PersistTracks(s: State, t: State, reader: nat, call: nat, ok: bool)
    requires Tracks(s, t, reader)
    ensures Tracks(s, AfterPersist(t, call, ok), reader)
  {
    PersistKeepsInv(t, call, ok);
    var t' := AfterPersist(t, call, ok);
    assert forall c :: c in t'.calls ==> c in t.calls && (c != call ==> t'.calls[c] == t.calls[c]);
    if t.watchSeq == s.watchSeq && t'.lastPersistSeq != t.lastPersistSeq {
      assert s.calls[call] == t.calls[call] && s.calls[call].Waiting?;
    }
  }

  lemma MarkTracks(s: State, t: State, reader: nat, call: nat)
    requires Tracks(s, t, reader)
    ensures Tracks(s, AfterMark(t, call), reader)
  {
    MarkKeepsInv(t, call);
  }

  lemma ReadTracks(s: State, t: State, reader: nat, e: Event)
    requires Tracks(s, t, reader) && e != ReadVersion(reader)
    ensures Tracks(s, AfterRead(t, e), reader)
  {
  }

  lemma {:induction false} QuietRunsTrack(reread: Route -> Route, s: State, events: seq<Event>, reader: nat)
    requires Inv(s) && Quiet(reread, Begun(s, reader), events, reader)
    ensures Tracks(s, Run(reread, Begun(s, reader), events), reader)
  {
    if events != [] {
      var (rest, e) := (events[..|events| - 1], events[|events| - 1]);
      forall i | 0 <= i < |rest| ensures rest[i] == events[i] && rest[..i] == events[..i] {
      }
      QuietRunsTrack(reread, s, rest, reader);
      var t := Run(reread, Begun(s, reader), rest);
      match e
      case Change(call, route, enable) => ChangeTracks(s, t, reader, call, route, enable);
      case Persist(call, ok) => PersistTracks(s, t, reader, call, ok);
      case Mark(call) => MarkTracks(s, t, reader, call);
      case Seed(_) =>
      case _ => ReadTracks(s, t, reader, e);
    }
  }

  lemma ReadableIsDurable(reread: Route -> Route, s: State, config: set<Route>)
    requires Settled(reread) && Sound(reread, s) && Readable(s, config)
    ensures Seeded(reread, config) == config
  {
    SeedIsIdentityExactly(reread, config);
  }

  /** A seed that changes memory at the end of a quiet run had a config that differed, stored before the newest change. */
  lemma ChangingSeedWasUndoable(reread: Route -> Route, s: State, t: State, reader: nat)
    requires Settled(reread) && Sound(reread, s) && Tracks(s, t, reader)
    requires AfterSeed(reread, t, reader).watchers != t.watchers
    ensures Undoable(s)
  {
    var config := t.readers[reader].config.value;
    ReadableIsDurable(reread, s, config);
    assert config != s.watchers;
    if config != s.store {
      var c :| c in s.calls && s.calls[c].Waiting? && s.lastPersistSeq < s.calls[c].seqNo && s.calls[c].routes == config;
      assert s.dirty;
    }
  }

  // ---- Always then ----

  lemma {:induction false} WithoutSeedsQuiet(reread: Route -> Route, s: State, events: seq<Event>, reader: nat)
    requires forall i :: 0 <= i < |events| ==> !events[i].OutsideEdit? && events[i] != ReadVersion(reader) && !events[i].Seed?
    ensures Quiet(reread, s, events, reader)
  {
  }

  /** The persist mutex is given back, whoever holds it. */
  function Holder(s: State): nat { s.persistHolder.GetOr(0) }

  lemma HolderMarks(s: State)
    requires Inv(s)
    ensures
      var t := AfterMark(s, Holder(s));
      && Inv(t) && t.persistHolder.None? && t == s.(dirty := t.dirty, persistHolder := None, calls := t.calls)
      && (!s.dirty ==> !t.dirty) && (s.dirty && s.lastPersistSeq < s.watchSeq ==> t.dirty)
      && (forall c :: c in s.calls && s.calls[c].Waiting? ==> c in t.calls && t.calls[c] == s.calls[c])
  {
    MarkKeepsInv(s, Holder(s));
  }

  /** A waiting change with a number of its own is stored and marked. */
  lemma PersistsAndMarks(s: State, call: nat)
    requires Inv(s) && s.persistHolder.None? && call in s.calls && s.calls[call].Waiting? && s.lastPersistSeq < s.calls[call].seqNo
    ensures
      var t := AfterMark(AfterPersist(s, call, true), call);
      && Inv(t) && t.persistHolder.None? && t.store == s.calls[call].routes && t.lastPersistSeq == s.calls[call].seqNo
      && t.dirty == (s.dirty && s.watchSeq != s.calls[call].seqNo)
      && t.watchers == s.watchers && t.watchSeq == s.watchSeq && t.readers == s.readers
      && (forall c :: c in s.calls && c != call ==> c in t.calls && t.calls[c] == s.calls[c])
  {
    PersistKeepsInv(s, call, true);
    MarkKeepsInv(AfterPersist(s, call, true), call);
  }

  lemma RunSnoc(reread: Route -> Route, s: State, events: seq<Event>, e: Event)
    ensures Run(reread, s, events + [e]) == Step(reread, Run(reread, s, events), e)
  {
    assert (events + [e])[..|events|] == events;
  }

  /** The refresh reads its config, then whoever holds the persist mutex finishes. */
  function ReadNow(s: State, reader: nat): State { AfterMark(AfterRead(Begun(s, reader), ReadConfig(reader)), Holder(s)) }

  lemma ReadNowMoves(s: State, reader: nat)
    requires Inv(s)
    ensures
      var t := ReadNow(s, reader);
      && Inv(t) && t.persistHolder.None? && reader in t.readers && t.readers[reader] == Reader(s.watchSeq, !s.dirty, Some(s.store))
      && t.watchers == s.watchers && t.watchSeq == s.watchSeq && t.lastPersistSeq == s.lastPersistSeq
      && (!s.dirty ==> !t.dirty) && (s.dirty && s.lastPersistSeq < s.watchSeq ==> t.dirty)
      && (forall c :: c in s.calls && s.calls[c].Waiting? ==> c in t.calls && t.calls[c] == s.calls[c])
  {
    HolderMarks(AfterRead(Begun(s, reader), ReadConfig(reader)));
  }

  lemma RunTwo(reread: Route -> Route, s: State, a: Event, b: Event)
    ensures Run(reread, s, [a, b]) == Step(reread, Step(reread, s, a), b)
  {
    RunSnoc(reread, s, [], a);
    RunSnoc(reread, s, [a], b);
    assert [] + [a] == [a] && [a] + [b] == [a, b];
  }

  lemma RunFour(reread: Route -> Route, s: State, a: Event, b: Event, c: Event, d: Event)
    ensures Run(reread, s, [a, b, c, d]) == Step(reread, Step(reread, Step(reread, Step(reread, s, a), b), c), d)
  {
    RunTwo(reread, s, a, b);
    RunSnoc(reread, s, [a, b], c);
    RunSnoc(reread, s, [a, b] + [c], d);
    assert ([a, b] + [c]) + [d] == [a, b, c, d];
  }

  lemma RunSix(reread: Route -> Route, s: State, a: Event, b: Event, c: Event, d: Event, e: Event, f: Event)
    ensures Run(reread, s, [a, b, c, d, e, f]) == Step(reread, Step(reread, Run(reread, s, [a, b, c, d]), e), f)
  {
    RunSnoc(reread, s, [a, b, c, d], e);
    RunSnoc(reread, s, [a, b, c, d, e], f);
    assert [a, b, c, d] + [e] == [a, b, c, d, e] && [a, b, c, d, e] + [f] == [a, b, c, d, e, f];
  }

  /** The refresh is about to seed, is let through, and brings other routes. */
  ghost predicate AboutToChange(reread: Route -> Route, t: State, reader: nat) {
    && !t.dirty && t.persistHolder.None? && reader in t.readers && t.readers[reader].version == t.watchSeq
    && t.readers[reader].config.Some? && Seeded(reread, t.readers[reader].config.value) != t.watchers
  }

  lemma QuietWitness(reread: Route -> Route, s: State, events: seq<Event>, reader: nat)
    requires forall i :: 0 <= i < |events| ==> !events[i].OutsideEdit? && events[i] != ReadVersion(reader) && !events[i].Seed?
    requires AboutToChange(reread, Run(reread, Begun(s, reader), events), reader)
    ensures SeedCanChange(reread, s, reader)
  {
    WithoutSeedsQuiet(reread, Begun(s, reader), events, reader);
  }

  lemma CleanDifferenceChanges(reread: Route -> Route, s: State, reader: nat)
    requires Settled(reread) && Sound(reread, s) && s.store != s.watchers && !s.dirty
    ensures SeedCanChange(reread, s, reader)
  {
    ReadNowMoves(s, reader);
    ReadableIsDurable(reread, s, s.store);
    RunTwo(reread, Begun(s, reader), ReadConfig(reader), Mark(Holder(s)));
    QuietWitness(reread, s, [ReadConfig(reader), Mark(Holder(s))], reader);
  }

  lemma DirtyDifferenceChanges(reread: Route -> Route, s: State, reader: nat, call: nat)
    requires Settled(reread) && Sound(reread, s) && s.store != s.watchers && s.dirty
    requires call in s.calls && s.calls[call].Waiting? && s.calls[call].seqNo == s.watchSeq
    ensures SeedCanChange(reread, s, reader)
  {
    assert s.lastPersistSeq < s.watchSeq;
    ReadNowMoves(s, reader);
    ReadableIsDurable(reread, s, s.store);
    PersistsAndMarks(ReadNow(s, reader), call);
    RunFour(reread, Begun(s, reader), ReadConfig(reader), Mark(Holder(s)), Persist(call, true), Mark(call));
    QuietWitness(reread, s, [ReadConfig(reader), Mark(Holder(s)), Persist(call, true), Mark(call)], reader);
  }

  /** The state in which the refresh reads its config after the older change c was stored. */
  function ReadAfter(s: State, reader: nat, c: nat): State {
    AfterRead(AfterMark(AfterPersist(AfterMark(Begun(s, reader), Holder(s)), c, true), c), ReadConfig(reader))
  }

  lemma ReadAfterMoves(s: State, reader: nat, c: nat)
    requires Inv(s) && s.dirty && c in s.calls && s.calls[c].Waiting? && s.lastPersistSeq < s.calls[c].seqNo < s.watchSeq
    ensures
      var t := ReadAfter(s, reader, c);
      && Inv(t) && t.persistHolder.None? && t.dirty && t.lastPersistSeq == s.calls[c].seqNo
      && t.watchers == s.watchers && t.watchSeq == s.watchSeq
      && reader in t.readers && t.readers[reader] == Reader(s.watchSeq, false, Some(s.calls[c].routes))
      && (forall d :: d in s.calls && d != c && s.calls[d].Waiting? ==> d in t.calls && t.calls[d] == s.calls[d])
  {
    HolderMarks(Begun(s, reader));
    PersistsAndMarks(AfterMark(Begun(s, reader), Holder(s)), c);
  }

  /** The refresh read its config after the older change c was stored, and the newest is stored since. */
  function StoredAfter(s: State, reader: nat, c: nat, call: nat): State {
    AfterMark(AfterPersist(ReadAfter(s, reader, c), call, true), call)
  }

  function OlderThenNewest(s: State, reader: nat, c: nat, call: nat): seq<Event> {
    [Mark(Holder(s)), Persist(c, true), Mark(c), ReadConfig(reader), Persist(call, true), Mark(call)]
  }

  lemma RunOlderThenNewest(reread: Route -> Route, s: State, reader: nat, c: nat, call: nat)
    ensures Run(reread, Begun(s, reader), OlderThenNewest(s, reader, c, call)) == StoredAfter(s, reader, c, call)
  {
    RunFour(reread, Begun(s, reader), Mark(Holder(s)), Persist(c, true), Mark(c), ReadConfig(reader));
    RunSix(reread, Begun(s, reader), Mark(Holder(s)), Persist(c, true), Mark(c), ReadConfig(reader), Persist(call, true), Mark(call));
  }

  lemma OlderIsAboutToChange(reread: Route -> Route, s: State, reader: nat, call: nat, c: nat)
    requires Settled(reread) && Sound(reread, s) && s.dirty
    requires call in s.calls && s.calls[call].Waiting? && s.calls[call].seqNo == s.watchSeq
    requires c in s.calls && s.calls[c].Waiting? && s.lastPersistSeq < s.calls[c].seqNo < s.watchSeq && s.calls[c].routes != s.watchers
    ensures AboutToChange(reread, StoredAfter(s, reader, c, call), reader)
  {
    ReadAfterMoves(s, reader, c);
    PersistsAndMarks(ReadAfter(s, reader, c), call);
    ReadableIsDurable(reread, s, s.calls[c].routes);
  }

  lemma OlderSnapshotChanges(reread: Route -> Route, s: State, reader: nat, call: nat, c: nat)
    requires Settled(reread) && Sound(reread, s) && s.dirty
    requires call in s.calls && s.calls[call].Waiting? && s.calls[call].seqNo == s.watchSeq
    requires c in s.calls && s.calls[c].Waiting? && s.lastPersistSeq < s.calls[c].seqNo < s.watchSeq && s.calls[c].routes != s.watchers
    ensures SeedCanChange(reread, s, reader)
  {
    OlderIsAboutToChange(reread, s, reader, call, c);
    RunOlderThenNewest(reread, s, reader, c, call);
    QuietWitness(reread, s, OlderThenNewest(s, reader, c, call), reader);
  }

  lemma UndoableSeedCanChange(reread: Route -> Route, s: State, reader: nat)
    requires Settled(reread) && Sound(reread, s) && Undoable(s)
    ensures SeedCanChange(reread, s, reader)
  {
    if !s.dirty {
      CleanDifferenceChanges(reread, s, reader);
    } else {
      var call :| call in s.calls && s.calls[call].Waiting? && s.calls[call].seqNo == s.watchSeq;
      if s.store != s.watchers {
        DirtyDifferenceChanges(reread, s, reader, call);
      } else {
        var c :| c in s.calls && s.calls[c].Waiting? && s.lastPersistSeq < s.calls[c].seqNo < s.watchSeq && s.calls[c].routes != s.watchers;
        OlderSnapshotChanges(reread, s, reader, call, c);
      }
    }
  }

  /**
   A version taken in a state that can be reached from a durable config without outside edits leads to a seed that
   changes memory, in some continuation, exactly if that state is undoable: while dirty, if the newest change has
   not reached the store and the store holds other routes than memory or an older waiting change can still put
   them there; while clean, if an earlier seed already left memory and store apart. A version taken after a
   failed store, or once the newest snapshot is stored, is harmless although dirty.
   */
  lemma SeedCanChangeExactly(reread: Route -> Route, config: set<Route>, before: seq<Event>, reader: nat)
    requires Settled(reread) && (forall r :: r in config ==> Durable(reread, r))
    requires forall i :: 0 <= i < |before| ==> Plain(reread, before[i])
    ensures
      var s := Run(reread, Start(config), before);
      SeedCanChange(reread, s, reader) <==> Undoable(s)
  {
    var s := Run(reread, Start(config), before);
    PlainRunsAreSound(reread, config, before);
    if SeedCanChange(reread, s, reader) {
      var events :| Quiet(reread, Begun(s, reader), events, reader)
        && AfterSeed(reread, Run(reread, Begun(s, reader), events), reader).watchers != Run(reread, Begun(s, reader), events).watchers;
      QuietRunsTrack(reread, s, events, reader);
      ChangingSeedWasUndoable(reread, s, Run(reread, Begun(s, reader), events), reader);
    }
    if Undoable(s) {
      UndoableSeedCanChange(reread, s, reader);
    }
  }

  /**
   The shortest such run, from a hub without subscriptions: a chat subscribes, a refresh takes its version and reads
   the config, the subscription is stored and reported as successful, and the refresh's seed drops it from memory.
   */
  lemma FirstSubscriptionIsUndone(reread: Route -> Route, route: Route, call: nat, reader: nat)
    ensures
      var s := Run(reread, Start({}), [Change(call, route, true), ReadVersion(reader), ReadConfig(reader), Persist(call, true), Mark(call), Seed(reader)]);
      s.watchers == {} && s.store == {route} && !s.dirty && call in s.calls && s.calls[call] == Returned(1, true)
  {
    var changed := AfterChange(Start({}), call, route, true);
    assert Changed({}, route, true) == {route};
    assert changed == State({route}, 1, true, 0, {}, None, map[call := Waiting(1, {route})], map[], [{}, {route}], false);
    var read := AfterRead(Begun(changed, reader), ReadConfig(reader));
    assert read.readers[reader] == Reader(1, false, Some({}));
    var marked := AfterMark(AfterPersist(read, call, true), call);
    assert marked.readers == read.readers && !marked.dirty && marked.store == {route} && marked.calls[call] == Returned(1, true);
    RunFour(reread, Start({}), Change(call, route, true), ReadVersion(reader), ReadConfig(reader), Persist(call, true));
    RunSix(reread, Start({}), Change(call, route, true), ReadVersion(reader), ReadConfig(reader), Persist(call, true), Mark(call), Seed(reader));
  }

  /** The same with routes as the config file gives them back. */
  lemma SeedCanChangeExactlyInConfig(config: set<Route>, before: seq<Event>, reader: nat)
    requires forall r :: r in config ==> Durable(Reread, r)
    requires forall i :: 0 <= i < |before| ==> Plain(Reread, before[i])
    ensures SeedCanChange(Reread, Run(Reread, Start(config), before), reader) <==> Undoable(Run(Reread, Start(config), before))
  {
    RereadOnce();
    SeedCanChangeExactly(Reread, config, before, reader);
  }

  // ---- What a change and a refresh bring about ----

  /** A change subscribes or unsubscribes exactly its route, under the next number, and waits with what is then watched. */
  lemma ChangeTakesEffectExactly(s: State, call: nat, route: Route, enable: bool, r: Route)
    requires Inv(s) && call !in s.calls
    ensures
      var s' := AfterChange(s, call, route, enable);
      && (r in s'.watchers <==> if r == route then enable else r in s.watchers)
      && s'.watchSeq == s.watchSeq + 1 && s'.dirty && s'.store == s.store && s'.history[s'.watchSeq] == s'.watchers
      && s'.calls == s.calls[call := Waiting(s'.watchSeq, s'.watchers)]
  {
  }

  /** How a change ends that nothing comes between. */
  ghost predicate StoredAlone(s: State, s': State, call: nat, route: Route, enable: bool, ok: bool) {
    && s'.watchers == (if enable then s.watchers + {route} else s.watchers - {route}) && s'.persistHolder.None?
    && s'.store == (if ok then s'.watchers else s.store) && s'.dirty == !ok
    && s'.lastPersistSeq == (if ok then s.watchSeq + 1 else s.lastPersistSeq)
    && call in s'.calls && s'.calls[call] == Returned(s.watchSeq + 1, ok)
  }

  lemma ThreeSections(s: State, call: nat, route: Route, enable: bool, ok: bool)
    requires Inv(s) && call !in s.calls && s.persistHolder.None?
    ensures StoredAlone(s, AfterMark(AfterPersist(AfterChange(s, call, route, enable), call, ok), call), call, route, enable, ok)
  {
  }

  /**
   A change that nothing comes between is stored and leaves the hub clean if its write succeeds; if not, it is watched
   but not stored, the hub stays dirty and the caller is told.
   */
  lemma LoneChangeIsStoredExactly(reread: Route -> Route, s: State, call: nat, route: Route, enable: bool, ok: bool)
    requires Inv(s) && call !in s.calls && s.persistHolder.None?
    ensures StoredAlone(s, Run(reread, s, [Change(call, route, enable), Persist(call, ok), Mark(call)]), call, route, enable, ok)
  {
    var two := [Change(call, route, enable), Persist(call, ok)];
    RunTwo(reread, s, Change(call, route, enable), Persist(call, ok));
    RunSnoc(reread, s, two, Mark(call));
    assert two + [Mark(call)] == [Change(call, route, enable), Persist(call, ok), Mark(call)];
    ThreeSections(s, call, route, enable, ok);
  }

  ghost predicate KeepsReader(events: seq<Event>, reader: nat) {
    forall i :: 0 <= i < |events| ==> events[i] != ReadVersion(reader) && events[i] != ReadConfig(reader)
  }

  lemma {:induction false} ReaderIsKept(reread: Route -> Route, s: State, events: seq<Event>, reader: nat)
    requires KeepsReader(events, reader) && reader in s.readers
    ensures
      var s' := Run(reread, s, events);
      reader in s'.readers && s'.readers[reader] == s.readers[reader] && s.watchSeq <= s'.watchSeq
  {
    if events != [] {
      ReaderIsKept(reread, s, events[..|events| - 1], reader);
    }
  }

  /**
   Over every interleaving, what a refresh finds in the config becomes what is watched exactly if no change was numbered
   since its version, everything is stored when it seeds, and nobody is storing; otherwise the refresh changes nothing.
   */
  lemma RefreshAppliesExactly(reread: Route -> Route, s: State, before: seq<Event>, after: seq<Event>, reader: nat)
    requires KeepsReader(before, reader) && KeepsReader(after, reader)
    ensures
      var s1 := Run(reread, Begun(s, reader), before);
      var s2 := Run(reread, AfterRead(s1, ReadConfig(reader)), after);
      AfterSeed(reread, s2, reader) ==
        if s2.persistHolder.None? && s2.watchSeq == s.watchSeq && !s2.dirty then s2.(watchers := Seeded(reread, s1.store)) else s2
  {
    var s1 := Run(reread, Begun(s, reader), before);
    ReaderIsKept(reread, Begun(s, reader), before, reader);
    ReaderIsKept(reread, AfterRead(s1, ReadConfig(reader)), after, reader);
  }

  /** So an edit of the config is watched after a refresh of a clean hub that nothing comes between. */
  lemma OutsideEditIsWatched(reread: Route -> Route, s: State, routes: set<Route>, reader: nat)
    requires Settled(reread) && s.persistHolder.None? && !s.dirty && forall r :: r in routes ==> Durable(reread, r)
    ensures Run(reread, s, [OutsideEdit(routes), ReadVersion(reader), ReadConfig(reader), Seed(reader)]).watchers == routes
  {
    RunFour(reread, s, OutsideEdit(routes), ReadVersion(reader), ReadConfig(reader), Seed(reader));
    RefreshAppliesExactly(reread, Step(reread, s, OutsideEdit(routes)), [], [], reader);
    SeedIsIdentityExactly(reread, routes);
  }
}

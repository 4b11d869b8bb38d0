/**
 The two-file commit of heartbeat tasks (desktop/heartbeat_sidecar.go:19-91, desktop/heartbeat_store.go:28-66,
 112-202, 289-320): run history lives in a sidecar that is published, together with the generation it
 replaces, before the config that commits it.
 */
module HeartbeatSidecar {
  import opened Common

  datatype RunRecord = RunRecord(at: int, topicId: string)

  /** definition stands for every field other than the id and the run history. */
  datatype Task = Task(id: string, definition: string, history: seq<RunRecord>)

  type Histories = map<string, seq<RunRecord>>

  datatype Generation = Generation(revision: nat, runs: Histories)

  datatype Sidecar = Sidecar(schema: nat, revision: nat, runs: Histories, previous: Option<Generation>)

  datatype Config = Config(schema: nat, revision: nat, tasks: seq<Task>)

  datatype File<T> = Absent | Garbage | Content(value: T)

  /** The two files of a heartbeat engine. */
  datatype Disk = Disk(config: File<Config>, sidecar: File<Sidecar>)

  const MAX_RUN_HISTORY := 20
  const CONFIG_SCHEMA := 2
  const SIDECAR_SCHEMA := 1

  // ---- Merging run histories ----

  predicate Ordered(h: seq<RunRecord>) { forall i, j :: 0 <= i < j < |h| ==> h[i].at <= h[j].at }

  /** Histories as the engine keeps them: oldest first, at most twenty. */
  predicate Normal(h: seq<RunRecord>) { Ordered(h) && |h| <= MAX_RUN_HISTORY }

  function Insert(h: seq<RunRecord>, r: RunRecord): (s: seq<RunRecord>)
    requires Ordered(h)
    ensures Ordered(s) && multiset(s) == multiset(h) + multiset{r}
    ensures s != [] && s[|s| - 1].at == if h == [] || h[|h| - 1].at <= r.at then r.at else h[|h| - 1].at
  {
    if h == [] || h[|h| - 1].at <= r.at then h + [r]
    else
      assert h == h[..|h| - 1] + [h[|h| - 1]];
      Insert(h[..|h| - 1], r) + [h[|h| - 1]]
  }

  /** Sorting by time; records of equal time keep their order. */
  function Sort(h: seq<RunRecord>): (s: seq<RunRecord>)
    ensures Ordered(s) && multiset(s) == multiset(h)
  {
    if h == [] then []
    else
      assert h == h[..|h| - 1] + [h[|h| - 1]];
      Insert(Sort(h[..|h| - 1]), h[|h| - 1])
  }

  function Newest(h: seq<RunRecord>): seq<RunRecord> {
    if |h| > MAX_RUN_HISTORY then h[|h| - MAX_RUN_HISTORY..] else h
  }

  predicate Seen(h: seq<RunRecord>, at: int) { exists i :: 0 <= i < |h| && h[i].at == at }

  function Unseen(base: seq<RunRecord>, extra: seq<RunRecord>): seq<RunRecord> {
    if extra == [] then []
    else
      var rest := Unseen(base, extra[..|extra| - 1]);
      if Seen(base, extra[|extra| - 1].at) then rest else rest + [extra[|extra| - 1]]
  }

  function MergeRunHistory(base: seq<RunRecord>, extra: seq<RunRecord>): (m: seq<RunRecord>)
    ensures Normal(m)
  {
    Newest(Sort(base + Unseen(base, extra)))
  }

  /** Merging keeps the newest records of the union: whatever is dropped is no newer than anything kept. */
  lemma MergeKeepsNewest(base: seq<RunRecord>, extra: seq<RunRecord>, r: RunRecord)
    requires r in base + Unseen(base, extra)
    ensures
      var m := MergeRunHistory(base, extra);
      r in m || (|m| == MAX_RUN_HISTORY && forall k :: k in m ==> r.at <= k.at)
  {
    var all := base + Unseen(base, extra);
    var sorted := Sort(all);
    assert r in multiset(all) && r in multiset(sorted);
    var i :| 0 <= i < |sorted| && sorted[i] == r;
    if |sorted| > MAX_RUN_HISTORY {
      var cut := |sorted| - MAX_RUN_HISTORY;
      if i >= cut {
        assert sorted[cut..][i - cut] == r;
      }
    }
  }

  lemma SortOfOrdered(h: seq<RunRecord>)
    requires Ordered(h)
    ensures Sort(h) == h
  {
    forall v ensures At(Sort(h), v) == At(h, v) {
      AtSort(h, v);
    }
    OrderedByTimes(Sort(h), h);
  }

  lemma {:induction false} AllUnseenByNothing(extra: seq<RunRecord>)
    ensures Unseen([], extra) == extra
  {
    if extra != [] {
      AllUnseenByNothing(extra[..|extra| - 1]);
      assert extra == extra[..|extra| - 1] + [extra[|extra| - 1]];
    }
  }

  /** A history the engine could have kept reads back unchanged. */
  lemma NormalReadsBack(h: seq<RunRecord>)
    requires Normal(h)
    ensures MergeRunHistory([], h) == h
  {
    AllUnseenByNothing(h);
    SortOfOrdered(h);
    assert [] + h == h;
  }

  // ---- Merging twice ----

  /** The records of one time, in order. */
  function At(h: seq<RunRecord>, v: int): seq<RunRecord> {
    if h == [] then [] else At(h[..|h| - 1], v) + if h[|h| - 1].at == v then [h[|h| - 1]] else []
  }

  lemma {:induction false} AtConcat(a: seq<RunRecord>, b: seq<RunRecord>, v: int)
    ensures At(a + b, v) == At(a, v) + At(b, v)
  {
    if b == [] {
      assert a + b == a;
    } else {
      AtConcat(a, b[..|b| - 1], v);
      assert (a + b)[..|a + b| - 1] == a + b[..|b| - 1];
    }
  }

  lemma AtSnoc(h: seq<RunRecord>, r: RunRecord, v: int)
    ensures At(h + [r], v) == At(h, v) + if r.at == v then [r] else []
  {
    assert (h + [r])[..|h|] == h;
  }

  lemma {:induction false} AtMembers(h: seq<RunRecord>, v: int)
    ensures forall r :: r in At(h, v) <==> r in h && r.at == v
    ensures At(h, v) == [] <==> forall i :: 0 <= i < |h| ==> h[i].at != v
  {
    if h != [] {
      AtMembers(h[..|h| - 1], v);
      assert h == h[..|h| - 1] + [h[|h| - 1]];
    }
  }

  lemma AtBefore(init: seq<RunRecord>, inserted: seq<RunRecord>, r: RunRecord, last: RunRecord, v: int)
    requires last.at != r.at && At(inserted, v) == At(init, v) + if r.at == v then [r] else []
    ensures At(inserted + [last], v) == At(init + [last], v) + if r.at == v then [r] else []
  {
    AtSnoc(inserted, last, v);
    AtSnoc(init, last, v);
  }

  lemma {:induction false} AtInsert(h: seq<RunRecord>, r: RunRecord, v: int)
    requires Ordered(h)
    ensures At(Insert(h, r), v) == At(h, v) + if r.at == v then [r] else []
  {
    if h == [] || h[|h| - 1].at <= r.at {
      AtSnoc(h, r, v);
    } else {
      var (init, last) := (h[..|h| - 1], h[|h| - 1]);
      AtInsert(init, r, v);
      AtBefore(init, Insert(init, r), r, last, v);
      assert h == init + [last];
    }
  }

  /** Sorting keeps the order of records of equal time. */
  lemma {:induction false} AtSort(h: seq<RunRecord>, v: int)
    ensures At(Sort(h), v) == At(h, v)
  {
    if h != [] {
      AtSort(h[..|h| - 1], v);
      AtInsert(Sort(h[..|h| - 1]), h[|h| - 1], v);
    }
  }

  /** The two histories have the same records at every time, in the same order. */
  ghost predicate SameTimes(s: seq<RunRecord>, t: seq<RunRecord>) { forall v {:trigger At(s, v)} {:trigger At(t, v)} :: At(s, v) == At(t, v) }

  lemma OrderedEnd(s: seq<RunRecord>, t: seq<RunRecord>)
    requires Ordered(s) && Ordered(t) && s != [] && SameTimes(s, t)
    ensures t != [] && s[|s| - 1].at <= t[|t| - 1].at
  {
    var v := s[|s| - 1].at;
    AtMembers(s, v);
    AtMembers(t, v);
    assert s[|s| - 1] in At(s, v) && At(s, v) == At(t, v);
  }

  lemma CancelEnd(x: seq<RunRecord>, y: seq<RunRecord>, end: seq<RunRecord>)
    requires x + end == y + end
    ensures x == y
  {
    assert x == (x + end)[..|x|] && y == (y + end)[..|y|];
  }

  lemma SameLast(s: seq<RunRecord>, t: seq<RunRecord>)
    requires Ordered(s) && Ordered(t) && s != [] && SameTimes(s, t)
    ensures t != [] && s[|s| - 1] == t[|t| - 1] && SameTimes(s[..|s| - 1], t[..|t| - 1])
  {
    OrderedEnd(s, t);
    OrderedEnd(t, s);
    var (a, b) := (s[|s| - 1], t[|t| - 1]);
    assert At(s, a.at) == At(t, a.at);
    assert At(s, a.at)[|At(s, a.at)| - 1] == a && At(t, a.at)[|At(t, a.at)| - 1] == b;
    var (s0, t0) := (s[..|s| - 1], t[..|t| - 1]);
    forall v ensures At(s0, v) == At(t0, v) {
      assert At(s, v) == At(t, v);
      AtSnoc(s0, a, v);
      AtSnoc(t0, a, v);
      assert s0 + [a] == s && t0 + [a] == t;
      CancelEnd(At(s0, v), At(t0, v), if a.at == v then [a] else []);
    }
  }

  /** Two ordered histories that agree at every time are the same. */
  lemma {:induction false} OrderedByTimes(s: seq<RunRecord>, t: seq<RunRecord>)
    requires Ordered(s) && Ordered(t) && SameTimes(s, t)
    ensures s == t
    decreases |s|
  {
    if s == [] {
      if t != [] {
        OrderedEnd(t, s);
      }
    } else {
      SameLast(s, t);
      OrderedByTimes(s[..|s| - 1], t[..|t| - 1]);
      assert s == s[..|s| - 1] + [s[|s| - 1]] && t == t[..|t| - 1] + [t[|t| - 1]];
    }
  }

  lemma {:induction false} AtUnseen(base: seq<RunRecord>, extra: seq<RunRecord>, v: int)
    ensures At(Unseen(base, extra), v) == if Seen(base, v) then [] else At(extra, v)
  {
    if extra != [] {
      AtUnseen(base, extra[..|extra| - 1], v);
      AtSnoc(Unseen(base, extra[..|extra| - 1]), extra[|extra| - 1], v);
    }
  }

  /** The records whose times the base has too. */
  function AlsoSeen(base: seq<RunRecord>, h: seq<RunRecord>): seq<RunRecord> {
    if h == [] then []
    else
      var rest := AlsoSeen(base, h[..|h| - 1]);
      if Seen(base, h[|h| - 1].at) then rest + [h[|h| - 1]] else rest
  }

  lemma {:induction false} AtAlsoSeen(base: seq<RunRecord>, h: seq<RunRecord>, v: int)
    ensures At(AlsoSeen(base, h), v) == if Seen(base, v) then At(h, v) else []
  {
    if h != [] {
      AtAlsoSeen(base, h[..|h| - 1], v);
      AtSnoc(AlsoSeen(base, h[..|h| - 1]), h[|h| - 1], v);
    }
  }

  lemma {:induction false} AlsoSeenOrdered(base: seq<RunRecord>, h: seq<RunRecord>)
    requires Ordered(h)
    ensures Ordered(AlsoSeen(base, h)) && forall i :: 0 <= i < |AlsoSeen(base, h)| ==> AlsoSeen(base, h)[i] in h
  {
    if h != [] {
      AlsoSeenOrdered(base, h[..|h| - 1]);
      var rest := AlsoSeen(base, h[..|h| - 1]);
      forall i | 0 <= i < |rest| ensures rest[i].at <= h[|h| - 1].at {
        assert rest[i] in h[..|h| - 1];
      }
    }
  }

  lemma LeftOrdered(h: seq<RunRecord>, older: seq<RunRecord>, newer: seq<RunRecord>)
    requires Ordered(older + newer)
    ensures Ordered(AlsoSeen(h, older) + newer)
  {
    assert Ordered(older) by {
      forall i, j | 0 <= i < j < |older| ensures older[i].at <= older[j].at {
        assert (older + newer)[i] == older[i] && (older + newer)[j] == older[j];
      }
    }
    AlsoSeenOrdered(h, older);
    var left := AlsoSeen(h, older) + newer;
    forall i, j | 0 <= i < j < |left| ensures left[i].at <= left[j].at {
      var n := |AlsoSeen(h, older)|;
      if j >= n {
        var y := j - n + |older|;
        assert (older + newer)[y] == left[j];
        if i < n {
          assert left[i] in older;
          var x :| 0 <= x < |older| && older[x] == left[i];
          assert (older + newer)[x] == left[i];
        } else {
          assert (older + newer)[i - n + |older|] == left[i];
        }
      }
    }
  }

  lemma LeftTimes(h: seq<RunRecord>, older: seq<RunRecord>, newer: seq<RunRecord>, v: int)
    requires Seen(h, v) ==> At(older + newer, v) == At(h, v)
    ensures At(h + Unseen(h, newer), v) == At(AlsoSeen(h, older) + newer, v)
  {
    AtConcat(h, Unseen(h, newer), v);
    AtUnseen(h, newer, v);
    AtConcat(AlsoSeen(h, older), newer, v);
    AtAlsoSeen(h, older, v);
    AtConcat(older, newer, v);
    AtMembers(h, v);
  }

  /** What is left of a merge's older part together with its newest records is what merging them again sorts. */
  lemma SortAgain(h: seq<RunRecord>, older: seq<RunRecord>, newer: seq<RunRecord>)
    requires Ordered(older + newer) && forall v :: Seen(h, v) ==> At(older + newer, v) == At(h, v)
    ensures Sort(h + Unseen(h, newer)) == AlsoSeen(h, older) + newer
  {
    LeftOrdered(h, older, newer);
    forall v ensures At(Sort(h + Unseen(h, newer)), v) == At(AlsoSeen(h, older) + newer, v) {
      AtSort(h + Unseen(h, newer), v);
      LeftTimes(h, older, newer, v);
    }
    OrderedByTimes(Sort(h + Unseen(h, newer)), AlsoSeen(h, older) + newer);
  }

  lemma MergeTimes(h: seq<RunRecord>, x: seq<RunRecord>, v: int)
    requires Seen(h, v)
    ensures At(Sort(h + Unseen(h, x)), v) == At(h, v)
  {
    AtSort(h + Unseen(h, x), v);
    AtConcat(h, Unseen(h, x), v);
    AtUnseen(h, x, v);
  }

  lemma NewestOfJoin(a: seq<RunRecord>, b: seq<RunRecord>)
    requires |b| <= MAX_RUN_HISTORY && (a != [] ==> |b| == MAX_RUN_HISTORY)
    ensures Newest(a + b) == b
  {
    if a == [] {
      assert a + b == b;
    } else {
      assert (a + b)[|a|..] == b;
    }
  }

  lemma NewestSplits(s: seq<RunRecord>) returns (older: seq<RunRecord>, newer: seq<RunRecord>)
    ensures older + newer == s && newer == Newest(s)
    ensures |newer| <= MAX_RUN_HISTORY && (older != [] ==> |newer| == MAX_RUN_HISTORY)
  {
    var k := if |s| > MAX_RUN_HISTORY then |s| - MAX_RUN_HISTORY else 0;
    older, newer := s[..k], s[k..];
  }

  /** A merge is the newer end of the sorted union. */
  lemma MergeSplits(h: seq<RunRecord>, x: seq<RunRecord>) returns (older: seq<RunRecord>, newer: seq<RunRecord>)
    ensures older + newer == Sort(h + Unseen(h, x)) && newer == MergeRunHistory(h, x)
    ensures |newer| <= MAX_RUN_HISTORY && (older != [] ==> |newer| == MAX_RUN_HISTORY)
  {
    older, newer := NewestSplits(Sort(h + Unseen(h, x)));
  }

  /** Merging a merge into its own base changes nothing. */
  lemma MergeAgain(h: seq<RunRecord>, x: seq<RunRecord>)
    ensures MergeRunHistory(h, MergeRunHistory(h, x)) == MergeRunHistory(h, x)
  {
    var older, newer := MergeSplits(h, x);
    forall v | Seen(h, v) ensures At(older + newer, v) == At(h, v) {
      MergeTimes(h, x, v);
    }
    SortAgain(h, older, newer);
    NewestOfJoin(AlsoSeen(h, older), newer);
  }

  /**
   A merge is the newer end of an ordered union that holds, at each time, the records of the base, or those of the
   other history where the base has none; only when it is full does it leave anything out.
   */
  lemma MergeIsNewestOfUnion(base: seq<RunRecord>, extra: seq<RunRecord>) returns (older: seq<RunRecord>)
    ensures
      var m := MergeRunHistory(base, extra);
      && Ordered(older + m) && |m| <= MAX_RUN_HISTORY && (older != [] ==> |m| == MAX_RUN_HISTORY)
      && (forall v :: At(older + m, v) == if Seen(base, v) then At(base, v) else At(extra, v))
  {
    var all := base + Unseen(base, extra);
    var newer;
    older, newer := MergeSplits(base, extra);
    forall v ensures At(older + newer, v) == if Seen(base, v) then At(base, v) else At(extra, v) {
      AtSort(all, v);
      AtConcat(base, Unseen(base, extra), v);
      AtUnseen(base, extra, v);
      AtMembers(base, v);
      assert [] + At(extra, v) == At(extra, v);
    }
  }

  // ---- Reading ----

  datatype SidecarRead = Unsupported | Runs(runs: Histories)

  /** Chooses the generation that belongs to a config revision. */
  function ReadSidecar(sidecar: File<Sidecar>, revision: nat): SidecarRead {
    if !sidecar.Content? then Runs(map[])
    else
      var s := sidecar.value;
      if s.schema > SIDECAR_SCHEMA then Unsupported
      else if s.schema == 0 && s.revision == 0 && s.previous.None? then Runs(s.runs)
      else if s.revision == revision then Runs(s.runs)
      else if s.previous.Some? && s.previous.value.revision == revision then Runs(s.previous.value.runs)
      else if revision == 0 || revision > s.revision then Runs(s.runs)
      else Runs(map[])
  }

  function WithHistory(t: Task, runs: Histories): Task {
    if t.id in runs && runs[t.id] != [] then t.(history := MergeRunHistory(t.history, runs[t.id])) else t
  }

  function WithHistories(tasks: seq<Task>, runs: Histories): seq<Task> {
    seq(|tasks|, i requires 0 <= i < |tasks| => WithHistory(tasks[i], runs))
  }

  datatype Snapshot = Unreadable | Missing | Present(revision: nat, tasks: seq<Task>, file: Config)

  function ReadSnapshot(d: Disk): Snapshot {
    match d.config
    case Absent => Missing
    case Garbage => Unreadable
    case Content(cfg) =>
      if cfg.schema > CONFIG_SCHEMA then Unreadable
      else
        match ReadSidecar(d.sidecar, cfg.revision)
        case Unsupported => Unreadable
        case Runs(runs) => Present(cfg.revision, WithHistories(cfg.tasks, runs), cfg)
  }

  /** Histories by task id; a later task with the same id wins. */
  function ByTask(tasks: seq<Task>): Histories {
    if tasks == [] then map[]
    else
      var rest := ByTask(tasks[..|tasks| - 1]);
      var t := tasks[|tasks| - 1];
      if t.history != [] then rest[t.id := t.history] else rest
  }

  function Stripped(tasks: seq<Task>): seq<Task> {
    seq(|tasks|, i requires 0 <= i < |tasks| => tasks[i].(history := []))
  }

  // ---- Committing ----

  /** How one commit attempt ends once it reaches the files. A crash may strike between any two writes. */
  datatype Outcome = SidecarFails | CrashAfterSidecar | ConfigFails(restored: bool) | Committed

  datatype CommitResult = Ok | ReadError | Conflict | TooNew | WriteError | Crashed

  function NewSidecar(s: Snapshot, tasks: seq<Task>): Sidecar
    requires !s.Unreadable?
  {
    Sidecar(SIDECAR_SCHEMA, NextRevision(s), ByTask(tasks),
            if s.Present? then Some(Generation(s.revision, ByTask(s.tasks))) else None)
  }

  function NextRevision(s: Snapshot): nat { if s.Present? then s.revision + 1 else 1 }

  predicate Accepts(d: Disk, expected: Option<Snapshot>) {
    var s := ReadSnapshot(d);
    && !s.Unreadable?
    && (expected.Some? ==> s.Present? == expected.value.Present? && (s.Present? ==> s.file == expected.value.file))
    && !(d.sidecar.Content? && d.sidecar.value.schema > SIDECAR_SCHEMA)
  }

  /** The config parses and neither file in use is of a newer schema. */
  predicate Readable(d: Disk) {
    match d.config
    case Absent => true
    case Garbage => false
    case Content(cfg) => cfg.schema <= CONFIG_SCHEMA && !(d.sidecar.Content? && d.sidecar.value.schema > SIDECAR_SCHEMA)
  }

  /** The config file is not the one the snapshot was taken of. */
  predicate Stale(d: Disk, expected: Snapshot) {
    if expected.Present? then d.config != Content(expected.file) else d.config.Content?
  }

  /** An attempt gets as far as the files exactly when both can be read and the config is still the one it was made for. */
  lemma AcceptsExactly(d: Disk, expected: Option<Snapshot>)
    ensures ReadSnapshot(d).Unreadable? <==> !Readable(d)
    ensures Accepts(d, expected) <==>
      && Readable(d) && (expected.Some? ==> !Stale(d, expected.value))
      && !(d.sidecar.Content? && d.sidecar.value.schema > SIDECAR_SCHEMA)
    ensures !Accepts(d, expected) ==> forall tasks, outcome :: Attempt(d, tasks, expected, outcome) == d
  {
  }

  function Attempt(d: Disk, tasks: seq<Task>, expected: Option<Snapshot>, outcome: Outcome): Disk {
    if !Accepts(d, expected) then d
    else
      var s := ReadSnapshot(d);
      var staged := d.(sidecar := Content(NewSidecar(s, tasks)));
      match outcome
      case SidecarFails => d
      case CrashAfterSidecar => staged
      case ConfigFails(restored) => if restored then d else staged
      case Committed => staged.(config := Content(Config(CONFIG_SCHEMA, NextRevision(s), Stripped(tasks))))
  }

  class Store {
    var config: File<Config>
    var sidecar: File<Sidecar>

    ghost function Abs(): Disk
      reads this
    {
      Disk(config, sidecar)
    }

    /** expected is the snapshot the caller edited, when the write must not overwrite anything newer. */
    method WriteTasks(tasks: seq<Task>, expected: Option<Snapshot>, outcome: Outcome) returns (result: CommitResult)
      modifies this
      ensures Abs() == Attempt(old(Abs()), tasks, expected, outcome)
      ensures result.Ok? <==> Accepts(old(Abs()), expected) && outcome.Committed?
      ensures result.ReadError? <==> !Readable(old(Abs()))
      ensures result.Conflict? <==> Readable(old(Abs())) && expected.Some? && Stale(old(Abs()), expected.value)
      ensures result.Crashed? <==> Accepts(old(Abs()), expected) && outcome.CrashAfterSidecar?
      ensures result.ReadError? || result.Conflict? || result.TooNew? ==> Abs() == old(Abs())
    {
      var current := ReadSnapshot(Disk(config, sidecar));
      AcceptsExactly(Disk(config, sidecar), expected);
      if current.Unreadable? {
        return ReadError;
      }
      if expected.Some? {
        if current.Present? != expected.value.Present? || (current.Present? && current.file != expected.value.file) {
          return Conflict;
        }
      }
      var revision := if current.Present? then current.revision + 1 else 1;
      var runs: Histories := map[];
      var mainTasks: seq<Task> := [];
      for i := 0 to |tasks|
        invariant runs == ByTask(tasks[..i]) && mainTasks == Stripped(tasks[..i])
        invariant unchanged(this)
      {
        assert tasks[..i + 1][..i] == tasks[..i];
        mainTasks := mainTasks + [tasks[i].(history := [])];
        if |tasks[i].history| > 0 {
          runs := runs[tasks[i].id := tasks[i].history];
        }
      }
      assert tasks[..|tasks|] == tasks;
      var previousSidecar := sidecar;
      if previousSidecar.Content? && previousSidecar.value.schema > SIDECAR_SCHEMA {
        return TooNew;
      }
      var previous: Option<Generation> := None;
      if current.Present? {
        previous := Some(Generation(current.revision, ByTask(current.tasks)));
      }
      if outcome.SidecarFails? {
        return WriteError;
      }
      sidecar := Content(Sidecar(SIDECAR_SCHEMA, revision, runs, previous));
      if outcome.CrashAfterSidecar? {
        return Crashed;
      }
      if outcome.ConfigFails? {
        if outcome.restored {
          sidecar := previousSidecar;
        }
        return WriteError;
      }
      config := Content(Config(CONFIG_SCHEMA, revision, mainTasks));
      return Ok;
    }
  }

  // ---- Crash safety ----

  /** History kept only in the sidecar, as every commit of this code leaves the config. */
  predicate SidecarOwned(d: Disk) {
    d.config.Content? ==> forall i :: 0 <= i < |d.config.value.tasks| ==> d.config.value.tasks[i].history == []
  }

  predicate UniqueIds(tasks: seq<Task>) { forall i, j :: 0 <= i < j < |tasks| ==> tasks[i].id != tasks[j].id }

  /**
   While the new sidecar is staged but its config is not, the reader returns exactly the histories that the
   config on disk had before, for any config and any earlier sidecar.
   */
  lemma StagedSidecarServesOldConfig(d: Disk, tasks: seq<Task>)
    requires ReadSnapshot(d).Present?
    ensures
      var s := ReadSnapshot(d);
      ReadSidecar(Content(NewSidecar(s, tasks)), s.revision) == Runs(ByTask(s.tasks))
  {
  }

  lemma {:induction false} ByTaskFinds(tasks: seq<Task>, i: nat)
    requires i < |tasks| && tasks[i].history != []
    requires forall j :: 0 <= j < |tasks| && tasks[j].id == tasks[i].id ==> tasks[j].history == tasks[i].history
    ensures tasks[i].id in ByTask(tasks) && ByTask(tasks)[tasks[i].id] == tasks[i].history
  {
    var n := |tasks| - 1;
    if tasks[n].id != tasks[i].id {
      ByTaskFinds(tasks[..n], i);
    } else {
      assert tasks[n].history == tasks[i].history;
    }
  }

  lemma {:induction false} ByTaskHasOrigin(tasks: seq<Task>, id: string) returns (i: nat)
    requires id in ByTask(tasks)
    ensures i < |tasks| && tasks[i].id == id && tasks[i].history != [] && ByTask(tasks)[id] == tasks[i].history
  {
    var n := |tasks| - 1;
    if tasks[n].id == id && tasks[n].history != [] {
      i := n;
    } else {
      i := ByTaskHasOrigin(tasks[..n], id);
    }
  }

  /** Tasks under one id carry one history in the config. */
  predicate OneHistoryEach(tasks: seq<Task>) {
    forall i, j :: 0 <= i < |tasks| && 0 <= j < |tasks| && tasks[i].id == tasks[j].id ==> tasks[i].history == tasks[j].history
  }

  /** A history the config carries alone, with nothing beside it, is in engine form. */
  predicate LoneHistoriesNormal(tasks: seq<Task>, runs: Histories) {
    forall i :: 0 <= i < |tasks| && !(tasks[i].id in runs && runs[tasks[i].id] != []) ==> Normal(tasks[i].history)
  }

  lemma MergeKeepsSome(h: seq<RunRecord>, x: seq<RunRecord>)
    requires x != []
    ensures MergeRunHistory(h, x) != []
  {
    var older, newer := MergeSplits(h, x);
    var v := x[0].at;
    AtConcat(h, Unseen(h, x), v);
    AtUnseen(h, x, v);
    AtMembers(x, v);
    AtMembers(h, v);
    AtSort(h + Unseen(h, x), v);
    assert x[0] in At(x, v);
  }

  /** Reading a task back through a generation that holds what was read changes nothing, on the terms above. */
  lemma HistorySettles(t: Task, runs: Histories, again: Histories)
    requires (t.id in runs && runs[t.id] != []) || Normal(t.history)
    requires WithHistory(t, runs).history != [] ==> t.id in again && again[t.id] == WithHistory(t, runs).history
    requires WithHistory(t, runs).history == [] ==> t.id !in again
    ensures WithHistory(t, again) == WithHistory(t, runs)
  {
    if t.id in runs && runs[t.id] != [] {
      MergeKeepsSome(t.history, runs[t.id]);
      MergeAgain(t.history, runs[t.id]);
    } else if t.history != [] {
      NormalMergesWithItself(t.history);
    }
  }

  lemma {:induction false} NothingUnseen(base: seq<RunRecord>, extra: seq<RunRecord>)
    requires forall i :: 0 <= i < |extra| ==> Seen(base, extra[i].at)
    ensures Unseen(base, extra) == []
  {
    if extra != [] {
      NothingUnseen(base, extra[..|extra| - 1]);
    }
  }

  lemma NormalMergesWithItself(h: seq<RunRecord>)
    ensures MergeRunHistory(h, h) == h <==> Normal(h)
  {
    NothingUnseen(h, h);
    assert h + [] == h;
    if Normal(h) {
      SortOfOrdered(h);
    }
  }

  /** What ByTask holds for a task whose namesakes have the same history. */
  lemma ByTaskHolds(tasks: seq<Task>, i: nat)
    requires i < |tasks| && OneHistoryEach(tasks)
    ensures tasks[i].history != [] ==> tasks[i].id in ByTask(tasks) && ByTask(tasks)[tasks[i].id] == tasks[i].history
    ensures tasks[i].history == [] ==> tasks[i].id !in ByTask(tasks)
  {
    if tasks[i].history != [] {
      ByTaskFinds(tasks, i);
    } else if tasks[i].id in ByTask(tasks) {
      var j := ByTaskHasOrigin(tasks, tasks[i].id);
    }
  }

  lemma OneHistoryEachRead(tasks: seq<Task>, runs: Histories)
    requires OneHistoryEach(tasks)
    ensures OneHistoryEach(WithHistories(tasks, runs))
  {
    var read := WithHistories(tasks, runs);
    forall i, j | 0 <= i < |read| && 0 <= j < |read| && read[i].id == read[j].id ensures read[i].history == read[j].history {
      assert read[i] == WithHistory(tasks[i], runs) && read[j] == WithHistory(tasks[j], runs);
    }
  }

  /**
   Re-reading histories through the previous generation changes nothing exactly if every history the config carries
   with nothing beside it is in engine form.
   */
  lemma HistoriesSettle(tasks: seq<Task>, runs: Histories)
    requires OneHistoryEach(tasks)
    ensures WithHistories(tasks, ByTask(WithHistories(tasks, runs))) == WithHistories(tasks, runs) <==> LoneHistoriesNormal(tasks, runs)
  {
    var once := WithHistories(tasks, runs);
    var twice := WithHistories(tasks, ByTask(once));
    OneHistoryEachRead(tasks, runs);
    if LoneHistoriesNormal(tasks, runs) {
      forall i | 0 <= i < |tasks| ensures twice[i] == once[i] {
        assert once[i] == WithHistory(tasks[i], runs);
        ByTaskHolds(once, i);
        HistorySettles(tasks[i], runs, ByTask(once));
      }
    } else {
      var i :| 0 <= i < |tasks| && !(tasks[i].id in runs && runs[tasks[i].id] != []) && !Normal(tasks[i].history);
      assert once[i] == WithHistory(tasks[i], runs) == tasks[i];
      ByTaskHolds(once, i);
      assert twice[i] == WithHistory(tasks[i], ByTask(once));
      NormalMergesWithItself(tasks[i].history);
    }
  }

  /** What a reader sees of the config survives a sidecar staged for the next one. */
  predicate Mergeable(d: Disk) {
    ReadSnapshot(d).Present? ==>
      OneHistoryEach(d.config.value.tasks) && LoneHistoriesNormal(d.config.value.tasks, ReadSidecar(d.sidecar, d.config.value.revision).runs)
  }

  lemma SidecarOwnedIsMergeable(d: Disk)
    requires SidecarOwned(d)
    ensures Mergeable(d)
  {
  }

  /** A crash between the two writes is invisible exactly if the config on disk is mergeable. */
  lemma StagedIsInvisibleExactly(d: Disk, tasks: seq<Task>, expected: Option<Snapshot>)
    requires Accepts(d, expected) && ReadSnapshot(d).Present? && OneHistoryEach(d.config.value.tasks)
    ensures ReadSnapshot(Attempt(d, tasks, expected, CrashAfterSidecar)) == ReadSnapshot(d) <==> Mergeable(d)
  {
    var s := ReadSnapshot(d);
    StagedSidecarServesOldConfig(d, tasks);
    HistoriesSettle(d.config.value.tasks, ReadSidecar(d.sidecar, s.revision).runs);
  }

  /** A config with one inline history out of engine form and no sidecar: a crash after staging changes what is read. */
  lemma InlineHistoryIsRewritten(t: Task, tasks: seq<Task>)
    requires !Normal(t.history)
    ensures
      var d := Disk(Content(Config(CONFIG_SCHEMA, 1, [t])), Absent);
      ReadSnapshot(Attempt(d, tasks, None, CrashAfterSidecar)) != ReadSnapshot(d)
  {
    var d := Disk(Content(Config(CONFIG_SCHEMA, 1, [t])), Absent);
    assert ReadSidecar(d.sidecar, 1) == Runs(map[]);
    assert d.config.value.tasks[0] == t;
    StagedIsInvisibleExactly(d, tasks, None);
  }

  lemma StagedStaysMergeable(d: Disk, tasks: seq<Task>)
    requires ReadSnapshot(d).Present? && Mergeable(d)
    ensures Mergeable(d.(sidecar := Content(NewSidecar(ReadSnapshot(d), tasks))))
  {
    var s := ReadSnapshot(d);
    var (own, runs) := (d.config.value.tasks, ReadSidecar(d.sidecar, s.revision).runs);
    StagedSidecarServesOldConfig(d, tasks);
    OneHistoryEachRead(own, runs);
    forall i | 0 <= i < |own| && !(own[i].id in ByTask(s.tasks) && ByTask(s.tasks)[own[i].id] != []) ensures Normal(own[i].history) {
      assert s.tasks[i] == WithHistory(own[i], runs);
      ByTaskHolds(s.tasks, i);
    }
  }

  /** An attempt that does not commit, however it ends, leaves what a reader sees untouched. */
  lemma UncommittedAttemptIsInvisible(d: Disk, tasks: seq<Task>, expected: Option<Snapshot>, outcome: Outcome)
    requires Mergeable(d) && !outcome.Committed?
    ensures ReadSnapshot(Attempt(d, tasks, expected, outcome)) == ReadSnapshot(d)
    ensures Mergeable(Attempt(d, tasks, expected, outcome))
  {
    if Accepts(d, expected) && ReadSnapshot(d).Present? {
      StagedIsInvisibleExactly(d, tasks, expected);
      StagedStaysMergeable(d, tasks);
    }
  }

  /** What a reader sees of tasks that were committed. */
  function Kept(tasks: seq<Task>): seq<Task> { WithHistories(Stripped(tasks), ByTask(tasks)) }

  lemma CommittedAttemptIsRead(d: Disk, tasks: seq<Task>, expected: Option<Snapshot>)
    requires Accepts(d, expected)
    ensures
      var d' := Attempt(d, tasks, expected, Committed);
      SidecarOwned(d') && ReadSnapshot(d').Present? && ReadSnapshot(d').tasks == Kept(tasks)
      && ReadSnapshot(d').revision == NextRevision(ReadSnapshot(d))
  {
  }

  /** With distinct ids and histories in engine form, a reader sees the committed tasks exactly. */
  lemma KeptExactly(tasks: seq<Task>)
    requires UniqueIds(tasks) && forall i :: 0 <= i < |tasks| ==> Normal(tasks[i].history)
    ensures Kept(tasks) == tasks
  {
    forall i | 0 <= i < |tasks|
      ensures Kept(tasks)[i] == tasks[i]
    {
      var bare := tasks[i].(history := []);
      assert Kept(tasks)[i] == WithHistory(bare, ByTask(tasks));
      if tasks[i].history != [] {
        ByTaskFinds(tasks, i);
        NormalReadsBack(tasks[i].history);
      } else if tasks[i].id in ByTask(tasks) {
        var j := ByTaskHasOrigin(tasks, tasks[i].id);
      }
    }
  }

  /**
   A config that an older writer, which knows no sidecar, saves over a committed one, without a revision or with a later
   one, is read with the committed histories, exactly unless it has no revision and the commit replaced a config that had
   none either: then the histories of that one are read. A config older than both generations is read without any.
   */
  lemma OlderWriterKeepsHistoryExactly(d: Disk, tasks: seq<Task>, expected: Option<Snapshot>, cfg: Config)
    requires Accepts(d, expected) && cfg.schema <= CONFIG_SCHEMA
    ensures
      var s := ReadSnapshot(d);
      var after := Attempt(d, tasks, expected, Committed).(config := Content(cfg));
      var replacedUnnumbered := cfg.revision == 0 && s.Present? && s.revision == 0;
      && ReadSnapshot(after).Present?
      && (cfg.revision == 0 || cfg.revision >= NextRevision(s) ==>
            ReadSnapshot(after).tasks == WithHistories(cfg.tasks, if replacedUnnumbered then ByTask(s.tasks) else ByTask(tasks)))
      && (0 < cfg.revision < NextRevision(s) && !(s.Present? && s.revision == cfg.revision) ==> ReadSnapshot(after).tasks == cfg.tasks)
  {
    WithoutHistories(cfg.tasks);
  }

  lemma WithoutHistories(tasks: seq<Task>)
    ensures WithHistories(tasks, map[]) == tasks
  {
    forall i | 0 <= i < |tasks| ensures WithHistories(tasks, map[])[i] == tasks[i] {
    }
  }

  // ---- Whole histories of attempts ----

  datatype Try = Try(tasks: seq<Task>, expected: Option<Snapshot>, outcome: Outcome)

  function After(d: Disk, tries: seq<Try>): Disk {
    if tries == [] then d
    else
      var t := tries[|tries| - 1];
      Attempt(After(d, tries[..|tries| - 1]), t.tasks, t.expected, t.outcome)
  }

  /** The tasks a reader must see: those of the last commit that went through, or the initial ones. */
  function LastCommitted(d: Disk, tries: seq<Try>): Option<seq<Task>> {
    if tries == [] then (if ReadSnapshot(d).Present? then Some(ReadSnapshot(d).tasks) else None)
    else
      var t := tries[|tries| - 1];
      if t.outcome.Committed? && Accepts(After(d, tries[..|tries| - 1]), t.expected) then Some(Kept(t.tasks))
      else LastCommitted(d, tries[..|tries| - 1])
  }

  /**
   After any sequence of commits, write failures, failed restores and crashes between the two writes, the
   reader returns the run history committed with the config that is on disk.
   */
  lemma {:induction false} ReaderSeesLastCommit(d: Disk, tries: seq<Try>)
    requires Mergeable(d) && !ReadSnapshot(d).Unreadable?
    ensures
      var s := ReadSnapshot(After(d, tries));
      && Mergeable(After(d, tries)) && !s.Unreadable?
      && s.Present? == LastCommitted(d, tries).Some?
      && (s.Present? ==> s.tasks == LastCommitted(d, tries).value)
  {
    if tries != [] {
      var t := tries[|tries| - 1];
      var before := After(d, tries[..|tries| - 1]);
      ReaderSeesLastCommit(d, tries[..|tries| - 1]);
      if t.outcome.Committed? {
        if Accepts(before, t.expected) {
          CommittedAttemptIsRead(before, t.tasks, t.expected);
          SidecarOwnedIsMergeable(After(d, tries));
        }
      } else {
        UncommittedAttemptIsInvisible(before, t.tasks, t.expected, t.outcome);
      }
    }
  }

  /** Some attempt of the list went through. */
  ghost predicate SomeCommit(d: Disk, tries: seq<Try>) {
    exists i :: 0 <= i < |tries| && tries[i].outcome.Committed? && Accepts(After(d, tries[..i]), tries[i].expected)
  }

  predicate Writable(d: Disk) { Readable(d) && !(d.sidecar.Content? && d.sidecar.value.schema > SIDECAR_SCHEMA) }

  /** The config is the one it was, or a later one. */
  ghost predicate Later(d: Disk, d': Disk, committed: bool) {
    && Writable(d')
    && (if committed then d'.config.Content? && (d.config.Content? ==> d'.config.value.revision > d.config.value.revision)
        else d'.config == d.config)
  }

  lemma SomeCommitSnoc(d: Disk, tries: seq<Try>)
    requires tries != []
    ensures
      var (front, t) := (tries[..|tries| - 1], tries[|tries| - 1]);
      SomeCommit(d, tries) <==> SomeCommit(d, front) || (t.outcome.Committed? && Accepts(After(d, front), t.expected))
  {
    var front := tries[..|tries| - 1];
    assert forall i :: 0 <= i < |front| ==> front[i] == tries[i] && front[..i] == tries[..i];
    if SomeCommit(d, front) {
      var i :| 0 <= i < |front| && front[i].outcome.Committed? && Accepts(After(d, front[..i]), front[i].expected);
      assert tries[i].outcome.Committed? && Accepts(After(d, tries[..i]), tries[i].expected);
    }
  }

  lemma AttemptIsLater(d: Disk, d': Disk, committed: bool, t: Try)
    requires Later(d, d', committed)
    ensures Later(d, Attempt(d', t.tasks, t.expected, t.outcome), committed || (t.outcome.Committed? && Accepts(d', t.expected)))
  {
    AcceptsExactly(d', t.expected);
  }

  lemma {:induction false} AttemptsAreLater(d: Disk, tries: seq<Try>)
    requires Writable(d)
    ensures Later(d, After(d, tries), SomeCommit(d, tries))
  {
    if tries != [] {
      var (front, t) := (tries[..|tries| - 1], tries[|tries| - 1]);
      AttemptsAreLater(d, front);
      AttemptIsLater(d, After(d, front), SomeCommit(d, front), t);
      SomeCommitSnoc(d, tries);
    }
  }

  /**
   A writer who took a snapshot overwrites the config exactly if no attempt of anyone went through since then, whatever
   failed or crashed in between. So no committed edit is ever lost to a stale one.
   */
  lemma StaleWriterIsRefusedExactly(d: Disk, tries: seq<Try>)
    requires Writable(d)
    ensures Accepts(After(d, tries), Some(ReadSnapshot(d))) <==> !SomeCommit(d, tries)
  {
    AttemptsAreLater(d, tries);
    AcceptsExactly(d, None);
    AcceptsExactly(After(d, tries), Some(ReadSnapshot(d)));
  }

  /** Tasks as the engine writes them: distinct, with histories in engine form. */
  predicate EngineForm(tasks: seq<Task>) { UniqueIds(tasks) && forall i :: 0 <= i < |tasks| ==> Normal(tasks[i].history) }

  /** The tasks of the last commit that went through, as they were given. */
  function LastWritten(d: Disk, tries: seq<Try>): Option<seq<Task>> {
    if tries == [] then (if ReadSnapshot(d).Present? then Some(ReadSnapshot(d).tasks) else None)
    else
      var t := tries[|tries| - 1];
      if t.outcome.Committed? && Accepts(After(d, tries[..|tries| - 1]), t.expected) then Some(t.tasks)
      else LastWritten(d, tries[..|tries| - 1])
  }

  /** If every attempt writes tasks in engine form, the reader gets back the committed tasks themselves. */
  lemma {:induction false} ReaderSeesLastWrite(d: Disk, tries: seq<Try>)
    requires Mergeable(d) && !ReadSnapshot(d).Unreadable?
    requires forall i :: 0 <= i < |tries| ==> EngineForm(tries[i].tasks)
    ensures LastWritten(d, tries) == LastCommitted(d, tries)
    ensures
      var s := ReadSnapshot(After(d, tries));
      && s.Present? == LastWritten(d, tries).Some?
      && (s.Present? ==> s.tasks == LastWritten(d, tries).value)
  {
    ReaderSeesLastCommit(d, tries);
    if tries != [] {
      ReaderSeesLastWrite(d, tries[..|tries| - 1]);
      KeptExactly(tries[|tries| - 1].tasks);
    }
  }
}

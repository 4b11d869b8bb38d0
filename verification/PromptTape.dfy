/**
 The prompt-history tape (desktop/app.go:4323-4331, 4357-4497): cursor paging over sessions whose entries
 are read from disk on first use and pinned for the life of the tape.
 */
module PromptTape {
  import opened Common

  datatype Entry = Entry(text: string, at: int, sessionPath: string, turn: nat)

  /** What the disk answers for one session file at one moment. */
  datatype FileRead = Missing | Unreadable | Read(entries: seq<Entry>)

  type Disk = string -> FileRead

  datatype Cursor = Cursor(nonce: string, session: int, offset: int)

  datatype Pos = Pos(session: nat, offset: nat)

  datatype Result = Result(entries: seq<Entry>, olderCursor: Option<Cursor>, hasOlder: bool)

  const PAGE_LIMIT := 50
  const MAX_PAGE_LIMIT := 200

  function PageLimit(limit: int): (n: nat)
    ensures 1 <= n <= MAX_PAGE_LIMIT
    ensures 1 <= limit <= MAX_PAGE_LIMIT ==> n == limit
    ensures limit <= 0 ==> n == 50
    ensures limit > MAX_PAGE_LIMIT ==> n == 200
  {
    if limit <= 0 then PAGE_LIMIT else if limit > MAX_PAGE_LIMIT then MAX_PAGE_LIMIT else limit
  }

  /** Where a page starts: the cursor if it belongs to this tape, the newest entry otherwise. */
  function StartOf(nonce: string, cursor: Option<Cursor>): Pos {
    if cursor.Some? && cursor.value.nonce == nonce then
      Pos(if cursor.value.session < 0 then 0 else cursor.value.session,
          if cursor.value.offset < 0 then 0 else cursor.value.offset)
    else Pos(0, 0)
  }

  type Cache = map<string, seq<Entry>>

  /** The cache after a session has been asked for; a failed read pins an empty session. */
  function Load(loaded: Cache, path: string, disk: Disk): (r: Cache)
    ensures path in r
  {
    if path in loaded then loaded
    else loaded[path := match disk(path) case Read(entries) => entries case _ => []]
  }

  /** One turn of the paging loop inside a session that has been read. */
  function Advance(entries: seq<Entry>, pos: Pos, out: seq<Entry>, limit: nat): (Pos, seq<Entry>)
    requires |out| < limit
  {
    if pos.offset >= |entries| then (Pos(pos.session + 1, 0), out)
    else
      var end := Min(|entries|, pos.offset + limit - |out|);
      var out' := out + entries[pos.offset..end];
      (if end >= |entries| && |out'| < limit then Pos(pos.session + 1, 0) else Pos(pos.session, end), out')
  }

  /** The paging loop. */
  function Fill(sessions: seq<string>, loaded: Cache, disk: Disk, pos: Pos, out: seq<Entry>, limit: nat): (Cache, Pos, seq<Entry>)
    decreases |sessions| - pos.session, limit - |out|
  {
    if pos.session >= |sessions| || |out| >= limit then (loaded, pos, out)
    else
      var loaded' := Load(loaded, sessions[pos.session], disk);
      var (pos', out') := Advance(loaded'[sessions[pos.session]], pos, out, limit);
      Fill(sessions, loaded', disk, pos', out', limit)
  }

  function Min(a: int, b: int): int { if a < b then a else b }

  /** A position at the end of a session already read moves to the next session. */
  function Settle(sessions: seq<string>, loaded: Cache, pos: Pos): Pos {
    if pos.session < |sessions| && sessions[pos.session] in loaded && pos.offset >= |loaded[sessions[pos.session]]|
    then Pos(pos.session + 1, 0)
    else pos
  }

  /** One page: the cache afterwards, the position it stops at, and its entries. */
  function PageFrom(sessions: seq<string>, loaded: Cache, disk: Disk, pos: Pos, limit: nat): (Cache, Pos, seq<Entry>) {
    var (loaded', pos', out) := Fill(sessions, loaded, disk, pos, [], limit);
    (loaded', Settle(sessions, loaded', pos'), out)
  }

  class Tape {
    const nonce: string
    const sessions: seq<string>
    var loaded: Cache

    constructor (nonce: string, sessions: seq<string>)
      ensures this.nonce == nonce && this.sessions == sessions && loaded == map[]
    {
      this.nonce, this.sessions, loaded := nonce, sessions, map[];
    }

    method EntriesForSession(index: nat, disk: Disk) returns (entries: seq<Entry>, failed: bool)
      requires index < |sessions|
      modifies this`loaded
      ensures loaded == Load(old(loaded), sessions[index], disk)
      ensures entries == loaded[sessions[index]]
      ensures sessions[index] in old(loaded) ==> entries == old(loaded)[sessions[index]] && !failed
      ensures sessions[index] !in old(loaded) ==> entries == DiskEntries(disk, sessions[index]) && failed == disk(sessions[index]).Unreadable?
    {
      var path := sessions[index];
      failed := false;
      if path in loaded {
        return loaded[path], false;
      }
      match disk(path)
      case Missing =>
        loaded := loaded[path := []];
        entries := [];
      case Unreadable =>
        loaded := loaded[path := []];
        entries, failed := [], true;
      case Read(read) =>
        loaded := loaded[path := read];
        entries := read;
    }

    method ReadOlder(cursor: Option<Cursor>, limit: nat, disk: Disk) returns (result: Result)
      requires limit > 0
      modifies this`loaded
      ensures
        var (loaded', pos', entries) := PageFrom(sessions, old(loaded), disk, StartOf(nonce, cursor), limit);
        && loaded == loaded'
        && result.entries == entries
        && result.hasOlder == (pos'.session < |sessions|)
        && result.olderCursor == if result.hasOlder then Some(Cursor(nonce, pos'.session, pos'.offset)) else None
    {
      var start := StartOf(nonce, cursor);
      var out: seq<Entry> := [];
      var sessionIndex: nat, offset: nat := start.session, start.offset;
      while sessionIndex < |sessions| && |out| < limit
        invariant |out| <= limit
        invariant Fill(sessions, loaded, disk, Pos(sessionIndex, offset), out, limit) == Fill(sessions, old(loaded), disk, start, [], limit)
        decreases |sessions| - sessionIndex, limit - |out|
      {
        var entries, failed := EntriesForSession(sessionIndex, disk);
        if failed || offset >= |entries| {
          sessionIndex, offset := sessionIndex + 1, 0;
          continue;
        }
        var end := Min(|entries|, offset + limit - |out|);
        out := out + entries[offset..end];
        offset := end;
        if offset >= |entries| && |out| < limit {
          sessionIndex, offset := sessionIndex + 1, 0;
        }
      }
      if sessionIndex < |sessions| && sessions[sessionIndex] in loaded && offset >= |loaded[sessions[sessionIndex]]| {
        sessionIndex, offset := sessionIndex + 1, 0;
      }
      var hasOlder := sessionIndex < |sessions|;
      result := Result(out, if hasOlder then Some(Cursor(nonce, sessionIndex, offset)) else None, hasOlder);
    }

    /** Reads the tape to its end; the disk may answer differently on every page. */
    method ReadAll(diskAt: nat -> Disk) returns (out: seq<Entry>)
      modifies this`loaded
      ensures ReadUpTo(sessions, loaded, |sessions|)
      ensures out == TextOf(sessions, loaded, |sessions|)
      ensures
        var (pages, final) := WalkFrom(sessions, old(loaded), diskAt, FullPages, Pos(0, 0), 0);
        out == Join(pages) && loaded == final
    {
      ghost var walk := WalkFrom(sessions, loaded, diskAt, FullPages, Pos(0, 0), 0);
      assert [] + Join(walk.0) == Join(walk.0);
      out := [];
      var cursor: Option<Cursor> := None;
      ghost var pos := Pos(0, 0);
      var step := 0;
      while true
        invariant StartOf(nonce, cursor) == pos
        invariant Reached(sessions, loaded, pos)
        invariant out == Before(sessions, loaded, pos)
        invariant Continues(sessions, loaded, diskAt, FullPages, pos, step, out, walk)
        decreases Left(sessions, loaded, pos).0, Left(sessions, loaded, pos).1, Left(sessions, loaded, pos).2
      {
        PageAdvances(sessions, loaded, diskAt(step), pos, MAX_PAGE_LIMIT);
        BeforeIsPinned(sessions, loaded, PageFrom(sessions, loaded, diskAt(step), pos, MAX_PAGE_LIMIT).0, pos);
        ContinuesOnePage(sessions, loaded, diskAt, FullPages, pos, step, out, walk);
        pos := PageFrom(sessions, loaded, diskAt(step), pos, MAX_PAGE_LIMIT).1;
        var page := ReadOlder(cursor, MAX_PAGE_LIMIT, diskAt(step));
        out := out + page.entries;
        if !page.hasOlder || page.olderCursor.None? {
          return;
        }
        cursor := page.olderCursor;
        step := step + 1;
      }
    }
  }

  // ---- What the disk answers ----

  /** What a session holds for a reader who asks the disk: its entries, or nothing if it is gone or unreadable. */
  function DiskEntries(disk: Disk, path: string): seq<Entry> {
    if disk(path).Read? then disk(path).entries else []
  }

  /** The sessions' entries, in order, as the disk gives them. */
  function DiskText(sessions: seq<string>, disk: Disk): seq<Entry> {
    if sessions == [] then [] else DiskText(sessions[..|sessions| - 1], disk) + DiskEntries(disk, sessions[|sessions| - 1])
  }

  // ---- What a position means ----

  predicate ReadUpTo(sessions: seq<string>, loaded: Cache, n: nat) {
    n <= |sessions| && forall i :: 0 <= i < n ==> sessions[i] in loaded
  }

  /** All entries of the first n sessions, in tape order, as pinned by the cache. */
  function TextOf(sessions: seq<string>, loaded: Cache, n: nat): seq<Entry>
    requires ReadUpTo(sessions, loaded, n)
  {
    if n == 0 then [] else TextOf(sessions, loaded, n - 1) + loaded[sessions[n - 1]]
  }

  /** Positions that paging reaches: every earlier session is pinned, and so is a session entered midway. */
  predicate Reached(sessions: seq<string>, loaded: Cache, pos: Pos) {
    && ReadUpTo(sessions, loaded, pos.session)
    && (pos.offset > 0 ==>
          pos.session < |sessions| && sessions[pos.session] in loaded && pos.offset <= |loaded[sessions[pos.session]]|)
  }

  /** Everything on the tape before a position. */
  function Before(sessions: seq<string>, loaded: Cache, pos: Pos): seq<Entry>
    requires Reached(sessions, loaded, pos)
  {
    TextOf(sessions, loaded, pos.session) + if pos.offset == 0 then [] else loaded[sessions[pos.session]][..pos.offset]
  }

  predicate Extends(loaded: Cache, loaded': Cache) { forall p :: p in loaded ==> p in loaded' && loaded'[p] == loaded[p] }

  lemma {:induction false} TextIsPinned(sessions: seq<string>, loaded: Cache, loaded': Cache, n: nat)
    requires ReadUpTo(sessions, loaded, n) && Extends(loaded, loaded')
    ensures ReadUpTo(sessions, loaded', n) && TextOf(sessions, loaded', n) == TextOf(sessions, loaded, n)
  {
    if n > 0 {
      TextIsPinned(sessions, loaded, loaded', n - 1);
    }
  }

  /** Later reads never change what lies before a reached position, whatever the disk does. */
  lemma BeforeIsPinned(sessions: seq<string>, loaded: Cache, loaded': Cache, pos: Pos)
    requires Reached(sessions, loaded, pos) && Extends(loaded, loaded')
    ensures Reached(sessions, loaded', pos) && Before(sessions, loaded', pos) == Before(sessions, loaded, pos)
  {
    TextIsPinned(sessions, loaded, loaded', pos.session);
  }

  /** gained is exactly what lies on the tape between two reached positions. */
  ghost predicate Between(sessions: seq<string>, loaded: Cache, pos: Pos, pos': Pos, gained: seq<Entry>) {
    && Reached(sessions, loaded, pos) && Reached(sessions, loaded, pos')
    && Before(sessions, loaded, pos') == Before(sessions, loaded, pos) + gained
  }

  lemma BetweenJoins(sessions: seq<string>, loaded: Cache, loaded': Cache, p: Pos, q: Pos, r: Pos, x: seq<Entry>, y: seq<Entry>)
    requires Between(sessions, loaded, p, q, x) && Extends(loaded, loaded') && Between(sessions, loaded', q, r, y)
    ensures Between(sessions, loaded', p, r, x + y)
  {
    BeforeIsPinned(sessions, loaded, loaded', p);
    BeforeIsPinned(sessions, loaded, loaded', q);
    var before := Before(sessions, loaded, p);
    assert before + (x + y) == (before + x) + y;
  }

  lemma AdvanceGains(sessions: seq<string>, loaded: Cache, pos: Pos, out: seq<Entry>, limit: nat)
    requires Reached(sessions, loaded, pos) && pos.session < |sessions| && sessions[pos.session] in loaded
    requires |out| < limit
    ensures
      var (pos', out') := Advance(loaded[sessions[pos.session]], pos, out, limit);
      && out <= out' && |out'| <= limit
      && Between(sessions, loaded, pos, pos', out'[|out|..])
      && Later(pos, pos')
      && (pos'.session == pos.session ==> |out'| == limit)
  {
    var entries := loaded[sessions[pos.session]];
    var (pos', out') := Advance(entries, pos, out, limit);
    var before := TextOf(sessions, loaded, pos.session);
    assert TextOf(sessions, loaded, pos.session + 1) == before + entries;
    var end := if pos.offset < |entries| then Min(|entries|, pos.offset + limit - |out|) else pos.offset;
    assert out' == out + entries[pos.offset..end] && out'[|out|..] == entries[pos.offset..end];
    SlicesJoin(before, entries, pos.offset, end);
  }

  lemma SlicesJoin(before: seq<Entry>, entries: seq<Entry>, k: nat, end: nat)
    requires k <= end <= |entries|
    ensures (before + entries[..k]) + entries[k..end] == before + entries[..end]
    ensures end == |entries| ==> before + entries[..end] == before + entries
  {
  }

  lemma {:induction false} FillAdvances(sessions: seq<string>, loaded: Cache, disk: Disk, pos: Pos, out: seq<Entry>, limit: nat)
    requires Reached(sessions, loaded, pos) && |out| <= limit
    ensures
      var (loaded', pos', out') := Fill(sessions, loaded, disk, pos, out, limit);
      && Extends(loaded, loaded')
      && out <= out' && |out'| <= limit
      && Between(sessions, loaded', pos, pos', out'[|out|..])
      && (pos'.session < |sessions| ==> |out'| == limit)
      && (pos == pos' || Later(pos, pos'))
      && (|out| < limit && pos.session < |sessions| ==> Later(pos, pos'))
    decreases |sessions| - pos.session, limit - |out|
  {
    if pos.session < |sessions| && |out| < limit {
      var loaded1 := Load(loaded, sessions[pos.session], disk);
      BeforeIsPinned(sessions, loaded, loaded1, pos);
      AdvanceGains(sessions, loaded1, pos, out, limit);
      var (pos1, out1) := Advance(loaded1[sessions[pos.session]], pos, out, limit);
      FillAdvances(sessions, loaded1, disk, pos1, out1, limit);
      var (loaded', pos', out') := Fill(sessions, loaded1, disk, pos1, out1, limit);
      GainsJoin(sessions, loaded1, loaded', pos, pos1, pos', out, out1, out');
    }
  }

  lemma GainsJoin(sessions: seq<string>, loaded: Cache, loaded': Cache, p: Pos, q: Pos, r: Pos, x: seq<Entry>, y: seq<Entry>, z: seq<Entry>)
    requires x <= y <= z && Extends(loaded, loaded')
    requires Between(sessions, loaded, p, q, y[|x|..]) && Between(sessions, loaded', q, r, z[|y|..])
    ensures Between(sessions, loaded', p, r, z[|x|..])
  {
    BetweenJoins(sessions, loaded, loaded', p, q, r, y[|x|..], z[|y|..]);
    assert z[|x|..] == y[|x|..] + z[|y|..];
  }

  /** Termination measure of a walk: sessions left, whether this one is unread, entries left in it. */
  function Left(sessions: seq<string>, loaded: Cache, pos: Pos): (nat, nat, nat)
    requires Reached(sessions, loaded, pos)
  {
    if pos.session >= |sessions| then (0, 0, 0)
    else if sessions[pos.session] !in loaded then (|sessions| - pos.session, 1, 0)
    else (|sessions| - pos.session, 0, |loaded[sessions[pos.session]]| - pos.offset)
  }

  predicate Later(a: Pos, b: Pos) { a.session < b.session || (a.session == b.session && a.offset < b.offset) }

  ghost predicate Decreases(a: (nat, nat, nat), b: (nat, nat, nat)) {
    b.0 < a.0 || (b.0 == a.0 && (b.1 < a.1 || (b.1 == a.1 && b.2 < a.2)))
  }

  /**
   A page holds exactly the entries between its two positions; while older entries remain it is full, its
   cursor lies strictly later, and the measure of the walk drops.
   */
  lemma PageAdvances(sessions: seq<string>, loaded: Cache, disk: Disk, pos: Pos, limit: nat)
    requires Reached(sessions, loaded, pos) && limit > 0
    ensures
      var (loaded', pos', entries) := PageFrom(sessions, loaded, disk, pos, limit);
      && Extends(loaded, loaded')
      && |entries| <= limit
      && Between(sessions, loaded', pos, pos', entries)
      && (pos'.session < |sessions| ==>
            |entries| == limit && Later(pos, pos') && Decreases(Left(sessions, loaded, pos), Left(sessions, loaded', pos')))
      && (pos'.session >= |sessions| ==> pos' == Pos(|sessions|, 0))
  {
    FillAdvances(sessions, loaded, disk, pos, [], limit);
    var (loaded', stop, entries) := Fill(sessions, loaded, disk, pos, [], limit);
    assert entries[0..] == entries;
    if Settle(sessions, loaded', stop) != stop {
      var all := loaded'[sessions[stop.session]];
      assert all[..|all|] == all;
    }
    if pos.session < |sessions| && sessions[pos.session] !in loaded {
      FillReadsCurrent(sessions, loaded, disk, pos, limit);
    }
  }

  lemma FillReadsCurrent(sessions: seq<string>, loaded: Cache, disk: Disk, pos: Pos, limit: nat)
    requires Reached(sessions, loaded, pos) && limit > 0 && pos.session < |sessions|
    ensures sessions[pos.session] in Fill(sessions, loaded, disk, pos, [], limit).0
  {
    var loaded1 := Load(loaded, sessions[pos.session], disk);
    BeforeIsPinned(sessions, loaded, loaded1, pos);
    AdvanceGains(sessions, loaded1, pos, [], limit);
    var (pos1, out1) := Advance(loaded1[sessions[pos.session]], pos, [], limit);
    FillAdvances(sessions, loaded1, disk, pos1, out1, limit);
  }

  // ---- Whole walks ----

  /** The pages reached by following the cursor from pos, and the cache at the end of the walk. */
  function WalkFrom(sessions: seq<string>, loaded: Cache, diskAt: nat -> Disk, limitAt: nat -> int, pos: Pos, step: nat): (seq<seq<Entry>>, Cache)
    requires Reached(sessions, loaded, pos)
    decreases Left(sessions, loaded, pos).0, Left(sessions, loaded, pos).1, Left(sessions, loaded, pos).2
  {
    PageAdvances(sessions, loaded, diskAt(step), pos, PageLimit(limitAt(step)));
    var (loaded', pos', entries) := PageFrom(sessions, loaded, diskAt(step), pos, PageLimit(limitAt(step)));
    if pos'.session >= |sessions| then ([entries], loaded')
    else
      var (rest, final) := WalkFrom(sessions, loaded', diskAt, limitAt, pos', step + 1);
      ([entries] + rest, final)
  }

  /** The limits of a reader who wants everything. */
  function FullPages(step: nat): int { MAX_PAGE_LIMIT }

  function Join(pages: seq<seq<Entry>>): seq<Entry> {
    if pages == [] then [] else pages[0] + Join(pages[1..])
  }

  /** The rest of a walk reads every session to its end, and its pages are the entries after pos, each once. */
  ghost predicate ReadsRest(sessions: seq<string>, loaded: Cache, pos: Pos, pages: seq<seq<Entry>>, final: Cache)
    requires Reached(sessions, loaded, pos)
  {
    && Extends(loaded, final) && ReadUpTo(sessions, final, |sessions|)
    && Before(sessions, loaded, pos) + Join(pages) == TextOf(sessions, final, |sessions|)
  }

  lemma ReadsOnePage(sessions: seq<string>, loaded: Cache, loaded': Cache, pos: Pos, pos': Pos, page: seq<Entry>,
                     rest: seq<seq<Entry>>, final: Cache)
    requires Reached(sessions, loaded, pos) && Extends(loaded, loaded') && Between(sessions, loaded', pos, pos', page)
    requires ReadsRest(sessions, loaded', pos', rest, final)
    ensures ReadsRest(sessions, loaded, pos, [page] + rest, final)
  {
    BeforeIsPinned(sessions, loaded, loaded', pos);
    var before := Before(sessions, loaded, pos);
    assert ([page] + rest)[1..] == rest;
    assert before + (page + Join(rest)) == (before + page) + Join(rest);
  }

  /**
   Whatever limits a caller asks for and however the disk changes meanwhile, the pages reached from a
   position concatenate to the rest of the tape: every entry of every session once, in tape order.
   */
  lemma {:induction false} WalkReadsRest(sessions: seq<string>, loaded: Cache, diskAt: nat -> Disk, limitAt: nat -> int, pos: Pos, step: nat)
    requires Reached(sessions, loaded, pos)
    ensures
      var (pages, final) := WalkFrom(sessions, loaded, diskAt, limitAt, pos, step);
      ReadsRest(sessions, loaded, pos, pages, final)
    decreases Left(sessions, loaded, pos).0, Left(sessions, loaded, pos).1, Left(sessions, loaded, pos).2
  {
    PageAdvances(sessions, loaded, diskAt(step), pos, PageLimit(limitAt(step)));
    var (loaded', pos', page) := PageFrom(sessions, loaded, diskAt(step), pos, PageLimit(limitAt(step)));
    if pos'.session < |sessions| {
      var (rest, final) := WalkFrom(sessions, loaded', diskAt, limitAt, pos', step + 1);
      WalkReadsRest(sessions, loaded', diskAt, limitAt, pos', step + 1);
      ReadsOnePage(sessions, loaded, loaded', pos, pos', page, rest, final);
    } else {
      assert Before(sessions, loaded', pos') + Join([]) == Before(sessions, loaded', pos');
      ReadsOnePage(sessions, loaded, loaded', pos, pos', page, [], loaded');
      assert [page] + [] == [page];
    }
  }

  /** A fresh tape, read page by page from the newest entry, yields the whole tape. */
  lemma PagesCoverTape(sessions: seq<string>, diskAt: nat -> Disk, limitAt: nat -> int)
    ensures
      var (pages, final) := WalkFrom(sessions, map[], diskAt, limitAt, Pos(0, 0), 0);
      ReadUpTo(sessions, final, |sessions|) && Join(pages) == TextOf(sessions, final, |sessions|)
  {
    WalkReadsRest(sessions, map[], diskAt, limitAt, Pos(0, 0), 0);
  }

  // ---- The pages and the disk ----

  /** From one cache to the next: what was pinned stays, and what is new is what the disk gave. */
  ghost predicate LoadsFrom(loaded: Cache, loaded': Cache, disk: Disk) {
    Extends(loaded, loaded') && forall p :: p in loaded' && p !in loaded ==> loaded'[p] == DiskEntries(disk, p)
  }

  /** A page pins only what it asks for, with what the disk answers just then. */
  lemma {:induction false} FillLoads(sessions: seq<string>, loaded: Cache, disk: Disk, pos: Pos, out: seq<Entry>, limit: nat)
    ensures LoadsFrom(loaded, Fill(sessions, loaded, disk, pos, out, limit).0, disk)
    decreases |sessions| - pos.session, limit - |out|
  {
    if pos.session < |sessions| && |out| < limit {
      var loaded1 := Load(loaded, sessions[pos.session], disk);
      var (pos1, out1) := Advance(loaded1[sessions[pos.session]], pos, out, limit);
      FillLoads(sessions, loaded1, disk, pos1, out1, limit);
    }
  }

  /** The cache when the k-th page from pos is asked for, or at the end of a shorter walk. */
  function CacheAt(sessions: seq<string>, loaded: Cache, diskAt: nat -> Disk, limitAt: nat -> int, pos: Pos, step: nat, k: nat): Cache
    requires Reached(sessions, loaded, pos)
    decreases k
  {
    if k == 0 then loaded
    else
      PageAdvances(sessions, loaded, diskAt(step), pos, PageLimit(limitAt(step)));
      var (loaded', pos', _) := PageFrom(sessions, loaded, diskAt(step), pos, PageLimit(limitAt(step)));
      if pos'.session >= |sessions| then loaded' else CacheAt(sessions, loaded', diskAt, limitAt, pos', step + 1, k - 1)
  }

  /** Page k of the walk is the one that first asks for p, and p keeps what the disk gave then. */
  ghost predicate FirstAsked(sessions: seq<string>, loaded: Cache, diskAt: nat -> Disk, limitAt: nat -> int, pos: Pos, step: nat,
                             p: string, k: nat)
    requires Reached(sessions, loaded, pos)
  {
    var (pages, final) := WalkFrom(sessions, loaded, diskAt, limitAt, pos, step);
    && k < |pages|
    && p !in CacheAt(sessions, loaded, diskAt, limitAt, pos, step, k)
    && p in CacheAt(sessions, loaded, diskAt, limitAt, pos, step, k + 1)
    && p in final && final[p] == DiskEntries(diskAt(step + k), p)
  }

  lemma AskedNow(sessions: seq<string>, loaded: Cache, diskAt: nat -> Disk, limitAt: nat -> int, pos: Pos, step: nat, p: string)
    requires Reached(sessions, loaded, pos) && p !in loaded
    requires p in PageFrom(sessions, loaded, diskAt(step), pos, PageLimit(limitAt(step))).0
    ensures FirstAsked(sessions, loaded, diskAt, limitAt, pos, step, p, 0)
  {
    var limit := PageLimit(limitAt(step));
    PageAdvances(sessions, loaded, diskAt(step), pos, limit);
    FillLoads(sessions, loaded, diskAt(step), pos, [], limit);
    var (loaded', pos', _) := PageFrom(sessions, loaded, diskAt(step), pos, limit);
    if pos'.session < |sessions| {
      WalkReadsRest(sessions, loaded', diskAt, limitAt, pos', step + 1);
    }
  }

  lemma AskedLater(sessions: seq<string>, loaded: Cache, diskAt: nat -> Disk, limitAt: nat -> int, pos: Pos, step: nat, p: string, k: nat)
    requires Reached(sessions, loaded, pos) && p !in loaded
    requires
      var (loaded', pos', _) := PageFrom(sessions, loaded, diskAt(step), pos, PageLimit(limitAt(step)));
      && pos'.session < |sessions| && Reached(sessions, loaded', pos')
      && FirstAsked(sessions, loaded', diskAt, limitAt, pos', step + 1, p, k)
    ensures FirstAsked(sessions, loaded, diskAt, limitAt, pos, step, p, k + 1)
  {
    assert step + (k + 1) == (step + 1) + k;
  }

  lemma WalkUnfolds(sessions: seq<string>, loaded: Cache, diskAt: nat -> Disk, limitAt: nat -> int, pos: Pos, step: nat)
    requires Reached(sessions, loaded, pos)
    ensures
      var (loaded', pos', _) := PageFrom(sessions, loaded, diskAt(step), pos, PageLimit(limitAt(step)));
      && Reached(sessions, loaded', pos')
      && (pos'.session >= |sessions| ==> WalkFrom(sessions, loaded, diskAt, limitAt, pos, step).1 == loaded')
      && (pos'.session < |sessions| ==>
            && WalkFrom(sessions, loaded, diskAt, limitAt, pos, step).1 == WalkFrom(sessions, loaded', diskAt, limitAt, pos', step + 1).1
            && |WalkFrom(sessions, loaded, diskAt, limitAt, pos, step).0| == 1 + |WalkFrom(sessions, loaded', diskAt, limitAt, pos', step + 1).0|)
  {
    PageAdvances(sessions, loaded, diskAt(step), pos, PageLimit(limitAt(step)));
  }

  /**
   Every session a walk comes to keeps what the disk gave for it at the page that first asked for it: before that page it
   was not in the cache, after it it was, and it never changes again.
   */
  lemma PinnedWhenFirstAsked(sessions: seq<string>, loaded: Cache, diskAt: nat -> Disk, limitAt: nat -> int,
                                                pos: Pos, step: nat, p: string) returns (k: nat)
    requires Reached(sessions, loaded, pos)
    requires p in WalkFrom(sessions, loaded, diskAt, limitAt, pos, step).1 && p !in loaded
    ensures FirstAsked(sessions, loaded, diskAt, limitAt, pos, step, p, k)
  {
    k := FirstAskedIn(sessions, loaded, diskAt, limitAt, pos, step, p, WalkFrom(sessions, loaded, diskAt, limitAt, pos, step));
  }

  lemma {:induction false} FirstAskedIn(sessions: seq<string>, loaded: Cache, diskAt: nat -> Disk, limitAt: nat -> int,
                                        pos: Pos, step: nat, p: string, walk: (seq<seq<Entry>>, Cache)) returns (k: nat)
    requires Reached(sessions, loaded, pos) && walk == WalkFrom(sessions, loaded, diskAt, limitAt, pos, step)
    requires p in walk.1 && p !in loaded
    ensures FirstAsked(sessions, loaded, diskAt, limitAt, pos, step, p, k)
    decreases |walk.0|, 1
  {
    if p in PageFrom(sessions, loaded, diskAt(step), pos, PageLimit(limitAt(step))).0 {
      AskedNow(sessions, loaded, diskAt, limitAt, pos, step, p);
      k := 0;
    } else {
      k := FirstAskedRest(sessions, loaded, diskAt, limitAt, pos, step, p, walk);
    }
  }

  /** The cache and the position after the page at pos. */
  function AfterPage(sessions: seq<string>, loaded: Cache, diskAt: nat -> Disk, limitAt: nat -> int, pos: Pos, step: nat): (Cache, Pos) {
    var page := PageFrom(sessions, loaded, diskAt(step), pos, PageLimit(limitAt(step)));
    (page.0, page.1)
  }

  lemma FirstAskedRest(sessions: seq<string>, loaded: Cache, diskAt: nat -> Disk, limitAt: nat -> int,
                       pos: Pos, step: nat, p: string, walk: (seq<seq<Entry>>, Cache)) returns (k: nat)
    requires Reached(sessions, loaded, pos) && walk == WalkFrom(sessions, loaded, diskAt, limitAt, pos, step)
    requires p in walk.1 && p !in AfterPage(sessions, loaded, diskAt, limitAt, pos, step).0 && p !in loaded
    ensures FirstAsked(sessions, loaded, diskAt, limitAt, pos, step, p, k)
    decreases |walk.0|, 0
  {
    WalkUnfolds(sessions, loaded, diskAt, limitAt, pos, step);
    var (loaded', pos') := AfterPage(sessions, loaded, diskAt, limitAt, pos, step);
    var j := FirstAskedIn(sessions, loaded', diskAt, limitAt, pos', step + 1, p, WalkFrom(sessions, loaded', diskAt, limitAt, pos', step + 1));
    AskedLater(sessions, loaded, diskAt, limitAt, pos, step, p, j);
    k := j + 1;
  }

  lemma {:induction false} TextIsDiskText(sessions: seq<string>, all: seq<string>, loaded: Cache, disk: Disk)
    requires sessions <= all && ReadUpTo(all, loaded, |sessions|)
    requires forall i :: 0 <= i < |sessions| ==> loaded[sessions[i]] == DiskEntries(disk, sessions[i])
    ensures TextOf(all, loaded, |sessions|) == DiskText(sessions, disk)
  {
    if sessions != [] {
      TextIsDiskText(sessions[..|sessions| - 1], all, loaded, disk);
    }
  }

  /** While the disk does not change, the pages of a fresh tape are the disk's own entries over the sessions in order. */
  lemma UnchangingDiskReadsWhole(sessions: seq<string>, diskAt: nat -> Disk, limitAt: nat -> int)
    requires forall k :: diskAt(k) == diskAt(0)
    ensures Join(WalkFrom(sessions, map[], diskAt, limitAt, Pos(0, 0), 0).0) == DiskText(sessions, diskAt(0))
  {
    PagesCoverTape(sessions, diskAt, limitAt);
    var final := WalkFrom(sessions, map[], diskAt, limitAt, Pos(0, 0), 0).1;
    forall i | 0 <= i < |sessions| ensures final[sessions[i]] == DiskEntries(diskAt(0), sessions[i]) {
      var k := PinnedWhenFirstAsked(sessions, map[], diskAt, limitAt, Pos(0, 0), 0, sessions[i]);
      assert diskAt(0 + k) == diskAt(0);
    }
    TextIsDiskText(sessions, sessions, final, diskAt(0));
  }

  /** The tape's own cursor resumes where the page before it stopped; any other starts at the newest entry. */
  lemma CursorResumes(nonce: string, cursor: Cursor)
    ensures cursor.nonce == nonce && cursor.session >= 0 && cursor.offset >= 0 ==>
      StartOf(nonce, Some(cursor)) == Pos(cursor.session, cursor.offset)
    ensures cursor.nonce != nonce ==> StartOf(nonce, Some(cursor)) == Pos(0, 0) == StartOf(nonce, None)
  {
  }

  /** What was collected so far and the walk from here make up the whole walk. */
  ghost predicate Continues(sessions: seq<string>, loaded: Cache, diskAt: nat -> Disk, limitAt: nat -> int, pos: Pos, step: nat,
                            out: seq<Entry>, walk: (seq<seq<Entry>>, Cache)) {
    && Reached(sessions, loaded, pos)
    && var (pages, final) := WalkFrom(sessions, loaded, diskAt, limitAt, pos, step);
       Join(walk.0) == out + Join(pages) && walk.1 == final
  }

  lemma JoinCons(out: seq<Entry>, page: seq<Entry>, rest: seq<seq<Entry>>)
    ensures out + Join([page] + rest) == (out + page) + Join(rest)
  {
    assert ([page] + rest)[1..] == rest;
  }

  lemma ContinuesOnePage(sessions: seq<string>, loaded: Cache, diskAt: nat -> Disk, limitAt: nat -> int, pos: Pos, step: nat,
                         out: seq<Entry>, walk: (seq<seq<Entry>>, Cache))
    requires Continues(sessions, loaded, diskAt, limitAt, pos, step, out, walk)
    ensures
      var (loaded', pos', page) := PageFrom(sessions, loaded, diskAt(step), pos, PageLimit(limitAt(step)));
      if pos'.session >= |sessions| then Join(walk.0) == out + page && walk.1 == loaded'
      else Continues(sessions, loaded', diskAt, limitAt, pos', step + 1, out + page, walk)
  {
    PageAdvances(sessions, loaded, diskAt(step), pos, PageLimit(limitAt(step)));
    var (loaded', pos', page) := PageFrom(sessions, loaded, diskAt(step), pos, PageLimit(limitAt(step)));
    if pos'.session >= |sessions| {
      JoinCons(out, page, []);
      assert [page] + [] == [page];
    } else {
      JoinCons(out, page, WalkFrom(sessions, loaded', diskAt, limitAt, pos', step + 1).0);
    }
  }
}

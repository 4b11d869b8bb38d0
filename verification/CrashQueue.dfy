/**
 The queue of crash reports waiting for the next launch (desktop/crash_pending.go:79-184, 235-305): writing and
 pruning the queue, the ledger of uploads, and the flush, as steps that can fail or stop anywhere.
 */
module CrashQueue {
  import opened Common

  type Path = string
  type LedgerKey = string
  type Stamp = string

  const MAX_PENDING := 10
  const CURRENT_SCHEMA := 3
  const MAX_LEDGER := 512

  /** What the flush reads from a report; basis stands for the fields the fingerprint is computed from. */
  datatype Report = Report(schema: int, version: string, hasEvent: bool, dedup: string, basis: string)

  /** A file on disk: the schema its header parses to, and the report it parses to in full. */
  datatype Body = Body(header: Option<int>, report: Option<Report>)

  datatype Ledger = Ledger(version: int, entries: Option<map<LedgerKey, Stamp>>)

  /** A flush between two files: its ledger in memory and the files still to come. */
  datatype Flush = Flush(ledger: map<LedgerKey, Stamp>, rest: seq<Path>)

  /** posted lists the reports the endpoint acknowledged, as they were sent. */
  datatype State = State(files: map<Path, Body>, ledger: Option<Ledger>, flush: Option<Flush>, posted: seq<Report>)

  const INITIAL := State(map[], None, None, [])

  // ---- Identity ----

  /** Stands for the hash of the fingerprint fields; never empty. */
  function Digest(basis: string): string { "#" + basis }

  function Identify(r: Report): Report {
    r.(hasEvent := true, dedup := if r.dedup == "" then Digest(r.basis) else r.dedup)
  }

  function KeyOf(r: Report): LedgerKey { r.version + ":" + Identify(r).dedup }

  lemma DigestSeparates(a: string, b: string)
    ensures Digest(a) == Digest(b) <==> a == b
    ensures Digest(a) != ""
  {
    if Digest(a) == Digest(b) {
      assert a == Digest(a)[1..] && b == Digest(b)[1..];
    }
  }

  /** Identifying fills in what is missing, changes nothing that is there, and is done once. */
  lemma IdentifyFillsIn(r: Report)
    ensures
      var i := Identify(r);
      && i.hasEvent && i.dedup != "" && i.schema == r.schema && i.version == r.version && i.basis == r.basis
      && (r.dedup != "" ==> i.dedup == r.dedup) && (r.dedup == "" ==> i.dedup == Digest(r.basis))
      && Identify(i) == i
  {
    DigestSeparates(r.basis, r.basis);
  }

  /** The same crash of the same version. */
  predicate SameCrash(q: Report, r: Report) { q.version == r.version && Identify(q).dedup == Identify(r).dedup }

  /** A separator in a key whose version has none lies behind the version. */
  lemma SeparatorIsBehindVersion(r: Report, n: nat)
    requires ':' !in r.version && n < |KeyOf(r)| && KeyOf(r)[n] == ':'
    ensures |r.version| <= n
  {
    assert forall i :: 0 <= i < |r.version| ==> KeyOf(r)[i] == r.version[i];
  }

  /** Keys tell crashes apart as long as no version contains the separator. */
  lemma KeysSeparate(q: Report, r: Report)
    requires ':' !in q.version && ':' !in r.version
    ensures KeyOf(q) == KeyOf(r) <==> SameCrash(q, r)
  {
    if KeyOf(q) == KeyOf(r) {
      var (k, m, n) := (KeyOf(q), |q.version|, |r.version|);
      assert k[m] == ':' && k[n] == ':';
      SeparatorIsBehindVersion(q, n);
      SeparatorIsBehindVersion(r, m);
      assert k[..m] == q.version && k[..n] == r.version;
      assert k[m + 1..] == Identify(q).dedup && k[n + 1..] == Identify(r).dedup;
    }
  }

  /** The endpoint acknowledged a report of this very crash. */
  predicate Acknowledged(posted: seq<Report>, r: Report) { exists i :: 0 <= i < |posted| && SameCrash(posted[i], r) }

  function PostedKeys(posted: seq<Report>): set<LedgerKey> { set i | 0 <= i < |posted| :: KeyOf(posted[i]) }

  lemma KnownIsAcknowledged(posted: seq<Report>, r: Report)
    requires ':' !in r.version && forall i :: 0 <= i < |posted| ==> ':' !in posted[i].version
    ensures KeyOf(r) in PostedKeys(posted) <==> Acknowledged(posted, r)
  {
    if KeyOf(r) in PostedKeys(posted) {
      var i :| 0 <= i < |posted| && KeyOf(posted[i]) == KeyOf(r);
      KeysSeparate(posted[i], r);
    }
    if Acknowledged(posted, r) {
      var i :| 0 <= i < |posted| && SameCrash(posted[i], r);
      assert KeyOf(posted[i]) == KeyOf(r);
    }
  }

  lemma PostedKeysGrow(posted: seq<Report>, r: Report)
    ensures PostedKeys(posted + [r]) == PostedKeys(posted) + {KeyOf(r)}
  {
    var all := posted + [r];
    assert all[|posted|] == r;
    forall i | 0 <= i < |posted| ensures KeyOf(posted[i]) in PostedKeys(all) {
      assert all[i] == posted[i];
    }
  }

  // ---- Pruning ----

  predicate Prunable(files: map<Path, Body>, p: Path, readable: Path -> bool) {
    p !in files || !readable(p) || files[p].header.None? || files[p].header.value <= CURRENT_SCHEMA
  }

  /** A file is spared exactly if it can be read and its header says a newer schema. */
  predicate Spared(files: map<Path, Body>, p: Path, readable: Path -> bool) {
    p in files && readable(p) && files[p].header.Some? && files[p].header.value > CURRENT_SCHEMA
  }

  lemma PrunableExactly(files: map<Path, Body>, p: Path, readable: Path -> bool)
    ensures Prunable(files, p, readable) <==> !Spared(files, p, readable)
  {
  }

  function Victim(files: map<Path, Body>, paths: seq<Path>, readable: Path -> bool): (i: nat)
    ensures i <= |paths|
    ensures forall j :: 0 <= j < i ==> !Prunable(files, paths[j], readable)
    ensures i < |paths| ==> Prunable(files, paths[i], readable)
  {
    if paths == [] then 0
    else if Prunable(files, paths[0], readable) then 0
    else 1 + Victim(files, paths[1..], readable)
  }

  /** Removes the first prunable file, over and over, until ten paths are left or none is prunable. */
  function Prune(files: map<Path, Body>, paths: seq<Path>, readable: Path -> bool, removable: Path -> bool): map<Path, Body>
    decreases |paths|
  {
    if |paths| <= MAX_PENDING then files
    else
      var i := Victim(files, paths, readable);
      if i == |paths| then files
      else Prune(if removable(paths[i]) then files - {paths[i]} else files, paths[..i] + paths[i + 1..], readable, removable)
  }

  ghost predicate NoDup(paths: seq<Path>) {
    forall i, j :: 0 <= i < j < |paths| ==> paths[i] != paths[j]
  }

  /** Pruning only removes listed files that it could remove, and none of a newer schema that it could read. */
  lemma {:induction false} PruneSparesNewer(files: map<Path, Body>, paths: seq<Path>, readable: Path -> bool, removable: Path -> bool)
    ensures
      var rest := Prune(files, paths, readable, removable);
      && rest.Keys <= files.Keys && (forall p :: p in rest ==> rest[p] == files[p])
      && (forall p :: p in files && p !in rest ==> p in paths && !Spared(files, p, readable) && removable(p))
    decreases |paths|
  {
    if |paths| > MAX_PENDING {
      var i := Victim(files, paths, readable);
      if i < |paths| {
        var next := if removable(paths[i]) then files - {paths[i]} else files;
        PruneSparesNewer(next, paths[..i] + paths[i + 1..], readable, removable);
      }
    }
  }

  /** A failed read costs the oldest listed report its place, whatever its schema. */
  lemma UnreadableOldestIsPruned(files: map<Path, Body>, paths: seq<Path>, readable: Path -> bool, removable: Path -> bool)
    requires |paths| > MAX_PENDING && !readable(paths[0]) && removable(paths[0])
    ensures paths[0] !in Prune(files, paths, readable, removable)
  {
    assert Prunable(files, paths[0], readable);
    assert Victim(files, paths, readable) == 0;
    PruneSparesNewer(files - {paths[0]}, paths[..0] + paths[1..], readable, removable);
  }

  // ---- Exactly what pruning removes ----

  /** How many of the paths are prunable. */
  function Rank(files: map<Path, Body>, paths: seq<Path>, readable: Path -> bool): nat {
    if paths == [] then 0
    else Rank(files, paths[..|paths| - 1], readable) + (if Prunable(files, paths[|paths| - 1], readable) then 1 else 0)
  }

  /** The path is among the first |paths| - 10 prunable ones, so the loop comes to it. */
  predicate Chosen(files: map<Path, Body>, paths: seq<Path>, readable: Path -> bool, j: nat)
    requires j < |paths|
  {
    Prunable(files, paths[j], readable) && Rank(files, paths[..j], readable) + MAX_PENDING < |paths|
  }

  function Cut(paths: seq<Path>, i: nat): seq<Path>
    requires i < |paths|
  {
    paths[..i] + paths[i + 1..]
  }

  function CutIndex(i: nat, j: nat): nat
    requires i != j
  {
    if j < i then j else j - 1
  }

  lemma CutAt(paths: seq<Path>, i: nat)
    requires NoDup(paths) && i < |paths|
    ensures |Cut(paths, i)| == |paths| - 1 && NoDup(Cut(paths, i)) && paths[i] !in Cut(paths, i)
    ensures forall j :: 0 <= j < |paths| && j != i ==> Cut(paths, i)[CutIndex(i, j)] == paths[j]
    ensures forall p :: p in paths && p != paths[i] <==> p in Cut(paths, i)
  {
    var shorter := Cut(paths, i);
    forall p | p in paths && p != paths[i] ensures p in shorter {
      var k :| 0 <= k < |paths| && paths[k] == p;
      assert p == shorter[CutIndex(i, k)];
    }
  }

  lemma {:induction false} RankOfNone(files: map<Path, Body>, paths: seq<Path>, readable: Path -> bool)
    requires forall k :: 0 <= k < |paths| ==> !Prunable(files, paths[k], readable)
    ensures Rank(files, paths, readable) == 0
  {
    if paths != [] {
      RankOfNone(files, paths[..|paths| - 1], readable);
    }
  }

  /** The files after a round: the victim is gone if it could be removed. */
  ghost predicate RoundLeaves(files: map<Path, Body>, next: map<Path, Body>, p: Path) { next == files || next == files - {p} }

  lemma RankSnoc(files: map<Path, Body>, paths: seq<Path>, readable: Path -> bool, j: nat)
    requires 0 < j <= |paths|
    ensures Rank(files, paths[..j], readable) ==
      Rank(files, paths[..j - 1], readable) + (if Prunable(files, paths[j - 1], readable) then 1 else 0)
  {
    assert paths[..j][..j - 1] == paths[..j - 1];
  }

  /** shorter is paths without its entry i. */
  ghost predicate IsCut(paths: seq<Path>, i: nat, shorter: seq<Path>) {
    && i < |paths| && |shorter| == |paths| - 1
    && (forall k :: 0 <= k < i ==> shorter[k] == paths[k]) && (forall k :: i < k < |paths| ==> shorter[k - 1] == paths[k])
  }

  /** Before the victim nothing counts, neither in this round nor in the next. */
  lemma RankBeforeVictim(files: map<Path, Body>, next: map<Path, Body>, paths: seq<Path>, readable: Path -> bool, i: nat, shorter: seq<Path>)
    requires NoDup(paths) && IsCut(paths, i, shorter) && i == Victim(files, paths, readable) && RoundLeaves(files, next, paths[i])
    ensures Rank(files, paths[..i], readable) == 0 == Rank(next, shorter[..i], readable)
  {
    assert shorter[..i] == paths[..i];
    RankOfNone(files, paths[..i], readable);
    RankOfNone(next, paths[..i], readable);
  }

  /** Cutting the first prunable path lowers the rank of every later prefix by one. */
  lemma {:induction false} RankCut(files: map<Path, Body>, next: map<Path, Body>, paths: seq<Path>, readable: Path -> bool,
                                   i: nat, j: nat, shorter: seq<Path>)
    requires NoDup(paths) && i < j <= |paths| && i == Victim(files, paths, readable) && RoundLeaves(files, next, paths[i])
    requires IsCut(paths, i, shorter)
    ensures Rank(files, paths[..j], readable) == Rank(next, shorter[..j - 1], readable) + 1
    decreases j
  {
    RankSnoc(files, paths, readable, j);
    if j == i + 1 {
      RankBeforeVictim(files, next, paths, readable, i, shorter);
    } else {
      RankCut(files, next, paths, readable, i, j - 1, shorter);
      RankSnoc(next, shorter, readable, j - 1);
      assert shorter[j - 2] == paths[j - 1] && paths[j - 1] != paths[i];
    }
  }

  /** One round: the victim is chosen, and the choice among the others is the one the next round makes. */
  lemma ChosenCut(files: map<Path, Body>, next: map<Path, Body>, paths: seq<Path>, readable: Path -> bool, i: nat, j: nat)
    requires NoDup(paths) && i < |paths| && j < |paths| && |paths| > MAX_PENDING
    requires i == Victim(files, paths, readable) && RoundLeaves(files, next, paths[i])
    ensures |Cut(paths, i)| == |paths| - 1
    ensures if j == i then Chosen(files, paths, readable, j)
      else Chosen(files, paths, readable, j) <==> Chosen(next, Cut(paths, i), readable, CutIndex(i, j))
  {
    CutAt(paths, i);
    if j > i {
      RankCut(files, next, paths, readable, i, j, Cut(paths, i));
    } else {
      RankOfNone(files, paths[..j], readable);
      assert j < i ==> Cut(paths, i)[CutIndex(i, j)] == paths[j];
    }
  }

  /**
   A waiting file goes exactly when the loop comes to it and can remove it: it is prunable, its removal works,
   and fewer than |paths| - 10 prunable files come before it.
   */
  lemma {:induction false} PruneRemovesExactly(files: map<Path, Body>, paths: seq<Path>, readable: Path -> bool, removable: Path -> bool, j: nat)
    requires NoDup(paths) && j < |paths| && paths[j] in files
    ensures paths[j] !in Prune(files, paths, readable, removable) <==> Chosen(files, paths, readable, j) && removable(paths[j])
    decreases |paths|
  {
    if |paths| > MAX_PENDING {
      var i := Victim(files, paths, readable);
      if i < |paths| {
        var next := if removable(paths[i]) then files - {paths[i]} else files;
        CutAt(paths, i);
        ChosenCut(files, next, paths, readable, i, j);
        if j == i {
          PruneSparesNewer(next, Cut(paths, i), readable, removable);
        } else {
          assert Cut(paths, i)[CutIndex(i, j)] == paths[j];
          PruneRemovesExactly(next, Cut(paths, i), readable, removable, CutIndex(i, j));
        }
      }
    }
  }

  /** A report of a newer schema goes exactly when it cannot be read, can be removed, and is early enough. */
  lemma NewerIsPrunedExactly(files: map<Path, Body>, paths: seq<Path>, readable: Path -> bool, removable: Path -> bool, j: nat)
    requires NoDup(paths) && j < |paths| && paths[j] in files
    requires files[paths[j]].header.Some? && files[paths[j]].header.value > CURRENT_SCHEMA
    ensures paths[j] !in Prune(files, paths, readable, removable) <==>
      !readable(paths[j]) && removable(paths[j]) && Rank(files, paths[..j], readable) + MAX_PENDING < |paths|
  {
    PruneRemovesExactly(files, paths, readable, removable, j);
  }

  /** The listing of files that all exist. */
  ghost predicate Listed(files: map<Path, Body>, paths: seq<Path>) { NoDup(paths) && forall p :: p in paths ==> p in files }

  function Left(files: map<Path, Body>, paths: seq<Path>): set<Path> { set p | p in paths && p in files }

  /** The queue is short enough, or nothing left in it could be pruned. */
  ghost predicate Settled(files: map<Path, Body>, paths: seq<Path>, readable: Path -> bool) {
    |Left(files, paths)| <= MAX_PENDING || forall p :: p in paths && p in files ==> !Prunable(files, p, readable)
  }

  lemma RoundKeepsListed(files: map<Path, Body>, paths: seq<Path>, readable: Path -> bool, removable: Path -> bool)
    requires Listed(files, paths) && |paths| > MAX_PENDING && Victim(files, paths, readable) < |paths|
    ensures
      var i := Victim(files, paths, readable);
      var next := if removable(paths[i]) then files - {paths[i]} else files;
      var rest := Prune(files, paths, readable, removable);
      && Listed(next, Cut(paths, i)) && rest == Prune(next, Cut(paths, i), readable, removable)
      && Left(rest, paths) == Left(rest, Cut(paths, i)) + (if removable(paths[i]) then {} else {paths[i]})
      && paths[i] !in Left(rest, Cut(paths, i))
  {
    var i := Victim(files, paths, readable);
    CutAt(paths, i);
    PruneRemovesExactly(files, paths, readable, removable, i);
    ChosenCut(files, files, paths, readable, i, i);
  }

  /** Pruning never goes below ten listed files. */
  lemma {:induction false} PruneLeavesTen(files: map<Path, Body>, paths: seq<Path>, readable: Path -> bool, removable: Path -> bool)
    requires Listed(files, paths) && |paths| >= MAX_PENDING
    ensures |Left(Prune(files, paths, readable, removable), paths)| >= MAX_PENDING
    decreases |paths|
  {
    var i := Victim(files, paths, readable);
    if |paths| > MAX_PENDING && i < |paths| {
      CutAt(paths, i);
      RoundKeepsListed(files, paths, readable, removable);
      PruneLeavesTen(if removable(paths[i]) then files - {paths[i]} else files, Cut(paths, i), readable, removable);
    } else {
      AtLeast(paths, Left(files, paths));
    }
  }

  /** Every removal the loop attempts succeeds. */
  ghost predicate NoRemovalFails(files: map<Path, Body>, paths: seq<Path>, readable: Path -> bool, removable: Path -> bool) {
    forall j :: 0 <= j < |paths| && Chosen(files, paths, readable, j) ==> removable(paths[j])
  }

  /** At most ten files are left, or none that could be pruned, exactly when no removal of a chosen file fails. */
  lemma {:induction false} PruneSettlesExactly(files: map<Path, Body>, paths: seq<Path>, readable: Path -> bool, removable: Path -> bool)
    requires Listed(files, paths)
    ensures Settled(Prune(files, paths, readable, removable), paths, readable) <==> NoRemovalFails(files, paths, readable, removable)
    decreases |paths|
  {
    var i := Victim(files, paths, readable);
    if |paths| <= MAX_PENDING {
      AtMost(paths, Left(files, paths));
    } else if i < |paths| {
      CutAt(paths, i);
      RoundKeepsListed(files, paths, readable, removable);
      if removable(paths[i]) {
        PruneSettlesExactly(files - {paths[i]}, Cut(paths, i), readable, removable);
        SettledCut(files, paths, readable, removable);
        NoRemovalFailsCut(files, paths, readable, removable);
      } else {
        FailedRemovalUnsettles(files, paths, readable, removable);
      }
    }
  }

  lemma SettledCut(files: map<Path, Body>, paths: seq<Path>, readable: Path -> bool, removable: Path -> bool)
    requires Listed(files, paths) && |paths| > MAX_PENDING && Victim(files, paths, readable) < |paths|
    requires removable(paths[Victim(files, paths, readable)])
    ensures
      var rest := Prune(files, paths, readable, removable);
      Settled(rest, paths, readable) <==> Settled(rest, Cut(paths, Victim(files, paths, readable)), readable)
  {
    var i := Victim(files, paths, readable);
    CutAt(paths, i);
    RoundKeepsListed(files, paths, readable, removable);
    var rest := Prune(files, paths, readable, removable);
    assert Left(rest, paths) == Left(rest, Cut(paths, i));
    assert paths[i] !in Left(rest, paths);
  }

  lemma NoRemovalFailsCut(files: map<Path, Body>, paths: seq<Path>, readable: Path -> bool, removable: Path -> bool)
    requires NoDup(paths) && |paths| > MAX_PENDING && Victim(files, paths, readable) < |paths|
    requires removable(paths[Victim(files, paths, readable)])
    ensures
      var i := Victim(files, paths, readable);
      NoRemovalFails(files, paths, readable, removable) <==> NoRemovalFails(files - {paths[i]}, Cut(paths, i), readable, removable)
  {
    var i := Victim(files, paths, readable);
    var next := files - {paths[i]};
    CutAt(paths, i);
    if NoRemovalFails(files, paths, readable, removable) {
      forall k | 0 <= k < |Cut(paths, i)| && Chosen(next, Cut(paths, i), readable, k) ensures removable(Cut(paths, i)[k]) {
        var j := if k < i then k else k + 1;
        ChosenCut(files, next, paths, readable, i, j);
        assert CutIndex(i, j) == k;
      }
    }
    if NoRemovalFails(next, Cut(paths, i), readable, removable) {
      forall j | 0 <= j < |paths| && Chosen(files, paths, readable, j) ensures removable(paths[j]) {
        ChosenCut(files, next, paths, readable, i, j);
        assert j != i ==> Cut(paths, i)[CutIndex(i, j)] == paths[j];
      }
    }
  }

  lemma FailedRemovalUnsettles(files: map<Path, Body>, paths: seq<Path>, readable: Path -> bool, removable: Path -> bool)
    requires Listed(files, paths) && |paths| > MAX_PENDING && Victim(files, paths, readable) < |paths|
    requires !removable(paths[Victim(files, paths, readable)])
    ensures !Settled(Prune(files, paths, readable, removable), paths, readable)
    ensures !NoRemovalFails(files, paths, readable, removable)
  {
    var i := Victim(files, paths, readable);
    var rest := Prune(files, paths, readable, removable);
    CutAt(paths, i);
    RoundKeepsListed(files, paths, readable, removable);
    PruneLeavesTen(files, Cut(paths, i), readable, removable);
    PruneSparesNewer(files, paths, readable, removable);
    ChosenCut(files, files, paths, readable, i, i);
    assert Left(rest, paths) == Left(rest, Cut(paths, i)) + {paths[i]};
    assert paths[i] in rest && Prunable(rest, paths[i], readable);
  }

  /** When every removal succeeds, at most ten listed files are left, or no listed file that is left is prunable. */
  lemma PruneBounds(files: map<Path, Body>, paths: seq<Path>, readable: Path -> bool, removable: Path -> bool)
    requires Listed(files, paths) && forall p :: p in paths ==> removable(p)
    ensures Settled(Prune(files, paths, readable, removable), paths, readable)
  {
    PruneSettlesExactly(files, paths, readable, removable);
  }

  lemma {:induction false} RankGrows(files: map<Path, Body>, paths: seq<Path>, readable: Path -> bool, a: nat, b: nat)
    requires a <= b <= |paths|
    ensures Rank(files, paths[..a], readable) <= Rank(files, paths[..b], readable)
  {
    if a < b {
      RankGrows(files, paths, readable, a, b - 1);
      assert paths[..b][..b - 1] == paths[..b - 1];
    }
  }

  /** What is removed came before every prunable file that stays, unless that file could not be removed. */
  lemma PruneTakesOldest(files: map<Path, Body>, paths: seq<Path>, readable: Path -> bool, removable: Path -> bool, a: nat, b: nat)
    requires Listed(files, paths) && a < |paths| && b < |paths|
    requires paths[a] !in Prune(files, paths, readable, removable)
    requires paths[b] in Prune(files, paths, readable, removable) && Prunable(files, paths[b], readable)
    ensures a < b || !removable(paths[b])
  {
    PruneRemovesExactly(files, paths, readable, removable, a);
    PruneRemovesExactly(files, paths, readable, removable, b);
    if b <= a {
      RankGrows(files, paths, readable, b, a);
    }
  }

  lemma {:induction false} AtLeast(paths: seq<Path>, all: set<Path>)
    requires NoDup(paths) && forall p :: p in paths ==> p in all
    ensures |all| >= |paths|
  {
    if paths != [] {
      AtLeast(paths[1..], all - {paths[0]});
    }
  }

  /** Removals that fail are not repeated: the list shrinks, the queue does not. */
  lemma {:induction false} FailedRemovalsKeepAll(files: map<Path, Body>, paths: seq<Path>, readable: Path -> bool, removable: Path -> bool)
    requires forall p :: p in paths ==> !removable(p)
    ensures Prune(files, paths, readable, removable) == files
    decreases |paths|
  {
    if |paths| > MAX_PENDING && Victim(files, paths, readable) < |paths| {
      var i := Victim(files, paths, readable);
      FailedRemovalsKeepAll(files, paths[..i] + paths[i + 1..], readable, removable);
    }
  }

  lemma {:induction false} AtMost(paths: seq<Path>, some: set<Path>)
    requires forall p :: p in some ==> p in paths
    ensures |some| <= |paths|
  {
    if paths != [] {
      AtMost(paths[1..], some - {paths[0]});
    }
  }

  // ---- Writing ----

  /** How writing one report turns out; paths is the sorted listing the pruning sees afterwards. */
  datatype WriteFaults = WriteFaults(identified: bool, written: bool, cleaned: bool, paths: seq<Path>,
                                     readable: Path -> bool, removable: Path -> bool)

  /** An exclusive create, so an existing file is never overwritten; a partial write is removed again if it can be. */
  function Write(s: State, p: Path, r: Report, w: WriteFaults): (State, bool) {
    if !w.identified || p in s.files then (s, false)
    else if !w.written then
      (if w.cleaned then s else s.(files := s.files[p := Body(None, None)]), false)
    else
      var files := Prune(s.files[p := Body(Some(r.schema), Some(Identify(r)))], w.paths, w.readable, w.removable);
      (s.(files := files), p in files)
  }

  /** A write to a fresh name reports success exactly when the report waits in the queue under its own identity. */
  lemma WriteReportsPresence(s: State, p: Path, r: Report, w: WriteFaults)
    ensures
      var (s', ok) := Write(s, p, r, w);
      && (ok ==> p !in s.files && p in s'.files && s'.files[p] == Body(Some(r.schema), Some(Identify(r))))
      && (!ok && p !in s.files && w.cleaned ==> p !in s'.files)
      && (p !in s.files && w.identified && w.written ==> (ok <==> p in s'.files))
      && (p in s.files ==> !ok && s'.files == s.files)
      && s'.ledger == s.ledger && s'.posted == s.posted
  {
    PruneSparesNewer(s.files[p := Body(Some(r.schema), Some(Identify(r)))], w.paths, w.readable, w.removable);
  }

  /** A written report is pruned by its own write exactly when the loop comes to it and can remove it. */
  lemma WrittenReportIsPrunedExactly(s: State, p: Path, r: Report, w: WriteFaults, j: nat)
    requires p !in s.files && w.identified && w.written && NoDup(w.paths) && j < |w.paths| && w.paths[j] == p
    ensures !Write(s, p, r, w).1 <==>
      Chosen(s.files[p := Body(Some(r.schema), Some(Identify(r)))], w.paths, w.readable, j) && w.removable(p)
  {
    PruneRemovesExactly(s.files[p := Body(Some(r.schema), Some(Identify(r)))], w.paths, w.readable, w.removable, j);
  }

  // ---- The ledger ----

  /** Compares stamps as strings, character by character. */
  predicate StampLe(a: Stamp, b: Stamp) {
    a == [] || (b != [] && (a[0] < b[0] || (a[0] == b[0] && StampLe(a[1..], b[1..]))))
  }

  /** The stamps agree up to n, where the first ends or has the smaller character. */
  predicate SmallerAt(a: Stamp, b: Stamp, n: nat) {
    n <= |a| && n <= |b| && (forall i :: 0 <= i < n ==> a[i] == b[i]) && (n == |a| || (n < |b| && a[n] < b[n]))
  }

  lemma {:induction false} StampLeHasPlace(a: Stamp, b: Stamp) returns (n: nat)
    requires StampLe(a, b)
    ensures SmallerAt(a, b, n)
  {
    n := 0;
    if a != [] && a[0] == b[0] {
      var m := StampLeHasPlace(a[1..], b[1..]);
      n := m + 1;
    }
  }

  lemma {:induction false} PlaceMeansStampLe(a: Stamp, b: Stamp, n: nat)
    requires SmallerAt(a, b, n)
    ensures StampLe(a, b)
    decreases n
  {
    if n > 0 {
      assert a[0] == b[0];
      PlaceMeansStampLe(a[1..], b[1..], n - 1);
    }
  }

  /** Stamps are compared as strings are: by the first difference, and a prefix first. */
  lemma StampLeIsLexicographic(a: Stamp, b: Stamp)
    ensures StampLe(a, b) <==> exists n: nat :: SmallerAt(a, b, n)
  {
    if StampLe(a, b) {
      var n := StampLeHasPlace(a, b);
    }
    forall n: nat | SmallerAt(a, b, n) ensures StampLe(a, b) {
      PlaceMeansStampLe(a, b, n);
    }
  }

  lemma {:induction false} StampLeTotal(a: Stamp, b: Stamp)
    ensures StampLe(a, b) || StampLe(b, a)
  {
    if a != [] && b != [] && a[0] == b[0] {
      StampLeTotal(a[1..], b[1..]);
    }
  }

  lemma {:induction false} StampLeTransitive(a: Stamp, b: Stamp, c: Stamp)
    requires StampLe(a, b) && StampLe(b, c)
    ensures StampLe(a, c)
  {
    if a != [] && b[0] == a[0] && c[0] == b[0] {
      StampLeTransitive(a[1..], b[1..], c[1..]);
    }
  }

  datatype Row = Row(key: LedgerKey, at: Stamp)

  function Insert(row: Row, rows: seq<Row>): seq<Row> {
    if rows == [] then [row]
    else if StampLe(rows[0].at, row.at) then [row] + rows
    else [rows[0]] + Insert(row, rows[1..])
  }

  function Sort(rows: seq<Row>): seq<Row> {
    if rows == [] then [] else Insert(rows[0], Sort(rows[1..]))
  }

  ghost predicate Descending(rows: seq<Row>) {
    forall i, j :: 0 <= i < j < |rows| ==> StampLe(rows[j].at, rows[i].at)
  }

  lemma {:induction false} InsertSorts(row: Row, rows: seq<Row>)
    requires Descending(rows)
    ensures Descending(Insert(row, rows)) && multiset(Insert(row, rows)) == multiset(rows) + multiset{row}
    ensures |Insert(row, rows)| == |rows| + 1
  {
    if rows == [] {
    } else if StampLe(rows[0].at, row.at) {
      forall j | 0 <= j < |rows| ensures StampLe(rows[j].at, row.at) {
        if j > 0 {
          StampLeTransitive(rows[j].at, rows[0].at, row.at);
        }
      }
    } else {
      var tail := Insert(row, rows[1..]);
      InsertSorts(row, rows[1..]);
      StampLeTotal(rows[0].at, row.at);
      assert rows == [rows[0]] + rows[1..];
      forall j | 0 <= j < |tail| ensures StampLe(tail[j].at, rows[0].at) {
        assert tail[j] in multiset(tail);
        assert tail[j] == row || tail[j] in rows[1..];
      }
    }
  }

  lemma {:induction false} SortSorts(rows: seq<Row>)
    ensures Descending(Sort(rows)) && multiset(Sort(rows)) == multiset(rows) && |Sort(rows)| == |rows|
  {
    if rows != [] {
      SortSorts(rows[1..]);
      InsertSorts(rows[0], Sort(rows[1..]));
      assert rows == [rows[0]] + rows[1..];
    }
  }

  /** The rows of a ledger in the order iterating over it happened to give. */
  ghost predicate Enumerates(rows: seq<Row>, entries: map<LedgerKey, Stamp>) {
    && (forall i, j :: 0 <= i < j < |rows| ==> rows[i].key != rows[j].key)
    && (forall i :: 0 <= i < |rows| ==> rows[i].key in entries && entries[rows[i].key] == rows[i].at)
    && (forall k :: k in entries ==> Row(k, entries[k]) in rows)
  }

  function Keys(rows: seq<Row>): set<LedgerKey> { set row | row in rows :: row.key }

  /** Drops the rows beyond the first 512 in descending order of their stamps. */
  function Trim(entries: map<LedgerKey, Stamp>, rows: seq<Row>): map<LedgerKey, Stamp> {
    if |entries| <= MAX_LEDGER || |rows| <= MAX_LEDGER then entries
    else
      var sorted := Sort(rows);
      SortSorts(rows);
      var drop := Keys(sorted[MAX_LEDGER..]);
      entries - drop
  }

  /** Splitting an enumeration splits the entries. */
  lemma SplitEnumeration(entries: map<LedgerKey, Stamp>, sorted: seq<Row>, n: nat)
    requires Enumerates(sorted, entries) && n <= |sorted|
    ensures
      var drop := Keys(sorted[n..]);
      && (entries - drop).Keys == Keys(sorted[..n])
      && forall k :: k in entries && k in drop ==> Row(k, entries[k]) in sorted[n..]
  {
    var drop := Keys(sorted[n..]);
    var keep := Keys(sorted[..n]);
    forall k ensures k in entries && k !in drop <==> k in keep {
      if k in entries {
        var i :| 0 <= i < |sorted| && sorted[i] == Row(k, entries[k]);
        if i < n {
          assert sorted[..n][i] in sorted[..n];
        } else {
          assert sorted[n..][i - n] in sorted[n..];
        }
      }
    }
  }

  /** A part of the entries: all of them up to 512, else the 512 whose stamps are the largest strings. */
  ghost predicate KeepsLatest(entries: map<LedgerKey, Stamp>, kept: map<LedgerKey, Stamp>) {
    && kept.Keys <= entries.Keys && (forall k :: k in kept ==> kept[k] == entries[k])
    && |kept| == (if |entries| <= MAX_LEDGER then |entries| else MAX_LEDGER)
    && (forall k, d :: k in kept && d in entries && d !in kept ==> StampLe(entries[d], entries[k]))
  }

  /** Whatever order the rows come in, trimming keeps exactly the 512 entries latest by stamp. */
  lemma TrimKeepsLatest(entries: map<LedgerKey, Stamp>, rows: seq<Row>)
    requires Enumerates(rows, entries)
    ensures KeepsLatest(entries, Trim(entries, rows))
  {
    RowsCount(rows, entries);
    if |entries| > MAX_LEDGER {
      SortSorts(rows);
      SortedEnumerates(rows, Sort(rows), entries);
      SplitKeepsLatest(entries, Sort(rows));
    }
  }

  lemma SplitKeepsLatest(entries: map<LedgerKey, Stamp>, sorted: seq<Row>)
    requires Enumerates(sorted, entries) && Descending(sorted) && |sorted| > MAX_LEDGER
    ensures
      var kept := entries - Keys(sorted[MAX_LEDGER..]);
      && |kept| == MAX_LEDGER
      && (forall k, d :: k in kept && d in entries && d !in kept ==> StampLe(entries[d], entries[k]))
  {
    var kept := entries - Keys(sorted[MAX_LEDGER..]);
    SplitCount(entries, sorted);
    forall k, d | k in kept && d in entries && d !in kept ensures StampLe(entries[d], entries[k]) {
      SplitEnumeration(entries, sorted, MAX_LEDGER);
      assert k in kept.Keys;
      HeadBeatsTail(entries, sorted, k, d);
    }
  }

  lemma SplitCount(entries: map<LedgerKey, Stamp>, sorted: seq<Row>)
    requires Enumerates(sorted, entries) && |sorted| > MAX_LEDGER
    ensures |entries - Keys(sorted[MAX_LEDGER..])| == MAX_LEDGER
  {
    SplitEnumeration(entries, sorted, MAX_LEDGER);
    var kept := entries - Keys(sorted[MAX_LEDGER..]);
    KeysCount(sorted[..MAX_LEDGER], kept.Keys);
    assert |kept| == |kept.Keys|;
  }

  lemma HeadBeatsTail(entries: map<LedgerKey, Stamp>, sorted: seq<Row>, k: LedgerKey, d: LedgerKey)
    requires Enumerates(sorted, entries) && Descending(sorted) && |sorted| > MAX_LEDGER
    requires k in Keys(sorted[..MAX_LEDGER])
    requires d in entries && Row(d, entries[d]) in sorted[MAX_LEDGER..]
    ensures k in entries && StampLe(entries[d], entries[k])
  {
    var i :| 0 <= i < MAX_LEDGER && sorted[..MAX_LEDGER][i].key == k;
    var j :| 0 <= j < |sorted| - MAX_LEDGER && sorted[MAX_LEDGER..][j] == Row(d, entries[d]);
    assert sorted[i].key == k && sorted[MAX_LEDGER + j].key == d;
  }

  lemma SortedEnumerates(rows: seq<Row>, sorted: seq<Row>, entries: map<LedgerKey, Stamp>)
    requires Enumerates(rows, entries) && multiset(sorted) == multiset(rows)
    ensures Enumerates(sorted, entries)
  {
    forall row ensures row in sorted <==> row in rows {
      assert row in multiset(sorted) <==> row in multiset(rows);
    }
    forall i | 0 <= i < |sorted| ensures sorted[i].key in entries && entries[sorted[i].key] == sorted[i].at {
      assert sorted[i] in rows;
    }
    forall i, j | 0 <= i < j < |sorted| ensures sorted[i].key != sorted[j].key {
      if sorted[i].key == sorted[j].key {
        assert sorted[i] == sorted[j];
        Twice(sorted, i, j);
        Once(rows, sorted[i]);
      }
    }
  }

  lemma Twice(rows: seq<Row>, i: nat, j: nat)
    requires i < j < |rows| && rows[i] == rows[j]
    ensures multiset(rows)[rows[i]] >= 2
  {
    assert rows == rows[..j] + rows[j..];
    assert rows[..j][i] == rows[i] && rows[j..][0] == rows[i];
  }

  lemma {:induction false} Once(rows: seq<Row>, row: Row)
    requires forall i, j :: 0 <= i < j < |rows| ==> rows[i].key != rows[j].key
    ensures multiset(rows)[row] <= 1
  {
    if rows != [] {
      assert rows == [rows[0]] + rows[1..];
      Once(rows[1..], row);
      if row == rows[0] {
        assert row !in rows[1..];
      }
    }
  }

  lemma {:induction false} KeysCount(rows: seq<Row>, keys: set<LedgerKey>)
    requires forall i, j :: 0 <= i < j < |rows| ==> rows[i].key != rows[j].key
    requires keys == Keys(rows)
    ensures |keys| == |rows|
  {
    if rows != [] {
      var rest := Keys(rows[1..]);
      assert rows == [rows[0]] + rows[1..];
      KeysCount(rows[1..], rest);
      assert keys == rest + {rows[0].key};
      assert rows[0].key !in rest;
    }
  }

  lemma RowsCount(rows: seq<Row>, entries: map<LedgerKey, Stamp>)
    requires Enumerates(rows, entries)
    ensures |rows| == |entries|
  {
    var keys := Keys(rows);
    KeysCount(rows, keys);
    assert keys == entries.Keys;
  }

  /** Entries whose stamp does not parse or is past the retention are dropped; an unusable file is an empty ledger. */
  function Load(file: Option<Ledger>, current: Stamp -> bool): map<LedgerKey, Stamp> {
    if file.None? || file.value.version != 1 || file.value.entries.None? then map[]
    else map k | k in file.value.entries.value && current(file.value.entries.value[k]) :: file.value.entries.value[k]
  }

  // ---- The flush ----

  /** What a launch finds before the first report: paths lists the files waiting, current the stamps still retained. */
  datatype Boot = Boot(released: bool, paths: seq<Path>, config: bool, telemetry: bool, client: bool, directory: bool, lock: bool,
                       current: Stamp -> bool, removable: Path -> bool)

  /** How the parts of handling one file turn out; rows is the order in which the ledger was iterated. */
  datatype Faults = Faults(readable: bool, identified: bool, rewritten: bool, accepted: bool, saved: bool, removed: bool,
                           now: Stamp, rows: seq<Row>)

  predicate OptedOut(b: Boot) { b.released && b.paths != [] && b.config && !b.telemetry }

  function Begin(s: State, b: Boot): State {
    if s.flush.Some? || !b.released || b.paths == [] || !b.config then s
    else if !b.telemetry then s.(files := map p | p in s.files && !b.removable(p) :: s.files[p], ledger := None)
    else if !b.client || !b.directory || !b.lock then s
    else s.(flush := Some(Flush(Load(s.ledger, b.current), b.paths)))
  }

  function Stop(s: State): State { s.(flush := None) }

  function Removed(files: map<Path, Body>, p: Path, removed: bool): map<Path, Body> { if removed then files - {p} else files }

  /** The next file of the flush in progress, handled from reading it to removing it. */
  function Next(s: State, f: Faults): State
    requires s.flush.Some?
  {
    var Flush(ledger, rest) := s.flush.value;
    if rest == [] then Stop(s)
    else
      var p := rest[0];
      var go := s.(flush := Some(Flush(ledger, rest[1..])));
      if p !in s.files || !f.readable then go
      else if s.files[p].report.None? then go.(files := Removed(s.files, p, f.removed))
      else if s.files[p].report.value.schema > CURRENT_SCHEMA then go
      else if !f.identified then Stop(s)
      else Send(s, p, s.files[p].report.value, f)
  }

  /** The part of Next from the identified report on. */
  function Send(s: State, p: Path, r: Report, f: Faults): State
    requires s.flush.Some? && s.flush.value.rest != []
  {
    var Flush(ledger, rest) := s.flush.value;
    var changed := !r.hasEvent || r.dedup == "";
    if changed && !f.rewritten then Stop(s)
    else
      var files := if changed then s.files[p := Body(Some(r.schema), Some(Identify(r)))] else s.files;
      if KeyOf(r) in ledger then s.(files := Removed(files, p, f.removed), flush := Some(Flush(ledger, rest[1..])))
      else if !f.accepted then Stop(s.(files := files))
      else
        var noted := Trim(ledger[KeyOf(r) := f.now], f.rows);
        var sent := s.(files := files, posted := s.posted + [Identify(r)]);
        if !f.saved then Stop(sent)
        else sent.(files := Removed(files, p, f.removed), ledger := Some(Ledger(1, Some(noted))), flush := Some(Flush(noted, rest[1..])))
  }

  /** Every entry of the ledger, on disk and in memory, stands for an acknowledged upload. */
  ghost predicate Inv(s: State) {
    && (s.ledger.Some? && s.ledger.value.entries.Some? ==> s.ledger.value.entries.value.Keys <= PostedKeys(s.posted))
    && (s.flush.Some? ==> s.flush.value.ledger.Keys <= PostedKeys(s.posted))
  }

  /** A file is gone only if it is no report at all or a current-schema report whose key has been uploaded. */
  ghost predicate LosesOnlyKnown(s: State, s': State) {
    forall p :: p in s.files && p !in s'.files ==>
      s.files[p].report.None?
      || (s.files[p].report.value.schema <= CURRENT_SCHEMA && KeyOf(s.files[p].report.value) in PostedKeys(s'.posted))
  }

  /** A file is gone only if it is no report at all or a current-schema report of a crash that has been uploaded. */
  ghost predicate LosesOnlyPosted(s: State, s': State) {
    forall p :: p in s.files && p !in s'.files ==>
      s.files[p].report.None?
      || (s.files[p].report.value.schema <= CURRENT_SCHEMA && Acknowledged(s'.posted, s.files[p].report.value))
  }

  /** No version in the queue or among the uploads contains the separator of the ledger keys. */
  ghost predicate PlainVersions(s: State) {
    && (forall p :: p in s.files && s.files[p].report.Some? ==> ':' !in s.files[p].report.value.version)
    && (forall i :: 0 <= i < |s.posted| ==> ':' !in s.posted[i].version)
  }

  lemma KnownLossesArePosted(s: State, s': State)
    requires PlainVersions(s) && PlainVersions(s') && LosesOnlyKnown(s, s')
    ensures LosesOnlyPosted(s, s')
  {
    forall p | p in s.files && p !in s'.files && s.files[p].report.Some? ensures Acknowledged(s'.posted, s.files[p].report.value) {
      KnownIsAcknowledged(s'.posted, s.files[p].report.value);
    }
  }

  /** What a flush keeps is the same report: filling in an identity changes neither schema nor ledger key. */
  ghost predicate KeepsReports(s: State, s': State) {
    forall p :: p in s'.files ==>
      && p in s.files
      && (s'.files[p] == s.files[p]
          || (&& s.files[p].report.Some? && s'.files[p].report == Some(Identify(s.files[p].report.value))
              && KeyOf(s'.files[p].report.value) == KeyOf(s.files[p].report.value)))
  }

  lemma TrimShrinks(entries: map<LedgerKey, Stamp>, rows: seq<Row>)
    ensures Trim(entries, rows).Keys <= entries.Keys
  {
  }

  lemma NextKeepsInv(s: State, f: Faults)
    requires Inv(s) && s.flush.Some?
    ensures Inv(Next(s, f)) && s.posted <= Next(s, f).posted
  {
    var Flush(ledger, rest) := s.flush.value;
    if rest != [] && rest[0] in s.files && s.files[rest[0]].report.Some? {
      var r := s.files[rest[0]].report.value;
      TrimShrinks(ledger[KeyOf(r) := f.now], f.rows);
      PostedKeysGrow(s.posted, Identify(r));
      IdentifyFillsIn(r);
    }
  }

  lemma NextKeepsReports(s: State, f: Faults)
    requires s.flush.Some?
    ensures KeepsReports(s, Next(s, f))
  {
    var rest := s.flush.value.rest;
    if rest != [] && rest[0] in s.files && s.files[rest[0]].report.Some? {
      IdentifyFillsIn(s.files[rest[0]].report.value);
    }
  }

  lemma NextLosesOnlyKnown(s: State, f: Faults)
    requires Inv(s) && s.flush.Some?
    ensures LosesOnlyKnown(s, Next(s, f))
  {
    var rest := s.flush.value.rest;
    if rest != [] && rest[0] in s.files && s.files[rest[0]].report.Some? {
      PostedKeysGrow(s.posted, Identify(s.files[rest[0]].report.value));
      IdentifyFillsIn(s.files[rest[0]].report.value);
    }
  }

  lemma NextIsSafe(s: State, f: Faults)
    requires Inv(s) && s.flush.Some?
    ensures Inv(Next(s, f)) && LosesOnlyKnown(s, Next(s, f)) && KeepsReports(s, Next(s, f)) && s.posted <= Next(s, f).posted
  {
    NextKeepsInv(s, f);
    NextLosesOnlyKnown(s, f);
    NextKeepsReports(s, f);
  }

  /** What a step uploads: its file's own report, identified, if the file is a current one the ledger does not know yet. */
  lemma NextPostsExactly(s: State, f: Faults)
    requires s.flush.Some? && s.flush.value.rest != []
    ensures
      var p := s.flush.value.rest[0];
      if p in s.files && f.readable && s.files[p].report.Some? && s.files[p].report.value.schema <= CURRENT_SCHEMA && f.identified
         && ((s.files[p].report.value.hasEvent && s.files[p].report.value.dedup != "") || f.rewritten)
         && KeyOf(s.files[p].report.value) !in s.flush.value.ledger && f.accepted
      then Next(s, f).posted == s.posted + [Identify(s.files[p].report.value)]
      else Next(s, f).posted == s.posted
  {
  }

  /**
   A flush removes a file on exactly these terms. A file that does not parse in full goes unsent, even one whose
   header says a newer schema.
   */
  lemma NextRemovesExactly(s: State, f: Faults)
    requires s.flush.Some? && s.flush.value.rest != [] && s.flush.value.rest[0] in s.files
    ensures
      var p := s.flush.value.rest[0];
      var report := s.files[p].report;
      p !in Next(s, f).files <==>
        f.readable && f.removed && (report.Some? ==>
          && report.value.schema <= CURRENT_SCHEMA && f.identified
          && ((report.value.hasEvent && report.value.dedup != "") || f.rewritten)
          && (KeyOf(report.value) in s.flush.value.ledger || (f.accepted && f.saved)))
  {
  }

  /** A file with a newer header that does not parse in full, which pruning keeps, is dropped by the flush. */
  lemma UnparseableNewerIsDropped(p: Path, schema: int, f: Faults)
    requires schema > CURRENT_SCHEMA && f.readable && f.removed
    ensures
      var s := State(map[p := Body(Some(schema), None)], None, Some(Flush(map[], [p])), []);
      Next(s, f).files == map[]
  {
    var s := State(map[p := Body(Some(schema), None)], None, Some(Flush(map[], [p])), []);
    assert s.files - {p} == map[];
  }

  // ---- Runs ----

  /** A write with its pruning, the parts of a flush, or a crash in the middle of one. */
  datatype Event = EWrite(p: Path, r: Report, w: WriteFaults) | EBegin(b: Boot) | ENext(f: Faults) | ECrash

  function Step(s: State, e: Event): State {
    match e
    case EWrite(p, r, w) => Write(s, p, r, w).0
    case EBegin(b) => Begin(s, b)
    case ENext(f) => if s.flush.Some? then Next(s, f) else s
    case ECrash => Stop(s)
  }

  function Run(s: State, events: seq<Event>): State
    decreases events
  {
    if events == [] then s else Run(Step(s, events[0]), events[1..])
  }

  lemma NextKeepsPlainVersions(s: State, f: Faults)
    requires PlainVersions(s) && s.flush.Some?
    ensures PlainVersions(Next(s, f))
  {
    NextKeepsReports(s, f);
    if s.flush.value.rest != [] {
      NextPostsExactly(s, f);
    }
  }

  lemma WriteKeepsPlainVersions(s: State, p: Path, r: Report, w: WriteFaults)
    requires PlainVersions(s) && ':' !in r.version
    ensures PlainVersions(Write(s, p, r, w).0)
  {
    PruneSparesNewer(s.files[p := Body(Some(r.schema), Some(Identify(r)))], w.paths, w.readable, w.removable);
  }

  lemma StepKeepsPlainVersions(s: State, e: Event)
    requires PlainVersions(s) && (e.EWrite? ==> ':' !in e.r.version)
    ensures PlainVersions(Step(s, e))
  {
    match e
    case EWrite(p, r, w) => WriteKeepsPlainVersions(s, p, r, w);
    case EBegin(b) =>
    case ENext(f) => if s.flush.Some? { NextKeepsPlainVersions(s, f); }
    case ECrash =>
  }

  lemma {:induction false} RunKeepsPlainVersions(s: State, events: seq<Event>)
    requires PlainVersions(s) && forall i :: 0 <= i < |events| && events[i].EWrite? ==> ':' !in events[i].r.version
    ensures PlainVersions(Run(s, events))
    decreases events
  {
    if events != [] {
      StepKeepsPlainVersions(s, events[0]);
      RunKeepsPlainVersions(Step(s, events[0]), events[1..]);
    }
  }

  lemma StepKeepsInv(s: State, e: Event)
    requires Inv(s)
    ensures Inv(Step(s, e)) && s.posted <= Step(s, e).posted
  {
    if e.ENext? && s.flush.Some? {
      NextIsSafe(s, e.f);
    }
  }

  lemma {:induction false} EveryRunKeepsInv(s: State, events: seq<Event>)
    requires Inv(s)
    ensures Inv(Run(s, events)) && s.posted <= Run(s, events).posted
    decreases events
  {
    if events != [] {
      StepKeepsInv(s, events[0]);
      EveryRunKeepsInv(Step(s, events[0]), events[1..]);
    }
  }

  /** At any point of any run, whatever failed before, no step of a flush loses a report whose key was never uploaded. */
  lemma FlushLosesOnlyKnown(events: seq<Event>, e: Event)
    requires (e.EBegin? && !OptedOut(e.b)) || e.ENext? || e.ECrash?
    ensures
      var s := Run(INITIAL, events);
      LosesOnlyKnown(s, Step(s, e)) && KeepsReports(s, Step(s, e))
  {
    EveryRunKeepsInv(INITIAL, events);
    var s := Run(INITIAL, events);
    if e.ENext? && s.flush.Some? {
      NextIsSafe(s, e.f);
    }
  }

  /**
   At any point of any run, whatever failed before, a step of a flush loses a report only if one of the very same crash
   and version was acknowledged. Versions must not contain the separator of the keys.
   */
  lemma FlushLosesOnlyPosted(events: seq<Event>, e: Event)
    requires (e.EBegin? && !OptedOut(e.b)) || e.ENext? || e.ECrash?
    requires forall i :: 0 <= i < |events| && events[i].EWrite? ==> ':' !in events[i].r.version
    ensures LosesOnlyPosted(Run(INITIAL, events), Step(Run(INITIAL, events), e))
  {
    var s := Run(INITIAL, events);
    FlushLosesOnlyKnown(events, e);
    RunKeepsPlainVersions(INITIAL, events);
    StepKeepsPlainVersions(s, e);
    KnownLossesArePosted(s, Step(s, e));
  }

  /** The next file holds a report that the ledger takes for an uploaded one, though only a report of another crash was. */
  predicate MistakenForPosted(s: State, f: Faults)
    requires s.flush.Some?
  {
    var Flush(ledger, rest) := s.flush.value;
    && rest != [] && rest[0] in s.files && f.readable && f.identified && s.files[rest[0]].report.Some?
    && var r := s.files[rest[0]].report.value;
    && r.schema <= CURRENT_SCHEMA && ((r.hasEvent && r.dedup != "") || f.rewritten)
    && KeyOf(r) in ledger && !Acknowledged(s.posted, r)
  }

  lemma SentIsAcknowledged(posted: seq<Report>, r: Report)
    ensures Acknowledged(posted + [Identify(r)], r)
  {
    IdentifyFillsIn(r);
    assert (posted + [Identify(r)])[|posted|] == Identify(r) && SameCrash(Identify(r), r);
  }

  /** Whatever the versions, a step loses a report of a crash never uploaded exactly if it removes a mistaken one. */
  lemma NextLosesUnpostedExactly(s: State, f: Faults)
    requires Inv(s) && s.flush.Some?
    ensures LosesOnlyPosted(s, Next(s, f)) <==> !(MistakenForPosted(s, f) && f.removed)
  {
    var rest := s.flush.value.rest;
    if rest != [] && rest[0] in s.files {
      NextRemovesExactly(s, f);
      NextPostsExactly(s, f);
      if s.files[rest[0]].report.Some? {
        SentIsAcknowledged(s.posted, s.files[rest[0]].report.value);
      }
    }
    NextKeepsOthers(s, f);
  }

  lemma NextKeepsOthers(s: State, f: Faults)
    requires s.flush.Some?
    ensures forall p :: p in s.files && !(s.flush.value.rest != [] && p == s.flush.value.rest[0]) ==> p in Next(s, f).files
  {
  }

  /** With the separator in a version two crashes can share a key, and the second is removed without an upload. */
  lemma CollidingReportIsLost(p: Path, f: Faults)
    requires f.readable && f.identified && f.removed
    ensures
      var sent := Report(CURRENT_SCHEMA, "1", true, "2:3", "");
      var waiting := Report(CURRENT_SCHEMA, "1:2", true, "3", "");
      var s := State(map[p := Body(Some(CURRENT_SCHEMA), Some(waiting))], None, Some(Flush(map[KeyOf(sent) := ""], [p])), [sent]);
      Inv(s) && p !in Next(s, f).files && Next(s, f).posted == [sent] && !Acknowledged([sent], waiting)
  {
    var sent := Report(CURRENT_SCHEMA, "1", true, "2:3", "");
    var waiting := Report(CURRENT_SCHEMA, "1:2", true, "3", "");
    assert KeyOf(sent) == "1:2:3" == KeyOf(waiting);
    assert [sent][0] == sent && KeyOf(sent) in PostedKeys([sent]);
  }

  /** A report that parses and that nothing says was uploaded. */
  predicate Unsent(s: State, p: Path) {
    p in s.files && s.files[p].report.Some?
    && (s.files[p].report.value.schema > CURRENT_SCHEMA || !Acknowledged(s.posted, s.files[p].report.value))
  }

  /** Starting a flush loses an unsent report exactly when telemetry is off and one waits that can be removed. */
  lemma BeginLosesUnsentExactly(s: State, b: Boot)
    ensures LosesOnlyPosted(s, Begin(s, b)) <==>
      !(s.flush.None? && OptedOut(b) && exists p :: p in s.files && b.removable(p) && Unsent(s, p))
  {
    if OptedOut(b) && s.flush.None? && exists p :: p in s.files && b.removable(p) && Unsent(s, p) {
      var p :| p in s.files && b.removable(p) && Unsent(s, p);
      assert p !in Begin(s, b).files;
    }
  }

  /** Opting out empties the queue and the ledger when removals work. */
  lemma OptOutIsSafeExactly(s: State, b: Boot)
    requires OptedOut(b) && s.flush.None? && (forall p :: p in s.files ==> b.removable(p))
    ensures Begin(s, b).files == map[] && Begin(s, b).ledger == None
    ensures LosesOnlyPosted(s, Begin(s, b)) <==> forall p :: p in s.files ==> !Unsent(s, p)
  {
    BeginLosesUnsentExactly(s, b);
  }

  /** From an empty queue: one write, then a launch with telemetry off, and the report is gone unsent. */
  lemma OptOutLosesAReport(p: Path, r: Report, w: WriteFaults, b: Boot)
    requires w.identified && w.written && |w.paths| <= MAX_PENDING && OptedOut(b) && b.removable(p)
    ensures
      var s := Run(INITIAL, [EWrite(p, r, w)]);
      && Unsent(s, p) && Run(INITIAL, [EWrite(p, r, w), EBegin(b)]).files == map[]
      && !LosesOnlyPosted(s, Run(INITIAL, [EWrite(p, r, w), EBegin(b)]))
  {
    var events := [EWrite(p, r, w), EBegin(b)];
    var s := Write(INITIAL, p, r, w).0;
    assert s == State(map[p := Body(Some(r.schema), Some(Identify(r)))], None, None, []);
    assert [EWrite(p, r, w)][1..] == [] && events[1..] == [EBegin(b)] && [EBegin(b)][1..] == [];
    assert Run(INITIAL, events) == Run(s, [EBegin(b)]) == Run(Begin(s, b), []);
    assert Begin(s, b).files == map[];
  }

  // ---- A flush that meets no fault ----

  /** The rest of a flush, file by file; faults(k) is met with k files left. */
  function Drain(s: State, faults: nat -> Faults): State
    decreases if s.flush.Some? then 1 + |s.flush.value.rest| else 0
  {
    if s.flush.None? then s
    else Drain(Next(s, faults(|s.flush.value.rest|)), faults)
  }

  predicate Fine(f: Faults) { f.readable && f.identified && f.rewritten && f.accepted && f.saved && f.removed }

  lemma FineStepSends(s: State, f: Faults)
    requires Fine(f) && s.flush.Some? && s.flush.value.rest != [] && Inv(s)
    ensures
      var p := s.flush.value.rest[0];
      var s' := Next(s, f);
      && s'.flush.Some? && s'.flush.value.rest == s.flush.value.rest[1..]
      && (forall q :: q in s.files && q != p ==> q in s'.files && s'.files[q] == s.files[q])
      && (p in s.files && s.files[p].report.Some? && s.files[p].report.value.schema <= CURRENT_SCHEMA ==>
            p !in s'.files && KeyOf(s.files[p].report.value) in PostedKeys(s'.posted))
      && (p in s.files && s.files[p].report.Some? && s.files[p].report.value.schema > CURRENT_SCHEMA ==>
            p in s'.files && s'.files[p] == s.files[p])
  {
    var p := s.flush.value.rest[0];
    if p in s.files && s.files[p].report.Some? {
      PostedKeysGrow(s.posted, Identify(s.files[p].report.value));
      IdentifyFillsIn(s.files[p].report.value);
    }
  }

  /** Without faults a flush uploads and removes every current report on its list and keeps every newer one. */
  lemma {:induction false} FineFlushDrains(s: State, faults: nat -> Faults)
    requires Inv(s) && s.flush.Some? && (forall k :: Fine(faults(k)))
    ensures
      var s' := Drain(s, faults);
      && s'.flush.None? && s.posted <= s'.posted
      && (forall p :: p in s.flush.value.rest && p in s.files && s.files[p].report.Some? ==>
            if s.files[p].report.value.schema <= CURRENT_SCHEMA
            then p !in s'.files && KeyOf(s.files[p].report.value) in PostedKeys(s'.posted)
            else p in s'.files && s'.files[p] == s.files[p])
      && (forall p :: p in s.files && p !in s.flush.value.rest ==> p in s'.files && s'.files[p] == s.files[p])
      && (forall p :: p !in s.files ==> p !in s'.files)
    decreases |s.flush.value.rest|
  {
    var rest := s.flush.value.rest;
    if rest != [] {
      var s1 := Next(s, faults(|rest|));
      FineStepSends(s, faults(|rest|));
      NextIsSafe(s, faults(|rest|));
      FineFlushDrains(s1, faults);
      assert rest == [rest[0]] + rest[1..];
    } else {
      assert Drain(s, faults) == Stop(s);
    }
  }

  lemma {:induction false} DrainKeepsPlainVersions(s: State, faults: nat -> Faults)
    requires PlainVersions(s)
    ensures PlainVersions(Drain(s, faults))
    decreases if s.flush.Some? then 1 + |s.flush.value.rest| else 0
  {
    if s.flush.Some? {
      var f := faults(|s.flush.value.rest|);
      StepKeepsPlainVersions(s, ENext(f));
      DrainKeepsPlainVersions(Next(s, f), faults);
    }
  }

  predicate Launches(b: Boot) { b.released && b.paths != [] && b.config && b.telemetry && b.client && b.directory && b.lock }

  /** A launch starts a flush of all its paths exactly when nothing is missing, and knows exactly the uploads still retained. */
  lemma LaunchStartsExactly(s: State, b: Boot)
    requires s.flush.None?
    ensures
      var s' := Begin(s, b);
      && (s'.flush.Some? <==> Launches(b))
      && (!OptedOut(b) ==> s'.files == s.files && s'.ledger == s.ledger) && s'.posted == s.posted
      && (Launches(b) ==> s'.flush.value.rest == b.paths && forall k: LedgerKey :: k in s'.flush.value.ledger <==>
            && s.ledger.Some? && s.ledger.value.version == 1 && s.ledger.value.entries.Some?
            && k in s.ledger.value.entries.value && b.current(s.ledger.value.entries.value[k]))
  {
  }

  /**
   A launch that meets no fault uploads every current report it lists, unless that very crash was uploaded before, and
   removes it; newer reports stay.
   */
  lemma FineLaunchDrains(s: State, b: Boot, faults: nat -> Faults)
    requires Inv(s) && PlainVersions(s) && s.flush.None? && Launches(b) && (forall k :: Fine(faults(k)))
    ensures
      var s' := Drain(Begin(s, b), faults);
      forall p :: p in b.paths && p in s.files && s.files[p].report.Some? ==>
        if s.files[p].report.value.schema <= CURRENT_SCHEMA
        then p !in s'.files && Acknowledged(s'.posted, s.files[p].report.value)
        else p in s'.files && s'.files[p] == s.files[p]
  {
    var start := Begin(s, b);
    var s' := Drain(start, faults);
    LaunchStartsExactly(s, b);
    FineFlushDrains(start, faults);
    DrainKeepsPlainVersions(start, faults);
    forall p | p in b.paths && p in s.files && s.files[p].report.Some? && s.files[p].report.value.schema <= CURRENT_SCHEMA
      ensures Acknowledged(s'.posted, s.files[p].report.value)
    {
      KnownIsAcknowledged(s'.posted, s.files[p].report.value);
    }
  }

  // ---- The queue on disk ----

  class Queue {
    var files: map<Path, Body>
    var ledger: Option<Ledger>
    ghost var posted: seq<Report>

    ghost function Abs(): State
      reads this
    {
      State(files, ledger, None, posted)
    }

    constructor ()
      ensures Abs() == INITIAL
    {
      files, ledger, posted := map[], None, [];
    }

    method PrunePendingCrashQueue(written: Path, listing: seq<Path>, readable: Path -> bool, removable: Path -> bool) returns (present: bool)
      modifies this`files
      ensures files == Prune(old(files), listing, readable, removable) && present == (written in files)
    {
      var paths := listing;
      while |paths| > MAX_PENDING
        invariant Prune(files, paths, readable, removable) == Prune(old(files), listing, readable, removable)
        decreases |paths|
      {
        var victim := 0;
        while victim < |paths| && !Prunable(files, paths[victim], readable)
          invariant 0 <= victim <= |paths|
          invariant forall j :: 0 <= j < victim ==> !Prunable(files, paths[j], readable)
        {
          victim := victim + 1;
        }
        if victim == |paths| {
          break;
        }
        if removable(paths[victim]) {
          files := files - {paths[victim]};
        }
        paths := paths[..victim] + paths[victim + 1..];
      }
      present := written in files;
    }

    method WritePendingReport(p: Path, r: Report, w: WriteFaults) returns (ok: bool)
      modifies this`files
      ensures (Abs(), ok) == Write(old(Abs()), p, r, w)
    {
      if !w.identified || p in files {
        return false;
      }
      if !w.written {
        if !w.cleaned {
          files := files[p := Body(None, None)];
        }
        return false;
      }
      files := files[p := Body(Some(r.schema), Some(Identify(r)))];
      ok := PrunePendingCrashQueue(p, w.paths, w.readable, w.removable);
    }

    method SortRows(rows: seq<Row>) returns (sorted: seq<Row>)
      ensures sorted == Sort(rows)
    {
      sorted := [];
      var i := |rows|;
      assert rows[i..] == [];
      while i > 0
        invariant 0 <= i <= |rows|
        invariant sorted == Sort(rows[i..])
      {
        i := i - 1;
        sorted := Insert(rows[i], sorted);
        assert rows[i..] == [rows[i]] + rows[i + 1..];
      }
      assert rows[0..] == rows;
    }

    method TrimCrashLedger(entries: map<LedgerKey, Stamp>, rows: seq<Row>) returns (kept: map<LedgerKey, Stamp>)
      ensures kept == Trim(entries, rows)
    {
      kept := entries;
      if |entries| <= MAX_LEDGER || |rows| <= MAX_LEDGER {
        return;
      }
      var sorted := SortRows(rows);
      SortSorts(rows);
      var i := MAX_LEDGER;
      while i < |sorted|
        invariant MAX_LEDGER <= i <= |sorted|
        invariant kept == entries - Keys(sorted[MAX_LEDGER..i])
      {
        kept := kept - {sorted[i].key};
        assert sorted[MAX_LEDGER..i + 1] == sorted[MAX_LEDGER..i] + [sorted[i]];
        i := i + 1;
      }
      assert sorted[MAX_LEDGER..i] == sorted[MAX_LEDGER..];
    }

    method SaveCrashLedger(entries: map<LedgerKey, Stamp>, rows: seq<Row>, saved: bool) returns (kept: map<LedgerKey, Stamp>)
      modifies this`ledger
      ensures kept == Trim(entries, rows)
      ensures ledger == if saved then Some(Ledger(1, Some(kept))) else old(ledger)
    {
      kept := TrimCrashLedger(entries, rows);
      if saved {
        ledger := Some(Ledger(1, Some(kept)));
      }
    }

    method Remove(p: Path, removed: bool)
      modifies this`files
      ensures files == Removed(old(files), p, removed)
    {
      if removed {
        files := files - {p};
      }
    }

    method FlushPendingCrash(b: Boot, faults: nat -> Faults)
      modifies this
      ensures Abs() == Drain(Begin(old(Abs()), b), faults)
    {
      if !b.released || b.paths == [] || !b.config {
        return;
      }
      if !b.telemetry {
        files := map p | p in files && !b.removable(p) :: files[p];
        ledger := None;
        return;
      }
      if !b.client || !b.directory || !b.lock {
        return;
      }
      var entries := Load(ledger, b.current);
      var i := 0;
      ghost var start := Begin(Abs(), b);
      assert b.paths[0..] == b.paths;
      while i < |b.paths|
        invariant 0 <= i <= |b.paths|
        invariant Drain(State(files, ledger, Some(Flush(entries, b.paths[i..])), posted), faults) == Drain(start, faults)
      {
        var go;
        ghost var before := State(files, ledger, Some(Flush(entries, b.paths[i..])), posted);
        entries, go := FlushOne(b.paths[i..], entries, faults(|b.paths| - i));
        assert Drain(before, faults) == Drain(Next(before, faults(|b.paths| - i)), faults);
        if !go {
          return;
        }
        i := i + 1;
      }
    }

    /** Handles the first of the files left; go is false where the loop of the flush breaks. */
    method FlushOne(rest: seq<Path>, entries: map<LedgerKey, Stamp>, f: Faults) returns (left: map<LedgerKey, Stamp>, go: bool)
      requires rest != []
      modifies this
      ensures
        State(files, ledger, if go then Some(Flush(left, rest[1..])) else None, posted) ==
        Next(State(old(files), old(ledger), Some(Flush(entries, rest)), old(posted)), f)
    {
      var p := rest[0];
      left, go := entries, true;
      if p !in files || !f.readable {
        return;
      }
      if files[p].report.None? {
        Remove(p, f.removed);
        return;
      }
      var r := files[p].report.value;
      if r.schema > CURRENT_SCHEMA {
        return;
      }
      if !f.identified {
        go := false;
        return;
      }
      if !r.hasEvent || r.dedup == "" {
        if !f.rewritten {
          go := false;
          return;
        }
        files := files[p := Body(Some(r.schema), Some(Identify(r)))];
      }
      if KeyOf(r) in entries {
        Remove(p, f.removed);
        return;
      }
      if !f.accepted {
        go := false;
        return;
      }
      posted := posted + [Identify(r)];
      left := SaveCrashLedger(entries[KeyOf(r) := f.now], f.rows, f.saved);
      if !f.saved {
        go := false;
        return;
      }
      Remove(p, f.removed);
    }
  }
}

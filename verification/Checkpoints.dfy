/**
 Cumulative checkpoint metadata (desktop/app.go:2380-2461): a backward fold that tells, for every turn,
 which files a code rewind to it would touch, with a bounded sorted preview shifted in place.
 */
module Checkpoints {

  type Path = string

  const PREVIEW_LIMIT := 60

  // ---- Byte order of path strings ----

  predicate Less(a: Path, b: Path) {
    b != "" && (a == "" || a[0] < b[0] || (a[0] == b[0] && Less(a[1..], b[1..])))
  }

  lemma {:induction false} LessIsTotal(a: Path, b: Path)
    ensures !Less(a, a)
    ensures a == b || Less(a, b) || Less(b, a)
    ensures !(Less(a, b) && Less(b, a))
  {
    if a != "" {
      LessIsTotal(a[1..], if b == "" then "" else b[1..]);
      if b != "" && a[0] == b[0] {
        assert a == [a[0]] + a[1..] && b == [b[0]] + b[1..];
      }
    }
  }

  lemma {:induction false} LessIsTransitive(a: Path, b: Path, c: Path)
    requires Less(a, b) && Less(b, c)
    ensures Less(a, c)
  {
    if a != "" && a[0] == b[0] && b[0] == c[0] {
      LessIsTransitive(a[1..], b[1..], c[1..]);
    }
  }

  predicate Sorted(s: seq<Path>) { forall i, j :: 0 <= i < j < |s| ==> Less(s[i], s[j]) }

  /** s lists, in order and without repetition, the limit smallest members of paths (all, if fewer). */
  ghost predicate IsPreview(s: seq<Path>, paths: set<Path>, limit: nat) {
    && Sorted(s)
    && |s| <= limit
    && (forall i :: 0 <= i < |s| ==> s[i] in paths)
    && (forall p :: p in paths && p !in s ==> |s| == limit && forall i :: 0 <= i < |s| ==> Less(s[i], p))
  }

  lemma LastIsNew(s: seq<Path>)
    requires Sorted(s) && s != []
    ensures s[|s| - 1] !in s[..|s| - 1]
  {
    LessIsTotal(s[|s| - 1], s[|s| - 1]);
  }

  lemma {:induction false} SortedSize(s: seq<Path>)
    requires Sorted(s)
    ensures |set p | p in s| == |s|
  {
    if s == [] {
      assert (set p | p in s) == {};
    } else {
      var last, rest := s[|s| - 1], s[..|s| - 1];
      SortedSize(rest);
      LastIsNew(s);
      assert (set p | p in s) == (set p | p in rest) + {last};
    }
  }

  /** The size of a preview is fixed by the size of the set it previews. */
  lemma PreviewSize(s: seq<Path>, paths: set<Path>, limit: nat)
    requires IsPreview(s, paths, limit)
    ensures |s| == if |paths| < limit then |paths| else limit
  {
    SortedSize(s);
    var members := set p | p in s;
    assert members <= paths;
    if |s| < limit {
      assert members == paths;
    } else {
      Subset(members, paths);
    }
  }

  lemma Subset<T>(a: set<T>, b: set<T>)
    requires a <= b
    ensures |a| <= |b|
  {
    assert b == a + (b - a);
  }

  /** There is only one preview of a set, so the predicate determines the list. */
  lemma PreviewIsUnique(s: seq<Path>, t: seq<Path>, paths: set<Path>, limit: nat)
    requires IsPreview(s, paths, limit) && IsPreview(t, paths, limit)
    ensures s == t
  {
    PreviewSize(s, paths, limit);
    PreviewSize(t, paths, limit);
    if s != t {
      var i := FirstDifference(s, t);
      LessIsTotal(s[i], t[i]);
      NoSmallerNext(s, t, paths, limit, i);
      NoSmallerNext(t, s, paths, limit, i);
    }
  }

  lemma {:induction false} FirstDifference(s: seq<Path>, t: seq<Path>) returns (i: nat)
    requires |s| == |t| && s != t
    ensures i < |s| && s[i] != t[i] && s[..i] == t[..i]
  {
    var n := |s| - 1;
    assert s == s[..n] + [s[n]] && t == t[..n] + [t[n]];
    if s[..n] == t[..n] {
      i := n;
    } else {
      i := FirstDifference(s[..n], t[..n]);
      assert s[..n][..i] == s[..i] && t[..n][..i] == t[..i];
    }
  }

  lemma NotBefore(s: seq<Path>, t: seq<Path>, i: nat)
    requires Sorted(s) && i < |s| == |t| && s[..i] == t[..i]
    ensures forall j :: 0 <= j < i ==> t[j] != s[i]
  {
    forall j | 0 <= j < i ensures t[j] != s[i] {
      assert t[..i][j] == s[..i][j];
      LessIsTotal(s[j], s[i]);
    }
  }

  /** Two previews that agree so far cannot part: the smaller next path would have to be in the other. */
  lemma NoSmallerNext(s: seq<Path>, t: seq<Path>, paths: set<Path>, limit: nat, i: nat)
    requires IsPreview(s, paths, limit) && IsPreview(t, paths, limit)
    requires i < |s| == |t| && s[..i] == t[..i]
    ensures !Less(s[i], t[i])
  {
    LessIsTotal(s[i], t[i]);
    NotBefore(s, t, i);
  }

  /** Least position whose path is not smaller, as a binary search of a sorted list finds it. */
  function SearchStrings(preview: seq<Path>, path: Path): (idx: nat)
    requires Sorted(preview)
    ensures idx <= |preview|
    ensures forall i :: 0 <= i < idx ==> Less(preview[i], path)
    ensures forall i :: idx <= i < |preview| ==> !Less(preview[i], path)
  {
    if preview == [] || !Less(preview[|preview| - 1], path) then
      if preview == [] then 0
      else
        SearchStrings(preview[..|preview| - 1], path)
    else
      LastBelow(preview, path);
      |preview|
  }

  lemma LastBelow(s: seq<Path>, path: Path)
    requires Sorted(s) && s != [] && Less(s[|s| - 1], path)
    ensures forall i :: 0 <= i < |s| ==> Less(s[i], path)
  {
    forall i | 0 <= i < |s| - 1
      ensures Less(s[i], path)
    {
      LessIsTransitive(s[i], s[|s| - 1], path);
    }
  }

  /** The list after the insertion: the cells before idx, the path, and the cells after it that still fit. */
  ghost predicate Inserted(s: seq<Path>, path: Path, idx: nat, keep: nat, t: seq<Path>) {
    && idx <= keep <= |s| && |t| == keep + 1 && t[idx] == path
    && (forall k :: 0 <= k < idx ==> t[k] == s[k])
    && (forall k :: idx < k <= keep ==> t[k] == s[k - 1])
  }

  lemma InsertedIsSorted(s: seq<Path>, path: Path, idx: nat, keep: nat, t: seq<Path>)
    requires Sorted(s) && Inserted(s, path, idx, keep, t)
    requires forall i :: 0 <= i < idx ==> Less(s[i], path)
    requires forall i :: idx <= i < |s| ==> Less(path, s[i])
    ensures Sorted(t)
  {
  }

  /** Inserting a new path at its place, dropping the largest when the preview is full. */
  lemma InsertKeepsPreview(s: seq<Path>, paths: set<Path>, path: Path, limit: nat, idx: nat, t: seq<Path>)
    requires IsPreview(s, paths, limit) && idx <= |s| && idx < limit
    requires forall i :: 0 <= i < idx ==> Less(s[i], path)
    requires forall i :: idx <= i < |s| ==> Less(path, s[i])
    requires Inserted(s, path, idx, if |s| < limit then |s| else limit - 1, t)
    ensures IsPreview(t, paths + {path}, limit)
  {
    var keep := if |s| < limit then |s| else limit - 1;
    InsertedIsSorted(s, path, idx, keep, t);
    forall p | p in paths + {path} && p !in t
      ensures |t| == limit && forall i :: 0 <= i < |t| ==> Less(t[i], p)
    {
      BeyondInserted(s, paths, path, limit, idx, t, p);
    }
  }

  lemma KeptIsIn(s: seq<Path>, path: Path, idx: nat, keep: nat, t: seq<Path>, k: nat)
    requires Inserted(s, path, idx, keep, t) && k < keep
    ensures s[k] in t
  {
    assert t[if k < idx then k else k + 1] == s[k];
  }

  lemma BeyondInserted(s: seq<Path>, paths: set<Path>, path: Path, limit: nat, idx: nat, t: seq<Path>, p: Path)
    requires IsPreview(s, paths, limit) && idx <= |s| && idx < limit
    requires forall i :: 0 <= i < idx ==> Less(s[i], path)
    requires forall i :: idx <= i < |s| ==> Less(path, s[i])
    requires Inserted(s, path, idx, if |s| < limit then |s| else limit - 1, t)
    requires p in paths && p !in t
    ensures |t| == limit && forall i :: 0 <= i < |t| ==> Less(t[i], p)
  {
    if p in s {
      var k :| 0 <= k < |s| && s[k] == p;
      if k < |t| - 1 {
        KeptIsIn(s, path, idx, |t| - 1, t, k);
      }
    } else {
      assert Less(s[idx], p);
      LessIsTransitive(path, s[idx], p);
    }
  }

  /**
   Adds a path to the first n cells of buf, which hold the preview of seen; the cells shift in place.
   Empty paths and paths already shown or too large change nothing.
   */
  method InsertPreview(buf: array<Path>, n: nat, path: Path, limit: nat, ghost seen: set<Path>) returns (m: nat)
    requires n <= limit <= buf.Length
    requires IsPreview(buf[..n], seen, limit)
    modifies buf
    ensures m <= limit
    ensures limit == 0 || path == "" ==> m == n && buf[..] == old(buf[..])
    ensures limit > 0 && path != "" ==> IsPreview(buf[..m], seen + {path}, limit)
  {
    if limit == 0 || path == "" {
      return n;
    }
    ghost var before := buf[..n];
    var idx := SearchStrings(buf[..n], path);
    if idx < n && buf[idx] == path {
      assert before[idx] == path;
      assert seen + {path} == seen;
      return n;
    }
    AllBeyond(before, path, idx);
    if n < limit {
      ShiftIn(buf, n, idx, n, path);
      InsertKeepsPreview(before, seen, path, limit, idx, buf[..n + 1]);
      return n + 1;
    }
    if idx >= limit {
      FullStays(before, seen, path, limit);
      return n;
    }
    ShiftIn(buf, n, idx, limit - 1, path);
    InsertKeepsPreview(before, seen, path, limit, idx, buf[..n]);
    return n;
  }

  /** Past the place of a path that is not listed, everything is larger. */
  lemma AllBeyond(s: seq<Path>, path: Path, idx: nat)
    requires Sorted(s) && idx <= |s| && (idx < |s| ==> s[idx] != path && !Less(s[idx], path))
    ensures forall i :: idx <= i < |s| ==> Less(path, s[i])
  {
    if idx < |s| {
      LessIsTotal(path, s[idx]);
      forall i | idx < i < |s| ensures Less(path, s[i]) {
        LessIsTransitive(path, s[idx], s[i]);
      }
    }
  }

  lemma FullStays(s: seq<Path>, paths: set<Path>, path: Path, limit: nat)
    requires IsPreview(s, paths, limit) && |s| == limit && forall i :: 0 <= i < |s| ==> Less(s[i], path)
    ensures IsPreview(s, paths + {path}, limit)
  {
  }

  /** Shifts the cells from idx up by one, overwriting the one at last, and puts the path at idx. */
  method ShiftIn(buf: array<Path>, n: nat, idx: nat, last: nat, path: Path)
    requires idx <= last <= n <= buf.Length && last < buf.Length
    modifies buf
    ensures Inserted(old(buf[..n]), path, idx, last, buf[..last + 1])
  {
    forall k | idx < k <= last {
      buf[k] := buf[k - 1];
    }
    buf[idx] := path;
  }

  // ---- The backward fold ----

  datatype Meta = Meta(turn: int, paths: seq<Path>, canUndoFiles: bool)

  datatype CheckpointMeta = CheckpointMeta(
    turn: int, files: seq<Path>, fileCount: nat, turnFileCount: nat, filesTruncated: bool, canCode: bool, canUndoFiles: bool)

  /** Every path touched in turn i or later. */
  ghost function TouchedFrom(metas: seq<Meta>, i: nat): set<Path>
    requires i <= |metas|
    decreases |metas| - i
  {
    if i == |metas| then {} else TouchedFrom(metas, i + 1) + set p | p in metas[i].paths
  }

  ghost predicate Rewindable(metas: seq<Meta>, i: nat) {
    && (exists j :: i <= j < |metas| && metas[j].paths != [])
    && (forall j :: i <= j < |metas| && metas[j].paths != [] ==> metas[j].canUndoFiles)
  }

  ghost predicate HasCode(metas: seq<Meta>, i: nat)
    requires i <= |metas|
    decreases |metas| - i
  {
    i < |metas| && (metas[i].paths != [] || HasCode(metas, i + 1))
  }

  ghost predicate AllUndoable(metas: seq<Meta>, i: nat)
    requires i <= |metas|
    decreases |metas| - i
  {
    i == |metas| || ((metas[i].paths != [] ==> metas[i].canUndoFiles) && AllUndoable(metas, i + 1))
  }

  lemma {:induction false} RewindableByFlags(metas: seq<Meta>, i: nat)
    requires i <= |metas|
    ensures HasCode(metas, i) <==> exists j :: i <= j < |metas| && metas[j].paths != []
    ensures AllUndoable(metas, i) <==> forall j :: i <= j < |metas| && metas[j].paths != [] ==> metas[j].canUndoFiles
    decreases |metas| - i
  {
    if i < |metas| {
      RewindableByFlags(metas, i + 1);
    }
  }

  ghost predicate Cumulative(metas: seq<Meta>, i: nat, out: CheckpointMeta)
    requires i < |metas|
  {
    && out.turn == metas[i].turn
    && out.turnFileCount == |metas[i].paths|
    && out.fileCount == |TouchedFrom(metas, i)|
    && IsPreview(out.files, TouchedFrom(metas, i) - {""}, PREVIEW_LIMIT)
    && (out.filesTruncated <==> out.fileCount > |out.files|)
    && (out.canCode <==> Rewindable(metas, i))
  }

  /** Every turn from i on carries its final cumulative metadata. */
  ghost predicate CumulativeFrom(metas: seq<Meta>, i: nat, out: seq<CheckpointMeta>) {
    |out| == |metas| && forall k :: i <= k < |metas| ==> Cumulative(metas, k, out[k])
  }

  /** What the fold carries about the turns from i on: the two flags, the paths touched and their preview. */
  ghost predicate Known(metas: seq<Meta>, i: nat, hasCode: bool, canCode: bool, touched: set<Path>, preview: seq<Path>)
    requires i <= |metas|
  {
    && hasCode == HasCode(metas, i) && canCode == AllUndoable(metas, i)
    && touched == TouchedFrom(metas, i) && IsPreview(preview, touched - {""}, PREVIEW_LIMIT)
  }

  /** The list half-way through the fold: turns from i on are final, the others as they were read. */
  ghost predicate Folded(metas: seq<Meta>, i: nat, out: seq<CheckpointMeta>) {
    CumulativeFrom(metas, i, out) && forall k :: 0 <= k < i && k < |metas| ==> out[k] == Initial(metas[k])
  }

  lemma FoldExtends(metas: seq<Meta>, i: nat, before: seq<CheckpointMeta>, meta: CheckpointMeta)
    requires i < |metas| && Folded(metas, i + 1, before) && Cumulative(metas, i, meta)
    ensures Folded(metas, i, before[i := meta])
  {
    var out := before[i := meta];
    forall k | i <= k < |metas|
      ensures Cumulative(metas, k, out[k])
    {
      if k > i {
        assert out[k] == before[k];
      }
    }
  }

  method Checkpoints(metas: seq<Meta>) returns (result: seq<CheckpointMeta>)
    ensures |result| == |metas|
    ensures CumulativeFrom(metas, 0, result)
  {
    var out := new CheckpointMeta[|metas|](i requires 0 <= i < |metas| => Initial(metas[i]));
    var hasCodeAfter, canCodeAfter := false, true;
    var codeFileSet: set<Path> := {};
    var preview := new Path[PREVIEW_LIMIT](_ => "");
    var n: nat := 0;
    assert preview[..0] == [];
    for i := |metas| downto 0
      invariant Folded(metas, i, out[..])
      invariant n <= PREVIEW_LIMIT && Known(metas, i, hasCodeAfter, canCodeAfter, codeFileSet, preview[..n])
    {
      hasCodeAfter, canCodeAfter, codeFileSet, n := FoldAt(metas, i, out, hasCodeAfter, canCodeAfter, codeFileSet, preview, n);
    }
    result := out[..];
  }

  /** The body of the fold at turn i. */
  method FoldAt(
    ghost metas: seq<Meta>, i: nat, out: array<CheckpointMeta>, hasAfter: bool, canAfter: bool,
    after: set<Path>, preview: array<Path>, used: nat)
    returns (hasCodeAfter: bool, canCodeAfter: bool, codeFileSet: set<Path>, n: nat)
    requires i < |metas| == out.Length && Folded(metas, i + 1, out[..])
    requires preview.Length == PREVIEW_LIMIT && used <= PREVIEW_LIMIT && Known(metas, i + 1, hasAfter, canAfter, after, preview[..used])
    modifies out, preview
    ensures Folded(metas, i, out[..])
    ensures n <= PREVIEW_LIMIT && Known(metas, i, hasCodeAfter, canCodeAfter, codeFileSet, preview[..n])
  {
    ghost var before := out[..];
    assert before[i] == Initial(metas[i]);
    var meta;
    meta, hasCodeAfter, canCodeAfter, codeFileSet, n := FoldTurn(metas, i, out[i], hasAfter, canAfter, after, preview, used);
    FoldExtends(metas, i, before, meta);
    out[i] := meta;
    assert out[..] == before[i := meta];
  }

  /** One step of the fold: everything known about later turns is extended by turn i. */
  method FoldTurn(
    ghost metas: seq<Meta>, ghost i: nat, start: CheckpointMeta, hasAfter: bool, canAfter: bool,
    after: set<Path>, preview: array<Path>, used: nat)
    returns (meta: CheckpointMeta, hasCodeAfter: bool, canCodeAfter: bool, codeFileSet: set<Path>, n: nat)
    requires i < |metas| && start == Initial(metas[i])
    requires preview.Length == PREVIEW_LIMIT && used <= PREVIEW_LIMIT && Known(metas, i + 1, hasAfter, canAfter, after, preview[..used])
    modifies preview
    ensures Cumulative(metas, i, meta)
    ensures n <= PREVIEW_LIMIT && Known(metas, i, hasCodeAfter, canCodeAfter, codeFileSet, preview[..n])
  {
    hasCodeAfter, canCodeAfter := hasAfter, canAfter;
    if |start.files| > 0 {
      hasCodeAfter := true;
      if !start.canUndoFiles {
        canCodeAfter := false;
      }
    }
    codeFileSet, n := AddFiles(start.files, after, preview, used);
    RewindableByFlags(metas, i);
    meta := start.(canCode := hasCodeAfter && canCodeAfter, fileCount := |codeFileSet|, files := preview[..n]);
    meta := meta.(filesTruncated := meta.fileCount > |meta.files|);
  }

  /** The per-turn metadata before the fold replaces files, count and flags. */
  function Initial(m: Meta): CheckpointMeta {
    CheckpointMeta(m.turn, m.paths, 0, |m.paths|, false, |m.paths| > 0 && m.canUndoFiles, m.canUndoFiles)
  }

  /** One turn's files join the running set and the running preview. */
  method AddFiles(files: seq<Path>, before: set<Path>, preview: array<Path>, used: nat) returns (seen: set<Path>, n: nat)
    requires preview.Length == PREVIEW_LIMIT
    requires used <= PREVIEW_LIMIT && IsPreview(preview[..used], before - {""}, PREVIEW_LIMIT)
    modifies preview
    ensures seen == before + set p | p in files
    ensures n <= PREVIEW_LIMIT && IsPreview(preview[..n], seen - {""}, PREVIEW_LIMIT)
  {
    seen, n := before, used;
    for k := 0 to |files|
      invariant seen == before + set p | p in files[..k]
      invariant n <= PREVIEW_LIMIT && IsPreview(preview[..n], seen - {""}, PREVIEW_LIMIT)
    {
      var f := files[k];
      assert files[..k + 1] == files[..k] + [f];
      if f in seen {
        continue;
      }
      ghost var shown := seen - {""};
      seen := seen + {f};
      n := InsertPreview(preview, n, f, PREVIEW_LIMIT, shown);
      assert seen - {""} == if f == "" then shown else shown + {f};
    }
    assert files[..|files|] == files;
  }

  /**
   The truncation flag is exact up to one case: an empty path is counted but never previewed, so the flag
   is raised exactly when the preview limit is exceeded or an empty path was touched.
   */
  lemma TruncatedExactly(metas: seq<Meta>, i: nat, out: CheckpointMeta)
    requires i < |metas| && Cumulative(metas, i, out)
    ensures out.filesTruncated <==> |TouchedFrom(metas, i)| > PREVIEW_LIMIT || "" in TouchedFrom(metas, i)
  {
    var touched := TouchedFrom(metas, i);
    PreviewSize(out.files, touched - {""}, PREVIEW_LIMIT);
    if "" in touched {
      assert touched == (touched - {""}) + {""};
    } else {
      assert touched - {""} == touched;
    }
  }

  /** A single turn that touched one empty path: one file is counted, none is listed, and the list is marked truncated. */
  lemma EmptyPathLooksTruncated(turn: int, canUndo: bool, out: seq<CheckpointMeta>)
    requires CumulativeFrom([Meta(turn, [""], canUndo)], 0, out)
    ensures out[0].fileCount == 1 && out[0].files == [] && out[0].filesTruncated
  {
    var metas := [Meta(turn, [""], canUndo)];
    assert Cumulative(metas, 0, out[0]);
    assert TouchedFrom(metas, 1) == {};
    assert "" in metas[0].paths;
    assert TouchedFrom(metas, 0) == {""};
    TruncatedExactly(metas, 0, out[0]);
    PreviewSize(out[0].files, TouchedFrom(metas, 0) - {""}, PREVIEW_LIMIT);
  }

  /**
   When a turn can rewind code, a later turn can as well exactly if files were touched from there on, and a rewind
   from the later turn touches no file that one from the earlier turn would not.
   */
  lemma LaterRewindIsSmaller(metas: seq<Meta>, i: nat, j: nat)
    requires i <= j < |metas| && Rewindable(metas, i)
    ensures Rewindable(metas, j) <==> exists k :: j <= k < |metas| && metas[k].paths != []
    ensures TouchedFrom(metas, j) <= TouchedFrom(metas, i)
  {
    TouchedShrinks(metas, i, j);
  }

  lemma {:induction false} TouchedShrinks(metas: seq<Meta>, i: nat, j: nat)
    requires i <= j <= |metas|
    ensures TouchedFrom(metas, j) <= TouchedFrom(metas, i)
    decreases j - i
  {
    if i < j {
      TouchedShrinks(metas, i + 1, j);
    }
  }
}

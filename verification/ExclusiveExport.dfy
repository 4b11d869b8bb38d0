/**
 Saving a batch of exported images (desktop/app.go:10703-10885): every payload is staged beside its target, then
 published by a hard link or, where links are unsupported, an exclusive create; a failure rolls the batch back.
 Other processes may create paths that are absent at any point between two file operations.
 */
module ExclusiveExport {
  import opened Common

  type Path = string
  type Inode = nat
  type Payload = seq<bv8>

  datatype Foreign = Foreign(inode: Inode, content: Payload)

  /** theirs records what other processes put where, before the export or during it; mine are the inodes of the export. */
  datatype Disk = Disk(files: map<Path, Inode>, data: map<Inode, Payload>, theirs: map<Path, Foreign>, mine: set<Inode>, next: Inode)

  /** What other processes create: each pair is a path and its content. */
  type Activity = seq<(Path, Payload)>

  const TEMP_ATTEMPTS := 100

  datatype StageFaults = StageFaults(payload: bool, others: Activity, names: seq<Path>, created: bool, prepared: bool, written: bool)

  datatype CommitFaults = CommitFaults(others: Activity, inspected: bool, linked: bool, checked: bool, reopened: bool, meanwhile: Activity,
                                       created: bool, stat: bool, copied: bool)

  /** Whether inspecting and removing a path works while cleaning up. */
  datatype Cleanup = Cleanup(inspect: Path -> bool, remove: Path -> bool)

  datatype World = World(others: Activity, inspect: Path -> bool, stage: nat -> StageFaults, commit: nat -> CommitFaults, cleanup: Cleanup)

  // ---- File operations ----

  function Others(d: Disk, activity: Activity): Disk
    decreases activity
  {
    if activity == [] then d
    else
      var (p, content) := activity[0];
      Others(if p in d.files then d else Adopt(d, p, content), activity[1..])
  }

  /** Another process creates a file. */
  function Adopt(d: Disk, p: Path, content: Payload): Disk {
    d.(files := d.files[p := d.next], data := d.data[d.next := content],
       theirs := d.theirs[p := Foreign(d.next, content)], next := d.next + 1)
  }

  /** An exclusive create by the export. */
  function Create(d: Disk, p: Path, content: Payload): Disk {
    d.(files := d.files[p := d.next], data := d.data[d.next := content], mine := d.mine + {d.next}, next := d.next + 1)
  }

  function Remove(d: Disk, p: Path, c: Cleanup): Disk {
    if c.remove(p) then d.(files := d.files - {p}) else d
  }

  function RemoveIfSame(d: Disk, p: Path, info: Option<Inode>, c: Cleanup): Disk {
    if info.Some? && c.inspect(p) && p in d.files && d.files[p] == info.value then Remove(d, p, c) else d
  }

  // ---- Staging ----

  function FreeName(d: Disk, names: seq<Path>, attempts: nat): Option<Path> {
    if attempts == 0 || names == [] then None
    else if names[0] !in d.files then Some(names[0])
    else FreeName(d, names[1..], attempts - 1)
  }

  /** The staged path if one has to be cleaned up later, and whether staging succeeded. */
  function Stage(d: Disk, payload: Payload, f: StageFaults, c: Cleanup): (Disk, Option<Path>, bool) {
    if !f.payload then (d, None, false)
    else
      var d1 := Others(d, f.others);
      var name := FreeName(d1, f.names, TEMP_ATTEMPTS);
      if name.None? || !f.created then (d1, None, false)
      else if !f.prepared then (Remove(Create(d1, name.value, []), name.value, c), None, false)
      else (Create(d1, name.value, if f.written then payload else []), name, f.written)
  }

  function StageAll(d: Disk, payloads: seq<Payload>, i: nat, staged: seq<Path>, w: World): (Disk, seq<Path>, bool)
    requires i <= |payloads|
    decreases |payloads| - i
  {
    if i == |payloads| then (d, staged, true)
    else
      var (d1, temp, ok) := Stage(d, payloads[i], w.stage(i), w.cleanup);
      var staged' := if temp.Some? then staged + [temp.value] else staged;
      if !ok then (d1, staged', false) else StageAll(d1, payloads, i + 1, staged', w)
  }

  // ---- Publishing ----

  /** The inode of the published target, or nothing on an error. */
  function Commit(d: Disk, temp: Path, target: Path, f: CommitFaults, c: Cleanup): (Disk, Option<Inode>) {
    var d1 := Others(d, f.others);
    if !f.inspected || temp !in d1.files then (d1, None)
    else if f.linked && target !in d1.files then CommitLinked(d1, temp, target, f, c)
    else if !f.reopened then (d1, None)
    else CommitCopied(Others(d1, f.meanwhile), temp, target, f, c)
  }

  function CommitLinked(d: Disk, temp: Path, target: Path, f: CommitFaults, c: Cleanup): (Disk, Option<Inode>)
    requires temp in d.files
  {
    var inode := d.files[temp];
    var d1 := d.(files := d.files[target := inode]);
    if !f.checked then (RemoveIfSame(d1, target, Some(inode), c), None) else (d1, Some(inode))
  }

  /** Without the stat of the new file its later removal has nothing to compare with and does nothing. */
  function CommitCopied(d: Disk, temp: Path, target: Path, f: CommitFaults, c: Cleanup): (Disk, Option<Inode>) {
    if !f.created || target in d.files || temp !in d.files || d.files[temp] !in d.data then (d, None)
    else
      var inode := d.next;
      var d1 := Create(d, target, if f.stat && f.copied then d.data[d.files[temp]] else []);
      if !f.stat then (RemoveIfSame(d1, target, None, c), None)
      else if !f.copied then (RemoveIfSame(d1, target, Some(inode), c), None)
      else (d1, Some(inode))
  }

  function Rollback(d: Disk, committed: seq<(Path, Inode)>, c: Cleanup): Disk
    decreases committed
  {
    if committed == [] then d else Rollback(RemoveIfSame(d, committed[0].0, Some(committed[0].1), c), committed[1..], c)
  }

  function CommitAll(d: Disk, targets: seq<Path>, staged: seq<Path>, committed: seq<(Path, Inode)>, w: World): (Disk, bool)
    requires |committed| <= |targets| == |staged|
    decreases |targets| - |committed|
  {
    var i := |committed|;
    if i == |targets| then (d, true)
    else
      var (d1, info) := Commit(d, staged[i], targets[i], w.commit(i), w.cleanup);
      if info.None? then (Rollback(d1, committed, w.cleanup), false)
      else CommitAll(d1, targets, staged, committed + [(targets[i], info.value)], w)
  }

  function Unstage(d: Disk, staged: seq<Path>, c: Cleanup): Disk
    decreases staged
  {
    if staged == [] then d else Unstage(Remove(d, staged[0], c), staged[1..], c)
  }

  predicate Absent(d: Disk, targets: seq<Path>, inspect: Path -> bool) {
    forall t :: t in targets ==> inspect(t) && t !in d.files
  }

  function Save(d: Disk, targets: seq<Path>, payloads: seq<Payload>, w: World): (Disk, bool) {
    if targets == [] || |targets| != |payloads| then (d, false)
    else
      var d0 := Others(d, w.others);
      if !Absent(d0, targets, w.inspect) then (d0, false)
      else
        var (d1, staged, ok) := StageAll(d0, payloads, 0, [], w);
        if !ok || |staged| != |targets| then (Unstage(d1, staged, w.cleanup), false)
        else
          var (d2, done) := CommitAll(d1, targets, staged, [], w);
          (Unstage(d2, staged, w.cleanup), done)
  }

  // ---- What every file operation keeps ----

  /** Everything of other processes is in place and unaltered, and every other file is the export's own. */
  ghost predicate Wf(d: Disk) {
    && (forall p :: p in d.theirs ==>
          && p in d.files && d.files[p] == d.theirs[p].inode && d.files[p] !in d.mine
          && d.files[p] in d.data && d.data[d.files[p]] == d.theirs[p].content)
    && (forall p :: p in d.files ==> d.files[p] in d.data && (p in d.theirs || d.files[p] in d.mine))
    && (forall i :: i in d.data || i in d.mine ==> i < d.next)
  }

  function Ours(d: Disk): set<Path> { d.files.Keys - d.theirs.Keys }

  function Content(d: Disk, p: Path): Payload {
    if p in d.files && d.files[p] in d.data then d.data[d.files[p]] else []
  }

  /** Other processes only add; what the export has on disk and keeps is the same file with the same content. */
  ghost predicate Follows(d: Disk, d': Disk) {
    && Wf(d')
    && (forall p :: p in d.theirs ==> p in d'.theirs && d'.theirs[p] == d.theirs[p])
    && (forall p :: p in Ours(d) && p in d'.files ==> d'.files[p] == d.files[p] && Content(d', p) == Content(d, p))
    && (forall p :: p in Ours(d) ==> p !in d'.theirs)
    && d.mine <= d'.mine
  }

  lemma {:induction false} OthersFollow(d: Disk, activity: Activity)
    requires Wf(d)
    ensures Follows(d, Others(d, activity)) && Ours(Others(d, activity)) == Ours(d) && Others(d, activity).mine == d.mine
    decreases activity
  {
    if activity != [] {
      var (p, content) := activity[0];
      if p in d.files {
        OthersFollow(d, activity[1..]);
      } else {
        var d' := Adopt(d, p, content);
        AdoptFollows(d, p, content);
        OthersFollow(d', activity[1..]);
        FollowsThrough(d, d', Others(d', activity[1..]));
      }
    }
  }

  lemma AdoptFollows(d: Disk, p: Path, content: Payload)
    requires Wf(d) && p !in d.files
    ensures Follows(d, Adopt(d, p, content)) && Ours(Adopt(d, p, content)) == Ours(d)
  {
  }

  lemma CreateFollows(d: Disk, p: Path, content: Payload)
    requires Wf(d) && p !in d.files
    ensures Follows(d, Create(d, p, content)) && Ours(Create(d, p, content)) == Ours(d) + {p}
    ensures Content(Create(d, p, content), p) == content
  {
  }

  lemma RemoveFollows(d: Disk, p: Path, c: Cleanup)
    requires Wf(d) && p in Ours(d)
    ensures Follows(d, Remove(d, p, c)) && Ours(Remove(d, p, c)) == if c.remove(p) then Ours(d) - {p} else Ours(d)
  {
  }

  lemma RemoveIfSameFollows(d: Disk, p: Path, info: Option<Inode>, c: Cleanup)
    requires Wf(d) && (info.Some? ==> info.value in d.mine)
    ensures Follows(d, RemoveIfSame(d, p, info, c))
    ensures Ours(RemoveIfSame(d, p, info, c)) ==
      if info.Some? && p in d.files && d.files[p] == info.value && c.inspect(p) && c.remove(p) then Ours(d) - {p} else Ours(d)
  {
    if info.Some? && c.inspect(p) && p in d.files && d.files[p] == info.value {
      RemoveFollows(d, p, c);
    }
  }

  lemma FollowsThrough(d: Disk, d1: Disk, d2: Disk)
    requires Follows(d, d1) && Follows(d1, d2)
    requires forall p :: p in Ours(d) && p in d2.files ==> p in d1.files
    ensures Follows(d, d2)
  {
  }

  // ---- Staging ----

  ghost predicate Tidy(c: Cleanup) { forall p :: c.inspect(p) && c.remove(p) }

  ghost predicate Distinct(paths: seq<Path>) {
    forall i, j :: 0 <= i < j < |paths| ==> paths[i] != paths[j]
  }

  function PathSet(paths: seq<Path>): set<Path> { set p | p in paths }

  lemma {:induction false} FreeNameIsFree(d: Disk, names: seq<Path>, attempts: nat)
    ensures
      var name := FreeName(d, names, attempts);
      name.Some? ==> name.value !in d.files
  {
    if attempts > 0 && names != [] {
      FreeNameIsFree(d, names[1..], attempts - 1);
    }
  }

  lemma StageFollows(d: Disk, payload: Payload, f: StageFaults, c: Cleanup)
    requires Wf(d)
    ensures
      var (d', temp, ok) := Stage(d, payload, f, c);
      && Follows(d, d') && Ours(d) <= Ours(d')
      && (temp.Some? ==> temp.value !in Ours(d) && temp.value in Ours(d'))
      && (ok ==> temp.Some? && Content(d', temp.value) == payload)
      && (Tidy(c) ==> Ours(d') == Ours(d) + (if temp.Some? then {temp.value} else {}))
  {
    if f.payload {
      var d1 := Others(d, f.others);
      OthersFollow(d, f.others);
      FreeNameIsFree(d1, f.names, TEMP_ATTEMPTS);
      var name := FreeName(d1, f.names, TEMP_ATTEMPTS);
      if name.Some? && f.created {
        CreateFollows(d1, name.value, []);
        CreateFollows(d1, name.value, if f.written then payload else []);
        RemoveFollows(Create(d1, name.value, []), name.value, c);
      }
    }
  }

  /** The staged files so far: on disk, the export's own, and distinct. */
  ghost predicate OnDisk(d: Disk, staged: seq<Path>) {
    Distinct(staged) && forall i :: 0 <= i < |staged| ==> staged[i] in Ours(d)
  }

  /** Each staged file holds its payload. */
  ghost predicate Holding(d: Disk, payloads: seq<Payload>, staged: seq<Path>) {
    |staged| <= |payloads| && forall i :: 0 <= i < |staged| ==> Content(d, staged[i]) == payloads[i]
  }

  function With(staged: seq<Path>, temp: Option<Path>): seq<Path> { if temp.Some? then staged + [temp.value] else staged }

  lemma StageExtends(d: Disk, payloads: seq<Payload>, staged: seq<Path>, f: StageFaults, c: Cleanup)
    requires Wf(d) && |staged| < |payloads| && OnDisk(d, staged) && Holding(d, payloads, staged)
    ensures
      var (d', temp, ok) := Stage(d, payloads[|staged|], f, c);
      OnDisk(d', With(staged, temp)) && (ok ==> temp.Some? && Holding(d', payloads, With(staged, temp)))
  {
    var (d', temp, ok) := Stage(d, payloads[|staged|], f, c);
    StageFollows(d, payloads[|staged|], f, c);
    forall i | 0 <= i < |staged| ensures staged[i] in Ours(d) && staged[i] in d'.files {
      assert staged[i] in Ours(d');
    }
  }

  /** Where a staging that began with d and the staged files already there ended. */
  ghost predicate StagedFrom(d: Disk, d': Disk, staged': seq<Path>, c: Cleanup) {
    && Follows(d, d') && Ours(d) <= Ours(d') && OnDisk(d', staged')
    && (Tidy(c) ==> Ours(d') <= Ours(d) + PathSet(staged'))
  }

  lemma StagedFurther(d: Disk, d1: Disk, staged: seq<Path>, temp: Option<Path>, d2: Disk, staged2: seq<Path>, c: Cleanup)
    requires Follows(d, d1) && Ours(d) <= Ours(d1) && StagedFrom(d1, d2, staged2, c)
    requires Tidy(c) ==> Ours(d1) == Ours(d) + (if temp.Some? then {temp.value} else {})
    requires With(staged, temp) <= staged2
    ensures StagedFrom(d, d2, staged2, c)
  {
    if temp.Some? {
      assert With(staged, temp)[|staged|] == temp.value == staged2[|staged|];
    }
    FollowsThrough(d, d1, d2);
  }

  lemma StagedLast(d: Disk, payloads: seq<Payload>, staged: seq<Path>, f: StageFaults, c: Cleanup)
    requires Wf(d) && |staged| < |payloads| && OnDisk(d, staged) && Holding(d, payloads, staged)
    ensures
      var (d', temp, ok) := Stage(d, payloads[|staged|], f, c);
      StagedFrom(d, d', With(staged, temp), c)
  {
    var temp := Stage(d, payloads[|staged|], f, c).1;
    StageFollows(d, payloads[|staged|], f, c);
    StageExtends(d, payloads, staged, f, c);
    if temp.Some? {
      assert With(staged, temp)[|staged|] == temp.value;
    }
  }

  lemma StagedNothing(d: Disk, staged: seq<Path>, c: Cleanup)
    requires Wf(d) && OnDisk(d, staged)
    ensures StagedFrom(d, d, staged, c)
  {
  }

  lemma {:induction false} StageAllFollows(d: Disk, payloads: seq<Payload>, staged: seq<Path>, w: World)
    requires Wf(d) && |staged| <= |payloads| && OnDisk(d, staged) && Holding(d, payloads, staged)
    ensures StageAll(d, payloads, |staged|, staged, w).2 ==>
      var (d', staged', _) := StageAll(d, payloads, |staged|, staged, w);
      Holding(d', payloads, staged') && |staged'| == |payloads|
    ensures staged <= StageAll(d, payloads, |staged|, staged, w).1
    ensures StagedFrom(d, StageAll(d, payloads, |staged|, staged, w).0, StageAll(d, payloads, |staged|, staged, w).1, w.cleanup)
    decreases |payloads| - |staged|
  {
    if |staged| == |payloads| {
      StagedNothing(d, staged, w.cleanup);
    } else {
      var (d1, temp, ok) := Stage(d, payloads[|staged|], w.stage(|staged|), w.cleanup);
      if !ok {
        StagedLast(d, payloads, staged, w.stage(|staged|), w.cleanup);
      } else {
        StageStep(d, payloads, staged, w);
        StageAllFollows(d1, payloads, With(staged, temp), w);
        var (d2, staged2, _) := StageAll(d1, payloads, |staged| + 1, With(staged, temp), w);
        StagedFurther(d, d1, staged, temp, d2, staged2, w.cleanup);
      }
    }
  }

  /** One round of the staging loop that goes on. */
  lemma StageStep(d: Disk, payloads: seq<Payload>, staged: seq<Path>, w: World)
    requires Wf(d) && |staged| < |payloads| && OnDisk(d, staged) && Holding(d, payloads, staged)
    ensures
      var (d1, temp, ok) := Stage(d, payloads[|staged|], w.stage(|staged|), w.cleanup);
      && (ok ==> temp.Some? && OnDisk(d1, With(staged, temp)) && Holding(d1, payloads, With(staged, temp)))
      && (ok ==> Wf(d1) && Follows(d, d1) && Ours(d) <= Ours(d1))
      && (ok && Tidy(w.cleanup) ==> Ours(d1) == Ours(d) + {temp.value})
  {
    StageFollows(d, payloads[|staged|], w.stage(|staged|), w.cleanup);
    StageExtends(d, payloads, staged, w.stage(|staged|), w.cleanup);
  }

  // ---- Publishing ----

  /** The one way a failed publication leaves its target behind: the copy was created and could not be inspected. */
  predicate Stray(d: Disk, target: Path, f: CommitFaults) {
    var d1 := Others(d, f.others);
    && f.inspected && !(f.linked && target !in d1.files) && f.reopened
    && f.created && target !in Others(d1, f.meanwhile).files && !f.stat
  }

  lemma CommitLinkedFollows(d: Disk, temp: Path, target: Path, f: CommitFaults, c: Cleanup)
    requires Wf(d) && temp in Ours(d) && target !in d.files
    ensures
      var (d', info) := CommitLinked(d, temp, target, f, c);
      && Follows(d, d')
      && (info.Some? ==> target in d'.files && d'.files[target] == info.value && info.value in d'.mine
                         && Content(d', target) == Content(d, temp) && Ours(d') == Ours(d) + {target})
      && (info.None? ==> Ours(d) <= Ours(d') && (Tidy(c) ==> Ours(d') == Ours(d)))
  {
    var inode := d.files[temp];
    var d1 := d.(files := d.files[target := inode]);
    assert Follows(d, d1) && Ours(d1) == Ours(d) + {target};
    RemoveIfSameFollows(d1, target, Some(inode), c);
  }

  lemma CommitCopiedFollows(d: Disk, temp: Path, target: Path, f: CommitFaults, c: Cleanup)
    requires Wf(d) && temp in Ours(d)
    ensures
      var (d', info) := CommitCopied(d, temp, target, f, c);
      && Follows(d, d')
      && (info.Some? ==> target !in Ours(d) && target in d'.files && d'.files[target] == info.value && info.value in d'.mine
                         && Content(d', target) == Content(d, temp) && Ours(d') == Ours(d) + {target})
      && (info.None? ==> Ours(d) <= Ours(d'))
      && (info.None? && Tidy(c) ==> Ours(d') == Ours(d) + (if f.created && target !in d.files && !f.stat then {target} else {}))
  {
    if f.created && target !in d.files {
      var content := if f.stat && f.copied then d.data[d.files[temp]] else [];
      CreateFollows(d, target, content);
      RemoveIfSameFollows(Create(d, target, content), target, Some(d.next), c);
    }
  }

  lemma CommitFollows(d: Disk, temp: Path, target: Path, f: CommitFaults, c: Cleanup)
    requires Wf(d) && temp in Ours(d)
    ensures Follows(d, Commit(d, temp, target, f, c).0)
    ensures
      var (d', info) := Commit(d, temp, target, f, c);
      && (info.Some? ==> target !in Ours(d) && target in d'.files && d'.files[target] == info.value && info.value in d'.mine
                         && Content(d', target) == Content(d, temp) && Ours(d') == Ours(d) + {target})
      && (info.None? ==> Ours(d) <= Ours(d'))
      && (info.None? && Tidy(c) ==> Ours(d') == Ours(d) + (if Stray(d, target, f) then {target} else {}))
  {
    var d1 := Others(d, f.others);
    OthersFollow(d, f.others);
    if f.inspected {
      if f.linked && target !in d1.files {
        CommitLinkedFollows(d1, temp, target, f, c);
        FollowsThrough(d, d1, CommitLinked(d1, temp, target, f, c).0);
      } else if f.reopened {
        var d2 := Others(d1, f.meanwhile);
        OthersFollow(d1, f.meanwhile);
        CommitCopiedFollows(d2, temp, target, f, c);
        FollowsThrough(d1, d2, CommitCopied(d2, temp, target, f, c).0);
        FollowsThrough(d, d1, CommitCopied(d2, temp, target, f, c).0);
      }
    }
  }

  function Paths(committed: seq<(Path, Inode)>): set<Path> { set i | 0 <= i < |committed| :: committed[i].0 }

  /** The targets published so far: on disk under the inode the export recorded, and distinct. */
  ghost predicate Published(d: Disk, committed: seq<(Path, Inode)>) {
    && (forall i :: 0 <= i < |committed| ==>
          committed[i].0 in Ours(d) && d.files[committed[i].0] == committed[i].1 && committed[i].1 in d.mine)
    && (forall i, j :: 0 <= i < j < |committed| ==> committed[i].0 != committed[j].0)
  }

  /** A rollback takes back the published targets and nothing else. */
  lemma {:induction false} RollbackFollows(d: Disk, committed: seq<(Path, Inode)>, c: Cleanup)
    requires Wf(d) && Published(d, committed)
    ensures Follows(d, Rollback(d, committed, c)) && Ours(d) - Paths(committed) <= Ours(Rollback(d, committed, c)) <= Ours(d)
    ensures Tidy(c) ==> Ours(Rollback(d, committed, c)) == Ours(d) - Paths(committed)
    ensures Rollback(d, committed, c).files.Keys <= d.files.Keys
    decreases committed
  {
    if committed != [] {
      var (p, inode) := committed[0];
      var d1 := RemoveIfSame(d, p, Some(inode), c);
      RemoveIfSameFollows(d, p, Some(inode), c);
      assert Ours(d) - {p} <= Ours(d1) <= Ours(d);
      assert Published(d1, committed[1..]) by {
        forall i | 0 <= i < |committed[1..]| ensures committed[1..][i].0 in Ours(d1) {
          assert committed[1..][i] == committed[i + 1];
        }
      }
      RollbackFollows(d1, committed[1..], c);
      FollowsThrough(d, d1, Rollback(d1, committed[1..], c));
      assert Paths(committed) == {p} + Paths(committed[1..]) by {
        assert committed == [committed[0]] + committed[1..];
        forall i | 0 <= i < |committed| ensures committed[i].0 in {p} + Paths(committed[1..]) {
          if i > 0 {
            assert committed[i] == committed[1..][i - 1];
          }
        }
      }
    }
  }

  /** Whether the publication that stops the batch leaves its target behind. */
  predicate LeavesStray(d: Disk, targets: seq<Path>, staged: seq<Path>, i: nat, w: World)
    requires i <= |targets| == |staged|
    decreases |targets| - i
  {
    if i == |targets| then false
    else
      var (d1, info) := Commit(d, staged[i], targets[i], w.commit(i), w.cleanup);
      if info.None? then Stray(d, targets[i], w.commit(i)) else LeavesStray(d1, targets, staged, i + 1, w)
  }

  /** Between two publications: base is what was on disk before the first. */
  ghost predicate Publishing(d: Disk, base: set<Path>, targets: seq<Path>, staged: seq<Path>, committed: seq<(Path, Inode)>) {
    && Wf(d) && OnDisk(d, staged) && Published(d, committed) && |committed| <= |targets| == |staged|
    && Ours(d) == base + Paths(committed) && base !! Paths(committed) && PathSet(staged) <= base
    && (forall i :: 0 <= i < |committed| ==> committed[i].0 == targets[i] && Content(d, targets[i]) == Content(d, staged[i]))
  }

  lemma PathsGrow(committed: seq<(Path, Inode)>, last: (Path, Inode))
    ensures Paths(committed + [last]) == Paths(committed) + {last.0}
  {
    var all := committed + [last];
    assert all[|committed|] == last;
    forall k | 0 <= k < |committed| ensures committed[k].0 in Paths(all) {
      assert all[k] == committed[k];
    }
  }

  /** What the export had on disk before one publication is there after it. */
  lemma CommitKeepsOurs(d: Disk, d1: Disk, staged: seq<Path>, committed: seq<(Path, Inode)>)
    requires Follows(d, d1) && Ours(d) <= Ours(d1) && OnDisk(d, staged) && Published(d, committed)
    ensures OnDisk(d1, staged) && Published(d1, committed)
    ensures forall p :: p in Ours(d) ==> Content(d1, p) == Content(d, p)
  {
    forall p | p in Ours(d) ensures p in d1.files {
      assert p in Ours(d1);
    }
  }

  lemma CommitStep(d: Disk, base: set<Path>, targets: seq<Path>, staged: seq<Path>, committed: seq<(Path, Inode)>, w: World)
    requires Publishing(d, base, targets, staged, committed) && |committed| < |targets|
    ensures
      var i := |committed|;
      var (d1, info) := Commit(d, staged[i], targets[i], w.commit(i), w.cleanup);
      && Follows(d, d1) && Ours(d) <= Ours(d1) && OnDisk(d1, staged) && Published(d1, committed)
      && (forall k :: 0 <= k < |staged| ==> Content(d1, staged[k]) == Content(d, staged[k]))
      && (info.Some? ==> Publishing(d1, base, targets, staged, committed + [(targets[i], info.value)]))
  {
    var i := |committed|;
    var (d1, info) := Commit(d, staged[i], targets[i], w.commit(i), w.cleanup);
    CommitFollows(d, staged[i], targets[i], w.commit(i), w.cleanup);
    CommitKeepsOurs(d, d1, staged, committed);
    if info.Some? {
      PathsGrow(committed, (targets[i], info.value));
      Publishes(d, d1, base, targets, staged, committed, info.value);
    }
  }

  lemma Publishes(d: Disk, d1: Disk, base: set<Path>, targets: seq<Path>, staged: seq<Path>, committed: seq<(Path, Inode)>, inode: Inode)
    requires Publishing(d, base, targets, staged, committed) && |committed| < |targets|
    requires Wf(d1) && OnDisk(d1, staged) && Published(d1, committed)
    requires forall p :: p in Ours(d) ==> Content(d1, p) == Content(d, p)
    requires
      var target := targets[|committed|];
      && target !in Ours(d) && Ours(d1) == Ours(d) + {target} && d1.files[target] == inode && inode in d1.mine
      && Content(d1, target) == Content(d, staged[|committed|])
      && Paths(committed + [(target, inode)]) == Paths(committed) + {target}
    ensures Publishing(d1, base, targets, staged, committed + [(targets[|committed|], inode)])
  {
    var target := targets[|committed|];
    var committed1 := committed + [(target, inode)];
    forall k | 0 <= k < |committed1|
      ensures committed1[k].0 == targets[k] && Content(d1, targets[k]) == Content(d1, staged[k])
    {
      if k < |committed| {
        assert committed1[k] == committed[k] && committed[k].0 in Ours(d) && staged[k] in Ours(d);
      }
    }
    PublishedOneMore(d1, committed, target, inode);
  }

  lemma PublishedOneMore(d: Disk, committed: seq<(Path, Inode)>, target: Path, inode: Inode)
    requires Published(d, committed) && target in Ours(d) && d.files[target] == inode && inode in d.mine
    requires forall k :: 0 <= k < |committed| ==> committed[k].0 != target
    ensures Published(d, committed + [(target, inode)])
  {
  }

  lemma {:induction false} CommitAllFollows(d: Disk, base: set<Path>, targets: seq<Path>, staged: seq<Path>,
                                            committed: seq<(Path, Inode)>, w: World)
    requires Publishing(d, base, targets, staged, committed)
    ensures
      var (d', ok) := CommitAll(d, targets, staged, committed, w);
      && Follows(d, d') && base <= Ours(d')
      && (forall k :: 0 <= k < |staged| ==> Content(d', staged[k]) == Content(d, staged[k]))
      && (ok ==> Ours(d') == base + PathSet(targets) && base !! PathSet(targets)
                 && forall i :: 0 <= i < |targets| ==> Content(d', targets[i]) == Content(d, staged[i]))
    decreases |targets| - |committed|
  {
    var i := |committed|;
    if i == |targets| {
      assert Paths(committed) == PathSet(targets);
    } else {
      var (d1, info) := Commit(d, staged[i], targets[i], w.commit(i), w.cleanup);
      CommitStep(d, base, targets, staged, committed, w);
      if info.Some? {
        CommitAllFollows(d1, base, targets, staged, committed + [(targets[i], info.value)], w);
      } else {
        RollbackFollows(d1, committed, w.cleanup);
      }
    }
  }

  /** A stray target was absent before. */
  lemma StrayIsNew(d: Disk, target: Path, f: CommitFaults)
    requires Wf(d) && Stray(d, target, f)
    ensures target !in Ours(d)
  {
    OthersFollow(d, f.others);
    OthersFollow(Others(d, f.others), f.meanwhile);
  }

  lemma FailedCommitRestores(d: Disk, base: set<Path>, targets: seq<Path>, staged: seq<Path>, committed: seq<(Path, Inode)>, w: World)
    requires Publishing(d, base, targets, staged, committed) && |committed| < |targets| && Tidy(w.cleanup)
    ensures
      var i := |committed|;
      var (d1, info) := Commit(d, staged[i], targets[i], w.commit(i), w.cleanup);
      info.None? ==> (Ours(Rollback(d1, committed, w.cleanup)) == base <==> !Stray(d, targets[i], w.commit(i)))
  {
    var i := |committed|;
    var (d1, info) := Commit(d, staged[i], targets[i], w.commit(i), w.cleanup);
    CommitStep(d, base, targets, staged, committed, w);
    CommitFollows(d, staged[i], targets[i], w.commit(i), w.cleanup);
    if info.None? {
      RollbackFollows(d1, committed, w.cleanup);
      if Stray(d, targets[i], w.commit(i)) {
        StrayIsNew(d, targets[i], w.commit(i));
        assert targets[i] in Ours(Rollback(d1, committed, w.cleanup));
      }
    }
  }

  /** A failed batch leaves everything as it was exactly when it leaves no stray target. */
  ghost predicate Restores(d: Disk, base: set<Path>, targets: seq<Path>, staged: seq<Path>, committed: seq<(Path, Inode)>, w: World)
    requires |committed| <= |targets| == |staged|
  {
    var (end, ok) := CommitAll(d, targets, staged, committed, w);
    !ok ==> (Ours(end) == base <==> !LeavesStray(d, targets, staged, |committed|, w))
  }

  /** One round of the publishing loop: it ends the batch, or the rest of the batch decides. */
  lemma RoundRestores(d: Disk, base: set<Path>, targets: seq<Path>, staged: seq<Path>, committed: seq<(Path, Inode)>, w: World)
    requires Publishing(d, base, targets, staged, committed) && |committed| < |targets| && Tidy(w.cleanup)
    ensures
      var i := |committed|;
      var info := Commit(d, staged[i], targets[i], w.commit(i), w.cleanup).1;
      info.None? ==> Restores(d, base, targets, staged, committed, w)
  {
    FailedCommitRestores(d, base, targets, staged, committed, w);
  }

  lemma RoundGoesOn(d: Disk, base: set<Path>, targets: seq<Path>, staged: seq<Path>, committed: seq<(Path, Inode)>, w: World)
    requires Publishing(d, base, targets, staged, committed) && |committed| < |targets|
    ensures
      var i := |committed|;
      var (d1, info) := Commit(d, staged[i], targets[i], w.commit(i), w.cleanup);
      info.Some? ==>
        && Publishing(d1, base, targets, staged, committed + [(targets[i], info.value)])
        && (Restores(d1, base, targets, staged, committed + [(targets[i], info.value)], w) ==>
              Restores(d, base, targets, staged, committed, w))
  {
    CommitStep(d, base, targets, staged, committed, w);
  }

  /** With a clean-up that works, every batch restores. */
  lemma {:induction false} CommitAllRestores(d: Disk, base: set<Path>, targets: seq<Path>, staged: seq<Path>,
                                             committed: seq<(Path, Inode)>, w: World)
    requires Publishing(d, base, targets, staged, committed) && Tidy(w.cleanup)
    ensures Restores(d, base, targets, staged, committed, w)
    decreases |targets| - |committed|
  {
    if |committed| < |targets| {
      var (d1, info) := Commit(d, staged[|committed|], targets[|committed|], w.commit(|committed|), w.cleanup);
      if info.None? {
        RoundRestores(d, base, targets, staged, committed, w);
      } else {
        RoundGoesOn(d, base, targets, staged, committed, w);
        CommitAllRestores(d1, base, targets, staged, committed + [(targets[|committed|], info.value)], w);
      }
    }
  }

  // ---- The whole export ----

  lemma {:induction false} UnstageFollows(d: Disk, staged: seq<Path>, c: Cleanup)
    requires Wf(d) && OnDisk(d, staged)
    ensures Follows(d, Unstage(d, staged, c)) && Ours(d) - PathSet(staged) <= Ours(Unstage(d, staged, c)) <= Ours(d)
    ensures Tidy(c) ==> Ours(Unstage(d, staged, c)) == Ours(d) - PathSet(staged)
    ensures Unstage(d, staged, c).files.Keys <= d.files.Keys
    decreases staged
  {
    if staged != [] {
      var d1 := Remove(d, staged[0], c);
      RemoveFollows(d, staged[0], c);
      assert OnDisk(d1, staged[1..]);
      UnstageFollows(d1, staged[1..], c);
      FollowsThrough(d, d1, Unstage(d1, staged[1..], c));
      assert PathSet(staged) == {staged[0]} + PathSet(staged[1..]) by {
        assert staged == [staged[0]] + staged[1..];
      }
    }
  }

  /** What the export knows once everything is staged, on a disk where nothing was its own before. */
  lemma StagedState(d0: Disk, payloads: seq<Payload>, targets: seq<Path>, w: World)
    requires Wf(d0) && Ours(d0) == {}
    ensures
      var (d1, staged, ok) := StageAll(d0, payloads, 0, [], w);
      && Follows(d0, d1) && OnDisk(d1, staged)
      && (Tidy(w.cleanup) ==> Ours(d1) == PathSet(staged))
      && (ok ==> Holding(d1, payloads, staged) && |staged| == |payloads|)
      && (ok && |targets| == |staged| ==> Publishing(d1, Ours(d1), targets, staged, []))
  {
    StageAllFollows(d0, payloads, [], w);
    var (d1, staged, ok) := StageAll(d0, payloads, 0, [], w);
    assert PathSet(staged) <= Ours(d1);
  }

  /** Whether a failure left a stray target, as decided by the publication that failed. */
  predicate SaveLeavesStray(d: Disk, targets: seq<Path>, payloads: seq<Payload>, w: World) {
    var d0 := Others(d, w.others);
    var (d1, staged, ok) := StageAll(d0, payloads, 0, [], w);
    targets != [] && |targets| == |payloads| && Absent(d0, targets, w.inspect) && ok && |staged| == |targets|
    && LeavesStray(d1, targets, staged, 0, w)
  }

  /** What other processes have on disk, before or during the export, is never overwritten or removed, whatever fails. */
  lemma ForeignFilesAreKept(d: Disk, targets: seq<Path>, payloads: seq<Payload>, w: World)
    requires Wf(d) && Ours(d) == {}
    ensures Wf(Save(d, targets, payloads, w).0)
    ensures forall p :: p in d.theirs ==> p in Save(d, targets, payloads, w).0.theirs && Save(d, targets, payloads, w).0.theirs[p] == d.theirs[p]
  {
    if targets != [] && |targets| == |payloads| {
      var d0 := Others(d, w.others);
      OthersFollow(d, w.others);
      if Absent(d0, targets, w.inspect) {
        StagedState(d0, payloads, targets, w);
        var (d1, staged, ok) := StageAll(d0, payloads, 0, [], w);
        if !ok || |staged| != |targets| {
          UnstageFollows(d1, staged, w.cleanup);
        } else {
          PublishedState(d1, targets, staged, w);
          UnstageFollows(CommitAll(d1, targets, staged, [], w).0, staged, w.cleanup);
        }
      }
    }
  }

  lemma PublishedState(d1: Disk, targets: seq<Path>, staged: seq<Path>, w: World)
    requires |targets| == |staged| && Publishing(d1, Ours(d1), targets, staged, [])
    ensures Follows(d1, CommitAll(d1, targets, staged, [], w).0) && OnDisk(CommitAll(d1, targets, staged, [], w).0, staged)
  {
    CommitAllFollows(d1, Ours(d1), targets, staged, [], w);
  }

  /**
   A failure puts every path back and leaves no staged file, provided the clean-up works, exactly when it does not
   stop at a copied target it created but could not inspect.
   */
  lemma FailureRestoresExactly(d: Disk, targets: seq<Path>, payloads: seq<Payload>, w: World)
    requires Wf(d) && Ours(d) == {} && Tidy(w.cleanup) && !Save(d, targets, payloads, w).1
    ensures Ours(Save(d, targets, payloads, w).0) == {} <==> !SaveLeavesStray(d, targets, payloads, w)
  {
    if targets != [] && |targets| == |payloads| {
      var d0 := Others(d, w.others);
      OthersFollow(d, w.others);
      if Absent(d0, targets, w.inspect) {
        StagedState(d0, payloads, targets, w);
        var (d1, staged, ok) := StageAll(d0, payloads, 0, [], w);
        if !ok || |staged| != |targets| {
          UnstageFollows(d1, staged, w.cleanup);
        } else {
          FailureAfterStaging(d1, targets, staged, w);
        }
      }
    }
  }

  lemma FailureAfterStaging(d1: Disk, targets: seq<Path>, staged: seq<Path>, w: World)
    requires |targets| == |staged| && Publishing(d1, Ours(d1), targets, staged, []) && Ours(d1) == PathSet(staged)
    requires Tidy(w.cleanup) && !CommitAll(d1, targets, staged, [], w).1
    ensures Ours(Unstage(CommitAll(d1, targets, staged, [], w).0, staged, w.cleanup)) == {} <==> !LeavesStray(d1, targets, staged, 0, w)
  {
    PublishedState(d1, targets, staged, w);
    CommitAllRestores(d1, Ours(d1), targets, staged, [], w);
    UnstageEmpties(CommitAll(d1, targets, staged, [], w).0, staged, w.cleanup);
  }

  lemma UnstageEmpties(d: Disk, staged: seq<Path>, c: Cleanup)
    requires Wf(d) && OnDisk(d, staged) && Tidy(c)
    ensures Ours(Unstage(d, staged, c)) == {} <==> Ours(d) == PathSet(staged)
  {
    UnstageFollows(d, staged, c);
    assert PathSet(staged) <= Ours(d);
  }

  /** Success adds exactly the targets, each with its payload, none of them a path anyone else had. */
  lemma SuccessAddsExactlyTargets(d: Disk, targets: seq<Path>, payloads: seq<Payload>, w: World)
    requires Wf(d) && Ours(d) == {} && Save(d, targets, payloads, w).1
    ensures
      var d' := Save(d, targets, payloads, w).0;
      && |targets| == |payloads| && (forall i :: 0 <= i < |targets| ==> targets[i] in d'.files && Content(d', targets[i]) == payloads[i])
      && PathSet(targets) !! d'.theirs.Keys
      && (Tidy(w.cleanup) ==> d'.files.Keys == d'.theirs.Keys + PathSet(targets))
  {
    var d0 := Others(d, w.others);
    OthersFollow(d, w.others);
    StagedState(d0, payloads, targets, w);
    var (d1, staged, _) := StageAll(d0, payloads, 0, [], w);
    SuccessAfterStaging(d1, targets, payloads, staged, w);
  }

  lemma SuccessAfterStaging(d1: Disk, targets: seq<Path>, payloads: seq<Payload>, staged: seq<Path>, w: World)
    requires |targets| == |staged| == |payloads| && Publishing(d1, Ours(d1), targets, staged, []) && Holding(d1, payloads, staged)
    requires CommitAll(d1, targets, staged, [], w).1
    ensures
      var d' := Unstage(CommitAll(d1, targets, staged, [], w).0, staged, w.cleanup);
      && (forall i :: 0 <= i < |targets| ==> targets[i] in Ours(d') && Content(d', targets[i]) == payloads[i])
      && (Tidy(w.cleanup) && Ours(d1) == PathSet(staged) ==> Ours(d') == PathSet(targets))
      && Wf(d')
  {
    var d2 := CommitAll(d1, targets, staged, [], w).0;
    PublishedState(d1, targets, staged, w);
    CommitAllFollows(d1, Ours(d1), targets, staged, [], w);
    UnstageFollows(d2, staged, w.cleanup);
    forall i | 0 <= i < |targets| ensures targets[i] in Ours(Unstage(d2, staged, w.cleanup)) {
      assert targets[i] in PathSet(targets) && targets[i] in Ours(d2);
      assert targets[i] !in PathSet(staged);
    }
  }

  /** A first target that no link can reach, and whose copy cannot be inspected, stays behind. */
  lemma UninspectedCopyStays(target: Path, payload: Payload, temp: Path, w: World)
    requires target != temp && Tidy(w.cleanup) && w.others == [] && w.inspect(target)
    requires w.stage(0) == StageFaults(true, [], [temp], true, true, true)
    requires w.commit(0) == CommitFaults([], true, false, true, true, [], true, false, true)
    ensures !Save(Disk(map[], map[], map[], {}, 0), [target], [payload], w).1
    ensures Save(Disk(map[], map[], map[], {}, 0), [target], [payload], w).0.files.Keys == {target}
  {
    var d := Disk(map[], map[], map[], {}, 0);
    var d1 := Create(d, temp, payload);
    assert FreeName(d, [temp], TEMP_ATTEMPTS) == Some(temp);
    assert Stage(d, payload, w.stage(0), w.cleanup) == (d1, Some(temp), true);
    assert StageAll(d1, [payload], 1, [temp], w) == (d1, [temp], true);
    assert [] + [temp] == [temp];
    assert StageAll(d, [payload], 0, [], w) == (d1, [temp], true);
    var d2 := Create(d1, target, []);
    assert Commit(d1, temp, target, w.commit(0), w.cleanup) == (d2, None);
    assert CommitAll(d1, [target], [temp], [], w) == (d2, false);
    assert Unstage(d2, [temp], w.cleanup) == Unstage(Remove(d2, temp, w.cleanup), [], w.cleanup);
  }

  // ---- When an export succeeds ----

  /** Every file has content. */
  ghost predicate HasData(d: Disk) { forall p :: p in d.files ==> d.files[p] in d.data }

  predicate Avoids(activity: Activity, reserved: set<Path>) { forall i :: 0 <= i < |activity| ==> activity[i].0 !in reserved }

  lemma {:induction false} OthersAvoid(d: Disk, activity: Activity, reserved: set<Path>)
    requires HasData(d) && Avoids(activity, reserved)
    ensures HasData(Others(d, activity)) && d.files.Keys <= Others(d, activity).files.Keys
    ensures forall p :: p in reserved && p in Others(d, activity).files ==> p in d.files
    decreases activity
  {
    if activity != [] {
      var (p, content) := activity[0];
      OthersAvoid(if p in d.files then d else Adopt(d, p, content), activity[1..], reserved);
    }
  }

  lemma {:induction false} FreeNameExactly(d: Disk, names: seq<Path>, attempts: nat)
    ensures FreeName(d, names, attempts).Some? <==> exists i :: 0 <= i < |names| && i < attempts && names[i] !in d.files
  {
    if attempts > 0 && names != [] && names[0] in d.files {
      FreeNameExactly(d, names[1..], attempts - 1);
      assert forall i :: 1 <= i < |names| ==> names[i] == names[1..][i - 1];
      if exists i :: 0 <= i < |names| && i < attempts && names[i] !in d.files {
        var i :| 0 <= i < |names| && i < attempts && names[i] !in d.files;
        assert names[1..][i - 1] !in d.files;
      }
    }
  }

  /** Staging succeeds exactly when none of its operations fails and one of the first hundred names is free. */
  lemma StageSucceedsExactly(d: Disk, payload: Payload, f: StageFaults, c: Cleanup)
    ensures Stage(d, payload, f, c).2 <==>
      && f.payload && f.created && f.prepared && f.written
      && exists i :: 0 <= i < |f.names| && i < TEMP_ATTEMPTS && f.names[i] !in Others(d, f.others).files
  {
    FreeNameExactly(Others(d, f.others), f.names, TEMP_ATTEMPTS);
  }

  /** Publishing succeeds exactly when a link to an absent target works and checks, or else an exclusive copy does. */
  lemma CommitSucceedsExactly(d: Disk, temp: Path, target: Path, f: CommitFaults, c: Cleanup)
    requires HasData(d) && temp in d.files
    ensures
      var d1 := Others(d, f.others);
      Commit(d, temp, target, f, c).1.Some? <==>
        && f.inspected
        && if f.linked && target !in d1.files then f.checked
           else f.reopened && f.created && f.stat && f.copied && target !in Others(d1, f.meanwhile).files
  {
    OthersAvoid(d, f.others, {});
    OthersAvoid(Others(d, f.others), f.meanwhile, {});
  }

  function FirstNames(n: nat, w: World): seq<Path>
    requires forall i :: 0 <= i < n ==> w.stage(i).names != []
  {
    seq(n, (i: nat) requires i < n && w.stage(i).names != [] => w.stage(i).names[0])
  }

  predicate StagesWell(f: StageFaults, reserved: set<Path>) {
    f.payload && f.created && f.prepared && f.written && f.names != [] && Avoids(f.others, reserved)
  }

  predicate CommitsWell(f: CommitFaults, reserved: set<Path>) {
    && f.inspected && (if f.linked then f.checked else f.reopened && f.created && f.stat && f.copied)
    && Avoids(f.others, reserved) && Avoids(f.meanwhile, reserved)
  }

  /** Nothing fails, and nobody else uses a target or the name a payload is staged under. */
  ghost predicate GoesWell(d: Disk, targets: seq<Path>, w: World) {
    && (forall i :: 0 <= i < |targets| ==> w.inspect(targets[i]) && w.stage(i).names != [])
    && var all := targets + FirstNames(|targets|, w);
    && Distinct(all) && Avoids(w.others, PathSet(all)) && (forall k :: 0 <= k < |all| ==> all[k] !in d.files)
    && (forall i :: 0 <= i < |targets| ==> StagesWell(w.stage(i), PathSet(all)) && CommitsWell(w.commit(i), PathSet(all)))
  }

  /** The reserved paths from number n on, counting names before targets, are still free. */
  ghost predicate StillFree(d: Disk, names: seq<Path>, targets: seq<Path>, staged: nat, published: nat) {
    && HasData(d)
    && (forall k :: 0 <= k < |names| ==> (k < staged <==> names[k] in d.files))
    && (forall k :: 0 <= k < |targets| ==> (k < published <==> targets[k] in d.files))
  }

  lemma StageGoesWell(d: Disk, payload: Payload, f: StageFaults, c: Cleanup, names: seq<Path>, targets: seq<Path>, i: nat)
    requires i < |names| && StagesWell(f, PathSet(targets + names)) && f.names[0] == names[i] && Distinct(targets + names)
    requires StillFree(d, names, targets, i, 0)
    ensures
      var (d', temp, ok) := Stage(d, payload, f, c);
      ok && temp == Some(names[i]) && StillFree(d', names, targets, i + 1, 0)
  {
    var all := targets + names;
    var d1 := Others(d, f.others);
    OthersAvoid(d, f.others, PathSet(all));
    assert forall k :: 0 <= k < |names| ==> names[k] == all[|targets| + k] && names[k] in PathSet(all);
    assert forall k :: 0 <= k < |targets| ==> targets[k] == all[k] && targets[k] in PathSet(all);
    assert FreeName(d1, f.names, TEMP_ATTEMPTS) == Some(names[i]);
  }

  lemma {:induction false} StagingGoesWell(d: Disk, targets: seq<Path>, payloads: seq<Payload>, names: seq<Path>, i: nat, w: World)
    requires |targets| == |payloads| == |names| && i <= |names| && Distinct(targets + names)
    requires forall k :: 0 <= k < |names| ==> StagesWell(w.stage(k), PathSet(targets + names)) && w.stage(k).names[0] == names[k]
    requires StillFree(d, names, targets, i, 0)
    ensures
      var (d', staged, ok) := StageAll(d, payloads, i, names[..i], w);
      ok && staged == names && StillFree(d', names, targets, |names|, 0)
    decreases |names| - i
  {
    if i == |names| {
      assert names[..i] == names;
    } else {
      StageGoesWell(d, payloads[i], w.stage(i), w.cleanup, names, targets, i);
      assert names[..i] + [names[i]] == names[..i + 1];
      StagingGoesWell(Stage(d, payloads[i], w.stage(i), w.cleanup).0, targets, payloads, names, i + 1, w);
    }
  }

  lemma CommitGoesWell(d: Disk, f: CommitFaults, c: Cleanup, names: seq<Path>, targets: seq<Path>, i: nat)
    requires i < |names| == |targets| && CommitsWell(f, PathSet(targets + names)) && Distinct(targets + names)
    requires StillFree(d, names, targets, |names|, i)
    ensures
      var (d', info) := Commit(d, names[i], targets[i], f, c);
      info.Some? && StillFree(d', names, targets, |names|, i + 1)
  {
    var all := targets + names;
    var d1 := Others(d, f.others);
    OthersAvoid(d, f.others, PathSet(all));
    OthersAvoid(d1, f.meanwhile, PathSet(all));
    assert forall k :: 0 <= k < |names| ==> names[k] == all[|targets| + k] && names[k] in PathSet(all);
    assert forall k :: 0 <= k < |targets| ==> targets[k] == all[k] && targets[k] in PathSet(all);
  }

  lemma {:induction false} PublishingGoesWell(d: Disk, targets: seq<Path>, names: seq<Path>, committed: seq<(Path, Inode)>, w: World)
    requires |committed| <= |targets| == |names| && Distinct(targets + names)
    requires forall k :: 0 <= k < |names| ==> CommitsWell(w.commit(k), PathSet(targets + names))
    requires StillFree(d, names, targets, |names|, |committed|)
    ensures CommitAll(d, targets, names, committed, w).1
    decreases |targets| - |committed|
  {
    var i := |committed|;
    if i < |targets| {
      CommitGoesWell(d, w.commit(i), w.cleanup, names, targets, i);
      var (d1, info) := Commit(d, names[i], targets[i], w.commit(i), w.cleanup);
      PublishingGoesWell(d1, targets, names, committed + [(targets[i], info.value)], w);
    }
  }

  /** Both loops begin with every reserved path free. */
  lemma StartsFree(d: Disk, targets: seq<Path>, w: World)
    requires HasData(d) && GoesWell(d, targets, w)
    ensures
      var d0 := Others(d, w.others);
      Absent(d0, targets, w.inspect) && StillFree(d0, FirstNames(|targets|, w), targets, 0, 0)
  {
    var names := FirstNames(|targets|, w);
    var all := targets + names;
    OthersAvoid(d, w.others, PathSet(all));
    forall k | 0 <= k < |names| ensures names[k] !in Others(d, w.others).files {
      assert names[k] == all[|targets| + k] && names[k] in PathSet(all);
    }
    forall k | 0 <= k < |targets| ensures targets[k] !in Others(d, w.others).files {
      assert targets[k] == all[k] && targets[k] in PathSet(all);
    }
  }

  /** When no operation fails and nobody uses the paths of the export, it succeeds, whatever else others create. */
  lemma FaultlessSaveSucceeds(d: Disk, targets: seq<Path>, payloads: seq<Payload>, w: World)
    requires HasData(d) && targets != [] && |targets| == |payloads| && GoesWell(d, targets, w)
    ensures Save(d, targets, payloads, w).1
  {
    var names := FirstNames(|targets|, w);
    var d0 := Others(d, w.others);
    StartsFree(d, targets, w);
    assert names[..0] == [];
    StagingGoesWell(d0, targets, payloads, names, 0, w);
    PublishingGoesWell(StageAll(d0, payloads, 0, [], w).0, targets, names, [], w);
  }

  // ---- The file system ----

  class FileSystem {
    var files: map<Path, Inode>
    var data: map<Inode, Payload>
    ghost var theirs: map<Path, Foreign>
    ghost var mine: set<Inode>
    var next: Inode

    ghost function Abs(): Disk
      reads this
    {
      Disk(files, data, theirs, mine, next)
    }

    constructor ()
      ensures Abs() == Disk(map[], map[], map[], {}, 0)
    {
      files, data, theirs, mine, next := map[], map[], map[], {}, 0;
    }

    /** What other processes do between two operations of the export. */
    method LetOthersRun(activity: Activity)
      modifies this
      ensures Abs() == Others(old(Abs()), activity)
    {
      var i := 0;
      assert activity[0..] == activity;
      while i < |activity|
        invariant 0 <= i <= |activity|
        invariant Others(Abs(), activity[i..]) == Others(old(Abs()), activity)
      {
        assert activity[i..][1..] == activity[i + 1..];
        if activity[i].0 !in files {
          CreateForeign(activity[i].0, activity[i].1);
        }
        i := i + 1;
      }
    }

    method CreateForeign(p: Path, content: Payload)
      modifies this
      ensures Abs() == Adopt(old(Abs()), p, content)
    {
      files, data := files[p := next], data[next := content];
      theirs := theirs[p := Foreign(next, content)];
      next := next + 1;
    }

    method CreateExclusive(p: Path, content: Payload)
      modifies this
      ensures Abs() == Create(old(Abs()), p, content)
    {
      files, data, mine := files[p := next], data[next := content], mine + {next};
      next := next + 1;
    }

    method RemovePath(p: Path, c: Cleanup)
      modifies this
      ensures Abs() == Remove(old(Abs()), p, c)
    {
      if c.remove(p) {
        files := files - {p};
      }
    }

    method RemoveExportFileIfSame(p: Path, info: Option<Inode>, c: Cleanup)
      modifies this
      ensures Abs() == RemoveIfSame(old(Abs()), p, info, c)
    {
      if info.None? {
        return;
      }
      if c.inspect(p) && p in files && files[p] == info.value {
        RemovePath(p, c);
      }
    }

    method CreateExportTempFile(f: StageFaults) returns (name: Option<Path>)
      ensures name == FreeName(Abs(), f.names, TEMP_ATTEMPTS)
    {
      var i := 0;
      assert f.names[0..] == f.names;
      while i < TEMP_ATTEMPTS && i < |f.names|
        invariant 0 <= i <= TEMP_ATTEMPTS && i <= |f.names|
        invariant FreeName(Abs(), f.names, TEMP_ATTEMPTS) == FreeName(Abs(), f.names[i..], TEMP_ATTEMPTS - i)
      {
        assert f.names[i..][1..] == f.names[i + 1..];
        if f.names[i] !in files {
          return Some(f.names[i]);
        }
        i := i + 1;
      }
      return None;
    }

    method StageExportFile(payload: Payload, f: StageFaults, c: Cleanup) returns (temp: Option<Path>, ok: bool)
      modifies this
      ensures (Abs(), temp, ok) == Stage(old(Abs()), payload, f, c)
    {
      if !f.payload {
        return None, false;
      }
      LetOthersRun(f.others);
      var name := CreateExportTempFile(f);
      if name.None? || !f.created {
        return None, false;
      }
      if !f.prepared {
        CreateExclusive(name.value, []);
        RemovePath(name.value, c);
        return None, false;
      }
      CreateExclusive(name.value, if f.written then payload else []);
      return name, f.written;
    }

    method CommitStagedExportFile(temp: Path, target: Path, f: CommitFaults, c: Cleanup) returns (info: Option<Inode>)
      modifies this
      ensures (Abs(), info) == Commit(old(Abs()), temp, target, f, c)
    {
      LetOthersRun(f.others);
      if !f.inspected || temp !in files {
        return None;
      }
      if f.linked && target !in files {
        var inode := files[temp];
        files := files[target := inode];
        if !f.checked {
          RemoveExportFileIfSame(target, Some(inode), c);
          return None;
        }
        return Some(inode);
      }
      if !f.reopened {
        return None;
      }
      LetOthersRun(f.meanwhile);
      info := CopyToExclusive(temp, target, f, c);
    }

    method CopyToExclusive(temp: Path, target: Path, f: CommitFaults, c: Cleanup) returns (info: Option<Inode>)
      modifies this
      ensures (Abs(), info) == CommitCopied(old(Abs()), temp, target, f, c)
    {
      if !f.created || target in files || temp !in files || files[temp] !in data {
        return None;
      }
      var inode := next;
      CreateExclusive(target, if f.stat && f.copied then data[files[temp]] else []);
      if !f.stat {
        RemoveExportFileIfSame(target, None, c);
        return None;
      }
      if !f.copied {
        RemoveExportFileIfSame(target, Some(inode), c);
        return None;
      }
      return Some(inode);
    }

    method RollbackCommitted(committed: seq<(Path, Inode)>, c: Cleanup)
      modifies this
      ensures Abs() == Rollback(old(Abs()), committed, c)
    {
      var i := 0;
      assert committed[0..] == committed;
      while i < |committed|
        invariant 0 <= i <= |committed|
        invariant Rollback(Abs(), committed[i..], c) == Rollback(old(Abs()), committed, c)
      {
        assert committed[i..][1..] == committed[i + 1..];
        RemoveExportFileIfSame(committed[i].0, Some(committed[i].1), c);
        i := i + 1;
      }
    }

    method RemoveStaged(staged: seq<Path>, c: Cleanup)
      modifies this
      ensures Abs() == Unstage(old(Abs()), staged, c)
    {
      var i := 0;
      assert staged[0..] == staged;
      while i < |staged|
        invariant 0 <= i <= |staged|
        invariant Unstage(Abs(), staged[i..], c) == Unstage(old(Abs()), staged, c)
      {
        assert staged[i..][1..] == staged[i + 1..];
        RemovePath(staged[i], c);
        i := i + 1;
      }
    }

    method StagePayloads(payloads: seq<Payload>, w: World) returns (staged: seq<Path>, ok: bool)
      modifies this
      ensures (Abs(), staged, ok) == StageAll(old(Abs()), payloads, 0, [], w)
    {
      staged := [];
      var i := 0;
      while i < |payloads|
        invariant 0 <= i <= |payloads|
        invariant StageAll(Abs(), payloads, i, staged, w) == StageAll(old(Abs()), payloads, 0, [], w)
      {
        var temp, staging := StageExportFile(payloads[i], w.stage(i), w.cleanup);
        if temp.Some? {
          staged := staged + [temp.value];
        }
        if !staging {
          return staged, false;
        }
        i := i + 1;
      }
      ok := true;
    }

    method CommitStaged(targets: seq<Path>, staged: seq<Path>, w: World) returns (ok: bool)
      requires |targets| == |staged|
      modifies this
      ensures (Abs(), ok) == CommitAll(old(Abs()), targets, staged, [], w)
    {
      var committed: seq<(Path, Inode)> := [];
      while |committed| < |targets|
        invariant |committed| <= |targets|
        invariant CommitAll(Abs(), targets, staged, committed, w) == CommitAll(old(Abs()), targets, staged, [], w)
        decreases |targets| - |committed|
      {
        var i := |committed|;
        var info := CommitStagedExportFile(staged[i], targets[i], w.commit(i), w.cleanup);
        if info.None? {
          RollbackCommitted(committed, w.cleanup);
          return false;
        }
        committed := committed + [(targets[i], info.value)];
      }
      ok := true;
    }

    method SaveExclusiveExportPayloads(targets: seq<Path>, payloads: seq<Payload>, w: World) returns (ok: bool)
      modifies this
      ensures (Abs(), ok) == Save(old(Abs()), targets, payloads, w)
    {
      if |targets| == 0 || |targets| != |payloads| {
        return false;
      }
      LetOthersRun(w.others);
      var i := 0;
      while i < |targets|
        invariant 0 <= i <= |targets|
        invariant forall t :: t in targets[..i] ==> w.inspect(t) && t !in files
      {
        if targets[i] in files || !w.inspect(targets[i]) {
          return false;
        }
        i := i + 1;
      }
      var staged, staging := StagePayloads(payloads, w);
      if staging && |staged| == |targets| {
        ok := CommitStaged(targets, staged, w);
      } else {
        ok := false;
      }
      RemoveStaged(staged, w.cleanup);
    }
  }
}

/**
 * The event normaliser of pkg/notify: which directories to watch, which raw
 * filesystem notifications count as a file update, and the per-path table of
 * the times of accepted updates.
 */
module Notify {
  import opened Wrappers
  import opened Probes
  import opened Paths

  /** Nanoseconds per millisecond: periods are configured in ms, times are in ns. */
  const Millisecond: int := 1000000

  /** The settings New gives every notifier, in milliseconds. */
  const DefaultPendingPeriod: int := 100
  const DefaultRegardRenameAsModPeriod: int := 1000

  /** One bit of fsnotify's operation mask. */
  datatype OpBit = Create | Write | Remove | Rename | Chmod

  /** An fsnotify operation mask; comparing two masks with `==` is exact. */
  type Op = set<OpBit>

  /** A logical update event: the cleaned path and the time it was accepted. */
  datatype Event = Event(name: string, time: int)

  /** Why New returns no notifier. */
  datatype NewError = WatcherFailed | TooManyWatchDirs

  /** A Go map read: a path never stored reads as 0. */
  function StoredTime(times: map<string, int>, path: string): int
  {
    if path in times then times[path] else 0
  }

  // ---------------------------------------------------------------------------
  // Classification of one raw event (shouldExecute)
  // ---------------------------------------------------------------------------

  /**
   * Whether a raw event on a path is a logical update. `isFile` and
   * `modifiedTime` are what the filesystem reports for the path, `now` the
   * clock, `lastExecutionTime` the time stored for the path.
   */
  function ShouldExecute(op: Op, isFile: bool, modifiedTime: int, now: int, lastExecutionTime: int,
                         pendingPeriod: int, regardRenameAsModPeriod: int, detectCreate: bool): (accept: bool)
    // only a plain Write, a plain Rename, or a plain Create while create detection is on
    ensures accept ==> op == {Write} || op == {Rename} || (detectCreate && op == {Create})
    // never anything but a regular file
    ensures accept ==> isFile
    // writes and creates are coalesced: a file must have changed pendingPeriod after the last update
    ensures isFile && (op == {Write} || (detectCreate && op == {Create})) ==>
              (accept <==> modifiedTime - lastExecutionTime >= pendingPeriod * Millisecond)
    // a rename is an update only right after the file was written; the stored time plays no part
    ensures isFile && op == {Rename} ==>
              (accept <==> now - modifiedTime <= regardRenameAsModPeriod * Millisecond)
  {
    if op != {Write} && op != {Rename} && !(detectCreate && op == {Create}) then false
    else if !isFile then false
    else if (op == {Write} || op == {Create}) && modifiedTime - lastExecutionTime < pendingPeriod * Millisecond then false
    else if op == {Rename} && now - modifiedTime > regardRenameAsModPeriod * Millisecond then false
    else true
  }

  // ---------------------------------------------------------------------------
  // The literal directory prefix of a pattern (findRealDirectory)
  // ---------------------------------------------------------------------------

  /** The number of leading path segments that contain no glob metacharacter. */
  function LiteralRun(entries: seq<string>): (k: nat)
    ensures k <= |entries|
  {
    if entries == [] || HasGlobMeta(entries[0]) then 0 else 1 + LiteralRun(entries[1..])
  }

  /** The literal run is the longest prefix of segments without a metacharacter. */
  lemma {:induction false} LiteralRunIsLongest(entries: seq<string>)
    ensures forall i :: 0 <= i < LiteralRun(entries) ==> !HasGlobMeta(entries[i])
    ensures LiteralRun(entries) < |entries| ==> HasGlobMeta(entries[LiteralRun(entries)])
    decreases |entries|
  {
    if entries != [] && !HasGlobMeta(entries[0]) {
      LiteralRunIsLongest(entries[1..]);
      assert forall i :: 1 <= i < |entries| ==> entries[i] == entries[1..][i - 1];
    }
  }

  /** The segments of a cleaned path, split on the separator. */
  function Segments(path: string, paths: PathLib): seq<string>
  {
    Split(paths.clean(path), Separator)
  }

  /**
   * The path findRealDirectory tries: every literal leading segment followed by a
   * separator, with one trailing separator trimmed.
   */
  function RealDirectoryCandidate(path: string, paths: PathLib): string
  {
    var entries := Segments(path, paths);
    TrimSuffix(Terminated(entries[..LiteralRun(entries)], Separator), [Separator])
  }

  /** The candidate is the join of the literal leading segments, and so a prefix of the cleaned path. */
  lemma CandidateIsLiteralPrefix(path: string, paths: PathLib)
    ensures var entries := Segments(path, paths);
            RealDirectoryCandidate(path, paths) == Join(entries[..LiteralRun(entries)], Separator)
    ensures RealDirectoryCandidate(path, paths) <= paths.clean(path)
  {
    var entries := Segments(path, paths);
    var k := LiteralRun(entries);
    SplitJoin(paths.clean(path), Separator);
    JoinPrefix(entries, k, Separator);
    assert entries[..|entries|] == entries;
    if k > 0 {
      TerminatedIsJoin(entries[..k], Separator);
      var built := Terminated(entries[..k], Separator);
      assert built[..|built| - 1] == Join(entries[..k], Separator);
    }
  }

  /** What findRealDirectory returns: the candidate if it is an existing directory, else "". */
  function RealDirectory(path: string, fs: FileSystem, paths: PathLib): string
  {
    var candidate := RealDirectoryCandidate(path, paths);
    if fs.isDir(candidate) then candidate else ""
  }

  /** findRealDirectory: builds the literal prefix segment by segment, then probes it. */
  method FindRealDirectory(path: string, fs: FileSystem, paths: PathLib) returns (r: string)
    ensures r == RealDirectory(path, fs, paths)
    ensures r == "" || (fs.isDir(r) && r <= paths.clean(path))
  {
    var entries := Split(paths.clean(path), Separator);
    var currentPath := "";
    var i := 0;
    while i < |entries|
      invariant i <= |entries|
      invariant forall j :: 0 <= j < i ==> !HasGlobMeta(entries[j])
      invariant currentPath == Terminated(entries[..i], Separator)
    {
      if HasGlobMeta(entries[i]) {
        break;
      }
      assert entries[..i + 1][..i] == entries[..i];
      currentPath := currentPath + entries[i] + [Separator];
      i := i + 1;
    }
    LiteralRunIsLongest(entries);
    assert i == LiteralRun(entries);
    CandidateIsLiteralPrefix(path, paths);
    currentPath := TrimSuffix(currentPath, [Separator]);
    if fs.isDir(currentPath) {
      r := currentPath;
    } else {
      r := "";
    }
  }

  // ---------------------------------------------------------------------------
  // The watch directories of a pattern list (findDirs)
  // ---------------------------------------------------------------------------

  predicate NoDuplicates(s: seq<string>)
  {
    forall i, j :: 0 <= i < j < |s| ==> s[i] != s[j]
  }

  /** uniq's Add: appends a value the list does not hold yet. */
  function Insert(targets: seq<string>, d: string): seq<string>
  {
    if d in targets then targets else targets + [d]
  }

  /** Adds every value of `ds`, in order. */
  function InsertAll(targets: seq<string>, ds: seq<string>): seq<string>
    decreases |ds|
  {
    if ds == [] then targets else Insert(InsertAll(targets, ds[..|ds| - 1]), ds[|ds| - 1])
  }

  /**
   * The three batches findDirs adds for one pattern, in order: the literal
   * directory of the pattern's parent if it is non-empty, the directories found
   * for the pattern, and the directories found for its parent.
   */
  function PatternBatches(pattern: string, fs: FileSystem, paths: PathLib): seq<seq<string>>
  {
    var patternDir := paths.dir(pattern);
    var realDir := RealDirectory(patternDir, fs, paths);
    [if |realDir| > 0 then [realDir] else [], fs.findDirs(pattern), fs.findDirs(patternDir)]
  }

  function Batches(patterns: seq<string>, fs: FileSystem, paths: PathLib): seq<seq<string>>
  {
    if patterns == [] then [] else PatternBatches(patterns[0], fs, paths) + Batches(patterns[1..], fs, paths)
  }

  function Flatten(batches: seq<seq<string>>): seq<string>
  {
    if batches == [] then [] else batches[0] + Flatten(batches[1..])
  }

  /** Adds batch after batch, stopping after the first batch that leaves more than the cap. */
  function Accumulate(targets: seq<string>, batches: seq<seq<string>>, maxWatchDirs: nat): seq<string>
    decreases |batches|
  {
    if batches == [] then targets
    else
      var next := InsertAll(targets, batches[0]);
      if |next| > maxWatchDirs then next else Accumulate(next, batches[1..], maxWatchDirs)
  }

  /** Every candidate directory for the patterns, without duplicates, in first-seen order. */
  function AllWatchDirs(patterns: seq<string>, fs: FileSystem, paths: PathLib): seq<string>
  {
    InsertAll([], Flatten(Batches(patterns, fs, paths)))
  }

  /**
   * What findDirs returns. It has no duplicates and lists directories in the
   * order first found; it is a prefix of the full list, and differs from it only
   * when it is over the cap, so it is over the cap exactly when the full list is.
   */
  function FindDirsResult(patterns: seq<string>, maxWatchDirs: nat, fs: FileSystem, paths: PathLib): (targets: seq<string>)
    ensures NoDuplicates(targets)
    ensures targets <= AllWatchDirs(patterns, fs, paths)
    ensures |targets| <= maxWatchDirs ==> targets == AllWatchDirs(patterns, fs, paths)
    ensures |targets| > maxWatchDirs <==> |AllWatchDirs(patterns, fs, paths)| > maxWatchDirs
  {
    AccumulateSpec([], Batches(patterns, fs, paths), maxWatchDirs);
    Accumulate([], Batches(patterns, fs, paths), maxWatchDirs)
  }

  lemma {:induction false} InsertAllExtends(targets: seq<string>, ds: seq<string>)
    ensures targets <= InsertAll(targets, ds)
    decreases |ds|
  {
    if ds != [] {
      InsertAllExtends(targets, ds[..|ds| - 1]);
    }
  }

  lemma {:induction false} InsertAllNoDuplicates(targets: seq<string>, ds: seq<string>)
    requires NoDuplicates(targets)
    ensures NoDuplicates(InsertAll(targets, ds))
    decreases |ds|
  {
    if ds != [] {
      InsertAllNoDuplicates(targets, ds[..|ds| - 1]);
    }
  }

  lemma {:induction false} InsertAllMembers(targets: seq<string>, ds: seq<string>)
    ensures forall d :: d in InsertAll(targets, ds) <==> d in targets || d in ds
    decreases |ds|
  {
    if ds != [] {
      var init := ds[..|ds| - 1];
      InsertAllMembers(targets, init);
      assert ds == init + [ds[|ds| - 1]];
    }
  }

  lemma {:induction false} InsertAllConcat(targets: seq<string>, xs: seq<string>, ys: seq<string>)
    ensures InsertAll(targets, xs + ys) == InsertAll(InsertAll(targets, xs), ys)
    decreases |ys|
  {
    if ys == [] {
      assert xs + ys == xs;
    } else {
      var init := ys[..|ys| - 1];
      InsertAllConcat(targets, xs, init);
      assert (xs + ys)[..|xs + ys| - 1] == xs + init;
    }
  }

  lemma {:induction false} AccumulateSpec(targets: seq<string>, batches: seq<seq<string>>, maxWatchDirs: nat)
    requires NoDuplicates(targets)
    ensures var r := Accumulate(targets, batches, maxWatchDirs);
            NoDuplicates(r) &&
            r <= InsertAll(targets, Flatten(batches)) &&
            (r == InsertAll(targets, Flatten(batches)) || |r| > maxWatchDirs)
    decreases |batches|
  {
    if batches != [] {
      var next := InsertAll(targets, batches[0]);
      InsertAllNoDuplicates(targets, batches[0]);
      InsertAllConcat(targets, batches[0], Flatten(batches[1..]));
      if |next| > maxWatchDirs {
        InsertAllExtends(next, Flatten(batches[1..]));
      } else {
        AccumulateSpec(next, batches[1..], maxWatchDirs);
      }
    }
  }

  lemma {:induction false} FlattenBatchesMembers(patterns: seq<string>, fs: FileSystem, paths: PathLib, k: nat)
    requires k < |patterns|
    ensures forall d :: d in Flatten(PatternBatches(patterns[k], fs, paths)) ==> d in Flatten(Batches(patterns, fs, paths))
    decreases |patterns|
  {
    var b := PatternBatches(patterns[0], fs, paths);
    var rest := Batches(patterns[1..], fs, paths);
    FlattenConcat(b, rest);
    if k > 0 {
      FlattenBatchesMembers(patterns[1..], fs, paths, k - 1);
    }
  }

  lemma {:induction false} FlattenConcat(xs: seq<seq<string>>, ys: seq<seq<string>>)
    ensures Flatten(xs + ys) == Flatten(xs) + Flatten(ys)
    decreases |xs|
  {
    if xs == [] {
      assert xs + ys == ys;
    } else {
      assert (xs + ys)[1..] == xs[1..] + ys;
      FlattenConcat(xs[1..], ys);
    }
  }

  lemma FlattenThree(a: seq<string>, b: seq<string>, c: seq<string>)
    ensures Flatten([a, b, c]) == a + b + c
  {
    assert [a, b, c][1..] == [b, c];
    assert [b, c][1..] == [c];
    assert [c][1..] == [];
    assert Flatten([c]) == c + Flatten([]) == c;
    assert Flatten([b, c]) == b + Flatten([c]) == b + c;
    assert Flatten([a, b, c]) == a + Flatten([b, c]) == a + (b + c);
  }

  /** The batches of the patterns from `k` on: those of pattern `k`, then the rest. */
  lemma BatchesFrom(patterns: seq<string>, k: nat, fs: FileSystem, paths: PathLib)
    requires k < |patterns|
    ensures var batches := PatternBatches(patterns[k], fs, paths);
            Batches(patterns[k..], fs, paths) ==
            [batches[0]] + ([batches[1]] + ([batches[2]] + Batches(patterns[k + 1..], fs, paths)))
  {
    var from := patterns[k..];
    assert from[0] == patterns[k] && from[1..] == patterns[k + 1..];
    var batches := PatternBatches(patterns[k], fs, paths);
    var rest := Batches(patterns[k + 1..], fs, paths);
    assert Batches(from, fs, paths) == batches + rest;
    assert batches == [batches[0], batches[1], batches[2]];
    assert batches + rest == [batches[0]] + ([batches[1]] + ([batches[2]] + rest));
  }

  /** One batch of Accumulate: stop if it leaves more than the cap, else go on with the rest. */
  lemma AccumulateStep(targets: seq<string>, batch: seq<string>, rest: seq<seq<string>>, maxWatchDirs: nat)
    ensures var next := InsertAll(targets, batch);
            Accumulate(targets, [batch] + rest, maxWatchDirs) ==
            if |next| > maxWatchDirs then next else Accumulate(next, rest, maxWatchDirs)
  {
    assert ([batch] + rest)[0] == batch;
    assert ([batch] + rest)[1..] == rest;
  }

  /**
   * When findDirs does not stop early, it holds every non-empty literal
   * directory and every directory found for every pattern, and nothing else.
   */
  lemma FindDirsComplete(patterns: seq<string>, maxWatchDirs: nat, fs: FileSystem, paths: PathLib)
    requires |FindDirsResult(patterns, maxWatchDirs, fs, paths)| <= maxWatchDirs
    ensures var targets := FindDirsResult(patterns, maxWatchDirs, fs, paths);
            forall k :: 0 <= k < |patterns| ==>
              var realDir := RealDirectory(paths.dir(patterns[k]), fs, paths);
              (|realDir| > 0 ==> realDir in targets) &&
              (forall d :: d in fs.findDirs(patterns[k]) ==> d in targets) &&
              (forall d :: d in fs.findDirs(paths.dir(patterns[k])) ==> d in targets)
    ensures var targets := FindDirsResult(patterns, maxWatchDirs, fs, paths);
            forall d :: d in targets ==> d in Flatten(Batches(patterns, fs, paths))
  {
    var targets := FindDirsResult(patterns, maxWatchDirs, fs, paths);
    var all := Flatten(Batches(patterns, fs, paths));
    InsertAllMembers([], all);
    assert targets == InsertAll([], all);
    forall k | 0 <= k < |patterns|
      ensures var realDir := RealDirectory(paths.dir(patterns[k]), fs, paths);
              (|realDir| > 0 ==> realDir in targets) &&
              (forall d :: d in fs.findDirs(patterns[k]) ==> d in targets) &&
              (forall d :: d in fs.findDirs(paths.dir(patterns[k])) ==> d in targets)
    {
      var pb := PatternBatches(patterns[k], fs, paths);
      FlattenThree(pb[0], pb[1], pb[2]);
      assert pb == [pb[0], pb[1], pb[2]];
      FlattenBatchesMembers(patterns, fs, paths, k);
    }
  }

  /** Adds each directory of a batch to the uniq list, one at a time. */
  method AddAll(targets: seq<string>, ds: seq<string>) returns (r: seq<string>)
    ensures r == InsertAll(targets, ds)
  {
    r := targets;
    for j := 0 to |ds|
      invariant r == InsertAll(targets, ds[..j])
    {
      assert ds[..j + 1][..j] == ds[..j];
      r := Insert(r, ds[j]);
    }
    assert ds[..|ds|] == ds;
  }

  /** findDirs: accumulates the three batches of each pattern, returning once over the cap. */
  method FindDirs(patterns: seq<string>, maxWatchDirs: nat, fs: FileSystem, paths: PathLib) returns (targets: seq<string>)
    ensures targets == FindDirsResult(patterns, maxWatchDirs, fs, paths)
  {
    targets := [];
    for k := 0 to |patterns|
      invariant |targets| <= maxWatchDirs
      invariant Accumulate(targets, Batches(patterns[k..], fs, paths), maxWatchDirs)
                == FindDirsResult(patterns, maxWatchDirs, fs, paths)
    {
      var pattern := patterns[k];
      var patternDir := paths.dir(pattern);
      ghost var batches := PatternBatches(pattern, fs, paths);
      ghost var rest := Batches(patterns[k + 1..], fs, paths);
      BatchesFrom(patterns, k, fs, paths);
      ghost var t0 := targets;

      var realDir := FindRealDirectory(patternDir, fs, paths);
      if |realDir| > 0 {
        targets := Insert(targets, realDir);
        assert [realDir][..0] == [];
      }
      assert targets == InsertAll(t0, batches[0]);
      AccumulateStep(t0, batches[0], [batches[1]] + ([batches[2]] + rest), maxWatchDirs);
      if |targets| > maxWatchDirs {
        return;
      }

      ghost var t1 := targets;
      var dirs1 := fs.findDirs(pattern);
      targets := AddAll(targets, dirs1);
      AccumulateStep(t1, batches[1], [batches[2]] + rest, maxWatchDirs);
      if |targets| > maxWatchDirs {
        return;
      }

      ghost var t2 := targets;
      var dirs2 := fs.findDirs(patternDir);
      targets := AddAll(targets, dirs2);
      AccumulateStep(t2, batches[2], rest, maxWatchDirs);
      if |targets| > maxWatchDirs {
        return;
      }
    }
    assert patterns[|patterns|..] == [];
  }

  // ---------------------------------------------------------------------------
  // The table of accepted update times
  // ---------------------------------------------------------------------------

  /** The table the emitted events leave behind: each path mapped to the time of its last event. */
  function LatestTimes(emitted: seq<Event>): map<string, int>
  {
    if emitted == [] then map[]
    else LatestTimes(emitted[..|emitted| - 1])[emitted[|emitted| - 1].name := emitted[|emitted| - 1].time]
  }

  /**
   * A path is in the table exactly when some event was emitted for it, and its
   * entry is the time of the last such event.
   */
  lemma {:induction false} LatestTimesIsLastEvent(emitted: seq<Event>, p: string)
    ensures p in LatestTimes(emitted) <==> exists i :: 0 <= i < |emitted| && emitted[i].name == p
    ensures p in LatestTimes(emitted) ==>
              exists i :: 0 <= i < |emitted| && emitted[i].name == p && emitted[i].time == LatestTimes(emitted)[p] &&
                          forall j :: i < j < |emitted| ==> emitted[j].name != p
  {
    LatestTimesDomain(emitted, p);
    if p in LatestTimes(emitted) {
      LatestTimesValue(emitted, p);
    }
  }

  /** The table's paths are exactly the paths of the emitted events. */
  lemma {:induction false} LatestTimesDomain(emitted: seq<Event>, p: string)
    ensures p in LatestTimes(emitted) <==> exists i :: 0 <= i < |emitted| && emitted[i].name == p
    decreases |emitted|
  {
    if emitted != [] {
      var n := |emitted| - 1;
      var init := emitted[..n];
      LatestTimesDomain(init, p);
      assert forall i :: 0 <= i < n ==> init[i] == emitted[i];
      if emitted[n].name != p && (exists i :: 0 <= i < |emitted| && emitted[i].name == p) {
        var i :| 0 <= i < |emitted| && emitted[i].name == p;
        assert init[i].name == p;
      }
    }
  }

  /** A path's entry is the time of the last event emitted for it. */
  lemma {:induction false} LatestTimesValue(emitted: seq<Event>, p: string)
    requires p in LatestTimes(emitted)
    ensures exists i :: 0 <= i < |emitted| && emitted[i].name == p && emitted[i].time == LatestTimes(emitted)[p] &&
                        forall j :: i < j < |emitted| ==> emitted[j].name != p
    decreases |emitted|
  {
    var n := |emitted| - 1;
    if emitted[n].name == p {
      assert emitted[n].time == LatestTimes(emitted)[p];
    } else {
      var init := emitted[..n];
      assert LatestTimes(emitted)[p] == LatestTimes(init)[p];
      LatestTimesValue(init, p);
      var i :| 0 <= i < n && init[i].name == p && init[i].time == LatestTimes(init)[p] &&
               forall j :: i < j < n ==> init[j].name != p;
      assert emitted[i] == init[i];
      forall j | i < j < |emitted|
        ensures emitted[j].name != p
      {
        if j < n {
          assert emitted[j] == init[j];
        }
      }
    }
  }

  // ---------------------------------------------------------------------------
  // The notifier
  // ---------------------------------------------------------------------------

  /**
   * A Notify: the directories handed to the watcher, the close flag, the time
   * table and the settings. `emitted` is the sequence of events delivered on the
   * Events channel so far; `watcherCloses` counts calls to the watcher's Close.
   */
  class Notifier {
    var watched: set<string>
    var isClosed: bool
    var times: map<string, int>
    var pendingPeriod: int
    var regardRenameAsModPeriod: int
    var detectCreate: bool
    var emitted: seq<Event>
    ghost var watcherCloses: nat

    /** The watcher is closed at most once, exactly when the flag is set, and the table records the emitted events. */
    ghost predicate Valid()
      reads this
    {
      watcherCloses <= 1 && (isClosed <==> watcherCloses == 1) &&
      times == LatestTimes(emitted)
    }

    /** The struct literal of New, with the directories that were handed to the watcher. */
    constructor (watchDirs: set<string>)
      ensures Valid()
      ensures watched == watchDirs && !isClosed && times == map[] && emitted == []
      ensures pendingPeriod == DefaultPendingPeriod && regardRenameAsModPeriod == DefaultRegardRenameAsModPeriod
      ensures detectCreate
    {
      watched := watchDirs;
      isClosed := false;
      times := map[];
      pendingPeriod := DefaultPendingPeriod;
      regardRenameAsModPeriod := DefaultRegardRenameAsModPeriod;
      detectCreate := true;
      emitted := [];
      watcherCloses := 0;
    }

    /**
     * New: fails when the watcher cannot be created, or when findDirs yields more
     * directories than the cap; otherwise watches every directory it yields.
     */
    static method New(patterns: seq<string>, maxWatchDirs: nat, watcherOk: bool, fs: FileSystem, paths: PathLib)
      returns (r: Result<Notifier, NewError>)
      ensures !watcherOk ==> r.Failure? && r.error == WatcherFailed
      ensures watcherOk ==> (r.Failure? <==> |FindDirsResult(patterns, maxWatchDirs, fs, paths)| > maxWatchDirs)
      ensures r.Failure? && watcherOk ==> r.error == TooManyWatchDirs
      ensures r.Success? ==> fresh(r.value) && r.value.Valid() && !r.value.isClosed
      ensures r.Success? ==> r.value.watched == set d | d in FindDirsResult(patterns, maxWatchDirs, fs, paths)
      ensures r.Success? ==> r.value.times == map[] && r.value.emitted == []
      ensures r.Success? ==> r.value.pendingPeriod == DefaultPendingPeriod &&
                             r.value.regardRenameAsModPeriod == DefaultRegardRenameAsModPeriod &&
                             r.value.detectCreate
    {
      if !watcherOk {
        return Failure(WatcherFailed);
      }
      var watchDirs := FindDirs(patterns, maxWatchDirs, fs, paths);
      if |watchDirs| > maxWatchDirs {
        return Failure(TooManyWatchDirs);
      }
      var added: set<string> := {};
      for i := 0 to |watchDirs|
        invariant added == set j | 0 <= j < i :: watchDirs[j]
      {
        added := added + {watchDirs[i]};
      }
      assert added == set d | d in watchDirs by {
        forall d | d in watchDirs ensures d in added {
          var j :| 0 <= j < |watchDirs| && watchDirs[j] == d;
        }
      }
      var n := new Notifier(added);
      return Success(n);
    }

    /** Close: closes the watcher the first time only. */
    method Close()
      requires Valid()
      modifies this`isClosed, this`watcherCloses
      ensures Valid() && isClosed
      ensures watcherCloses == if old(isClosed) then old(watcherCloses) else old(watcherCloses) + 1
    {
      if isClosed {
        return;
      }
      watcherCloses := watcherCloses + 1;
      isClosed := true;
    }

    /** PendingPeriod: replaces the write-coalescing window (ms). */
    method PendingPeriod(p: int)
      requires Valid()
      modifies this`pendingPeriod
      ensures Valid() && pendingPeriod == p
    {
      pendingPeriod := p;
    }

    /**
     * One iteration of wait for a raw event: a created directory joins the watch
     * set; an accepted event stores the emission time for its cleaned path and is
     * emitted; a rejected one changes neither the table nor the output.
     * `checkNow` is the clock as shouldExecute reads it, `emitNow` as wait reads it.
     */
    method Receive(name: string, op: Op, fs: FileSystem, paths: PathLib, checkNow: int, emitNow: int)
      requires Valid()
      modifies this`watched, this`times, this`emitted
      ensures Valid()
      ensures var p := paths.clean(name);
              watched == if op == {Create} && fs.isDir(p) then old(watched) + {p} else old(watched)
      ensures var p := paths.clean(name);
              var accept := ShouldExecute(op, fs.isFile(p), fs.modifiedTime(p), checkNow, StoredTime(old(times), p),
                                          pendingPeriod, regardRenameAsModPeriod, detectCreate);
              times == (if accept then old(times)[p := emitNow] else old(times)) &&
              emitted == (if accept then old(emitted) + [Event(p, emitNow)] else old(emitted))
      // only a path that is a regular file ever yields an event
      ensures emitted != old(emitted) ==> fs.isFile(paths.clean(name))
    {
      var normalizedName := paths.clean(name);
      if op == {Create} && fs.isDir(normalizedName) {
        watched := watched + {normalizedName};
      }
      var lastExecutionTime := StoredTime(times, normalizedName);
      if !ShouldExecute(op, fs.isFile(normalizedName), fs.modifiedTime(normalizedName), checkNow,
                        lastExecutionTime, pendingPeriod, regardRenameAsModPeriod, detectCreate) {
        return;
      }
      var e := Event(normalizedName, emitNow);
      times := times[normalizedName := emitNow];
      emitted := emitted + [e];
      assert emitted[..|emitted| - 1] == old(emitted);
    }
  }
}

/** A container's log directory and what the kubelet does to it
    (pkg/kubelet/src/container_logs.rs): numbering, pruning and rotation. */
module LogDirectory {
  import opened Common
  import opened LogNames
  import G = Gzip

  type Bytes = G.Bytes
  type Files = map<File, Bytes>

  /** How a rotation is compressed, and what a reader makes of it. */
  datatype Format = Format(pack: Bytes -> Bytes, unpack: Bytes -> Option<Bytes>)

  ghost predicate Faithful(z: Format) {
    forall d :: z.unpack(z.pack(d)) == Some(d)
  }

  function GzipFormat(codec: G.Codec): Format {
    Format(d => G.Gzip(codec, d), m => G.Gunzip(codec, m))
  }

  lemma GzipIsFaithful(codec: G.Codec)
    requires G.Lossless(codec)
    ensures Faithful(GzipFormat(codec))
  {
    var z := GzipFormat(codec);
    forall d ensures z.unpack(z.pack(d)) == Some(d)
    {
      G.GunzipUndoesGzip(codec, d);
    }
  }

  datatype Rotation = Rotation(maxSize: nat, maxFiles: nat)

  const KEEP_PREVIOUS: nat := 5
  /** How often a copy looks again at a file that grows under it. */
  const CHECKS: nat := 8

  // ---- Runs ----

  ghost function LiveRuns(files: Files): (runs: set<nat>)
    ensures forall n :: n in runs <==> Live(n) in files
  {
    var runs := set f | f in files && f.Live? :: f.run;
    assert forall n :: Live(n) in files ==> n == Live(n).run;
    runs
  }

  ghost function Newer(files: Files, run: nat): (runs: set<nat>)
    ensures forall n :: n in runs <==> n > run && Live(n) in files
  {
    set n | n in LiveRuns(files) && n > run
  }

  ghost predicate IsNewest(files: Files, run: nat) {
    Live(run) in files && forall n: nat :: Live(n) in files ==> n <= run
  }

  ghost predicate AfterAll(files: Files, run: nat) {
    forall n: nat :: Live(n) in files ==> n < run
  }

  /** The least number after every run on disk and not below `atLeast`. */
  ghost predicate IsNext(files: Files, atLeast: nat, run: nat) {
    && atLeast <= run
    && AfterAll(files, run)
    && forall n: nat :: atLeast <= n && AfterAll(files, n) ==> run <= n
  }

  /** More than `keep` runs on disk are newer. */
  ghost predicate Old(files: Files, run: nat, keep: nat) {
    Live(run) in files && |Newer(files, run)| > keep
  }

  ghost function Pruned(files: Files, keep: nat): Files {
    map f | f in files && !Old(files, f.run, keep) :: files[f]
  }

  predicate Ascending(s: seq<nat>) {
    forall i, j :: 0 <= i < j < |s| ==> s[i] < s[j]
  }

  function Insert(s: seq<nat>, n: nat): (r: seq<nat>)
    requires Ascending(s) && n !in s
    ensures Ascending(r)
    ensures forall m :: m in r <==> m == n || m in s
  {
    if s == [] then [n]
    else if s[|s| - 1] < n then s + [n]
    else
      var r := Insert(s[..|s| - 1], n);
      assert s == s[..|s| - 1] + [s[|s| - 1]];
      assert forall i :: 0 <= i < |r| ==> r[i] in r;
      r + [s[|s| - 1]]
  }

  ghost function Elements(s: seq<nat>): set<nat> {
    set n | n in s
  }

  lemma {:induction false} AscendingCount(s: seq<nat>)
    requires Ascending(s)
    ensures |Elements(s)| == |s|
  {
    if s == [] {
      assert Elements(s) == {};
    } else {
      var front, last := s[..|s| - 1], s[|s| - 1];
      AscendingCount(front);
      assert s == front + [last];
      assert Elements(s) == Elements(front) + {last};
    }
  }

  /** All but the last `keep + 1`. */
  function Before(runs: seq<nat>, keep: nat): seq<nat> {
    if |runs| <= keep + 1 then [] else runs[..|runs| - (keep + 1)]
  }

  lemma NewerCount(files: Files, runs: seq<nat>, i: nat)
    requires Ascending(runs) && forall n :: n in runs <==> Live(n) in files
    requires i < |runs|
    ensures |Newer(files, runs[i])| == |runs| - 1 - i
  {
    var later := runs[i + 1..];
    AscendingCount(later);
    assert runs == runs[..i + 1] + later;
    assert Newer(files, runs[i]) == Elements(later);
  }

  lemma OldAreFirst(files: Files, runs: seq<nat>, keep: nat, run: nat)
    requires Ascending(runs) && forall n :: n in runs <==> Live(n) in files
    ensures Old(files, run, keep) <==> run in Before(runs, keep)
  {
    if Live(run) in files {
      var i :| 0 <= i < |runs| && runs[i] == run;
      NewerCount(files, runs, i);
      var before := Before(runs, keep);
      assert forall j :: 0 <= j < |before| ==> before[j] == runs[j];
      if i < |before| {
        assert before[i] == run;
      }
    }
  }

  lemma PrunedByRun(files: Files, runs: seq<nat>, keep: nat, gone: set<File>)
    requires Ascending(runs) && forall n :: n in runs <==> Live(n) in files
    requires forall f :: f in gone <==> f in files && f.run in Before(runs, keep)
    ensures files - gone == Pruned(files, keep)
  {
    forall f | f in files
      ensures f in gone <==> Old(files, f.run, keep)
    {
      OldAreFirst(files, runs, keep, f.run);
    }
  }

  // ---- Rotations ----

  /** The run's rotations, oldest first. */
  ghost predicate IsOrder(files: Files, run: nat, s: seq<File>) {
    && (forall f :: f in s <==> f in files && f.Rotated? && f.run == run)
    && ByStamp(s)
  }

  ghost predicate ByStamp(s: seq<File>) {
    && (forall i :: 0 <= i < |s| ==> s[i].Rotated?)
    && (forall i, j :: 0 <= i < j < |s| ==> s[i] != s[j] && s[i].stamp <= s[j].stamp)
  }

  lemma ByStampWith(s: seq<File>, f: File)
    requires ByStamp(s) && f.Rotated?
    requires forall g :: g in s ==> g != f && (g.Rotated? ==> g.stamp <= f.stamp)
    ensures ByStamp(s + [f])
  {
    assert forall i :: 0 <= i < |s| ==> s[i] in s;
  }

  function InsertByStamp(s: seq<File>, f: File): (r: seq<File>)
    requires ByStamp(s) && f.Rotated? && f !in s
    ensures ByStamp(r)
    ensures forall g :: g in r <==> g == f || g in s
  {
    if s == [] then [f]
    else
      var front, last := s[..|s| - 1], s[|s| - 1];
      assert s == front + [last];
      if last.stamp <= f.stamp then
        ByStampWith(s, f);
        s + [f]
      else
        var r := InsertByStamp(front, f);
        ByStampWith(r, last);
        r + [last]
  }

  /** Rotations a run may have beside its live file. */
  function MaxRotations(limit: Rotation): (r: nat)
    ensures limit.maxFiles <= 2 ==> r == 1
    ensures limit.maxFiles > 2 ==> r + 1 == limit.maxFiles
  {
    (if limit.maxFiles > 2 then limit.maxFiles else 2) - 1
  }

  /** How many of `count` rotations must go before another is made: the live file, the new one and
      those left are then as many as there may be, or fewer with nothing gone. */
  function Excess(count: nat, limit: Rotation): (r: nat)
    ensures r <= count
    ensures var files, most := count - r + 2, if limit.maxFiles > 2 then limit.maxFiles else 2;
            files <= most && (r > 0 ==> files == most)
  {
    if count + 1 <= MaxRotations(limit) then 0 else count + 1 - MaxRotations(limit)
  }

  function WithoutTemps(files: Files): Files {
    map f | f in files && !f.Temp? :: files[f]
  }

  predicate IsPlain(f: File) {
    f.Rotated? && !f.gz
  }

  function Zipped(f: File): File {
    if f.Rotated? then Rotated(f.run, f.stamp, true) else f
  }

  /** The directory with one rotation compressed, if it is plain. */
  function PackedOne(z: Format, files: Files, f: File): Files {
    if f in files && IsPlain(f)
    then (files - {f, Temp(f.run, f.stamp)})[Zipped(f) := z.pack(files[f])]
    else files
  }

  function Packed(z: Format, files: Files, s: seq<File>): Files
    decreases |s|
  {
    if s == [] then files else PackedOne(z, Packed(z, files, s[..|s| - 1]), s[|s| - 1])
  }

  /** What a copy takes of a live file: `pending` is there and not yet copied, and `arrivals(k)`
      is written before the k-th look at its length. */
  function Caught(pending: Bytes, arrivals: nat -> Bytes, k: nat): Bytes
    requires k <= CHECKS
    decreases CHECKS - k
  {
    if k == CHECKS || pending + arrivals(k) == [] then []
    else pending + arrivals(k) + Caught([], arrivals, k + 1)
  }

  function Trimmed(files: Files, order: seq<File>, limit: Rotation): Files {
    map f | f in files && !f.Temp? && f !in order[..Excess(|order|, limit)] :: files[f]
  }

  /** The directory after a rotation pass over its newest run, whose rotations it listed as
      `order` and, once the oldest were gone, as `rest`. What reaches the live file after the last
      look at its length is lost. */
  function AfterPass(z: Format, files: Files, run: nat, order: seq<File>, rest: seq<File>,
                     limit: Rotation, stamp: nat, arrivals: nat -> Bytes): Files
    requires Live(run) in files
  {
    if |files[Live(run)]| <= limit.maxSize then WithoutTemps(files)
    else
      var packed := Packed(z, Trimmed(files, order, limit), rest);
      packed[Rotated(run, stamp, false) := Caught(files[Live(run)], arrivals, 0)][Live(run) := []]
  }

  lemma NoPlainLeft(z: Format, files: Files, run: nat, s: seq<File>, f: File)
    requires IsPlain(f) && f.run == run
    requires forall i :: 0 <= i < |s| ==> s[i].Rotated? && s[i].run == run
    ensures f in Packed(z, files, s) ==> f in files && f !in s
    decreases |s|
  {
    if s != [] {
      var front, last := s[..|s| - 1], s[|s| - 1];
      assert s == front + [last];
      NoPlainLeft(z, files, run, front, f);
      assert f in PackedOne(z, Packed(z, files, front), last) ==> f != last;
    }
  }

  lemma OthersStay(z: Format, files: Files, run: nat, s: seq<File>, f: File)
    requires forall i :: 0 <= i < |s| ==> s[i].Rotated? && s[i].run == run
    requires f.Live? || (f.Rotated? && f.run != run)
    ensures f in Packed(z, files, s) <==> f in files
    ensures f in files ==> Packed(z, files, s)[f] == files[f]
    decreases |s|
  {
    if s != [] {
      var front, last := s[..|s| - 1], s[|s| - 1];
      assert s == front + [last];
      OthersStay(z, files, run, front, f);
    }
  }

  /** The directory after one look at the growing file `live`. */
  function Looked(files: Files, live: File, target: File, arrived: Bytes): Files
    requires live in files && target in files && |files[target]| <= |files[live]|
  {
    files[live := files[live] + arrived]
         [target := files[target] + (files[live][|files[target]|..] + arrived)]
  }

  /** `out` is copied of `now`, and the copy will end as foreseen. */
  ghost predicate UpToNow(start: Bytes, arrivals: nat -> Bytes, k: nat, out: Bytes, now: Bytes)
    requires k <= CHECKS
  {
    |out| <= |now| && out + Caught(now[|out|..], arrivals, k) == Caught(start, arrivals, 0)
  }

  lemma CaughtStep(start: Bytes, arrivals: nat -> Bytes, k: nat, out: Bytes, now: Bytes)
    requires k < CHECKS && UpToNow(start, arrivals, k, out, now)
    ensures var chunk := now[|out|..] + arrivals(k);
            if chunk == [] then out + chunk == Caught(start, arrivals, 0)
            else UpToNow(start, arrivals, k + 1, out + chunk, now + arrivals(k))
  {
    var pending := now[|out|..];
    var chunk := pending + arrivals(k);
    assert (now + arrivals(k))[|out + chunk|..] == [];
    if chunk != [] {
      assert out + Caught(pending, arrivals, k) == (out + chunk) + Caught([], arrivals, k + 1);
    }
  }

  lemma LookAgain(base: Files, live: File, target: File, arrivals: nat -> Bytes, k: nat, out: Bytes, now: Bytes)
    requires live != target && live in base
    requires k < CHECKS && UpToNow(base[live], arrivals, k, out, now)
    ensures var chunk := now[|out|..] + arrivals(k);
            Looked(base[target := out][live := now], live, target, arrivals(k))
            == base[target := out + chunk][live := now + arrivals(k)]
    ensures var chunk := now[|out|..] + arrivals(k);
            if chunk == [] then out + chunk == Caught(base[live], arrivals, 0)
            else UpToNow(base[live], arrivals, k + 1, out + chunk, now + arrivals(k))
  {
    CaughtStep(base[live], arrivals, k, out, now);
  }

  class LogDir {
    var files: Files

    /** The run numbers on disk, ascending. */
    method Runs() returns (runs: seq<nat>)
      ensures Ascending(runs)
      ensures forall n :: n in runs <==> Live(n) in files
    {
      runs := [];
      var rest := files.Keys;
      while rest != {}
        invariant rest <= files.Keys
        invariant Ascending(runs)
        invariant forall n :: n in runs <==> Live(n) in files && Live(n) !in rest
        decreases |rest|
      {
        var f :| f in rest;
        rest := rest - {f};
        if f.Live? {
          assert f == Live(f.run);
          runs := Insert(runs, f.run);
        }
      }
    }

    method NextRun(atLeast: nat) returns (run: nat)
      ensures IsNext(files, atLeast, run)
    {
      var runs := Runs();
      run := 0;
      if runs != [] {
        run := runs[|runs| - 1] + 1;
        assert Live(run - 1) in files;
        assert AfterAll(files, run);
      }
      if run < atLeast {
        run := atLeast;
      }
    }

    /** Deletes every file of the runs before the newest `keep + 1`. */
    method PruneRuns(keep: nat) returns (gone: set<File>)
      modifies this
      ensures files == Pruned(old(files), keep)
      ensures gone == old(files).Keys - files.Keys
    {
      gone := {};
      var runs := Runs();
      if |runs| > keep + 1 {
        gone := DeleteRuns(runs[..|runs| - (keep + 1)]);
      }
      PrunedByRun(old(files), runs, keep, gone);
    }

    method DeleteRuns(doomed: seq<nat>) returns (gone: set<File>)
      modifies this
      ensures forall f :: f in gone <==> f in old(files) && f.run in doomed
      ensures files == old(files) - gone
    {
      gone := {};
      var rest := files.Keys;
      while rest != {}
        invariant rest <= old(files).Keys
        invariant forall f :: f in gone <==> f in old(files) && f !in rest && f.run in doomed
        invariant files == old(files) - gone
        decreases |rest|
      {
        var f :| f in rest;
        rest := rest - {f};
        if f.run in doomed {
          files := files - {f};
          gone := gone + {f};
        }
      }
    }

    method NewRun(atLeast: nat) returns (run: nat)
      modifies this
      ensures IsNext(old(files), atLeast, run)
      ensures files == Pruned(old(files), KEEP_PREVIOUS - 1)
    {
      run := NextRun(atLeast);
      var _ := PruneRuns(KEEP_PREVIOUS - 1);
    }

    method Rotations(run: nat) returns (s: seq<File>)
      ensures IsOrder(files, run, s)
    {
      s := [];
      var rest := files.Keys;
      while rest != {}
        invariant rest <= files.Keys
        invariant ByStamp(s)
        invariant forall f :: f in s <==> f in files && f !in rest && f.Rotated? && f.run == run
        decreases |rest|
      {
        var f :| f in rest;
        rest := rest - {f};
        if f.Rotated? && f.run == run {
          s := InsertByStamp(s, f);
        }
      }
    }

    method RemoveTemps()
      modifies this
      ensures files == WithoutTemps(old(files))
    {
      var rest := files.Keys;
      ghost var gone: set<File> := {};
      while rest != {}
        invariant rest <= old(files).Keys
        invariant forall f :: f in gone <==> f in old(files) && f !in rest && f.Temp?
        invariant files == old(files) - gone
        decreases |rest|
      {
        var f :| f in rest;
        rest := rest - {f};
        if f.Temp? {
          files := files - {f};
          gone := gone + {f};
        }
      }
    }

    /** Through a temporary file, which takes the compressed name once it is whole. */
    method Compress(codec: G.Codec, f: File)
      requires f in files && IsPlain(f)
      modifies this
      ensures files == PackedOne(GzipFormat(codec), old(files), f)
    {
      var data := files[f];
      var member := G.MakeMember(codec, data);
      var temp := Temp(f.run, f.stamp);
      files := files[temp := member];
      files := (files - {temp})[Zipped(f) := files[temp]];
      files := files - {f};
    }

    /** Deletes the oldest of the listed rotations, as many as a new one has no room beside. */
    method MakeRoom(existing: seq<File>, limit: Rotation)
      requires forall f :: f in files ==> !f.Temp?
      modifies this
      ensures files == Trimmed(old(files), existing, limit)
    {
      var excess := Excess(|existing|, limit);
      var i := 0;
      while i < excess
        invariant 0 <= i <= excess
        invariant files == old(files) - (set f | f in existing[..i])
      {
        assert existing[..i + 1] == existing[..i] + [existing[i]];
        files := files - {existing[i]};
        i := i + 1;
      }
    }

    /** Compresses every plain rotation of the run. */
    method CompressAll(codec: G.Codec, run: nat) returns (list: seq<File>)
      modifies this
      ensures IsOrder(old(files), run, list)
      ensures files == Packed(GzipFormat(codec), old(files), list)
    {
      list := Rotations(run);
      ghost var base := files;
      var i := 0;
      while i < |list|
        invariant 0 <= i <= |list|
        invariant files == Packed(GzipFormat(codec), base, list[..i])
        invariant forall j :: i <= j < |list| ==> list[j] in files
      {
        var f := list[i];
        assert list[..i + 1][..i] == list[..i];
        if !f.gz {
          Compress(codec, f);
        }
        i := i + 1;
      }
      assert list[..i] == list;
    }

    /** One look at a growing file: what lies past the part copied is copied too. */
    method CopyMore(live: File, target: File, arrived: Bytes) returns (grew: bool)
      requires live != target && live in files && target in files && |files[target]| <= |files[live]|
      modifies this
      ensures files == Looked(old(files), live, target, arrived)
      ensures grew == (old(files)[live][|old(files)[target]|..] + arrived != [])
    {
      var copied := |files[target]|;
      files := files[live := files[live] + arrived];
      var chunk := files[live][copied..];
      assert chunk == old(files)[live][copied..] + arrived;
      files := files[target := files[target] + chunk];
      grew := chunk != [];
    }

    /** Copies the live file to the new file `target`, looking again while it grows. */
    method Copy(live: File, target: File, arrivals: nat -> Bytes) returns (ghost now: Bytes)
      requires live != target && live in files && target !in files
      modifies this
      ensures files == old(files)[target := Caught(old(files)[live], arrivals, 0)][live := now]
    {
      ghost var out: Bytes := [];
      now := files[live];
      files := files[target := []];
      var k := 0;
      while k < CHECKS
        invariant 0 <= k <= CHECKS
        invariant files == old(files)[target := out][live := now]
        invariant UpToNow(old(files)[live], arrivals, k, out, now)
      {
        LookAgain(old(files), live, target, arrivals, k, out, now);
        out, now := out + (now[|out|..] + arrivals(k)), now + arrivals(k);
        var grew := CopyMore(live, target, arrivals(k));
        if !grew {
          break;
        }
        k := k + 1;
      }
      assert k == CHECKS ==> Caught(now[|out|..], arrivals, k) == [];
      assert out == Caught(old(files)[live], arrivals, 0);
    }

    /** Copies the run's live file to `target`, which must be new, and truncates it. `arrivals(k)`
        is written just before the k-th look at the length, `late` after the last. */
    method CopyTruncate(run: nat, target: File, arrivals: nat -> Bytes, late: Bytes) returns (ok: bool)
      requires target.Rotated?
      modifies this
      ensures ok == (Live(run) in old(files) && target !in old(files))
      ensures !ok ==> files == old(files)
      ensures ok ==> files == old(files)[target := Caught(old(files)[Live(run)], arrivals, 0)][Live(run) := []]
    {
      var live := Live(run);
      if live !in files || target in files {
        return false;
      }
      ghost var now := Copy(live, target, arrivals);
      files := files[live := files[live] + late];
      files := files[live := []];
      return true;
    }

    /** One pass over the directory: nothing without a run, and the newest run otherwise. */
    method RotateContainer(codec: G.Codec, limit: Rotation, stamp: nat, arrivals: nat -> Bytes, late: Bytes)
      returns (rotated: bool, ghost order: seq<File>, ghost rest: seq<File>)
      modifies this
      ensures LiveRuns(old(files)) == {} ==> !rotated && files == old(files)
      ensures forall n :: IsNewest(old(files), n) ==>
        && rotated == (|old(files)[Live(n)]| > limit.maxSize)
        && IsOrder(old(files), n, order)
        && (rotated ==> IsOrder(Trimmed(old(files), order, limit), n, rest))
        && files == AfterPass(GzipFormat(codec), old(files), n, order, rest, limit, stamp, arrivals)
    {
      order, rest := [], [];
      var runs := Runs();
      if runs == [] {
        return false, order, rest;
      }
      var run := runs[|runs| - 1];
      assert IsNewest(files, run);
      RemoveTemps();
      var size := |files[Live(run)]|;
      var existing := Rotations(run);
      order := existing;
      if size <= limit.maxSize {
        return false, order, rest;
      }
      MakeRoom(existing, limit);
      rest := CompressAll(codec, run);
      // No plain rotation is left, so the name for this second is free.
      var target := Rotated(run, stamp, false);
      assert Trimmed(WithoutTemps(old(files)), order, limit) == Trimmed(old(files), order, limit);
      NoPlainLeft(GzipFormat(codec), Trimmed(old(files), order, limit), run, rest, target);
      OthersStay(GzipFormat(codec), Trimmed(old(files), order, limit), run, rest, Live(run));
      var ok := CopyTruncate(run, target, arrivals, late);
      return true, order, rest;
    }
  }
}

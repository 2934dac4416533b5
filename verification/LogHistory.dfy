/** Whole runs of a container's log directory: runs started, lines written, rotation passes
    (pkg/kubelet/src/container_logs.rs). */
module LogHistory {
  import opened Common
  import opened LogDirectory
  import opened LogNames

  /** `recorded` is everything each run wrote but for what a copy lost; `kept` its rotations,
      oldest first; every stamp used so far is below `clock`. */
  datatype World = World(files: Files, recorded: map<nat, Bytes>, kept: map<nat, seq<File>>, clock: nat)

  datatype Event =
    | Start(atLeast: nat, run: nat)
    | Append(run: nat, data: Bytes)
    | Cut(run: nat, stamp: nat)
    | Pass(run: nat, stamp: nat, arrivals: nat -> Bytes)

  const EMPTY := World(map[], map[], map[], 0)

  function At<T>(m: map<nat, seq<T>>, run: nat): seq<T> {
    if run in m then m[run] else []
  }

  function ZippedAll(s: seq<File>): (r: seq<File>)
    ensures |r| == |s| && forall i :: 0 <= i < |s| ==> r[i] == Zipped(s[i])
  {
    seq(|s|, i requires 0 <= i < |s| => Zipped(s[i]))
  }

  function Rest(w: World, run: nat, limit: Rotation): seq<File> {
    At(w.kept, run)[Excess(|At(w.kept, run)|, limit)..]
  }

  /** A rotation stamp is later than every one before it. */
  ghost predicate Enabled(w: World, e: Event) {
    match e
    case Start(atLeast, run) => IsNext(w.files, atLeast, run)
    case Append(run, _) => Live(run) in w.files
    case Cut(run, _) => Live(run) in w.files
    case Pass(run, stamp, _) => IsNewest(w.files, run) && w.clock <= stamp
  }

  ghost function Started(w: World, run: nat): World {
    World(Pruned(w.files, KEEP_PREVIOUS - 1)[Live(run) := []], w.recorded[run := []], w.kept[run := []], w.clock)
  }

  ghost function Appended(w: World, run: nat, data: Bytes): World
    requires Live(run) in w.files
  {
    World(w.files[Live(run) := w.files[Live(run)] + data], w.recorded[run := At(w.recorded, run) + data], w.kept,
          w.clock)
  }

  /** A kubelet that dies while it compresses leaves the temporary file. */
  ghost function WithLeftover(w: World, run: nat, stamp: nat): World {
    w.(files := w.files[Temp(run, stamp) := []])
  }

  ghost function Passed(z: Format, limit: Rotation, w: World, run: nat, stamp: nat, arrivals: nat -> Bytes): World
    requires Live(run) in w.files
  {
    var live := w.files[Live(run)];
    var files := AfterPass(z, w.files, run, At(w.kept, run), Rest(w, run, limit), limit, stamp, arrivals);
    if |live| <= limit.maxSize then World(files, w.recorded, w.kept, Later(w.clock, stamp + 1))
    else
      CaughtIsMore(live, arrivals);
      World(files,
            w.recorded[run := At(w.recorded, run) + Caught(live, arrivals, 0)[|live|..]],
            w.kept[run := ZippedAll(Rest(w, run, limit)) + [Rotated(run, stamp, false)]],
            Later(w.clock, stamp + 1))
  }

  function Later(a: nat, b: nat): nat { if a < b then b else a }

  ghost function Next(z: Format, limit: Rotation, w: World, e: Event): World
    requires Enabled(w, e)
  {
    match e
    case Start(_, run) => Started(w, run)
    case Append(run, data) => Appended(w, run, data)
    case Cut(run, stamp) => WithLeftover(w, run, stamp)
    case Pass(run, stamp, arrivals) => Passed(z, limit, w, run, stamp, arrivals)
  }

  lemma CaughtIsMore(live: Bytes, arrivals: nat -> Bytes)
    ensures live <= Caught(live, arrivals, 0)
  {
    if live + arrivals(0) != [] {
      assert Caught(live, arrivals, 0) == live + (arrivals(0) + Caught([], arrivals, 1));
    }
  }

  /** What reached the live file before the n-th look. */
  function Arrived(arrivals: nat -> Bytes, n: nat): Bytes {
    if n == 0 then [] else Arrived(arrivals, n - 1) + arrivals(n - 1)
  }

  lemma CaughtNext(arrivals: nat -> Bytes, k: nat)
    requires k <= CHECKS
    ensures Caught([], arrivals, k)
         == if k == CHECKS || arrivals(k) == [] then [] else arrivals(k) + Caught([], arrivals, k + 1)
  {
    assert k < CHECKS ==> [] + arrivals(k) == arrivals(k);
  }

  /** `caught(k)` is what a copy still takes from the k-th look on. */
  ghost predicate Takes(caught: nat -> Bytes, arrivals: nat -> Bytes, k: nat) {
    caught(k) == if k >= CHECKS || arrivals(k) == [] then [] else arrivals(k) + caught(k + 1)
  }

  lemma {:induction false} CaughtFrom(caught: nat -> Bytes, arrivals: nat -> Bytes, k: nat) returns (n: nat)
    requires k <= CHECKS && forall i: nat :: i <= CHECKS ==> Takes(caught, arrivals, i)
    ensures k <= n <= CHECKS && (n == CHECKS || arrivals(n) == [])
    ensures forall j :: k <= j < n ==> arrivals(j) != []
    ensures Arrived(arrivals, k) + caught(k) == Arrived(arrivals, n)
    decreases CHECKS - k
  {
    assert Takes(caught, arrivals, k);
    if k == CHECKS || arrivals(k) == [] {
      n := k;
      assert Arrived(arrivals, k) + [] == Arrived(arrivals, k);
    } else {
      n := CaughtFrom(caught, arrivals, k + 1);
      assert Arrived(arrivals, k + 1) == Arrived(arrivals, k) + arrivals(k);
      Reassociate(Arrived(arrivals, k), arrivals(k), caught(k + 1));
    }
  }

  /** A copy takes the live file and all that is added to it up to the first look, after the one
      that starts it, that finds nothing new, or up to the last look. */
  lemma CopyTakesAllUntilQuiet(live: Bytes, arrivals: nat -> Bytes)
    requires live != []
    ensures exists n: nat ::
      && 1 <= n <= 8 && (n == 8 || arrivals(n) == []) && (forall j :: 0 < j < n ==> arrivals(j) != [])
      && Caught(live, arrivals, 0) == live + Arrived(arrivals, n)
  {
    var caught := (k: nat) => if k <= CHECKS then Caught([], arrivals, k) else [];
    forall k: nat | k <= CHECKS
      ensures Takes(caught, arrivals, k)
    {
      CaughtNext(arrivals, k);
    }
    var n := CaughtFrom(caught, arrivals, 1);
    assert Arrived(arrivals, 1) == [] + arrivals(0) == arrivals(0);
    Reassociate(live, arrivals(0), caught(1));
    assert Caught(live, arrivals, 0) == live + Arrived(arrivals, n);
  }

  /** What a rotation records for its run: all that reached the file up to the first quiet look,
      and so all that was written, unless something came after the last look. */
  lemma PassRecords(z: Format, limit: Rotation, w: World, run: nat, stamp: nat, arrivals: nat -> Bytes)
    requires Live(run) in w.files && |w.files[Live(run)]| > limit.maxSize
    ensures var v := Passed(z, limit, w, run, stamp, arrivals);
      && (forall other: nat :: other != run ==> At(v.recorded, other) == At(w.recorded, other))
      && exists n: nat ::
           && 1 <= n <= 8 && (n == 8 || arrivals(n) == []) && (forall j :: 0 < j < n ==> arrivals(j) != [])
           && At(v.recorded, run) == At(w.recorded, run) + Arrived(arrivals, n)
  {
    var live := w.files[Live(run)];
    CopyTakesAllUntilQuiet(live, arrivals);
    var n: nat :| && 1 <= n <= 8 && (n == 8 || arrivals(n) == [])
                  && (forall j :: 0 < j < n ==> arrivals(j) != [])
                  && Caught(live, arrivals, 0) == live + Arrived(arrivals, n);
    assert (live + Arrived(arrivals, n))[|live|..] == Arrived(arrivals, n);
  }

  // ---- What a run's files hold ----

  function Reads(z: Format, f: File, data: Bytes): Bytes
    requires f.Rotated?
  {
    if f.gz then
      match z.unpack(data)
      case Some(d) => d
      case None => []
    else data
  }

  /** What the files of `s` hold, one after the other. */
  function Data(z: Format, files: Files, s: seq<File>): Bytes
    requires forall i :: 0 <= i < |s| ==> s[i].Rotated? && s[i] in files
    decreases |s|
  {
    if s == [] then []
    else Data(z, files, s[..|s| - 1]) + Reads(z, s[|s| - 1], files[s[|s| - 1]])
  }

  predicate IsSuffix(a: Bytes, b: Bytes) {
    |a| <= |b| && b[|b| - |a|..] == a
  }

  ghost predicate Strict(s: seq<File>) {
    && (forall i :: 0 <= i < |s| ==> s[i].Rotated?)
    && (forall i, j :: 0 <= i < j < |s| ==> s[i].stamp < s[j].stamp)
  }

  ghost predicate Shape(z: Format, limit: Rotation, files: Files, s: seq<File>, clock: nat) {
    && Strict(s)
    && |s| <= MaxRotations(limit)
    && (forall i :: 0 <= i < |s| ==> s[i] in files && s[i].stamp < clock)
    && (forall i :: 0 <= i < |s| - 1 ==> s[i].gz)
    && (forall i :: 0 <= i < |s| && s[i].gz ==> z.unpack(files[s[i]]).Some?)
  }

  /** The run's rotations are within their number, all but the newest are compressed, and in
      order followed by the live file they hold the last part of what was written. */
  ghost predicate RunIsGood(z: Format, limit: Rotation, w: World, run: nat)
    requires Live(run) in w.files
  {
    && IsOrder(w.files, run, At(w.kept, run))
    && Shape(z, limit, w.files, At(w.kept, run), w.clock)
    && IsSuffix(Data(z, w.files, At(w.kept, run)) + w.files[Live(run)], At(w.recorded, run))
  }

  ghost predicate Good(z: Format, limit: Rotation, w: World) {
    && |LiveRuns(w.files)| <= KEEP_PREVIOUS + 1
    && Rooted(w.files)
    && (forall run: nat :: Live(run) in w.files ==> RunIsGood(z, limit, w, run))
  }

  ghost predicate SameRun(a: Files, b: Files, run: nat) {
    forall f: File :: f.run == run && !f.Temp? ==> (f in a <==> f in b) && (f in a ==> a[f] == b[f])
  }

  lemma {:induction false} SameData(z: Format, a: Files, s: seq<File>, b: Files, t: seq<File>)
    requires |s| == |t|
    requires forall i :: 0 <= i < |s| ==> s[i].Rotated? && s[i] in a && t[i].Rotated? && t[i] in b
    requires forall i :: 0 <= i < |s| ==> Reads(z, s[i], a[s[i]]) == Reads(z, t[i], b[t[i]])
    ensures Data(z, a, s) == Data(z, b, t)
    decreases |s|
  {
    if s != [] {
      SameData(z, a, s[..|s| - 1], b, t[..|t| - 1]);
    }
  }

  lemma Reassociate(a: Bytes, b: Bytes, c: Bytes)
    ensures (a + b) + c == a + (b + c)
  {
  }

  lemma DataSnoc(z: Format, files: Files, s: seq<File>)
    requires s != [] && forall i :: 0 <= i < |s| ==> s[i].Rotated? && s[i] in files
    ensures Data(z, files, s) == Data(z, files, s[..|s| - 1]) + Reads(z, s[|s| - 1], files[s[|s| - 1]])
  {
  }

  lemma {:induction false} DataSplits(z: Format, files: Files, s: seq<File>, k: nat)
    requires forall i :: 0 <= i < |s| ==> s[i].Rotated? && s[i] in files
    requires k <= |s|
    ensures Data(z, files, s) == Data(z, files, s[..k]) + Data(z, files, s[k..])
    decreases |s|
  {
    if k == |s| {
      assert s[..k] == s;
    } else {
      var front, back := s[..|s| - 1], s[k..];
      DataSplits(z, files, front, k);
      assert front[..k] == s[..k];
      assert back[..|back| - 1] == front[k..] && back[|back| - 1] == s[|s| - 1];
      DataSnoc(z, files, s);
      DataSnoc(z, files, back);
      Reassociate(Data(z, files, s[..k]), Data(z, files, front[k..]), Reads(z, s[|s| - 1], files[s[|s| - 1]]));
    }
  }

  ghost predicate SameRotations(a: Files, b: Files, run: nat) {
    forall f: File :: f.run == run && f.Rotated? ==> (f in a <==> f in b) && (f in a ==> a[f] == b[f])
  }

  lemma RotationsStay(z: Format, limit: Rotation, a: Files, b: Files, run: nat, s: seq<File>, clock: nat, later: nat)
    requires IsOrder(a, run, s) && Shape(z, limit, a, s, clock)
    requires SameRotations(a, b, run) && clock <= later
    ensures IsOrder(b, run, s) && Shape(z, limit, b, s, later)
    ensures Data(z, b, s) == Data(z, a, s)
  {
    assert forall i :: 0 <= i < |s| ==> s[i] in s;
    assert forall i :: 0 <= i < |s| ==> s[i] in b && b[s[i]] == a[s[i]];
    SameData(z, a, s, b, s);
  }

  /** An untouched run stays good. */
  lemma SameRunIsGood(z: Format, limit: Rotation, w: World, v: World, run: nat)
    requires Live(run) in w.files && RunIsGood(z, limit, w, run)
    requires SameRun(w.files, v.files, run) && w.clock <= v.clock
    requires At(w.kept, run) == At(v.kept, run) && At(w.recorded, run) == At(v.recorded, run)
    ensures Live(run) in v.files && RunIsGood(z, limit, v, run)
  {
    RotationsStay(z, limit, w.files, v.files, run, At(w.kept, run), w.clock, v.clock);
    assert Live(run).run == run;
  }

  ghost predicate OthersSame(w: World, v: World, run: nat) {
    forall other: nat :: other != run && Live(other) in v.files ==>
      SameRun(w.files, v.files, other) && At(w.kept, other) == At(v.kept, other)
      && At(w.recorded, other) == At(v.recorded, other)
  }

  ghost predicate Rooted(files: Files) {
    forall f :: f in files ==> Live(f.run) in files
  }

  /** A step that touches one run leaves the directory good if it leaves that run so. */
  lemma OneRunChanged(z: Format, limit: Rotation, w: World, v: World, run: nat)
    requires Good(z, limit, w) && w.clock <= v.clock && OthersSame(w, v, run)
    requires |LiveRuns(v.files)| <= KEEP_PREVIOUS + 1 && Rooted(v.files)
    requires Live(run) in v.files ==> RunIsGood(z, limit, v, run)
    ensures Good(z, limit, v)
  {
    forall other: nat | other != run && Live(other) in v.files
      ensures RunIsGood(z, limit, v, other)
    {
      assert Live(other).run == other;
      SameRunIsGood(z, limit, w, v, other);
    }
  }

  // ---- Starting a run ----

  lemma Enumerate(s: set<nat>) returns (runs: seq<nat>)
    ensures Ascending(runs) && forall n :: n in runs <==> n in s
  {
    if s == {} {
      runs := [];
    } else {
      var n :| n in s;
      runs := Enumerate(s - {n});
      runs := Insert(runs, n);
    }
  }

  ghost predicate Splits(files: Files, keep: nat, before: seq<nat>, after: seq<nat>) {
    && Ascending(before + after)
    && (forall n :: n in before + after <==> Live(n) in files)
    && before == Before(before + after, keep)
  }

  lemma BeforeIsLess(before: seq<nat>, after: seq<nat>, m: nat, n: nat)
    requires Ascending(before + after) && m in before && n in after
    ensures m < n
  {
    var i :| 0 <= i < |before| && before[i] == m;
    var j :| 0 <= j < |after| && after[j] == n;
    assert (before + after)[i] == m && (before + after)[|before| + j] == n;
  }

  lemma StayingRuns(files: Files, keep: nat, before: seq<nat>, after: seq<nat>, n: nat)
    requires Splits(files, keep, before, after)
    ensures Live(n) in Pruned(files, keep) <==> n in after
    ensures Live(n) in files && Live(n) !in Pruned(files, keep) <==> n in before
  {
    var runs := before + after;
    OldAreFirst(files, runs, keep, n);
    assert Live(n).run == n;
    assert n in runs <==> n in before || n in after;
    if n in before && n in after {
      BeforeIsLess(before, after, n, n);
    }
  }

  lemma Split(files: Files, keep: nat) returns (before: seq<nat>, after: seq<nat>)
    ensures Splits(files, keep, before, after)
    ensures Elements(before + after) == LiveRuns(files)
    ensures Elements(after) == LiveRuns(Pruned(files, keep))
  {
    var runs := Enumerate(LiveRuns(files));
    before := Before(runs, keep);
    after := runs[|before|..];
    assert runs == before + after;
    forall n: nat {
      StayingRuns(files, keep, before, after, n);
    }
  }

  /** Pruning leaves the newest `keep + 1` runs, or all there are. */
  lemma PruningCounts(files: Files, keep: nat)
    ensures |LiveRuns(Pruned(files, keep))|
         == if |LiveRuns(files)| < keep + 1 then |LiveRuns(files)| else keep + 1
  {
    var before, after := Split(files, keep);
    assert after == (before + after)[|before|..];
    assert Ascending(after);
    AscendingCount(before + after);
    AscendingCount(after);
  }

  lemma PruningKeepsTheNewest(files: Files, keep: nat, m: nat, n: nat)
    requires Live(m) in files && Live(m) !in Pruned(files, keep) && Live(n) in Pruned(files, keep)
    ensures m < n
  {
    var before, after := Split(files, keep);
    StayingRuns(files, keep, before, after, m);
    StayingRuns(files, keep, before, after, n);
    BeforeIsLess(before, after, m, n);
  }

  /** With its file created a new run is the sixth on disk, or all the others stay. */
  lemma StartedRuns(files: Files, run: nat)
    requires Live(run) !in files
    ensures |LiveRuns(Pruned(files, KEEP_PREVIOUS - 1)[Live(run) := []])|
         == if |LiveRuns(files)| < 5 then |LiveRuns(files)| + 1 else 6
  {
    var pruned := Pruned(files, KEEP_PREVIOUS - 1);
    PruningCounts(files, KEEP_PREVIOUS - 1);
    assert LiveRuns(pruned[Live(run) := []]) == LiveRuns(pruned) + {run};
  }

  lemma PrunedIsRooted(files: Files, keep: nat)
    requires Rooted(files)
    ensures Rooted(Pruned(files, keep))
  {
    forall f | f in Pruned(files, keep)
      ensures Live(f.run) in Pruned(files, keep)
    {
      assert Live(f.run) in files && Live(f.run).run == f.run;
    }
  }

  lemma StartedOthers(w: World, run: nat)
    ensures OthersSame(w, Started(w, run), run)
  {
  }

  lemma NothingOf(files: Files, run: nat)
    requires Rooted(files) && AfterAll(files, run)
    ensures forall f :: f in files ==> f.run != run
  {
  }

  lemma StartedRunIsGood(z: Format, limit: Rotation, w: World, run: nat)
    requires Rooted(w.files) && AfterAll(w.files, run)
    ensures Rooted(Started(w, run).files) && RunIsGood(z, limit, Started(w, run), run)
  {
    var v := Started(w, run);
    PrunedIsRooted(w.files, KEEP_PREVIOUS - 1);
    assert Rooted(v.files);
    NothingOf(w.files, run);
    assert At(v.kept, run) == [] && v.files[Live(run)] == [];
    assert IsOrder(v.files, run, []);
    assert Data(z, v.files, []) + [] == [];
  }

  lemma StartedIsGood(z: Format, limit: Rotation, w: World, run: nat)
    requires Good(z, limit, w) && AfterAll(w.files, run)
    ensures Good(z, limit, Started(w, run))
  {
    var v := Started(w, run);
    StartedRuns(w.files, run);
    StartedOthers(w, run);
    StartedRunIsGood(z, limit, w, run);
    OneRunChanged(z, limit, w, v, run);
  }

  // ---- Writing ----

  lemma SuffixGrows(a: Bytes, b: Bytes, c: Bytes)
    requires IsSuffix(a, b)
    ensures IsSuffix(a + c, b + c)
  {
    assert (b + c)[|b| - |a|..] == b[|b| - |a|..] + c;
  }

  lemma AppendedRunIsGood(z: Format, limit: Rotation, w: World, run: nat, data: Bytes)
    requires Live(run) in w.files && RunIsGood(z, limit, w, run)
    ensures RunIsGood(z, limit, Appended(w, run, data), run)
  {
    var v, s := Appended(w, run, data), At(w.kept, run);
    RotationsStay(z, limit, w.files, v.files, run, s, w.clock, v.clock);
    var had, live := Data(z, w.files, s), w.files[Live(run)];
    SuffixGrows(had + live, At(w.recorded, run), data);
    Reassociate(had, live, data);
  }

  lemma AppendedOthers(w: World, run: nat, data: Bytes)
    requires Live(run) in w.files
    ensures OthersSame(w, Appended(w, run, data), run)
    ensures LiveRuns(Appended(w, run, data).files) == LiveRuns(w.files)
  {
  }

  lemma AppendedIsGood(z: Format, limit: Rotation, w: World, run: nat, data: Bytes)
    requires Good(z, limit, w) && Live(run) in w.files
    ensures Good(z, limit, Appended(w, run, data))
  {
    AppendedOthers(w, run, data);
    AppendedRunIsGood(z, limit, w, run, data);
    OneRunChanged(z, limit, w, Appended(w, run, data), run);
  }

  lemma LeftoverOthers(w: World, run: nat, stamp: nat)
    ensures OthersSame(w, WithLeftover(w, run, stamp), run)
    ensures LiveRuns(WithLeftover(w, run, stamp).files) == LiveRuns(w.files)
  {
  }

  lemma LeftoverIsGood(z: Format, limit: Rotation, w: World, run: nat, stamp: nat)
    requires Good(z, limit, w) && Live(run) in w.files
    ensures Good(z, limit, WithLeftover(w, run, stamp))
  {
    var v := WithLeftover(w, run, stamp);
    LeftoverOthers(w, run, stamp);
    SameRunIsGood(z, limit, w, v, run);
    OneRunChanged(z, limit, w, v, run);
  }

  // ---- Rotating ----

  ghost function FilesOf(s: seq<File>): set<File> {
    set f | f in s
  }

  lemma LastIsLatest(a: seq<File>, b: seq<File>)
    requires Strict(a) && ByStamp(b) && a != [] && FilesOf(a) == FilesOf(b)
    ensures b != [] && a[|a| - 1] == b[|b| - 1]
  {
    var x := a[|a| - 1];
    assert x in FilesOf(b);
    var y := b[|b| - 1];
    assert y in FilesOf(a);
    assert x.stamp <= y.stamp && y.stamp <= x.stamp;
  }

  lemma FrontFiles(s: seq<File>)
    requires s != [] && ByStamp(s)
    ensures var n := |s| - 1; ByStamp(s[..n]) && FilesOf(s[..n]) == FilesOf(s) - {s[n]}
  {
    var n := |s| - 1;
    assert s == s[..n] + [s[n]];
  }

  lemma StrictIsByStamp(s: seq<File>)
    requires Strict(s)
    ensures ByStamp(s) && (s != [] ==> Strict(s[..|s| - 1]))
  {
  }

  lemma {:induction false} SameOrder(a: seq<File>, b: seq<File>)
    requires Strict(a) && ByStamp(b) && FilesOf(a) == FilesOf(b)
    ensures a == b
    decreases |a|
  {
    assert b != [] ==> b[0] in FilesOf(b);
    if a != [] {
      LastIsLatest(a, b);
      StrictIsByStamp(a);
      FrontFiles(a);
      FrontFiles(b);
      SameOrder(a[..|a| - 1], b[..|b| - 1]);
      assert a == a[..|a| - 1] + [a[|a| - 1]] && b == b[..|b| - 1] + [b[|b| - 1]];
    }
  }

  /** One order by strictly increasing stamps. */
  lemma OneOrder(a: seq<File>, b: seq<File>)
    requires Strict(a) && ByStamp(b) && forall f :: f in a <==> f in b
    ensures a == b
  {
    assert FilesOf(a) == FilesOf(b);
    SameOrder(a, b);
  }

  /** While no two rotations of a run share a stamp, what a pass lists is what it is foreseen to. */
  lemma ListingIsForeseen(z: Format, limit: Rotation, w: World, run: nat, order: seq<File>, rest: seq<File>)
    requires Live(run) in w.files && RunIsGood(z, limit, w, run)
    requires IsOrder(w.files, run, order) && IsOrder(Trimmed(w.files, order, limit), run, rest)
    ensures order == At(w.kept, run) && rest == Rest(w, run, limit)
  {
    OneOrder(At(w.kept, run), order);
    TrimmedOrder(w.files, run, order, limit);
    OneOrder(Rest(w, run, limit), rest);
  }

  lemma OrderSplits(s: seq<File>, k: nat, f: File)
    requires ByStamp(s) && k <= |s|
    ensures f in s[k..] <==> f in s && f !in s[..k]
  {
    assert s == s[..k] + s[k..];
  }

  lemma RestByStamp(s: seq<File>, k: nat)
    requires ByStamp(s) && k <= |s|
    ensures ByStamp(s[k..])
  {
  }

  lemma TrimmedOrder(files: Files, run: nat, order: seq<File>, limit: Rotation)
    requires IsOrder(files, run, order)
    ensures IsOrder(Trimmed(files, order, limit), run, order[Excess(|order|, limit)..])
  {
    var k := Excess(|order|, limit);
    RestByStamp(order, k);
    forall f ensures f in order[k..] <==> f in Trimmed(files, order, limit) && f.Rotated? && f.run == run {
      OrderSplits(order, k, f);
    }
  }

  ghost predicate OfRun(s: seq<File>, run: nat) {
    forall i :: 0 <= i < |s| ==> s[i].Rotated? && s[i].run == run
  }

  lemma {:induction false} OtherStampsStay(z: Format, files: Files, run: nat, s: seq<File>, f: File)
    requires OfRun(s, run) && f.Rotated? && forall i :: 0 <= i < |s| ==> s[i].stamp != f.stamp
    ensures f in Packed(z, files, s) <==> f in files
    ensures f in files ==> Packed(z, files, s)[f] == files[f]
    decreases |s|
  {
    if s != [] {
      OtherStampsStay(z, files, run, s[..|s| - 1], f);
    }
  }

  lemma {:induction false} PackedReads(z: Format, files: Files, run: nat, s: seq<File>, i: nat)
    requires Faithful(z) && OfRun(s, run) && Strict(s) && i < |s| && s[i] in files
    requires s[i].gz ==> z.unpack(files[s[i]]).Some?
    ensures var f, packed := Zipped(s[i]), Packed(z, files, s);
      f in packed && z.unpack(packed[f]).Some? && Reads(z, f, packed[f]) == Reads(z, s[i], files[s[i]])
    decreases |s|
  {
    var front, last := s[..|s| - 1], s[|s| - 1];
    if i == |s| - 1 {
      OtherStampsStay(z, files, run, front, last);
    } else {
      assert front[i] == s[i];
      PackedReads(z, files, run, front, i);
    }
  }

  lemma PackedFile(z: Format, files: Files, run: nat, s: seq<File>, f: File)
    requires Faithful(z) && IsOrder(files, run, s) && Strict(s) && f.Rotated? && f.run == run
    requires forall i :: 0 <= i < |s| && s[i].gz ==> z.unpack(files[s[i]]).Some?
    ensures f in Packed(z, files, s) <==> f in ZippedAll(s)
  {
    assert forall i :: 0 <= i < |s| ==> s[i] in s;
    if i :| 0 <= i < |s| && s[i].stamp == f.stamp {
      PackedReads(z, files, run, s, i);
      if f.gz {
        assert f == ZippedAll(s)[i];
      } else {
        NoPlainLeft(z, files, run, s, f);
      }
    } else {
      OtherStampsStay(z, files, run, s, f);
    }
  }

  lemma PackedIsOrdered(z: Format, files: Files, run: nat, s: seq<File>)
    requires Faithful(z) && IsOrder(files, run, s) && Strict(s)
    requires forall i :: 0 <= i < |s| && s[i].gz ==> z.unpack(files[s[i]]).Some?
    ensures IsOrder(Packed(z, files, s), run, ZippedAll(s)) && Strict(ZippedAll(s))
  {
    var t := ZippedAll(s);
    assert forall i :: 0 <= i < |s| ==> s[i] in s && t[i].run == run;
    forall f: File | f.Rotated? && f.run == run
      ensures f in Packed(z, files, s) <==> f in t
    {
      PackedFile(z, files, run, s, f);
    }
  }

  ghost predicate ReadsSame(z: Format, files: Files, s: seq<File>, packed: Files, t: seq<File>) {
    |s| == |t| && forall i :: 0 <= i < |s| ==>
      && s[i].Rotated? && s[i] in files && t[i].Rotated? && t[i] in packed && t[i].gz
      && z.unpack(packed[t[i]]).Some? && Reads(z, t[i], packed[t[i]]) == Reads(z, s[i], files[s[i]])
  }

  lemma PackedReadsSame(z: Format, files: Files, run: nat, s: seq<File>)
    requires Faithful(z) && IsOrder(files, run, s) && Strict(s)
    requires forall i :: 0 <= i < |s| && s[i].gz ==> z.unpack(files[s[i]]).Some?
    ensures ReadsSame(z, files, s, Packed(z, files, s), ZippedAll(s))
  {
    assert forall i :: 0 <= i < |s| ==> s[i] in s;
    forall i | 0 <= i < |s| {
      PackedReads(z, files, run, s, i);
    }
  }

  /** Compressing changes no order and loses no data. */
  lemma PackingKeepsData(z: Format, limit: Rotation, files: Files, run: nat, s: seq<File>, clock: nat)
    requires Faithful(z) && IsOrder(files, run, s) && Shape(z, limit, files, s, clock)
    ensures IsOrder(Packed(z, files, s), run, ZippedAll(s))
    ensures Shape(z, limit, Packed(z, files, s), ZippedAll(s), clock)
    ensures Data(z, Packed(z, files, s), ZippedAll(s)) == Data(z, files, s)
  {
    PackedIsOrdered(z, files, run, s);
    PackedReadsSame(z, files, run, s);
    SameData(z, files, s, Packed(z, files, s), ZippedAll(s));
  }

  ghost predicate Adds(files: Files, run: nat, target: File, data: Bytes, after: Files) {
    && target.Rotated? && target in after && after[target] == data
    && forall f: File :: f.run == run && f.Rotated? && f != target ==>
         (f in files <==> f in after) && (f in files ==> after[f] == files[f])
  }

  lemma AddsNewest(files: Files, run: nat, target: File, data: Bytes)
    requires target.Rotated?
    ensures Adds(files, run, target, data, files[target := data][Live(run) := []])
  {
  }

  lemma AddedIsOrdered(files: Files, run: nat, s: seq<File>, target: File, data: Bytes, after: Files)
    requires IsOrder(files, run, s) && Adds(files, run, target, data, after) && target.run == run
    requires forall i :: 0 <= i < |s| ==> s[i].stamp < target.stamp
    ensures IsOrder(after, run, s + [target])
    ensures forall i :: 0 <= i < |s| ==> s[i] in after && after[s[i]] == files[s[i]]
  {
    assert forall i :: 0 <= i < |s| ==> s[i] in s && s[i] != target;
    ByStampWith(s, target);
  }

  lemma AddedShape(z: Format, limit: Rotation, files: Files, s: seq<File>, clock: nat, target: File, after: Files)
    requires Shape(z, limit, files, s, clock) && |s| < MaxRotations(limit)
    requires target.Rotated? && !target.gz && clock <= target.stamp && target in after
    requires forall i :: 0 <= i < |s| ==> s[i].gz && s[i] in after && after[s[i]] == files[s[i]]
    ensures Shape(z, limit, after, s + [target], target.stamp + 1)
  {
    var t := s + [target];
    assert forall i :: 0 <= i < |s| ==> t[i] == s[i];
  }

  lemma AddedData(z: Format, files: Files, s: seq<File>, target: File, after: Files)
    requires target.Rotated? && !target.gz && target in after
    requires forall i :: 0 <= i < |s| ==> s[i].Rotated? && s[i] in files && s[i] in after && after[s[i]] == files[s[i]]
    ensures Data(z, after, s + [target]) == Data(z, files, s) + after[target]
  {
    SameData(z, files, s, after, s);
    assert (s + [target])[..|s|] == s;
  }

  lemma NewestIsAdded(z: Format, limit: Rotation, files: Files, run: nat, s: seq<File>, clock: nat, target: File,
                      data: Bytes, after: Files)
    requires IsOrder(files, run, s) && Shape(z, limit, files, s, clock)
    requires Adds(files, run, target, data, after) && target.run == run && !target.gz && clock <= target.stamp
    requires |s| < MaxRotations(limit) && forall i :: 0 <= i < |s| ==> s[i].gz
    ensures IsOrder(after, run, s + [target]) && Shape(z, limit, after, s + [target], target.stamp + 1)
    ensures Data(z, after, s + [target]) == Data(z, files, s) + data
  {
    AddedIsOrdered(files, run, s, target, data, after);
    AddedShape(z, limit, files, s, clock, target, after);
    AddedData(z, files, s, target, after);
  }

  lemma NewestIsLast(z: Format, limit: Rotation, files: Files, run: nat, s: seq<File>, clock: nat, target: File,
                     data: Bytes, left: Bytes)
    requires IsOrder(files, run, s) && Shape(z, limit, files, s, clock) && Data(z, files, s) == left
    requires target.Rotated? && target.run == run && !target.gz && clock <= target.stamp
    requires |s| < MaxRotations(limit) && forall i :: 0 <= i < |s| ==> s[i].gz
    ensures var after := files[target := data][Live(run) := []];
      && IsOrder(after, run, s + [target]) && Shape(z, limit, after, s + [target], target.stamp + 1)
      && Data(z, after, s + [target]) == left + data
  {
    AddsNewest(files, run, target, data);
    NewestIsAdded(z, limit, files, run, s, clock, target, data, files[target := data][Live(run) := []]);
  }

  lemma RestIsListed(files: Files, run: nat, order: seq<File>, limit: Rotation)
    requires IsOrder(files, run, order)
    ensures var rest, trimmed := order[Excess(|order|, limit)..], Trimmed(files, order, limit);
      forall i :: 0 <= i < |rest| ==> rest[i] in trimmed && trimmed[rest[i]] == files[rest[i]]
  {
    TrimmedOrder(files, run, order, limit);
    var rest := order[Excess(|order|, limit)..];
    assert forall i :: 0 <= i < |rest| ==> rest[i] in rest;
  }

  lemma RestHasShape(z: Format, limit: Rotation, files: Files, order: seq<File>, clock: nat, k: nat, after: Files)
    requires Shape(z, limit, files, order, clock) && k <= |order|
    requires forall i :: 0 <= i < |order[k..]| ==>
               order[k..][i] in after && after[order[k..][i]] == files[order[k..][i]]
    ensures Shape(z, limit, after, order[k..], clock)
  {
    var rest := order[k..];
    assert forall i :: 0 <= i < |rest| ==> rest[i] == order[k + i];
  }

  lemma TrimmedShape(z: Format, limit: Rotation, files: Files, run: nat, order: seq<File>, clock: nat)
    requires IsOrder(files, run, order) && Shape(z, limit, files, order, clock)
    ensures Shape(z, limit, Trimmed(files, order, limit), order[Excess(|order|, limit)..], clock)
  {
    RestIsListed(files, run, order, limit);
    RestHasShape(z, limit, files, order, clock, Excess(|order|, limit), Trimmed(files, order, limit));
  }

  lemma TrimmedData(z: Format, limit: Rotation, files: Files, run: nat, order: seq<File>)
    returns (gone: Bytes, left: Bytes)
    requires IsOrder(files, run, order) && forall i :: 0 <= i < |order| ==> order[i] in files
    ensures var k, trimmed := Excess(|order|, limit), Trimmed(files, order, limit);
      && (forall i :: 0 <= i < |order[k..]| ==> order[k..][i] in trimmed)
      && Data(z, trimmed, order[k..]) == left
    ensures Data(z, files, order) == gone + left
  {
    var k := Excess(|order|, limit);
    RestIsListed(files, run, order, limit);
    SameData(z, files, order[k..], Trimmed(files, order, limit), order[k..]);
    DataSplits(z, files, order, k);
    gone, left := Data(z, files, order[..k]), Data(z, files, order[k..]);
  }

  lemma SuffixOfSuffix(a: Bytes, b: Bytes, c: Bytes)
    requires IsSuffix(a + b, c)
    ensures IsSuffix(b, c)
  {
    assert c[|c| - |b|..] == (c[|c| - |a + b|..])[|a|..];
    assert (a + b)[|a|..] == b;
  }

  lemma SuffixAfter(gone: Bytes, left: Bytes, live: Bytes, recorded: Bytes, caught: Bytes)
    requires IsSuffix((gone + left) + live, recorded) && live <= caught
    ensures IsSuffix((left + caught) + [], recorded + caught[|live|..])
  {
    Reassociate(gone, left, live);
    SuffixOfSuffix(gone, left + live, recorded);
    SuffixGrows(left + live, recorded, caught[|live|..]);
    assert (left + live) + caught[|live|..] == left + caught;
    assert (left + caught) + [] == left + caught;
  }

  /** Making room and compressing: `gone` is what the rotations deleted held, `left` what the
      others hold, before and after. */
  lemma RoomIsMade(z: Format, limit: Rotation, files: Files, run: nat, order: seq<File>, clock: nat)
    returns (gone: Bytes, left: Bytes)
    requires Faithful(z) && IsOrder(files, run, order) && Shape(z, limit, files, order, clock)
    ensures var rest := order[Excess(|order|, limit)..];
      var packed, t := Packed(z, Trimmed(files, order, limit), rest), ZippedAll(rest);
      IsOrder(packed, run, t) && Shape(z, limit, packed, t, clock) && Data(z, packed, t) == left
    ensures Data(z, files, order) == gone + left
  {
    var k := Excess(|order|, limit);
    TrimmedOrder(files, run, order, limit);
    TrimmedShape(z, limit, files, run, order, clock);
    gone, left := TrimmedData(z, limit, files, run, order);
    PackingKeepsData(z, limit, Trimmed(files, order, limit), run, order[k..], clock);
  }

  ghost predicate AllBefore(s: seq<File>, stamp: nat) {
    forall i :: 0 <= i < |s| ==> s[i].Rotated? && s[i].stamp < stamp
  }

  lemma ShapeBefore(z: Format, limit: Rotation, files: Files, s: seq<File>, clock: nat, other: nat)
    requires Shape(z, limit, files, s, clock)
    requires forall i :: 0 <= i < |s| ==> s[i].stamp < other
    ensures Shape(z, limit, files, s, other)
  {
  }

  /** A rotated run's files: `gone` is what the rotations deleted held, `left` what the others do. */
  lemma RotatedInOrder(z: Format, limit: Rotation, files: Files, run: nat, order: seq<File>, clock: nat, stamp: nat,
                       caught: Bytes)
    returns (gone: Bytes, left: Bytes)
    requires Faithful(z) && IsOrder(files, run, order) && Shape(z, limit, files, order, clock)
    requires AllBefore(order[Excess(|order|, limit)..], stamp)
    ensures var rest, target := order[Excess(|order|, limit)..], Rotated(run, stamp, false);
      var t := ZippedAll(rest) + [target];
      var after := Packed(z, Trimmed(files, order, limit), rest)[target := caught][Live(run) := []];
      && IsOrder(after, run, t) && Shape(z, limit, after, t, stamp + 1)
      && Data(z, after, t) == left + caught
    ensures Data(z, files, order) == gone + left
  {
    var rest, target := order[Excess(|order|, limit)..], Rotated(run, stamp, false);
    gone, left := RoomIsMade(z, limit, files, run, order, clock);
    ShapeBefore(z, limit, Packed(z, Trimmed(files, order, limit), rest), ZippedAll(rest), clock, stamp);
    NewestIsLast(z, limit, Packed(z, Trimmed(files, order, limit), rest), run, ZippedAll(rest), stamp, target, caught,
                 left);
  }

  lemma PassedFiles(z: Format, limit: Rotation, w: World, run: nat, stamp: nat, arrivals: nat -> Bytes)
    requires Live(run) in w.files && |w.files[Live(run)]| > limit.maxSize
    ensures var packed := Packed(z, Trimmed(w.files, At(w.kept, run), limit), Rest(w, run, limit));
            Passed(z, limit, w, run, stamp, arrivals).files
            == packed[Rotated(run, stamp, false) := Caught(w.files[Live(run)], arrivals, 0)][Live(run) := []]
  {
  }

  lemma RotatedKept(z: Format, limit: Rotation, w: World, run: nat, stamp: nat, arrivals: nat -> Bytes)
    requires Live(run) in w.files && |w.files[Live(run)]| > limit.maxSize
    ensures At(Passed(z, limit, w, run, stamp, arrivals).kept, run)
            == ZippedAll(Rest(w, run, limit)) + [Rotated(run, stamp, false)]
  {
  }

  lemma RotatedRecorded(z: Format, limit: Rotation, w: World, run: nat, stamp: nat, arrivals: nat -> Bytes)
    requires Live(run) in w.files && |w.files[Live(run)]| > limit.maxSize
    ensures var v, live := Passed(z, limit, w, run, stamp, arrivals), w.files[Live(run)];
            && live <= Caught(live, arrivals, 0) && stamp < v.clock
            && At(v.recorded, run) == At(w.recorded, run) + Caught(live, arrivals, 0)[|live|..]
  {
    CaughtIsMore(w.files[Live(run)], arrivals);
  }

  /** A run is good when its parts are. */
  lemma GoodFromParts(z: Format, limit: Rotation, v: World, run: nat, t: seq<File>, clock: nat, data: Bytes)
    requires Live(run) in v.files && At(v.kept, run) == t && clock <= v.clock
    requires IsOrder(v.files, run, t) && Shape(z, limit, v.files, t, clock)
    requires Data(z, v.files, t) == data && IsSuffix(data + v.files[Live(run)], At(v.recorded, run))
    ensures RunIsGood(z, limit, v, run)
  {
    ShapeBefore(z, limit, v.files, t, clock, v.clock);
  }

  lemma RotatedRunIsGood(z: Format, limit: Rotation, w: World, run: nat, stamp: nat, arrivals: nat -> Bytes)
    requires Faithful(z) && AllBefore(Rest(w, run, limit), stamp)
    requires Live(run) in w.files && RunIsGood(z, limit, w, run) && |w.files[Live(run)]| > limit.maxSize
    ensures RunIsGood(z, limit, Passed(z, limit, w, run, stamp, arrivals), run)
  {
    var order, live := At(w.kept, run), w.files[Live(run)];
    var caught := Caught(live, arrivals, 0);
    var gone, left := RotatedInOrder(z, limit, w.files, run, order, w.clock, stamp, caught);
    PassedFiles(z, limit, w, run, stamp, arrivals);
    RotatedKept(z, limit, w, run, stamp, arrivals);
    RotatedRecorded(z, limit, w, run, stamp, arrivals);
    SuffixAfter(gone, left, live, At(w.recorded, run), caught);
    GoodFromParts(z, limit, Passed(z, limit, w, run, stamp, arrivals), run,
                  ZippedAll(Rest(w, run, limit)) + [Rotated(run, stamp, false)], stamp + 1, left + caught);
  }

  lemma OrderedByStamp(rest: seq<File>, run: nat, stamp: nat)
    requires Strict(ZippedAll(rest) + [Rotated(run, stamp, false)])
    requires forall i :: 0 <= i < |rest| ==> rest[i].Rotated?
    ensures AllBefore(rest, stamp)
  {
    var t := ZippedAll(rest) + [Rotated(run, stamp, false)];
    forall i | 0 <= i < |rest| ensures rest[i].stamp < stamp {
      assert t[i].stamp == rest[i].stamp && t[|rest|].stamp == stamp;
    }
  }

  lemma GoodIsStrict(z: Format, limit: Rotation, v: World, run: nat, t: seq<File>)
    requires Live(run) in v.files && RunIsGood(z, limit, v, run) && t == At(v.kept, run)
    ensures Strict(t)
  {
  }

  lemma GoodOnlyIfBefore(z: Format, limit: Rotation, w: World, run: nat, stamp: nat, arrivals: nat -> Bytes)
    requires Live(run) in w.files && RunIsGood(z, limit, w, run) && |w.files[Live(run)]| > limit.maxSize
    requires RunIsGood(z, limit, Passed(z, limit, w, run, stamp, arrivals), run)
    ensures AllBefore(Rest(w, run, limit), stamp)
  {
    RestIsRotated(z, limit, w, run);
    RotatedKept(z, limit, w, run, stamp, arrivals);
    GoodIsStrict(z, limit, Passed(z, limit, w, run, stamp, arrivals), run,
                 ZippedAll(Rest(w, run, limit)) + [Rotated(run, stamp, false)]);
    OrderedByStamp(Rest(w, run, limit), run, stamp);
  }

  /** A rotated run is good again exactly if the pass is stamped later than every rotation it
      leaves. */
  lemma RotatedRunIsGoodExactly(z: Format, limit: Rotation, w: World, run: nat, stamp: nat, arrivals: nat -> Bytes)
    requires Faithful(z)
    requires Live(run) in w.files && RunIsGood(z, limit, w, run) && |w.files[Live(run)]| > limit.maxSize
    ensures RunIsGood(z, limit, Passed(z, limit, w, run, stamp, arrivals), run)
       <==> AllBefore(Rest(w, run, limit), stamp)
  {
    if AllBefore(Rest(w, run, limit), stamp) {
      RotatedRunIsGood(z, limit, w, run, stamp, arrivals);
    }
    if RunIsGood(z, limit, Passed(z, limit, w, run, stamp, arrivals), run) {
      GoodOnlyIfBefore(z, limit, w, run, stamp, arrivals);
    }
  }

  lemma RestIsRotated(z: Format, limit: Rotation, w: World, run: nat)
    requires Live(run) in w.files && RunIsGood(z, limit, w, run)
    ensures forall i :: 0 <= i < |Rest(w, run, limit)| ==> Rest(w, run, limit)[i].Rotated?
  {
    var order := At(w.kept, run);
    assert forall i :: 0 <= i < |Rest(w, run, limit)| ==> Rest(w, run, limit)[i] == order[Excess(|order|, limit) + i];
  }

  lemma LaterIsAfterAll(z: Format, limit: Rotation, w: World, run: nat, stamp: nat)
    requires Live(run) in w.files && RunIsGood(z, limit, w, run) && w.clock <= stamp
    ensures AllBefore(Rest(w, run, limit), stamp)
  {
    var order := At(w.kept, run);
    RestIsRotated(z, limit, w, run);
    assert forall i :: 0 <= i < |Rest(w, run, limit)| ==> Rest(w, run, limit)[i] == order[Excess(|order|, limit) + i];
  }

  // ---- What a pass leaves alone ----

  lemma {:induction false} PackingAddsOnlyHere(z: Format, files: Files, run: nat, s: seq<File>, f: File)
    requires OfRun(s, run)
    ensures f in Packed(z, files, s) ==> f in files || f.run == run
    decreases |s|
  {
    if s != [] {
      PackingAddsOnlyHere(z, files, run, s[..|s| - 1], f);
    }
  }

  /** A pass leaves the files of every run but the newest as they are. */
  lemma PassTouchesOneRun(z: Format, files: Files, run: nat, order: seq<File>, rest: seq<File>, limit: Rotation,
                          stamp: nat, arrivals: nat -> Bytes, f: File)
    requires Live(run) in files && OfRun(order, run) && OfRun(rest, run)
    requires f.run != run && !f.Temp?
    ensures var after := AfterPass(z, files, run, order, rest, limit, stamp, arrivals);
      (f in after <==> f in files) && (f in files ==> after[f] == files[f])
  {
    OthersStay(z, Trimmed(files, order, limit), run, rest, f);
  }

  lemma PassedOthers(z: Format, limit: Rotation, w: World, run: nat, stamp: nat, arrivals: nat -> Bytes)
    requires Live(run) in w.files && OfRun(At(w.kept, run), run)
    ensures OthersSame(w, Passed(z, limit, w, run, stamp, arrivals), run)
    ensures LiveRuns(Passed(z, limit, w, run, stamp, arrivals).files) == LiveRuns(w.files)
  {
    var v := Passed(z, limit, w, run, stamp, arrivals);
    var order, rest := At(w.kept, run), Rest(w, run, limit);
    assert Live(run) in v.files;
    forall f: File | f.run != run && !f.Temp?
      ensures (f in v.files <==> f in w.files) && (f in w.files ==> v.files[f] == w.files[f])
    {
      PassTouchesOneRun(z, w.files, run, order, rest, limit, stamp, arrivals, f);
    }
  }

  lemma PassedIsRooted(z: Format, limit: Rotation, w: World, run: nat, stamp: nat, arrivals: nat -> Bytes)
    requires Live(run) in w.files && OfRun(At(w.kept, run), run) && Rooted(w.files)
    ensures Rooted(Passed(z, limit, w, run, stamp, arrivals).files)
  {
    var v := Passed(z, limit, w, run, stamp, arrivals);
    PassedOthers(z, limit, w, run, stamp, arrivals);
    forall f | f in v.files
      ensures Live(f.run) in v.files
    {
      if f.run != run {
        PackingAddsOnlyHere(z, Trimmed(w.files, At(w.kept, run), limit), run, Rest(w, run, limit), f);
        assert f in w.files;
        assert f.run in LiveRuns(w.files);
      }
    }
  }

  lemma PassedRunIsGood(z: Format, limit: Rotation, w: World, run: nat, stamp: nat, arrivals: nat -> Bytes)
    requires Faithful(z) && w.clock <= stamp
    requires Live(run) in w.files && RunIsGood(z, limit, w, run)
    ensures RunIsGood(z, limit, Passed(z, limit, w, run, stamp, arrivals), run)
  {
    if |w.files[Live(run)]| <= limit.maxSize {
      SameRunIsGood(z, limit, w, Passed(z, limit, w, run, stamp, arrivals), run);
    } else {
      LaterIsAfterAll(z, limit, w, run, stamp);
      RotatedRunIsGood(z, limit, w, run, stamp, arrivals);
    }
  }

  lemma PassedIsGood(z: Format, limit: Rotation, w: World, run: nat, stamp: nat, arrivals: nat -> Bytes)
    requires Faithful(z) && Good(z, limit, w) && Live(run) in w.files && w.clock <= stamp
    ensures Good(z, limit, Passed(z, limit, w, run, stamp, arrivals))
  {
    PassedOthers(z, limit, w, run, stamp, arrivals);
    PassedIsRooted(z, limit, w, run, stamp, arrivals);
    PassedRunIsGood(z, limit, w, run, stamp, arrivals);
    OneRunChanged(z, limit, w, Passed(z, limit, w, run, stamp, arrivals), run);
  }

  /** What a pass does on disk is what `Passed` says, whatever order it lists equal stamps in. */
  lemma PassIsForeseen(z: Format, limit: Rotation, w: World, run: nat, order: seq<File>, rest: seq<File>, stamp: nat,
                       arrivals: nat -> Bytes)
    requires Live(run) in w.files && RunIsGood(z, limit, w, run) && IsOrder(w.files, run, order)
    requires |w.files[Live(run)]| > limit.maxSize ==> IsOrder(Trimmed(w.files, order, limit), run, rest)
    ensures AfterPass(z, w.files, run, order, rest, limit, stamp, arrivals)
         == Passed(z, limit, w, run, stamp, arrivals).files
  {
    if |w.files[Live(run)]| > limit.maxSize {
      ListingIsForeseen(z, limit, w, run, order, rest);
    }
  }

  // ---- Whole runs ----

  ghost predicate Allowed(z: Format, limit: Rotation, w: World, events: seq<Event>)
    decreases |events|
  {
    events == [] || (Enabled(w, events[0]) && Allowed(z, limit, Next(z, limit, w, events[0]), events[1..]))
  }

  ghost function After(z: Format, limit: Rotation, w: World, events: seq<Event>): World
    requires Allowed(z, limit, w, events)
    decreases |events|
  {
    if events == [] then w else After(z, limit, Next(z, limit, w, events[0]), events[1..])
  }

  lemma NextIsGood(z: Format, limit: Rotation, w: World, e: Event)
    requires Faithful(z) && Good(z, limit, w) && Enabled(w, e)
    ensures Good(z, limit, Next(z, limit, w, e))
  {
    match e
    case Start(_, run) => StartedIsGood(z, limit, w, run);
    case Append(run, data) => AppendedIsGood(z, limit, w, run, data);
    case Cut(run, stamp) => LeftoverIsGood(z, limit, w, run, stamp);
    case Pass(run, stamp, arrivals) => PassedIsGood(z, limit, w, run, stamp, arrivals);
  }

  lemma {:induction false} EveryRunIsGood(z: Format, limit: Rotation, w: World, events: seq<Event>)
    requires Faithful(z) && Good(z, limit, w) && Allowed(z, limit, w, events)
    ensures Good(z, limit, After(z, limit, w, events))
    decreases |events|
  {
    if events != [] {
      NextIsGood(z, limit, w, events[0]);
      EveryRunIsGood(z, limit, Next(z, limit, w, events[0]), events[1..]);
    }
  }

  /** In every run from an empty directory, with stamps that increase: a live run's rotations,
      oldest first, followed by its live file are the last part of all that was recorded for it,
      they are within the number of files allowed, and at most one, the newest, is not
      compressed. */
  lemma LogsAreKept(codec: G.Codec, limit: Rotation, events: seq<Event>, run: nat)
    requires G.Lossless(codec) && Allowed(GzipFormat(codec), limit, EMPTY, events)
    requires Live(run) in After(GzipFormat(codec), limit, EMPTY, events).files
    ensures var w := After(GzipFormat(codec), limit, EMPTY, events);
      var order := At(w.kept, run);
      && IsOrder(w.files, run, order) && Strict(order)
      && (forall i :: 0 <= i < |order| ==> order[i] in w.files)
      && IsSuffix(Data(GzipFormat(codec), w.files, order) + w.files[Live(run)], At(w.recorded, run))
      && |order| + 1 <= (if limit.maxFiles > 2 then limit.maxFiles else 2)
      && (forall i :: 0 <= i < |order| && !order[i].gz ==> i == |order| - 1)
  {
    var z := GzipFormat(codec);
    GzipIsFaithful(codec);
    EmptyIsGood(z, limit);
    EveryRunIsGood(z, limit, EMPTY, events);
    assert RunIsGood(z, limit, After(z, limit, EMPTY, events), run);
  }

  lemma EmptyIsGood(z: Format, limit: Rotation)
    ensures Good(z, limit, EMPTY)
  {
    assert LiveRuns(EMPTY.files) == {};
  }

  // ---- Run numbers ----

  ghost predicate Reached(files: Files, n: nat) {
    exists m: nat :: n <= m && Live(m) in files
  }

  lemma PassKeepsReach(z: Format, limit: Rotation, w: World, run: nat, stamp: nat, arrivals: nat -> Bytes, n: nat)
    requires Live(run) in w.files && OfRun(At(w.kept, run), run) && Reached(w.files, n)
    ensures Reached(Passed(z, limit, w, run, stamp, arrivals).files, n)
  {
    PassedOthers(z, limit, w, run, stamp, arrivals);
    var m: nat :| n <= m && Live(m) in w.files;
    assert m in LiveRuns(w.files);
  }

  lemma ReachedStays(z: Format, limit: Rotation, w: World, e: Event, n: nat)
    requires Enabled(w, e) && Reached(w.files, n) && (e.Pass? ==> OfRun(At(w.kept, e.run), e.run))
    ensures Reached(Next(z, limit, w, e).files, n)
  {
    if e.Pass? {
      PassKeepsReach(z, limit, w, e.run, e.stamp, e.arrivals, n);
    } else {
      var m: nat :| n <= m && Live(m) in w.files;
      var k := if e.Start? then e.run else m;
      assert Live(k) in Next(z, limit, w, e).files;
    }
  }

  lemma KeptOfRun(z: Format, limit: Rotation, w: World, run: nat)
    requires Live(run) in w.files && RunIsGood(z, limit, w, run)
    ensures OfRun(At(w.kept, run), run)
  {
    var s := At(w.kept, run);
    assert forall i :: 0 <= i < |s| ==> s[i] in s;
  }

  /** A good directory stays good and keeps a run numbered `n` or more. */
  lemma StepKeepsReach(z: Format, limit: Rotation, w: World, e: Event, n: nat)
    requires Faithful(z) && Good(z, limit, w) && Enabled(w, e) && Reached(w.files, n)
    ensures Good(z, limit, Next(z, limit, w, e)) && Reached(Next(z, limit, w, e).files, n)
  {
    if e.Pass? {
      KeptOfRun(z, limit, w, e.run);
    }
    ReachedStays(z, limit, w, e, n);
    NextIsGood(z, limit, w, e);
  }

  lemma NextIsOver(files: Files, atLeast: nat, run: nat, n: nat)
    requires IsNext(files, atLeast, run) && Reached(files, n)
    ensures n < run
  {
  }

  ghost predicate KeepsReach(before: Files, after: Files) {
    forall n: nat :: Reached(before, n) ==> Reached(after, n)
  }

  /** An invariant under which no step gives a run number back. */
  ghost predicate Steady(inv: World -> bool, z: Format, limit: Rotation) {
    forall w, e :: inv(w) && Enabled(w, e) ==>
      inv(Next(z, limit, w, e)) && KeepsReach(w.files, Next(z, limit, w, e).files)
  }

  lemma GoodIsSteady(z: Format, limit: Rotation)
    requires Faithful(z)
    ensures Steady(w => Good(z, limit, w), z, limit)
  {
    forall w, e | Good(z, limit, w) && Enabled(w, e)
      ensures Good(z, limit, Next(z, limit, w, e)) && KeepsReach(w.files, Next(z, limit, w, e).files)
    {
      NextIsGood(z, limit, w, e);
      forall n: nat | Reached(w.files, n)
        ensures Reached(Next(z, limit, w, e).files, n)
      {
        StepKeepsReach(z, limit, w, e, n);
      }
    }
  }

  lemma {:induction false} StartsAfter(inv: World -> bool, z: Format, limit: Rotation, w: World, events: seq<Event>,
                                       j: nat, n: nat)
    requires Steady(inv, z, limit) && inv(w) && Allowed(z, limit, w, events) && Reached(w.files, n)
    requires j < |events| && events[j].Start?
    ensures n < events[j].run
    decreases |events|
  {
    if j > 0 {
      var rest := events[1..];
      assert rest[j - 1] == events[j];
      StartsAfter(inv, z, limit, Next(z, limit, w, events[0]), rest, j - 1, n);
    } else {
      NextIsOver(w.files, events[0].atLeast, events[0].run, n);
    }
  }

  lemma {:induction false} StartsIncrease(inv: World -> bool, z: Format, limit: Rotation, w: World, events: seq<Event>,
                                          i: nat, j: nat)
    requires Steady(inv, z, limit) && inv(w) && Allowed(z, limit, w, events)
    requires i < j < |events| && events[i].Start? && events[j].Start?
    ensures events[i].run < events[j].run
    decreases |events|
  {
    var next, rest := Next(z, limit, w, events[0]), events[1..];
    assert rest[j - 1] == events[j];
    if i == 0 {
      assert Live(events[0].run) in next.files;
      StartsAfter(inv, z, limit, next, rest, j - 1, events[0].run);
    } else {
      assert rest[i - 1] == events[i];
      StartsIncrease(inv, z, limit, next, rest, i - 1, j - 1);
    }
  }

  /** Run numbers strictly increase, so none is used twice, whatever was pruned in between. */
  lemma RunNumbersIncrease(z: Format, limit: Rotation, w: World, events: seq<Event>, i: nat, j: nat)
    requires Faithful(z) && Good(z, limit, w) && Allowed(z, limit, w, events)
    requires i < j < |events| && events[i].Start? && events[j].Start?
    ensures events[i].run < events[j].run
  {
    GoodIsSteady(z, limit);
    StartsIncrease(v => Good(z, limit, v), z, limit, w, events, i, j);
  }

  // ---- Why the stamps must increase ----

  function Quiet(k: nat): Bytes {
    []
  }

  lemma PackFew(z: Format, files: Files, x: File, y: File)
    ensures Packed(z, files, []) == files
    ensures Packed(z, files, [x]) == PackedOne(z, files, x)
    ensures Packed(z, files, [x, y]) == PackedOne(z, PackedOne(z, files, x), y)
  {
    assert [x][..0] == [];
    assert [x, y][..1] == [x];
  }

  lemma QuietPass(z: Format, files: Files, order: seq<File>, stamp: nat)
    requires Live(0) in files && files[Live(0)] != [] && |order| <= 2
    requires forall f :: f in files ==> !f.Temp?
    ensures AfterPass(z, files, 0, order, order, Rotation(0, 5), stamp, Quiet)
         == Packed(z, files, order)[Rotated(0, stamp, false) := files[Live(0)]][Live(0) := []]
  {
    var live := files[Live(0)];
    assert live + Quiet(0) == live && live + [] == live;
    assert Caught([], Quiet, 1) == [];
    assert Caught(live, Quiet, 0) == live;
    assert Trimmed(files, order, Rotation(0, 5)) == files;
  }

  lemma FirstPass(z: Format, a: Bytes, b: Bytes, stamp: nat)
    requires a != []
    ensures AfterPass(z, map[Live(0) := a], 0, [], [], Rotation(0, 5), stamp, Quiet)[Live(0) := b]
         == map[Rotated(0, stamp, false) := a, Live(0) := b]
  {
    PackFew(z, map[Live(0) := a], Live(0), Live(0));
    QuietPass(z, map[Live(0) := a], [], stamp);
  }

  lemma SecondPass(z: Format, a: Bytes, b: Bytes, c: Bytes, stamp: nat)
    requires b != []
    ensures var plain, gz := Rotated(0, stamp, false), Rotated(0, stamp, true);
      AfterPass(z, map[plain := a, Live(0) := b], 0, [plain], [plain], Rotation(0, 5), stamp, Quiet)[Live(0) := c]
      == map[gz := z.pack(a), plain := b, Live(0) := c]
  {
    var plain := Rotated(0, stamp, false);
    PackFew(z, map[plain := a, Live(0) := b], plain, plain);
    QuietPass(z, map[plain := a, Live(0) := b], [plain], stamp);
  }

  lemma ThirdPass(z: Format, a: Bytes, b: Bytes, c: Bytes, stamp: nat, later: nat)
    requires c != []
    ensures var plain, gz := Rotated(0, stamp, false), Rotated(0, stamp, true);
      AfterPass(z, map[gz := a, plain := b, Live(0) := c], 0, [gz, plain], [gz, plain], Rotation(0, 5), later, Quiet)
      == map[gz := z.pack(b), Rotated(0, later, false) := c, Live(0) := []]
  {
    var plain, gz := Rotated(0, stamp, false), Rotated(0, stamp, true);
    var files := map[gz := a, plain := b, Live(0) := c];
    PackFew(z, files, gz, plain);
    QuietPass(z, files, [gz, plain], later);
    assert PackedOne(z, PackedOne(z, files, gz), plain) == map[gz := z.pack(b), Live(0) := c];
  }

  lemma FirstIsNowhere(z: Format, a: Bytes, b: Bytes, c: Bytes, stamp: nat, later: nat)
    requires Faithful(z) && a != b && a != c
    ensures var three := map[Rotated(0, stamp, true) := z.pack(b), Rotated(0, later, false) := c, Live(0) := []];
      forall f :: f in three && f.Rotated? ==> Reads(z, f, three[f]) != a
  {
  }

  lemma OneInOrder(files: Files, stamp: nat)
    requires files.Keys == {Rotated(0, stamp, false), Live(0)}
    ensures IsOrder(files, 0, [Rotated(0, stamp, false)])
  {
    var s := [Rotated(0, stamp, false)];
    assert s[0] in s;
  }

  lemma TwinsInOrder(files: Files, stamp: nat)
    requires files.Keys == {Rotated(0, stamp, true), Rotated(0, stamp, false), Live(0)}
    ensures IsOrder(files, 0, [Rotated(0, stamp, true), Rotated(0, stamp, false)])
  {
    var s := [Rotated(0, stamp, true), Rotated(0, stamp, false)];
    assert s[0] in s && s[1] in s;
  }

  /** An input that loses data: two rotations of one second and a third. What the first took is on
      no file any more, although there is room for it. */
  lemma SharedStampInput(z: Format, a: Bytes, b: Bytes, c: Bytes, stamp: nat, later: nat)
    requires Faithful(z) && |a| > 0 && |b| > 0 && |c| > 0 && a != b && a != c && stamp < later
    ensures var limit, plain, gz := Rotation(0, 5), Rotated(0, stamp, false), Rotated(0, stamp, true);
      var one := AfterPass(z, map[Live(0) := a], 0, [], [], limit, stamp, Quiet);
      var two := AfterPass(z, one[Live(0) := b], 0, [plain], [plain], limit, stamp, Quiet);
      var three := AfterPass(z, two[Live(0) := c], 0, [gz, plain], [gz, plain], limit, later, Quiet);
      && IsOrder(one[Live(0) := b], 0, [plain]) && IsOrder(two[Live(0) := c], 0, [gz, plain])
      && gz in two && Reads(z, gz, two[gz]) == a
      && forall f :: f in three && f.Rotated? ==> Reads(z, f, three[f]) != a
  {
    FirstPass(z, a, b, stamp);
    SecondPass(z, a, b, c, stamp);
    ThirdPass(z, z.pack(a), b, c, stamp, later);
    OneInOrder(map[Rotated(0, stamp, false) := a, Live(0) := b], stamp);
    FirstIsNowhere(z, a, b, c, stamp, later);
    TwinsInOrder(map[Rotated(0, stamp, true) := z.pack(a), Rotated(0, stamp, false) := b, Live(0) := c], stamp);
  }

  lemma {:induction false} UnlistedStays(z: Format, files: Files, run: nat, s: seq<File>, p: File)
    requires OfRun(s, run) && IsPlain(p) && p.run == run && p in files && p !in s
    ensures p in Packed(z, files, s) && Packed(z, files, s)[p] == files[p]
    decreases |s|
  {
    if s != [] {
      UnlistedStays(z, files, run, s[..|s| - 1], p);
      assert s[|s| - 1] in s;
    }
  }

  /** A listed plain rotation is compressed, over whatever had its compressed name. */
  lemma {:induction false} ListedIsPacked(z: Format, files: Files, run: nat, s: seq<File>, p: File)
    requires OfRun(s, run) && IsPlain(p) && p.run == run && p in files && p in s
    ensures var packed := Packed(z, files, s);
            p !in packed && Zipped(p) in packed && packed[Zipped(p)] == z.pack(files[p])
    decreases |s|
  {
    var front, last := s[..|s| - 1], s[|s| - 1];
    assert s == front + [last];
    if p in front {
      ListedIsPacked(z, files, run, front, p);
    } else {
      UnlistedStays(z, files, run, front, p);
    }
  }

  /** The next rotating pass over twins that both survive its trimming leaves the older's name with
      the newer's data. */
  lemma TwinIsOverwritten(z: Format, limit: Rotation, files: Files, run: nat, order: seq<File>, rest: seq<File>,
                          stamp: nat, later: nat, arrivals: nat -> Bytes)
    requires Live(run) in files && |files[Live(run)]| > limit.maxSize
    requires IsOrder(files, run, order) && IsOrder(Trimmed(files, order, limit), run, rest)
    requires Rotated(run, stamp, true) in rest && Rotated(run, stamp, false) in rest
    ensures var plain, gz := Rotated(run, stamp, false), Rotated(run, stamp, true);
      var after := AfterPass(z, files, run, order, rest, limit, later, arrivals);
      gz in after && after[gz] == z.pack(files[plain]) && (plain in after <==> later == stamp)
  {
    var plain := Rotated(run, stamp, false);
    assert forall i :: 0 <= i < |rest| ==> rest[i] in rest;
    ListedIsPacked(z, Trimmed(files, order, limit), run, rest, plain);
  }

  lemma OnlyTheNewerIsLeft(z: Format, limit: Rotation, files: Files, run: nat, order: seq<File>, rest: seq<File>,
                           stamp: nat, later: nat, arrivals: nat -> Bytes)
    requires Faithful(z) && Live(run) in files && |files[Live(run)]| > limit.maxSize && later != stamp
    requires IsOrder(files, run, order) && IsOrder(Trimmed(files, order, limit), run, rest)
    requires Rotated(run, stamp, true) in rest && Rotated(run, stamp, false) in rest
    ensures var after := AfterPass(z, files, run, order, rest, limit, later, arrivals);
      && Rotated(run, stamp, true) in after
      && forall g :: g in after && g.Rotated? && g.run == run && g.stamp == stamp ==>
           Reads(z, g, after[g]) == files[Rotated(run, stamp, false)]
  {
    TwinIsOverwritten(z, limit, files, run, order, rest, stamp, later, arrivals);
  }

  lemma ListedReads(z: Format, files: Files, run: nat, s: seq<File>, f: File)
    requires Faithful(z) && OfRun(s, run) && Strict(s) && f in s
    requires forall i :: 0 <= i < |s| ==> s[i] in files && (s[i].gz ==> z.unpack(files[s[i]]).Some?)
    ensures var packed := Packed(z, files, s);
      && f.Rotated? && f.run == run && f in files && Zipped(f) in packed
      && Reads(z, Zipped(f), packed[Zipped(f)]) == Reads(z, f, files[f])
  {
    var i :| 0 <= i < |s| && s[i] == f;
    PackedReads(z, files, run, s, i);
  }

  lemma RestReads(z: Format, limit: Rotation, files: Files, run: nat, order: seq<File>, clock: nat, f: File)
    requires Faithful(z) && IsOrder(files, run, order) && Shape(z, limit, files, order, clock)
    requires f in order[Excess(|order|, limit)..]
    ensures var packed := Packed(z, Trimmed(files, order, limit), order[Excess(|order|, limit)..]);
      && f.Rotated? && f.run == run && f in files && Zipped(f) in packed
      && Reads(z, Zipped(f), packed[Zipped(f)]) == Reads(z, f, files[f])
  {
    var rest, trimmed := order[Excess(|order|, limit)..], Trimmed(files, order, limit);
    TrimmedOrder(files, run, order, limit);
    TrimmedShape(z, limit, files, run, order, clock);
    RestIsListed(files, run, order, limit);
    assert forall j :: 0 <= j < |rest| ==> rest[j] in rest;
    ListedReads(z, trimmed, run, rest, f);
  }

  lemma GzipStays(packed: Files, gz: File, plain: File, live: File, caught: Bytes)
    requires gz in packed && gz != plain && gz != live && plain != live
    ensures var v := packed[plain := caught][live := []];
            gz in v && v[gz] == packed[gz] && plain in v && v[plain] == caught
  {
  }

  /** A pass stamped like a rotation it leaves makes twins: the older data compressed, the newer
      plain. */
  lemma SharedStampMakesTwins(z: Format, limit: Rotation, w: World, run: nat, f: File, arrivals: nat -> Bytes)
    requires Faithful(z)
    requires Live(run) in w.files && RunIsGood(z, limit, w, run) && |w.files[Live(run)]| > limit.maxSize
    requires f in Rest(w, run, limit)
    ensures f.Rotated? && f.run == run && f in w.files
    ensures var v, plain := Passed(z, limit, w, run, f.stamp, arrivals).files, Rotated(run, f.stamp, false);
      && Zipped(f) in v && Reads(z, Zipped(f), v[Zipped(f)]) == Reads(z, f, w.files[f])
      && plain in v && v[plain] == Caught(w.files[Live(run)], arrivals, 0)
  {
    RestReads(z, limit, w.files, run, At(w.kept, run), w.clock, f);
    PassedFiles(z, limit, w, run, f.stamp, arrivals);
    GzipStays(Packed(z, Trimmed(w.files, At(w.kept, run), limit), Rest(w, run, limit)), Zipped(f),
              Rotated(run, f.stamp, false), Live(run), Caught(w.files[Live(run)], arrivals, 0));
  }

  /** For every good run and every limit: when a pass is stamped like a rotation `f` it leaves, the
      next rotating pass that leaves both, over a directory with the same rotations, loses what
      `f` held: whatever file still has that stamp holds what the newer one took. */
  lemma SharedStampLosesData(z: Format, limit: Rotation, w: World, run: nat, f: File, arrivals: nat -> Bytes,
                             files: Files, next: Rotation, order: seq<File>, rest: seq<File>, later: nat,
                             more: nat -> Bytes)
    requires Faithful(z)
    requires Live(run) in w.files && RunIsGood(z, limit, w, run) && |w.files[Live(run)]| > limit.maxSize
    requires f in Rest(w, run, limit) && f in w.files && f.Rotated? && later != f.stamp
    requires SameRotations(Passed(z, limit, w, run, f.stamp, arrivals).files, files, run)
    requires Live(run) in files && |files[Live(run)]| > next.maxSize
    requires IsOrder(files, run, order) && IsOrder(Trimmed(files, order, next), run, rest)
    requires Zipped(f) in rest && Rotated(run, f.stamp, false) in rest
    ensures Zipped(f) in files && Reads(z, Zipped(f), files[Zipped(f)]) == Reads(z, f, w.files[f])
    ensures var after := AfterPass(z, files, run, order, rest, next, later, more);
      && Zipped(f) in after
      && forall g :: g in after && g.Rotated? && g.run == run && g.stamp == f.stamp ==>
           Reads(z, g, after[g]) == Caught(w.files[Live(run)], arrivals, 0)
  {
    SharedStampMakesTwins(z, limit, w, run, f, arrivals);
    OnlyTheNewerIsLeft(z, next, files, run, order, rest, f.stamp, later, more);
    assert files[Rotated(run, f.stamp, false)] == Caught(w.files[Live(run)], arrivals, 0);
  }

  // ---- Exactly what is left ----

  lemma {:induction false} PackingLeavesNoTemps(z: Format, files: Files, s: seq<File>)
    requires forall f :: f in files ==> !f.Temp?
    requires forall i :: 0 <= i < |s| ==> s[i].Rotated?
    ensures forall f :: f in Packed(z, files, s) ==> !f.Temp?
    decreases |s|
  {
    if s != [] {
      PackingLeavesNoTemps(z, files, s[..|s| - 1]);
    }
  }

  /** After a pass nothing is left of a compression cut short, in any run. */
  lemma LeftoversGo(z: Format, limit: Rotation, files: Files, run: nat, order: seq<File>, rest: seq<File>,
                    stamp: nat, arrivals: nat -> Bytes, f: File)
    requires Live(run) in files && forall i :: 0 <= i < |rest| ==> rest[i].Rotated?
    requires f in AfterPass(z, files, run, order, rest, limit, stamp, arrivals)
    ensures !f.Temp?
  {
    PackingLeavesNoTemps(z, Trimmed(files, order, limit), rest);
  }

  /** `t` ends with the new rotation, and before it come the newest of `s`, as many as there is room
      for, compressed. */
  ghost predicate LastOf(t: seq<File>, s: seq<File>, maxFiles: nat, newest: File) {
    var k, most := |s|, if maxFiles > 2 then maxFiles else 2;
    && |t| == (if k + 2 <= most then k + 1 else most - 1)
    && t[|t| - 1] == newest
    && forall j :: 0 <= j < |t| - 1 ==> t[j] == Zipped(s[k + 1 - |t| + j])
  }

  lemma RestIsLast(order: seq<File>, limit: Rotation, newest: File)
    requires forall i :: 0 <= i < |order| ==> order[i].Rotated?
    ensures LastOf(ZippedAll(order[Excess(|order|, limit)..]) + [newest], order, limit.maxFiles, newest)
  {
    var rest := order[Excess(|order|, limit)..];
    assert |ZippedAll(rest)| == |rest|;
  }

  /** The data of each rotation of `s` that is left, by its compressed name. */
  ghost predicate SameDataLeft(z: Format, a: Files, s: seq<File>, b: Files, t: seq<File>)
    requires |t| <= |s| + 1 && forall i :: 0 <= i < |s| ==> s[i].Rotated? && s[i] in a
  {
    forall j :: |s| + 1 - |t| <= j < |s| ==>
      Zipped(s[j]) in b && Reads(z, Zipped(s[j]), b[Zipped(s[j])]) == Reads(z, s[j], a[s[j]])
  }

  lemma AllStampedBefore(z: Format, limit: Rotation, w: World, run: nat, stamp: nat)
    requires Live(run) in w.files && RunIsGood(z, limit, w, run)
    requires forall f :: f in w.files && f.Rotated? && f.run == run ==> f.stamp < stamp
    ensures AllBefore(Rest(w, run, limit), stamp)
  {
    var order := At(w.kept, run);
    forall i | 0 <= i < |Rest(w, run, limit)|
      ensures Rest(w, run, limit)[i].Rotated? && Rest(w, run, limit)[i].stamp < stamp
    {
      var f := order[Excess(|order|, limit) + i];
      assert Rest(w, run, limit)[i] == f && f in order;
    }
  }

  lemma LeftReads(z: Format, limit: Rotation, w: World, run: nat, stamp: nat, arrivals: nat -> Bytes, f: File)
    requires Faithful(z) && Live(run) in w.files && RunIsGood(z, limit, w, run)
    requires |w.files[Live(run)]| > limit.maxSize && f in Rest(w, run, limit)
    ensures var v := Passed(z, limit, w, run, stamp, arrivals).files;
            && f.Rotated? && f in w.files
            && Zipped(f) in v && Reads(z, Zipped(f), v[Zipped(f)]) == Reads(z, f, w.files[f])
  {
    RestReads(z, limit, w.files, run, At(w.kept, run), w.clock, f);
    PassedFiles(z, limit, w, run, stamp, arrivals);
    GzipStays(Packed(z, Trimmed(w.files, At(w.kept, run), limit), Rest(w, run, limit)), Zipped(f),
              Rotated(run, stamp, false), Live(run), Caught(w.files[Live(run)], arrivals, 0));
  }

  lemma KeptAreThere(z: Format, limit: Rotation, w: World, run: nat)
    requires Live(run) in w.files && RunIsGood(z, limit, w, run)
    ensures IsOrder(w.files, run, At(w.kept, run))
    ensures forall i :: 0 <= i < |At(w.kept, run)| ==> At(w.kept, run)[i].Rotated? && At(w.kept, run)[i] in w.files
  {
  }

  lemma DataIsLeft(z: Format, limit: Rotation, w: World, run: nat, stamp: nat, arrivals: nat -> Bytes, t: seq<File>)
    requires Faithful(z) && Live(run) in w.files && RunIsGood(z, limit, w, run)
    requires |w.files[Live(run)]| > limit.maxSize && |t| == |Rest(w, run, limit)| + 1
    requires forall i :: 0 <= i < |At(w.kept, run)| ==> At(w.kept, run)[i].Rotated? && At(w.kept, run)[i] in w.files
    ensures SameDataLeft(z, w.files, At(w.kept, run), Passed(z, limit, w, run, stamp, arrivals).files, t)
  {
    var s, rest := At(w.kept, run), Rest(w, run, limit);
    forall j | |s| + 1 - |t| <= j < |s|
      ensures var v := Passed(z, limit, w, run, stamp, arrivals).files;
              Zipped(s[j]) in v && Reads(z, Zipped(s[j]), v[Zipped(s[j])]) == Reads(z, s[j], w.files[s[j]])
    {
      assert rest[j - (|s| - |rest|)] == s[j];
      LeftReads(z, limit, w, run, stamp, arrivals, s[j]);
    }
  }

  lemma OrderAfter(z: Format, limit: Rotation, w: World, run: nat, stamp: nat, arrivals: nat -> Bytes)
    requires Faithful(z) && Live(run) in w.files && RunIsGood(z, limit, w, run)
    requires |w.files[Live(run)]| > limit.maxSize
    requires forall f :: f in w.files && f.Rotated? && f.run == run ==> f.stamp < stamp
    ensures var v := Passed(z, limit, w, run, stamp, arrivals); IsOrder(v.files, run, At(v.kept, run))
  {
    AllStampedBefore(z, limit, w, run, stamp);
    RotatedRunIsGood(z, limit, w, run, stamp, arrivals);
    KeptAreThere(z, limit, Passed(z, limit, w, run, stamp, arrivals), run);
  }

  /** Of the run's rotations in `w` those in `v` are the new one and the newest of the old, as many as
      there is room for, compressed, with their data. */
  ghost predicate KeptExactly(z: Format, maxFiles: nat, w: World, v: World, run: nat, newest: File) {
    var s, t := At(w.kept, run), At(v.kept, run);
    && IsOrder(w.files, run, s) && IsOrder(v.files, run, t)
    && LastOf(t, s, maxFiles, newest)
    && (forall i :: 0 <= i < |s| ==> s[i].Rotated? && s[i] in w.files)
    && SameDataLeft(z, w.files, s, v.files, t)
  }

  lemma KeptTogether(z: Format, maxFiles: nat, w: World, v: World, run: nat, newest: File, s: seq<File>, t: seq<File>)
    requires s == At(w.kept, run) && t == At(v.kept, run)
    requires IsOrder(w.files, run, s) && IsOrder(v.files, run, t) && LastOf(t, s, maxFiles, newest)
    requires forall i :: 0 <= i < |s| ==> s[i].Rotated? && s[i] in w.files
    requires SameDataLeft(z, w.files, s, v.files, t)
    ensures KeptExactly(z, maxFiles, w, v, run, newest)
  {
  }

  /** A rotating pass over a good run with k rotations, stamped later than they are, leaves exactly
      min(k + 1, max(max_files, 2) - 1): the new one and before it the newest of the old, in order,
      compressed, with their data. */
  lemma RotationKeepsExactly(z: Format, limit: Rotation, w: World, run: nat, stamp: nat, arrivals: nat -> Bytes)
    requires Faithful(z) && Live(run) in w.files && RunIsGood(z, limit, w, run)
    requires |w.files[Live(run)]| > limit.maxSize
    requires forall f :: f in w.files && f.Rotated? && f.run == run ==> f.stamp < stamp
    ensures KeptExactly(z, limit.maxFiles, w, Passed(z, limit, w, run, stamp, arrivals), run,
                        Rotated(run, stamp, false))
  {
    var t := ZippedAll(Rest(w, run, limit)) + [Rotated(run, stamp, false)];
    KeptAreThere(z, limit, w, run);
    OrderAfter(z, limit, w, run, stamp, arrivals);
    RotatedKept(z, limit, w, run, stamp, arrivals);
    RestIsLast(At(w.kept, run), limit, Rotated(run, stamp, false));
    DataIsLeft(z, limit, w, run, stamp, arrivals, t);
    KeptTogether(z, limit.maxFiles, w, Passed(z, limit, w, run, stamp, arrivals), run, Rotated(run, stamp, false),
                 At(w.kept, run), t);
  }

  lemma AllAreKept(z: Format, maxFiles: nat, w: World, v: World, run: nat, newest: File, f: File)
    requires KeptExactly(z, maxFiles, w, v, run, newest) && |At(w.kept, run)| + 2 <= maxFiles
    requires f in w.files && f.Rotated? && f.run == run
    ensures Zipped(f) in v.files && Reads(z, Zipped(f), v.files[Zipped(f)]) == Reads(z, f, w.files[f])
  {
    var i :| 0 <= i < |At(w.kept, run)| && At(w.kept, run)[i] == f;
  }

  /** So nothing is deleted while there is room for one more file. */
  lemma RoomDeletesNothing(z: Format, limit: Rotation, w: World, run: nat, stamp: nat, arrivals: nat -> Bytes, f: File)
    requires Faithful(z) && Live(run) in w.files && RunIsGood(z, limit, w, run)
    requires |w.files[Live(run)]| > limit.maxSize
    requires forall g :: g in w.files && g.Rotated? && g.run == run ==> g.stamp < stamp
    requires |At(w.kept, run)| + 2 <= limit.maxFiles && f in w.files && f.Rotated? && f.run == run
    ensures var v := Passed(z, limit, w, run, stamp, arrivals);
            Zipped(f) in v.files && Reads(z, Zipped(f), v.files[Zipped(f)]) == Reads(z, f, w.files[f])
  {
    RotationKeepsExactly(z, limit, w, run, stamp, arrivals);
    AllAreKept(z, limit.maxFiles, w, Passed(z, limit, w, run, stamp, arrivals), run, Rotated(run, stamp, false), f);
  }

  /** A file at the limit or below it is left as it is, and so is everything but what a compression
      cut short left. */
  lemma SmallFileIsLeft(z: Format, limit: Rotation, files: Files, run: nat, order: seq<File>, rest: seq<File>,
                        stamp: nat, arrivals: nat -> Bytes, f: File)
    requires Live(run) in files && |files[Live(run)]| <= limit.maxSize
    ensures var after := AfterPass(z, files, run, order, rest, limit, stamp, arrivals);
            (f in after <==> f in files && !f.Temp?) && (f in after ==> after[f] == files[f])
  {
  }
}

/** The restart backoff of a crash-looping container (pkg/kubelet/src/crashloop.rs).

    Instants and wall-clock times are whole nanoseconds. The clock does not advance
    inside one call. */
module CrashLoop {
  import opened Common

  const SEC: nat := 1_000_000_000
  const BASE: nat := 10 * SEC
  const CAP: nat := 300 * SEC
  const STABLE: nat := 600 * SEC

  function Seconds(n: int): int { n * 1_000_000_000 }

  datatype Entry = Entry(delay: nat, readyAt: nat, restartedAt: nat)

  /** An entry as written to the state file: whole wall-clock seconds. */
  datatype Saved = Saved(delaySecs: nat, readyAt: nat, restartedAt: nat)

  /** One reading of both clocks: the monotonic one and the wall clock since the epoch. */
  datatype Clock = Clock(now: nat, wall: nat)

  type Entries = map<string, Entry>

  // ---------------------------------------------------------------- the transitions

  function Key(podUid: string, container: string): string {
    podUid + "/" + container
  }

  function WaitLeft(entries: Entries, key: string, now: nat): Option<nat> {
    if key in entries && entries[key].readyAt > now then Some(entries[key].readyAt - now) else None
  }

  function Min(a: nat, b: nat): nat { if a < b then a else b }

  function NextDelay(entries: Entries, key: string, now: nat): nat {
    if key !in entries then BASE
    else if Forgiven(entries[key], now) then BASE
    else Min(entries[key].delay * 2, CAP)
  }

  predicate Forgiven(e: Entry, now: nat) {
    now >= e.restartedAt + STABLE
  }

  function AfterRestart(entries: Entries, key: string, now: nat): Entries {
    var d := NextDelay(entries, key, now);
    entries[key := Entry(d, now + d, now)]
  }

  function AfterRunning(entries: Entries, key: string, now: nat): Entries {
    if key in entries && Forgiven(entries[key], now) then entries - {key} else entries
  }

  function AfterForget(entries: Entries, podUid: string): Entries {
    map k | k in entries && !(podUid + "/" <= k) :: entries[k]
  }

  // ---------------------------------------------------------------- saving and restoring

  /** The wall-clock second an instant is. */
  function Wall(i: nat, c: Clock): nat {
    var nowWall := c.wall / SEC;
    if i >= c.now then nowWall + (i - c.now) / SEC
    else
      var back := (c.now - i) / SEC;
      if nowWall >= back then nowWall - back else 0
  }

  /** The instant a wall-clock second is; the present when that is before the clock began. */
  function Instant(w: nat, c: Clock): nat {
    var nowWall := c.wall / SEC;
    if w >= nowWall then c.now + (w - nowWall) * SEC
    else
      var back := (nowWall - w) * SEC;
      if c.now >= back then c.now - back else c.now
  }

  function ToSaved(e: Entry, c: Clock): Saved {
    Saved(e.delay / SEC, Wall(e.readyAt, c), Wall(e.restartedAt, c))
  }

  function FromSaved(s: Saved, c: Clock): Entry {
    Entry(s.delaySecs * SEC, Instant(s.readyAt, c), Instant(s.restartedAt, c))
  }

  predicate Expired(s: Saved, c: Clock) {
    c.wall / SEC >= s.restartedAt + STABLE / SEC
  }

  function SaveAll(entries: Entries, c: Clock): map<string, Saved> {
    map k | k in entries :: ToSaved(entries[k], c)
  }

  function Restore(entries: Entries, saved: map<string, Saved>, c: Clock): Entries {
    entries + map k | k in saved && k !in entries && !Expired(saved[k], c) :: FromSaved(saved[k], c)
  }

  lemma RestoreOneMore(entries: Entries, held: map<string, Saved>, todo: set<string>, k: string, c: Clock)
    requires k in todo && todo <= held.Keys
    ensures var done := Restore(entries, held - todo, c);
      Restore(entries, held - (todo - {k}), c)
      == if !Expired(held[k], c) && k !in done then done[k := FromSaved(held[k], c)] else done
  {
    assert held - (todo - {k}) == (held - todo)[k := held[k]];
  }

  // ---------------------------------------------------------------- the object

  /** `disk` is what the state file holds; it is written only once `persist` was called. */
  class CrashLoopBackoff {
    var entries: Entries
    var hasFile: bool
    var disk: map<string, Saved>

    constructor ()
      ensures entries == map[] && !hasFile && disk == map[]
    {
      entries := map[];
      hasFile := false;
      disk := map[];
    }

    method Wait(key: string, c: Clock) returns (left: Option<nat>)
      ensures left == WaitLeft(entries, key, c.now)
    {
      if key !in entries { return None; }
      var e := entries[key];
      if e.readyAt > c.now { return Some(e.readyAt - c.now); }
      return None;
    }

    /** Keeps the entries in a file from now on and takes back what it held. `held` is the
        file's content, empty when it is missing or unreadable. */
    method PersistTo(held: map<string, Saved>, c: Clock, written: bool)
      modifies this
      ensures entries == Restore(old(entries), held, c)
      ensures hasFile
      ensures disk == if written then SaveAll(entries, c) else held
    {
      ghost var was := entries;
      var todo := held.Keys;
      assert Restore(was, held - todo, c) == entries;
      while todo != {}
        invariant todo <= held.Keys
        invariant entries == Restore(was, held - todo, c)
        modifies `entries
        decreases |todo|
      {
        var k :| k in todo;
        RestoreOneMore(was, held, todo, k, c);
        todo := todo - {k};
        if !Expired(held[k], c) && k !in entries {
          entries := entries[k := FromSaved(held[k], c)];
        }
      }
      assert held - todo == held;
      hasFile := true;
      disk := held;
      Save(c, written);
    }

    /** Writes the file, if there is one; `written` is whether the write succeeded. */
    method Save(c: Clock, written: bool)
      modifies `disk
      ensures disk == if hasFile && written then SaveAll(entries, c) else old(disk)
    {
      if !hasFile { return; }
      if written { disk := map k | k in entries :: ToSaved(entries[k], c); }
    }

    method Restarted(key: string, c: Clock, written: bool)
      modifies `entries, `disk
      ensures entries == AfterRestart(old(entries), key, c.now)
      ensures disk == if hasFile && written then SaveAll(entries, c) else old(disk)
    {
      var delay := BASE;
      if key in entries && !(c.now >= entries[key].restartedAt + STABLE) {
        delay := Min(entries[key].delay * 2, CAP);
      }
      entries := entries[key := Entry(delay, c.now + delay, c.now)];
      Save(c, written);
    }

    method Running(key: string, c: Clock, written: bool)
      modifies `entries, `disk
      ensures entries == AfterRunning(old(entries), key, c.now)
      ensures disk == if hasFile && written && entries != old(entries) then SaveAll(entries, c) else old(disk)
    {
      if key in entries && c.now >= entries[key].restartedAt + STABLE {
        entries := entries - {key};
        Save(c, written);
      }
    }

    method ForgetPod(podUid: string, c: Clock, written: bool)
      modifies `entries, `disk
      ensures entries == AfterForget(old(entries), podUid)
      ensures disk == if hasFile && written && entries != old(entries) then SaveAll(entries, c) else old(disk)
    {
      var prefix := podUid + "/";
      var before := |entries|;
      var kept := map k | k in entries && !(prefix <= k) :: entries[k];
      assert kept.Keys <= entries.Keys;
      if |kept| == before {
        SubsetOfSameSize(kept.Keys, entries.Keys);
      }
      var changed := |kept| != before;
      entries := kept;
      if changed {
        Save(c, written);
      }
    }
  }

  lemma SubsetOfSameSize<T>(a: set<T>, b: set<T>)
    requires a <= b && |a| == |b|
    ensures a == b
  {
    if a != b {
      var x :| x in b && x !in a;
      assert a <= b - {x};
      SubsetSize(a, b - {x});
    }
  }

  lemma {:induction false} SubsetSize<T>(a: set<T>, b: set<T>)
    requires a <= b
    ensures |a| <= |b|
  {
    if a != {} {
      var x :| x in a;
      SubsetSize(a - {x}, b - {x});
    }
  }

  /** Forgetting a pod drops exactly that pod's containers: a uid has no slash. */
  lemma ForgetDropsExactlyThePod(entries: Entries, podUid: string, otherUid: string, container: string)
    requires '/' !in podUid && '/' !in otherUid
    requires Key(otherUid, container) in entries
    ensures Key(otherUid, container) in AfterForget(entries, podUid) <==> otherUid != podUid
  {
    var k := Key(otherUid, container);
    if podUid + "/" <= k {
      assert k[|podUid|] == '/' && k[|otherUid|] == '/';
      assert |podUid| >= |otherUid|;
      assert (podUid + "/")[|otherUid|] == '/';
      assert podUid == k[..|podUid|] == otherUid;
    }
  }

  /** A key is the pod's uid and the container's name around a slash; so different containers have
      different keys. */
  lemma KeysDiffer(podUid: string, container: string, otherUid: string, other: string)
    requires '/' !in podUid && '/' !in otherUid
    ensures var k := Key(podUid, container); k[..|podUid|] == podUid && k[|podUid|..] == "/" + container
    ensures Key(podUid, container) == Key(otherUid, other) ==> podUid == otherUid && container == other
  {
    var k, l := Key(podUid, container), Key(otherUid, other);
    assert k == podUid + ("/" + container) && l == otherUid + ("/" + other);
    if k == l {
      ForgetDropsExactlyThePod(map[l := Entry(0, 0, 0)], podUid, otherUid, other);
      assert podUid + "/" <= l;
      assert k[|podUid| + 1..] == container && l[|otherUid| + 1..] == other;
    }
  }

  // ---------------------------------------------------------------- runs

  datatype Event =
    | Asked(key: string)
    | Restarted(key: string)
    | SeenRunning(key: string)
    | PodForgotten(podUid: string)

  datatype Timed = Timed(at: nat, event: Event)

  /** What a caller can observe: the wait it was told, or the delay a restart set. */
  datatype Answer = Told(left: Option<nat>) | Set(delay: nat)

  ghost predicate Ordered(trace: seq<Timed>, from: nat) {
    trace != [] ==> trace[0].at >= from && Ordered(trace[1..], trace[0].at)
  }

  function Step(entries: Entries, t: Timed): Entries {
    match t.event
    case Asked(_) => entries
    case Restarted(k) => AfterRestart(entries, k, t.at)
    case SeenRunning(k) => AfterRunning(entries, k, t.at)
    case PodForgotten(u) => AfterForget(entries, u)
  }

  function Observed(entries: Entries, t: Timed): seq<Answer> {
    match t.event
    case Asked(k) => [Told(WaitLeft(entries, k, t.at))]
    case Restarted(k) => [Set(NextDelay(entries, k, t.at))]
    case _ => []
  }

  function Answers(entries: Entries, trace: seq<Timed>): seq<Answer>
    decreases trace
  {
    if trace == [] then []
    else Observed(entries, trace[0]) + Answers(Step(entries, trace[0]), trace[1..])
  }

  /** The trace without its `running` calls. */
  function WithoutRunning(trace: seq<Timed>): seq<Timed> {
    if trace == [] then []
    else if trace[0].event.SeenRunning? then WithoutRunning(trace[1..])
    else [trace[0]] + WithoutRunning(trace[1..])
  }

  /** No wait outlasts the stable window. */
  ghost predicate Sound(entries: Entries) {
    forall k :: k in entries ==> entries[k].readyAt <= entries[k].restartedAt + STABLE
  }

  /** Equal but for entries of `b` that were forgiven by `now`. */
  ghost predicate SameButForgiven(a: Entries, b: Entries, now: nat) {
    && a.Keys <= b.Keys
    && (forall k :: k in a ==> a[k] == b[k])
    && (forall k :: k in b && k !in a ==> Forgiven(b[k], now))
  }

  lemma StepKeepsSame(a: Entries, b: Entries, t: Timed)
    requires SameButForgiven(a, b, t.at) && Sound(a) && Sound(b)
    requires !t.event.SeenRunning?
    ensures Observed(a, t) == Observed(b, t)
    ensures SameButForgiven(Step(a, t), Step(b, t), t.at) && Sound(Step(a, t)) && Sound(Step(b, t))
  {
  }

  /** The run with every `running` call against the run with none of them. */
  lemma {:induction false} RunWithoutRunning(a: Entries, b: Entries, trace: seq<Timed>, from: nat)
    requires SameButForgiven(a, b, from) && Sound(a) && Sound(b)
    requires Ordered(trace, from)
    ensures Answers(a, trace) == Answers(b, WithoutRunning(trace))
    decreases trace
  {
    if trace != [] {
      var t := trace[0];
      if t.event.SeenRunning? {
        RunWithoutRunning(Step(a, t), b, trace[1..], t.at);
      } else {
        StepKeepsSame(a, b, t);
        RunWithoutRunning(Step(a, t), Step(b, t), trace[1..], t.at);
        var rest := WithoutRunning(trace[1..]);
        assert WithoutRunning(trace)[1..] == rest;
      }
    }
  }

  /** Forgetting is invisible: two runs that differ only in their `running` calls, however
      many and wherever, answer every `wait` and set every delay alike. */
  lemma ForgettingIsInvisible(entries: Entries, one: seq<Timed>, two: seq<Timed>, from: nat)
    requires Sound(entries)
    requires Ordered(one, from) && Ordered(two, from)
    requires WithoutRunning(one) == WithoutRunning(two)
    ensures Answers(entries, one) == Answers(entries, two)
  {
    RunWithoutRunning(entries, entries, one, from);
    RunWithoutRunning(entries, entries, two, from);
  }

  // ---------------------------------------------------------------- the rate

  /** Every restart of `key` happens when `wait` allows it, and its pod is never forgotten. */
  ghost predicate Respects(entries: Entries, trace: seq<Timed>, key: string)
    decreases trace
  {
    trace != [] ==>
      && (trace[0].event == Restarted(key) ==> WaitLeft(entries, key, trace[0].at) == None)
      && (trace[0].event.PodForgotten? ==> !(trace[0].event.podUid + "/" <= key))
      && Respects(Step(entries, trace[0]), trace[1..], key)
  }

  function RestartTimes(trace: seq<Timed>, key: string): seq<nat> {
    if trace == [] then []
    else (if trace[0].event == Restarted(key) then [trace[0].at] else []) + RestartTimes(trace[1..], key)
  }

  ghost predicate OnLadder(d: nat) {
    d in {BASE, 20 * SEC, 40 * SEC, 80 * SEC, 160 * SEC, CAP}
  }

  /** The key's entry is one that `restarted` made, or there is none. */
  ghost predicate Made(entries: Entries, key: string) {
    key in entries ==>
      && OnLadder(entries[key].delay)
      && entries[key].readyAt == entries[key].restartedAt + entries[key].delay
  }

  /** How far below 150 s a gap the restarts from delay `d` on can still fall in total. */
  function Slack(d: nat): nat {
    if d == BASE then 450 * SEC
    else if d == 20 * SEC then 310 * SEC
    else if d == 40 * SEC then 180 * SEC
    else if d == 80 * SEC then 70 * SEC
    else 0
  }

  lemma StepKeepsMade(entries: Entries, t: Timed, key: string)
    requires Made(entries, key)
    ensures Made(Step(entries, t), key)
  {
  }

  /** The last restart was at `last` and set `d`; if its entry is gone it was forgiven. */
  ghost predicate LastRestart(entries: Entries, key: string, last: nat, d: nat, now: nat) {
    if key in entries then entries[key] == Entry(d, last + d, last) else now >= last + STABLE
  }

  lemma GapPaysForSlack(entries: Entries, key: string, last: nat, d: nat, now: nat)
    requires OnLadder(d) && LastRestart(entries, key, last, d, now)
    requires WaitLeft(entries, key, now) == None
    ensures now >= last
    ensures OnLadder(NextDelay(entries, key, now))
    ensures now - last + Slack(d) >= 150 * SEC + Slack(NextDelay(entries, key, now))
  {
  }

  /** The j-th of these restarts is at least 150 (j+1) s after `last`, less the slack of `d`. */
  ghost predicate SpacedFrom(ts: seq<nat>, last: nat, d: nat) {
    forall j :: 0 <= j < |ts| ==> ts[j] - last + Slack(d) >= Seconds(150 * (j + 1))
  }

  ghost predicate Spaced(ts: seq<nat>) {
    forall i, j :: 0 <= i <= j < |ts| ==> ts[j] - ts[i] >= Seconds(150 * (j - i) - 450)
  }

  lemma {:induction false} RestartsAfter(entries: Entries, trace: seq<Timed>, key: string, last: nat, d: nat, from: nat)
    requires Ordered(trace, from) && Respects(entries, trace, key)
    requires OnLadder(d) && LastRestart(entries, key, last, d, from)
    ensures SpacedFrom(RestartTimes(trace, key), last, d)
    decreases trace
  {
    if trace != [] {
      var t := trace[0];
      var rest := RestartTimes(trace[1..], key);
      if t.event == Restarted(key) {
        GapPaysForSlack(entries, key, last, d, t.at);
        var d' := NextDelay(entries, key, t.at);
        RestartsAfter(Step(entries, t), trace[1..], key, t.at, d', t.at);
        assert forall j :: 0 < j <= |rest| ==> ([t.at] + rest)[j] == rest[j - 1];
      } else {
        RestartsAfter(Step(entries, t), trace[1..], key, last, d, t.at);
        assert [] + rest == rest;
      }
    }
  }

  lemma SpacedWithFirst(first: nat, rest: seq<nat>, d: nat)
    requires OnLadder(d) && Spaced(rest) && SpacedFrom(rest, first, d)
    ensures Spaced([first] + rest)
  {
    var all := [first] + rest;
    forall i, j | 0 <= i <= j < |all|
      ensures all[j] - all[i] >= Seconds(150 * (j - i) - 450)
    {
      if i > 0 {
        assert rest[j - 1] - rest[i - 1] >= Seconds(150 * (j - i) - 450);
      }
    }
  }

  /** Any m gaps between consecutive restarts of a container take at least 150 m - 450
      seconds, forgiveness included, whatever else happens in the run. */
  lemma {:induction false} GapsTakeTime(entries: Entries, trace: seq<Timed>, key: string, from: nat)
    requires Ordered(trace, from) && Respects(entries, trace, key) && Made(entries, key)
    ensures Spaced(RestartTimes(trace, key))
    decreases trace
  {
    if trace != [] {
      var t := trace[0];
      StepKeepsMade(entries, t, key);
      GapsTakeTime(Step(entries, t), trace[1..], key, t.at);
      var rest := RestartTimes(trace[1..], key);
      if t.event == Restarted(key) {
        var d := NextDelay(entries, key, t.at);
        RestartsAfter(Step(entries, t), trace[1..], key, t.at, d, t.at);
        SpacedWithFirst(t.at, rest, d);
      } else {
        assert [] + rest == rest;
      }
    }
  }

  /** At most T/150 + 4 restarts in any T seconds. */
  lemma RestartsPerWindow(entries: Entries, trace: seq<Timed>, key: string, from: nat, i: nat, j: nat, window: nat)
    requires Ordered(trace, from) && Respects(entries, trace, key) && Made(entries, key)
    requires i <= j < |RestartTimes(trace, key)|
    requires RestartTimes(trace, key)[j] - RestartTimes(trace, key)[i] <= window
    ensures j - i + 1 <= window / (150 * SEC) + 4
  {
    GapsTakeTime(entries, trace, key, from);
  }

  /** A restart in front of a run. */
  function Then(key: string, at: nat, rest: seq<Timed>): seq<Timed> { [Timed(at, Restarted(key))] + rest }

  /** Restarts at the earliest moment until the delay is 160 s, in front of a run. */
  function Climb(key: string, from: nat, rest: seq<Timed>): seq<Timed> {
    Then(key, from, Then(key, from + 10 * SEC, Then(key, from + 30 * SEC, LastTwo(key, from, rest))))
  }

  function LastTwo(key: string, from: nat, rest: seq<Timed>): seq<Timed> {
    Then(key, from + 70 * SEC, Then(key, from + 150 * SEC, rest))
  }

  /** A climb and a wait for forgiveness, `k` times over, and a last climb. */
  function Climbs(key: string, from: nat, k: nat): seq<Timed>
    decreases k, 1
  {
    Climb(key, from, AfterClimb(key, from, k))
  }

  /** Nothing known of the container, or its last entry is forgiven. */
  ghost predicate Fresh(entries: Entries, key: string, now: nat) {
    key in entries ==> Forgiven(entries[key], now) && entries[key].readyAt <= now
  }

  /** From `at` on the run keeps to `wait`, and restarts `n` times, the first and last time as told. */
  ghost predicate Paced(entries: Entries, key: string, trace: seq<Timed>, from: nat, first: nat, n: nat, last: nat) {
    && Ordered(trace, from) && Respects(entries, trace, key)
    && var ts := RestartTimes(trace, key); |ts| == n && (n > 0 ==> ts[0] == first && ts[n - 1] == last)
  }

  lemma OneMoreRestart(entries: Entries, key: string, from: nat, at: nat, rest: seq<Timed>, first: nat, n: nat,
                       last: nat)
    requires from <= at && WaitLeft(entries, key, at) == None
    requires Paced(AfterRestart(entries, key, at), key, rest, at, first, n, last)
    ensures Paced(entries, key, Then(key, at, rest), from, at, n + 1, if n == 0 then at else last)
  {
    var trace := Then(key, at, rest);
    assert trace[1..] == rest;
    assert RestartTimes(trace, key) == [at] + RestartTimes(rest, key);
  }

  lemma LastTwoPaced(entries: Entries, key: string, from: nat, rest: seq<Timed>, first: nat, n: nat, last: nat)
    requires key in entries && entries[key] == Entry(40 * SEC, from + 70 * SEC, from + 30 * SEC)
    requires forall es: Entries :: key in es && es[key] == Entry(160 * SEC, from + 310 * SEC, from + 150 * SEC) ==>
      Paced(es, key, rest, from + 150 * SEC, first, n, last)
    ensures Paced(entries, key, LastTwo(key, from, rest), from + 30 * SEC, from + 70 * SEC, n + 2,
                  if n == 0 then from + 150 * SEC else last)
  {
    var e4 := AfterRestart(entries, key, from + 70 * SEC);
    var e5 := AfterRestart(e4, key, from + 150 * SEC);
    assert e4[key] == Entry(80 * SEC, from + 150 * SEC, from + 70 * SEC);
    assert e5[key] == Entry(160 * SEC, from + 310 * SEC, from + 150 * SEC);
    OneMoreRestart(e4, key, from + 70 * SEC, from + 150 * SEC, rest, first, n, last);
    OneMoreRestart(entries, key, from + 30 * SEC, from + 70 * SEC, Then(key, from + 150 * SEC, rest), from + 150 * SEC,
                   n + 1, if n == 0 then from + 150 * SEC else last);
  }

  lemma ThirdPaced(entries: Entries, key: string, from: nat, rest: seq<Timed>, first: nat, n: nat, last: nat)
    requires key in entries && entries[key] == Entry(20 * SEC, from + 30 * SEC, from + 10 * SEC)
    requires forall es: Entries :: key in es && es[key] == Entry(160 * SEC, from + 310 * SEC, from + 150 * SEC) ==>
      Paced(es, key, rest, from + 150 * SEC, first, n, last)
    ensures Paced(entries, key, Then(key, from + 30 * SEC, LastTwo(key, from, rest)), from + 10 * SEC, from + 30 * SEC,
                  n + 3, if n == 0 then from + 150 * SEC else last)
  {
    var e3 := AfterRestart(entries, key, from + 30 * SEC);
    assert e3[key] == Entry(40 * SEC, from + 70 * SEC, from + 30 * SEC);
    LastTwoPaced(e3, key, from, rest, first, n, last);
    OneMoreRestart(entries, key, from + 10 * SEC, from + 30 * SEC, LastTwo(key, from, rest), from + 70 * SEC, n + 2,
                   if n == 0 then from + 150 * SEC else last);
  }

  lemma ClimbPaced(entries: Entries, key: string, since: nat, from: nat, rest: seq<Timed>, first: nat, n: nat,
                   last: nat)
    requires since <= from && Fresh(entries, key, from)
    requires forall es: Entries :: key in es && es[key] == Entry(160 * SEC, from + 310 * SEC, from + 150 * SEC) ==>
      Paced(es, key, rest, from + 150 * SEC, first, n, last)
    ensures Paced(entries, key, Climb(key, from, rest), since, from, n + 5, if n == 0 then from + 150 * SEC else last)
  {
    var e1 := AfterRestart(entries, key, from);
    var e2 := AfterRestart(e1, key, from + 10 * SEC);
    assert e1[key] == Entry(10 * SEC, from + 10 * SEC, from);
    assert e2[key] == Entry(20 * SEC, from + 30 * SEC, from + 10 * SEC);
    var end := if n == 0 then from + 150 * SEC else last;
    var t2 := Then(key, from + 30 * SEC, LastTwo(key, from, rest));
    ThirdPaced(e2, key, from, rest, first, n, last);
    OneMoreRestart(e1, key, from, from + 10 * SEC, t2, from + 30 * SEC, n + 3, end);
    OneMoreRestart(entries, key, since, from, Then(key, from + 10 * SEC, t2), from + 10 * SEC, n + 4, end);
  }

  /** What follows a climb once its last entry is forgiven. */
  function AfterClimb(key: string, from: nat, k: nat): seq<Timed>
    decreases k, 0
  {
    if k == 0 then [] else Climbs(key, from + 750 * SEC, k - 1)
  }

  lemma {:induction false} AfterClimbPaced(entries: Entries, key: string, from: nat, k: nat)
    requires key in entries && entries[key] == Entry(160 * SEC, from + 310 * SEC, from + 150 * SEC)
    ensures Paced(entries, key, AfterClimb(key, from, k), from + 150 * SEC, from + 750 * SEC, 5 * k,
                  from + Seconds(750 * k + 150))
    decreases k, 0
  {
    if k > 0 {
      ClimbsPaced(entries, key, from + 150 * SEC, from + 750 * SEC, k - 1);
      assert from + 750 * SEC + Seconds(750 * (k - 1) + 150) == from + Seconds(750 * k + 150);
    }
  }

  lemma {:induction false} ClimbsPaced(entries: Entries, key: string, since: nat, from: nat, k: nat)
    requires since <= from && Fresh(entries, key, from)
    ensures Paced(entries, key, Climbs(key, from, k), since, from, 5 + 5 * k, from + Seconds(750 * k + 150))
    decreases k, 1
  {
    forall es: Entries | key in es && es[key] == Entry(160 * SEC, from + 310 * SEC, from + 150 * SEC) {
      AfterClimbPaced(es, key, from, k);
    }
    ClimbPaced(entries, key, since, from, AfterClimb(key, from, k), from + 750 * SEC, 5 * k,
               from + Seconds(750 * k + 150));
  }

  /** The bound is reached for every number of forgivenesses `k`: some run, from a clean start,
      respects `wait` and takes exactly 150 m - 450 seconds for its m = 4 + 5 k gaps. */
  lemma RateBoundIsTight(key: string, k: nat)
    ensures exists trace ::
      && Ordered(trace, 0) && Respects(map[], trace, key)
      && var m, ts := 4 + 5 * k, RestartTimes(trace, key);
         |ts| == m + 1 && ts[m] as int - ts[0] == Seconds(150 * m - 450)
  {
    ClimbsPaced(map[], key, 0, 0, k);
    assert Ordered(Climbs(key, 0, k), 0);
  }

  // ---------------------------------------------------------------- the delays themselves

  /** The entries after the first `n` of the restarts at these times. */
  function AfterRow(entries: Entries, key: string, at: nat -> nat, n: nat): Entries {
    if n == 0 then entries else AfterRestart(AfterRow(entries, key, at, n - 1), key, at(n - 1))
  }

  /** Restarts in a row, each within 600 s of the one before. */
  ghost predicate InARow(at: nat -> nat, n: nat) {
    forall i: nat :: 0 < i < n ==> at(i - 1) <= at(i) < at(i - 1) + 600_000_000_000
  }

  /** The delay the n-th of them sets, in seconds. */
  function RowDelay(n: nat): nat {
    if n == 0 then 10 else if n == 1 then 20 else if n == 2 then 40 else if n == 3 then 80
    else if n == 4 then 160 else 300
  }

  lemma DelayDoubles(entries: Entries, key: string, now: nat, n: nat)
    requires n > 0 && key in entries && entries[key].delay == RowDelay(n - 1) * 1_000_000_000
    requires now < entries[key].restartedAt + 600_000_000_000
    ensures NextDelay(entries, key, now) == RowDelay(n) * 1_000_000_000
  {
  }

  lemma RowStep(entries: Entries, key: string, at: nat -> nat, n: nat)
    requires n > 1 && InARow(at, n)
    ensures InARow(at, n - 1) && at(n - 2) <= at(n - 1) < at(n - 2) + 600_000_000_000
    ensures AfterRow(entries, key, at, n) == AfterRestart(AfterRow(entries, key, at, n - 1), key, at(n - 1))
  {
    assert 0 < n - 1 < n;
  }

  /** Restarts in a row set 10, 20, 40, 80, 160 and then 300 seconds for ever: from the first restart on,
      or from one 600 s or more after the last. */
  lemma {:induction false} DelaysInARow(entries: Entries, key: string, at: nat -> nat, n: nat)
    requires n > 0 && InARow(at, n)
    requires key in entries ==> at(0) >= entries[key].restartedAt + 600_000_000_000
    ensures var d, es := RowDelay(n - 1) * 1_000_000_000, AfterRow(entries, key, at, n);
            key in es && es[key] == Entry(d, at(n - 1) + d, at(n - 1))
    decreases n
  {
    if n == 1 {
      assert AfterRow(entries, key, at, 0) == entries;
    } else {
      RowStep(entries, key, at, n);
      DelaysInARow(entries, key, at, n - 1);
      DelayDoubles(AfterRow(entries, key, at, n - 1), key, at(n - 1), n - 1);
    }
  }

  /** A restart touches no other container's entry. */
  lemma RestartsTouchOne(entries: Entries, key: string, now: nat, k: string)
    requires k != key
    ensures var es := AfterRestart(entries, key, now); (k in es <==> k in entries) && (k in es ==> es[k] == entries[k])
  {
  }

  /** A container seen running 600 s or more after its last restart loses its entry; nothing else does. */
  lemma RunningForgetsExactly(entries: Entries, key: string, now: nat, k: string)
    ensures var es := AfterRunning(entries, key, now);
            && (k in es <==> k in entries && !(k == key && now >= entries[k].restartedAt + 600_000_000_000))
            && (k in es ==> es[k] == entries[k])
  {
  }

  // ---------------------------------------------------------------- across a kubelet restart

  /** Both clocks advanced by the same amount. */
  ghost predicate Together(a: Clock, b: Clock) {
    a.now <= b.now && b.now - a.now == b.wall - a.wall
  }

  /** Neither clock subtraction meets its lower end for instant `i`. */
  ghost predicate NoUnderflow(i: nat, save: Clock, load: Clock) {
    && (i < save.now ==> (save.now - i) / SEC <= save.wall / SEC)
    && (load.wall / SEC > Wall(i, save) ==> (load.wall / SEC - Wall(i, save)) * SEC <= load.now)
  }

  lemma DivMod(n: nat)
    ensures SEC * (n / SEC) <= n < SEC * (n / SEC) + SEC
  {
  }

  lemma InstantSurvives(i: nat, save: Clock, load: Clock)
    requires Together(save, load) && NoUnderflow(i, save, load)
    ensures -2 * SEC < Instant(Wall(i, save), load) - i < 2 * SEC
  {
    DivMod(save.wall);
    DivMod(load.wall);
    if i >= save.now { DivMod(i - save.now); } else { DivMod(save.now - i); }
  }

  /** An instant is saved as so many whole seconds from the second it is now, and as none before the epoch. */
  lemma WallExactly(i: nat, c: Clock)
    ensures i >= c.now ==> Wall(i, c) == c.wall / 1_000_000_000 + (i - c.now) / 1_000_000_000
    ensures i < c.now ==>
      var s := c.wall / 1_000_000_000 - (c.now - i) / 1_000_000_000; Wall(i, c) == if s < 0 then 0 else s
  {
  }

  /** How old a restart is as a restore reckons it: in whole seconds of the wall clock at the save
      and at the load, and of the age at the save. */
  function WholeAge(restartedAt: nat, save: Clock, load: Clock): int
    requires restartedAt <= save.now
  {
    load.wall / SEC - save.wall / SEC + (save.now - restartedAt) / SEC
  }

  lemma ExpiredExactly(e: Entry, save: Clock, load: Clock)
    requires e.restartedAt <= save.now && NoUnderflow(e.restartedAt, save, load)
    ensures Expired(ToSaved(e, save), load) <==> WholeAge(e.restartedAt, save, load) >= 600
  {
    assert save.now == e.restartedAt ==> (save.now - e.restartedAt) / SEC == 0;
  }

  /** That is the age, to within a second either way. */
  lemma ExpiryIsNearStable(e: Entry, save: Clock, load: Clock)
    requires Together(save, load) && e.restartedAt <= save.now && NoUnderflow(e.restartedAt, save, load)
    ensures load.now - e.restartedAt <= STABLE - SEC ==> !Expired(ToSaved(e, save), load)
    ensures load.now - e.restartedAt >= STABLE + SEC ==> Expired(ToSaved(e, save), load)
  {
    DivMod(save.wall);
    DivMod(load.wall);
    DivMod(save.now - e.restartedAt);
  }

  /** Saving and restoring: a live entry is never overwritten; a saved one comes back exactly if it
      is younger than the stable time in whole seconds, with its delay exact and both its times
      moved by less than two seconds. */
  lemma RestoreAfterSave(entries: Entries, live: Entries, key: string, save: Clock, load: Clock)
    requires key in entries && entries[key].delay % SEC == 0 && entries[key].restartedAt <= save.now
    requires Together(save, load)
    requires NoUnderflow(entries[key].readyAt, save, load) && NoUnderflow(entries[key].restartedAt, save, load)
    ensures var after := Restore(live, SaveAll(entries, save), load);
            && (forall k :: k in live ==> k in after && after[k] == live[k])
            && (forall k :: k in after ==> k in live || k in entries)
            && (key !in live ==> (key in after <==> WholeAge(entries[key].restartedAt, save, load) < 600))
            && (key !in live && load.now - entries[key].restartedAt <= STABLE - SEC ==> key in after)
            && (key !in live && load.now - entries[key].restartedAt >= STABLE + SEC ==> key !in after)
            && (key !in live && key in after ==>
                  && after[key].delay == entries[key].delay
                  && -2 * SEC < after[key].readyAt - entries[key].readyAt < 2 * SEC
                  && -2 * SEC < after[key].restartedAt - entries[key].restartedAt < 2 * SEC)
  {
    var e := entries[key];
    InstantSurvives(e.readyAt, save, load);
    InstantSurvives(e.restartedAt, save, load);
    ExpiredExactly(e, save, load);
    ExpiryIsNearStable(e, save, load);
    assert e.delay / SEC * SEC == e.delay;
  }

  /** What a restored entry makes wait: until its saved second, reckoned from the second it is now; not
      at all once that has come, even when it lies before the clock began. */
  lemma RestoredWait(live: Entries, saved: map<string, Saved>, key: string, load: Clock)
    requires key in saved && key !in live && !Expired(saved[key], load)
    ensures var after, left := Restore(live, saved, load), saved[key].readyAt - load.wall / 1_000_000_000;
            && key in after
            && WaitLeft(after, key, load.now) == (if left <= 0 then None else Some(left * 1_000_000_000))
            && after[key].delay == saved[key].delaySecs * 1_000_000_000
  {
  }

  /** A restart from before the clock began counts as made at the restore. */
  lemma RestoredBeforeBoot(live: Entries, saved: map<string, Saved>, key: string, load: Clock)
    requires key in saved && key !in live && !Expired(saved[key], load)
    requires (load.wall / SEC - saved[key].restartedAt) * SEC > load.now
    ensures Restore(live, saved, load)[key].restartedAt == load.now
  {
  }

  /** So an entry that is not forgiven can be dropped: 599.1 s old, it counts 600 whole seconds. */
  lemma UnforgivenCanBeDropped(key: string)
    ensures var e := Entry(10 * SEC, 910_900_000_000, 900_900_000_000);
      var save, load := Clock(1_000_900_000_000, 1_000_900_000_000), Clock(1500 * SEC, 1500 * SEC);
      && Together(save, load) && NoUnderflow(e.readyAt, save, load) && NoUnderflow(e.restartedAt, save, load)
      && !Forgiven(e, load.now) && WholeAge(e.restartedAt, save, load) == 600
      && key !in Restore(map[], SaveAll(map[key := e], save), load)
  {
  }
}

/** Startup admission: workers that meet it closed park, look again and wait for their retry
    timer; the pod loop and the VMI loop wake the parked when they find it open
    (pkg/kubelet/src/kubelet.rs, pkg/kubelet/src/workload.rs, and the conditions asked for in
    pkg/kubelet/src/pod_manager.rs and pkg/kubelet/src/vm_manager.rs).

    A state machine over single atomic steps, in any interleaving of any number of workers,
    the two loops and everything else that changes what admission asks. Admission reads its
    conditions one after the other: the two flags, the adopted pods without a spec, the
    machines, and the VMI objects known. The last three can close it again, and nothing is
    released when they open it. */
module Admission {
  /** A workload: a kind and a uid. A static pod's uid can go and come back. */
  type Key = string

  /** An adopted pod or a machine. */
  type Uid = string

  /** Which condition a look is about to read; the machines read first are kept until the VMI
      objects are read. */
  datatype Look = AtPods | AtVmis | AtSpecs | AtMachines | AtClaims(machines: set<Uid>)

  /** What one read leads to. */
  datatype Glance = On(look: Look) | Shut | Open

  /** Where a worker's pass is. */
  datatype Pass =
    | Idle                  // no pass running
    | First(look: Look)     // looking
    | Closed                // found admission closed, about to park
    | Second(look: Look)    // parked, looking again
    | Unparking             // found it open after all
    | Waiting               // gave up the pass, until queued again
    | Through               // past admission
    | Exempt                // a static pod without claims, never asked

  /** How a pass begins: it asks for admission, is exempt, or has something else to do (a
      deletion, a placeholder without a spec). */
  datatype How = Asks | Exempted | Elsewhere

  datatype Loop = Pods | Vmis

  /** Where a loop is. */
  datatype Turn =
    | Between
    | Listed                  // its objects are known, its flag is not set yet
    | Stored                  // its flag is set, about to release
    | Releasing(look: Look)   // the release is looking
    | Draining                // found admission open, about to take the parked
    | Waking(keys: set<Key>)  // about to queue those it took

  /** What admission asks. */
  datatype Conditions = Conditions(
    runsVms: bool,
    podsSynced: bool,
    vmisSynced: bool,
    unspecified: set<Uid>,  // pods run here whose spec no list has given
    machines: set<Uid>,     // machines recorded here
    known: set<Uid>)        // VMI objects known

  datatype State = State(
    conditions: Conditions,
    parked: set<Key>,
    ready: set<Key>,        // queued for a pass, once the running one ends
    desired: set<Key>,
    passes: map<Key, Pass>,
    pods: Turn,
    vmis: Turn)

  datatype Event =
    | Take(key: Key, how: How)          // a pass begins
    | Work(key: Key)                    // the pass goes on
    | List(loop: Loop, uids: set<Uid>)  // a loop's list answers
    | Advance(loop: Loop)
    | GiveUp(loop: Loop)                // seeding claims or publishing the list failed
    | Desire(now: set<Key>, changed: set<Key>)
    | Retry(key: Key)                   // the retry timer
    | Wake(key: Key)                    // any other event
    | PodTold(uid: Uid)                 // a pod's pass brings its spec
    | PodGone(uid: Uid)                 // its stop has ended
    | PodRestored(uid: Uid)             // from a checkpoint, without its spec
    | VmTold(uid: Uid)                  // a pass is handed the machine's object
    | VmForgotten(uid: Uid)             // a pass finds the object gone; the stop is to come
    | VmRecorded(uid: Uid)              // started, adopted or received
    | VmStopped(uid: Uid)

  /** Recovery has run: what it adopted has no spec and no object yet. Without VMs the VMI flag
      is set from the start. */
  ghost predicate Init(s: State) {
    var c := s.conditions;
    && !c.podsSynced && c.vmisSynced == !c.runsVms && c.known == {} && (!c.runsVms ==> c.machines == {})
    && s.parked == {} && s.ready == {} && s.passes == map[] && s.pods == Between && s.vmis == Between
  }

  /** Every condition holds. */
  predicate AllOpen(c: Conditions) {
    c.podsSynced && c.vmisSynced && c.unspecified == {} && c.machines <= c.known
  }

  function Glanced(c: Conditions, look: Look): Glance {
    match look
    case AtPods => if c.podsSynced then On(AtVmis) else Shut
    case AtVmis => if c.vmisSynced then On(AtSpecs) else Shut
    case AtSpecs => if c.unspecified == {} then On(AtMachines) else Shut
    case AtMachines => On(AtClaims(c.machines))
    case AtClaims(machines) => if machines <= c.known then Open else Shut
  }

  function PassOf(s: State, k: Key): Pass {
    if k in s.passes then s.passes[k] else Idle
  }

  function TurnOf(s: State, loop: Loop): Turn {
    match loop case Pods => s.pods case Vmis => s.vmis
  }

  function Moves(s: State, loop: Loop, turn: Turn): State {
    match loop case Pods => s.(pods := turn) case Vmis => s.(vmis := turn)
  }

  predicate CanTake(s: State, k: Key) {
    k in s.ready && (PassOf(s, k).Idle? || PassOf(s, k).Waiting?)
  }

  function Taken(s: State, k: Key, how: How): State {
    var p := if k !in s.desired || how.Elsewhere? then Idle else if how.Exempted? then Exempt else First(AtPods);
    s.(ready := s.ready - {k}, passes := s.passes[k := p])
  }

  /** The next step of a pass. */
  function PassAfter(c: Conditions, p: Pass): Pass {
    match p
    case First(look) =>
      var g := Glanced(c, look);
      if g.On? then First(g.look) else if g.Open? then Through else Closed
    case Closed => Second(AtPods)
    case Second(look) =>
      var g := Glanced(c, look);
      if g.On? then Second(g.look) else if g.Open? then Unparking else Waiting
    case Unparking => Through
    case Through => Idle
    case Exempt => Idle
    case Idle => Idle
    case Waiting => Waiting
  }

  function Worked(s: State, k: Key): State {
    var p := PassOf(s, k);
    s.(passes := s.passes[k := PassAfter(s.conditions, p)],
       parked := if p.Closed? then s.parked + {k} else if p.Unparking? then s.parked - {k} else s.parked)
  }

  /** A pod list gives the pods it names their specs; a VMI list replaces the objects known. */
  function ListedIn(c: Conditions, loop: Loop, uids: set<Uid>): Conditions {
    match loop
    case Pods => c.(unspecified := c.unspecified - uids)
    case Vmis => c.(known := uids)
  }

  function FlagStored(c: Conditions, loop: Loop): Conditions {
    match loop
    case Pods => c.(podsSynced := true)
    case Vmis => c.(vmisSynced := true)
  }

  /** The next step of a loop. */
  function TurnAfter(s: State, t: Turn): Turn {
    match t
    case Between => Between
    case Listed => Stored
    case Stored => Releasing(AtPods)
    case Releasing(look) =>
      var g := Glanced(s.conditions, look);
      if g.On? then Releasing(g.look) else if g.Open? then Draining else Between
    case Draining => Waking(s.parked)
    case Waking(_) => Between
  }

  function Advanced(s: State, loop: Loop): State {
    var t := TurnOf(s, loop);
    Moves(s.(conditions := if t.Listed? then FlagStored(s.conditions, loop) else s.conditions,
             parked := if t.Draining? then {} else s.parked,
             ready := if t.Waking? then s.ready + t.keys * s.desired else s.ready),
          loop, TurnAfter(s, t))
  }

  predicate CanList(s: State, loop: Loop) {
    TurnOf(s, loop).Between? && (loop.Vmis? ==> s.conditions.runsVms)
  }

  predicate CanGiveUp(s: State, loop: Loop) {
    TurnOf(s, loop).Listed? || (loop.Pods? && s.pods.Stored?)
  }

  /** What changes the conditions from outside the loops. */
  function Changed(c: Conditions, e: Event): Conditions {
    match e
    case PodTold(u) => c.(unspecified := c.unspecified - {u})
    case PodGone(u) => c.(unspecified := c.unspecified - {u})
    case PodRestored(u) => c.(unspecified := c.unspecified + {u})
    case VmTold(u) => if c.runsVms then c.(known := c.known + {u}) else c
    case VmForgotten(u) => if c.runsVms then c.(known := c.known - {u}) else c
    case VmRecorded(u) => if c.runsVms then c.(machines := c.machines + {u}) else c
    case VmStopped(u) => c.(machines := c.machines - {u})
    case _ => c
  }

  /** What an event does; one that cannot happen changes nothing. */
  function Next(s: State, e: Event): State {
    match e
    case Take(k, how) => if CanTake(s, k) then Taken(s, k, how) else s
    case Work(k) => Worked(s, k)
    case List(loop, uids) =>
      if CanList(s, loop) then Moves(s.(conditions := ListedIn(s.conditions, loop, uids)), loop, Listed) else s
    case Advance(loop) => Advanced(s, loop)
    case GiveUp(loop) => if CanGiveUp(s, loop) then Moves(s, loop, Between) else s
    case Desire(now, changed) =>
      s.(desired := now, ready := s.ready + changed + (now - s.desired) + (s.desired - now))
    case Retry(k) => s.(ready := s.ready + {k})
    case Wake(k) => s.(ready := s.ready + {k})
    case _ => s.(conditions := Changed(s.conditions, e))
  }

  /** The state before the n-th event. */
  ghost function StateAt(s: State, run: seq<Event>, n: nat): State {
    if n == 0 then s else if n > |run| then StateAt(s, run, |run|) else Next(StateAt(s, run, n - 1), run[n - 1])
  }

  ghost function Last(s: State, run: seq<Event>): State {
    StateAt(s, run, |run|)
  }

  /** What holds before the t-th event holds after it. */
  ghost predicate Kept(p: nat -> bool, t: nat) {
    p(t) ==> p(t + 1)
  }

  lemma {:induction false} StepByStep(p: nat -> bool, i: nat, n: nat)
    requires i <= n && p(i) && forall t: nat :: i <= t < n ==> Kept(p, t)
    ensures p(n)
    decreases n
  {
    if i < n {
      StepByStep(p, i, n - 1);
      assert Kept(p, n - 1);
    }
  }

  // ---------------------------------------------------------------- what a look found

  datatype Looker = Worker(key: Key) | Release(loop: Loop)

  /** How far someone's look is; `Found` from when it found everything open. */
  datatype Progress = NotLooking | Before(look: Look) | Found

  function ProgressOf(s: State, w: Looker): Progress {
    match w
    case Worker(k) =>
      (match PassOf(s, k)
       case First(look) => Before(look)
       case Second(look) => Before(look)
       case Unparking => Found
       case Through => Found
       case Idle => NotLooking
       case Closed => NotLooking
       case Waiting => NotLooking
       case Exempt => NotLooking)
    case Release(loop) =>
      (match TurnOf(s, loop)
       case Releasing(look) => Before(look)
       case Draining => Found
       case Waking(_) => Found
       case Between => NotLooking
       case Listed => NotLooking
       case Stored => NotLooking)
  }

  /** One event takes a look nowhere, to its start, to its end, or one read on. */
  ghost predicate Progresses(c: Conditions, p: Progress, q: Progress) {
    || q == p || q.NotLooking?
    || (p.NotLooking? && q == Before(AtPods))
    || (p.Before? && Glanced(c, p.look).On? && q == Before(Glanced(c, p.look).look))
    || (p.Before? && Glanced(c, p.look).Open? && q.Found?)
  }

  lemma WorkedProgresses(s: State, k: Key)
    ensures Progresses(s.conditions, ProgressOf(s, Worker(k)), ProgressOf(Worked(s, k), Worker(k)))
  {
  }

  lemma WorkerProgresses(s: State, e: Event, k: Key)
    ensures Progresses(s.conditions, ProgressOf(s, Worker(k)), ProgressOf(Next(s, e), Worker(k)))
  {
    if e == Work(k) {
      WorkedProgresses(s, k);
    } else if !(e.Take? && e.key == k) {
      OtherPass(s, e, k);
    }
  }

  lemma OtherPass(s: State, e: Event, k: Key)
    requires e != Work(k) && !(e.Take? && e.key == k)
    ensures PassOf(Next(s, e), k) == PassOf(s, k)
  {
  }

  lemma ReleaseProgresses(s: State, e: Event, loop: Loop)
    ensures Progresses(s.conditions, ProgressOf(s, Release(loop)), ProgressOf(Next(s, e), Release(loop)))
  {
    if (e.Advance? || e.List? || e.GiveUp?) && e.loop == loop {
    } else {
      assert TurnOf(Next(s, e), loop) == TurnOf(s, loop);
    }
  }

  /** The event by which a look got to where it is. */
  lemma {:induction false} GotThere(s: State, run: seq<Event>, w: Looker, n: nat) returns (j: nat)
    requires Init(s) && n <= |run| && !ProgressOf(StateAt(s, run, n), w).NotLooking?
    ensures j < n
    ensures var p, q := ProgressOf(StateAt(s, run, j), w), ProgressOf(StateAt(s, run, n), w);
      p != q && Progresses(StateAt(s, run, j).conditions, p, q)
    decreases n
  {
    var before, after := StateAt(s, run, n - 1), StateAt(s, run, n);
    match w {
      case Worker(k) => WorkerProgresses(before, run[n - 1], k);
      case Release(loop) => ReleaseProgresses(before, run[n - 1], loop);
    }
    if ProgressOf(before, w) == ProgressOf(after, w) {
      j := GotThere(s, run, w, n - 1);
    } else {
      j := n - 1;
    }
  }

  /** Whoever found admission open, a worker or a release, had read every condition open: the pod
      flag, the VMI flag, no pod without a spec, and an object for each machine there had been. */
  lemma {:induction false} FoundAllOpen(s: State, run: seq<Event>, w: Looker, n: nat)
    returns (pods: nat, vmis: nat, specs: nat, machines: nat, claims: nat)
    requires Init(s) && n <= |run| && ProgressOf(StateAt(s, run, n), w).Found?
    ensures pods < vmis < specs < machines < claims < n
    ensures StateAt(s, run, pods).conditions.podsSynced && StateAt(s, run, vmis).conditions.vmisSynced
    ensures StateAt(s, run, specs).conditions.unspecified == {}
    ensures StateAt(s, run, machines).conditions.machines <= StateAt(s, run, claims).conditions.known
  {
    claims := GotThere(s, run, w, n);
    machines := GotThere(s, run, w, claims);
    specs := GotThere(s, run, w, machines);
    vmis := GotThere(s, run, w, specs);
    pods := GotThere(s, run, w, vmis);
  }

  /** No worker gets past admission before both lists are known. */
  lemma NoneThroughEarly(s: State, run: seq<Event>, k: Key)
    requires Init(s) && PassOf(Last(s, run), k).Through?
    ensures Last(s, run).conditions.podsSynced && Last(s, run).conditions.vmisSynced
  {
    var pods, vmis, specs, machines, claims := FoundAllOpen(s, run, Worker(k), |run|);
    FlagsStay(s, run, pods, |run|);
    FlagsStay(s, run, vmis, |run|);
  }

  lemma {:induction false} FlagsStay(s: State, run: seq<Event>, i: nat, n: nat)
    requires i <= n <= |run|
    ensures StateAt(s, run, i).conditions.podsSynced ==> StateAt(s, run, n).conditions.podsSynced
    ensures StateAt(s, run, i).conditions.vmisSynced ==> StateAt(s, run, n).conditions.vmisSynced
    decreases n
  {
    if i < n {
      FlagsStay(s, run, i, n - 1);
    }
  }

  // ---------------------------------------------------------------- no parked worker is lost

  /** A release took it off the parked set and is about to queue it. */
  predicate InHand(s: State, k: Key) {
    (s.pods.Waking? && k in s.pods.keys) || (s.vmis.Waking? && k in s.vmis.keys)
  }

  predicate Queued(s: State, k: Key) {
    k in s.ready || InHand(s, k)
  }

  /** It parked in this pass and has not gone on. */
  predicate HasParked(s: State, k: Key) {
    PassOf(s, k).Second? || PassOf(s, k).Waiting?
  }

  predicate NotLost(s: State, k: Key) {
    k in s.desired && HasParked(s, k) ==> Queued(s, k) || k in s.parked
  }

  predicate TakesUp(s: State, e: Event, k: Key) {
    e.Take? && e.key == k && CanTake(s, k)
  }

  predicate IsOutside(e: Event) {
    !e.Take? && !e.Work? && !e.Advance? && !e.List? && !e.GiveUp?
  }

  /** What happens outside the workers and the loops touches none of them. */
  lemma OutsideFrame(s: State, e: Event)
    requires IsOutside(e)
    ensures var t := Next(s, e);
      && t.passes == s.passes && t.parked == s.parked && t.pods == s.pods && t.vmis == s.vmis
      && s.ready <= t.ready && t.desired - s.desired <= t.ready && (!e.Desire? ==> t.desired == s.desired)
  {
  }

  lemma LoopFrame(s: State, e: Event, k: Key)
    requires e.Advance? || e.List? || e.GiveUp?
    ensures var t := Next(s, e);
      && t.passes == s.passes && t.desired == s.desired && s.ready <= t.ready
      && (InHand(s, k) && k in s.desired ==> Queued(t, k))
      && (k in s.parked ==> k in t.parked || InHand(t, k))
  {
  }

  lemma WorkerFrame(s: State, e: Event, k: Key)
    requires (e.Work? || e.Take?) && e.key != k
    ensures var t := Next(s, e);
      && PassOf(t, k) == PassOf(s, k) && t.desired == s.desired && t.pods == s.pods && t.vmis == s.vmis
      && (k in t.parked <==> k in s.parked) && (k in t.ready <==> k in s.ready)
  {
  }

  lemma OwnFrame(s: State, e: Event, k: Key)
    requires e == Work(k)
    ensures var t := Next(s, e);
      && t.desired == s.desired && t.ready == s.ready && t.pods == s.pods && t.vmis == s.vmis
      && (!PassOf(s, k).Unparking? && k in s.parked ==> k in t.parked)
      && (HasParked(t, k) ==> HasParked(s, k) || k in t.parked)
  {
  }

  /** A workload that is queued stays so, until a pass takes it up or it is not desired. */
  lemma QueuedStays(s: State, e: Event, k: Key)
    requires Queued(s, k) && !TakesUp(s, e, k) && k in s.desired
    ensures Queued(Next(s, e), k)
  {
    if IsOutside(e) {
      OutsideFrame(s, e);
    } else if e.Advance? || e.List? || e.GiveUp? {
      LoopFrame(s, e, k);
    } else if e.key != k {
      WorkerFrame(s, e, k);
    } else if e.Work? {
      OwnFrame(s, e, k);
    }
  }

  lemma NextKeepsNotLost(s: State, e: Event, k: Key)
    requires NotLost(s, k)
    ensures NotLost(Next(s, e), k)
  {
    if IsOutside(e) {
      OutsideFrame(s, e);
    } else if e.Advance? || e.List? || e.GiveUp? {
      LoopFrame(s, e, k);
    } else if e.key != k {
      WorkerFrame(s, e, k);
    } else if e.Work? {
      OwnFrame(s, e, k);
    }
  }

  /** In every interleaving a desired workload that has parked is still parked, in the hand of a
      release, or queued: so whatever release next finds admission open wakes it. */
  lemma {:induction false} NoneLost(s: State, run: seq<Event>, n: nat, k: Key)
    requires Init(s) && n <= |run|
    ensures NotLost(StateAt(s, run, n), k)
    decreases n
  {
    if n > 0 {
      NoneLost(s, run, n - 1, k);
      NextKeepsNotLost(StateAt(s, run, n - 1), run[n - 1], k);
    }
  }

  // ---------------------------------------------------------------- who is stranded

  /** Something other than admission queues it: its retry timer, its own change, another event. */
  predicate WokenOtherwise(s: State, e: Event, k: Key) {
    match e
    case Retry(j) => j == k
    case Wake(j) => j == k
    case Desire(now, changed) => k in changed || (k in now) != (k in s.desired)
    case _ => false
  }

  /** A release queues it. */
  predicate WokenByRelease(s: State, e: Event, k: Key) {
    e.Advance? && TurnOf(s, e.loop).Waking? && k in TurnOf(s, e.loop).keys && k in s.desired
  }

  ghost predicate TakenAt(s: State, run: seq<Event>, j: nat, k: Key) {
    j < |run| && TakesUp(StateAt(s, run, j), run[j], k)
  }

  lemma ReadySteps(s: State, e: Event, k: Key)
    ensures WokenOtherwise(s, e, k) || WokenByRelease(s, e, k) ==> k in Next(s, e).ready
    ensures TakesUp(s, e, k) ==> k !in Next(s, e).ready
    ensures !WokenOtherwise(s, e, k) && !WokenByRelease(s, e, k) && !TakesUp(s, e, k)
            ==> (k in Next(s, e).ready <==> k in s.ready)
  {
  }

  /** Desired, waiting, and nothing will begin its next pass but its retry timer, another event
      or a release to come. */
  predicate Stranded(s: State, k: Key) {
    k in s.desired && PassOf(s, k).Waiting? && k !in s.ready
  }

  /** The pass went on past its park. */
  predicate WentOn(s: State, k: Key) {
    PassOf(s, k).Unparking? || PassOf(s, k).Through? || PassOf(s, k).Idle?
  }

  lemma ParkedOrWentOn(s: State, e: Event, k: Key)
    requires !TakesUp(s, e, k)
    ensures WentOn(s, k) ==> WentOn(Next(s, e), k)
    ensures HasParked(s, k) ==> HasParked(Next(s, e), k) || WentOn(Next(s, e), k)
  {
    if e != Work(k) && !(e.Take? && e.key == k) {
      OtherPass(s, e, k);
    }
  }

  ghost predicate NotTaken(s: State, run: seq<Event>, i: nat, k: Key) {
    forall t: nat :: i <= t < |run| ==> !TakenAt(s, run, t, k)
  }

  lemma ParkedAt(s: State, run: seq<Event>, t: nat, k: Key)
    requires t < |run| && !TakenAt(s, run, t, k)
    ensures WentOn(StateAt(s, run, t), k) ==> WentOn(StateAt(s, run, t + 1), k)
    ensures HasParked(StateAt(s, run, t), k)
            ==> HasParked(StateAt(s, run, t + 1), k) || WentOn(StateAt(s, run, t + 1), k)
  {
    ParkedOrWentOn(StateAt(s, run, t), run[t], k);
  }

  lemma {:induction false} StaysGone(s: State, run: seq<Event>, t: nat, n: nat, k: Key)
    requires t <= n <= |run| && NotTaken(s, run, t, k) && WentOn(StateAt(s, run, t), k)
    ensures WentOn(StateAt(s, run, n), k)
    decreases n
  {
    if t < n {
      StaysGone(s, run, t, n - 1, k);
      assert !TakenAt(s, run, n - 1, k);
      ParkedAt(s, run, n - 1, k);
    }
  }

  lemma {:induction false} ParksOrGoesOn(s: State, run: seq<Event>, i: nat, n: nat, k: Key)
    requires i <= n <= |run| && NotTaken(s, run, i, k) && HasParked(StateAt(s, run, i), k)
    ensures HasParked(StateAt(s, run, n), k) || WentOn(StateAt(s, run, n), k)
    decreases n
  {
    if i < n {
      ParksOrGoesOn(s, run, i, n - 1, k);
      assert !TakenAt(s, run, n - 1, k);
      ParkedAt(s, run, n - 1, k);
    }
  }

  /** A pass that parked and waits at the end has not gone on in between. */
  lemma StaysParked(s: State, run: seq<Event>, i: nat, n: nat, k: Key)
    requires i <= n <= |run| && NotTaken(s, run, i, k)
    requires HasParked(StateAt(s, run, i), k) && PassOf(Last(s, run), k).Waiting?
    ensures HasParked(StateAt(s, run, n), k)
  {
    ParksOrGoesOn(s, run, i, n, k);
    if WentOn(StateAt(s, run, n), k) {
      StaysGone(s, run, n, |run|, k);
    }
  }

  /** A release that found every condition open takes the parked. */
  predicate Drains(s: State, e: Event) {
    e.Advance? && TurnOf(s, e.loop).Draining?
  }

  ghost predicate DrainsAt(s: State, run: seq<Event>, d: nat) {
    d < |run| && Drains(StateAt(s, run, d), run[d])
  }

  ghost predicate DesiredAt(s: State, run: seq<Event>, t: nat, k: Key) {
    k in StateAt(s, run, t).desired
  }

  ghost predicate DesiredFrom(s: State, run: seq<Event>, i: nat, k: Key) {
    forall t: nat :: i <= t <= |run| ==> DesiredAt(s, run, t, k)
  }

  ghost predicate OtherwiseAt(s: State, run: seq<Event>, t: nat, k: Key) {
    t < |run| && WokenOtherwise(StateAt(s, run, t), run[t], k)
  }

  ghost predicate OtherwiseSince(s: State, run: seq<Event>, i: nat, k: Key) {
    exists t: nat :: i <= t < |run| && OtherwiseAt(s, run, t, k)
  }

  ghost predicate DrainedSince(s: State, run: seq<Event>, i: nat) {
    exists d: nat :: i <= d < |run| && DrainsAt(s, run, d)
  }

  lemma QueuedAt(s: State, run: seq<Event>, t: nat, k: Key)
    requires t < |run| && !TakenAt(s, run, t, k) && DesiredAt(s, run, t, k) && Queued(StateAt(s, run, t), k)
    ensures Queued(StateAt(s, run, t + 1), k)
  {
    QueuedStays(StateAt(s, run, t), run[t], k);
  }

  lemma {:induction false} StaysQueued(s: State, run: seq<Event>, i: nat, n: nat, k: Key)
    requires i <= n <= |run| && NotTaken(s, run, i, k) && DesiredFrom(s, run, i, k) && Queued(StateAt(s, run, i), k)
    ensures Queued(StateAt(s, run, n), k)
    decreases n
  {
    if i < n {
      StaysQueued(s, run, i, n - 1, k);
      assert !TakenAt(s, run, n - 1, k) && DesiredAt(s, run, n - 1, k);
      QueuedAt(s, run, n - 1, k);
    }
  }

  /** Nothing but a release that finds admission open, or something else, queues a workload. */
  lemma OnlyDrainsQueue(s: State, e: Event, k: Key)
    requires !Queued(s, k) && !Drains(s, e) && !WokenOtherwise(s, e, k)
    ensures !Queued(Next(s, e), k)
  {
    ReadySteps(s, e, k);
  }

  ghost function Unqueued(s: State, run: seq<Event>, k: Key): nat -> bool {
    (t: nat) => !Queued(StateAt(s, run, t), k)
  }

  lemma UnqueuedAt(s: State, run: seq<Event>, t: nat, k: Key)
    requires t < |run| && !DrainsAt(s, run, t) && !OtherwiseAt(s, run, t, k)
    ensures Kept(Unqueued(s, run, k), t)
  {
    if !Queued(StateAt(s, run, t), k) {
      OnlyDrainsQueue(StateAt(s, run, t), run[t], k);
    }
  }

  lemma NotQueuedYet(s: State, run: seq<Event>, i: nat, k: Key)
    requires i <= |run| && !OtherwiseSince(s, run, i, k) && !DrainedSince(s, run, i)
    requires Unqueued(s, run, k)(i)
    ensures Unqueued(s, run, k)(|run|)
  {
    forall t: nat | i <= t < |run| ensures Kept(Unqueued(s, run, k), t) {
      UnqueuedAt(s, run, t, k);
    }
    StepByStep(Unqueued(s, run, k), i, |run|);
  }

  /** The event before the i-th parked it. */
  ghost predicate Parks(s: State, run: seq<Event>, i: nat, k: Key) {
    0 < i <= |run| && run[i - 1] == Work(k) && PassOf(StateAt(s, run, i - 1), k).Closed?
  }

  lemma ParkOrStay(s: State, e: Event, k: Key)
    requires HasParked(Next(s, e), k)
    ensures !TakesUp(s, e, k)
    ensures HasParked(s, k) || (e == Work(k) && PassOf(s, k).Closed?)
  {
    if e != Work(k) && !(e.Take? && e.key == k) {
      OtherPass(s, e, k);
    }
  }

  /** The event by which a workload's pass parked. */
  lemma {:induction false} ParkOf(s: State, run: seq<Event>, n: nat, k: Key) returns (i: nat)
    requires Init(s) && n <= |run| && HasParked(StateAt(s, run, n), k)
    ensures i <= n && Parks(s, run, i, k)
    ensures forall t: nat :: i <= t < n ==> !TakenAt(s, run, t, k)
    decreases n
  {
    ParkOrStay(StateAt(s, run, n - 1), run[n - 1], k);
    if HasParked(StateAt(s, run, n - 1), k) {
      i := ParkOf(s, run, n - 1, k);
      assert !TakenAt(s, run, n - 1, k);
    } else {
      i := n;
    }
  }

  lemma {:induction false} StaysReady(s: State, run: seq<Event>, i: nat, n: nat, k: Key)
    requires i <= n <= |run| && NotTaken(s, run, i, k) && k in StateAt(s, run, i).ready
    ensures k in StateAt(s, run, n).ready
    decreases n
  {
    if i < n {
      StaysReady(s, run, i, n - 1, k);
      assert !TakenAt(s, run, n - 1, k);
      ReadySteps(StateAt(s, run, n - 1), run[n - 1], k);
    }
  }

  /** A workload that comes to be desired, or no longer to be, is queued for that. */
  lemma {:induction false} DesiredAllAlong(s: State, run: seq<Event>, i: nat, n: nat, k: Key)
    requires i <= n <= |run| && !OtherwiseSince(s, run, i, k) && k in Last(s, run).desired
    ensures DesiredAt(s, run, n, k)
    decreases |run| - n
  {
    if n < |run| {
      DesiredAllAlong(s, run, i, n + 1, k);
      assert !OtherwiseAt(s, run, n, k);
    }
  }

  /** A desired workload that waits, its pass having parked at the i-th event and none having begun
      since, is queued, or about to be, exactly if it was already when it parked, or something else
      than admission woke it since, or a release found every condition open since. */
  lemma StrandedExactly(s: State, run: seq<Event>, i: nat, k: Key)
    requires Init(s) && Parks(s, run, i, k) && NotTaken(s, run, i, k)
    requires PassOf(Last(s, run), k).Waiting? && k in Last(s, run).desired
    ensures Queued(Last(s, run), k)
            <==> Queued(StateAt(s, run, i), k) || OtherwiseSince(s, run, i, k) || DrainedSince(s, run, i)
  {
    if OtherwiseSince(s, run, i, k) {
      var t: nat :| i <= t < |run| && OtherwiseAt(s, run, t, k);
      ReadySteps(StateAt(s, run, t), run[t], k);
      StaysReady(s, run, t + 1, |run|, k);
    } else {
      forall n: nat | i <= n <= |run| ensures DesiredAt(s, run, n, k) {
        DesiredAllAlong(s, run, i, n, k);
      }
      if Queued(StateAt(s, run, i), k) {
        StaysQueued(s, run, i, |run|, k);
      } else if DrainedSince(s, run, i) {
        var d: nat :| i <= d < |run| && DrainsAt(s, run, d);
        DrainedQueued(s, run, i, d, k);
        StaysQueued(s, run, d + 1, |run|, k);
      } else {
        NotQueuedYet(s, run, i, k);
      }
    }
  }

  /** Every workload that waits is such a one, for one of its parks. */
  lemma WaitingHasParked(s: State, run: seq<Event>, k: Key) returns (i: nat)
    requires Init(s) && PassOf(Last(s, run), k).Waiting?
    ensures Parks(s, run, i, k) && NotTaken(s, run, i, k)
  {
    i := ParkOf(s, run, |run|, k);
  }

  lemma DrainedQueued(s: State, run: seq<Event>, i: nat, d: nat, k: Key)
    requires Init(s) && Parks(s, run, i, k) && i <= d < |run|
    requires NotTaken(s, run, i, k) && DesiredAt(s, run, d, k) && DrainsAt(s, run, d)
    requires PassOf(Last(s, run), k).Waiting?
    ensures Queued(StateAt(s, run, d + 1), k)
  {
    assert StateAt(s, run, i) == Worked(StateAt(s, run, i - 1), k);
    StaysParked(s, run, i, d, k);
    NoneLost(s, run, d, k);
    DrainQueues(StateAt(s, run, d), run[d], k);
  }

  lemma DrainQueues(s: State, e: Event, k: Key)
    requires Drains(s, e) && (k in s.parked || Queued(s, k)) && k in s.desired
    ensures Queued(Next(s, e), k)
  {
    LoopFrame(s, e, k);
    assert k in s.parked ==> InHand(Next(s, e), k);
  }

  // ---------------------------------------------------------------- once the conditions have settled

  /** From the m-th event on every condition holds, and no machine there is loses its object. */
  ghost predicate Settled(s: State, run: seq<Event>, m: nat) {
    && (forall i :: m <= i <= |run| ==>
          var c := StateAt(s, run, i).conditions; c.podsSynced && c.vmisSynced && c.unspecified == {})
    && (forall i, j :: m <= i <= j <= |run| ==>
          StateAt(s, run, i).conditions.machines <= StateAt(s, run, j).conditions.known)
  }

  /** The machines a look has read all keep their objects. */
  ghost predicate Safe(s: State, run: seq<Event>, t: nat, look: Look) {
    look.AtClaims? ==> forall j :: t <= j <= |run| ==> look.machines <= StateAt(s, run, j).conditions.known
  }

  lemma SafeGlance(s: State, run: seq<Event>, m: nat, t: nat, look: Look)
    requires Settled(s, run, m) && m <= t < |run| && Safe(s, run, t, look)
    ensures var g := Glanced(StateAt(s, run, t).conditions, look);
      g.Open? || (g.On? && Safe(s, run, t + 1, g.look))
  {
    var c := StateAt(s, run, t).conditions;
    assert c.podsSynced && c.vmisSynced && c.unspecified == {};
  }

  /** Waiting it is queued, and looking again it is queued or will find admission open. */
  ghost predicate WellOff(s: State, run: seq<Event>, t: nat, k: Key) {
    var u := StateAt(s, run, t);
    k in u.desired ==>
      && (PassOf(u, k).Waiting? ==> Queued(u, k))
      && (PassOf(u, k).Second? ==> Queued(u, k) || Safe(s, run, t, PassOf(u, k).look))
  }

  lemma WellOffStays(s: State, run: seq<Event>, m: nat, t: nat, k: Key)
    requires Settled(s, run, m) && m <= t < |run| && WellOff(s, run, t, k)
    ensures WellOff(s, run, t + 1, k)
  {
    var u, e := StateAt(s, run, t), run[t];
    if k !in u.desired {
      if e.Desire? {
        OutsideFrame(u, e);
      }
    } else if Queued(u, k) {
      if TakesUp(u, e, k) {
        assert !HasParked(Next(u, e), k);
      } else {
        QueuedStays(u, e, k);
      }
    } else if e == Work(k) {
      if PassOf(u, k).Second? {
        SafeGlance(s, run, m, t, PassOf(u, k).look);
      }
    } else if e.Take? && e.key == k {
      assert !HasParked(Next(u, e), k) || Next(u, e) == u;
    } else {
      OtherPass(u, e, k);
    }
  }

  /** The release goes on and finds every condition open. */
  ghost predicate GoesWell(s: State, run: seq<Event>, t: nat, loop: Loop)
    requires t <= |run|
  {
    var turn := TurnOf(StateAt(s, run, t), loop);
    turn.Draining? || (turn.Releasing? && Safe(s, run, t, turn.look))
  }

  lemma ReleaseGoesOn(s: State, run: seq<Event>, m: nat, t: nat, loop: Loop, k: Key)
    requires Init(s) && Settled(s, run, m) && m <= t < |run| && GoesWell(s, run, t, loop)
    ensures GoesWell(s, run, t + 1, loop) || WellOff(s, run, t + 1, k)
  {
    var u, e := StateAt(s, run, t), run[t];
    if e == Advance(loop) {
      if u.desired == Next(u, e).desired && k in u.desired && TurnOf(u, loop).Draining? {
        NoneLost(s, run, t, k);
        if HasParked(u, k) {
          DrainQueues(u, e, k);
        }
      } else if TurnOf(u, loop).Releasing? {
        SafeGlance(s, run, m, t, TurnOf(u, loop).look);
      }
    } else {
      ReleaseUntouched(u, e, loop);
    }
  }

  lemma ReleaseUntouched(s: State, e: Event, loop: Loop)
    requires e != Advance(loop) && (TurnOf(s, loop).Draining? || TurnOf(s, loop).Releasing?)
    ensures TurnOf(Next(s, e), loop) == TurnOf(s, loop)
  {
  }

  lemma {:induction false} ReleaseWorks(s: State, run: seq<Event>, m: nat, b: nat, t: nat, loop: Loop, k: Key)
    requires Init(s) && Settled(s, run, m) && m <= b <= t <= |run|
    requires TurnOf(StateAt(s, run, b), loop) == Releasing(AtPods)
    ensures GoesWell(s, run, t, loop) || WellOff(s, run, t, k)
    decreases t
  {
    if b < t {
      ReleaseWorks(s, run, m, b, t - 1, loop, k);
      if WellOff(s, run, t - 1, k) {
        WellOffStays(s, run, m, t - 1, k);
      } else {
        ReleaseGoesOn(s, run, m, t - 1, loop, k);
      }
    }
  }

  lemma WellOffFrom(s: State, run: seq<Event>, m: nat, c: nat, k: Key)
    requires Settled(s, run, m) && m <= c <= |run| && WellOff(s, run, c, k)
    ensures WellOff(s, run, |run|, k)
  {
    var wellOff := (t: nat) => WellOff(s, run, t, k);
    forall t: nat | c <= t < |run| ensures Kept(wellOff, t) {
      if WellOff(s, run, t, k) { WellOffStays(s, run, m, t, k); }
    }
    StepByStep(wellOff, c, |run|);
  }

  /** Once every condition holds for good, the first release that begins after that and ends
      leaves no desired workload waiting unqueued, then or later, whoever parks when: none needs
      its retry timer. */
  lemma SettledAdmissionStrandsNone(s: State, run: seq<Event>, m: nat, b: nat, c: nat, loop: Loop, k: Key)
    requires Init(s) && Settled(s, run, m) && m <= b < c <= |run|
    requires TurnOf(StateAt(s, run, b), loop) == Releasing(AtPods) && TurnOf(StateAt(s, run, c), loop) == Between
    requires k in Last(s, run).desired && PassOf(Last(s, run), k).Waiting?
    ensures Queued(Last(s, run), k)
  {
    ReleaseWorks(s, run, m, b, c, loop, k);
    WellOffFrom(s, run, m, c, k);
  }

  // ---------------------------------------------------------------- open admission lets through

  /** How often the pass of `k` goes on between two events. */
  ghost function Works(run: seq<Event>, b: nat, n: nat, k: Key): nat
    requires b <= n <= |run|
    decreases n
  {
    if b == n then 0 else Works(run, b, n - 1, k) + if run[n - 1] == Work(k) then 1 else 0
  }

  /** A look after `j` reads, each of which found its condition open. */
  ghost predicate ReadOpen(s: State, run: seq<Event>, t: nat, j: nat, look: Look) {
    match j
    case 0 => look == AtPods
    case 1 => look == AtVmis
    case 2 => look == AtSpecs
    case 3 => look == AtMachines
    case _ => j == 4 && look.AtClaims? && Safe(s, run, t, look)
  }

  /** A first look after `j` steps: it is looking, or the fifth has let it through. */
  ghost predicate LooksFirst(s: State, run: seq<Event>, t: nat, j: nat, k: Key) {
    var p := PassOf(StateAt(s, run, t), k);
    if j < 5 then p.First? && ReadOpen(s, run, t, j, p.look) else j == 5 && p.Through?
  }

  /** A second look likewise; with its sixth step it is off the parked set. */
  ghost predicate LooksAgain(s: State, run: seq<Event>, t: nat, j: nat, k: Key) {
    var p := PassOf(StateAt(s, run, t), k);
    if j < 5 then p.Second? && ReadOpen(s, run, t, j, p.look)
    else if j == 5 then p.Unparking?
    else j == 6 && p.Through? && k !in StateAt(s, run, t).parked
  }

  lemma NotMine(s: State, e: Event, k: Key)
    requires e != Work(k) && !PassOf(s, k).Idle? && !PassOf(s, k).Waiting?
    ensures PassOf(Next(s, e), k) == PassOf(s, k)
    ensures k !in s.parked ==> k !in Next(s, e).parked
  {
  }

  lemma ReadsOn(s: State, run: seq<Event>, m: nat, t: nat, j: nat, look: Look)
    requires Settled(s, run, m) && m <= t < |run| && j < 5 && ReadOpen(s, run, t, j, look)
    ensures var g := Glanced(StateAt(s, run, t).conditions, look);
            if j < 4 then g.On? && ReadOpen(s, run, t + 1, j + 1, g.look) else g.Open?
  {
    SafeGlance(s, run, m, t, look);
  }

  lemma FirstGoesOn(s: State, run: seq<Event>, m: nat, t: nat, j: nat, k: Key)
    requires Settled(s, run, m) && m <= t < |run| && LooksFirst(s, run, t, j, k)
    requires run[t] == Work(k) ==> j < 5
    ensures LooksFirst(s, run, t + 1, if run[t] == Work(k) then j + 1 else j, k)
  {
    var u := StateAt(s, run, t);
    if run[t] == Work(k) { ReadsOn(s, run, m, t, j, PassOf(u, k).look); } else { NotMine(u, run[t], k); }
  }

  lemma SecondGoesOn(s: State, run: seq<Event>, m: nat, t: nat, j: nat, k: Key)
    requires Settled(s, run, m) && m <= t < |run| && LooksAgain(s, run, t, j, k)
    requires run[t] == Work(k) ==> j < 6
    ensures LooksAgain(s, run, t + 1, if run[t] == Work(k) then j + 1 else j, k)
  {
    var u := StateAt(s, run, t);
    if run[t] != Work(k) {
      NotMine(u, run[t], k);
    } else if j < 5 {
      ReadsOn(s, run, m, t, j, PassOf(u, k).look);
    }
  }

  lemma {:induction false} FirstLooks(s: State, run: seq<Event>, m: nat, b: nat, n: nat, k: Key)
    requires Settled(s, run, m) && m <= b <= n <= |run| && PassOf(StateAt(s, run, b), k) == First(AtPods)
    requires Works(run, b, n, k) <= 5
    ensures LooksFirst(s, run, n, Works(run, b, n, k), k)
    decreases n
  {
    if b < n {
      FirstLooks(s, run, m, b, n - 1, k);
      FirstGoesOn(s, run, m, n - 1, Works(run, b, n - 1, k), k);
    }
  }

  lemma {:induction false} SecondLooks(s: State, run: seq<Event>, m: nat, b: nat, n: nat, k: Key)
    requires Settled(s, run, m) && m <= b <= n <= |run| && PassOf(StateAt(s, run, b), k) == Second(AtPods)
    requires Works(run, b, n, k) <= 6
    ensures LooksAgain(s, run, n, Works(run, b, n, k), k)
    decreases n
  {
    if b < n {
      SecondLooks(s, run, m, b, n - 1, k);
      SecondGoesOn(s, run, m, n - 1, Works(run, b, n - 1, k), k);
    }
  }

  /** A desired workload taken up once every condition holds for good is through with the fifth step
      of its pass, whatever else happens in between. */
  lemma OpenAdmissionLetsThrough(s: State, run: seq<Event>, m: nat, b: nat, n: nat, k: Key)
    requires Settled(s, run, m) && m <= b < n <= |run| && run[b] == Take(k, Asks)
    requires k in StateAt(s, run, b).ready && k in StateAt(s, run, b).desired
    requires PassOf(StateAt(s, run, b), k) == Idle || PassOf(StateAt(s, run, b), k) == Waiting
    requires Works(run, b + 1, n, k) == 5
    ensures PassOf(StateAt(s, run, n), k) == Through
  {
    assert StateAt(s, run, b + 1) == Next(StateAt(s, run, b), run[b]);
    FirstLooks(s, run, m, b + 1, n, k);
  }

  /** One that has parked looks again, goes through with six more steps, and is parked no longer. */
  lemma SecondLookLetsThrough(s: State, run: seq<Event>, m: nat, b: nat, n: nat, k: Key)
    requires Settled(s, run, m) && m <= b + 1 && b < n <= |run| && run[b] == Work(k)
    requires PassOf(StateAt(s, run, b), k) == Closed && Works(run, b + 1, n, k) == 6
    ensures k in StateAt(s, run, b + 1).parked
    ensures PassOf(StateAt(s, run, n), k) == Through && k !in StateAt(s, run, n).parked
  {
    assert StateAt(s, run, b + 1) == Next(StateAt(s, run, b), run[b]);
    SecondLooks(s, run, m, b + 1, n, k);
  }

  /** A pass that meets a condition closed at its first look parks, and one that meets one closed at
      its second waits: however many conditions were open before. */
  lemma ClosedAdmissionParks(s: State, k: Key)
    requires PassOf(s, k).First? || PassOf(s, k).Second?
    requires var c := s.conditions;
             match PassOf(s, k).look
             case AtPods => !c.podsSynced
             case AtVmis => !c.vmisSynced
             case AtSpecs => c.unspecified != {}
             case AtMachines => false
             case AtClaims(machines) => exists u :: u in machines && u !in c.known
    ensures var t := Next(s, Work(k));
            if PassOf(s, k).Second? then PassOf(t, k) == Waiting
            else var v := Next(t, Work(k)); PassOf(v, k) == Second(AtPods) && k in v.parked
  {
  }

  /** A static pod without claims is never asked, nor a workload not desired, nor a pass that has
      something else to do: such a pass neither parks nor waits, whatever admission says. */
  lemma OthersAreNotAsked(s: State, k: Key, how: How)
    requires k in s.ready && (PassOf(s, k) == Idle || PassOf(s, k) == Waiting)
    requires how != Asks || k !in s.desired
    ensures var t := Next(Next(s, Take(k, how)), Work(k)); PassOf(t, k) == Idle && t.parked == s.parked
  {
  }

  /** Past admission the pass ends with its next step, and can begin again once it is queued. */
  lemma ThroughEnds(s: State, k: Key)
    requires PassOf(s, k).Through?
    ensures var t := Next(s, Work(k));
            PassOf(t, k).Idle? && t.parked == s.parked && (k in s.ready ==> CanTake(t, k))
  {
  }

  /** Nothing but its next pass moves a workload that waits, or one that has no pass; and nothing but its
      list moves a loop that has none to work on. */
  lemma NothingToGoOn(s: State, k: Key, loop: Loop)
    ensures PassOf(s, k).Waiting? || PassOf(s, k).Idle? ==>
      PassOf(Next(s, Work(k)), k) == PassOf(s, k) && Next(s, Work(k)).parked == s.parked
    ensures TurnOf(s, loop).Between? ==> Next(s, Advance(loop)) == s
  {
  }

  /** A release that found everything open takes all the parked off the set at once, and queues those
      still desired. */
  lemma ReleaseTakesAll(s: State, loop: Loop)
    requires TurnOf(s, loop).Draining?
    ensures var t := Next(s, Advance(loop)); var u := Next(t, Advance(loop));
            && t.parked == {} && t.ready == s.ready && TurnOf(u, loop) == Between
            && u.parked == {} && u.ready == s.ready + s.parked * s.desired
  {
  }

  /** A list that answers sets its flag and then releases, or, when it cannot be published, neither sets a
      flag not yet set nor releases. */
  lemma ListsRelease(s: State, loop: Loop, uids: set<Uid>)
    requires TurnOf(s, loop).Between? && (loop.Vmis? ==> s.conditions.runsVms)
    ensures var t := Next(s, List(loop, uids)); var u := Next(t, Advance(loop));
            && TurnOf(Next(u, Advance(loop)), loop) == Releasing(AtPods)
            && u.conditions == FlagStored(ListedIn(s.conditions, loop, uids), loop)
            && t.conditions.podsSynced == s.conditions.podsSynced
            && t.conditions.vmisSynced == s.conditions.vmisSynced
            && Next(t, GiveUp(loop)) == Moves(t, loop, Between)
            && Next(u, GiveUp(loop)) == (if loop.Pods? then Moves(u, loop, Between) else u)
  {
  }

  /** What each event does to each condition: pods come to lack a spec when they are restored, and get it
      from a pass or a list, or go; machines are recorded and stop; objects are told, forgotten, or
      replaced by a list. */
  lemma ConditionsFollow(s: State, e: Event, u: Uid)
    ensures var c, d := s.conditions, Next(s, e).conditions;
            && d.runsVms == c.runsVms
            && (u in d.unspecified
                <==> if e == PodRestored(u) then true
                     else if e == PodTold(u) || e == PodGone(u) then false
                     else if e.List? && e.loop.Pods? && s.pods.Between? then u in c.unspecified && u !in e.uids
                     else u in c.unspecified)
            && (u in d.machines
                <==> if e == VmRecorded(u) && c.runsVms then true else if e == VmStopped(u) then false
                     else u in c.machines)
            && (u in d.known
                <==> if e == VmTold(u) && c.runsVms then true
                     else if e == VmForgotten(u) && c.runsVms then false
                     else if e.List? && e.loop.Vmis? && s.vmis.Between? && c.runsVms then u in e.uids
                     else u in c.known)
  {
  }

  predicate FlagOf(c: Conditions, loop: Loop) {
    match loop case Pods => c.podsSynced case Vmis => c.vmisSynced
  }

  ghost predicate ListedBefore(s: State, run: seq<Event>, loop: Loop, n: nat) {
    exists j: nat :: j < n && j < |run| && run[j].List? && run[j].loop == loop
  }

  /** A flag is set, and a list worked on, only after that list has answered; without VMs the VMI flag is
      set all along and no machine ever closes admission. */
  lemma {:induction false} FlagsNeedLists(s: State, run: seq<Event>, n: nat, loop: Loop)
    requires Init(s) && n <= |run|
    ensures var c := StateAt(s, run, n).conditions;
            && c.runsVms == s.conditions.runsVms
            && (loop.Pods? || c.runsVms ==>
                  (FlagOf(c, loop) || TurnOf(StateAt(s, run, n), loop) != Between ==> ListedBefore(s, run, loop, n)))
            && (!c.runsVms ==> c.vmisSynced && c.machines == {} && StateAt(s, run, n).vmis == Between)
    decreases n
  {
    if n > 0 {
      FlagsNeedLists(s, run, n - 1, loop);
      FlagStep(StateAt(s, run, n - 1), run[n - 1], loop);
      if run[n - 1].List? && run[n - 1].loop == loop {
        assert ListedBefore(s, run, loop, n);
      }
    }
  }

  lemma FlagStep(s: State, e: Event, loop: Loop)
    ensures var t := Next(s, e);
            && t.conditions.runsVms == s.conditions.runsVms
            && (!(e.List? && e.loop == loop) && !FlagOf(s.conditions, loop) && TurnOf(s, loop) == Between ==>
                  !FlagOf(t.conditions, loop) && TurnOf(t, loop) == Between)
            && (!s.conditions.runsVms && s.vmis == Between ==> t.vmis == Between)
            && (!s.conditions.runsVms && s.conditions.machines == {} ==> t.conditions.machines == {})
            && (s.conditions.vmisSynced ==> t.conditions.vmisSynced)
  {
  }

  // ---------------------------------------------------------------- two ways to be stranded

  lemma {:induction false} SamePrefix(s: State, run: seq<Event>, e: Event, n: nat)
    requires n <= |run|
    ensures StateAt(s, run + [e], n) == StateAt(s, run, n)
    decreases n
  {
    if n > 0 {
      SamePrefix(s, run, e, n - 1);
    }
  }

  /** One more event. */
  lemma Then(s: State, run: seq<Event>, e: Event) returns (more: seq<Event>)
    ensures run < more && Last(s, more) == Next(Last(s, run), e)
  {
    more := run + [e];
    SamePrefix(s, run, e, |run|);
  }

  /** A release begun has run to its end. */
  ghost predicate Released(s: State, run: seq<Event>, loop: Loop) {
    exists a, b ::
      a < b && b <= run && TurnOf(Last(s, a), loop) == Releasing(AtPods) && TurnOf(Last(s, b), loop) == Between
  }

  /** The VMI list answers first: its release finds the pods not known. */
  lemma VmisFirst(s: State, before: seq<Event>, uids: set<Uid>) returns (run: seq<Event>)
    requires var u := Last(s, before); !u.conditions.podsSynced && u.conditions.runsVms && u.vmis == Between
    ensures var u := Last(s, before);
      before <= run && Last(s, run) == u.(conditions := u.conditions.(known := uids, vmisSynced := true))
    ensures Released(s, run, Vmis)
  {
    run := Then(s, before, List(Vmis, uids));
    run := Then(s, run, Advance(Vmis));
    run := Then(s, run, Advance(Vmis));
    var looks := run;
    run := Then(s, run, Advance(Vmis));
    assert looks < run;
  }

  /** The pod list answers, and its release gets past both flags. */
  lemma PodsListed(s: State, before: seq<Event>) returns (looks: seq<Event>, run: seq<Event>)
    requires Last(s, before).conditions.vmisSynced && Last(s, before).pods == Between
    ensures before <= looks && looks < run && Last(s, looks).pods == Releasing(AtPods)
    ensures var u := Last(s, before);
      Last(s, run) == u.(conditions := u.conditions.(podsSynced := true), pods := Releasing(AtSpecs))
  {
    var u := Last(s, before);
    run := Then(s, before, List(Pods, {}));
    assert Last(s, run) == u.(pods := Listed);
    run := Then(s, run, Advance(Pods));
    run := Then(s, run, Advance(Pods));
    looks := run;
    run := Then(s, run, Advance(Pods));
    run := Then(s, run, Advance(Pods));
  }

  /** With an adopted pod without a spec the release wakes nobody. */
  lemma PodsInVain(s: State, before: seq<Event>) returns (run: seq<Event>)
    requires var u := Last(s, before); u.conditions.vmisSynced && u.pods == Between && u.conditions.unspecified != {}
    ensures var u := Last(s, before);
      before <= run && Last(s, run) == u.(conditions := u.conditions.(podsSynced := true))
    ensures Released(s, run, Pods)
  {
    var looks;
    looks, run := PodsListed(s, before);
    run := Then(s, run, Advance(Pods));
    assert looks < run;
  }

  /** With nobody parked the release finds every condition open and wakes nobody. */
  lemma PodsToTheEnd(s: State, before: seq<Event>) returns (run: seq<Event>)
    requires var u := Last(s, before);
      u.conditions.vmisSynced && AllOpen(u.conditions.(podsSynced := true)) && u.pods == Between && u.parked == {}
    ensures var u := Last(s, before);
      before <= run && Last(s, run) == u.(conditions := u.conditions.(podsSynced := true))
    ensures Released(s, run, Pods)
  {
    var looks;
    var u := Last(s, before);
    looks, run := PodsListed(s, before);
    run := Then(s, run, Advance(Pods));
    run := Then(s, run, Advance(Pods));
    run := Then(s, run, Advance(Pods));
    assert Last(s, run).pods == Draining;
    run := Then(s, run, Advance(Pods));
    assert Last(s, run).pods == Waking({});
    run := Then(s, run, Advance(Pods));
    assert u.ready + {} * u.desired == u.ready;
    assert looks < run;
  }

  lemma StaysReleased(s: State, run: seq<Event>, more: seq<Event>, loop: Loop)
    requires Released(s, run, loop) && run <= more
    ensures Released(s, more, loop)
  {
    var a, b :|
      a < b && b <= run && TurnOf(Last(s, a), loop) == Releasing(AtPods) && TurnOf(Last(s, b), loop) == Between;
    assert b <= more;
  }

  /** A workload appears and its pass begins. */
  lemma Appears(s: State, before: seq<Event>, k: Key) returns (run: seq<Event>)
    requires var u := Last(s, before); u.desired == {} && u.ready == {} && u.passes == map[]
    ensures before <= run && Last(s, run) == Last(s, before).(desired := {k}, passes := map[k := First(AtPods)])
  {
    run := Then(s, before, Desire({k}, {k}));
    assert Last(s, run).ready == {k};
    run := Then(s, run, Take(k, Asks));
    assert {k} - {k} == {};
  }

  /** It parks and waits, as the pods are not known. */
  lemma WaitsEarly(s: State, before: seq<Event>, k: Key) returns (run: seq<Event>)
    requires var u := Last(s, before);
      !u.conditions.podsSynced && u.passes == map[k := First(AtPods)] && u.parked == {}
    ensures before <= run && Last(s, run) == Last(s, before).(parked := {k}, passes := map[k := Waiting])
  {
    run := Then(s, before, Work(k));
    run := Then(s, run, Work(k));
    assert Last(s, run).parked == {k};
    run := Then(s, run, Work(k));
  }

  lemma WaitsForThePod(s: State, before: seq<Event>, k: Key, u: Uid) returns (both: seq<Event>, run: seq<Event>)
    requires var v := Last(s, before);
      && v.conditions == Conditions(true, false, true, {u}, {}, {})
      && v.desired == {k} && v.ready == {} && v.parked == {} && v.passes == map[k := First(AtPods)] && v.pods == Between
    ensures before <= both && both <= run && Released(s, both, Pods)
    ensures AllOpen(Last(s, run).conditions) && Stranded(Last(s, run), k)
  {
    run := WaitsEarly(s, before, k);
    both := PodsInVain(s, run);
    run := Then(s, both, PodGone(u));
    assert {u} - {u} == {};
  }

  /** The kubelet restarts over a pod deleted meanwhile, which no list gives a spec. Both flags are
      set, both releases run and find admission closed; then the pod's stop opens it, and a
      workload that came before waits with no release to come. */
  lemma AdoptedPodStrands(s: State, k: Key, u: Uid) returns (run: seq<Event>)
    requires Init(s) && s.conditions.runsVms && s.conditions.machines == {} && s.conditions.unspecified == {u}
    requires s.desired == {}
    ensures Released(s, run, Pods) && Released(s, run, Vmis)
    ensures AllOpen(Last(s, run).conditions) && Stranded(Last(s, run), k)
  {
    var first := VmisFirst(s, [], {});
    run := Appears(s, first, k);
    var both;
    both, run := WaitsForThePod(s, run, k, u);
    assert first <= run;
    StaysReleased(s, first, run, Vmis);
    StaysReleased(s, both, run, Pods);
  }

  /** One look of a pass that finds a machine without its object. */
  lemma LooksInVain(s: State, before: seq<Event>, k: Key, v: Uid) returns (run: seq<Event>)
    requires var u := Last(s, before);
      u.conditions == Conditions(true, true, true, {}, {v}, {})
      && (u.passes == map[k := First(AtPods)] || u.passes == map[k := Second(AtPods)])
    ensures var u := Last(s, before);
      before <= run && Last(s, run) == u.(passes := map[k := if u.passes[k].First? then Closed else Waiting])
  {
    run := Then(s, before, Work(k));
    run := Then(s, run, Work(k));
    run := Then(s, run, Work(k));
    run := Then(s, run, Work(k));
    assert PassOf(Last(s, run), k).look == AtClaims({v});
    run := Then(s, run, Work(k));
  }

  lemma ComesWhileStopping(s: State, before: seq<Event>, k: Key, v: Uid) returns (run: seq<Event>)
    requires var u := Last(s, before);
      && u.conditions == Conditions(true, true, true, {}, {v}, {v})
      && u.desired == {} && u.ready == {} && u.passes == map[] && u.parked == {}
    ensures before <= run && AllOpen(Last(s, run).conditions) && Stranded(Last(s, run), k)
  {
    run := Then(s, before, VmForgotten(v));
    assert Last(s, run).conditions == Conditions(true, true, true, {}, {v}, {});
    run := Appears(s, run, k);
    run := LooksInVain(s, run, k, v);
    run := Then(s, run, Work(k));
    run := LooksInVain(s, run, k, v);
    run := Then(s, run, VmStopped(v));
  }

  /** Admission was open and closes again: a pass finds a VMI's object gone before its machine has
      stopped. A workload that comes then waits, both releases long done, and the stop that opens
      admission wakes nobody. */
  lemma StoppingMachineStrands(s: State, k: Key, v: Uid) returns (run: seq<Event>)
    requires Init(s) && s.conditions.runsVms && s.conditions.machines == {v} && s.conditions.unspecified == {}
    requires s.desired == {}
    ensures Released(s, run, Pods) && Released(s, run, Vmis)
    ensures AllOpen(Last(s, run).conditions) && Stranded(Last(s, run), k)
  {
    var first := VmisFirst(s, [], {v});
    var both := PodsToTheEnd(s, first);
    run := ComesWhileStopping(s, both, k, v);
    assert first <= run && both <= run;
    StaysReleased(s, first, run, Vmis);
    StaysReleased(s, both, run, Pods);
  }
}

/** Writing a pod's status: optimistic concurrency against an apiserver that others also
    write (pkg/kubelet/src/kubelet.rs). Resource versions are handed out once each, in
    increasing order; the kubelet only ever compares them for equality. */
module PodStatus {
  import opened Common

  // ---------------------------------------------------------------- statuses

  datatype Json =
    | Null
    | Bool(b: bool)
    | Number(n: int)
    | Str(s: string)
    | Array(items: seq<Json>)
    | Object(fields: map<string, Json>)

  function FieldsOf(j: Json): map<string, Json> {
    if j.Object? then j.fields else map[]
  }

  /** `ours` over `base`: our fields replace the base's, the rest stay; the base's `message`
      and `reason` go when we have no message. */
  function Merge(base: Json, ours: Json): Json {
    var kept := if "message" in FieldsOf(ours) then FieldsOf(base) else FieldsOf(base) - {"message", "reason"};
    Object(kept + FieldsOf(ours))
  }

  /** What a merge holds, field by field. */
  lemma MergeByField(base: Json, ours: Json, f: string)
    ensures var m := Merge(base, ours).fields;
            && (f in FieldsOf(ours) ==> f in m && m[f] == FieldsOf(ours)[f])
            && (f !in FieldsOf(ours) && f !in {"message", "reason"} ==>
                  (f in m <==> f in FieldsOf(base)) && (f in m ==> m[f] == FieldsOf(base)[f]))
            && ("message" !in FieldsOf(ours) && f !in FieldsOf(ours) && f in {"message", "reason"} ==> f !in m)
  {
  }

  lemma MergeIsIdempotent(base: Json, ours: Json)
    ensures Merge(Merge(base, ours), ours) == Merge(base, ours)
  {
    var once, twice := Merge(base, ours).fields, Merge(Merge(base, ours), ours).fields;
    assert twice.Keys == once.Keys;
  }

  /** A status already says `ours`. */
  predicate Says(status: Json, ours: Json) {
    Merge(status, ours) == status
  }

  // ---------------------------------------------------------------- the apiserver

  /** One version of one pod. */
  datatype Record = Record(path: string, uid: string, rev: nat, status: Json)

  /** The live pods, every version there ever was, and the next resource version. */
  datatype Server = Server(live: map<string, Record>, history: set<Record>, next: nat)

  /** What other actors do; one that does not apply changes nothing. */
  datatype Action =
    | Write(path: string, status: Json)
    | Touch(path: string)
    | Delete(path: string)
    | Create(path: string, uid: string, status: Json)

  function Store(s: Server, path: string, uid: string, status: Json): Server {
    var r := Record(path, uid, s.next, status);
    Server(s.live[path := r], s.history + {r}, s.next + 1)
  }

  function Act(s: Server, a: Action): Server {
    match a
    case Write(p, status) => if p in s.live then Store(s, p, s.live[p].uid, status) else s
    case Touch(p) => if p in s.live then Store(s, p, s.live[p].uid, s.live[p].status) else s
    case Delete(p) => if p in s.live then Server(s.live - {p}, s.history, s.next + 1) else s
    case Create(p, uid, status) => if p in s.live then s else Store(s, p, uid, status)
  }

  function Acts(s: Server, acts: seq<Action>): Server
    decreases |acts|
  {
    if acts == [] then s else Acts(Act(s, acts[0]), acts[1..])
  }

  ghost predicate Valid(s: Server) {
    && (forall p :: p in s.live ==> s.live[p] in s.history && s.live[p].path == p)
    && (forall r :: r in s.history ==> r.rev < s.next)
    && (forall r, r' :: r in s.history && r' in s.history && r.rev == r'.rev ==> r == r')
  }

  datatype Put = Put(path: string, uid: string, rev: nat, status: Json)

  datatype PutAnswer = Accepted(rev: nat) | Conflict | NotFound | NoAnswer

  /** A PUT of a status names a uid and a revision and is a 409 if either is not the live one. */
  function Apply(s: Server, put: Put): (Server, PutAnswer) {
    if put.path !in s.live then (s, NotFound)
    else if s.live[put.path].uid != put.uid || s.live[put.path].rev != put.rev then (s, Conflict)
    else (Store(s, put.path, put.uid, put.status), Accepted(s.next))
  }

  // ---------------------------------------------------------------- calls and what surrounds them

  /** One PUT call. The transport may deliver it several times, others acting before each
      delivery. Its last delivery's answer comes back, its body `readable` or not; or no
      usable answer does. */
  datatype PutCall =
    | Answered(early: seq<seq<Action>>, last: seq<Action>, readable: bool)
    | Lost(tries: seq<seq<Action>>)

  /** One GET call, others acting before it is served. */
  datatype GetCall = Got(before: seq<Action>) | GetLost(before: seq<Action>)

  /** The calls of one status write: the n-th PUT and the GET after it. */
  datatype Schedule = Schedule(puts: nat -> PutCall, gets: nat -> GetCall)

  /** One delivery of a PUT: the server right before and right after. */
  datatype Seen = Seen(before: Server, after: Server)

  datatype Delivered = Delivered(server: Server, seen: seq<Seen>, answer: PutAnswer)

  function Deliver(s: Server, put: Put, tries: seq<seq<Action>>): Delivered
    decreases |tries|
  {
    if tries == [] then Delivered(s, [], NoAnswer)
    else
      var n := |tries| - 1;
      var d := Deliver(s, put, tries[..n]);
      var before := Acts(d.server, tries[n]);
      var (after, answer) := Apply(before, put);
      Delivered(after, d.seen + [Seen(before, after)], answer)
  }

  function DoPut(s: Server, put: Put, call: PutCall): Delivered {
    match call
    case Answered(early, last, _) => Deliver(s, put, early + [last])
    case Lost(tries) => Deliver(s, put, tries).(answer := NoAnswer)
  }

  const ATTEMPTS: nat := 5
  const FIRST: nat := 1

  datatype Result =
    | Written(on: nat, now: Option<nat>, status: Json)
    | Nothing
    | Error

  /** A status write: the server it left, each delivery, how many PUT calls, and the result. */
  datatype Outcome = Outcome(server: Server, seen: seq<Seen>, puts: nat, result: Result)

  /** One PUT and, on a 409, the re-read: the write is over, or goes on with a new PUT. */
  datatype Round = Over(outcome: Outcome) | Again(server: Server, seen: seq<Seen>, put: Put)

  function OneRound(s: Server, put: Put, ours: Json, plan: Schedule, attempt: nat): Round {
    var call := plan.puts(attempt);
    var d := DoPut(s, put, call);
    if d.answer == Conflict && attempt < ATTEMPTS then Reread(d, put, ours, plan.gets(attempt))
    else if d.answer.Accepted? && call.Answered? then
      Over(Outcome(d.server, d.seen, 1,
                   Written(put.rev, if call.readable then Some(d.answer.rev) else None, put.status)))
    else Over(Outcome(d.server, d.seen, 1, Error))
  }

  function Reread(d: Delivered, put: Put, ours: Json, get: GetCall): Round {
    var s' := Acts(d.server, get.before);
    if get.GetLost? then Over(Outcome(s', d.seen, 1, Error))
    else if put.path !in s'.live || s'.live[put.path].uid != put.uid then Over(Outcome(s', d.seen, 1, Nothing))
    else
      var now := s'.live[put.path];
      var merged := Merge(now.status, ours);
      if merged == now.status then Over(Outcome(s', d.seen, 1, Nothing))
      else Again(s', d.seen, put.(rev := now.rev, status := merged))
  }

  type Rounds = (Server, Put, nat) -> Round

  function RoundsOf(ours: Json, plan: Schedule): Rounds {
    (s: Server, put: Put, attempt: nat) => OneRound(s, put, ours, plan, attempt)
  }

  /** The rounds from the `attempt`-th on; the last one goes on to no other. */
  function WriteBy(rounds: Rounds, s: Server, put: Put, attempt: nat): Outcome
    requires 1 <= attempt <= ATTEMPTS
    decreases ATTEMPTS - attempt
  {
    match rounds(s, put, attempt)
    case Over(o) => o
    case Again(s', seen, put') =>
      if attempt == ATTEMPTS then Outcome(s', seen, 1, Error)
      else Prepend(seen, 1, WriteBy(rounds, s', put', attempt + 1))
  }

  /** A status write from its `attempt`-th PUT on. */
  function WriteFrom(s: Server, put: Put, ours: Json, plan: Schedule, attempt: nat): Outcome
    requires 1 <= attempt <= ATTEMPTS
  {
    WriteBy(RoundsOf(ours, plan), s, put, attempt)
  }

  /** `rounds` are the rounds of this report under this schedule. */
  ghost predicate RoundAgrees(rounds: Rounds, ours: Json, plan: Schedule, s: Server, put: Put, attempt: nat) {
    rounds(s, put, attempt) == OneRound(s, put, ours, plan, attempt)
  }

  ghost predicate Agree(rounds: Rounds, ours: Json, plan: Schedule) {
    forall s: Server, put: Put, attempt: nat :: RoundAgrees(rounds, ours, plan, s, put, attempt)
  }

  /** An outcome that came after `puts` PUTs with these deliveries. */
  function Prepend(seen: seq<Seen>, puts: nat, o: Outcome): Outcome {
    o.(seen := seen + o.seen, puts := puts + o.puts)
  }

  lemma PrependNothing(o: Outcome)
    ensures Prepend([], 0, o) == o
  {
    assert [] + o.seen == o.seen;
  }

  lemma PrependTwice(a: seq<Seen>, b: seq<Seen>, n: nat, o: Outcome)
    ensures Prepend(a, n, Prepend(b, 1, o)) == Prepend(a + b, n + 1, o)
  {
    assert a + (b + o.seen) == a + b + o.seen;
  }

  lemma OneMoreRound(rounds: Rounds, seen: seq<Seen>, n: nat, s: Server, put: Put)
    requires n < ATTEMPTS
    ensures var r := rounds(s, put, n + 1);
      Prepend(seen, n, WriteBy(rounds, s, put, n + 1))
      == if r.Over? then Prepend(seen, n, r.outcome)
         else if n + 1 == ATTEMPTS then Prepend(seen, n, Outcome(r.server, r.seen, 1, Error))
         else Prepend(seen + r.seen, n + 1, WriteBy(rounds, r.server, r.put, n + 2))
  {
    var r := rounds(s, put, n + 1);
    if r.Again? && n + 1 < ATTEMPTS {
      PrependTwice(seen, r.seen, n, WriteBy(rounds, r.server, r.put, n + 2));
    }
  }

  // ---------------------------------------------------------------- report passes

  /** A write of this kubelet's that the apiserver acknowledged. */
  datatype Acked = Acked(writtenOn: nat, now: nat, status: Json)

  /** The watch's copy of a pod, or a static manifest, which has no revision. */
  datatype Source = Source(path: string, uid: string, rev: Option<nat>, status: Json)

  function StatusBase(source: Source, acked: Option<Acked>): (Json, Option<nat>) {
    if acked.Some? && source.rev == Some(acked.value.writtenOn) then (acked.value.status, Some(acked.value.now))
    else (source.status, source.rev)
  }

  function Lookup(acked: map<string, Acked>, uid: string): Option<Acked> {
    if uid in acked then Some(acked[uid]) else None
  }

  datatype Report = Skipped | Unwritable | Attempted(outcome: Outcome)

  function Pass(s: Server, acked: map<string, Acked>, source: Source, ours: Json, plan: Schedule): Report {
    var (base, rev) := StatusBase(source, Lookup(acked, source.uid));
    var status := Merge(base, ours);
    if status == base then Skipped
    else if rev.None? then Unwritable
    else Attempted(WriteFrom(s, Put(source.path, source.uid, rev.value, status), ours, plan, FIRST))
  }

  function AckedAfter(acked: map<string, Acked>, uid: string, r: Report): map<string, Acked> {
    if !r.Attempted? then acked
    else
      match r.outcome.result
      case Nothing => acked - {uid}
      case Error => acked
      case Written(on, now, status) => if now.Some? then acked[uid := Acked(on, now.value, status)] else acked
  }

  function ServerAfter(s: Server, r: Report): Server {
    if r.Attempted? then r.outcome.server else s
  }

  // ---------------------------------------------------------------- the kubelet

  class ApiServer {
    var state: Server

    method Serve(put: Put, call: PutCall) returns (answer: PutAnswer, seen: seq<Seen>)
      modifies this
      ensures Delivered(state, seen, answer) == DoPut(old(state), put, call)
    {
      var tries := if call.Answered? then call.early + [call.last] else call.tries;
      answer, seen := NoAnswer, [];
      for i := 0 to |tries|
        invariant Delivered(state, seen, answer) == Deliver(old(state), put, tries[..i])
      {
        assert tries[..i + 1][..i] == tries[..i];
        state := Acts(state, tries[i]);
        var before := state;
        var (after, a) := Apply(state, put);
        state, answer := after, a;
        seen := seen + [Seen(before, after)];
      }
      assert tries[..|tries|] == tries;
      if call.Lost? { answer := NoAnswer; }
    }

    method Get(path: string, call: GetCall) returns (r: Option<Record>)
      modifies this
      ensures state == Acts(old(state), call.before)
      ensures r == if path in state.live then Some(state.live[path]) else None
    {
      state := Acts(state, call.before);
      r := if path in state.live then Some(state.live[path]) else None;
    }
  }

  class Kubelet {
    const api: ApiServer
    var acked: map<string, Acked>

    constructor (api: ApiServer)
      ensures this.api == api && acked == map[]
    {
      this.api := api;
      acked := map[];
    }

    /** One PUT of `status` on `revision`, and after a 409 the re-read and the new merge. */
    method Round(path: string, uid: string, revision: nat, status: Json, ours: Json, plan: Schedule, attempt: nat)
      returns (over: bool, result: Result, newRevision: nat, newStatus: Json, seen: seq<Seen>)
      modifies api
      ensures (if over then Over(Outcome(api.state, seen, 1, result))
               else Again(api.state, seen, Put(path, uid, newRevision, newStatus)))
              == OneRound(old(api.state), Put(path, uid, revision, status), ours, plan, attempt)
    {
      over, result, newRevision, newStatus := true, Error, revision, status;
      var answer;
      answer, seen := api.Serve(Put(path, uid, revision, status), plan.puts(attempt));
      if answer != Conflict || attempt >= ATTEMPTS {
        if answer.Accepted? {
          result := Written(revision, if plan.puts(attempt).readable then Some(answer.rev) else None, status);
        }
        return;
      }
      var read := api.Get(path, plan.gets(attempt));
      if plan.gets(attempt).GetLost? { return; }
      result := Nothing;
      if read.None? || read.value.uid != uid { return; }
      newRevision := read.value.rev;
      newStatus := Merge(read.value.status, ours);
      over := newStatus == read.value.status;
    }

    /** A round as the next step of a whole write: `seen` so far, in `attempt - 1` rounds. */
    method NextRound(path: string, uid: string, revision: nat, status: Json, ours: Json, plan: Schedule, attempt: nat,
                     seen: seq<Seen>, ghost rounds: Rounds)
      returns (over: bool, result: Result, newRevision: nat, newStatus: Json, more: seq<Seen>)
      requires 1 <= attempt <= ATTEMPTS && Agree(rounds, ours, plan)
      modifies api
      ensures attempt == ATTEMPTS ==> over
      ensures Prepend(seen, attempt - 1, WriteBy(rounds, old(api.state), Put(path, uid, revision, status), attempt))
              == if over then Outcome(api.state, more, attempt, result)
                 else Prepend(more, attempt,
                              WriteBy(rounds, api.state, Put(path, uid, newRevision, newStatus), attempt + 1))
    {
      ghost var before, put := api.state, Put(path, uid, revision, status);
      assert RoundAgrees(rounds, ours, plan, before, put, attempt);
      OneMoreRound(rounds, seen, attempt - 1, before, put);
      var delivered;
      over, result, newRevision, newStatus, delivered := Round(path, uid, revision, status, ours, plan, attempt);
      more := seen + delivered;
    }

    /** The loop. */
    method Attempts(path: string, uid: string, rev: nat, ours: Json, merged: Json, plan: Schedule, ghost rounds: Rounds)
      returns (result: Result, puts: nat, seen: seq<Seen>)
      requires Agree(rounds, ours, plan)
      modifies api
      ensures Outcome(api.state, seen, puts, result)
              == WriteBy(rounds, old(api.state), Put(path, uid, rev, merged), FIRST)
    {
      var attempt, revision, status := 0, rev, merged;
      seen := [];
      ghost var all := WriteBy(rounds, api.state, Put(path, uid, rev, merged), FIRST);
      PrependNothing(all);
      while true
        invariant 0 <= attempt < ATTEMPTS
        invariant Prepend(seen, attempt, WriteBy(rounds, api.state, Put(path, uid, revision, status), attempt + 1))
                  == all
        decreases ATTEMPTS - attempt
      {
        attempt := attempt + 1;
        var over;
        over, result, revision, status, seen :=
          NextRound(path, uid, revision, status, ours, plan, attempt, seen, rounds);
        if over { return result, attempt, seen; }
      }
    }

    method WritePodStatus(path: string, uid: string, rev: nat, ours: Json, merged: Json, plan: Schedule)
      returns (result: Result, puts: nat, seen: seq<Seen>)
      modifies api
      ensures Outcome(api.state, seen, puts, result)
              == WriteFrom(old(api.state), Put(path, uid, rev, merged), ours, plan, FIRST)
    {
      result, puts, seen := Attempts(path, uid, rev, ours, merged, plan, RoundsOf(ours, plan));
    }

    method ReportPodStatus(source: Source, ours: Json, plan: Schedule) returns (r: Report)
      modifies this, api
      ensures r == Pass(old(api.state), old(acked), source, ours, plan)
      ensures acked == AckedAfter(old(acked), source.uid, r) && api.state == ServerAfter(old(api.state), r)
    {
      var (base, rev) := StatusBase(source, Lookup(acked, source.uid));
      var status := Merge(base, ours);
      if status == base { return Skipped; }
      if rev.None? { return Unwritable; }
      var result, puts, seen := WritePodStatus(source.path, source.uid, rev.value, ours, status, plan);
      match result {
        case Nothing => acked := acked - {source.uid};
        case Error =>
        case Written(on, now, written) =>
          if now.Some? { acked := acked[source.uid := Acked(on, now.value, written)]; }
      }
      return Attempted(Outcome(api.state, seen, puts, result));
    }
  }

  // ---------------------------------------------------------------- what lands

  lemma StoreKeepsValid(s: Server, path: string, uid: string, status: Json)
    requires Valid(s)
    ensures Valid(Store(s, path, uid, status)) && s.history <= Store(s, path, uid, status).history
  {
  }

  lemma ActKeepsValid(s: Server, a: Action)
    requires Valid(s)
    ensures Valid(Act(s, a)) && s.history <= Act(s, a).history
  {
    match a
    case Write(p, status) => if p in s.live { StoreKeepsValid(s, p, s.live[p].uid, status); }
    case Touch(p) => if p in s.live { StoreKeepsValid(s, p, s.live[p].uid, s.live[p].status); }
    case Delete(p) =>
    case Create(p, uid, status) => StoreKeepsValid(s, p, uid, status);
  }

  lemma {:induction false} ActsKeepValid(s: Server, acts: seq<Action>)
    requires Valid(s)
    ensures Valid(Acts(s, acts)) && s.history <= Acts(s, acts).history
    decreases |acts|
  {
    if acts != [] {
      ActKeepsValid(s, acts[0]);
      ActsKeepValid(Act(s, acts[0]), acts[1..]);
    }
  }

  /** What a PUT carries was merged onto a status the server held at the revision it names,
      and changes it. */
  ghost predicate Grounded(s: Server, put: Put, ours: Json) {
    exists r :: r in s.history && r.rev == put.rev && put.status == Merge(r.status, ours) && put.status != r.status
  }

  /** A delivery that changed the server stored the merge of `ours` onto the status held at
      that moment, on the pod with this uid, and changed nothing else. */
  ghost predicate LandsAsMerge(seen: Seen, path: string, uid: string, ours: Json) {
    seen.after != seen.before ==>
      && path in seen.before.live && seen.before.live[path].uid == uid
      && seen.after == Store(seen.before, path, uid, Merge(seen.before.live[path].status, ours))
      && !Says(seen.before.live[path].status, ours)
  }

  ghost predicate AllLandAsMerge(seen: seq<Seen>, path: string, uid: string, ours: Json) {
    forall i :: 0 <= i < |seen| ==> LandsAsMerge(seen[i], path, uid, ours)
  }

  /** The acknowledged revision holds what was PUT, and followed the one it was PUT on. */
  ghost predicate Acknowledged(s: Server, put: Put, now: nat) {
    && Record(put.path, put.uid, now, put.status) in s.history
    && now > put.rev
  }

  lemma ApplyLands(s: Server, put: Put, ours: Json)
    requires Valid(s) && Grounded(s, put, ours)
    ensures var (after, answer) := Apply(s, put);
            && Valid(after) && s.history <= after.history
            && LandsAsMerge(Seen(s, after), put.path, put.uid, ours)
            && (answer.Accepted? ==> Acknowledged(after, put, answer.rev))
            && (answer.Accepted? <==> after != s)
  {
  }

  lemma {:induction false} DeliverLands(s: Server, put: Put, ours: Json, tries: seq<seq<Action>>)
    requires Valid(s) && Grounded(s, put, ours)
    ensures var d := Deliver(s, put, tries);
            && Valid(d.server) && s.history <= d.server.history
            && AllLandAsMerge(d.seen, put.path, put.uid, ours)
            && (d.answer.Accepted? ==> Acknowledged(d.server, put, d.answer.rev))
    decreases |tries|
  {
    if tries != [] {
      var n := |tries| - 1;
      var d := Deliver(s, put, tries[..n]);
      DeliverLands(s, put, ours, tries[..n]);
      ActsKeepValid(d.server, tries[n]);
      GroundedGrows(s, Acts(d.server, tries[n]), put, ours);
      ApplyLands(Acts(d.server, tries[n]), put, ours);
    }
  }

  lemma GroundedGrows(s: Server, s': Server, put: Put, ours: Json)
    requires Grounded(s, put, ours) && s.history <= s'.history
    ensures Grounded(s', put, ours)
  {
  }

  /** A written result names two versions the server really held, the later one saying `ours`. */
  ghost predicate HonestResult(s: Server, path: string, uid: string, ours: Json, r: Result) {
    r.Written? ==>
      && Says(r.status, ours)
      && (r.now.Some? ==> Record(path, uid, r.now.value, r.status) in s.history && r.now.value > r.on)
  }

  lemma GroundedSays(s: Server, put: Put, ours: Json)
    requires Grounded(s, put, ours)
    ensures Says(put.status, ours)
  {
    var base :| base in s.history && base.rev == put.rev
      && put.status == Merge(base.status, ours) && put.status != base.status;
    MergeIsIdempotent(base.status, ours);
  }

  lemma DoPutLands(s: Server, put: Put, ours: Json, call: PutCall)
    requires Valid(s) && Grounded(s, put, ours)
    ensures var d := DoPut(s, put, call);
            && Valid(d.server) && s.history <= d.server.history
            && AllLandAsMerge(d.seen, put.path, put.uid, ours)
            && (d.answer.Accepted? ==> Acknowledged(d.server, put, d.answer.rev))
  {
    DeliverLands(s, put, ours, if call.Answered? then call.early + [call.last] else call.tries);
  }

  ghost predicate GoodOutcome(s: Server, put: Put, ours: Json, o: Outcome, puts: nat) {
    && Valid(o.server) && s.history <= o.server.history
    && AllLandAsMerge(o.seen, put.path, put.uid, ours)
    && HonestResult(o.server, put.path, put.uid, ours, o.result)
    && o.puts <= puts
  }

  ghost predicate GoodRound(s: Server, put: Put, ours: Json, r: Round) {
    match r
    case Over(o) => GoodOutcome(s, put, ours, o, 1)
    case Again(s', seen, put') =>
      && Valid(s') && s.history <= s'.history
      && AllLandAsMerge(seen, put.path, put.uid, ours)
      && Grounded(s', put', ours) && put'.path == put.path && put'.uid == put.uid
  }

  lemma RereadIsGood(s: Server, d: Delivered, put: Put, ours: Json, get: GetCall)
    requires Valid(d.server) && s.history <= d.server.history && AllLandAsMerge(d.seen, put.path, put.uid, ours)
    ensures GoodRound(s, put, ours, Reread(d, put, ours, get))
  {
    ActsKeepValid(d.server, get.before);
  }

  lemma RoundIsGood(s: Server, put: Put, ours: Json, plan: Schedule, attempt: nat)
    requires Valid(s) && Grounded(s, put, ours)
    ensures GoodRound(s, put, ours, OneRound(s, put, ours, plan, attempt))
  {
    DoPutLands(s, put, ours, plan.puts(attempt));
    GroundedSays(s, put, ours);
    RereadIsGood(s, DoPut(s, put, plan.puts(attempt)), put, ours, plan.gets(attempt));
  }

  lemma GoodThenGood(s: Server, put: Put, ours: Json, r: Round, rest: Outcome, puts: nat)
    requires r.Again? && GoodRound(s, put, ours, r) && GoodOutcome(r.server, r.put, ours, rest, puts)
    ensures GoodOutcome(s, put, ours, Prepend(r.seen, 1, rest), puts + 1)
  {
  }

  ghost predicate RoundsAreGood(rounds: Rounds, ours: Json) {
    forall s, put, attempt ::
      Valid(s) && Grounded(s, put, ours) ==>
      GoodRound(s, put, ours, rounds(s, put, attempt)) && (attempt == ATTEMPTS ==> rounds(s, put, attempt).Over?)
  }

  lemma {:induction false} GoodRoundsLand(rounds: Rounds, s: Server, put: Put, ours: Json, attempt: nat)
    requires RoundsAreGood(rounds, ours)
    requires 1 <= attempt <= ATTEMPTS && Valid(s) && Grounded(s, put, ours)
    ensures GoodOutcome(s, put, ours, WriteBy(rounds, s, put, attempt), ATTEMPTS + 1 - attempt)
    decreases ATTEMPTS - attempt
  {
    var r := rounds(s, put, attempt);
    if r.Again? {
      GoodRoundsLand(rounds, r.server, r.put, ours, attempt + 1);
      GoodThenGood(s, put, ours, r, WriteBy(rounds, r.server, r.put, attempt + 1), ATTEMPTS - attempt);
    }
  }

  /** Every PUT of a status write that lands stores exactly the merge of `ours` onto what the
      server held at that moment, whatever others do between any two steps. */
  lemma WriteLands(s: Server, put: Put, ours: Json, plan: Schedule, attempt: nat)
    requires 1 <= attempt <= ATTEMPTS && Valid(s) && Grounded(s, put, ours)
    ensures GoodOutcome(s, put, ours, WriteFrom(s, put, ours, plan, attempt), ATTEMPTS + 1 - attempt)
  {
    forall s, put, attempt | Valid(s) && Grounded(s, put, ours)
      ensures GoodRound(s, put, ours, RoundsOf(ours, plan)(s, put, attempt))
    {
      RoundIsGood(s, put, ours, plan, attempt);
    }
    GoodRoundsLand(RoundsOf(ours, plan), s, put, ours, attempt);
  }

  // ---------------------------------------------------------------- runs of passes

  /** The kubelet's remembered writes are versions the server really held. */
  ghost predicate AckedSound(s: Server, acked: map<string, Acked>) {
    forall u :: u in acked ==>
      && acked[u].now > acked[u].writtenOn
      && exists p :: Record(p, u, acked[u].now, acked[u].status) in s.history
  }

  /** The watch's copy is some version the server held, however old. */
  ghost predicate SourceSound(s: Server, source: Source) {
    source.rev.Some? ==> Record(source.path, source.uid, source.rev.value, source.status) in s.history
  }

  /** Some version of this pod at or after revision `rev` already said `ours`. */
  ghost predicate AlreadySaid(s: Server, uid: string, rev: nat, ours: Json) {
    exists r :: r in s.history && r.uid == uid && r.rev >= rev && Says(r.status, ours)
  }

  ghost predicate PassGood(s: Server, source: Source, ours: Json, r: Report) {
    && (r.Attempted? ==> AllLandAsMerge(r.outcome.seen, source.path, source.uid, ours) && r.outcome.puts <= ATTEMPTS)
    && (r.Skipped? && source.rev.Some? ==> AlreadySaid(s, source.uid, source.rev.value, ours))
    && (r.Unwritable? ==> source.rev.None?)
  }

  /** The base of a pass is a version of this pod, at or after the watched one. */
  lemma BaseWasHeld(s: Server, acked: map<string, Acked>, source: Source) returns (b: Record)
    requires AckedSound(s, acked) && SourceSound(s, source)
    requires StatusBase(source, Lookup(acked, source.uid)).1.Some?
    ensures b in s.history && b.uid == source.uid
    ensures StatusBase(source, Lookup(acked, source.uid)) == (b.status, Some(b.rev))
    ensures source.rev.Some? && b.rev >= source.rev.value
  {
    if Lookup(acked, source.uid).Some? && source.rev == Some(acked[source.uid].writtenOn) {
      var p :| Record(p, source.uid, acked[source.uid].now, acked[source.uid].status) in s.history;
      b := Record(p, source.uid, acked[source.uid].now, acked[source.uid].status);
    } else {
      b := Record(source.path, source.uid, source.rev.value, source.status);
    }
  }

  lemma PassIsGood(s: Server, acked: map<string, Acked>, source: Source, ours: Json, plan: Schedule)
    requires Valid(s) && AckedSound(s, acked) && SourceSound(s, source)
    ensures var r := Pass(s, acked, source, ours, plan);
            && PassGood(s, source, ours, r)
            && Valid(ServerAfter(s, r)) && s.history <= ServerAfter(s, r).history
            && AckedSound(ServerAfter(s, r), AckedAfter(acked, source.uid, r))
            && (r.Attempted? ==> HonestResult(r.outcome.server, source.path, source.uid, ours, r.outcome.result))
  {
    var rev := StatusBase(source, Lookup(acked, source.uid)).1;
    if rev.Some? {
      var b := BaseWasHeld(s, acked, source);
      if Says(b.status, ours) {
        assert Pass(s, acked, source, ours, plan) == Skipped;
      } else {
        var put := Put(source.path, source.uid, b.rev, Merge(b.status, ours));
        assert Grounded(s, put, ours);
        WriteLands(s, put, ours, plan, FIRST);
        var o := WriteFrom(s, put, ours, plan, FIRST);
        assert Pass(s, acked, source, ours, plan) == Attempted(o);
        RememberedIsSound(s, acked, source.path, source.uid, ours, o);
      }
    }
  }

  lemma RememberedIsSound(s: Server, acked: map<string, Acked>, path: string, uid: string, ours: Json, o: Outcome)
    requires AckedSound(s, acked) && s.history <= o.server.history && HonestResult(o.server, path, uid, ours, o.result)
    ensures AckedSound(o.server, AckedAfter(acked, uid, Attempted(o)))
  {
  }

  datatype Step =
    | Others(acts: seq<Action>)
    | Reported(source: Source, ours: Json, plan: Schedule)
    | PodStopped(uid: string)

  datatype World = World(server: Server, acked: map<string, Acked>)

  function After(w: World, step: Step): World {
    match step
    case Others(acts) => World(Acts(w.server, acts), w.acked)
    case Reported(source, ours, plan) =>
      var r := Pass(w.server, w.acked, source, ours, plan);
      World(ServerAfter(w.server, r), AckedAfter(w.acked, source.uid, r))
    case PodStopped(uid) => World(w.server, w.acked - {uid})
  }

  /** Every pass is made from some version the server held by then, however old. */
  ghost predicate Possible(w: World, run: seq<Step>)
    decreases |run|
  {
    run != [] ==>
      && (run[0].Reported? ==> SourceSound(w.server, run[0].source))
      && Possible(After(w, run[0]), run[1..])
  }

  ghost predicate EveryPassGood(w: World, run: seq<Step>)
    decreases |run|
  {
    run != [] ==>
      && (run[0].Reported? ==>
            PassGood(w.server, run[0].source, run[0].ours,
                     Pass(w.server, w.acked, run[0].source, run[0].ours, run[0].plan)))
      && AckedSound(After(w, run[0]).server, After(w, run[0]).acked)
      && EveryPassGood(After(w, run[0]), run[1..])
  }

  /** Over any run of report passes on an arbitrarily late watch, with others writing, deleting
      and re-creating between any two steps: every PUT that lands is a merge onto what was
      there, on the right pod; every remembered write is a version the server held; and a
      report is skipped only if a version at or after the watched one already said it. */
  lemma {:induction false} EveryRunIsGood(w: World, run: seq<Step>)
    requires Valid(w.server) && AckedSound(w.server, w.acked) && Possible(w, run)
    ensures EveryPassGood(w, run)
    decreases |run|
  {
    if run != [] {
      var step := run[0];
      match step {
        case Others(acts) => ActsKeepValid(w.server, acts);
        case Reported(source, ours, plan) => PassIsGood(w.server, w.acked, source, ours, plan);
        case PodStopped(uid) =>
      }
      EveryRunIsGood(After(w, step), run[1..]);
    }
  }

  // ---------------------------------------------------------------- a write settles

  function Changes(path: string, acts: seq<Action>): nat
    decreases |acts|
  {
    if acts == [] then 0 else (if acts[0].path == path then 1 else 0) + Changes(path, acts[1..])
  }

  /** Nobody deletes or creates this pod. */
  ghost predicate Kept(path: string, acts: seq<Action>) {
    forall a :: a in acts && a.path == path ==> a.Write? || a.Touch?
  }

  /** No call fails in transport, and nobody deletes or replaces the pod. */
  ghost predicate Smooth(plan: Schedule, path: string) {
    forall k :: 1 <= k <= ATTEMPTS ==>
      && plan.puts(k).Answered? && plan.puts(k).early == [] && Kept(path, plan.puts(k).last)
      && plan.gets(k).Got? && Kept(path, plan.gets(k).before)
  }

  ghost predicate Live(s: Server, path: string, uid: string) {
    path in s.live && s.live[path].uid == uid
  }

  /** The server holds the pod and its status says `ours`. */
  ghost predicate Settled(s: Server, path: string, uid: string, ours: Json) {
    Live(s, path, uid) && Says(s.live[path].status, ours)
  }

  ghost predicate Current(s: Server, put: Put) {
    Live(s, put.path, put.uid) && s.live[put.path].rev == put.rev
  }

  lemma {:induction false} KeptStaysLive(s: Server, acts: seq<Action>, path: string, uid: string)
    requires Live(s, path, uid) && Kept(path, acts)
    ensures Live(Acts(s, acts), path, uid)
    ensures Changes(path, acts) == 0 ==> Acts(s, acts).live[path] == s.live[path]
    decreases |acts|
  {
    if acts != [] {
      KeptStaysLive(Act(s, acts[0]), acts[1..], path, uid);
    }
  }

  lemma OneDelivery(s: Server, put: Put, last: seq<Action>, readable: bool)
    ensures var before := Acts(s, last);
            DoPut(s, put, Answered([], last, readable))
            == Delivered(Apply(before, put).0, [Seen(before, Apply(before, put).0)], Apply(before, put).1)
  {
    var tries := [] + [last];
    assert |tries| == 1 && tries[..0] == [] && tries[0] == last;
    assert Deliver(s, put, tries[..0]) == Delivered(s, [], NoAnswer);
    var before := Acts(s, last);
    assert [] + [Seen(before, Apply(before, put).0)] == [Seen(before, Apply(before, put).0)];
  }

  /** How a PUT goes when the pod is there and the transport works. */
  lemma SmoothPut(s: Server, put: Put, call: PutCall)
    requires Live(s, put.path, put.uid) && call.Answered? && call.early == [] && Kept(put.path, call.last)
    ensures var d := DoPut(s, put, call);
            && Live(d.server, put.path, put.uid)
            && (d.answer == Conflict || (d.answer.Accepted? && d.server.live[put.path].status == put.status))
            && (Current(s, put) && Changes(put.path, call.last) == 0 ==> d.answer.Accepted?)
  {
    OneDelivery(s, put, call.last, call.readable);
    KeptStaysLive(s, call.last, put.path, put.uid);
  }

  /** A round that is over is settled; one that is not goes on current. */
  ghost predicate RoundSettles(put: Put, ours: Json, r: Round) {
    match r
    case Over(o) => o.result != Error && Settled(o.server, put.path, put.uid, ours)
    case Again(s', seen, put') =>
      Current(s', put') && put'.path == put.path && put'.uid == put.uid && Says(put'.status, ours)
  }

  lemma SmoothReread(d: Delivered, put: Put, ours: Json, get: GetCall)
    requires Live(d.server, put.path, put.uid) && get.Got? && Kept(put.path, get.before)
    ensures RoundSettles(put, ours, Reread(d, put, ours, get))
  {
    KeptStaysLive(d.server, get.before, put.path, put.uid);
    MergeIsIdempotent(Acts(d.server, get.before).live[put.path].status, ours);
  }

  lemma SmoothRound(s: Server, put: Put, ours: Json, plan: Schedule, attempt: nat)
    requires 1 <= attempt <= ATTEMPTS && Live(s, put.path, put.uid) && Smooth(plan, put.path) && Says(put.status, ours)
    requires attempt < ATTEMPTS || (Current(s, put) && Changes(put.path, plan.puts(attempt).last) == 0)
    ensures RoundSettles(put, ours, OneRound(s, put, ours, plan, attempt))
    ensures Current(s, put) && Changes(put.path, plan.puts(attempt).last) == 0
            ==> OneRound(s, put, ours, plan, attempt).Over?
  {
    SmoothPut(s, put, plan.puts(attempt));
    if attempt < ATTEMPTS {
      SmoothReread(DoPut(s, put, plan.puts(attempt)), put, ours, plan.gets(attempt));
    }
  }

  /** Up to the quiet attempt every round settles, and that one is over. */
  ghost predicate RoundsSettle(rounds: Rounds, path: string, ours: Json, quiet: nat) {
    forall s: Server, put: Put, attempt: nat ::
      && 1 <= attempt <= quiet && put.path == path && Live(s, path, put.uid) && Says(put.status, ours)
      && (attempt == quiet ==> Current(s, put))
      ==> RoundSettles(put, ours, rounds(s, put, attempt)) && (attempt == quiet ==> rounds(s, put, attempt).Over?)
  }

  lemma {:induction false} SettledBy(rounds: Rounds, s: Server, put: Put, ours: Json, attempt: nat, quiet: nat)
    requires 1 <= attempt <= quiet <= ATTEMPTS && RoundsSettle(rounds, put.path, ours, quiet)
    requires Live(s, put.path, put.uid) && Says(put.status, ours) && (attempt == quiet ==> Current(s, put))
    ensures var o := WriteBy(rounds, s, put, attempt);
            o.result != Error && Settled(o.server, put.path, put.uid, ours)
    decreases ATTEMPTS - attempt
  {
    var r := rounds(s, put, attempt);
    if r.Again? {
      SettledBy(rounds, r.server, r.put, ours, attempt + 1, quiet);
    }
  }

  /** A write whose pod is kept, over a working transport, settles if nobody touches the pod
      between some re-read and the PUT after it. */
  lemma WriteSettles(s: Server, put: Put, ours: Json, plan: Schedule, attempt: nat, quiet: nat)
    requires 1 <= attempt <= quiet <= ATTEMPTS && Live(s, put.path, put.uid) && Smooth(plan, put.path)
    requires Says(put.status, ours) && (attempt == quiet ==> Current(s, put))
    requires Changes(put.path, plan.puts(quiet).last) == 0
    ensures var o := WriteFrom(s, put, ours, plan, attempt);
            o.result != Error && Settled(o.server, put.path, put.uid, ours)
  {
    forall s: Server, put': Put, attempt: nat
      | && 1 <= attempt <= quiet && put'.path == put.path && Live(s, put.path, put'.uid) && Says(put'.status, ours)
        && (attempt == quiet ==> Current(s, put'))
      ensures var r := RoundsOf(ours, plan)(s, put', attempt);
              RoundSettles(put', ours, r) && (attempt == quiet ==> r.Over?)
    {
      SmoothRound(s, put', ours, plan, attempt);
    }
    SettledBy(RoundsOf(ours, plan), s, put, ours, attempt, quiet);
  }

  // ---------------------------------------------------------------- how a write ends

  /** One PUT of a write and the re-read after it: the server when the PUT was made, right before its
      last delivery, after that, and as the re-read found it. */
  datatype Turn = Turn(before: Server, put: Put, at: Server, after: Server, reread: Server)

  /** The PUT was answered: no such pod, or not this uid at this revision, or stored. */
  ghost predicate FoundNoPod(t: Turn) {
    t.put.path !in t.at.live
  }

  ghost predicate Refused(t: Turn) {
    t.put.path in t.at.live && (t.at.live[t.put.path].uid != t.put.uid || t.at.live[t.put.path].rev != t.put.rev)
  }

  ghost predicate Stored(t: Turn) {
    t.put.path in t.at.live && t.at.live[t.put.path].uid == t.put.uid && t.at.live[t.put.path].rev == t.put.rev
  }

  /** The n-th turn met what the schedule says. */
  ghost predicate Met(plan: Schedule, n: nat, t: Turn) {
    && (match plan.puts(n)
        case Answered(early, last, _) =>
          && t.at == Acts(Deliver(t.before, t.put, early).server, last)
          && t.after == (if Stored(t) then Store(t.at, t.put.path, t.put.uid, t.put.status) else t.at)
        case Lost(tries) => t.after == Deliver(t.before, t.put, tries).server)
    && t.reread == Acts(t.after, plan.gets(n).before)
  }

  /** The re-read found the pod, still not saying the report. */
  ghost predicate StillToSay(t: Turn, ours: Json) {
    Live(t.reread, t.put.path, t.put.uid) && !Says(t.reread.live[t.put.path].status, ours)
  }

  /** The n-th turn ends the write in an error. */
  ghost predicate Fails(plan: Schedule, n: nat, t: Turn) {
    plan.puts(n).Lost? || FoundNoPod(t) || (Refused(t) && (n == 5 || plan.gets(n).GetLost?))
  }

  /** It ends the write with nothing left to say, or written. */
  ghost predicate IsDone(plan: Schedule, n: nat, ours: Json, t: Turn) {
    plan.puts(n).Answered? && Refused(t) && n < 5 && plan.gets(n).Got? && !StillToSay(t, ours)
  }

  ghost predicate Writes(plan: Schedule, n: nat, t: Turn) {
    plan.puts(n).Answered? && Stored(t)
  }

  /** It goes on to `u`, which writes the report merged onto what the re-read found. */
  ghost predicate GoesOn(plan: Schedule, n: nat, ours: Json, t: Turn, u: Turn) {
    && plan.puts(n).Answered? && Refused(t) && n < 5 && plan.gets(n).Got? && StillToSay(t, ours)
    && u.before == t.reread
    && u.put == Put(t.put.path, t.put.uid, t.reread.live[t.put.path].rev, Merge(t.reread.live[t.put.path].status, ours))
  }

  ghost predicate Ends(plan: Schedule, n: nat, ours: Json, t: Turn, server: Server, r: Result) {
    && (r == Error <==> Fails(plan, n, t))
    && (r == Nothing <==> IsDone(plan, n, ours, t))
    && (r.Written? <==> Writes(plan, n, t))
    && (r.Written? ==> r == Written(t.put.rev, if plan.puts(n).readable then Some(t.at.next) else None, t.put.status))
    && server == (if plan.puts(n).Answered? && Refused(t) && n < 5 then t.reread else t.after)
  }

  /** The turns of a write, the first of them its n-th. */
  ghost predicate Told(plan: Schedule, n: nat, ours: Json, ts: seq<Turn>) {
    && (forall i :: 0 <= i < |ts| ==> Met(plan, n + i, ts[i]))
    && (forall i :: 0 < i < |ts| ==> GoesOn(plan, n + i - 1, ours, ts[i - 1], ts[i]))
  }

  function TurnOf(s: Server, put: Put, plan: Schedule, n: nat): Turn {
    var call := plan.puts(n);
    var at := if call.Answered? then Acts(Deliver(s, put, call.early).server, call.last) else s;
    var after := DoPut(s, put, call).server;
    Turn(s, put, at, after, Acts(after, plan.gets(n).before))
  }

  lemma AnsweredBy(s: Server, put: Put, early: seq<seq<Action>>, last: seq<Action>, readable: bool)
    ensures var d, at := DoPut(s, put, Answered(early, last, readable)), Acts(Deliver(s, put, early).server, last);
            d.server == Apply(at, put).0 && d.answer == Apply(at, put).1
  {
    var tries := early + [last];
    assert tries[..|tries| - 1] == early;
  }

  lemma TurnIsMet(s: Server, put: Put, plan: Schedule, n: nat)
    ensures Met(plan, n, TurnOf(s, put, plan, n))
    ensures var t, d := TurnOf(s, put, plan, n), DoPut(s, put, plan.puts(n));
            plan.puts(n).Answered? ==>
              && (FoundNoPod(t) <==> d.answer == NotFound)
              && (Refused(t) <==> d.answer == Conflict)
              && (Stored(t) <==> d.answer.Accepted?) && (Stored(t) ==> d.answer == Accepted(t.at.next))
  {
    if plan.puts(n).Answered? {
      AnsweredBy(s, put, plan.puts(n).early, plan.puts(n).last, plan.puts(n).readable);
    }
  }

  /** What is to hold of each turn, of each next one, and of the last. */
  datatype Rules = Rules(met: (nat, Turn) -> bool, goesOn: (nat, Turn, Turn) -> bool,
                         ends: (nat, Turn, Server, Result) -> bool)

  ghost function RulesOf(ours: Json, plan: Schedule): Rules {
    Rules((n: nat, t: Turn) => Met(plan, n, t), (n: nat, t: Turn, u: Turn) => GoesOn(plan, n, ours, t, u),
          (n: nat, t: Turn, s: Server, r: Result) => Ends(plan, n, ours, t, s, r))
  }

  ghost predicate ToldBy(rules: Rules, n: nat, ts: seq<Turn>) {
    && (forall i :: 0 <= i < |ts| ==> rules.met(n + i, ts[i]))
    && (forall i :: 0 < i < |ts| ==> rules.goesOn(n + i - 1, ts[i - 1], ts[i]))
  }

  /** How one round ends, or goes on. */
  ghost predicate RoundTold(rules: Rules, n: nat, t: Turn, s: Server, put: Put, r: Round) {
    && rules.met(n, t) && t.before == s && t.put == put
    && match r
       case Over(o) => o.puts == 1 && rules.ends(n, t, o.server, o.result)
       case Again(s', _, put') =>
         n < 5 && forall u: Turn :: u.before == s' && u.put == put' ==> rules.goesOn(n, t, u)
  }

  lemma OverIsTold(s: Server, put: Put, ours: Json, plan: Schedule, n: nat)
    requires 1 <= n <= 5 && OneRound(s, put, ours, plan, n).Over?
    ensures var o := OneRound(s, put, ours, plan, n).outcome;
            o.puts == 1 && Ends(plan, n, ours, TurnOf(s, put, plan, n), o.server, o.result)
  {
    TurnIsMet(s, put, plan, n);
  }

  lemma AgainIsTold(s: Server, put: Put, ours: Json, plan: Schedule, n: nat, u: Turn)
    requires 1 <= n <= 5 && OneRound(s, put, ours, plan, n).Again?
    requires u.before == OneRound(s, put, ours, plan, n).server && u.put == OneRound(s, put, ours, plan, n).put
    ensures n < 5 && GoesOn(plan, n, ours, TurnOf(s, put, plan, n), u)
  {
    TurnIsMet(s, put, plan, n);
  }

  /** A round told by a turn that meets the schedule. */
  lemma ToldRound(rules: Rules, n: nat, t: Turn, s: Server, put: Put, r: Round)
    requires rules.met(n, t) && t.before == s && t.put == put
    requires r.Over? ==> r.outcome.puts == 1 && rules.ends(n, t, r.outcome.server, r.outcome.result)
    requires r.Again? ==> n < 5 && forall u: Turn :: u.before == r.server && u.put == r.put ==> rules.goesOn(n, t, u)
    ensures RoundTold(rules, n, t, s, put, r)
  {
  }

  lemma RoundIsTold(s: Server, put: Put, ours: Json, plan: Schedule, n: nat)
    requires 1 <= n <= 5
    ensures RoundTold(RulesOf(ours, plan), n, TurnOf(s, put, plan, n), s, put, OneRound(s, put, ours, plan, n))
  {
    var r, t, rules := OneRound(s, put, ours, plan, n), TurnOf(s, put, plan, n), RulesOf(ours, plan);
    TurnIsMet(s, put, plan, n);
    if r.Over? {
      OverIsTold(s, put, ours, plan, n);
    } else {
      AgainIsTold(s, put, ours, plan, n, t.(before := r.server, put := r.put));
      forall u: Turn | u.before == r.server && u.put == r.put ensures rules.goesOn(n, t, u) {
        AgainIsTold(s, put, ours, plan, n, u);
      }
    }
    ToldRound(rules, n, t, s, put, r);
  }

  lemma OneTurnMore(rules: Rules, n: nat, t: Turn, rest: seq<Turn>)
    requires rules.met(n, t) && ToldBy(rules, n + 1, rest) && (rest != [] ==> rules.goesOn(n, t, rest[0]))
    ensures ToldBy(rules, n, [t] + rest)
  {
    var ts := [t] + rest;
    forall i | 0 <= i < |ts| ensures rules.met(n + i, ts[i]) {
      if i > 0 { assert ts[i] == rest[i - 1] && rules.met(n + 1 + (i - 1), rest[i - 1]); }
    }
    forall i | 0 < i < |ts| ensures rules.goesOn(n + i - 1, ts[i - 1], ts[i]) {
      if i > 1 {
        assert ts[i - 1] == rest[i - 2] && ts[i] == rest[i - 1];
        assert rules.goesOn(n + 1 + (i - 1) - 1, rest[i - 2], rest[i - 1]);
      }
    }
  }

  /** The rounds of a write are told by their turns. */
  ghost predicate RoundsTold(rounds: Rounds, turns: (Server, Put, nat) -> Turn, rules: Rules) {
    forall s: Server, put: Put, n: nat ::
      1 <= n <= 5 ==> RoundTold(rules, n, turns(s, put, n), s, put, rounds(s, put, n))
  }

  lemma {:induction false} TurnsOf(rounds: Rounds, turns: (Server, Put, nat) -> Turn, rules: Rules,
                                  s: Server, put: Put, n: nat)
    returns (ts: seq<Turn>)
    requires 1 <= n <= ATTEMPTS && RoundsTold(rounds, turns, rules)
    ensures var o := WriteBy(rounds, s, put, n);
            && |ts| == o.puts && 1 <= |ts| <= 6 - n && ts[0].before == s && ts[0].put == put
            && ToldBy(rules, n, ts) && rules.ends(n + |ts| - 1, ts[|ts| - 1], o.server, o.result)
    decreases ATTEMPTS - n
  {
    var r, t := rounds(s, put, n), turns(s, put, n);
    assert RoundTold(rules, n, t, s, put, r);
    if r.Over? {
      ts := [t];
    } else {
      var rest := TurnsOf(rounds, turns, rules, r.server, r.put, n + 1);
      OneTurnMore(rules, n, t, rest);
      ts := [t] + rest;
      assert ts[|ts| - 1] == rest[|rest| - 1] && n + |ts| - 1 == n + 1 + |rest| - 1;
    }
  }

  lemma WriteTold(s: Server, put: Put, ours: Json, plan: Schedule) returns (ts: seq<Turn>)
    ensures var o := WriteFrom(s, put, ours, plan, FIRST);
            && |ts| == o.puts && 1 <= |ts| <= 5 && ts[0].before == s && ts[0].put == put
            && ToldBy(RulesOf(ours, plan), 1, ts)
            && Ends(plan, |ts|, ours, ts[|ts| - 1], o.server, o.result)
  {
    var turns := (s: Server, put: Put, n: nat) => TurnOf(s, put, plan, n);
    forall s: Server, put: Put, n: nat | 1 <= n <= 5
      ensures RoundTold(RulesOf(ours, plan), n, turns(s, put, n), s, put, RoundsOf(ours, plan)(s, put, n))
    {
      RoundIsTold(s, put, ours, plan, n);
    }
    ts := TurnsOf(RoundsOf(ours, plan), turns, RulesOf(ours, plan), s, put, 1);
  }

  lemma ToldPlainly(ours: Json, plan: Schedule, ts: seq<Turn>)
    requires ToldBy(RulesOf(ours, plan), 1, ts)
    ensures Told(plan, 1, ours, ts)
  {
  }

  lemma FailsOnlyAtTheEnd(ours: Json, plan: Schedule, ts: seq<Turn>)
    requires Told(plan, 1, ours, ts)
    ensures forall i :: 0 <= i < |ts| - 1 ==> !Fails(plan, i + 1, ts[i])
  {
    forall i | 0 <= i < |ts| - 1 ensures !Fails(plan, i + 1, ts[i]) {
      assert GoesOn(plan, 1 + (i + 1) - 1, ours, ts[i], ts[i + 1]);
    }
  }

  /** A write, told turn by turn: it makes a PUT, and after a 409 re-reads and makes another with the
      report merged onto what it found. It ends in an error exactly if some PUT it made got no usable
      answer or found no pod, or a re-read was lost, or its fifth PUT was a 409; it ends with nothing
      to write only if a re-read was served and found the pod gone, replaced or saying the report;
      and it is written exactly if its last PUT was stored. */
  lemma WriteEnds(s: Server, put: Put, ours: Json, plan: Schedule) returns (ts: seq<Turn>)
    ensures var o := WriteFrom(s, put, ours, plan, FIRST);
            && |ts| == o.puts && 1 <= |ts| <= 5 && ts[0].before == s && ts[0].put == put
            && Told(plan, 1, ours, ts)
            && Ends(plan, |ts|, ours, ts[|ts| - 1], o.server, o.result)
            && (o.result == Error <==> exists i :: 0 <= i < |ts| && Fails(plan, i + 1, ts[i]))
  {
    ts := WriteTold(s, put, ours, plan);
    ToldPlainly(ours, plan, ts);
    FailsOnlyAtTheEnd(ours, plan, ts);
    var last := |ts| - 1;
    assert Fails(plan, last + 1, ts[last]) <==> WriteFrom(s, put, ours, plan, FIRST).result == Error;
  }

  /** What a pass does, and what it remembers: it compares with the last acknowledged write while the
      copy is at the revision that was made on, else with the copy; it forgets its last write when
      there is nothing to write, replaces it when told of a new one, and otherwise keeps it. */
  lemma PassEnds(s: Server, acked: map<string, Acked>, source: Source, ours: Json, plan: Schedule)
    ensures var r := Pass(s, acked, source, ours, plan); var acked' := AckedAfter(acked, source.uid, r);
            var newer := source.uid in acked && source.rev == Some(acked[source.uid].writtenOn);
            var base := if newer then acked[source.uid].status else source.status;
            var rev := if newer then Some(acked[source.uid].now) else source.rev;
            && (r == Skipped <==> Says(base, ours))
            && (r == Unwritable <==> !Says(base, ours) && rev == None)
            && (r.Attempted? ==>
                  r.outcome == WriteFrom(s, Put(source.path, source.uid, rev.value, Merge(base, ours)), ours, plan, 1))
            && (forall u :: u != source.uid ==>
                  (u in acked' <==> u in acked) && (u in acked' ==> acked'[u] == acked[u]))
            && (!r.Attempted? || r.outcome.result == Error ==> acked' == acked)
            && (r.Attempted? && r.outcome.result == Nothing ==> source.uid !in acked')
            && (r.Attempted? && r.outcome.result.Written? ==>
                  var w := r.outcome.result;
                  if w.now.Some? then source.uid in acked' && acked'[source.uid] == Acked(w.on, w.now.value, w.status)
                  else acked' == acked)
  {
  }

  /** So an apiserver that cannot be reached is an error, and the record of the last write stays. */
  lemma UnreachableIsAnError(s: Server, acked: map<string, Acked>, source: Source, ours: Json, plan: Schedule)
    requires plan.puts(1).Lost? && Pass(s, acked, source, ours, plan).Attempted?
    ensures var r := Pass(s, acked, source, ours, plan);
            r.outcome.result == Error && AckedAfter(acked, source.uid, r) == acked
  {
    PassEnds(s, acked, source, ours, plan);
    var newer := source.uid in acked && source.rev == Some(acked[source.uid].writtenOn);
    var base := if newer then acked[source.uid].status else source.status;
    var rev := if newer then Some(acked[source.uid].now) else source.rev;
    var put := Put(source.path, source.uid, rev.value, Merge(base, ours));
    var ts := WriteEnds(s, put, ours, plan);
    assert Fails(plan, 0 + 1, ts[0]);
  }

  // ---------------------------------------------------------------- a report made again

  /** A report just written is skipped when made again from any later copy of the pod exactly if
      the copy is at the revision written on, or its status says the report. */
  lemma RepeatIsSkippedExactly(s: Server, acked: map<string, Acked>, source: Source, ours: Json, plan: Schedule,
                               s': Server, later: Source, again: Schedule)
    requires Valid(s) && AckedSound(s, acked) && SourceSound(s, source) && later.uid == source.uid
    requires var r := Pass(s, acked, source, ours, plan);
             r.Attempted? && r.outcome.result.Written? && r.outcome.result.now.Some?
    ensures var r := Pass(s, acked, source, ours, plan);
            Pass(s', AckedAfter(acked, source.uid, r), later, ours, again) == Skipped
            <==> later.rev == Some(r.outcome.result.on) || Says(later.status, ours)
  {
    PassIsGood(s, acked, source, ours, plan);
  }

  /** A round that reports success is settled; one that is not over goes on with the report. */
  ghost predicate RoundWrites(put: Put, ours: Json, r: Round) {
    match r
    case Over(o) => o.result.Written? ==> Settled(o.server, put.path, put.uid, ours)
    case Again(_, _, put') => put'.path == put.path && put'.uid == put.uid && Says(put'.status, ours)
  }

  lemma WrittenRound(s: Server, put: Put, ours: Json, plan: Schedule, attempt: nat)
    requires Says(put.status, ours)
    ensures RoundWrites(put, ours, OneRound(s, put, ours, plan, attempt))
  {
    var r := OneRound(s, put, ours, plan, attempt);
    if r.Again? {
      MergeIsIdempotent(r.server.live[put.path].status, ours);
    }
  }

  ghost predicate RoundsWrite(rounds: Rounds, ours: Json) {
    forall s: Server, put: Put, attempt: nat ::
      Says(put.status, ours) ==> RoundWrites(put, ours, rounds(s, put, attempt))
  }

  lemma {:induction false} RoundsSettleWritten(rounds: Rounds, s: Server, put: Put, ours: Json, attempt: nat)
    requires 1 <= attempt <= ATTEMPTS && RoundsWrite(rounds, ours) && Says(put.status, ours)
    ensures var o := WriteBy(rounds, s, put, attempt);
            o.result.Written? ==> Settled(o.server, put.path, put.uid, ours)
    decreases ATTEMPTS - attempt
  {
    var r := rounds(s, put, attempt);
    if r.Again? && attempt < ATTEMPTS {
      RoundsSettleWritten(rounds, r.server, r.put, ours, attempt + 1);
    }
  }

  /** A write that reports success leaves the server saying the report. */
  lemma WrittenIsSettled(s: Server, put: Put, ours: Json, plan: Schedule, attempt: nat)
    requires 1 <= attempt <= ATTEMPTS && Says(put.status, ours)
    ensures var o := WriteFrom(s, put, ours, plan, attempt);
            o.result.Written? ==> Settled(o.server, put.path, put.uid, ours)
  {
    forall s: Server, put: Put, attempt: nat | Says(put.status, ours)
      ensures RoundWrites(put, ours, RoundsOf(ours, plan)(s, put, attempt))
    {
      WrittenRound(s, put, ours, plan, attempt);
    }
    RoundsSettleWritten(RoundsOf(ours, plan), s, put, ours, attempt);
  }

  /** The transport works and others leave this pod alone during a pass. */
  ghost predicate Undisturbed(plan: Schedule, path: string) {
    && plan.puts(FIRST).Answered? && plan.puts(FIRST).early == [] && plan.puts(FIRST).readable
    && plan.gets(FIRST).Got?
    && Kept(path, plan.puts(FIRST).last) && Changes(path, plan.puts(FIRST).last) == 0
    && Kept(path, plan.gets(FIRST).before) && Changes(path, plan.gets(FIRST).before) == 0
  }

  /** The server as others alone would have left it after a pass of one PUT and one re-read. */
  ghost function OthersAlone(s: Server, plan: Schedule): Server
    requires plan.puts(FIRST).Answered?
  {
    Acts(Acts(s, plan.puts(FIRST).last), plan.gets(FIRST).before)
  }

  /** A report of what the server already says, made from any copy of the pod the server ever held,
      writes nothing: if it is not skipped, its one PUT is a 409 and the re-read ends it. */
  lemma SaidIsNotWritten(s: Server, acked: map<string, Acked>, source: Source, ours: Json, plan: Schedule)
    requires Valid(s) && AckedSound(s, acked) && SourceSound(s, source)
    requires Settled(s, source.path, source.uid, ours) && Undisturbed(plan, source.path)
    ensures var r := Pass(s, acked, source, ours, plan);
            r.Attempted? ==>
              r.outcome.result == Nothing && r.outcome.server == OthersAlone(s, plan) && r.outcome.puts == 1
  {
    var r := Pass(s, acked, source, ours, plan);
    if r.Attempted? {
      var b := BaseWasHeld(s, acked, source);
      var put := Put(source.path, source.uid, b.rev, Merge(b.status, ours));
      var t := Acts(s, plan.puts(FIRST).last);
      KeptStaysLive(s, plan.puts(FIRST).last, put.path, put.uid);
      OneDelivery(s, put, plan.puts(FIRST).last, true);
      KeptStaysLive(t, plan.gets(FIRST).before, put.path, put.uid);
      assert OneRound(s, put, ours, plan, FIRST).Over?;
    }
  }

  /** A report once written is not written again while others leave the pod alone, whichever of
      its versions the watch has delivered by then. */
  lemma RepeatWritesNothing(s: Server, acked: map<string, Acked>, source: Source, ours: Json, plan: Schedule,
                            later: Source, again: Schedule)
    requires Valid(s) && AckedSound(s, acked) && SourceSound(s, source)
    requires var r := Pass(s, acked, source, ours, plan);
             && r.Attempted? && r.outcome.result.Written? && SourceSound(r.outcome.server, later)
    requires later.path == source.path && later.uid == source.uid && Undisturbed(again, source.path)
    ensures var r := Pass(s, acked, source, ours, plan);
            var r' := Pass(r.outcome.server, AckedAfter(acked, source.uid, r), later, ours, again);
            r'.Attempted? ==> r'.outcome.result == Nothing && r'.outcome.server == OthersAlone(r.outcome.server, again)
  {
    PassIsGood(s, acked, source, ours, plan);
    var b := BaseWasHeld(s, acked, source);
    MergeIsIdempotent(b.status, ours);
    var r := Pass(s, acked, source, ours, plan);
    WrittenIsSettled(s, Put(source.path, source.uid, b.rev, Merge(b.status, ours)), ours, plan, FIRST);
    SaidIsNotWritten(r.outcome.server, AckedAfter(acked, source.uid, r), later, ours, again);
  }

  lemma FirstPutLands(s: Server, put: Put, ours: Json, plan: Schedule)
    requires Current(s, put) && Undisturbed(plan, put.path)
    ensures var o := WriteFrom(s, put, ours, plan, FIRST);
            var before := Acts(s, plan.puts(FIRST).last);
            && o.server == Store(before, put.path, put.uid, put.status)
            && o.result == Written(put.rev, Some(before.next), put.status)
  {
    KeptStaysLive(s, plan.puts(FIRST).last, put.path, put.uid);
    OneDelivery(s, put, plan.puts(FIRST).last, true);
    assert OneRound(s, put, ours, plan, FIRST).Over?;
  }

  /** The live version of a pod, as the watch delivers it. */
  ghost predicate JustDelivered(s: Server, source: Source) {
    source.path in s.live
    && var now := s.live[source.path];
       now.uid == source.uid && Some(now.rev) == source.rev && now.status == source.status
  }

  /** The pod's live version is the kubelet's last acknowledged write, and says `ours`. */
  ghost predicate LastWriteIsLive(w: World, source: Source, ours: Json) {
    && Settled(w.server, source.path, source.uid, ours) && source.uid in w.acked
    && w.acked[source.uid].now == w.server.live[source.path].rev
    && w.acked[source.uid].status == w.server.live[source.path].status
  }

  lemma PassWrites(w: World, source: Source, on: nat, base: Json, ours: Json, plan: Schedule) returns (now: nat)
    requires source.path in w.server.live && w.server.live[source.path] == Record(source.path, source.uid, on, base)
    requires StatusBase(source, Lookup(w.acked, source.uid)) == (base, Some(on)) && !Says(base, ours)
    requires Undisturbed(plan, source.path)
    ensures var w' := After(w, Reported(source, ours, plan));
            && w'.acked == w.acked[source.uid := Acked(on, now, Merge(base, ours))]
            && LastWriteIsLive(w', source, ours)
            && w'.server.live[source.path] == Record(source.path, source.uid, now, Merge(base, ours))
  {
    now := Acts(w.server, plan.puts(FIRST).last).next;
    FirstPutLands(w.server, Put(source.path, source.uid, on, Merge(base, ours)), ours, plan);
    MergeIsIdempotent(base, ours);
  }

  ghost predicate SoundWorld(w: World, source: Source) {
    Valid(w.server) && AckedSound(w.server, w.acked) && SourceSound(w.server, source)
  }

  lemma StaysSound(w: World, source: Source, ours: Json, plan: Schedule)
    requires SoundWorld(w, source)
    ensures SoundWorld(After(w, Reported(source, ours, plan)), source)
  {
    PassIsGood(w.server, w.acked, source, ours, plan);
  }

  /** The last write was made on another revision than the watched one, and the watched status does
      not say the report: made again, it is not skipped. */
  lemma ElsewhereIsNotSkipped(w: World, source: Source, ours: Json, plan: Schedule)
    requires SoundWorld(w, source) && source.rev.Some? && LastWriteIsLive(w, source, ours)
    requires source.rev != Some(w.acked[source.uid].writtenOn) && !Says(source.status, ours)
    requires Undisturbed(plan, source.path)
    ensures var r := Pass(w.server, w.acked, source, ours, plan); r.Attempted? && r.outcome.result == Nothing
  {
    SaidIsNotWritten(w.server, w.acked, source, ours, plan);
  }

  /** Two reports written one after the other, the watch delivering neither: the second made again
      is not skipped, although the last write is the status to compare with. */
  lemma SecondReportIsNotSkipped(s: Server, source: Source, a: Json, b: Json, plan: Schedule)
    requires Valid(s) && JustDelivered(s, source) && Undisturbed(plan, source.path)
    requires !Says(source.status, a) && !Says(source.status, b) && !Says(Merge(source.status, a), b)
    ensures var w := After(After(World(s, map[]), Reported(source, a, plan)), Reported(source, b, plan));
            && LastWriteIsLive(w, source, b)
            && var r := Pass(w.server, w.acked, source, b, plan);
               r.Attempted? && r.outcome.result == Nothing
  {
    var w0 := World(s, map[]);
    var w1 := After(w0, Reported(source, a, plan));
    assert SoundWorld(w0, source);
    StaysSound(w0, source, a, plan);
    StaysSound(w1, source, b, plan);
    var first := PassWrites(w0, source, source.rev.value, source.status, a, plan);
    assert source.rev.value < first by { PassIsGood(s, map[], source, a, plan); }
    var second := PassWrites(w1, source, first, Merge(source.status, a), b, plan);
    ElsewhereIsNotSkipped(After(w1, Reported(source, b, plan)), source, b, plan);
  }

  /** The pod is touched before the first PUT; nothing else happens. */
  ghost predicate TouchedOnce(plan: Schedule, path: string) {
    && plan.puts(FIRST) == Answered([], [Touch(path)], true) && plan.gets(FIRST) == Got([])
    && plan.puts(FIRST + 1) == Answered([], [], true)
  }

  lemma ActsOfOne(s: Server, a: Action)
    ensures Acts(s, [a]) == Act(s, a) && Acts(Act(s, a), []) == Act(s, a)
  {
    assert [a][1..] == [];
  }

  lemma TouchedRounds(s: Server, put: Put, ours: Json, plan: Schedule)
    requires Current(s, put) && TouchedOnce(plan, put.path) && !Says(s.live[put.path].status, ours)
    requires put.rev < s.next && put.status == Merge(s.live[put.path].status, ours)
    ensures var t, put' := Act(s, Touch(put.path)), put.(rev := s.next);
            var r, r' := OneRound(s, put, ours, plan, FIRST), OneRound(t, put', ours, plan, FIRST + 1);
            && r.Again? && r.server == t && r.put == put'
            && r'.Over? && r'.outcome.server == Store(t, put.path, put.uid, put.status)
            && r'.outcome.result == Written(s.next, Some(s.next + 1), put.status)
  {
    var t := Act(s, Touch(put.path));
    ActsOfOne(s, Touch(put.path));
    OneDelivery(s, put, [Touch(put.path)], true);
    OneDelivery(t, put.(rev := s.next), [], true);
  }

  lemma TouchedWrite(s: Server, put: Put, ours: Json, plan: Schedule)
    requires Current(s, put) && TouchedOnce(plan, put.path) && !Says(s.live[put.path].status, ours)
    requires put.rev < s.next && put.status == Merge(s.live[put.path].status, ours)
    ensures var o := WriteFrom(s, put, ours, plan, FIRST);
            && o.result == Written(s.next, Some(s.next + 1), put.status)
            && put.path in o.server.live
            && o.server.live[put.path] == Record(put.path, put.uid, s.next + 1, put.status)
  {
    TouchedRounds(s, put, ours, plan);
  }

  /** A report written after one 409, the watch delivering nothing: made again it is not skipped. */
  lemma ReportAfterConflictIsNotSkipped(s: Server, source: Source, ours: Json, plan: Schedule, again: Schedule)
    requires Valid(s) && JustDelivered(s, source) && !Says(source.status, ours)
    requires TouchedOnce(plan, source.path) && Undisturbed(again, source.path)
    ensures var w := After(World(s, map[]), Reported(source, ours, plan));
            && LastWriteIsLive(w, source, ours)
            && var r := Pass(w.server, w.acked, source, ours, again);
               r.Attempted? && r.outcome.result == Nothing
  {
    var put := Put(source.path, source.uid, source.rev.value, Merge(source.status, ours));
    TouchedWrite(s, put, ours, plan);
    MergeIsIdempotent(source.status, ours);
    assert SoundWorld(World(s, map[]), source);
    StaysSound(World(s, map[]), source, ours, plan);
    ElsewhereIsNotSkipped(After(World(s, map[]), Reported(source, ours, plan)), source, ours, again);
  }

  /** There are such runs. */
  lemma LateWatchInput() returns (s: Server, source: Source, a: Json, b: Json, quiet: Schedule, touched: Schedule)
    ensures Valid(s) && JustDelivered(s, source)
    ensures Undisturbed(quiet, source.path) && TouchedOnce(touched, source.path)
    ensures !Says(source.status, a) && !Says(source.status, b) && !Says(Merge(source.status, a), b)
  {
    var pod := Record("p", "u", 0, Object(map[]));
    s, source := Server(map["p" := pod], {pod}, 1), Source("p", "u", Some(0), pod.status);
    a, b := Object(map["phase" := Number(1)]), Object(map["phase" := Number(2)]);
    quiet := Schedule(_ => Answered([], [], true), _ => Got([]));
    touched := Schedule((k: nat) => Answered([], if k == FIRST then [Touch("p")] else [], true), _ => Got([]));
    assert Merge(pod.status, a).fields["phase"] == Number(1);
    assert forall base :: Merge(base, b).fields["phase"] == Number(2);
  }

  // ---------------------------------------------------------------- how many changes a write withstands

  /** How many changes others make to the pod after the first PUT. */
  ghost function ChangesAfterFirstPut(plan: Schedule, path: string): nat
    requires Smooth(plan, path)
  {
    Changes(path, plan.gets(1).before) + Changes(path, plan.puts(2).last)
    + Changes(path, plan.gets(2).before) + Changes(path, plan.puts(3).last)
    + Changes(path, plan.gets(3).before) + Changes(path, plan.puts(4).last)
    + Changes(path, plan.gets(4).before) + Changes(path, plan.puts(5).last)
  }

  /** A write with at most three other changes after its first PUT ends without error, the
      server's status then saying `ours`. */
  lemma ThreeChangesAreWithstood(s: Server, put: Put, ours: Json, plan: Schedule)
    requires Valid(s) && Grounded(s, put, ours) && Live(s, put.path, put.uid) && Smooth(plan, put.path)
    requires ChangesAfterFirstPut(plan, put.path) <= 3
    ensures var o := WriteFrom(s, put, ours, plan, FIRST);
            o.result != Error && Settled(o.server, put.path, put.uid, ours) && o.puts <= ATTEMPTS
  {
    GroundedSays(s, put, ours);
    WriteLands(s, put, ours, plan, FIRST);
    var quiet := if Changes(put.path, plan.puts(2).last) == 0 then 2
                 else if Changes(put.path, plan.puts(3).last) == 0 then 3
                 else if Changes(put.path, plan.puts(4).last) == 0 then 4 else 5;
    WriteSettles(s, put, ours, plan, FIRST, quiet);
  }

  /** What others do keeps the pod and never makes its status say `ours`. */
  ghost predicate Unhelpful(path: string, acts: seq<Action>, ours: Json) {
    Kept(path, acts) && forall a :: a in acts && a.path == path && a.Write? ==> !Says(a.status, ours)
  }

  /** Smooth, and unhelpful all along. */
  ghost predicate UnhelpfulPlan(plan: Schedule, path: string, ours: Json) {
    && Smooth(plan, path)
    && (forall k :: 1 <= k <= ATTEMPTS ==>
          Unhelpful(path, plan.puts(k).last, ours) && Unhelpful(path, plan.gets(k).before, ours))
  }

  /** The pod is changed between every re-read and the PUT after it. */
  ghost predicate Busy(plan: Schedule, path: string)
    requires Smooth(plan, path)
  {
    forall k :: 2 <= k <= ATTEMPTS ==> Changes(path, plan.puts(k).last) >= 1
  }

  /** The pod is there and does not say `ours`, and no revision is from the future. */
  ghost predicate Unsaid(s: Server, path: string, uid: string, rev: nat, ours: Json) {
    Live(s, path, uid) && !Says(s.live[path].status, ours) && s.live[path].rev < s.next && rev < s.next
  }

  lemma {:induction false} UnhelpfulActs(s: Server, acts: seq<Action>, path: string, uid: string, rev: nat, ours: Json)
    requires Unsaid(s, path, uid, rev, ours) && Unhelpful(path, acts, ours)
    ensures var t := Acts(s, acts);
      && Unsaid(t, path, uid, rev, ours) && t.next >= s.next
      && (if Changes(path, acts) == 0 then t.live[path] == s.live[path] else t.live[path].rev >= s.next)
    decreases |acts|
  {
    if acts != [] {
      var u := Act(s, acts[0]);
      assert acts[0] in acts;
      assert Unsaid(u, path, uid, rev, ours) && u.next >= s.next;
      assert acts[0].path == path ==> u.live[path].rev >= s.next;
      assert Unhelpful(path, acts[1..], ours);
      UnhelpfulActs(u, acts[1..], path, uid, rev, ours);
    }
  }

  /** The revision a PUT names is not the live one when it arrives. */
  ghost predicate Outdated(s: Server, put: Put, plan: Schedule, attempt: nat)
    requires Live(s, put.path, put.uid) && plan.puts(attempt).Answered?
  {
    Changes(put.path, plan.puts(attempt).last) >= 1 || s.live[put.path].rev != put.rev
  }

  lemma OutdatedPut(s: Server, put: Put, ours: Json, call: PutCall)
    requires Unsaid(s, put.path, put.uid, put.rev, ours)
    requires call.Answered? && call.early == [] && Unhelpful(put.path, call.last, ours)
    requires Changes(put.path, call.last) >= 1 || s.live[put.path].rev != put.rev
    ensures var d := DoPut(s, put, call);
      d.answer == Conflict && Unsaid(d.server, put.path, put.uid, put.rev, ours)
  {
    OneDelivery(s, put, call.last, call.readable);
    UnhelpfulActs(s, call.last, put.path, put.uid, put.rev, ours);
  }

  lemma BusyReread(d: Delivered, put: Put, ours: Json, get: GetCall)
    requires Unsaid(d.server, put.path, put.uid, put.rev, ours) && get.Got? && Unhelpful(put.path, get.before, ours)
    ensures var r := Reread(d, put, ours, get);
      && r.Again? && r.put.path == put.path && r.put.uid == put.uid
      && Unsaid(r.server, r.put.path, r.put.uid, r.put.rev, ours)
  {
    UnhelpfulActs(d.server, get.before, put.path, put.uid, put.rev, ours);
  }

  /** A round of an unsaid report, on an outdated revision, is in vain. */
  ghost predicate RoundInVain(r: Round, path: string, ours: Json, attempt: nat) {
    if attempt == ATTEMPTS then r.Over? && r.outcome.result == Error
    else r.Again? && r.put.path == path && Unsaid(r.server, path, r.put.uid, r.put.rev, ours)
  }

  lemma BusyRound(s: Server, put: Put, ours: Json, plan: Schedule, attempt: nat)
    requires 1 <= attempt <= ATTEMPTS && Unsaid(s, put.path, put.uid, put.rev, ours)
    requires UnhelpfulPlan(plan, put.path, ours) && Outdated(s, put, plan, attempt)
    ensures RoundInVain(OneRound(s, put, ours, plan, attempt), put.path, ours, attempt)
  {
    OutdatedPut(s, put, ours, plan.puts(attempt));
    if attempt < ATTEMPTS {
      BusyReread(DoPut(s, put, plan.puts(attempt)), put, ours, plan.gets(attempt));
    }
  }

  ghost predicate InVain(rounds: Rounds, path: string, ours: Json) {
    forall s: Server, put: Put, attempt: nat ::
      2 <= attempt <= ATTEMPTS && put.path == path && Unsaid(s, path, put.uid, put.rev, ours) ==>
      RoundInVain(rounds(s, put, attempt), path, ours, attempt)
  }

  lemma {:induction false} RoundsInVain(rounds: Rounds, s: Server, put: Put, ours: Json, attempt: nat)
    requires 1 <= attempt <= ATTEMPTS && InVain(rounds, put.path, ours)
    requires RoundInVain(rounds(s, put, attempt), put.path, ours, attempt)
    ensures WriteBy(rounds, s, put, attempt).result == Error
    decreases ATTEMPTS - attempt
  {
    var r := rounds(s, put, attempt);
    if attempt < ATTEMPTS {
      RoundsInVain(rounds, r.server, r.put, ours, attempt + 1);
    }
  }

  lemma BusyWriteErrs(s: Server, put: Put, ours: Json, plan: Schedule)
    requires Unsaid(s, put.path, put.uid, put.rev, ours) && UnhelpfulPlan(plan, put.path, ours)
    requires Outdated(s, put, plan, FIRST) && Busy(plan, put.path)
    ensures WriteFrom(s, put, ours, plan, FIRST).result == Error
  {
    forall s: Server, put': Put, attempt: nat
      | 2 <= attempt <= ATTEMPTS && put'.path == put.path && Unsaid(s, put.path, put'.uid, put'.rev, ours)
      ensures RoundInVain(RoundsOf(ours, plan)(s, put', attempt), put.path, ours, attempt)
    {
      BusyRound(s, put', ours, plan, attempt);
    }
    BusyRound(s, put, ours, plan, FIRST);
    RoundsInVain(RoundsOf(ours, plan), s, put, ours, FIRST);
  }

  /** While others never make the status say `ours`, a write ends in an error exactly if its first
      PUT is outdated and the pod is changed in each of the four windows between a re-read and its
      PUT; so a fourth change after the first PUT can be too many. */
  lemma WriteErrsExactly(s: Server, put: Put, ours: Json, plan: Schedule)
    requires Unsaid(s, put.path, put.uid, put.rev, ours) && UnhelpfulPlan(plan, put.path, ours)
    requires Says(put.status, ours)
    ensures WriteFrom(s, put, ours, plan, FIRST).result == Error
            <==> Outdated(s, put, plan, FIRST) && Busy(plan, put.path)
    ensures Busy(plan, put.path) ==> ChangesAfterFirstPut(plan, put.path) >= 4
  {
    if !Outdated(s, put, plan, FIRST) {
      WriteSettles(s, put, ours, plan, FIRST, FIRST);
    } else if !Busy(plan, put.path) {
      var quiet: nat :| 2 <= quiet <= ATTEMPTS && Changes(put.path, plan.puts(quiet).last) == 0;
      WriteSettles(s, put, ours, plan, FIRST, quiet);
    } else {
      BusyWriteErrs(s, put, ours, plan);
    }
  }
}

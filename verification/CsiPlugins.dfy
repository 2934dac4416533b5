/** Registration of CSI drivers: each scan brings the registered drivers in line with the
    sockets in the registry directory, and the node's CSINode object in line with the drivers
    (pkg/kubelet/src/csi_plugins.rs). */
module CsiPlugins {
  import opened Common

  type Path = string

  /** Times are milliseconds. */
  const RETRY_FAILED: nat := 1000

  datatype Socket = Socket(path: Path, mtime: nat)

  datatype NodeInfo = NodeInfo(nodeId: string, topologyKeys: set<string>, maxVolumes: int)

  datatype Registered = Registered(node: NodeInfo, socket: Socket)

  type Drivers = map<string, Registered>

  /** One driver as CSINode lists it. */
  datatype Listed = Listed(nodeId: string, topologyKeys: set<string>, count: Option<int>)

  type Published = map<string, Listed>

  function ListedAs(r: Registered): Listed {
    Listed(r.node.nodeId, r.node.topologyKeys, if r.node.maxVolumes > 0 then Some(r.node.maxVolumes) else None)
  }

  function Want(drivers: Drivers): Published {
    map n | n in drivers :: ListedAs(drivers[n])
  }

  /** A socket that failed to register: its mtime then, and when. */
  datatype Failure = Failure(mtime: nat, at: nat)

  type Failures = map<Path, Failure>

  /** What a registrar and its driver answer when asked. */
  datatype Info = Info(name: string, node: NodeInfo)

  /** How writing CSINode goes, if it comes to that: it lands and is acknowledged, it lands but
      the answer is lost or late, or it does not land. */
  datatype Write = Acknowledged | LandedUnheard | NotLanded

  /** What one scan meets: the directory's listing, each socket's answer, the times at which a
      socket is looked at and fails, the time at the end, and how publishing goes. */
  datatype World = World(listing: Option<seq<Socket>>, answers: Socket -> Option<Info>,
                         lookedAt: Socket -> nat, failedAt: Socket -> nat, endAt: nat, write: Write)

  function Elapsed(since: nat, now: nat): nat { if now >= since then now - since else 0 }

  // ---------------------------------------------------------------- one scan, as functions

  function Retained(drivers: Drivers, sockets: seq<Socket>): Drivers {
    map n | n in drivers && drivers[n].socket in sockets :: drivers[n]
  }

  predicate HasPath(sockets: seq<Socket>, p: Path) {
    exists s :: s in sockets && s.path == p
  }

  function RetainedFailures(failed: Failures, sockets: seq<Socket>): Failures {
    map p | p in failed && HasPath(sockets, p) :: failed[p]
  }

  predicate Known(drivers: Drivers, p: Path) {
    exists n :: n in drivers && drivers[n].socket.path == p
  }

  predicate BackingOff(failed: Failures, s: Socket, now: nat) {
    s.path in failed && failed[s.path].mtime == s.mtime && Elapsed(failed[s.path].at, now) < RETRY_FAILED
  }

  datatype Tables = Tables(drivers: Drivers, failed: Failures)

  function Visit(t: Tables, s: Socket, w: World): Tables {
    if Known(t.drivers, s.path) || BackingOff(t.failed, s, w.lookedAt(s)) then t
    else
      match w.answers(s)
      case Some(info) => Tables(t.drivers[info.name := Registered(info.node, s)], t.failed - {s.path})
      case None => Tables(t.drivers, t.failed[s.path := Failure(s.mtime, w.failedAt(s))])
  }

  function VisitAll(t: Tables, sockets: seq<Socket>, w: World): Tables
    decreases |sockets|
  {
    if sockets == [] then t else VisitAll(Visit(t, sockets[0], w), sockets[1..], w)
  }

  function Scanned(t: Tables, sockets: seq<Socket>, w: World): Tables {
    VisitAll(Tables(Retained(t.drivers, sockets), RetainedFailures(t.failed, sockets)), sockets, w)
  }

  /** The kubelet's record of what it last published, what CSINode holds, and whether a write
      has landed unheard since the last acknowledged one. */
  datatype Publication = Publication(published: Option<Published>, csinode: Option<Published>, unheard: bool)

  function Publish(p: Publication, hasApi: bool, drivers: Drivers, write: Write): (Publication, bool) {
    var want := Some(Want(drivers));
    if !hasApi || p.published == want then (p, true)
    else
      match write
      case Acknowledged => (Publication(want, want, false), true)
      case LandedUnheard => (p.(csinode := want, unheard := true), false)
      case NotLanded => (p, false)
  }

  datatype State = State(tables: Tables, publication: Publication)

  function AfterScan(s: State, hasApi: bool, w: World): State {
    if w.listing.None? then s
    else
      var t := Scanned(s.tables, w.listing.value, w);
      State(t, Publish(s.publication, hasApi, t.drivers, w.write).0)
  }

  predicate AsksForRetry(s: State, hasApi: bool, w: World) {
    if w.listing.None? then true
    else
      var t := Scanned(s.tables, w.listing.value, w);
      t.failed != map[] || !Publish(s.publication, hasApi, t.drivers, w.write).1
  }

  /** When a failed socket is due again: never at once. */
  function Due(f: Failure, now: nat): nat {
    var left := if Elapsed(f.at, now) >= RETRY_FAILED then 0 else RETRY_FAILED - Elapsed(f.at, now);
    if left < 1 then 1 else left
  }

  ghost predicate IsLeastDue(failed: Failures, now: nat, left: nat) {
    && (exists p :: p in failed && left == Due(failed[p], now))
    && (forall p :: p in failed ==> left <= Due(failed[p], now))
  }

  /** When a scan is to be repeated: as soon as a failed socket is due, else in a second if the
      listing or the publishing failed. */
  ghost predicate RightRetry(s: State, hasApi: bool, w: World, retry: Option<nat>) {
    if w.listing.None? then retry == Some(RETRY_FAILED)
    else
      var t := Scanned(s.tables, w.listing.value, w);
      if t.failed != map[] then retry.Some? && IsLeastDue(t.failed, w.endAt, retry.value)
      else retry == if Publish(s.publication, hasApi, t.drivers, w.write).1 then None else Some(RETRY_FAILED)
  }

  // How often the subscribers are told: once for each driver dropped and each one registered.

  predicate Registers(t: Tables, s: Socket, w: World) {
    !Known(t.drivers, s.path) && !BackingOff(t.failed, s, w.lookedAt(s)) && w.answers(s).Some?
  }

  function Registrations(t: Tables, sockets: seq<Socket>, w: World): nat
    decreases |sockets|
  {
    if sockets == [] then 0
    else (if Registers(t, sockets[0], w) then 1 else 0) + Registrations(Visit(t, sockets[0], w), sockets[1..], w)
  }

  function Gone(drivers: Drivers, sockets: seq<Socket>): set<string> {
    set n | n in drivers && drivers[n].socket !in sockets
  }

  function Told(t: Tables, w: World): nat {
    if w.listing.None? then 0
    else
      var sockets := w.listing.value;
      |Gone(t.drivers, sockets)|
      + Registrations(Tables(Retained(t.drivers, sockets), RetainedFailures(t.failed, sockets)), sockets, w)
  }

  // ---------------------------------------------------------------- the object

  class CsiPlugins {
    const hasApi: bool
    var drivers: Drivers
    var failed: Failures
    var publication: Publication
    var changes: nat

    function View(): State
      reads this
    {
      State(Tables(drivers, failed), publication)
    }

    constructor (hasApi: bool, csinode: Option<Published>)
      ensures this.hasApi == hasApi && View() == Start(csinode)
    {
      this.hasApi := hasApi;
      drivers, failed, changes := map[], map[], 0;
      publication := Publication(None, csinode, false);
    }

    /** Drops the drivers whose socket is gone, or is another by its mtime. */
    method DropGone(sockets: seq<Socket>)
      modifies `drivers, `changes
      ensures drivers == Retained(old(drivers), sockets)
      ensures changes == old(changes) + |Gone(old(drivers), sockets)|
    {
      var gone := set n | n in drivers && drivers[n].socket !in sockets;
      ghost var all := gone;
      while gone != {}
        invariant gone <= all
        invariant drivers == old(drivers) - (all - gone)
        invariant changes + |gone| == old(changes) + |all|
        decreases |gone|
      {
        var n :| n in gone;
        gone := gone - {n};
        drivers := drivers - {n};
        changes := changes + 1;
      }
      assert all - gone == all;
    }

    method Look(s: Socket, w: World)
      modifies `drivers, `failed, `changes
      ensures Tables(drivers, failed) == Visit(old(Tables(drivers, failed)), s, w)
      ensures changes == old(changes) + if Registers(old(Tables(drivers, failed)), s, w) then 1 else 0
    {
      var known := exists n :: n in drivers && drivers[n].socket.path == s.path;
      if known || BackingOff(failed, s, w.lookedAt(s)) { return; }
      match w.answers(s)
      case Some(info) =>
        drivers := drivers[info.name := Registered(info.node, s)];
        failed := failed - {s.path};
        changes := changes + 1;
      case None =>
        failed := failed[s.path := Failure(s.mtime, w.failedAt(s))];
    }

    method PublishCsiNode(write: Write) returns (ok: bool)
      modifies `publication
      ensures (publication, ok) == Publish(old(publication), hasApi, drivers, write)
    {
      if !hasApi { return true; }
      var want := map n | n in drivers :: ListedAs(drivers[n]);
      if publication.published == Some(want) { return true; }
      match write
      case Acknowledged =>
        publication := Publication(Some(want), Some(want), false);
        return true;
      case LandedUnheard =>
        publication := publication.(csinode := Some(want), unheard := true);
        return false;
      case NotLanded =>
        return false;
    }

    method EarliestRetry(now: nat) returns (retry: Option<nat>)
      ensures retry.None? <==> failed == map[]
      ensures retry.Some? ==> IsLeastDue(failed, now, retry.value)
    {
      retry := None;
      var todo := failed.Keys;
      while todo != {}
        invariant todo <= failed.Keys
        invariant retry.None? <==> todo == failed.Keys
        invariant retry.Some? ==> exists p :: p in failed && retry.value == Due(failed[p], now)
        invariant retry.Some? ==> forall p :: p in failed && p !in todo ==> retry.value <= Due(failed[p], now)
        decreases |todo|
      {
        var p :| p in todo;
        todo := todo - {p};
        if retry.None? || Due(failed[p], now) < retry.value { retry := Some(Due(failed[p], now)); }
      }
    }

    /** Every socket in turn. */
    method LookAll(sockets: seq<Socket>, w: World)
      modifies `drivers, `failed, `changes
      ensures Tables(drivers, failed) == VisitAll(old(Tables(drivers, failed)), sockets, w)
      ensures changes == old(changes) + Registrations(old(Tables(drivers, failed)), sockets, w)
    {
      ghost var start := Tables(drivers, failed);
      for i := 0 to |sockets|
        invariant VisitAll(Tables(drivers, failed), sockets[i..], w) == VisitAll(start, sockets, w)
        invariant changes + Registrations(Tables(drivers, failed), sockets[i..], w)
               == old(changes) + Registrations(start, sockets, w)
      {
        assert sockets[i..][1..] == sockets[i + 1..];
        Look(sockets[i], w);
      }
      assert sockets[|sockets|..] == [];
    }

    method ScanOnce(w: World) returns (retry: Option<nat>)
      modifies this
      ensures View() == AfterScan(old(View()), hasApi, w)
      ensures retry.Some? <==> AsksForRetry(old(View()), hasApi, w)
      ensures retry.Some? ==> 1 <= retry.value <= RETRY_FAILED
      ensures RightRetry(old(View()), hasApi, w, retry)
      ensures changes == old(changes) + Told(old(View()).tables, w)
    {
      if w.listing.None? { return Some(RETRY_FAILED); }
      var sockets := w.listing.value;
      DropGone(sockets);
      failed := map p | p in failed && HasPath(sockets, p) :: failed[p];
      LookAll(sockets, w);
      var ok := PublishCsiNode(w.write);
      retry := EarliestRetry(w.endAt);
      if !ok && (retry.None? || retry.value > RETRY_FAILED) { retry := Some(RETRY_FAILED); }
    }
  }

  // ---------------------------------------------------------------- what every scan keeps

  function Start(csinode: Option<Published>): State {
    State(Tables(map[], map[]), Publication(None, csinode, false))
  }

  /** Each driver's socket, as it was registered, is in the listing. */
  ghost predicate FromListing(drivers: Drivers, sockets: seq<Socket>) {
    forall n :: n in drivers ==> drivers[n].socket in sockets
  }

  /** The directory lists a path once. */
  ghost predicate PathsDistinct(sockets: seq<Socket>) {
    forall i, j :: 0 <= i < j < |sockets| ==> sockets[i].path != sockets[j].path
  }

  /** A socket that answers always gives its own driver name. */
  ghost predicate NamedBy(answers: Socket -> Option<Info>, names: Socket -> string) {
    forall s :: answers(s).Some? ==> answers(s).value.name == names(s)
  }

  ghost predicate DriversNamed(drivers: Drivers, names: Socket -> string) {
    forall n :: n in drivers ==> n == names(drivers[n].socket)
  }

  lemma {:induction false} VisitsKeepListing(t: Tables, all: seq<Socket>, sockets: seq<Socket>, w: World,
                                            names: Socket -> string)
    requires FromListing(t.drivers, all) && (forall s :: s in sockets ==> s in all)
    requires NamedBy(w.answers, names) && DriversNamed(t.drivers, names)
    ensures FromListing(VisitAll(t, sockets, w).drivers, all)
    ensures DriversNamed(VisitAll(t, sockets, w).drivers, names)
    decreases |sockets|
  {
    if sockets != [] {
      VisitsKeepListing(Visit(t, sockets[0], w), all, sockets[1..], w, names);
    }
  }

  lemma ScanKeepsListing(t: Tables, sockets: seq<Socket>, w: World, names: Socket -> string)
    requires NamedBy(w.answers, names) && DriversNamed(t.drivers, names)
    ensures FromListing(Scanned(t, sockets, w).drivers, sockets)
    ensures DriversNamed(Scanned(t, sockets, w).drivers, names)
  {
    VisitsKeepListing(Tables(Retained(t.drivers, sockets), RetainedFailures(t.failed, sockets)), sockets, sockets, w,
                      names);
  }

  /** The socket is registered, as it is now. */
  ghost predicate IsRegistered(drivers: Drivers, s: Socket) {
    exists n :: n in drivers && drivers[n].socket == s
  }

  ghost predicate NamesDistinct(sockets: seq<Socket>, names: Socket -> string) {
    forall a, b :: a in sockets && b in sockets && a != b ==> names(a) != names(b)
  }

  ghost predicate Settled(t: Tables, s: Socket) {
    IsRegistered(t.drivers, s) || s.path in t.failed
  }

  /** With distinct names a visit leaves its socket registered or failed, and never displaces
      another socket. */
  lemma VisitSettles(t: Tables, all: seq<Socket>, s: Socket, w: World, names: Socket -> string)
    requires s in all && PathsDistinct(all) && NamesDistinct(all, names) && NamedBy(w.answers, names)
    requires FromListing(t.drivers, all) && DriversNamed(t.drivers, names)
    ensures var t' := Visit(t, s, w);
            && Settled(t', s)
            && (forall o :: o in all && o != s && Settled(t, o) ==> Settled(t', o))
            && FromListing(t'.drivers, all) && DriversNamed(t'.drivers, names)
  {
    var t' := Visit(t, s, w);
    SamePathSameSocket(all);
    if Known(t.drivers, s.path) {
      var n :| n in t.drivers && t.drivers[n].socket.path == s.path;
      assert t.drivers[n].socket == s;
    } else if !BackingOff(t.failed, s, w.lookedAt(s)) && w.answers(s).Some? {
      var name := w.answers(s).value.name;
      assert name in t'.drivers && t'.drivers[name].socket == s;
      forall o | o in all && o != s && Settled(t, o) ensures Settled(t', o) {
        if IsRegistered(t.drivers, o) {
          var n :| n in t.drivers && t.drivers[n].socket == o;
          assert n != name;
          assert n in t'.drivers && t'.drivers[n].socket == o;
        }
      }
    } else {
      forall o | o in all && o != s && Settled(t, o) ensures Settled(t', o) {
      }
    }
  }

  lemma SamePathSameSocket(all: seq<Socket>)
    requires PathsDistinct(all)
    ensures forall a, b :: a in all && b in all && a.path == b.path ==> a == b
  {
  }

  lemma {:induction false} VisitsSettle(t: Tables, all: seq<Socket>, sockets: seq<Socket>, w: World,
                                       names: Socket -> string)
    requires forall s :: s in sockets ==> s in all
    requires PathsDistinct(all) && NamesDistinct(all, names) && NamedBy(w.answers, names)
    requires FromListing(t.drivers, all) && DriversNamed(t.drivers, names)
    ensures var t' := VisitAll(t, sockets, w);
            forall s :: s in all && (s in sockets || Settled(t, s)) ==> Settled(t', s)
    decreases |sockets|
  {
    if sockets != [] {
      VisitSettles(t, all, sockets[0], w, names);
      VisitsSettle(Visit(t, sockets[0], w), all, sockets[1..], w, names);
    }
  }

  /** A scan that asks for no retry has registered every present socket exactly if no two of
      them give one driver name. */
  lemma QuietScanRegistersAll(s: State, hasApi: bool, w: World, names: Socket -> string)
    requires w.listing.Some? && PathsDistinct(w.listing.value)
    requires NamedBy(w.answers, names) && DriversNamed(s.tables.drivers, names)
    requires !AsksForRetry(s, hasApi, w)
    ensures var drivers := AfterScan(s, hasApi, w).tables.drivers; var sockets := w.listing.value;
            (forall k :: k in sockets ==> IsRegistered(drivers, k)) <==> NamesDistinct(sockets, names)
  {
    var sockets := w.listing.value;
    var t := Scanned(s.tables, sockets, w);
    ScanKeepsListing(s.tables, sockets, w, names);
    if NamesDistinct(sockets, names) {
      VisitsSettle(Tables(Retained(s.tables.drivers, sockets), RetainedFailures(s.tables.failed, sockets)),
                   sockets, sockets, w, names);
      forall k | k in sockets ensures IsRegistered(t.drivers, k) {
        assert Settled(t, k);
      }
    }
    if forall k :: k in sockets ==> IsRegistered(t.drivers, k) {
      forall a, b | a in sockets && b in sockets && a != b ensures names(a) != names(b) {
        var m :| m in t.drivers && t.drivers[m].socket == a;
        var n :| n in t.drivers && t.drivers[n].socket == b;
      }
    }
  }

  // ---------------------------------------------------------------- what becomes of each socket

  /** The driver registered for this very socket. */
  ghost function DriverOf(t: Tables, s: Socket, names: Socket -> string): Option<Registered> {
    if names(s) in t.drivers && t.drivers[names(s)].socket == s then Some(t.drivers[names(s)]) else None
  }

  ghost function FailureOf(t: Tables, s: Socket): Option<Failure> {
    if s.path in t.failed then Some(t.failed[s.path]) else None
  }

  ghost predicate SameFor(t: Tables, t': Tables, s: Socket, names: Socket -> string) {
    DriverOf(t', s, names) == DriverOf(t, s, names) && FailureOf(t', s) == FailureOf(t, s)
  }

  /** A listed socket that is registered stays so. One that is not is asked, unless it failed less
      than a second before it is looked at and has not been made anew since: it is registered if it
      answers, with no failure on record, and recorded as failed if it does not. */
  ghost predicate Treated(t: Tables, t': Tables, s: Socket, w: World, names: Socket -> string) {
    var failure := FailureOf(t, s);
    if DriverOf(t, s, names).Some? then SameFor(t, t', s, names)
    else if failure.Some? && failure.value.mtime == s.mtime && w.lookedAt(s) < failure.value.at + 1000 then
      SameFor(t, t', s, names)
    else if w.answers(s).Some? then
      DriverOf(t', s, names) == Some(Registered(w.answers(s).value.node, s)) && FailureOf(t', s) == None
    else DriverOf(t', s, names) == None && FailureOf(t', s) == Some(Failure(s.mtime, w.failedAt(s)))
  }

  lemma KnownIsRegistered(t: Tables, all: seq<Socket>, s: Socket, names: Socket -> string)
    requires s in all && PathsDistinct(all) && FromListing(t.drivers, all) && DriversNamed(t.drivers, names)
    ensures Known(t.drivers, s.path) <==> DriverOf(t, s, names).Some?
  {
    SamePathSameSocket(all);
    if n :| n in t.drivers && t.drivers[n].socket.path == s.path {
      assert t.drivers[n].socket == s && n == names(s);
    }
  }

  lemma VisitTreats(t: Tables, all: seq<Socket>, s: Socket, w: World, names: Socket -> string)
    requires s in all && PathsDistinct(all) && NamesDistinct(all, names) && NamedBy(w.answers, names)
    requires FromListing(t.drivers, all) && DriversNamed(t.drivers, names)
    ensures Treated(t, Visit(t, s, w), s, w, names)
    ensures forall o :: o in all && o != s ==> SameFor(t, Visit(t, s, w), o, names)
  {
    KnownIsRegistered(t, all, s, names);
    SamePathSameSocket(all);
    forall o | o in all && o != s ensures SameFor(t, Visit(t, s, w), o, names) {
      assert o.path != s.path && names(o) != names(s);
    }
  }

  lemma {:induction false} VisitsTreat(t: Tables, all: seq<Socket>, sockets: seq<Socket>, w: World,
                                      names: Socket -> string)
    requires (forall s :: s in sockets ==> s in all) && PathsDistinct(sockets)
    requires PathsDistinct(all) && NamesDistinct(all, names) && NamedBy(w.answers, names)
    requires FromListing(t.drivers, all) && DriversNamed(t.drivers, names)
    ensures var t' := VisitAll(t, sockets, w);
            forall s :: s in all ==> if s in sockets then Treated(t, t', s, w, names) else SameFor(t, t', s, names)
    decreases |sockets|
  {
    if sockets != [] {
      var u := Visit(t, sockets[0], w);
      VisitTreats(t, all, sockets[0], w, names);
      VisitSettles(t, all, sockets[0], w, names);
      VisitsTreat(u, all, sockets[1..], w, names);
      assert sockets[0] !in sockets[1..];
    }
  }

  lemma DroppingKeeps(t: Tables, sockets: seq<Socket>, s: Socket, names: Socket -> string)
    requires s in sockets
    ensures SameFor(t, Tables(Retained(t.drivers, sockets), RetainedFailures(t.failed, sockets)), s, names)
  {
    assert HasPath(sockets, s.path);
  }

  lemma {:induction false} VisitsFailOnlyListed(t: Tables, all: seq<Socket>, sockets: seq<Socket>, w: World)
    requires (forall s :: s in sockets ==> s in all) && forall p :: p in t.failed ==> HasPath(all, p)
    ensures forall p :: p in VisitAll(t, sockets, w).failed ==> HasPath(all, p)
    decreases |sockets|
  {
    if sockets != [] {
      VisitsFailOnlyListed(Visit(t, sockets[0], w), all, sockets[1..], w);
    }
  }

  /** What a scan makes of every listed socket, and that it leaves nothing else on record: for a
      directory that lists each path once, and drivers of distinct names. */
  lemma ScanTreats(s: State, hasApi: bool, w: World, names: Socket -> string)
    requires w.listing.Some? && PathsDistinct(w.listing.value) && NamesDistinct(w.listing.value, names)
    requires NamedBy(w.answers, names) && DriversNamed(s.tables.drivers, names)
    ensures var t' := AfterScan(s, hasApi, w).tables;
            && (forall k :: k in w.listing.value ==> Treated(s.tables, t', k, w, names))
            && (forall n :: n in t'.drivers ==>
                  t'.drivers[n].socket in w.listing.value && n == names(t'.drivers[n].socket))
            && (forall p :: p in t'.failed ==> HasPath(w.listing.value, p))
  {
    var sockets := w.listing.value;
    var kept := Tables(Retained(s.tables.drivers, sockets), RetainedFailures(s.tables.failed, sockets));
    ScanKeepsListing(s.tables, sockets, w, names);
    VisitsTreat(kept, sockets, sockets, w, names);
    VisitsFailOnlyListed(kept, sockets, sockets, w);
    forall k | k in sockets ensures Treated(s.tables, AfterScan(s, hasApi, w).tables, k, w, names) {
      DroppingKeeps(s.tables, sockets, k, names);
      assert Treated(kept, VisitAll(kept, sockets, w), k, w, names);
    }
  }

  /** The sockets of a listing that were not registered before and are after. */
  ghost function Registering(t: Tables, t': Tables, sockets: seq<Socket>, names: Socket -> string): set<Socket> {
    set k | k in sockets && DriverOf(t, k, names).None? && DriverOf(t', k, names).Some?
  }

  lemma RegistersExactly(t: Tables, all: seq<Socket>, s: Socket, w: World, names: Socket -> string)
    requires s in all && PathsDistinct(all) && NamesDistinct(all, names) && NamedBy(w.answers, names)
    requires FromListing(t.drivers, all) && DriversNamed(t.drivers, names)
    ensures Registers(t, s, w) <==> DriverOf(t, s, names).None? && DriverOf(Visit(t, s, w), s, names).Some?
  {
    KnownIsRegistered(t, all, s, names);
  }

  lemma OneMoreRegistering(t: Tables, u: Tables, t': Tables, s: Socket, rest: seq<Socket>, names: Socket -> string)
    requires s !in rest && SameFor(u, t', s, names) && forall k :: k in rest ==> SameFor(t, u, k, names)
    ensures |Registering(t, t', [s] + rest, names)|
            == |Registering(u, t', rest, names)|
               + if DriverOf(t, s, names).None? && DriverOf(u, s, names).Some? then 1 else 0
  {
    var here := if DriverOf(t, s, names).None? && DriverOf(u, s, names).Some? then {s} else {};
    assert Registering(t, t', [s] + rest, names) == here + Registering(u, t', rest, names);
    assert here !! Registering(u, t', rest, names);
  }

  lemma {:induction false} RegistrationsCount(t: Tables, all: seq<Socket>, sockets: seq<Socket>, w: World,
                                             names: Socket -> string)
    requires (forall s :: s in sockets ==> s in all) && PathsDistinct(sockets)
    requires PathsDistinct(all) && NamesDistinct(all, names) && NamedBy(w.answers, names)
    requires FromListing(t.drivers, all) && DriversNamed(t.drivers, names)
    ensures Registrations(t, sockets, w) == |Registering(t, VisitAll(t, sockets, w), sockets, names)|
    decreases |sockets|
  {
    if sockets != [] {
      var s, rest, u := sockets[0], sockets[1..], Visit(t, sockets[0], w);
      var t' := VisitAll(u, rest, w);
      VisitTreats(t, all, s, w, names);
      VisitSettles(t, all, s, w, names);
      RegistersExactly(t, all, s, w, names);
      RegistrationsCount(u, all, rest, w, names);
      VisitsTreat(u, all, rest, w, names);
      assert s !in rest;
      OneMoreRegistering(t, u, t', s, rest, names);
      assert sockets == [s] + rest;
    }
  }

  /** Subscribers are told once for each driver dropped and once for each socket newly registered. */
  lemma ToldExactly(s: State, hasApi: bool, w: World, names: Socket -> string)
    requires w.listing.Some? && PathsDistinct(w.listing.value) && NamesDistinct(w.listing.value, names)
    requires NamedBy(w.answers, names) && DriversNamed(s.tables.drivers, names)
    ensures Told(s.tables, w)
         == |set n | n in s.tables.drivers && s.tables.drivers[n].socket !in w.listing.value|
            + |Registering(s.tables, AfterScan(s, hasApi, w).tables, w.listing.value, names)|
  {
    var sockets := w.listing.value;
    var kept := Tables(Retained(s.tables.drivers, sockets), RetainedFailures(s.tables.failed, sockets));
    RegistrationsCount(kept, sockets, sockets, w, names);
    forall k | k in sockets ensures SameFor(s.tables, kept, k, names) {
      DroppingKeeps(s.tables, sockets, k, names);
    }
    var t' := VisitAll(kept, sockets, w);
    assert Registering(kept, t', sockets, names) == Registering(s.tables, t', sockets, names);
  }

  /** A directory that cannot be listed changes nothing and tells nobody. */
  lemma UnlistedIsLeft(s: State, hasApi: bool, w: World)
    requires w.listing.None?
    ensures AfterScan(s, hasApi, w) == s && Told(s.tables, w) == 0 && AsksForRetry(s, hasApi, w)
  {
  }

  /** CSINode is written exactly if there is an API and the record differs from what is registered, and
      the record follows when the write is acknowledged. */
  lemma PublishesChanges(s: State, hasApi: bool, w: World)
    requires w.listing.Some?
    ensures var want, p, p' := Some(Want(AfterScan(s, hasApi, w).tables.drivers)), s.publication,
                               AfterScan(s, hasApi, w).publication;
            && (!hasApi || p.published == want ==> p' == p)
            && (hasApi && p.published != want && w.write == Acknowledged ==> p' == Publication(want, want, false))
            && (hasApi && p.published != want && w.write != Acknowledged ==>
                  && p'.published == p.published && AsksForRetry(s, hasApi, w)
                  && p'.csinode == (if w.write == LandedUnheard then want else p.csinode)
                  && p'.unheard == (p.unheard || w.write == LandedUnheard))
  {
  }

  /** A scan asks for no retry exactly if the directory could be listed, no socket is on record as
      failed, and CSINode needed no write or the write was acknowledged. */
  lemma AsksExactly(s: State, hasApi: bool, w: World)
    ensures var s' := AfterScan(s, hasApi, w); var want := Some(Want(s'.tables.drivers));
            !AsksForRetry(s, hasApi, w)
            <==> w.listing.Some? && s'.tables.failed == map[]
                 && (!hasApi || s.publication.published == want || w.write == Acknowledged)
  {
  }

  /** A failed socket is due a second after it failed, or at once when that has passed, but not within
      the millisecond; so the scan asked for then asks it again. */
  lemma DueIsAskedAgain(f: Failure, now: nat, later: nat)
    ensures var left := Due(f, now);
            && (now < f.at ==> left == 1000)
            && (f.at <= now < f.at + 1000 ==> now + left == f.at + 1000)
            && (now >= f.at + 1000 ==> left == 1)
            && (f.at <= now && later >= now + left ==> later >= f.at + 1000)
  {
  }

  /** CSINode as published lists exactly the registered drivers, each as it answered, with a limit
      exactly if it gave a positive one. */
  lemma PublishedLists(drivers: Drivers, n: string)
    ensures n in Want(drivers) <==> n in drivers
    ensures n in drivers ==>
      && Want(drivers)[n].nodeId == drivers[n].node.nodeId
      && Want(drivers)[n].topologyKeys == drivers[n].node.topologyKeys
      && (Want(drivers)[n].count.Some? <==> drivers[n].node.maxVolumes > 0)
      && (Want(drivers)[n].count.Some? ==> Want(drivers)[n].count.value == drivers[n].node.maxVolumes)
  {
  }

  // ---------------------------------------------------------------- runs

  ghost function AfterScans(s: State, hasApi: bool, run: seq<World>): State
    decreases |run|
  {
    if run == [] then s
    else AfterScan(AfterScans(s, hasApi, run[..|run| - 1]), hasApi, run[|run| - 1])
  }

  /** The listing of the last scan that had one. */
  ghost function LastListing(run: seq<World>): seq<Socket>
    decreases |run|
  {
    if run == [] then []
    else if run[|run| - 1].listing.Some? then run[|run| - 1].listing.value
    else LastListing(run[..|run| - 1])
  }

  ghost predicate Honest(run: seq<World>, names: Socket -> string) {
    forall i :: 0 <= i < |run| ==> NamedBy(run[i].answers, names)
  }

  /** With nothing unheard the record is what CSINode holds; with something unheard CSINode
      holds something else. */
  ghost predicate RecordSound(p: Publication) {
    if p.unheard then p.csinode.Some? && p.csinode != p.published
    else p.published.Some? ==> p.csinode == p.published
  }

  lemma {:induction false} UntoldVisits(t: Tables, sockets: seq<Socket>, w: World)
    requires Registrations(t, sockets, w) == 0
    ensures VisitAll(t, sockets, w).drivers == t.drivers
    decreases |sockets|
  {
    if sockets != [] {
      UntoldVisits(Visit(t, sockets[0], w), sockets[1..], w);
    }
  }

  /** A scan that tells the subscribers of nothing has changed no registration. */
  lemma UntoldMeansUnchanged(s: State, hasApi: bool, w: World)
    requires Told(s.tables, w) == 0
    ensures AfterScan(s, hasApi, w).tables.drivers == s.tables.drivers
  {
    if w.listing.Some? {
      var sockets := w.listing.value;
      assert Gone(s.tables.drivers, sockets) == {};
      assert forall n :: n in s.tables.drivers ==> n !in Gone(s.tables.drivers, sockets);
      assert Retained(s.tables.drivers, sockets) == s.tables.drivers;
      UntoldVisits(Tables(Retained(s.tables.drivers, sockets), RetainedFailures(s.tables.failed, sockets)), sockets, w);
    }
  }

  /** Over any run of scans, every registered driver's socket and mtime were in the last
      listing that succeeded, and the record of CSINode is right unless a write went unheard. */
  lemma {:induction false} EveryRun(csinode: Option<Published>, hasApi: bool, run: seq<World>, names: Socket -> string)
    requires Honest(run, names)
    ensures var s := AfterScans(Start(csinode), hasApi, run);
            && FromListing(s.tables.drivers, LastListing(run))
            && DriversNamed(s.tables.drivers, names)
            && RecordSound(s.publication)
    decreases |run|
  {
    if run != [] {
      var n := |run| - 1;
      EveryRun(csinode, hasApi, run[..n], names);
      if run[n].listing.Some? {
        ScanKeepsListing(AfterScans(Start(csinode), hasApi, run[..n]).tables, run[n].listing.value, run[n], names);
      }
    }
  }

  /** After any run, a scan that asks for no retry leaves the record equal to the registered
      drivers, and every present socket registered if their names are distinct. CSINode itself
      lists exactly those drivers if and only if no write has landed unheard since the last
      acknowledged one. */
  lemma QuietScan(csinode: Option<Published>, run: seq<World>, w: World, names: Socket -> string)
    requires Honest(run, names) && NamedBy(w.answers, names)
    requires w.listing.Some? ==> PathsDistinct(w.listing.value)
    requires !AsksForRetry(AfterScans(Start(csinode), true, run), true, w)
    ensures var s := AfterScan(AfterScans(Start(csinode), true, run), true, w);
            && w.listing.Some?
            && s.publication.published == Some(Want(s.tables.drivers))
            && (s.publication.csinode == Some(Want(s.tables.drivers)) <==> !s.publication.unheard)
            && (NamesDistinct(w.listing.value, names) ==>
                  forall k :: k in w.listing.value ==> IsRegistered(s.tables.drivers, k))
  {
    EveryRun(csinode, true, run, names);
    QuietScanRegistersAll(AfterScans(Start(csinode), true, run), true, w, names);
  }

  /** An unheard write can be left standing: a driver's socket appears, the write that lists it
      lands unheard, the socket goes again, and the next scan finds the record right, writes
      nothing and asks for no retry, while CSINode lists the driver. */
  lemma UnheardWriteCanStand(s: Socket, info: Info)
    ensures var with := World(Some([s]), _ => Some(info), _ => 0, _ => 0, 0, LandedUnheard);
            var none := World(Some([]), _ => None, _ => 0, _ => 0, 0, Acknowledged);
            var before := AfterScan(AfterScan(Start(None), true, none), true, with);
            && !AsksForRetry(before, true, none)
            && AfterScan(before, true, none).tables.drivers == map[]
            && AfterScan(before, true, none).publication.csinode
               == Some(map[info.name := ListedAs(Registered(info.node, s))])
  {
    var with := World(Some([s]), _ => Some(info), _ => 0, _ => 0, 0, LandedUnheard);
    var none := World(Some([]), _ => None, _ => 0, _ => 0, 0, Acknowledged);
    var s1 := AfterScan(Start(None), true, none);
    assert s1 == State(Tables(map[], map[]), Publication(Some(map[]), Some(map[]), false));
    var d := map[info.name := Registered(info.node, s)];
    var empty: Tables := Tables(map[], map[]);
    var sockets := [s];
    assert sockets[1..] == [];
    assert Retained(map[], sockets) == map[] && RetainedFailures(map[], sockets) == map[];
    assert Visit(empty, s, with) == Tables(d, map[]) by { assert empty.failed - {s.path} == map[]; }
    assert VisitAll(empty, sockets, with) == VisitAll(Tables(d, map[]), [], with);
    assert Scanned(s1.tables, [s], with).drivers == d;
    assert Scanned(s1.tables, [s], with).failed == map[];
    assert info.name in Want(d);
    var s2 := AfterScan(s1, true, with);
    assert s2.publication == Publication(Some(map[]), Some(Want(d)), true);
    assert Retained(d, []) == map[];
    assert RetainedFailures(map[], []) == map[];
    assert Want(d) == map[info.name := ListedAs(Registered(info.node, s))];
  }
}

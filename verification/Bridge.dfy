/** The bridge plugin's ADD and DEL around the allocator (pkg/cni/src/bridge.rs). Every
    command builds its allocator from disk; commands run one after another. */
module Bridge {
  import opened Common
  import opened Ipam

  datatype Op =
    | EnsureBridge | SetBridgeGateway(gateway: Ip) | CreateVethPair | AttachToBridge | MoveToNetns
    | AssignPodAddr(ip: Ip) | AddDefaultRoute(via: Ip) | EnableMasquerade

  datatype Options = Options(isGateway: bool, ipMasq: bool, subnetText: bool)

  /** What may go wrong in one command: listing the disk, reading some of its files (only those
      of the containers in `read` can be), writing an allocation, removing one, and the plumbing,
      of which the first `plumbing` steps succeed. */
  datatype Faults = Faults(loads: bool, read: set<string>, persists: bool, removes: bool, plumbing: nat)

  type Disk = map<string, Ip>

  /** The plumbing of one pod, in order. */
  function Steps(opts: Options, gateway: Ip, ip: Ip): seq<Op> {
    var wire := [CreateVethPair, AttachToBridge, MoveToNetns, AssignPodAddr(ip), AddDefaultRoute(gateway)];
    (if opts.isGateway then [EnsureBridge, SetBridgeGateway(gateway)] else [EnsureBridge])
    + (if opts.ipMasq && opts.subnetText then wire + [EnableMasquerade] else wire)
  }

  /** One step of the plumbing; it fails once `survives` steps have succeeded. */
  method Attempt(op: Op, before: seq<Op>, survives: nat, ghost plan: seq<Op>) returns (ok: bool, done: seq<Op>)
    requires |before| <= survives && |before| < |plan| && before == plan[..|before|] && plan[|before|] == op
    ensures ok == (|before| < survives)
    ensures |done| == (if ok then |before| + 1 else |before|) && done == plan[..|done|]
  {
    if |before| == survives { return false, before; }
    return true, before + [op];
  }

  /** Which step is where, with and without gateway and masquerade. */
  ghost predicate InOrder(s: seq<Op>, opts: Options, gateway: Ip, ip: Ip) {
    var g := if opts.isGateway then 1 else 0;
    && |s| == 6 + g + (if opts.ipMasq && opts.subnetText then 1 else 0)
    && s[0] == EnsureBridge && (opts.isGateway ==> s[1] == SetBridgeGateway(gateway))
    && s[1 + g] == CreateVethPair && s[2 + g] == AttachToBridge && s[3 + g] == MoveToNetns
    && s[4 + g] == AssignPodAddr(ip) && s[5 + g] == AddDefaultRoute(gateway)
    && (opts.ipMasq && opts.subnetText ==> s[6 + g] == EnableMasquerade)
  }

  lemma StepsInOrder(opts: Options, gateway: Ip, ip: Ip)
    ensures InOrder(Steps(opts, gateway, ip), opts, gateway, ip)
  {
  }

  method Execute(opts: Options, gateway: Ip, ip: Ip, survives: nat, ghost plan: seq<Op>)
    returns (ok: bool, done: seq<Op>)
    requires InOrder(plan, opts, gateway, ip)
    ensures ok == (survives >= |plan|) && done == if ok then plan else plan[..survives]
  {
    done := [];
    ok, done := Attempt(EnsureBridge, done, survives, plan);
    if !ok { return; }
    if opts.isGateway {
      ok, done := Attempt(SetBridgeGateway(gateway), done, survives, plan);
      if !ok { return; }
    }
    ok, done := Attempt(CreateVethPair, done, survives, plan);
    if !ok { return; }
    ok, done := Attempt(AttachToBridge, done, survives, plan);
    if !ok { return; }
    ok, done := Attempt(MoveToNetns, done, survives, plan);
    if !ok { return; }
    ok, done := Attempt(AssignPodAddr(ip), done, survives, plan);
    if !ok { return; }
    ok, done := Attempt(AddDefaultRoute(gateway), done, survives, plan);
    if !ok { return; }
    if opts.ipMasq && opts.subnetText {
      ok, done := Attempt(EnableMasquerade, done, survives, plan);
      if !ok { return; }
    }
  }

  /** The steps run in order and stop at the first that fails. `done` are those that took effect. */
  method ApplyPlan(opts: Options, gateway: Ip, ip: Ip, survives: nat) returns (ok: bool, done: seq<Op>)
    ensures var steps := Steps(opts, gateway, ip);
            ok == (survives >= |steps|) && done == if ok then steps else steps[..survives]
  {
    StepsInOrder(opts, gateway, ip);
    ok, done := Execute(opts, gateway, ip, survives, Steps(opts, gateway, ip));
  }

  // ---------------------------------------------------------------- what a command does to the disk

  ghost predicate Plumbed(opts: Options, pool: Pool, ip: Ip, f: Faults) {
    f.plumbing >= |Steps(opts, pool.gateway, ip)|
  }

  /** The address an ADD works with, if it gets that far. */
  ghost function Attempted(pool: Pool, disk: Disk, id: string, f: Faults): Result<Ip> {
    var seen := Seen(disk, f.read);
    var ip := Assigned(pool, seen, id);
    if ip.None? then Err(NoFreeIps)
    else if id !in seen && !f.persists then Err(PersistFailed)
    else Ok(ip.value)
  }

  ghost function AddResult(config: Config, opts: Options, disk: Disk, id: string, f: Faults): Result<Ip> {
    var pool := Resolve(config);
    if pool.Err? then Err(pool.error)
    else if !f.loads then Err(LoadFailed)
    else
      var got := Attempted(pool.value, disk, id, f);
      if got.Ok? && !Plumbed(opts, pool.value, got.value, f) then Err(PlumbingFailed) else got
  }

  ghost function DiskAfterAdd(config: Config, opts: Options, disk: Disk, id: string, f: Faults): Disk {
    var pool := Resolve(config);
    if pool.Err? || !f.loads then disk
    else
      var got := Attempted(pool.value, disk, id, f);
      if got.Err? then disk
      else if Plumbed(opts, pool.value, got.value, f) then disk[id := got.value]
      else if f.removes then disk - {id}
      else disk[id := got.value]
  }

  ghost function DelResult(config: Config, disk: Disk, id: string, f: Faults): Option<Error> {
    if Resolve(config).Err? then Some(Resolve(config).error)
    else if !f.loads then Some(LoadFailed)
    else if id in Seen(disk, f.read) && !f.removes then Some(RemoveFailed)
    else None
  }

  ghost function DiskAfterDel(config: Config, disk: Disk, id: string, f: Faults): Disk {
    if Resolve(config).Ok? && f.loads && f.removes && id in f.read then disk - {id} else disk
  }

  method CmdAdd(config: Config, opts: Options, disk: DiskStore, id: string, f: Faults)
    returns (r: Result<Ip>, done: seq<Op>)
    modifies disk
    ensures r == AddResult(config, opts, old(disk.files), id, f)
    ensures disk.files == DiskAfterAdd(config, opts, old(disk.files), id, f)
    ensures r.Ok? ==> done == Steps(opts, Resolve(config).value.gateway, r.value)
  {
    var resolved := Resolve(config);
    if resolved.Err? { return Err(resolved.error), []; }
    var pool := resolved.value;
    var loaded := disk.Load(f.loads, f.read);
    if loaded.Err? { return Err(loaded.error), []; }
    var ipam := new HostLocalIpam(pool, disk, loaded.value);
    var got := ipam.Allocate(id, f.persists);
    if got.Err? { return got, []; }
    assert disk.files == old(disk.files)[id := got.value];
    var ok;
    ok, done := ApplyPlan(opts, pool.gateway, got.value, f.plumbing);
    if !ok {
      var released := ipam.Release(id, f.removes);
      assert old(disk.files)[id := got.value] - {id} == old(disk.files) - {id};
      return Err(PlumbingFailed), done;
    }
    return got, done;
  }

  /** The teardown of the pod's link comes first and its outcome is ignored. */
  method CmdDel(config: Config, disk: DiskStore, id: string, f: Faults) returns (r: Option<Error>)
    modifies disk
    ensures disk.files == DiskAfterDel(config, old(disk.files), id, f)
    ensures r == DelResult(config, old(disk.files), id, f)
  {
    var resolved := Resolve(config);
    if resolved.Err? { return Some(resolved.error); }
    var loaded := disk.Load(f.loads, f.read);
    if loaded.Err? { return Some(loaded.error); }
    var ipam := new HostLocalIpam(resolved.value, disk, loaded.value);
    var ok := ipam.Release(id, f.removes);
    if id !in old(disk.files) {
      assert old(disk.files) - {id} == old(disk.files);
    }
    return if ok then None else Some(RemoveFailed);
  }

  // ---------------------------------------------------------------- one command

  /** Containers hold pairwise distinct addresses, each assignable. */
  ghost predicate Sound(pool: Pool, disk: Disk) {
    && (forall id :: id in disk ==> pool.IsAssignable(disk[id]))
    && (forall a, b :: a in disk && b in disk && a != b ==> disk[a] != disk[b])
  }

  /** The unread file of another container holds this address. */
  ghost predicate HeldUnread(disk: Disk, id: string, ip: Ip, read: set<string>) {
    exists other :: other in disk && other != id && other !in read && disk[other] == ip
  }

  /** An ADD gets an address that an unread file holds, and leaves it on the disk. */
  ghost predicate Clashes(config: Config, opts: Options, disk: Disk, id: string, f: Faults)
    requires Resolve(config).Ok?
  {
    var pool := Resolve(config).value;
    && f.loads
    && var got := Attempted(pool, disk, id, f);
       got.Ok? && (Plumbed(opts, pool, got.value, f) || !f.removes) && HeldUnread(disk, id, got.value, f.read)
  }

  /** An assigned address is assignable and held in no other file that was read. */
  lemma AssignedIsFree(pool: Pool, disk: Disk, id: string, read: set<string>)
    requires Sound(pool, disk) && Assigned(pool, Seen(disk, read), id).Some?
    ensures var ip := Assigned(pool, Seen(disk, read), id).value;
            && pool.IsAssignable(ip)
            && forall other :: other in disk && other != id && other in read ==> disk[other] != ip
  {
    var seen := Seen(disk, read);
    if id !in seen {
      forall other | other in disk && other in read ensures disk[other] in seen.Values {
        assert seen[other] == disk[other];
      }
    }
  }

  /** An ADD keeps the addresses distinct and assignable exactly if it does not leave the container
      an address that the unread file of another holds. */
  lemma AddKeepsSoundExactly(config: Config, opts: Options, disk: Disk, id: string, f: Faults)
    requires Resolve(config).Ok? && Sound(Resolve(config).value, disk)
    ensures Sound(Resolve(config).value, DiskAfterAdd(config, opts, disk, id, f))
            <==> !Clashes(config, opts, disk, id, f)
  {
    var pool := Resolve(config).value;
    var got, after := Attempted(pool, disk, id, f), DiskAfterAdd(config, opts, disk, id, f);
    if f.loads && got.Ok? && (Plumbed(opts, pool, got.value, f) || !f.removes) {
      AssignedIsFree(pool, disk, id, f.read);
      assert after == disk[id := got.value];
      if HeldUnread(disk, id, got.value, f.read) {
        var other :| other in disk && other != id && other !in f.read && disk[other] == got.value;
        assert after[other] == after[id];
      }
    }
  }

  /** An ADD that succeeds leaves the container exactly the address it returned: the one its file
      held if that was read, else one no file read holds, the least free one of a range that does
      not run backwards. No other container changes. */
  lemma SuccessfulAdd(config: Config, opts: Options, disk: Disk, id: string, f: Faults)
    requires Resolve(config).Ok? && Sound(Resolve(config).value, disk)
    requires AddResult(config, opts, disk, id, f).Ok?
    ensures var pool := Resolve(config).value; var ip := AddResult(config, opts, disk, id, f).value;
            var after := DiskAfterAdd(config, opts, disk, id, f);
            && after == disk[id := ip]
            && (id in disk && id in f.read ==> after == disk && ip == disk[id])
            && (forall other :: other in disk && other != id && other in f.read ==> disk[other] != ip)
            && (!(id in disk && id in f.read) && pool.start <= pool.end ==>
                  LeastFree(pool, Seen(disk, f.read).Values, ip))
  {
    var pool, ip := Resolve(config).value, AddResult(config, opts, disk, id, f).value;
    AssignedIsFree(pool, disk, id, f.read);
    if pool.start <= pool.end { SearchFindsTheLeast(pool, Seen(disk, f.read).Values, ip); }
  }

  /** An ADD succeeds exactly if the configuration resolves, the disk can be listed, the container's file
      was read or there is an address to give and its file can be written, and every step of the plumbing
      works: six, one more with a gateway, and one more with masquerade and a subnet. */
  lemma AddSucceedsExactly(config: Config, opts: Options, disk: Disk, id: string, f: Faults)
    ensures var seen := Seen(disk, f.read);
            AddResult(config, opts, disk, id, f).Ok?
            <==> Resolve(config).Ok? && f.loads
                 && (id in seen || (Search(Resolve(config).value, seen.Values).Some? && f.persists))
                 && f.plumbing >= 6 + (if opts.isGateway then 1 else 0)
                                    + (if opts.ipMasq && opts.subnetText then 1 else 0)
  {
    if Resolve(config).Ok? && Attempted(Resolve(config).value, disk, id, f).Ok? {
      StepsInOrder(opts, Resolve(config).value.gateway, Attempted(Resolve(config).value, disk, id, f).value);
    }
  }

  /** A new container is given an address of its configuration, the least one that no file read holds. */
  lemma NewContainerIsServed(config: Config, opts: Options, disk: Disk, id: string, f: Faults)
    requires Resolve(config).Ok? && Forwards(config) && id !in Seen(disk, f.read)
    requires AddResult(config, opts, disk, id, f).Ok?
    ensures var ip, taken := AddResult(config, opts, disk, id, f).value, Seen(disk, f.read).Values;
            Servable(config, taken, ip) && forall j: Ip :: j < ip ==> !Servable(config, taken, j)
  {
    ServesConfigured(config, Seen(disk, f.read).Values, AddResult(config, opts, disk, id, f).value);
  }

  /** What a DEL answers, and that it only ever removes this container's file. */
  lemma DelExactly(config: Config, disk: Disk, id: string, f: Faults)
    ensures var r, after := DelResult(config, disk, id, f), DiskAfterDel(config, disk, id, f);
            && (r == None <==> Resolve(config).Ok? && f.loads && (id in disk && id in f.read ==> f.removes))
            && (Resolve(config).Err? ==> r == Some(Resolve(config).error))
            && (Resolve(config).Ok? && !f.loads ==> r == Some(LoadFailed))
            && (r == Some(RemoveFailed) ==> f.loads && id in disk && !f.removes)
            && (id in after <==> id in disk && !(r == None && id in f.read))
            && (forall other :: other != id ==>
                  (other in after <==> other in disk) && (other in after ==> after[other] == disk[other]))
            && (id in after ==> after[id] == disk[id])
  {
    ResolvesExactly(config);
  }

  /** Every way an ADD can fail, and what it leaves. Only a failed plumbing step touches the
      disk, and then a release that works leaves this container nothing, even an address it
      already had; a release that fails leaves it the address. No other container changes. */
  lemma FailedAdd(config: Config, opts: Options, disk: Disk, id: string, f: Faults)
    requires AddResult(config, opts, disk, id, f).Err?
    ensures var e := AddResult(config, opts, disk, id, f).error;
            var after := DiskAfterAdd(config, opts, disk, id, f);
            && (forall other :: other != id ==> (other in after <==> other in disk))
            && (forall other :: other != id && other in disk ==> after[other] == disk[other])
            && (e != PlumbingFailed ==> after == disk)
            && (e == PlumbingFailed ==> (id in after <==> !f.removes))
            && (e == PlumbingFailed && (id in disk ==> id in f.read) ==>
                  (after == disk <==> (id in disk) != f.removes))
  {
    var pool := Resolve(config);
    if AddResult(config, opts, disk, id, f).error == PlumbingFailed {
      var got := Attempted(pool.value, disk, id, f);
      assert got.Ok?;
      if id !in disk {
        assert disk - {id} == disk;
        assert id in disk[id := got.value];
      } else if id in f.read {
        assert disk[id := got.value] == disk;
        assert id !in disk - {id};
      }
    }
  }

  /** An exhausted range is reported exactly when the files read hold every assignable address of it. */
  lemma ExhaustedExactly(config: Config, opts: Options, disk: Disk, id: string, f: Faults)
    requires Resolve(config).Ok? && f.loads && id !in Seen(disk, f.read)
    requires Resolve(config).value.start <= Resolve(config).value.end
    ensures var pool := Resolve(config).value;
            AddResult(config, opts, disk, id, f) == Err(NoFreeIps) <==> NoneFree(pool, Seen(disk, f.read).Values)
  {
    SearchFindsTheLeast(Resolve(config).value, Seen(disk, f.read).Values, 0);
  }

  /** DEL after ADD gives the address back, the disk being as it was before the container came,
      exactly if the ADD left none or the DEL reads its file and removes it. */
  lemma DelUndoesAdd(config: Config, opts: Options, disk: Disk, id: string, add: Faults, del: Faults)
    requires id !in disk && Resolve(config).Ok?
    ensures var after := DiskAfterAdd(config, opts, disk, id, add);
            DiskAfterDel(config, after, id, del) == disk
            <==> id !in after || (del.loads && del.removes && id in del.read)
  {
    var after := DiskAfterAdd(config, opts, disk, id, add);
    assert disk - {id} == disk;
    assert after - {id} == disk;
  }

  /** A DEL answers success and yet leaves the container its address exactly if it could list the
      disk but not read the container's file. */
  lemma DelOfUnreadKeeps(config: Config, disk: Disk, id: string, f: Faults)
    requires Resolve(config).Ok? && id in disk
    ensures DelResult(config, disk, id, f) == None && id in DiskAfterDel(config, disk, id, f)
            <==> f.loads && id !in f.read
  {
    assert id !in disk - {id};
  }

  /** Under every configuration that has an address to give: while the only file cannot be read,
      the address it holds goes to the next container. */
  lemma UnreadAddressIsGivenAgain(config: Config, opts: Options, ip: Ip, a: string, b: string, f: Faults)
    requires Resolve(config).Ok? && Search(Resolve(config).value, {}) == Some(ip) && a != b
    requires f == Faults(true, {}, true, true, 8)
    ensures var disk: Disk := map[a := ip];
            && Sound(Resolve(config).value, disk)
            && AddResult(config, opts, disk, b, f) == Ok(ip)
            && !Sound(Resolve(config).value, DiskAfterAdd(config, opts, disk, b, f))
  {
    var disk: Disk := map[a := ip];
    assert Seen(disk, f.read) == map[] && Seen(disk, f.read).Values == {};
    StepsInOrder(opts, Resolve(config).value.gateway, ip);
    assert a in disk && disk[a] == ip;
    AddKeepsSoundExactly(config, opts, disk, b, f);
  }

  /** A subnet of at most 30 bits gives the address after its gateway first: 10.0.0.2 in 10.0.0.0/24. */
  lemma FirstAddress(net: Subnet, ip: Ip)
    requires net.prefixLen <= 30 && ip == net.Network() + 2
    ensures var pool := Resolve(OnlySubnet(net)); pool.Ok? && Search(pool.value, {}) == Some(ip)
  {
    WideEnough(net);
    DefaultRange(net);
    var pool := Resolve(OnlySubnet(net)).value;
    assert LeastFree(pool, {}, ip);
    SearchFindsTheLeast(pool, {}, ip);
  }

  // ---------------------------------------------------------------- runs

  datatype Command = Add(id: string, opts: Options, faults: Faults) | Del(id: string, faults: Faults)

  ghost function DiskAfter(config: Config, disk: Disk, c: Command): Disk {
    match c
    case Add(id, opts, f) => DiskAfterAdd(config, opts, disk, id, f)
    case Del(id, f) => DiskAfterDel(config, disk, id, f)
  }

  /** The addresses are distinct and assignable before and after every command. */
  ghost predicate SoundThroughout(config: Config, disk: Disk, run: seq<Command>)
    requires Resolve(config).Ok?
    decreases |run|
  {
    && Sound(Resolve(config).value, disk)
    && (run != [] ==> SoundThroughout(config, DiskAfter(config, disk, run[0]), run[1..]))
  }

  ghost predicate NeverClashes(config: Config, disk: Disk, run: seq<Command>)
    requires Resolve(config).Ok?
    decreases |run|
  {
    run != [] ==>
      && (run[0].Add? ==> !Clashes(config, run[0].opts, disk, run[0].id, run[0].faults))
      && NeverClashes(config, DiskAfter(config, disk, run[0]), run[1..])
  }

  /** Over any run of commands, failing anywhere and skipping any files, the addresses held are
      pairwise distinct and assignable throughout exactly if no ADD leaves a container an address
      that a file it did not read holds for another. */
  lemma {:induction false} RunIsSound(config: Config, disk: Disk, run: seq<Command>)
    requires Resolve(config).Ok? && Sound(Resolve(config).value, disk)
    ensures SoundThroughout(config, disk, run) <==> NeverClashes(config, disk, run)
    decreases |run|
  {
    if run != [] {
      var pool, c := Resolve(config).value, run[0];
      if c.Add? { AddKeepsSoundExactly(config, c.opts, disk, c.id, c.faults); }
      if Sound(pool, DiskAfter(config, disk, c)) {
        RunIsSound(config, DiskAfter(config, disk, c), run[1..]);
      }
    }
  }

  /** Every command that lists the disk reads all its files. */
  ghost predicate ReadsAll(config: Config, disk: Disk, run: seq<Command>)
    decreases |run|
  {
    run != [] ==>
      && disk.Keys <= run[0].faults.read
      && ReadsAll(config, DiskAfter(config, disk, run[0]), run[1..])
  }

  /** So commands that read every file keep the addresses distinct, whatever else fails. */
  lemma {:induction false} WholeReadsStaySound(config: Config, disk: Disk, run: seq<Command>)
    requires Resolve(config).Ok? && Sound(Resolve(config).value, disk) && ReadsAll(config, disk, run)
    ensures SoundThroughout(config, disk, run)
    decreases |run|
  {
    if run != [] {
      var c := run[0];
      if c.Add? { AddKeepsSoundExactly(config, c.opts, disk, c.id, c.faults); }
      WholeReadsStaySound(config, DiskAfter(config, disk, c), run[1..]);
    }
  }
}

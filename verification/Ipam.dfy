/** The host-local address allocator (pkg/cni/src/ipam.rs).

    An IPv4 address is its 32-bit value; incrementing and decrementing wrap around. */
module Ipam {
  import opened Common

  const SPACE: nat := 0x1_0000_0000

  type Ip = n: int | 0 <= n < 0x1_0000_0000

  datatype Error =
    | InvalidSubnet | InvalidRangeStart | InvalidRangeEnd | InvalidGateway
    | LoadFailed | PersistFailed | RemoveFailed | NoFreeIps | PlumbingFailed

  datatype Result<+T> = Ok(value: T) | Err(error: Error)

  function Pow2(n: nat): (p: nat)
    ensures p > 0
  {
    if n == 0 then 1 else 2 * Pow2(n - 1)
  }

  type PrefixLen = n: int | 0 <= n <= 32

  datatype Subnet = Subnet(addr: Ip, prefixLen: PrefixLen) {
    function Size(): nat { Pow2(32 - prefixLen) }
    function Network(): (n: Ip)
      ensures n <= addr
    {
      ModBelow(addr, Size());
      addr - addr % Size()
    }
    function Broadcast(): (b: Ip)
      ensures addr <= b
    {
      SubnetFits(addr, prefixLen);
      Network() + Size() - 1
    }
    predicate Contains(ip: Ip) { Network() <= ip <= Broadcast() }
  }

  lemma ModBelow(a: nat, m: nat)
    requires m > 0
    ensures 0 <= a % m <= a && a % m < m
    ensures a - a % m == a / m * m
  {
    assert a == a / m * m + a % m;
    if a % m > a {
      assert a / m * m < 0;
      MulMono(0, a / m, m);
      assert false;
    }
  }

  lemma {:induction false} Pow2Split(a: nat, b: nat)
    ensures Pow2(a) * Pow2(b) == Pow2(a + b)
  {
    if a > 0 {
      Pow2Split(a - 1, b);
      assert Pow2(a) * Pow2(b) == 2 * (Pow2(a - 1) * Pow2(b));
    } else {
      assert 1 * Pow2(b) == Pow2(b);
    }
  }

  lemma Pow2Of32()
    ensures Pow2(32) == SPACE
  {
    assert Pow2(8) == 256;
    Pow2Split(8, 8);
    Pow2Split(16, 16);
  }

  /** A subnet ends inside the address space. */
  lemma SubnetFits(addr: Ip, p: PrefixLen)
    ensures var size := Pow2(32 - p);
            addr < addr - addr % size + size <= SPACE
  {
    var size, k := Pow2(32 - p), addr / Pow2(32 - p);
    ModBelow(addr, size);
    Pow2Split(p, 32 - p);
    Pow2Of32();
    if k + 1 > Pow2(p) {
      MulMono(Pow2(p), k, size);
      assert false;
    }
    MulMono(k + 1, Pow2(p), size);
    Distribute(k, size);
  }

  lemma Distribute(k: nat, size: nat)
    ensures (k + 1) * size == k * size + size
  {
  }

  lemma MulMono(a: nat, b: nat, c: nat)
    requires a <= b
    ensures a * c <= b * c
  {
  }

  function NextIp(ip: Ip): Ip { (ip + 1) % SPACE }
  function PrevIp(ip: Ip): Ip { (ip + SPACE - 1) % SPACE }

  // ---------------------------------------------------------------- configuration

  /** A configured address: left empty, not an address, or one. */
  datatype Field = Empty | Bad | Addr(ip: Ip)

  /** `subnet` is `None` when its text is no subnet. */
  datatype Config = Config(subnet: Option<Subnet>, rangeStart: Field, rangeEnd: Field, gateway: Field)

  /** What `with_store` resolves a configuration to. */
  datatype Pool = Pool(subnet: Subnet, start: Ip, end: Ip, gateway: Ip) {
    predicate IsAssignable(ip: Ip) {
      ip != subnet.Network() && ip != subnet.Broadcast() && ip != gateway && subnet.Contains(ip)
    }
  }

  function Resolve(config: Config): Result<Pool> {
    if config.subnet.None? then Err(InvalidSubnet)
    else
      var net := config.subnet.value;
      if config.rangeStart.Bad? then Err(InvalidRangeStart)
      else if config.rangeEnd.Bad? then Err(InvalidRangeEnd)
      else if config.gateway.Bad? then Err(InvalidGateway)
      else
        Ok(Pool(net,
                if config.rangeStart.Empty? then NextIp(net.Network()) else config.rangeStart.ip,
                if config.rangeEnd.Empty? then PrevIp(net.Broadcast()) else config.rangeEnd.ip,
                if config.gateway.Empty? then NextIp(net.Network()) else config.gateway.ip))
  }

  // ---------------------------------------------------------------- the search

  ghost predicate Free(pool: Pool, taken: set<Ip>, ip: Ip) {
    pool.IsAssignable(ip) && ip !in taken
  }

  /** How many increments lead from the start of the range to its end. */
  function Span(pool: Pool): nat {
    (pool.end - pool.start) % SPACE
  }

  /** The k-th address of the range. */
  function At(pool: Pool, k: nat): Ip {
    (pool.start + k) % SPACE
  }

  /** The first free address from the k-th on. */
  ghost function SearchFrom(pool: Pool, taken: set<Ip>, k: nat): (r: Option<Ip>)
    requires k <= Span(pool)
    ensures r.Some? ==> Free(pool, taken, r.value)
    decreases Span(pool) - k
  {
    if Free(pool, taken, At(pool, k)) then Some(At(pool, k))
    else if k == Span(pool) then None
    else SearchFrom(pool, taken, k + 1)
  }

  ghost function Search(pool: Pool, taken: set<Ip>): Option<Ip> {
    SearchFrom(pool, taken, 0)
  }

  /** `ip` is the lowest free address of the range. */
  ghost predicate LeastFree(pool: Pool, taken: set<Ip>, ip: Ip) {
    && pool.start <= ip <= pool.end && Free(pool, taken, ip)
    && forall j: Ip :: pool.start <= j < ip ==> !Free(pool, taken, j)
  }

  ghost predicate NoneFree(pool: Pool, taken: set<Ip>) {
    forall j: Ip :: pool.start <= j <= pool.end ==> !Free(pool, taken, j)
  }

  lemma AtForward(pool: Pool, k: nat)
    requires pool.start <= pool.end && k <= Span(pool)
    ensures Span(pool) == pool.end - pool.start
    ensures At(pool, k) == pool.start + k
  {
  }

  lemma {:induction false} SearchFromFindsTheLeast(pool: Pool, taken: set<Ip>, k: nat)
    requires pool.start <= pool.end && k <= Span(pool)
    requires forall j: Ip :: pool.start <= j < pool.start + k ==> !Free(pool, taken, j)
    ensures var r := SearchFrom(pool, taken, k);
            if r.Some? then LeastFree(pool, taken, r.value) else NoneFree(pool, taken)
    decreases Span(pool) - k
  {
    AtForward(pool, k);
    if !Free(pool, taken, At(pool, k)) && k < Span(pool) {
      SearchFromFindsTheLeast(pool, taken, k + 1);
    }
  }

  /** On a range that does not run backwards, the search finds the least free address in it,
      and finds none exactly when there is none. */
  lemma SearchFindsTheLeast(pool: Pool, taken: set<Ip>, ip: Ip)
    requires pool.start <= pool.end
    ensures Search(pool, taken) == Some(ip) <==> LeastFree(pool, taken, ip)
    ensures Search(pool, taken) == None <==> NoneFree(pool, taken)
  {
    SearchFromFindsTheLeast(pool, taken, 0);
  }

  lemma WideEnough(net: Subnet)
    requires net.prefixLen <= 30
    ensures net.Broadcast() - net.Network() >= 3
  {
    var k := 32 - net.prefixLen;
    assert Pow2(k) == 2 * Pow2(k - 1) && Pow2(k - 1) == 2 * Pow2(k - 2);
    SubnetFits(net.addr, net.prefixLen);
  }

  function OnlySubnet(net: Subnet): Config {
    Config(Some(net), Empty, Empty, Empty)
  }

  lemma DefaultRange(net: Subnet)
    requires net.prefixLen <= 30
    ensures var pool := Resolve(OnlySubnet(net));
      && pool.Ok? && pool.value.subnet == net && pool.value.gateway == pool.value.start == net.Network() + 1
      && pool.value.end == net.Broadcast() - 1
  {
    WideEnough(net);
    NextPrev(net.Network(), net.Broadcast());
  }

  lemma NextPrev(a: Ip, b: Ip)
    requires a < b
    ensures NextIp(a) == a + 1 && PrevIp(b) == b - 1
  {
  }

  /** A configuration that names only a subnet serves every host address of it but the first,
      which is the gateway. */
  lemma DefaultPool(net: Subnet, taken: set<Ip>, ip: Ip)
    requires net.prefixLen <= 30
    ensures var pool := Resolve(OnlySubnet(net));
      && pool.Ok? && pool.value.gateway == net.Network() + 1 && pool.value.start <= pool.value.end
      && (pool.value.start <= ip <= pool.value.end && Free(pool.value, taken, ip)
          <==> net.Network() + 1 < ip < net.Broadcast() && ip !in taken)
  {
    WideEnough(net);
    DefaultRange(net);
  }

  /** The subnet is the block of 2^(32 - prefix) addresses, starting at a multiple of that, around its
      address. */
  lemma SubnetIsBlock(net: Subnet, ip: Ip)
    ensures var size := Pow2(32 - net.prefixLen);
            net.Network() == net.addr / size * size && net.Broadcast() == net.Network() + size - 1
    ensures net.Network() <= net.addr <= net.Broadcast()
    ensures net.Contains(ip) <==> net.Network() <= ip <= net.Broadcast()
  {
    ModBelow(net.addr, Pow2(32 - net.prefixLen));
  }

  /** 10.0.0.5/24 is 10.0.0.0 to 10.0.0.255. */
  lemma SubnetInput()
    ensures var net := Subnet(0x0A00_0005, 24); net.Network() == 0x0A00_0000 && net.Broadcast() == 0x0A00_00FF
  {
    assert Pow2(8) == 256;
  }

  /** A configuration fails to resolve exactly if a part of it cannot be read, and says which: the
      subnet before the range's start, its end, and the gateway. */
  lemma ResolvesExactly(config: Config)
    ensures var r := Resolve(config);
            && (r.Ok?
                <==> config.subnet.Some? && !config.rangeStart.Bad? && !config.rangeEnd.Bad? && !config.gateway.Bad?)
            && (r == Err(InvalidSubnet) <==> config.subnet.None?)
            && (r == Err(InvalidRangeStart) <==> config.subnet.Some? && config.rangeStart.Bad?)
            && (r == Err(InvalidRangeEnd) <==> config.subnet.Some? && !config.rangeStart.Bad? && config.rangeEnd.Bad?)
            && (r == Err(InvalidGateway)
                <==> config.subnet.Some? && !config.rangeStart.Bad? && !config.rangeEnd.Bad? && config.gateway.Bad?)
  {
  }

  /** An address a configuration may give: inside its range and its subnet, which it says or leaves to
      the first and last but one of the subnet; neither the network's, the broadcast nor the gateway's,
      which is the subnet's second unless it says; and not taken. */
  ghost predicate Servable(config: Config, taken: set<Ip>, ip: Ip)
    requires config.subnet.Some?
  {
    var network, broadcast := config.subnet.value.Network(), config.subnet.value.Broadcast();
    && (config.rangeStart.Addr? ==> config.rangeStart.ip <= ip)
    && (config.rangeEnd.Addr? ==> ip <= config.rangeEnd.ip)
    && network < ip < broadcast
    && ip != (if config.gateway.Addr? then config.gateway.ip else (network + 1) % 0x1_0000_0000)
    && ip !in taken
  }

  /** The range does not run backwards. */
  ghost predicate Forwards(config: Config)
    requires config.subnet.Some?
  {
    var network, broadcast := config.subnet.value.Network(), config.subnet.value.Broadcast();
    (if config.rangeStart.Addr? then config.rangeStart.ip else (network + 1) % 0x1_0000_0000)
    <= (if config.rangeEnd.Addr? then config.rangeEnd.ip else (broadcast - 1) % 0x1_0000_0000)
  }

  lemma RangeOf(config: Config)
    requires Resolve(config).Ok?
    ensures var pool, net := Resolve(config).value, config.subnet.value;
            && pool.subnet == net
            && pool.start == (if config.rangeStart.Addr? then config.rangeStart.ip else NextIp(net.Network()))
            && pool.end == (if config.rangeEnd.Addr? then config.rangeEnd.ip else PrevIp(net.Broadcast()))
            && pool.gateway == (if config.gateway.Addr? then config.gateway.ip else NextIp(net.Network()))
  {
  }

  /** Between two addresses lie those from the one's successor to the other's predecessor. */
  lemma Between(network: Ip, broadcast: Ip, ip: Ip)
    requires network < ip < broadcast
    ensures NextIp(network) <= ip <= PrevIp(broadcast)
  {
  }

  lemma FreeExactly(pool: Pool, taken: set<Ip>, ip: Ip)
    ensures Free(pool, taken, ip)
       <==> pool.subnet.Network() < ip < pool.subnet.Broadcast() && ip != pool.gateway && ip !in taken
  {
  }

  lemma ServableIsFree(config: Config, taken: set<Ip>, ip: Ip)
    requires Resolve(config).Ok? && Forwards(config)
    ensures var pool := Resolve(config).value;
            && pool.start <= pool.end
            && (Servable(config, taken, ip) <==> pool.start <= ip <= pool.end && Free(pool, taken, ip))
  {
    var network, broadcast := config.subnet.value.Network(), config.subnet.value.Broadcast();
    RangeOf(config);
    FreeExactly(Resolve(config).value, taken, ip);
    Wraps(network, broadcast);
    if network < ip < broadcast { Between(network, broadcast, ip); }
  }

  lemma Wraps(network: Ip, broadcast: Ip)
    ensures NextIp(network) == (network + 1) % 0x1_0000_0000
    ensures PrevIp(broadcast) == (broadcast - 1) % 0x1_0000_0000
  {
  }

  /** What a configuration serves: the least address it may give, or none exactly if there is none. */
  lemma ServesConfigured(config: Config, taken: set<Ip>, ip: Ip)
    requires Resolve(config).Ok? && Forwards(config)
    ensures Search(Resolve(config).value, taken) == Some(ip)
       <==> Servable(config, taken, ip) && forall j: Ip :: j < ip ==> !Servable(config, taken, j)
    ensures Search(Resolve(config).value, taken) == None <==> forall j: Ip :: !Servable(config, taken, j)
  {
    forall j: Ip
      ensures Servable(config, taken, j)
         <==> Resolve(config).value.start <= j <= Resolve(config).value.end && Free(Resolve(config).value, taken, j)
    {
      ServableIsFree(config, taken, j);
    }
    ServableIsFree(config, taken, ip);
    SearchFindsTheLeast(Resolve(config).value, taken, ip);
  }

  /** What one call of `allocate` hands out for `id`. */
  ghost function Assigned(pool: Pool, allocations: map<string, Ip>, id: string): Option<Ip> {
    if id in allocations then Some(allocations[id]) else Search(pool, allocations.Values)
  }

  /** What a load finds of the store: a file that cannot be read or holds no address is skipped. */
  ghost function Seen(files: map<string, Ip>, read: set<string>): map<string, Ip> {
    map id | id in files && id in read :: files[id]
  }

  // ---------------------------------------------------------------- the objects

  /** One file per container; an operation either happens or fails leaving all as it was. */
  class DiskStore {
    var files: map<string, Ip>

    constructor (files: map<string, Ip>)
      ensures this.files == files
    {
      this.files := files;
    }

    /** The listing works or not, its entries come in any order, and those outside `read` are skipped. */
    method Load(works: bool, read: set<string>) returns (r: Result<map<string, Ip>>)
      ensures r == if works then Ok(Seen(files, read)) else Err(LoadFailed)
    {
      if !works { return Err(LoadFailed); }
      var out: map<string, Ip>, rest := map[], files.Keys;
      while rest != {}
        invariant rest <= files.Keys
        invariant out == Seen(files, read * (files.Keys - rest))
      {
        var id :| id in rest;
        rest := rest - {id};
        if id in read {
          out := out[id := files[id]];
        }
      }
      assert out == Seen(files, read);
      return Ok(out);
    }

    method Persist(id: string, ip: Ip, works: bool) returns (ok: bool)
      modifies this
      ensures ok == works
      ensures files == if ok then old(files)[id := ip] else old(files)
    {
      if works { files := files[id := ip]; }
      return works;
    }

    /** Idempotent: a file that is not there cannot fail to go. */
    method Remove(id: string, works: bool) returns (ok: bool)
      modifies this
      ensures ok == (works || id !in old(files))
      ensures files == if ok then old(files) - {id} else old(files)
    {
      if id in files {
        if !works { return false; }
        files := files - {id};
      }
      return true;
    }
  }

  class HostLocalIpam {
    const pool: Pool
    const store: DiskStore
    var allocations: map<string, Ip>

    /** Seeded with what was loaded from the store. */
    constructor (pool: Pool, store: DiskStore, loaded: map<string, Ip>)
      ensures this.pool == pool && this.store == store && allocations == loaded
    {
      this.pool := pool;
      this.store := store;
      this.allocations := loaded;
    }

    method Allocate(id: string, persistWorks: bool) returns (r: Result<Ip>)
      modifies this, store
      ensures var ip := Assigned(pool, old(allocations), id);
              if ip.None? then
                r == Err(NoFreeIps) && allocations == old(allocations) && store.files == old(store.files)
              else if id in old(allocations) then
                r == Ok(ip.value) && allocations == old(allocations) && store.files == old(store.files)
              else
                && allocations == old(allocations)[id := ip.value]
                && r == (if persistWorks then Ok(ip.value) else Err(PersistFailed))
                && store.files == (if persistWorks then old(store.files)[id := ip.value] else old(store.files))
    {
      if id in allocations {
        return Ok(allocations[id]);
      }
      var taken := allocations.Values;
      var ip := pool.start;
      ghost var k := 0;
      while true
        invariant 0 <= k <= Span(pool) && ip == At(pool, k)
        invariant Search(pool, taken) == SearchFrom(pool, taken, k)
        invariant allocations == old(allocations) && store.files == old(store.files)
        decreases Span(pool) - k
      {
        if pool.IsAssignable(ip) && ip !in taken {
          allocations := allocations[id := ip];
          var ok := store.Persist(id, ip, persistWorks);
          return if ok then Ok(ip) else Err(PersistFailed);
        }
        EndIsLast(pool, k);
        if ip == pool.end { break; }
        ip := NextIp(ip);
        k := k + 1;
      }
      return Err(NoFreeIps);
    }

    method Release(id: string, removeWorks: bool) returns (ok: bool)
      modifies this, store
      ensures allocations == old(allocations) - {id}
      ensures if id in old(allocations) then
                && ok == (removeWorks || id !in old(store.files))
                && store.files == (if ok then old(store.files) - {id} else old(store.files))
              else ok && store.files == old(store.files)
    {
      if id in allocations {
        allocations := allocations - {id};
        ok := store.Remove(id, removeWorks);
        return;
      }
      return true;
    }
  }

  /** The search stops exactly at the end of the range. */
  lemma EndIsLast(pool: Pool, k: nat)
    requires k <= Span(pool)
    ensures At(pool, k) == pool.end <==> k == Span(pool)
    ensures NextIp(At(pool, k)) == At(pool, k + 1)
  {
    if pool.end >= pool.start {
      assert Span(pool) == pool.end - pool.start;
    } else {
      assert Span(pool) == pool.end - pool.start + SPACE;
    }
  }
}

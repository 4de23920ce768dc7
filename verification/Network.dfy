/** First-fit allocation of point-to-point /30 blocks from the guest subnet, over 32-bit addresses. */
module Network {

  const W: nat := 0x1_0000_0000

  type Addr = a: int | 0 <= a < W

  // netip.ParseAddr of a recorded guest IP.
  datatype Parsed = NotAnIP | V6 | V4(addr: Addr)

  type Bits = b: int | 0 <= b <= 32

  // netip.ParsePrefix of the configured guest subnet.
  datatype Subnet = BadPrefix | NotV4 | Prefix4(addr: Addr, bits: Bits)

  datatype GuestNet = GuestNet(tap: string, hostIP: Addr, guestIP: Addr, prefixLen: nat, gateway: Addr, dns: string)

  datatype AllocError = BadSubnet | SubnetNotIPv4 | PoolExhausted

  datatype Allocation = Allocated(net: GuestNet) | Refused(error: AllocError)

  const PREFIX_LEN: nat := 30

  function Pow2(n: nat): (r: nat)
    ensures r > 0
  {
    if n == 0 then 1 else 2 * Pow2(n - 1)
  }

  function Size(bits: Bits): (r: nat)
    ensures r > 0
  {
    Pow2(32 - bits)
  }

  lemma ModAtMost(a: nat, size: nat)
    requires size > 0
    ensures 0 <= a % size <= a
  {
    if a < size { ModUnique(a, size, 0, a); }
  }

  function Masked(addr: Addr, bits: Bits): Addr {
    ModAtMost(addr, Size(bits));
    addr - addr % Size(bits)
  }

  predicate Contains(pool: Addr, bits: Bits, a: Addr) {
    Masked(a, bits) == pool
  }

  // uint32 addition wraps.
  function AddrAdd(a: Addr, n: nat): Addr {
    (a + n) % W
  }

  // ---- the specification: blocks of the pool in address order ----

  // How many /30 blocks fit.
  function Blocks(bits: Bits): nat {
    if bits <= 30 then Pow2(30 - bits) else 0
  }

  function Base(pool: nat, k: nat): nat { pool + 4 * k }

  function NetAt(pool: Addr, k: nat, tap: string, dns: string): GuestNet
    requires Base(pool, k) + 4 <= W
  {
    var b := Base(pool, k);
    GuestNet(tap, b + 1, b + 2, PREFIX_LEN, b + 1, dns)
  }

  ghost predicate Used(pool: Addr, k: nat, inUse: seq<Parsed>) {
    Base(pool, k) + 2 < W && V4(Base(pool, k) + 2) in inUse
  }

  ghost predicate AllUsed(pool: Addr, n: nat, inUse: seq<Parsed>) {
    forall j :: 0 <= j < n ==> Used(pool, j, inUse)
  }

  ghost predicate FirstFree(pool: Addr, bits: Bits, inUse: seq<Parsed>, k: nat) {
    && k < Blocks(bits)
    && Base(pool, k) + 4 <= W
    && !Used(pool, k, inUse)
    && AllUsed(pool, k, inUse)
  }

  // ---- arithmetic of pools ----

  lemma {:induction false} Pow2Add(a: nat, b: nat)
    ensures Pow2(a + b) == Pow2(a) * Pow2(b)
  {
    if a != 0 { Pow2Add(a - 1, b); }
  }

  lemma Pow2Of32()
    ensures Pow2(32) == W && Pow2(0) == 1 && Pow2(1) == 2 && Pow2(2) == 4
  {
    assert Pow2(8) == 256;
    Pow2Add(8, 8);
    Pow2Add(16, 16);
  }

  lemma MulMonotone(a: nat, b: nat, c: nat)
    requires a <= b
    ensures a * c <= b * c
  {
    assert b * c == a * c + (b - a) * c;
  }

  lemma NextMultiple(q: nat, size: nat, count: nat)
    requires q * size < size * count
    ensures q * size + size <= size * count
  {
    if q >= count { MulMonotone(count, q, size); }
    MulMonotone(q + 1, count, size);
  }

  lemma PoolSizes(bits: Bits)
    ensures bits >= 1 ==> Size(bits) < W
    ensures bits <= 30 ==> Size(bits) == 4 * Blocks(bits)
    ensures bits > 30 ==> Size(bits) <= 2 && Blocks(bits) == 0
    ensures bits == 0 ==> Blocks(bits) == Pow2(30)
    ensures Size(bits) * Pow2(bits) == W
  {
    Pow2Of32();
    Pow2Add(32 - bits, bits);
    if bits <= 30 { Pow2Add(2, 30 - bits); }
    if bits >= 1 { Pow2Monotone(31, 32 - bits); }
  }

  // A pool is aligned and ends inside the address space.
  lemma PoolFits(addr: Addr, bits: Bits)
    ensures var pool := Masked(addr, bits);
      pool % Size(bits) == 0 && pool + Size(bits) <= W
  {
    PoolSizes(bits);
    hide Pow2, Size;
    var size := Size(bits);
    var q := addr / size;
    assert Masked(addr, bits) == q * size;
    NextMultiple(q, size, Pow2(bits));
    MultipleMod(q, size);
  }

  lemma {:induction false} Pow2Monotone(big: nat, small: nat)
    requires small <= big
    ensures Pow2(small) <= Pow2(big) < Pow2(big + 1)
  {
    if small < big { Pow2Monotone(big - 1, small); }
  }

  lemma MultipleMod(q: nat, size: nat)
    requires size > 0
    ensures q * size % size == 0
  {
    assert q * size == size * q + 0;
    ModUnique(q * size, size, q, 0);
  }

  lemma ModUnique(a: nat, size: nat, q: nat, r: nat)
    requires a == size * q + r && r < size
    ensures a / size == q && a % size == r
  {
    var q', r' := a / size, a % size;
    assert a == size * q' + r';
    if q' > q { MulMonotone(q + 1, q', size); }
    if q' < q { MulMonotone(q' + 1, q, size); }
  }

  // Membership in a pool is a range of addresses.
  lemma ContainsRange(pool: Addr, bits: Bits, a: Addr)
    requires pool % Size(bits) == 0
    ensures Contains(pool, bits, a) <==> pool <= a < pool + Size(bits)
  {
    var size := Size(bits);
    var q := pool / size;
    if pool <= a < pool + size {
      ModUnique(a, size, q, a - pool);
    }
  }

  // k used blocks need k records.
  lemma {:induction false} Pigeonhole(pool: Addr, k: nat, inUse: seq<Parsed>)
    requires AllUsed(pool, k, inUse)
    ensures k <= |inUse|
    decreases k
  {
    if k > 0 {
      assert Used(pool, k - 1, inUse);
      var last := V4(Base(pool, k - 1) + 2);
      var i :| 0 <= i < |inUse| && inUse[i] == last;
      var rest := inUse[..i] + inUse[i + 1..];
      forall j | 0 <= j < k - 1 ensures Used(pool, j, rest) {
        assert Used(pool, j, inUse);
        var x :| 0 <= x < |inUse| && inUse[x] == V4(Base(pool, j) + 2);
        assert x != i;
        assert rest[if x < i then x else x - 1] == inUse[x];
      }
      Pigeonhole(pool, k - 1, rest);
    }
  }

  // One iteration's view: below the block count the block lies in the pool and does not wrap; at the
  // block count the search leaves the pool, even when the next base wraps to zero.
  lemma BlockBounds(pool: Addr, bits: Bits, addr: Addr, k: nat)
    requires pool == Masked(addr, bits) && k <= Blocks(bits)
    ensures k < Blocks(bits) ==>
      Base(pool, k) + 4 <= W && Contains(pool, bits, Base(pool, k)) && Contains(pool, bits, Base(pool, k) + 3)
    ensures k == Blocks(bits) && bits > 0 ==>
      var b := Base(pool, k) % W; !Contains(pool, bits, b) || !Contains(pool, bits, AddrAdd(b, 3))
  {
    PoolFits(addr, bits);
    PoolSizes(bits);
    hide Pow2, Masked, Size, Blocks, Contains;
    if k < Blocks(bits) {
      ContainsRange(pool, bits, Base(pool, k));
      ContainsRange(pool, bits, Base(pool, k) + 3);
    } else if bits > 0 {
      var b := Base(pool, k) % W;
      assert Base(pool, k) <= W;
      ContainsRange(pool, bits, b);
      ContainsRange(pool, bits, AddrAdd(b, 3));
    }
  }

  method UsedAddresses(inUse: seq<Parsed>) returns (used: set<Addr>)
    ensures forall a: Addr :: a in used <==> V4(a) in inUse
  {
    used := {};
    for i := 0 to |inUse|
      invariant forall a: Addr :: a in used <==> V4(a) in inUse[..i]
    {
      assert inUse[..i + 1] == inUse[..i] + [inUse[i]];
      if inUse[i].V4? { used := used + {inUse[i].addr}; }
    }
    assert inUse[..|inUse|] == inUse;
  }

  lemma OneMoreUsed(pool: Addr, k: nat, inUse: seq<Parsed>)
    requires AllUsed(pool, k, inUse) && Used(pool, k, inUse)
    ensures AllUsed(pool, k + 1, inUse)
  {}

  lemma FreeMeansNotAllUsed(pool: Addr, bits: Bits, inUse: seq<Parsed>, k: nat)
    requires FirstFree(pool, bits, inUse, k)
    ensures !AllUsed(pool, Blocks(bits), inUse)
  {}

  lemma {:induction false} SomeFree(pool: Addr, bits: Bits, inUse: seq<Parsed>, k: nat)
    requires forall j :: 0 <= j < Blocks(bits) ==> Base(pool, j) + 4 <= W
    requires k <= Blocks(bits) && AllUsed(pool, k, inUse) && !AllUsed(pool, Blocks(bits), inUse)
    ensures exists f :: FirstFree(pool, bits, inUse, f)
    decreases Blocks(bits) - k
  {
    if k < Blocks(bits) {
      if Used(pool, k, inUse) { SomeFree(pool, bits, inUse, k + 1); } else { assert FirstFree(pool, bits, inUse, k); }
    }
  }

  lemma SomeBlockIsFree(addr: Addr, bits: Bits, inUse: seq<Parsed>)
    requires !AllUsed(Masked(addr, bits), Blocks(bits), inUse)
    ensures exists f :: FirstFree(Masked(addr, bits), bits, inUse, f)
  {
    var pool := Masked(addr, bits);
    forall j | 0 <= j < Blocks(bits) ensures Base(pool, j) + 4 <= W { BlockBounds(pool, bits, addr, j); }
    hide Blocks, Masked;
    SomeFree(pool, bits, inUse, 0);
  }

  // The allocation the search must return: the least free block, or an error.
  ghost function FirstFit(tap: string, subnet: Subnet, dns: string, inUse: seq<Parsed>): Allocation {
    match subnet
    case BadPrefix => Refused(BadSubnet)
    case NotV4 => Refused(SubnetNotIPv4)
    case Prefix4(addr, bits) =>
      var pool := Masked(addr, bits);
      if AllUsed(pool, Blocks(bits), inUse) then Refused(PoolExhausted)
      else
        SomeBlockIsFree(addr, bits, inUse);
        var k :| FirstFree(pool, bits, inUse, k);
        Allocated(NetAt(pool, k, tap, dns))
  }

  lemma FirstFreeIsUnique(pool: Addr, bits: Bits, inUse: seq<Parsed>, i: nat, j: nat)
    requires FirstFree(pool, bits, inUse, i) && FirstFree(pool, bits, inUse, j)
    ensures i == j
  {}

  lemma FreeBlockIsFirstFit(tap: string, subnet: Subnet, dns: string, inUse: seq<Parsed>, k: nat)
    requires subnet.Prefix4? && k < Blocks(subnet.bits) && Base(Masked(subnet.addr, subnet.bits), k) + 4 <= W
    requires !Used(Masked(subnet.addr, subnet.bits), k, inUse) && AllUsed(Masked(subnet.addr, subnet.bits), k, inUse)
    ensures FirstFree(Masked(subnet.addr, subnet.bits), subnet.bits, inUse, k)
    ensures !AllUsed(Masked(subnet.addr, subnet.bits), Blocks(subnet.bits), inUse)
    ensures FirstFit(tap, subnet, dns, inUse) == Allocated(NetAt(Masked(subnet.addr, subnet.bits), k, tap, dns))
  {
    hide Masked, Blocks, AllUsed, Used;
    FreeMeansNotAllUsed(Masked(subnet.addr, subnet.bits), subnet.bits, inUse, k);
    FirstFitIs(tap, subnet, dns, inUse, k);
  }

  lemma FirstFitIs(tap: string, subnet: Subnet, dns: string, inUse: seq<Parsed>, k: nat)
    requires subnet.Prefix4? && FirstFree(Masked(subnet.addr, subnet.bits), subnet.bits, inUse, k)
    ensures FirstFit(tap, subnet, dns, inUse) == Allocated(NetAt(Masked(subnet.addr, subnet.bits), k, tap, dns))
  {
    var pool, bits := Masked(subnet.addr, subnet.bits), subnet.bits;
    FreeMeansNotAllUsed(pool, bits, inUse, k);
    forall i | FirstFree(pool, bits, inUse, i) ensures i == k { FirstFreeIsUnique(pool, bits, inUse, i, k); }
    hide Masked, Blocks, FirstFree, AllUsed;
  }

  // The addresses of a block that ends inside the address space.
  lemma BlockAddresses(pool: Addr, k: nat)
    requires Base(pool, k) + 4 <= W
    ensures var b := Base(pool, k);
      && b % W == b && AddrAdd(b, 1) == b + 1 && AddrAdd(b, 2) == b + 2 && AddrAdd(b, 3) == b + 3
      && AddrAdd(b, 4) == Base(pool, k + 1) % W
  {
    var b: Addr := Base(pool, k);
    SmallSum(b, 0);
    SmallSum(b, 1);
    SmallSum(b, 2);
    SmallSum(b, 3);
    assert Base(pool, k + 1) == b + 4;
    assert AddrAdd(b, 4) == (b + 4) % W;
    hide AddrAdd, Base;
  }

  lemma SmallSum(a: Addr, n: nat)
    requires a + n < W
    ensures AddrAdd(a, n) == a + n && (a + n) % W == a + n
  {}

  // The k-th base address the search tries.
  function BaseAt(pool: Addr, k: nat): Addr { Base(pool, k) % W }

  // It lies in the pool and its block is used, so the search goes on to the next.
  ghost predicate GoesOn(pool: Addr, bits: Bits, inUse: seq<Parsed>, k: nat) {
    var base := BaseAt(pool, k);
    Contains(pool, bits, base) && Contains(pool, bits, AddrAdd(base, 3)) && V4(AddrAdd(base, 2)) in inUse
  }

  lemma WholeSpace(addr: Addr, a: Addr)
    ensures Masked(addr, 0) == 0 && Contains(0, 0, a)
  {
    Pow2Of32();
    ModUnique(addr, W, 0, addr);
    ModUnique(a, W, 0, a);
  }

  // In the whole address space the search comes round: its k-th try is block k modulo their number.
  function Turn(k: nat): nat { k % Blocks(0) }

  lemma TurnsRound(k: nat)
    ensures Turn(k) < Blocks(0) && (k < Blocks(0) ==> Turn(k) == k)
    ensures BaseAt(0, k) == Base(0, Turn(k)) && Base(0, Turn(k)) + 4 <= W
  {
    PoolSizes(0);
    Pow2Of32();
    var n := Blocks(0);
    hide Blocks, Pow2, Size;
    var q, r := k / n, k % n;
    assert k == n * q + r;
    assert 4 * (n * q) == W * q by { assert 4 * n == W; }
    ModUnique(4 * k, W, q, 4 * r);
    if k < n { ModUnique(k, n, 0, k); }
  }

  lemma NoWrap(a: Addr, n: nat)
    requires a + n < W
    ensures AddrAdd(a, n) == a + n
  {}

  lemma GoesOnWhenUsed(inUse: seq<Parsed>, k: nat)
    ensures GoesOn(0, 0, inUse, k) <==> Used(0, Turn(k), inUse)
  {
    hide Contains, Blocks, AddrAdd, BaseAt, Turn, Masked, Size, Pow2;
    TurnsRound(k);
    var b: Addr := Base(0, Turn(k));
    NoWrap(b, 2);
    NoWrap(b, 3);
    WholeSpace(0, b);
    WholeSpace(0, b + 3);
    assert GoesOn(0, 0, inUse, k) <==> V4(b + 2) in inUse;
  }

  lemma EndsAfterLast(addr: Addr, bits: Bits, inUse: seq<Parsed>)
    requires bits > 0
    ensures !GoesOn(Masked(addr, bits), bits, inUse, Blocks(bits))
  {
    hide Masked, Size, Pow2, Blocks, Contains, AddrAdd;
    BlockBounds(Masked(addr, bits), bits, addr, Blocks(bits));
  }

  // The search never ends if and only if the pool is the whole address space and its every block is used.
  lemma EndlessExactly(addr: Addr, bits: Bits, inUse: seq<Parsed>)
    ensures var pool := Masked(addr, bits);
      (forall k: nat :: GoesOn(pool, bits, inUse, k)) <==> bits == 0 && AllUsed(pool, Blocks(bits), inUse)
  {
    hide Used, Masked, Size, Pow2, Blocks, Contains, Turn, BaseAt, AddrAdd;
    var pool, n := Masked(addr, bits), Blocks(bits);
    if bits > 0 {
      EndsAfterLast(addr, bits, inUse);
    } else {
      WholeSpace(addr, 0);
      hide GoesOn;
      forall k: nat
        ensures Turn(k) < n && (k < n ==> Turn(k) == k) && (GoesOn(0, 0, inUse, k) <==> Used(0, Turn(k), inUse))
      {
        TurnsRound(k);
        GoesOnWhenUsed(inUse, k);
      }
      if forall k: nat :: GoesOn(0, 0, inUse, k) {
        forall j | 0 <= j < n ensures Used(0, j, inUse) { assert GoesOn(0, 0, inUse, j); }
      }
    }
  }

  // A guest's network: a /30 whose two usable addresses are the host's, which is the gateway, and the
  // guest's.
  predicate PointToPoint(net: GuestNet, tap: string, dns: string) {
    && net.prefixLen == 30 && net.gateway == net.hostIP
    && net.hostIP % 4 == 1 && net.guestIP == net.hostIP + 1
    && net.tap == tap && net.dns == dns
  }

  lemma NetIsPointToPoint(addr: Addr, bits: Bits, k: nat, tap: string, dns: string)
    requires k < Blocks(bits) && Base(Masked(addr, bits), k) + 4 <= W
    ensures PointToPoint(NetAt(Masked(addr, bits), k, tap, dns), tap, dns)
  {
    PoolFits(addr, bits);
    PoolSizes(bits);
    hide Pow2, Masked, Size, Blocks;
    var pool, size := Masked(addr, bits), Size(bits);
    var q := pool / size;
    assert pool == 4 * (Blocks(bits) * q) by { assert pool == size * q; }
    ModUnique(pool + 4 * k + 1, 4, Blocks(bits) * q + k, 1);
  }

  /** Picks the first free block. The precondition excludes exactly the inputs on which the search never
      ends (see EndlessExactly). */
  method Allocate(tap: string, subnet: Subnet, dns: string, inUse: seq<Parsed>) returns (r: Allocation)
    requires subnet.Prefix4? && subnet.bits == 0 ==> !AllUsed(Masked(subnet.addr, 0), Blocks(0), inUse)
    ensures r == FirstFit(tap, subnet, dns, inUse)
    ensures r.Allocated? ==> subnet.Prefix4?
    ensures r.Allocated? ==>
      var pool := Masked(subnet.addr, subnet.bits);
      exists k :: FirstFree(pool, subnet.bits, inUse, k) && r.net == NetAt(pool, k, tap, dns)
    ensures r.Allocated? ==> PointToPoint(r.net, tap, dns)
    ensures r == Refused(PoolExhausted) <==>
            subnet.Prefix4? && AllUsed(Masked(subnet.addr, subnet.bits), Blocks(subnet.bits), inUse)
  {
    hide Masked, Contains, Size, Blocks, Pow2, AllUsed, FirstFree, AddrAdd, PointToPoint;
    if subnet.BadPrefix? { return Refused(BadSubnet); }
    if subnet.NotV4? { return Refused(SubnetNotIPv4); }
    var bits := subnet.bits;
    var pool := Masked(subnet.addr, bits);
    var used := UsedAddresses(inUse);
    var base := pool;
    ghost var k := 0;
    assert AllUsed(pool, 0, inUse) by { NoneUsed(pool, inUse); }
    PoolSizes(bits);
    while true
      invariant k <= Blocks(bits) && base == Base(pool, k) % W && AllUsed(pool, k, inUse)
      decreases Blocks(bits) - k
    {
      BlockBounds(pool, bits, subnet.addr, k);
      if k < Blocks(bits) { BlockAddresses(pool, k); }
      var host := AddrAdd(base, 1);
      var guest := AddrAdd(base, 2);
      var bcast := AddrAdd(base, 3);
      if !Contains(pool, bits, base) || !Contains(pool, bits, bcast) {
        return Refused(PoolExhausted);
      }
      if guest !in used {
        FreeBlockIsFirstFit(tap, subnet, dns, inUse, k);
        NetIsPointToPoint(subnet.addr, bits, k, tap, dns);
        return Allocated(GuestNet(tap, host, guest, PREFIX_LEN, host, dns));
      }
      OneMoreUsed(pool, k, inUse);
      base := AddrAdd(base, 4);
      k := k + 1;
    }
  }

  lemma NoneUsed(pool: Addr, inUse: seq<Parsed>)
    ensures AllUsed(pool, 0, inUse)
  {}

  // ---- what first fit gives ----

  // The index of the block handed out is at most the number of records in use.
  lemma IndexIsBounded(pool: Addr, bits: Bits, inUse: seq<Parsed>, k: nat)
    requires FirstFree(pool, bits, inUse, k)
    ensures k <= |inUse|
  {
    Pigeonhole(pool, k, inUse);
  }

  // A pool with more blocks than records always has one free.
  lemma RoomMeansFree(pool: Addr, bits: Bits, inUse: seq<Parsed>)
    requires |inUse| < Blocks(bits)
    ensures !AllUsed(pool, Blocks(bits), inUse)
  {
    if AllUsed(pool, Blocks(bits), inUse) { Pigeonhole(pool, Blocks(bits), inUse); }
  }

  const DEFAULT_SUBNET: Subnet := Prefix4(0xAC10_0000, 12)   // 172.16.0.0/12
  const HOST_ANCHOR: Addr := 0xAC1F_0001                     // 172.31.0.1
  const DEFAULT_MAX_VMS: nat := 8

  // Within capacity, the default subnet's anchor address lies in no block handed out, although it lies
  // in the subnet: the first fit stays far below it.
  lemma AnchorIsNeverHandedOut(inUse: seq<Parsed>, k: nat)
    requires |inUse| < DEFAULT_MAX_VMS
    requires FirstFree(Masked(DEFAULT_SUBNET.addr, DEFAULT_SUBNET.bits), DEFAULT_SUBNET.bits, inUse, k)
    ensures Contains(Masked(DEFAULT_SUBNET.addr, DEFAULT_SUBNET.bits), DEFAULT_SUBNET.bits, HOST_ANCHOR)
    ensures Base(Masked(DEFAULT_SUBNET.addr, DEFAULT_SUBNET.bits), k) + 3 < HOST_ANCHOR
  {
    IndexIsBounded(Masked(DEFAULT_SUBNET.addr, DEFAULT_SUBNET.bits), DEFAULT_SUBNET.bits, inUse, k);
    assert Pow2(10) == 1024;
    Pow2Add(10, 10);
    assert Size(12) == 0x10_0000;
  }
}

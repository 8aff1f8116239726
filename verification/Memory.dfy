/**
 Buffer memory that sockets really hold, counted from the sockets themselves: what the
 budget bounds although it does not charge for pooled sockets and charges less than
 a UDP socket allocates. `meta` is the size of one packet metadata slot.
 */
module Memory {
  import opened Types
  import opened Counting
  import opened Ops
  import opened Invariant
  import opened Runs
  import opened Guarantees

  ghost function TcpSockets(slot: Slot): set<Handle> {
    set h | h in slot.sockets && slot.sockets[h].TcpSock?
  }

  ghost function UdpSockets(slot: Slot): set<Handle> {
    set h | h in slot.sockets && slot.sockets[h].UdpSock?
  }

  /** What a UDP socket allocates: for each direction a payload region and one metadata slot per packet. */
  ghost function UdpMemory(cfg: Config, mtu: nat, meta: nat): nat {
    2 * UdpPayload(cfg, mtu) + 2 * (Max(cfg.udpBufferPackets, 1) * meta)
  }

  /** Both regions of every TCP socket, live or pooled, and all of every UDP socket. */
  ghost function SlotMemory(cfg: Config, slot: Slot, meta: nat): nat {
    Times(|TcpSockets(slot)| + |slot.pool|, 2 * slot.bufferSize) +
      Times(|UdpSockets(slot)|, UdpMemory(cfg, slot.mtu, meta))
  }

  ghost function MemoryOn(s: State, ids: seq<InterfaceId>, meta: nat): nat
    requires forall id :: id in ids ==> id in s.slots
    decreases |ids|
  {
    if ids == [] then 0 else SlotMemory(s.cfg, s.slots[ids[0]], meta) + MemoryOn(s, ids[1..], meta)
  }

  /** The buffer memory of all sockets of all interfaces. */
  ghost function RealMemory(s: State, meta: nat): nat
    requires Mapped(s)
  {
    MemoryOn(s, s.cfg.ifaces, meta)
  }

  lemma {:induction false} TimesAdd(a: nat, b: nat, c: nat)
    ensures Times(a + b, c) == Times(a, c) + Times(b, c)
  {
    if b > 0 {
      TimesAdd(a, b - 1, c);
    }
  }

  lemma {:induction false} TimesNothing(n: nat)
    ensures Times(n, 0) == 0
  {
    if n > 0 {
      TimesNothing(n - 1);
    }
  }

  lemma {:induction false} TimesScale(n: nat, c: nat, d: nat, m: nat)
    requires c <= m * d
    ensures Times(n, c) <= m * Times(n, d)
  {
    if n > 0 {
      TimesScale(n - 1, c, d, m);
      assert m * (Times(n - 1, d) + d) == m * Times(n - 1, d) + m * d;
    }
  }

  // ---- Sockets per table entry ----

  ghost function TcpOn(s: State, ids: seq<InterfaceId>): set<SessionKey> {
    set k | k in s.tcp && k.iface in ids
  }

  ghost function DstsOn(s: State, ids: seq<InterfaceId>): set<DstKey> {
    set d | d in s.dsts && d.iface in ids
  }

  ghost function Pooled(s: State, ids: seq<InterfaceId>): nat
    requires forall id :: id in ids ==> id in s.slots
    decreases |ids|
  {
    if ids == [] then 0 else |s.slots[ids[0]].pool| + Pooled(s, ids[1..])
  }

  /** Live and pooled TCP sockets of some interfaces. */
  ghost function Held(s: State, ids: seq<InterfaceId>): nat
    requires forall id :: id in ids ==> id in s.slots
  {
    |TcpOn(s, ids)| + Pooled(s, ids)
  }

  lemma TcpOnOne(s: State, id: InterfaceId)
    requires id in s.slots
    ensures TcpOn(s, [id]) == set k | k in s.tcp && k.iface == id
    ensures Held(s, [id]) == HeldTcp(s, id)
  {
    assert TcpOn(s, [id]) == set k | k in s.tcp && k.iface == id;
    assert Pooled(s, [id]) == |s.slots[id].pool| + Pooled(s, [id][1..]);
  }

  lemma SocketKinds(slot: Slot, tcps: set<Handle>, udps: set<Handle>)
    requires slot.sockets.Keys == tcps + udps
    requires forall h :: h in tcps ==> h in slot.sockets && slot.sockets[h].TcpSock?
    requires forall h :: h in udps ==> h in slot.sockets && slot.sockets[h].UdpSock?
    ensures TcpSockets(slot) == tcps && UdpSockets(slot) == udps
  {
  }

  lemma SocketSets(s: State, id: InterfaceId)
    requires TcpOwned(s.slots, s.tcp) && DstOwned(s.slots, s.dsts) && NoLeak(s.slots, s.tcp, s.dsts) && id in s.slots
    ensures TcpSockets(s.slots[id]) == TcpHandles(s, id) && UdpSockets(s.slots[id]) == UdpHandles(s, id)
  {
    TcpSocketsOwned(s, id);
    UdpSocketsOwned(s, id);
    AllSocketsOwned(s, id);
    SocketKinds(s.slots[id], TcpHandles(s, id), UdpHandles(s, id));
  }

  lemma TcpSocketCount(s: State, id: InterfaceId)
    requires TcpOwned(s.slots, s.tcp) && id in s.slots && TcpSockets(s.slots[id]) == TcpHandles(s, id)
    ensures |TcpSockets(s.slots[id])| + |s.slots[id].pool| == Held(s, [id])
  {
    TcpSocketsOwned(s, id);
    TcpOnOne(s, id);
  }

  lemma UdpSocketCount(s: State, id: InterfaceId)
    requires DstOwned(s.slots, s.dsts) && id in s.slots && UdpSockets(s.slots[id]) == UdpHandles(s, id)
    ensures |UdpSockets(s.slots[id])| == |DstsOn(s, [id])|
  {
    UdpSocketsOwned(s, id);
    assert DstsOn(s, [id]) == set d | d in s.dsts && d.iface == id;
  }

  lemma HeldSplit(s: State, ids: seq<InterfaceId>)
    requires ids != [] && NoDup(ids) && forall id :: id in ids ==> id in s.slots
    ensures Held(s, ids) == Held(s, [ids[0]]) + Held(s, ids[1..])
  {
    assert ids[0] !in ids[1..];
    assert TcpOn(s, ids) == TcpOn(s, [ids[0]]) + TcpOn(s, ids[1..]) && TcpOn(s, [ids[0]]) !! TcpOn(s, ids[1..]);
    assert Pooled(s, [ids[0]]) == |s.slots[ids[0]].pool| + Pooled(s, [ids[0]][1..]);
  }

  lemma DstsSplit(s: State, ids: seq<InterfaceId>)
    requires ids != [] && NoDup(ids)
    ensures |DstsOn(s, ids)| == |DstsOn(s, [ids[0]])| + |DstsOn(s, ids[1..])|
  {
    assert ids[0] !in ids[1..];
    assert DstsOn(s, ids) == DstsOn(s, [ids[0]]) + DstsOn(s, ids[1..]) && DstsOn(s, [ids[0]]) !! DstsOn(s, ids[1..]);
  }

  /** Real memory in terms of the tables: both regions of every held TCP socket and all of every shared socket. */
  ghost function TableMemory(cfg: Config, meta: nat, held: nat, shared: nat): nat {
    Times(held, 2 * cfg.tcpBufferSize) + Times(shared, UdpMemory(cfg, cfg.mtu, meta))
  }

  lemma TableMemoryAdd(cfg: Config, meta: nat, a: nat, b: nat, c: nat, d: nat)
    ensures TableMemory(cfg, meta, a + b, c + d) == TableMemory(cfg, meta, a, c) + TableMemory(cfg, meta, b, d)
  {
    TimesAdd(a, b, 2 * cfg.tcpBufferSize);
    TimesAdd(c, d, UdpMemory(cfg, cfg.mtu, meta));
  }

  lemma SlotMemoryIs(s: State, id: InterfaceId, meta: nat)
    requires Inv(s) && id in s.slots
    ensures SlotMemory(s.cfg, s.slots[id], meta) == TableMemory(s.cfg, meta, Held(s, [id]), |DstsOn(s, [id])|)
  {
    InvShape(s);
    InvTcp(s);
    InvDst(s);
    InvLeaks(s);
    SocketSets(s, id);
    TcpSocketCount(s, id);
    UdpSocketCount(s, id);
  }

  lemma {:induction false} MemoryOnIs(s: State, ids: seq<InterfaceId>, meta: nat)
    requires Inv(s) && NoDup(ids) && forall id :: id in ids ==> id in s.slots
    ensures MemoryOn(s, ids, meta) == TableMemory(s.cfg, meta, Held(s, ids), |DstsOn(s, ids)|)
    decreases |ids|
  {
    if ids == [] {
      assert TcpOn(s, ids) == {} && DstsOn(s, ids) == {};
    } else {
      MemoryOnIs(s, ids[1..], meta);
      SlotMemoryIs(s, ids[0], meta);
      MemoryCons(s, ids, meta);
    }
  }

  lemma MemoryCons(s: State, ids: seq<InterfaceId>, meta: nat)
    requires ids != [] && NoDup(ids) && forall id :: id in ids ==> id in s.slots
    ensures TableMemory(s.cfg, meta, Held(s, ids), |DstsOn(s, ids)|) ==
              TableMemory(s.cfg, meta, Held(s, [ids[0]]), |DstsOn(s, [ids[0]])|) +
                TableMemory(s.cfg, meta, Held(s, ids[1..]), |DstsOn(s, ids[1..])|)
  {
    HeldSplit(s, ids);
    DstsSplit(s, ids);
    TableMemoryAdd(s.cfg, meta, Held(s, [ids[0]]), Held(s, ids[1..]), |DstsOn(s, [ids[0]])|, |DstsOn(s, ids[1..])|);
  }

  lemma AllOn(s: State)
    requires Inv(s)
    ensures Mapped(s) && TcpOn(s, s.cfg.ifaces) == s.tcp.Keys && DstsOn(s, s.cfg.ifaces) == s.dsts.Keys
  {
    InvShape(s);
    InvTcp(s);
    InvDst(s);
  }

  /** Real memory is exactly that of the tables' sockets and the pooled ones. */
  lemma RealMemoryIs(s: State, meta: nat)
    requires Inv(s)
    ensures Mapped(s)
    ensures Held(s, s.cfg.ifaces) == |s.tcp| + Pooled(s, s.cfg.ifaces)
    ensures RealMemory(s, meta) == TableMemory(s.cfg, meta, |s.tcp| + Pooled(s, s.cfg.ifaces), |s.dsts|)
  {
    AllOn(s);
    InvShape(s);
    MemoryOnIs(s, s.cfg.ifaces, meta);
    assert |DstsOn(s, s.cfg.ifaces)| == |s.dsts.Keys| == |s.dsts|;
    assert |TcpOn(s, s.cfg.ifaces)| == |s.tcp.Keys| == |s.tcp|;
  }

  lemma UdpMemoryIs(cfg: Config, meta: nat, payload: nat, packets: nat)
    requires LargerOf(payload, cfg.udpBufferBytes, cfg.mtu) && LargerOf(packets, cfg.udpBufferPackets, 1)
    ensures UdpMemory(cfg, cfg.mtu, meta) == 2 * (payload + packets * meta)
  {
  }

  /**
   Two buffers for each of `held` TCP sockets, and for each of `shared` UDP sockets two payload regions and two times
   as many metadata slots as packets.
   */
  function Counted(held: nat, buffer: nat, shared: nat, payload: nat, packets: nat, meta: nat): nat {
    held * (2 * buffer) + shared * (2 * (payload + packets * meta))
  }

  lemma CountedTable(cfg: Config, meta: nat, payload: nat, packets: nat, held: nat, shared: nat)
    requires LargerOf(payload, cfg.udpBufferBytes, cfg.mtu) && LargerOf(packets, cfg.udpBufferPackets, 1)
    ensures TableMemory(cfg, meta, held, shared) == Counted(held, cfg.tcpBufferSize, shared, payload, packets, meta)
  {
    UdpMemoryIs(cfg, meta, payload, packets);
    TimesIsProduct(held, 2 * cfg.tcpBufferSize);
    TimesIsProduct(shared, UdpMemory(cfg, cfg.mtu, meta));
  }

  /** Real memory in numbers. */
  ghost predicate MemoryIs(s: State, meta: nat, payload: nat, packets: nat) {
    && Mapped(s)
    && RealMemory(s, meta)
       == Counted(|s.tcp| + Pooled(s, s.cfg.ifaces), s.cfg.tcpBufferSize, |s.dsts|, payload, packets, meta)
  }

  lemma CountedFromInv(s: State, meta: nat, payload: nat, packets: nat)
    requires Inv(s)
    requires LargerOf(payload, s.cfg.udpBufferBytes, s.cfg.mtu) && LargerOf(packets, s.cfg.udpBufferPackets, 1)
    ensures MemoryIs(s, meta, payload, packets)
  {
    RealMemoryIs(s, meta);
    CountedTable(s.cfg, meta, payload, packets, |s.tcp| + Pooled(s, s.cfg.ifaces), |s.dsts|);
  }

  /** In every reachable state; a payload region is as large as both the configured size and the MTU demand. */
  lemma MemoryCounted(cfg: Config, s: State, meta: nat, payload: nat, packets: nat)
    requires Reachable(cfg, s)
    requires LargerOf(payload, cfg.udpBufferBytes, cfg.mtu) && LargerOf(packets, cfg.udpBufferPackets, 1)
    ensures s.cfg == cfg && MemoryIs(s, meta, payload, packets)
  {
    ReachableInv(cfg, s);
    CountedFromInv(s, meta, payload, packets);
  }

  // ---- Bounds ----

  /** Most sockets that one pool can hold whatever the limit. */
  ghost function PoolCap(cfg: Config): nat {
    if cfg.tcpPoolSize < cfg.tcpMaxConnections then cfg.tcpPoolSize else cfg.tcpMaxConnections
  }

  lemma OnePool(s: State, id: InterfaceId)
    requires Inv(s) && id in s.slots
    ensures |s.slots[id].pool| <= PoolCap(s.cfg)
  {
    InvPools(s);
  }

  lemma {:induction false} EmptyPools(s: State, ids: seq<InterfaceId>)
    requires Inv(s) && PoolCap(s.cfg) == 0 && forall id :: id in ids ==> id in s.slots
    ensures Pooled(s, ids) == 0
    decreases |ids|
  {
    if ids != [] {
      OnePool(s, ids[0]);
      EmptyPools(s, ids[1..]);
    }
  }

  /** The TCP sockets of all interfaces, each interface bounded by the limit on its own. */
  lemma {:induction false} HeldBound(s: State, ids: seq<InterfaceId>, limit: nat)
    requires NoDup(ids) && forall id :: id in ids ==> id in s.slots
    requires forall id :: id in ids ==> Times(Held(s, [id]), 2 * s.cfg.tcpBufferSize) <= limit
    ensures Times(Held(s, ids), 2 * s.cfg.tcpBufferSize) <= Times(|ids|, limit)
    decreases |ids|
  {
    if ids == [] {
      assert TcpOn(s, ids) == {};
    } else {
      HeldBound(s, ids[1..], limit);
      HeldSplit(s, ids);
      TimesAdd(Held(s, [ids[0]]), Held(s, ids[1..]), 2 * s.cfg.tcpBufferSize);
    }
  }

  /**
   All memory of the shared sockets against what is charged for them, if one is charged at least a `c`-th of
   what it takes.
   */
  lemma SharedBound(cfg: Config, meta: nat, c: nat, shared: nat, failed: nat)
    requires UdpMemory(cfg, cfg.mtu, meta) <= c * UdpCost(cfg, cfg.mtu)
    ensures Times(shared, UdpMemory(cfg, cfg.mtu, meta)) <= c * Times(shared + failed, UdpCost(cfg, cfg.mtu))
  {
    var u := UdpCost(cfg, cfg.mtu);
    TimesMono(shared, shared + failed, u);
    TimesScale(shared, UdpMemory(cfg, cfg.mtu, meta), u, c);
    Scaled(c, Times(shared, u), Times(shared + failed, u));
  }

  lemma Scaled(c: nat, a: nat, b: nat)
    requires a <= b
    ensures c * a <= c * b
  {
  }

  lemma PooledBound(s: State, limit: nat)
    requires Inv(s) && s.cfg.maxBufferBytes == Some(limit)
    ensures Mapped(s)
    ensures Times(Held(s, s.cfg.ifaces), 2 * s.cfg.tcpBufferSize) <= Times(|s.cfg.ifaces|, limit)
  {
    InvShape(s);
    InvPools(s);
    forall id | id in s.cfg.ifaces ensures id in s.slots && Times(Held(s, [id]), 2 * s.cfg.tcpBufferSize) <= limit {
      OneHeld(s, limit, id);
    }
    HeldBound(s, s.cfg.ifaces, limit);
  }

  lemma OneHeld(s: State, limit: nat, id: InterfaceId)
    requires Shape(s.cfg, s.slots) && Pools(s.cfg, s.slots, s.tcp, s.hist.peak) &&
             s.cfg.maxBufferBytes == Some(limit) && id in s.cfg.ifaces
    ensures id in s.slots && Times(Held(s, [id]), 2 * s.cfg.tcpBufferSize) <= limit
  {
    PoolBounds(s, id);
    TcpOnOne(s, id);
  }

  /**
   If a UDP socket takes at most `c` times what it is charged, real memory over `n` interfaces is at most
   `n + c` limits.
   */
  lemma BoundedFromInv(s: State, limit: nat, meta: nat, c: nat)
    requires Inv(s) && s.cfg.maxBufferBytes == Some(limit) && c >= 1
    requires UdpMemory(s.cfg, s.cfg.mtu, meta) <= c * UdpCost(s.cfg, s.cfg.mtu)
    ensures Mapped(s)
    ensures RealMemory(s, meta) <= Times(|s.cfg.ifaces| + c, limit)
    ensures s.cfg.tcpPoolSize == 0 ==> RealMemory(s, meta) <= Times(c, limit)
  {
    RealMemoryIs(s, meta);
    PooledBound(s, limit);
    if s.cfg.tcpPoolSize == 0 {
      EmptyPools(s, s.cfg.ifaces);
    }
    InvBudget(s);
    MemoryArithmetic(s.cfg, meta, c, Held(s, s.cfg.ifaces), |s.tcp|, |s.dsts|, s.hist.failedBinds, s.bytes, limit);
  }

  /** With pooling off the factor is `c` alone. */
  lemma MemoryBounded(cfg: Config, s: State, meta: nat, c: nat)
    requires Reachable(cfg, s) && cfg.maxBufferBytes.Some? && c >= 1
    requires UdpMemory(cfg, cfg.mtu, meta) <= c * UdpCost(cfg, cfg.mtu)
    ensures Mapped(s)
    ensures RealMemory(s, meta) <= (|cfg.ifaces| + c) * cfg.maxBufferBytes.value
    ensures cfg.tcpPoolSize == 0 ==> RealMemory(s, meta) <= c * cfg.maxBufferBytes.value
  {
    ReachableInv(cfg, s);
    BoundedFromInv(s, cfg.maxBufferBytes.value, meta, c);
    TimesIsProduct(|cfg.ifaces| + c, cfg.maxBufferBytes.value);
    TimesIsProduct(c, cfg.maxBufferBytes.value);
  }

  /** Twice is enough for metadata slots of up to the 64 bytes that are charged for one. */
  lemma ChargedHalf(cfg: Config, meta: nat)
    requires meta <= 64
    ensures UdpMemory(cfg, cfg.mtu, meta) <= 2 * UdpCost(cfg, cfg.mtu)
  {
    Scaled(Max(cfg.udpBufferPackets, 1), meta, 64);
  }

  lemma MemoryArithmetic(cfg: Config, meta: nat, c: nat, held: nat, tcps: nat, shared: nat, failed: nat, bytes: nat,
          limit: nat)
    requires Budget(cfg, bytes, tcps, shared, failed) && cfg.maxBufferBytes == Some(limit) && c >= 1
    requires UdpMemory(cfg, cfg.mtu, meta) <= c * UdpCost(cfg, cfg.mtu)
    requires Times(held, 2 * cfg.tcpBufferSize) <= Times(|cfg.ifaces|, limit)
    ensures TableMemory(cfg, meta, held, shared) <= Times(|cfg.ifaces| + c, limit)
    ensures held == tcps ==> TableMemory(cfg, meta, held, shared) <= Times(c, limit)
  {
    var a, b := Times(tcps, 2 * cfg.tcpBufferSize), Times(shared + failed, UdpCost(cfg, cfg.mtu));
    SharedBound(cfg, meta, c, shared, failed);
    TimesAdd(|cfg.ifaces|, c, limit);
    TimesIsProduct(c, limit);
    Capped(c, a, b, Times(shared, UdpMemory(cfg, cfg.mtu, meta)), limit);
  }

  lemma Capped(c: nat, a: nat, b: nat, x: nat, limit: nat)
    requires c >= 1 && x <= c * b && a + b <= limit
    ensures a + x <= c * limit
  {
    Scaled(c, a + b, limit);
    Scaled(a, 1, c);
    assert c * (a + b) == a * c + c * b;
  }
}

/**
 When the buffers of all sockets stay within the configured limit, whatever happens.
 */
module Limits {
  import opened Types
  import opened Counting
  import opened Ops
  import opened Invariant
  import opened Runs
  import opened Scenarios
  import opened Memory

  // ---- When every limit is honoured ----

  /** For every limit, no run of this configuration lets real memory exceed it. */
  ghost predicate LimitHonoured(cfg: Config, meta: nat) {
    forall limit: nat, s :: Reachable(cfg.(maxBufferBytes := Some(limit)), s) ==>
      Mapped(s) && RealMemory(s, meta) <= limit
  }

  /** The memory of a full pool. */
  ghost function PoolWeight(cfg: Config): nat {
    PoolCap(cfg) * (2 * cfg.tcpBufferSize)
  }

  /**
   What a UDP socket is charged covers what it takes and a full pool on top, unless there can be no UDP
   memory; and with several interfaces pooled sockets take none.
   */
  ghost predicate CapSound(cfg: Config, meta: nat) {
    var pooled, taken := PoolWeight(cfg), UdpMemory(cfg, cfg.mtu, meta);
    || |cfg.ifaces| == 0
    || (&& (cfg.udpMaxSessions == 0 || taken == 0 || pooled + taken <= UdpCost(cfg, cfg.mtu))
        && (|cfg.ifaces| == 1 || pooled == 0))
  }

  lemma WeightTimes(cfg: Config)
    ensures PoolWeight(cfg) == Times(PoolCap(cfg), 2 * cfg.tcpBufferSize)
  {
    TimesIsProduct(PoolCap(cfg), 2 * cfg.tcpBufferSize);
  }

  // ---- ... it is, if ----

  lemma {:induction false} SharedFits(extra: nat, taken: nat, cost: nat, shared: nat)
    requires shared > 0 && extra + taken <= cost
    ensures extra + Times(shared, taken) <= Times(shared, cost)
    decreases shared
  {
    if shared > 1 {
      SharedFits(extra, taken, cost, shared - 1);
    } else {
      TimesOne(taken);
      TimesOne(cost);
    }
  }

  lemma MemoryFits(cfg: Config, meta: nat, tcps: nat, pooled: nat, shared: nat, failed: nat, bytes: nat, limit: nat)
    requires Budget(cfg, bytes, tcps, shared, failed) && cfg.maxBufferBytes == Some(limit)
    requires Times(tcps + pooled, 2 * cfg.tcpBufferSize) <= limit
    requires var taken := UdpMemory(cfg, cfg.mtu, meta);
             shared == 0 || taken == 0 || Times(pooled, 2 * cfg.tcpBufferSize) + taken <= UdpCost(cfg, cfg.mtu)
    ensures TableMemory(cfg, meta, tcps + pooled, shared) <= limit
  {
    var c, taken := 2 * cfg.tcpBufferSize, UdpMemory(cfg, cfg.mtu, meta);
    if shared == 0 || taken == 0 {
      TimesNothing(shared);
    } else {
      TimesAdd(tcps, pooled, c);
      SharedFits(Times(pooled, c), taken, UdpCost(cfg, cfg.mtu), shared);
      TimesMono(shared, shared + failed, UdpCost(cfg, cfg.mtu));
    }
  }

  /** A shared socket exists only if a session may. */
  lemma SharedNeedsSession(s: State)
    requires Inv(s) && s.cfg.udpMaxSessions == 0
    ensures |s.dsts| == 0
  {
    InvCounts(s);
    InvCaps(s);
    forall d ensures d !in s.dsts {
      assert Selected(s.udp, ToDst(d)) == {};
    }
    assert s.dsts == map[];
  }

  /** On a single interface: its sockets stay within the limit, its pool within its cap. */
  lemma SingleHeld(s: State, limit: nat)
    requires Inv(s) && s.cfg.maxBufferBytes == Some(limit) && |s.cfg.ifaces| == 1
    ensures Mapped(s) && Times(Held(s, s.cfg.ifaces), 2 * s.cfg.tcpBufferSize) <= limit
    ensures Times(Pooled(s, s.cfg.ifaces), 2 * s.cfg.tcpBufferSize) <= PoolWeight(s.cfg)
  {
    var id := s.cfg.ifaces[0];
    assert s.cfg.ifaces == [id];
    assert id in s.cfg.ifaces;
    InvShape(s);
    InvPools(s);
    OneHeld(s, limit, id);
    OnePool(s, id);
    assert Pooled(s, [id]) == |s.slots[id].pool| + Pooled(s, [id][1..]);
    TimesMono(Pooled(s, [id]), PoolCap(s.cfg), 2 * s.cfg.tcpBufferSize);
    WeightTimes(s.cfg);
  }

  lemma ZeroWeight(cfg: Config)
    ensures PoolWeight(cfg) == 0 <==> PoolCap(cfg) == 0 || cfg.tcpBufferSize == 0
  {
    var b := 2 * cfg.tcpBufferSize;
    WeightTimes(cfg);
    if cfg.tcpBufferSize == 0 {
      TimesNothing(PoolCap(cfg));
    } else if PoolCap(cfg) > 0 {
      TimesMono(1, PoolCap(cfg), b);
      TimesOne(b);
    }
  }

  /** If pooled sockets take no memory, those of all interfaces do not. */
  lemma WeightlessPools(s: State)
    requires Inv(s) && PoolWeight(s.cfg) == 0
    ensures Mapped(s) && Times(Pooled(s, s.cfg.ifaces), 2 * s.cfg.tcpBufferSize) == 0
  {
    InvShape(s);
    ZeroWeight(s.cfg);
    if s.cfg.tcpBufferSize == 0 {
      TimesNothing(Pooled(s, s.cfg.ifaces));
    } else {
      EmptyPools(s, s.cfg.ifaces);
    }
  }

  /** Live and pooled TCP sockets together stay within the limit. */
  lemma HeldFits(s: State, limit: nat, meta: nat)
    requires Inv(s) && s.cfg.maxBufferBytes == Some(limit) && CapSound(s.cfg, meta) && |s.cfg.ifaces| > 0
    ensures Mapped(s)
    ensures Times(|s.tcp| + Pooled(s, s.cfg.ifaces), 2 * s.cfg.tcpBufferSize) <= limit
    ensures Times(Pooled(s, s.cfg.ifaces), 2 * s.cfg.tcpBufferSize) <= PoolWeight(s.cfg)
  {
    RealMemoryIs(s, meta);
    if |s.cfg.ifaces| == 1 {
      SingleHeld(s, limit);
    } else {
      WeightlessPools(s);
      TimesAdd(|s.tcp|, Pooled(s, s.cfg.ifaces), 2 * s.cfg.tcpBufferSize);
      InvBudget(s);
    }
  }

  lemma Honoured(s: State, limit: nat, meta: nat)
    requires Inv(s) && s.cfg.maxBufferBytes == Some(limit) && CapSound(s.cfg, meta)
    ensures Mapped(s) && RealMemory(s, meta) <= limit
  {
    RealMemoryIs(s, meta);
    if |s.cfg.ifaces| > 0 {
      HeldFits(s, limit, meta);
      if s.cfg.udpMaxSessions == 0 {
        SharedNeedsSession(s);
      }
      InvBudget(s);
      MemoryFits(s.cfg, meta, |s.tcp|, Pooled(s, s.cfg.ifaces), |s.dsts|, s.hist.failedBinds, s.bytes, limit);
    }
  }

  // ---- ... and is not, otherwise ----

  lemma {:induction false} PooledAtLeast(s: State, ids: seq<InterfaceId>, id: InterfaceId)
    requires id in ids && forall i :: i in ids ==> i in s.slots
    ensures Pooled(s, ids) >= |s.slots[id].pool|
    decreases |ids|
  {
    if ids[0] != id {
      PooledAtLeast(s, ids[1..], id);
    }
  }

  lemma MemoryAtLeast(s: State, meta: nat, id: InterfaceId, tcps: nat, pooled: nat, shared: nat)
    requires Inv(s) && id in s.cfg.ifaces && id in s.slots
    requires |s.tcp| >= tcps && |s.slots[id].pool| >= pooled && |s.dsts| >= shared
    ensures Mapped(s) && RealMemory(s, meta) >= TableMemory(s.cfg, meta, tcps + pooled, shared)
  {
    RealMemoryIs(s, meta);
    PooledAtLeast(s, s.cfg.ifaces, id);
    TimesMono(tcps + pooled, |s.tcp| + Pooled(s, s.cfg.ifaces), 2 * s.cfg.tcpBufferSize);
    TimesMono(shared, |s.dsts|, UdpMemory(s.cfg, s.cfg.mtu, meta));
  }

  lemma ListedIsShared(s: State, key: SessionKey)
    requires Inv(s) && key in s.udp
    ensures |s.dsts| >= 1
  {
    InvCounts(s);
    assert DstOf(key) in s.dsts;
  }

  /** The limit in question is exceeded in some reachable state. */
  ghost predicate Broken(cfg: Config, limit: nat, meta: nat) {
    exists s :: Reachable(cfg.(maxBufferBytes := Some(limit)), s) && Mapped(s) && RealMemory(s, meta) > limit
  }

  lemma Outweighs(cfg: Config, meta: nat)
    requires var taken := UdpMemory(cfg, cfg.mtu, meta); taken > 0 && PoolWeight(cfg) + taken > UdpCost(cfg, cfg.mtu)
    ensures TableMemory(cfg, meta, PoolCap(cfg), 1) > Max(PoolWeight(cfg), UdpCost(cfg, cfg.mtu))
  {
    WeightTimes(cfg);
    TimesOne(UdpMemory(cfg, cfg.mtu, meta));
  }

  lemma PoolAndFlow(c: Config, id: InterfaceId, k: nat) returns (s: State)
    requires NoDup(c.ifaces) && id in c.ifaces && c.udpMaxSessions >= 1 && k <= PoolCap(c)
    requires Reservable(c, 0, k * (2 * c.tcpBufferSize)) && Reservable(c, 0, UdpCost(c, c.mtu))
    ensures Reachable(c, s) && id in s.slots && |s.slots[id].pool| >= k && |s.dsts| >= 1
  {
    var r := PooledReachable(c, id, k);
    s := UdpAdmitted(c, r, id, Client(0), SERVER, 0);
    ReachableInv(c, s);
    ListedIsShared(s, SessionKey(id, Udp, Client(0), SERVER));
  }

  lemma FlowBreaks(c: Config, limit: nat, meta: nat) returns (s: State)
    requires NoDup(c.ifaces) && c.ifaces != [] && c.udpMaxSessions >= 1 && c.maxBufferBytes == Some(limit)
    requires PoolWeight(c) <= limit && UdpCost(c, c.mtu) <= limit < TableMemory(c, meta, PoolCap(c), 1)
    ensures Reachable(c, s) && Mapped(s) && RealMemory(s, meta) > limit
  {
    s := PoolAndFlow(c, c.ifaces[0], PoolCap(c));
    ReachableInv(c, s);
    MemoryAtLeast(s, meta, c.ifaces[0], 0, PoolCap(c), 1);
  }

  /** A full pool and one UDP flow break the limit that just admits either. */
  lemma PoolAndFlowBreak(cfg: Config, meta: nat)
    requires NoDup(cfg.ifaces) && cfg.ifaces != [] && cfg.udpMaxSessions >= 1
    requires var taken := UdpMemory(cfg, cfg.mtu, meta); taken > 0 && PoolWeight(cfg) + taken > UdpCost(cfg, cfg.mtu)
    ensures Broken(cfg, Max(PoolWeight(cfg), UdpCost(cfg, cfg.mtu)), meta)
  {
    var limit := Max(PoolWeight(cfg), UdpCost(cfg, cfg.mtu));
    Outweighs(cfg, meta);
    var s := FlowBreaks(cfg.(maxBufferBytes := Some(limit)), limit, meta);
    BrokenBy(cfg, limit, meta, s);
  }

  lemma PooledAndLive(c: Config, id: InterfaceId, other: InterfaceId) returns (s: State)
    requires NoDup(c.ifaces) && id in c.ifaces && other in c.ifaces && id != other
    requires PoolCap(c) >= 1 && Reservable(c, 0, 2 * c.tcpBufferSize)
    ensures Reachable(c, s) && id in s.slots && |s.slots[id].pool| >= 1 && |s.tcp| >= 1
  {
    var r := PooledReachable(c, id, 1);
    IfaceSlot(c, r, other);
    s := Handshake(c, r, ConnKey(other, 0));
    assert ConnKey(other, 0) in s.tcp;
  }

  lemma BrokenBy(cfg: Config, limit: nat, meta: nat, s: State)
    requires Reachable(cfg.(maxBufferBytes := Some(limit)), s) && Mapped(s) && RealMemory(s, meta) > limit
    ensures Broken(cfg, limit, meta)
  {
  }

  /** A pooled socket on one interface and a live one on another break the limit that admits one. */
  lemma TwoInterfacesBreak(cfg: Config, meta: nat)
    requires NoDup(cfg.ifaces) && |cfg.ifaces| >= 2 && PoolCap(cfg) >= 1 && cfg.tcpBufferSize > 0
    ensures Broken(cfg, 2 * cfg.tcpBufferSize, meta)
  {
    var b := 2 * cfg.tcpBufferSize;
    var c := cfg.(maxBufferBytes := Some(b));
    var s := PooledAndLive(c, cfg.ifaces[0], cfg.ifaces[1]);
    ReachableInv(c, s);
    MemoryAtLeast(s, meta, cfg.ifaces[0], 1, 1, 0);
    TimesOne(b);
    BrokenBy(cfg, b, meta, s);
  }

  /**
   The limit is documented as a hard cap on buffer memory. Over all limits and all runs the buffers of all
   sockets stay within it exactly for the configurations that `CapSound` names.
   */
  lemma LimitHonouredIff(cfg: Config, meta: nat)
    requires NoDup(cfg.ifaces)
    ensures LimitHonoured(cfg, meta) <==> CapSound(cfg, meta)
  {
    ZeroWeight(cfg);
    if CapSound(cfg, meta) {
      forall limit: nat, s | Reachable(cfg.(maxBufferBytes := Some(limit)), s)
        ensures Mapped(s) && RealMemory(s, meta) <= limit {
        ReachableInv(cfg.(maxBufferBytes := Some(limit)), s);
        Honoured(s, limit, meta);
      }
    } else if |cfg.ifaces| >= 2 && PoolWeight(cfg) != 0 {
      TwoInterfacesBreak(cfg, meta);
    } else {
      PoolAndFlowBreak(cfg, meta);
    }
  }

  /**
   Metadata slots of 32 bytes or more break the cap wherever UDP sockets have any payload: each takes more than
   its charge.
   */
  lemma LargeSlotsBreak(cfg: Config, meta: nat)
    requires NoDup(cfg.ifaces) && cfg.ifaces != [] && cfg.udpMaxSessions >= 1
    requires meta >= 32 && UdpPayload(cfg, cfg.mtu) > 0
    ensures !LimitHonoured(cfg, meta)
  {
    Scaled(Max(cfg.udpBufferPackets, 1), 32, meta);
    LimitHonouredIff(cfg, meta);
  }
}

/**
 The most buffer memory that a configuration can take, and so when a given limit is honoured.
 */
module GivenLimit {
  import opened Types
  import opened Counting
  import opened Ops
  import opened Invariant
  import opened Runs
  import opened Feeding
  import opened Scenarios
  import opened Memory
  import opened Holdings

  /** Most TCP sockets that all interfaces can hold while `live` connections are listed. */
  ghost function MostHeld(cfg: Config, live: nat): nat
    requires cfg.ifaces != []
  {
    Min(live + LimitedPoolCap(cfg), TcpCap(cfg)) + (|cfg.ifaces| - 1) * LimitedPoolCap(cfg)
  }

  /** Most memory of all sockets, with `live` connections and `shared` UDP sockets. */
  ghost function MostMemory(cfg: Config, meta: nat, live: nat, shared: nat): nat
    requires cfg.ifaces != []
  {
    MostHeld(cfg, live) * (2 * cfg.tcpBufferSize) + shared * UdpMemory(cfg, cfg.mtu, meta)
  }

  /** The caps and the limit admit so many connections and shared sockets together. */
  ghost predicate Admitted(cfg: Config, live: nat, shared: nat) {
    && live <= cfg.tcpMaxConnections && shared <= cfg.udpMaxSessions
    && Reservable(cfg, 0, live * (2 * cfg.tcpBufferSize) + shared * UdpCost(cfg, cfg.mtu))
  }

  lemma MostMemoryTimes(cfg: Config, meta: nat, live: nat, shared: nat)
    requires cfg.ifaces != []
    ensures MostMemory(cfg, meta, live, shared) == TableMemory(cfg, meta, MostHeld(cfg, live), shared)
  {
    TimesIsProduct(MostHeld(cfg, live), 2 * cfg.tcpBufferSize);
    TimesIsProduct(shared, UdpMemory(cfg, cfg.mtu, meta));
  }

  lemma AdmittedTimes(cfg: Config, live: nat, shared: nat)
    ensures Admitted(cfg, live, shared) <==>
              && live <= cfg.tcpMaxConnections && shared <= cfg.udpMaxSessions
              && Reservable(cfg, 0, Times(live, 2 * cfg.tcpBufferSize) + Times(shared, UdpCost(cfg, cfg.mtu)))
  {
    TimesIsProduct(live, 2 * cfg.tcpBufferSize);
    TimesIsProduct(shared, UdpCost(cfg, cfg.mtu));
  }

  // ---- No state takes more ----

  lemma HeldAtMost(cfg: Config, s: State)
    requires Reachable(cfg, s) && cfg.ifaces != []
    ensures Mapped(s) && s.cfg == cfg && Total(s) <= MostHeld(cfg, |s.tcp|)
  {
    TotalBounded(cfg, s);
    ReachableInv(cfg, s);
    PooledAtMost(s, cfg.ifaces);
    TimesIsProduct(|cfg.ifaces| - 1, LimitedPoolCap(cfg));
  }

  lemma {:induction false} DstsAtMost(keys: set<SessionKey>)
    ensures |set k | k in keys :: DstOf(k)| <= |keys|
    decreases |keys|
  {
    if keys != {} {
      var k :| k in keys;
      DstsAtMost(keys - {k});
      assert (set x | x in keys :: DstOf(x)) == (set x | x in keys - {k} :: DstOf(x)) + {DstOf(k)};
    }
  }

  lemma SharedHasSession(udp: map<SessionKey, UdpEntry>, dsts: map<DstKey, SharedSocket>, d: DstKey)
    requires RefCounts(udp, dsts) && d in dsts
    ensures exists k :: k in udp && DstOf(k) == d
  {
    assert Selected(udp, ToDst(d)) != {};
    var k :| k in Selected(udp, ToDst(d));
    assert k in udp && DstOf(k) == d;
  }

  /** Each shared socket has a session of its own. */
  lemma SharedWithin(s: State)
    requires Inv(s)
    ensures |s.dsts| <= s.cfg.udpMaxSessions
  {
    InvCounts(s);
    InvCaps(s);
    forall d | d in s.dsts ensures exists k :: k in s.udp.Keys && DstOf(k) == d {
      SharedHasSession(s.udp, s.dsts, d);
    }
    assert s.dsts.Keys == set k | k in s.udp.Keys :: DstOf(k);
    DstsAtMost(s.udp.Keys);
  }

  lemma ListedAdmitted(s: State)
    requires Inv(s)
    ensures Admitted(s.cfg, |s.tcp|, |s.dsts|)
  {
    InvCaps(s);
    SharedWithin(s);
    InvBudget(s);
    TimesMono(|s.dsts|, |s.dsts| + s.hist.failedBinds, UdpCost(s.cfg, s.cfg.mtu));
    AdmittedTimes(s.cfg, |s.tcp|, |s.dsts|);
  }

  /** Whatever the run, what is listed is admitted together, and the sockets take at most the most memory for it. */
  lemma MemoryAtMost(cfg: Config, s: State, meta: nat)
    requires Reachable(cfg, s) && cfg.ifaces != []
    ensures Admitted(cfg, |s.tcp|, |s.dsts|)
    ensures Mapped(s) && RealMemory(s, meta) <= MostMemory(cfg, meta, |s.tcp|, |s.dsts|)
  {
    ReachableInv(cfg, s);
    ListedAdmitted(s);
    HeldAtMost(cfg, s);
    MemoryWithin(s, meta, MostHeld(cfg, |s.tcp|));
    MostMemoryTimes(cfg, meta, |s.tcp|, |s.dsts|);
  }

  lemma MemoryWithin(s: State, meta: nat, held: nat)
    requires Inv(s) && Mapped(s) && Total(s) <= held
    ensures RealMemory(s, meta) <= TableMemory(s.cfg, meta, held, |s.dsts|)
  {
    RealMemoryIs(s, meta);
    TimesMono(Total(s), held, 2 * s.cfg.tcpBufferSize);
  }

  // ---- Some state takes as much ----

  /** No session or connection; the pools of the interfaces from 1 below `i` are full, the others empty. */
  ghost predicate Filled(cfg: Config, s: State, i: nat) {
    && Reachable(cfg, s) && Idle(s) && Bare(s, 0)
    && (forall j :: 0 <= j < |cfg.ifaces| ==>
          && cfg.ifaces[j] in s.slots
          && |s.slots[cfg.ifaces[j]].pool| == if 1 <= j < i then LimitedPoolCap(cfg) else 0)
  }

  lemma {:induction false} FillPools(cfg: Config, i: nat) returns (s: State)
    requires NoDup(cfg.ifaces) && 1 <= i <= |cfg.ifaces|
    ensures Filled(cfg, s, i)
    decreases i
  {
    if i == 1 {
      InitIdle(cfg);
      s := Init(cfg);
    } else {
      var r := FillPools(cfg, i - 1);
      WithinTcpCap(cfg, LimitedPoolCap(cfg));
      s := PooledFrom(cfg, r, cfg.ifaces[i - 1], LimitedPoolCap(cfg), 0);
    }
  }

  lemma {:induction false} FullPools(s: State, ids: seq<InterfaceId>, k: nat)
    requires forall j :: 0 <= j < |ids| ==> ids[j] in s.slots && |s.slots[ids[j]].pool| == k
    ensures Pooled(s, ids) == Times(|ids|, k)
    decreases |ids|
  {
    if ids != [] {
      FullPools(s, ids[1..], k);
    }
  }

  /**
   On the first interface `live` connections are left of as many as the pool and the cap admit, and all pools
   are as full.
   */
  lemma HeldAttained(cfg: Config, live: nat) returns (s: State)
    requires NoDup(cfg.ifaces) && cfg.ifaces != [] && live <= TcpCap(cfg)
    ensures Reachable(cfg, s) && s.cfg == cfg && Idle(s) && Unreapable(s) && TcpOnly(s) && |s.tcp| == live
    ensures Mapped(s) && Total(s) == MostHeld(cfg, live)
  {
    var k, h, ids := LimitedPoolCap(cfg), Min(live + LimitedPoolCap(cfg), TcpCap(cfg)), cfg.ifaces;
    var r := FillPools(cfg, |ids|);
    WithinTcpCap(cfg, h);
    s := PooledFrom(cfg, r, ids[0], h, live);
    ReachableInv(cfg, s);
    InvShape(s);
    FullPools(s, ids[1..], k);
    TimesIsProduct(|ids| - 1, k);
  }

  // ---- ... with UDP sockets beside ----

  /** The destination of the flow numbered `n`. */
  ghost function Resolver(n: nat): Endpoint {
    Endpoint(n, 53)
  }

  /** `n` flows, to the destinations numbered below `n`, just begun. */
  ghost predicate FlowTable(udp: map<SessionKey, UdpEntry>, n: nat) {
    |udp| == n && forall k :: k in udp ==> k.dst.addr < n && udp[k].lastActivity == 0
  }

  ghost predicate DstTable(dsts: map<DstKey, SharedSocket>, n: nat) {
    |dsts| == n && forall d :: d in dsts ==> d.ep.addr < n
  }

  ghost predicate Flowing(s: State, n: nat) {
    FlowTable(s.udp, n) && DstTable(s.dsts, n) && s.hist.failedBinds == 0
  }

  lemma FlowTableNext(a: map<SessionKey, UdpEntry>, b: map<SessionKey, UdpEntry>, key: SessionKey, n: nat)
    requires FlowTable(a, n) && key in b && b == a[key := b[key]] && b[key].lastActivity == 0 && key.dst.addr == n
    ensures FlowTable(b, n + 1)
  {
    assert key !in a;
    GrowSize(a, b, key);
  }

  lemma DstTableNext(a: map<DstKey, SharedSocket>, b: map<DstKey, SharedSocket>, d: DstKey, n: nat)
    requires DstTable(a, n) && b.Keys == a.Keys + {d} && d.ep.addr == n
    ensures DstTable(b, n + 1)
  {
    assert d !in a;
    GrowSize(a, b, d);
    forall x | x in b ensures x.ep.addr < n + 1 {
      assert x in b.Keys;
    }
  }

  lemma FlowAdded(s: State, r: State, id: InterfaceId, n: nat)
    requires Flowing(s, n) && OneMore(s, r, SessionKey(id, Udp, Client(0), Resolver(n)), 0)
    ensures Flowing(r, n + 1)
  {
    var key := SessionKey(id, Udp, Client(0), Resolver(n));
    FlowTableNext(s.udp, r.udp, key, n);
    DstTableNext(s.dsts, r.dsts, DstOf(key), n);
  }

  lemma FlowFits(cfg: Config, s: State, n: nat, shared: nat)
    requires Inv(s) && s.cfg == cfg && |s.dsts| == n < shared && s.hist.failedBinds == 0
    requires Admitted(cfg, |s.tcp|, shared)
    ensures Reservable(cfg, s.bytes, UdpCost(cfg, cfg.mtu))
  {
    InvBudget(s);
    AdmittedTimes(cfg, |s.tcp|, shared);
    TimesMono(n + 1, shared, UdpCost(cfg, cfg.mtu));
  }

  lemma OneFlow(cfg: Config, s: State, id: InterfaceId, n: nat, shared: nat) returns (r: State)
    requires Reachable(cfg, s) && Idle(s) && Unreapable(s) && id in s.slots && Flowing(s, n) && n < shared &&
             Admitted(cfg, |s.tcp|, shared)
    ensures Reachable(cfg, r) && Idle(r) && Unreapable(r) && Flowing(r, n + 1)
    ensures |r.tcp| == |s.tcp| && SamePools(s.slots, r.slots)
  {
    ReachableInv(cfg, s);
    FlowFits(cfg, s, n, shared);
    r := UdpAdmitted(cfg, s, id, Client(0), Resolver(n), 0);
    FlowAdded(s, r, id, n);
    SameSize(r.tcp, s.tcp);
  }

  lemma {:induction false} ManyFlows(cfg: Config, s: State, id: InterfaceId, n: nat, shared: nat) returns (r: State)
    requires Reachable(cfg, s) && Idle(s) && Unreapable(s) && TcpOnly(s) && id in s.slots && n <= shared &&
             Admitted(cfg, |s.tcp|, shared)
    ensures Reachable(cfg, r) && Idle(r) && Unreapable(r) && Flowing(r, n)
    ensures |r.tcp| == |s.tcp| && SamePools(s.slots, r.slots)
    decreases n
  {
    if n == 0 {
      r := s;
    } else {
      var p := ManyFlows(cfg, s, id, n - 1, shared);
      r := OneFlow(cfg, p, id, n - 1, shared);
    }
  }

  /** Whatever is admitted together can be listed while the sockets take the most memory for it. */
  lemma MemoryAttained(cfg: Config, meta: nat, live: nat, shared: nat) returns (s: State)
    requires NoDup(cfg.ifaces) && cfg.ifaces != [] && Admitted(cfg, live, shared)
    ensures Reachable(cfg, s) && |s.tcp| == live && |s.dsts| == shared
    ensures Mapped(s) && RealMemory(s, meta) == MostMemory(cfg, meta, live, shared)
  {
    AdmittedTimes(cfg, live, shared);
    WithinTcpCap(cfg, live);
    var r := HeldAttained(cfg, live);
    s := ManyFlows(cfg, r, cfg.ifaces[0], shared, shared);
    ReachableInv(cfg, s);
    PooledSame(r, s, cfg.ifaces);
    RealMemoryIs(s, meta);
    MostMemoryTimes(cfg, meta, live, shared);
  }

  // ---- One limit ----

  /** No run of this configuration lets real memory exceed its limit. */
  ghost predicate HonouredAt(cfg: Config, meta: nat) {
    cfg.maxBufferBytes.Some? ==>
      forall s :: Reachable(cfg, s) ==> Mapped(s) && RealMemory(s, meta) <= cfg.maxBufferBytes.value
  }

  /** What is admitted together never takes more than the limit. */
  ghost predicate SoundAt(cfg: Config, meta: nat) {
    cfg.maxBufferBytes.Some? && cfg.ifaces != [] ==>
      forall live: nat, shared: nat :: Admitted(cfg, live, shared) ==>
        MostMemory(cfg, meta, live, shared) <= cfg.maxBufferBytes.value
  }

  lemma NoInterfaceNoMemory(cfg: Config, s: State, meta: nat)
    requires Reachable(cfg, s) && cfg.ifaces == []
    ensures Mapped(s) && RealMemory(s, meta) == 0
  {
    ReachableInv(cfg, s);
  }

  /** The configured limit is honoured exactly if the most memory of everything it admits is within it. */
  lemma HonouredAtIff(cfg: Config, meta: nat)
    requires NoDup(cfg.ifaces)
    ensures HonouredAt(cfg, meta) <==> SoundAt(cfg, meta)
  {
    if cfg.maxBufferBytes.Some? {
      if SoundAt(cfg, meta) {
        forall s | Reachable(cfg, s) ensures Mapped(s) && RealMemory(s, meta) <= cfg.maxBufferBytes.value {
          if cfg.ifaces == [] {
            NoInterfaceNoMemory(cfg, s, meta);
          } else {
            MemoryAtMost(cfg, s, meta);
          }
        }
      } else {
        var live: nat, shared: nat :| Admitted(cfg, live, shared) &&
          MostMemory(cfg, meta, live, shared) > cfg.maxBufferBytes.value;
        var s := MemoryAttained(cfg, meta, live, shared);
      }
    }
  }
}

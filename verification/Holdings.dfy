/**
 How many TCP sockets, live and pooled, all interfaces can hold at once.
 */
module Holdings {
  import opened Types
  import opened Counting
  import opened Ops
  import opened Invariant
  import opened PreserveAlloc
  import opened Runs
  import opened Feeding
  import opened Scenarios
  import opened Memory

  function Min(a: nat, b: nat): nat {
    if a < b then a else b
  }

  /** How many times `c` fits into `limit`. */
  ghost function Fitting(limit: nat, c: nat): nat
    requires c > 0
  {
    limit / c
  }

  /** Most connections that the connection cap and the limit admit at once. */
  ghost function TcpCap(cfg: Config): nat {
    if cfg.maxBufferBytes.None? || cfg.tcpBufferSize == 0 then cfg.tcpMaxConnections
    else Min(cfg.tcpMaxConnections, Fitting(cfg.maxBufferBytes.value, 2 * cfg.tcpBufferSize))
  }

  /** Most sockets that one pool can hold under the configured limit. */
  ghost function LimitedPoolCap(cfg: Config): nat {
    Min(cfg.tcpPoolSize, TcpCap(cfg))
  }

  lemma FitsIff(n: nat, c: nat, limit: nat)
    requires c > 0
    ensures n * c <= limit <==> n <= Fitting(limit, c)
  {
    if n <= limit / c {
      assert n * c <= (limit / c) * c;
    } else {
      assert n * c >= (limit / c + 1) * c;
    }
  }

  lemma WithinTcpCap(cfg: Config, n: nat)
    ensures n <= TcpCap(cfg) <==> n <= cfg.tcpMaxConnections && Reservable(cfg, 0, Times(n, 2 * cfg.tcpBufferSize))
  {
    if cfg.tcpBufferSize == 0 {
      TimesNothing(n);
    } else if cfg.maxBufferBytes.Some? {
      TimesIsProduct(n, 2 * cfg.tcpBufferSize);
      FitsIff(n, 2 * cfg.tcpBufferSize, cfg.maxBufferBytes.value);
    }
  }

  lemma PoolWithin(s: State, id: InterfaceId)
    requires Inv(s) && id in s.slots
    ensures |s.slots[id].pool| <= LimitedPoolCap(s.cfg)
  {
    InvPools(s);
    WithinTcpCap(s.cfg, s.hist.peak[id]);
  }

  // ---- Sums over pools ----

  lemma {:induction false} PooledSame(s: State, r: State, ids: seq<InterfaceId>)
    requires (forall id :: id in ids ==> id in s.slots) && SamePools(s.slots, r.slots)
    ensures (forall id :: id in ids ==> id in r.slots) && Pooled(r, ids) == Pooled(s, ids)
    decreases |ids|
  {
    if ids != [] {
      PooledSame(s, r, ids[1..]);
    }
  }

  lemma {:induction false} PooledApart(s: State, r: State, ids: seq<InterfaceId>, id: InterfaceId)
    requires (forall i :: i in ids ==> i in s.slots && i in r.slots) && OtherPools(s.slots, r.slots, id) && id !in ids
    ensures Pooled(r, ids) == Pooled(s, ids)
    decreases |ids|
  {
    if ids != [] {
      PooledApart(s, r, ids[1..], id);
    }
  }

  /** Changing one pool changes the sum by as much. */
  lemma {:induction false} PooledOther(s: State, r: State, ids: seq<InterfaceId>, id: InterfaceId)
    requires NoDup(ids) && id in ids && (forall i :: i in ids ==> i in s.slots && i in r.slots)
    requires OtherPools(s.slots, r.slots, id)
    ensures Pooled(r, ids) - |r.slots[id].pool| == Pooled(s, ids) - |s.slots[id].pool|
    decreases |ids|
  {
    if ids[0] == id {
      PooledApart(s, r, ids[1..], id);
    } else {
      PooledOther(s, r, ids[1..], id);
    }
  }

  lemma {:induction false} PooledAtMost(s: State, ids: seq<InterfaceId>)
    requires Inv(s) && forall i :: i in ids ==> i in s.slots
    ensures Pooled(s, ids) <= Times(|ids|, LimitedPoolCap(s.cfg))
    decreases |ids|
  {
    if ids != [] {
      PoolWithin(s, ids[0]);
      PooledAtMost(s, ids[1..]);
    }
  }

  /** With one pool empty, the others at most. */
  lemma {:induction false} PooledButOne(s: State, ids: seq<InterfaceId>, id: InterfaceId)
    requires Inv(s) && (forall i :: i in ids ==> i in s.slots) && id in ids && s.slots[id].pool == []
    ensures Pooled(s, ids) <= Times(|ids| - 1, LimitedPoolCap(s.cfg))
    decreases |ids|
  {
    if ids[0] == id {
      PooledAtMost(s, ids[1..]);
    } else {
      PoolWithin(s, ids[0]);
      PooledButOne(s, ids[1..], id);
    }
  }

  // ---- The invariant ----

  /** TCP sockets, live or pooled. */
  ghost function Total(s: State): nat
    requires Mapped(s)
  {
    |s.tcp| + Pooled(s, s.cfg.ifaces)
  }

  /** The pools of all interfaces but one, and as many sockets on that one as can be live. */
  ghost function TotalCap(cfg: Config): nat
    requires cfg.ifaces != []
  {
    TcpCap(cfg) + Times(|cfg.ifaces| - 1, LimitedPoolCap(cfg))
  }

  /** From `s` to `r` the total does not rise above the cap. */
  ghost predicate Contained(s: State, r: State) {
    && r.cfg == s.cfg && Mapped(s) && Mapped(r)
    && (s.cfg.ifaces != [] ==> Total(r) <= Max(Total(s), TotalCap(s.cfg)))
  }

  /** As many connections, and the same pools. */
  ghost predicate PoolsKept(s: State, r: State) {
    r.cfg == s.cfg && |r.tcp| == |s.tcp| && SamePools(s.slots, r.slots)
  }

  lemma SamePoolsContained(s: State, r: State)
    requires Mapped(s) && PoolsKept(s, r)
    ensures Contained(s, r)
  {
    PooledSame(s, r, s.cfg.ifaces);
  }

  lemma ListenDraws(s: State, key: SessionKey, h: Handle)
    requires key !in s.tcp && key.iface in s.slots
    ensures var r := TcpListen(s, key, h);
            && |r.tcp| == |s.tcp| + 1 && OtherPools(s.slots, r.slots, key.iface)
            && |r.slots[key.iface].pool| == if s.slots[key.iface].pool == [] then 0 else |s.slots[key.iface].pool| - 1
  {
    PutSize(s.tcp, key, TcpEntry(h, Pending, false));
  }

  /** The socket comes from the pool, or the pool is empty and the connection counts against the cap. */
  lemma ListenContained(s: State, key: SessionKey, h: Handle)
    requires Inv(s) && key !in s.tcp && key.iface in s.slots && |s.tcp| < s.cfg.tcpMaxConnections
    requires Reservable(s.cfg, s.bytes, TcpCost(s.slots[key.iface]))
    ensures Contained(s, TcpListen(s, key, h))
  {
    var r := TcpListen(s, key, h);
    InvShape(s);
    ListenDraws(s, key, h);
    PooledOther(s, r, s.cfg.ifaces, key.iface);
    if s.slots[key.iface].pool == [] {
      PooledButOne(s, s.cfg.ifaces, key.iface);
      RoomForOne(s, key.iface);
    }
  }

  lemma RoomForOne(s: State, id: InterfaceId)
    requires Inv(s) && id in s.slots && |s.tcp| < s.cfg.tcpMaxConnections
    requires Reservable(s.cfg, s.bytes, TcpCost(s.slots[id]))
    ensures |s.tcp| + 1 <= TcpCap(s.cfg)
  {
    InvShape(s);
    InvBudget(s);
    WithinTcpCap(s.cfg, |s.tcp| + 1);
  }

  lemma ListenFailsContained(s: State, key: SessionKey)
    requires Inv(s) && key.iface in s.slots
    ensures Contained(s, TcpListenFails(s, key))
  {
    var r := TcpListenFails(s, key);
    InvShape(s);
    PooledOther(s, r, s.cfg.ifaces, key.iface);
  }

  lemma UdpAllocPools(s: State, key: SessionKey, binds: bool, h: Handle, now: Instant)
    requires key.iface in s.slots
    ensures PoolsKept(s, AllocUdp(s, key, binds, h, now))
  {
    if DstOf(key) in s.dsts {
      assert AllocUdp(s, key, binds, h, now).slots == s.slots;
    }
  }

  lemma UdpAllocContained(s: State, key: SessionKey, binds: bool, h: Handle, now: Instant)
    requires Mapped(s) && key.iface in s.slots
    ensures Contained(s, AllocUdp(s, key, binds, h, now))
  {
    UdpAllocPools(s, key, binds, h, now);
    SamePoolsContained(s, AllocUdp(s, key, binds, h, now));
  }

  lemma PacketContained(s: State, id: InterfaceId, j: nat, pkt: Packet, ch: Choices)
    requires Inv(s) && id in s.slots
    ensures Contained(s, PacketStep(s, id, j, pkt, ch))
  {
    var h := ch.pick(id, s.slots[id].sockets.Keys);
    InvShape(s);
    match pkt
    case Opaque =>
    case TcpPacket(src, dst, syn) =>
      var key := SessionKey(id, Tcp, src, dst);
      if syn && key !in s.tcp && |s.tcp| < s.cfg.tcpMaxConnections && Reservable(s.cfg, s.bytes, TcpCost(s.slots[id])) {
        if ch.opens(id, j) {
          ListenContained(s, key, h);
        } else {
          ListenFailsContained(s, key);
        }
      }
    case UdpPacket(src, dst) => UdpAllocContained(s, SessionKey(id, Udp, src, dst), ch.opens(id, j), h, ch.now);
  }

  lemma {:induction false} PacketsContained(s: State, id: InterfaceId, j: nat, pkts: seq<Packet>, ch: Choices)
    requires Inv(s) && id in s.slots && FreshPicks(ch) && j <= |pkts|
    ensures Contained(s, Packets(s, id, j, pkts, ch))
    decreases |pkts| - j
  {
    if j == |pkts| {
      InvShape(s);
    } else {
      PacketContained(s, id, j, pkts[j], ch);
      PacketStepInv(s, id, j, pkts[j], ch);
      PacketsContained(PacketStep(s, id, j, pkts[j], ch), id, j + 1, pkts, ch);
    }
  }

  lemma IngressContained(s: State, id: InterfaceId, pkts: seq<Packet>)
    requires Mapped(s) && id in s.slots
    ensures Contained(s, WithIngress(s, id, pkts))
  {
    SamePoolsContained(s, WithIngress(s, id, pkts));
  }

  lemma PreSlotContained(s: State, id: InterfaceId, ch: Choices)
    requires Inv(s) && id in s.slots && FreshPicks(ch)
    ensures Contained(s, PreSlot(s, id, ch))
  {
    var pkts := s.slots[id].ingress;
    var a := WithIngress(s, id, []);
    var b := Packets(a, id, 0, pkts, ch);
    InvShape(s);
    IngressContained(s, id, []);
    WithIngressInv(s, id, []);
    PacketsContained(a, id, 0, pkts, ch);
    IngressContained(b, id, b.slots[id].ingress + pkts);
  }

  lemma {:induction false} PrePassContained(s: State, ids: seq<InterfaceId>, ch: Choices)
    requires Inv(s) && FreshPicks(ch) && forall id :: id in ids ==> id in s.slots
    ensures Contained(s, PrePass(s, ids, ch))
    decreases |ids|
  {
    if ids == [] {
      InvShape(s);
    } else {
      PreSlotContained(s, ids[0], ch);
      PreSlotInv(s, ids[0], ch);
      PrePassContained(PreSlot(s, ids[0], ch), ids[1..], ch);
    }
  }

  lemma {:induction false} VisitAllSize(s: State, ks: seq<SessionKey>)
    ensures VisitAll(s, ks).tcp.Keys == s.tcp.Keys
    decreases |ks|
  {
    if ks != [] {
      VisitAllSize(Visit(s, ks[0]), ks[1..]);
    }
  }

  /** A reaped socket moves to its pool or is freed. */
  lemma ReapGrowth(s: State, k: SessionKey)
    requires Shape(s.cfg, s.slots) && k in s.tcp && HasSocket(s.slots, k.iface, s.tcp[k].handle)
    ensures var r := Reap(s, k);
            && Shape(s.cfg, r.slots) && r.cfg == s.cfg && r.tcp == s.tcp - {k}
            && OtherPools(s.slots, r.slots, k.iface) && |r.slots[k.iface].pool| <= |s.slots[k.iface].pool| + 1
  {
  }

  lemma ReapContained(s: State, k: SessionKey)
    requires Shape(s.cfg, s.slots)
    ensures Shape(s.cfg, Reap(s, k).slots) && Contained(s, Reap(s, k))
  {
    var r := Reap(s, k);
    if k in s.tcp {
      DropSize(s.tcp, k);
      if HasSocket(s.slots, k.iface, s.tcp[k].handle) {
        ReapGrowth(s, k);
        PooledOther(s, r, s.cfg.ifaces, k.iface);
      } else {
        PooledSame(s, r, s.cfg.ifaces);
      }
    }
  }

  lemma {:induction false} ReapAllContained(s: State, ks: seq<SessionKey>)
    requires Shape(s.cfg, s.slots)
    ensures Contained(s, ReapAll(s, ks))
    decreases |ks|
  {
    if ks != [] {
      ReapContained(s, ks[0]);
      ReapAllContained(Reap(s, ks[0]), ks[1..]);
    }
  }

  lemma TcpPassContained(s: State, ch: Choices)
    requires Shape(s.cfg, s.slots)
    ensures Contained(s, TcpPass(s, ch))
  {
    var v := VisitAll(s, ch.tcpOrder);
    VisitAllSize(s, ch.tcpOrder);
    assert |v.tcp| == |v.tcp.Keys| == |s.tcp|;
    SamePoolsContained(s, v);
    ReapAllContained(v, ReapList(v, ch.tcpOrder));
  }

  lemma PolledContained(s: State, ch: Choices)
    requires Inv(s) && CycleEnabled(s, ch)
    ensures Contained(s, Polled(s, ch))
  {
    PrePassContained(s, s.cfg.ifaces, ch);
    SamePoolsContained(PrePass(s, s.cfg.ifaces, ch), Polled(s, ch));
  }

  lemma PostPassContained(s: State, ch: Choices)
    requires Shape(s.cfg, s.slots)
    ensures Contained(s, PostPass(s, ch))
  {
    TcpPassContained(s, ch);
    PostPassSlots(s, ch);
    SamePoolsContained(TcpPass(s, ch), PostPass(s, ch));
  }

  lemma CycleContained(s: State, ch: Choices)
    requires Inv(s) && CycleEnabled(s, ch)
    ensures Contained(s, PostPass(Polled(s, ch), ch))
  {
    PolledContained(s, ch);
    PolledInv(s, ch);
    InvShape(Polled(s, ch));
    PostPassContained(Polled(s, ch), ch);
  }

  lemma ClosePools(slots: map<InterfaceId, Slot>, id: InterfaceId, h: Handle)
    ensures SamePools(slots, CloseSocket(slots, id, h))
  {
  }

  lemma DropStreamPools(s: State, x: StreamId)
    requires x in s.streams
    ensures PoolsKept(s, DropStream(s, x))
  {
    var k := s.streams[x].key;
    ClosePools(s.slots, k.iface, s.streams[x].handle);
    if k in s.tcp {
      PutSize(s.tcp, k, s.tcp[k].(orphaned := true));
    }
  }

  lemma SendPools(s: State, q: QueueId, payload: Bytes, answer: SendOutcome)
    requires q in s.sessions && q in s.queues
    ensures PoolsKept(s, TrySend(s, q, payload, answer).0)
  {
  }

  lemma EnqueuePools(s: State, id: InterfaceId, pkt: Packet)
    ensures PoolsKept(s, Enqueue(s, id, pkt))
  {
  }

  lemma DropSessionPools(s: State, q: QueueId)
    requires q in s.sessions
    ensures PoolsKept(s, DropSession(s, q))
  {
    RemoveSocketsOnly(s, s.sessions[q].key);
  }

  /** Only a poll cycle changes a pool or adds and removes connections. */
  lemma OtherPoolsSame(s: State, l: Label)
    requires Enabled(s, l) && !l.Cycle?
    ensures PoolsKept(s, Apply(s, l))
  {
    match l
    case Ingress(id, pkt) => EnqueuePools(s, id, pkt);
    case StreamShutdown(x) => ClosePools(s.slots, s.streams[x].key.iface, s.streams[x].handle);
    case StreamDrop(x) => DropStreamPools(s, x);
    case SessionSend(q, payload, answer) => SendPools(s, q, payload, answer);
    case SessionPop(q) =>
    case SessionDrop(q) => DropSessionPools(s, q);
  }

  lemma ApplyContained(s: State, l: Label)
    requires Inv(s) && Enabled(s, l)
    ensures Contained(s, Apply(s, l))
  {
    InvShape(s);
    if l.Cycle? {
      CycleContained(s, l.ch);
    } else {
      OtherPoolsSame(s, l);
      SamePoolsContained(s, Apply(s, l));
    }
  }

  lemma {:induction false} RunContained(s: State, run: seq<Label>)
    requires Inv(s) && ValidRun(s, run)
    ensures Contained(s, After(s, run))
    decreases |run|
  {
    if run == [] {
      InvShape(s);
    } else {
      ApplyContained(s, run[0]);
      ApplyInv(s, run[0]);
      RunContained(Apply(s, run[0]), run[1..]);
    }
  }

  lemma {:induction false} InitTotal(cfg: Config, ids: seq<InterfaceId>)
    requires forall id :: id in ids ==> id in cfg.ifaces
    ensures Pooled(Init(cfg), ids) == 0
    decreases |ids|
  {
    if ids != [] {
      InitTotal(cfg, ids[1..]);
    }
  }

  /** Over all interfaces, live and pooled sockets exceed what can be live by less than one pool per interface. */
  lemma TotalBounded(cfg: Config, s: State)
    requires Reachable(cfg, s) && cfg.ifaces != []
    ensures s.cfg == cfg && Mapped(s)
    ensures Total(s) <= TcpCap(cfg) + (|cfg.ifaces| - 1) * LimitedPoolCap(cfg)
  {
    var run :| ValidRun(Init(cfg), run) && After(Init(cfg), run) == s;
    InitInv(cfg);
    InitTotal(cfg, cfg.ifaces);
    RunContained(Init(cfg), run);
    TimesIsProduct(|cfg.ifaces| - 1, LimitedPoolCap(cfg));
  }
}

/** The pre-pass keeps the invariant: allocating TCP entries and UDP sessions. */
module PreserveAlloc {
  import opened Types
  import opened Counting
  import opened Ops
  import opened Invariant

  // ---- A socket enters a set under a free handle ----

  /** `b` is `a` with `sock` added to interface `id` under the free handle `h`; pools may shrink. */
  ghost predicate Added(a: map<InterfaceId, Slot>, b: map<InterfaceId, Slot>, id: InterfaceId, h: Handle,
          sock: Socket)
  {
    && id in a && h !in a[id].sockets
    && b.Keys == a.Keys
    && (forall i :: i in a && i != id ==> b[i] == a[i])
    && b[id].sockets == a[id].sockets[h := sock]
    && b[id].(sockets := map[], pool := []) == a[id].(sockets := map[], pool := [])
  }

  lemma AddedShape(cfg: Config, a: map<InterfaceId, Slot>, b: map<InterfaceId, Slot>, id: InterfaceId, h: Handle,
          sock: Socket)
    requires Shape(cfg, a) && Added(a, b, id, h, sock)
    ensures Shape(cfg, b)
  {
  }

  lemma AddedTcp(a: map<InterfaceId, Slot>, b: map<InterfaceId, Slot>, tcp: map<SessionKey, TcpEntry>, id: InterfaceId,
          h: Handle, sock: Socket)
    requires TcpOwned(a, tcp) && Added(a, b, id, h, sock)
    ensures TcpOwned(b, tcp)
    ensures forall k :: k in tcp && k.iface == id ==> tcp[k].handle != h
  {
  }

  lemma AddedDst(a: map<InterfaceId, Slot>, b: map<InterfaceId, Slot>, dsts: map<DstKey, SharedSocket>,
          id: InterfaceId, h: Handle, sock: Socket)
    requires DstOwned(a, dsts) && Added(a, b, id, h, sock)
    ensures DstOwned(b, dsts)
  {
  }

  // ---- TCP ----

  lemma InsertTcpOwned(slots: map<InterfaceId, Slot>, tcp: map<SessionKey, TcpEntry>, k: SessionKey, h: Handle)
    requires TcpOwned(slots, tcp)
    requires k !in tcp && k.proto == Tcp && HasSocket(slots, k.iface, h) &&
             slots[k.iface].sockets[h] == TcpSock(Listen, k.dst)
    requires forall l :: l in tcp && l.iface == k.iface ==> tcp[l].handle != h
    ensures TcpOwned(slots, tcp[k := TcpEntry(h, Pending, false)])
  {
  }

  lemma InsertTcpNoLeak(a: map<InterfaceId, Slot>, b: map<InterfaceId, Slot>, tcp: map<SessionKey, TcpEntry>,
          dsts: map<DstKey, SharedSocket>, k: SessionKey, h: Handle)
    requires NoLeak(a, tcp, dsts) && k !in tcp && Added(a, b, k.iface, h, TcpSock(Listen, k.dst))
    ensures NoLeak(b, tcp[k := TcpEntry(h, Pending, false)], dsts)
  {
    var tcp' := tcp[k := TcpEntry(h, Pending, false)];
    assert k in tcp' && tcp'[k].handle == h;
    forall id, g | HasSocket(b, id, g) && b[id].sockets[g].TcpSock? ensures OwnedBySession(tcp', id, g) {
      if id == k.iface && g == h {
      } else {
        assert HasSocket(a, id, g);
        var l :| l in tcp && l.iface == id && tcp[l].handle == g;
        assert l in tcp' && tcp'[l].handle == g;
      }
    }
    assert forall id, g :: HasSocket(b, id, g) && b[id].sockets[g].UdpSock? ==> HasSocket(a, id, g);
  }

  lemma InsertTcpExposed(tcp: map<SessionKey, TcpEntry>, streams: map<StreamId, Stream>, made: nat, k: SessionKey,
          h: Handle)
    requires Exposed(tcp, streams, made) && k !in tcp
    ensures Exposed(tcp[k := TcpEntry(h, Pending, false)], streams, made)
  {
  }

  /** Popping a pooled socket only lowers the sum of live and pooled sockets. */
  lemma PoppedPools(cfg: Config, slots: map<InterfaceId, Slot>, tcp: map<SessionKey, TcpEntry>,
          peak: map<InterfaceId, nat>, id: InterfaceId)
    requires Pools(cfg, slots, tcp, peak) && id in slots
    ensures Pools(cfg, SetSlot(slots, id, slots[id].(pool := PoolRest(slots[id].pool))), tcp, peak)
  {
    var slots' := SetSlot(slots, id, slots[id].(pool := PoolRest(slots[id].pool)));
    assert forall i :: i in slots ==> |slots'[i].pool| <= |slots[i].pool|;
    assert forall i, p :: i in slots && p in slots'[i].pool ==> p in slots[i].pool;
  }

  /** One interface's share of `Pools` once entry `k` is in the table. */
  lemma InsertTcpPool(tcp: map<SessionKey, TcpEntry>, peak: map<InterfaceId, nat>, pool: seq<Socket>, k: SessionKey,
          e: TcpEntry, id: InterfaceId)
    requires k !in tcp && id in peak && k.iface in peak
    requires Count(tcp, OnIface(id)) + |pool| <= peak[id]
    ensures var tcp' := tcp[k := e];
            var pool' := if id == k.iface then PoolRest(pool) else pool;
            Count(tcp', OnIface(id)) + |pool'| <= Risen(peak, k.iface, Count(tcp', OnIface(k.iface)))[id]
  {
    CountPut(tcp, k, e, OnIface(id));
  }

  lemma InsertTcpPools(cfg: Config, a: map<InterfaceId, Slot>, b: map<InterfaceId, Slot>,
          tcp: map<SessionKey, TcpEntry>, peak: map<InterfaceId, nat>, k: SessionKey, e: TcpEntry, bytes: nat,
            shared: nat, failed: nat)
    requires Pools(cfg, a, tcp, peak) && k !in tcp && k.iface in a && b.Keys == a.Keys
    requires forall id :: id in a ==> b[id].pool == if id == k.iface then PoolRest(a[id].pool) else a[id].pool
    requires |tcp| < cfg.tcpMaxConnections && Budget(cfg, bytes, |tcp[k := e]|, shared, failed)
    ensures var tcp' := tcp[k := e];
            Pools(cfg, b, tcp', Risen(peak, k.iface, Count(tcp', OnIface(k.iface))))
  {
    var tcp' := tcp[k := e];
    var live := Count(tcp', OnIface(k.iface));
    CountBound(tcp', OnIface(k.iface));
    PutSize(tcp, k, e);
    TimesMono(live, |tcp'|, 2 * cfg.tcpBufferSize);
    forall id | id in b
      ensures forall p :: p in b[id].pool ==> p in a[id].pool
      ensures Count(tcp', OnIface(id)) + |b[id].pool| <= Risen(peak, k.iface, live)[id]
    {
      InsertTcpPool(tcp, peak, a[id].pool, k, e, id);
    }
  }

  lemma InsertTcpLedger(tcp: map<SessionKey, TcpEntry>, udp: map<SessionKey, UdpEntry>, streams: map<StreamId, Stream>,
          hist: History, k: SessionKey, h: Handle, peak: map<InterfaceId, nat>)
    requires Ledger(tcp, udp, streams, hist) && k !in tcp
    ensures Ledger(tcp[k := TcpEntry(h, Pending, false)], udp, streams,
              hist.(created := hist.created + 1, peak := peak))
  {
    var e := TcpEntry(h, Pending, false);
    PutSize(tcp, k, e);
    CountPut(tcp, k, e, NotPending());
    CountPut(tcp, k, e, Orphaned());
  }

  /** A charge of one more TCP socket, if it fits. */
  lemma ChargeTcp(s: State, r: State)
    requires Budget(s.cfg, s.bytes, |s.tcp|, |s.dsts|, s.hist.failedBinds) &&
             Reservable(s.cfg, s.bytes, 2 * s.cfg.tcpBufferSize)
    requires r.cfg == s.cfg && |r.tcp| == |s.tcp| + 1 && r.dsts == s.dsts && r.hist.failedBinds == s.hist.failedBinds
    requires r.bytes == s.bytes + 2 * s.cfg.tcpBufferSize
    ensures Budget(r.cfg, r.bytes, |r.tcp|, |r.dsts|, r.hist.failedBinds)
  {
  }

  lemma AllocTcpInv(s: State, k: SessionKey, listens: bool, h: Handle)
    requires Inv(s) && k.iface in s.slots && k.proto == Tcp && k !in s.tcp
    requires |s.tcp| < s.cfg.tcpMaxConnections && h !in s.slots[k.iface].sockets
    ensures Inv(AllocTcp(s, k, listens, h))
  {
    if !Reservable(s.cfg, s.bytes, TcpCost(s.slots[k.iface])) {
    } else if listens {
      TcpListenInv(s, k, h);
    } else {
      TcpListenFailsInv(s, k);
    }
  }

  lemma TcpListenFailsInv(s: State, k: SessionKey)
    requires Inv(s) && k.iface in s.slots
    ensures Inv(TcpListenFails(s, k))
  {
    InvPools(s);
    PoppedPools(s.cfg, s.slots, s.tcp, s.hist.peak, k.iface);
    PoolOnly(s, TcpListenFails(s, k).slots);
  }

  lemma TcpListenInv(s: State, k: SessionKey, h: Handle)
    requires Inv(s) && k.iface in s.slots && k.proto == Tcp && k !in s.tcp
    requires |s.tcp| < s.cfg.tcpMaxConnections && h !in s.slots[k.iface].sockets
    requires Reservable(s.cfg, s.bytes, TcpCost(s.slots[k.iface]))
    ensures Inv(TcpListen(s, k, h))
  {
    InvParts(s);
    TcpListenOwnership(s, k, h);
    TcpListenBudget(s, k, h);
    InsertTcpLedger(s.tcp, s.udp, s.streams, s.hist, k, h, TcpListen(s, k, h).hist.peak);
    InsertTcpExposed(s.tcp, s.streams, s.hist.accepted, k, h);
    PartsInv(TcpListen(s, k, h));
  }

  /** The parts of `Inv` that bound memory after a successful listen. */
  lemma TcpListenBudget(s: State, k: SessionKey, h: Handle)
    requires Shape(s.cfg, s.slots) && Pools(s.cfg, s.slots, s.tcp, s.hist.peak) && Caps(s.cfg, s.tcp, s.udp)
    requires Budget(s.cfg, s.bytes, |s.tcp|, |s.dsts|, s.hist.failedBinds)
    requires k.iface in s.slots && k !in s.tcp && |s.tcp| < s.cfg.tcpMaxConnections
    requires Reservable(s.cfg, s.bytes, TcpCost(s.slots[k.iface]))
    ensures var r := TcpListen(s, k, h);
            && Budget(r.cfg, r.bytes, |r.tcp|, |r.dsts|, r.hist.failedBinds)
            && Pools(r.cfg, r.slots, r.tcp, r.hist.peak)
            && Caps(r.cfg, r.tcp, r.udp)
  {
    var r := TcpListen(s, k, h);
    var e := TcpEntry(h, Pending, false);
    PutSize(s.tcp, k, e);
    SlotCosts(s.cfg, s.slots, k.iface);
    ChargeTcp(s, r);
    InsertTcpPools(s.cfg, s.slots, r.slots, s.tcp, s.hist.peak, k, e, r.bytes, |s.dsts|, s.hist.failedBinds);
  }

  /** The ownership parts of `Inv` after a successful listen. */
  lemma TcpListenOwnership(s: State, k: SessionKey, h: Handle)
    requires Shape(s.cfg, s.slots) && TcpOwned(s.slots, s.tcp) && DstOwned(s.slots, s.dsts) &&
             NoLeak(s.slots, s.tcp, s.dsts)
    requires k.iface in s.slots && k.proto == Tcp && k !in s.tcp && h !in s.slots[k.iface].sockets
    ensures var r := TcpListen(s, k, h);
            && Shape(r.cfg, r.slots) && TcpOwned(r.slots, r.tcp) && DstOwned(r.slots, r.dsts)
            && NoLeak(r.slots, r.tcp, r.dsts)
  {
    var slots := TcpListen(s, k, h).slots;
    var sock := TcpSock(Listen, k.dst);
    AddedShape(s.cfg, s.slots, slots, k.iface, h, sock);
    AddedTcp(s.slots, slots, s.tcp, k.iface, h, sock);
    InsertTcpOwned(slots, s.tcp, k, h);
    AddedDst(s.slots, slots, s.dsts, k.iface, h, sock);
    InsertTcpNoLeak(s.slots, slots, s.tcp, s.dsts, k, h);
  }

  lemma SlotCosts(cfg: Config, slots: map<InterfaceId, Slot>, id: InterfaceId)
    requires Shape(cfg, slots) && id in slots
    ensures TcpCost(slots[id]) == 2 * cfg.tcpBufferSize && UdpCost(cfg, slots[id].mtu) == UdpCost(cfg, cfg.mtu)
  {
  }

  /** Slots that differ only in their pools keep everything but `Pools`. */
  lemma PoolOnly(s: State, slots: map<InterfaceId, Slot>)
    requires Inv(s) && Pools(s.cfg, slots, s.tcp, s.hist.peak)
    requires forall id :: id in slots && id in s.slots ==> slots[id].(pool := []) == s.slots[id].(pool := [])
    ensures Inv(s.(slots := slots))
  {
    InvParts(s);
    assert slots.Keys == s.slots.Keys;
    assert Shape(s.cfg, slots);
    SocketsOnlyTcp(s.slots, slots, s.tcp);
    SocketsOnlyRest(s.slots, slots, s.tcp, s.dsts);
    PartsInv(s.(slots := slots));
  }

  lemma SocketsOnlyTcp(a: map<InterfaceId, Slot>, b: map<InterfaceId, Slot>, tcp: map<SessionKey, TcpEntry>)
    requires TcpOwned(a, tcp) && a.Keys == b.Keys && forall id :: id in a ==> a[id].sockets == b[id].sockets
    ensures TcpOwned(b, tcp)
  {
  }

  lemma SocketsOnlyRest(a: map<InterfaceId, Slot>, b: map<InterfaceId, Slot>, tcp: map<SessionKey, TcpEntry>,
          dsts: map<DstKey, SharedSocket>)
    requires DstOwned(a, dsts) && NoLeak(a, tcp, dsts) && a.Keys == b.Keys &&
             forall id :: id in a ==> a[id].sockets == b[id].sockets
    ensures DstOwned(b, dsts) && NoLeak(b, tcp, dsts)
  {
    assert forall id, h :: HasSocket(b, id, h) ==> HasSocket(a, id, h);
  }

  // ---- UDP ----

  lemma InsertUdpNoLeak(a: map<InterfaceId, Slot>, b: map<InterfaceId, Slot>, tcp: map<SessionKey, TcpEntry>,
          dsts: map<DstKey, SharedSocket>, d: DstKey, h: Handle)
    requires NoLeak(a, tcp, dsts) && d !in dsts && Added(a, b, d.iface, h, UdpSock(d.ep, [], []))
    ensures NoLeak(b, tcp, dsts[d := SharedSocket(h, 1)])
  {
    forall id, g | HasSocket(b, id, g) && !(id == d.iface && g == h)
      ensures HasSocket(a, id, g) && b[id].sockets[g] == a[id].sockets[g] {
    }
  }

  lemma InsertDstOwned(slots: map<InterfaceId, Slot>, dsts: map<DstKey, SharedSocket>, d: DstKey, shared: SharedSocket)
    requires DstOwned(slots, dsts)
    requires HasSocket(slots, d.iface, shared.handle)
    requires slots[d.iface].sockets[shared.handle].UdpSock? && slots[d.iface].sockets[shared.handle].bound == d.ep
    ensures DstOwned(slots, dsts[d := shared])
  {
  }

  /** One more session on `d`, with the count raised by one, or a first one with count 1. */
  lemma InsertRefCounts(udp: map<SessionKey, UdpEntry>, dsts: map<DstKey, SharedSocket>, k: SessionKey, e: UdpEntry,
          shared: SharedSocket)
    requires RefCounts(udp, dsts) && k !in udp
    requires e.socket == shared.handle
    requires if DstOf(k) in dsts
             then shared == dsts[DstOf(k)].(count := dsts[DstOf(k)].count + 1)
             else shared.count == 1
    ensures RefCounts(udp[k := e], dsts[DstOf(k) := shared])
  {
    var d := DstOf(k);
    var udp', dsts' := udp[k := e], dsts[d := shared];
    if d !in dsts {
      assert Selected(udp, ToDst(d)) == {};
    }
    forall c | c in dsts' ensures 1 <= dsts'[c].count == Count(udp', ToDst(c)) {
      CountPut(udp, k, e, ToDst(c));
    }
  }

  lemma InsertLinked(udp: map<SessionKey, UdpEntry>, queues: map<QueueId, Queue>, sessions: map<QueueId, Session>,
          made: nat, k: SessionKey, h: Handle, now: Instant)
    requires Linked(udp, queues, sessions, made) && k !in udp && k.proto == Udp
    ensures Linked(udp[k := UdpEntry(h, made, now)], queues[made := Queue([], false)], sessions[made := Session(k, h)],
              made + 1)
  {
    var udp' := udp[k := UdpEntry(h, made, now)];
    var queues' := queues[made := Queue([], false)];
    var sessions' := sessions[made := Session(k, h)];
    forall q | q in queues' && !queues'[q].closed
      ensures q in sessions' && sessions'[q].key in udp' && udp'[sessions'[q].key].queue == q {
      if q != made {
        assert q in queues && !queues[q].closed;
      }
    }
  }

  /** A charge of one more shared UDP socket, whether or not its bind succeeds. */
  lemma ChargeUdp(s: State, r: State)
    requires Budget(s.cfg, s.bytes, |s.tcp|, |s.dsts|, s.hist.failedBinds) &&
             Reservable(s.cfg, s.bytes, UdpCost(s.cfg, s.cfg.mtu))
    requires r.cfg == s.cfg && r.tcp == s.tcp && |r.dsts| + r.hist.failedBinds == |s.dsts| + s.hist.failedBinds + 1
    requires r.bytes == s.bytes + UdpCost(s.cfg, s.cfg.mtu)
    ensures Budget(r.cfg, r.bytes, |r.tcp|, |r.dsts|, r.hist.failedBinds)
  {
  }

  lemma AddedPools(cfg: Config, a: map<InterfaceId, Slot>, b: map<InterfaceId, Slot>, tcp: map<SessionKey, TcpEntry>,
          peak: map<InterfaceId, nat>, id: InterfaceId, h: Handle, sock: Socket)
    requires Pools(cfg, a, tcp, peak) && Added(a, b, id, h, sock) && b[id].pool == a[id].pool
    ensures Pools(cfg, b, tcp, peak)
  {
    assert forall i :: i in a ==> b[i].pool == a[i].pool;
  }

  /** The session-level parts of `Inv` after `AddSession`. */
  lemma AddSessionLinks(s: State, k: SessionKey, h: Handle, now: Instant)
    requires Linked(s.udp, s.queues, s.sessions, s.hist.retains) && Ledger(s.tcp, s.udp, s.streams, s.hist) &&
             Caps(s.cfg, s.tcp, s.udp)
    requires k !in s.udp && k.proto == Udp && |s.udp| < s.cfg.udpMaxSessions
    ensures var r := AddSession(s, k, h, now);
            && Linked(r.udp, r.queues, r.sessions, r.hist.retains)
            && Ledger(r.tcp, r.udp, r.streams, r.hist)
            && Caps(r.cfg, r.tcp, r.udp)
  {
    InsertLinked(s.udp, s.queues, s.sessions, s.hist.retains, k, h, now);
    PutSize(s.udp, k, UdpEntry(h, s.hist.retains, now));
  }

  lemma AllocUdpInv(s: State, k: SessionKey, binds: bool, h: Handle, now: Instant)
    requires Inv(s) && k.iface in s.slots && k.proto == Udp && k !in s.udp
    requires |s.udp| < s.cfg.udpMaxSessions && h !in s.slots[k.iface].sockets
    ensures Inv(AllocUdp(s, k, binds, h, now))
  {
    if DstOf(k) in s.dsts {
      JoinSharedInv(s, k, now);
    } else if Reservable(s.cfg, s.bytes, UdpCost(s.cfg, s.slots[k.iface].mtu)) {
      if binds {
        BindSharedInv(s, k, h, now);
      } else {
        BindFailsInv(s, k);
      }
    }
  }

  lemma BindFailsInv(s: State, k: SessionKey)
    requires Inv(s) && k.iface in s.slots && Reservable(s.cfg, s.bytes, UdpCost(s.cfg, s.slots[k.iface].mtu))
    ensures Inv(BindFails(s, k))
  {
    InvParts(s);
    SlotCosts(s.cfg, s.slots, k.iface);
    ChargeUdp(s, BindFails(s, k));
    PartsInv(BindFails(s, k));
  }

  lemma JoinSharedInv(s: State, k: SessionKey, now: Instant)
    requires Inv(s) && k.proto == Udp && k !in s.udp && DstOf(k) in s.dsts && |s.udp| < s.cfg.udpMaxSessions
    ensures Inv(JoinShared(s, k, now))
  {
    InvParts(s);
    AddSessionLinks(s.(dsts := Retain(s.dsts, DstOf(k))), k, s.dsts[DstOf(k)].handle, now);
    RetainOwned(s.slots, s.tcp, s.dsts, DstOf(k));
    JoinSharedCounts(s, k, now);
    RetainSize(s.dsts, DstOf(k));
    PartsInv(JoinShared(s, k, now));
  }

  lemma JoinSharedTables(s: State, k: SessionKey, now: Instant)
    requires DstOf(k) in s.dsts
    ensures JoinShared(s, k, now).udp == s.udp[k := UdpEntry(s.dsts[DstOf(k)].handle, s.hist.retains, now)]
    ensures JoinShared(s, k, now).dsts == Retain(s.dsts, DstOf(k))
  {
  }

  lemma JoinSharedCounts(s: State, k: SessionKey, now: Instant)
    requires RefCounts(s.udp, s.dsts) && k !in s.udp && DstOf(k) in s.dsts
    ensures var r := JoinShared(s, k, now); RefCounts(r.udp, r.dsts)
  {
    JoinSharedTables(s, k, now);
    var shared := s.dsts[DstOf(k)];
    InsertRefCounts(s.udp, s.dsts, k, UdpEntry(shared.handle, s.hist.retains, now), shared.(count := shared.count + 1));
  }

  lemma RetainSize(dsts: map<DstKey, SharedSocket>, d: DstKey)
    requires d in dsts
    ensures |Retain(dsts, d)| == |dsts|
  {
    PutSize(dsts, d, dsts[d].(count := dsts[d].count + 1));
  }

  lemma RetainOwned(slots: map<InterfaceId, Slot>, tcp: map<SessionKey, TcpEntry>, dsts: map<DstKey, SharedSocket>,
          d: DstKey)
    requires DstOwned(slots, dsts) && NoLeak(slots, tcp, dsts) && d in dsts
    ensures DstOwned(slots, Retain(dsts, d)) && NoLeak(slots, tcp, Retain(dsts, d))
  {
  }

  lemma BindSharedInv(s: State, k: SessionKey, h: Handle, now: Instant)
    requires Inv(s) && k.iface in s.slots && k.proto == Udp && k !in s.udp && DstOf(k) !in s.dsts
    requires |s.udp| < s.cfg.udpMaxSessions && h !in s.slots[k.iface].sockets
    requires Reservable(s.cfg, s.bytes, UdpCost(s.cfg, s.slots[k.iface].mtu))
    ensures Inv(BindShared(s, k, h, now))
  {
    var r := BindShared(s, k, h, now);
    InvParts(s);
    BindSharedOwnership(s, k, h, now);
    SlotCosts(s.cfg, s.slots, k.iface);
    PutSize(s.dsts, DstOf(k), SharedSocket(h, 1));
    ChargeUdp(s, r);
    InsertRefCounts(s.udp, s.dsts, k, UdpEntry(h, s.hist.retains, now), SharedSocket(h, 1));
    AddSessionLinks(s.(slots := r.slots, dsts := r.dsts, bytes := r.bytes), k, h, now);
    PartsInv(r);
  }

  lemma BindSharedOwnership(s: State, k: SessionKey, h: Handle, now: Instant)
    requires Shape(s.cfg, s.slots) && TcpOwned(s.slots, s.tcp) && DstOwned(s.slots, s.dsts) &&
             NoLeak(s.slots, s.tcp, s.dsts)
    requires Pools(s.cfg, s.slots, s.tcp, s.hist.peak)
    requires k.iface in s.slots && DstOf(k) !in s.dsts && h !in s.slots[k.iface].sockets
    ensures var r := BindShared(s, k, h, now);
            && Shape(r.cfg, r.slots) && TcpOwned(r.slots, r.tcp) && DstOwned(r.slots, r.dsts)
            && NoLeak(r.slots, r.tcp, r.dsts)
            && Pools(r.cfg, r.slots, r.tcp, r.hist.peak)
  {
    var d := DstOf(k);
    var sock := UdpSock(k.dst, [], []);
    var slots := BindShared(s, k, h, now).slots;
    AddedShape(s.cfg, s.slots, slots, k.iface, h, sock);
    AddedTcp(s.slots, slots, s.tcp, k.iface, h, sock);
    AddedDst(s.slots, slots, s.dsts, k.iface, h, sock);
    InsertDstOwned(slots, s.dsts, d, SharedSocket(h, 1));
    InsertUdpNoLeak(s.slots, slots, s.tcp, s.dsts, d, h);
    AddedPools(s.cfg, s.slots, slots, s.tcp, s.hist.peak, k.iface, h, sock);
  }

  // ---- Folds over packets and interfaces ----

  ghost predicate FreshPicks(ch: Choices) {
    forall id, live :: ch.pick(id, live) !in live
  }

  lemma PacketStepInv(s: State, id: InterfaceId, j: nat, pkt: Packet, ch: Choices)
    requires Inv(s) && id in s.slots && FreshPicks(ch)
    ensures Inv(PacketStep(s, id, j, pkt, ch))
  {
    var h := ch.pick(id, s.slots[id].sockets.Keys);
    if PacketStep(s, id, j, pkt, ch) == s {
    } else if pkt.TcpPacket? {
      AllocTcpInv(s, SessionKey(id, Tcp, pkt.src, pkt.dst), ch.opens(id, j), h);
    } else {
      AllocUdpInv(s, SessionKey(id, Udp, pkt.src, pkt.dst), ch.opens(id, j), h, ch.now);
    }
  }

  lemma {:induction false} PacketsInv(s: State, id: InterfaceId, j: nat, pkts: seq<Packet>, ch: Choices)
    requires Inv(s) && id in s.slots && FreshPicks(ch) && j <= |pkts|
    ensures Inv(Packets(s, id, j, pkts, ch))
    decreases |pkts| - j
  {
    if j < |pkts| {
      PacketStepInv(s, id, j, pkts[j], ch);
      PacketsInv(PacketStep(s, id, j, pkts[j], ch), id, j + 1, pkts, ch);
    }
  }

  lemma IngressOnly(slots: map<InterfaceId, Slot>, id: InterfaceId, pkts: seq<Packet>)
    requires id in slots
    ensures SameSockets(slots, SetSlot(slots, id, slots[id].(ingress := pkts)))
  {
  }

  lemma WithIngressInv(s: State, id: InterfaceId, pkts: seq<Packet>)
    requires Inv(s) && id in s.slots
    ensures Inv(WithIngress(s, id, pkts))
  {
    IngressOnly(s.slots, id, pkts);
    SameSocketsKeepInv(s, WithIngress(s, id, pkts).slots);
  }

  lemma PreSlotInv(s: State, id: InterfaceId, ch: Choices)
    requires Inv(s) && id in s.slots && FreshPicks(ch)
    ensures Inv(PreSlot(s, id, ch))
  {
    var pkts := s.slots[id].ingress;
    WithIngressInv(s, id, []);
    PacketsInv(WithIngress(s, id, []), id, 0, pkts, ch);
    var t := Packets(WithIngress(s, id, []), id, 0, pkts, ch);
    WithIngressInv(t, id, t.slots[id].ingress + pkts);
  }

  lemma {:induction false} PrePassInv(s: State, ids: seq<InterfaceId>, ch: Choices)
    requires Inv(s) && FreshPicks(ch) && forall id :: id in ids ==> id in s.slots
    ensures Inv(PrePass(s, ids, ch))
    decreases |ids|
  {
    if ids != [] {
      PreSlotInv(s, ids[0], ch);
      PrePassInv(PreSlot(s, ids[0], ch), ids[1..], ch);
    }
  }
}

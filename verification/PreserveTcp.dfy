/** TCP transitions, reaping and stream drops keep the invariant. */
module PreserveTcp {
  import opened Types
  import opened Connections
  import opened Counting
  import opened Ops
  import opened Invariant
  import opened PreserveAlloc

  // ---- One entry changes state but keeps its handle ----

  lemma RestateOwned(slots: map<InterfaceId, Slot>, tcp: map<SessionKey, TcpEntry>, k: SessionKey, e: TcpEntry)
    requires TcpOwned(slots, tcp) && k in tcp && e.handle == tcp[k].handle
    ensures TcpOwned(slots, tcp[k := e])
  {
  }

  lemma RestateNoLeak(slots: map<InterfaceId, Slot>, tcp: map<SessionKey, TcpEntry>, dsts: map<DstKey, SharedSocket>,
          k: SessionKey, e: TcpEntry)
    requires NoLeak(slots, tcp, dsts) && k in tcp && e.handle == tcp[k].handle
    ensures NoLeak(slots, tcp[k := e], dsts)
  {
    var tcp' := tcp[k := e];
    forall id, h | HasSocket(slots, id, h) && slots[id].sockets[h].TcpSock? ensures OwnedBySession(tcp', id, h) {
      var l :| l in tcp && l.iface == id && tcp[l].handle == h;
      assert l in tcp' && tcp'[l].handle == h;
    }
  }

  lemma RestatePools(cfg: Config, slots: map<InterfaceId, Slot>, tcp: map<SessionKey, TcpEntry>,
          peak: map<InterfaceId, nat>, k: SessionKey, e: TcpEntry)
    requires Pools(cfg, slots, tcp, peak) && k in tcp
    ensures Pools(cfg, slots, tcp[k := e], peak)
  {
    forall id | id in slots ensures Count(tcp[k := e], OnIface(id)) == Count(tcp, OnIface(id)) {
      CountPut(tcp, k, e, OnIface(id));
    }
  }

  // ---- Visiting an entry ----

  /** Accepting: a pending entry becomes established and gets the first stream under its key. */
  lemma AcceptExposed(tcp: map<SessionKey, TcpEntry>, streams: map<StreamId, Stream>, made: nat, k: SessionKey)
    requires Exposed(tcp, streams, made) && k in tcp && tcp[k].state.Pending?
    ensures Exposed(tcp[k := tcp[k].(state := TcpState.Established)], streams[made := Stream(k, tcp[k].handle)],
              made + 1)
  {
    var streams' := streams[made := Stream(k, tcp[k].handle)];
    assert made in streams' && streams'[made].key == k;
    forall l | l in tcp && l != k && !tcp[l].state.Pending? && !tcp[l].orphaned ensures HasStream(streams', l) {
      var x :| x in streams && streams[x].key == l;
      assert x in streams' && streams'[x].key == l;
    }
  }

  lemma FinishExposed(tcp: map<SessionKey, TcpEntry>, streams: map<StreamId, Stream>, made: nat, k: SessionKey)
    requires Exposed(tcp, streams, made) && k in tcp && !tcp[k].state.Pending?
    ensures Exposed(tcp[k := tcp[k].(state := TcpState.Closed)], streams, made)
  {
  }

  lemma AcceptLedger(s: State, k: SessionKey)
    requires Ledger(s.tcp, s.udp, s.streams, s.hist) && Exposed(s.tcp, s.streams, s.hist.accepted)
    requires k in s.tcp && s.tcp[k].state.Pending?
    ensures Ledger(s.tcp[k := s.tcp[k].(state := TcpState.Established)], s.udp,
                   s.streams[s.hist.accepted := Stream(k, s.tcp[k].handle)], s.hist.(accepted := s.hist.accepted + 1))
  {
    var e := s.tcp[k].(state := TcpState.Established);
    PutSize(s.tcp, k, e);
    CountPut(s.tcp, k, e, NotPending());
    CountPut(s.tcp, k, e, Orphaned());
    PutSize(s.streams, s.hist.accepted, Stream(k, s.tcp[k].handle));
  }

  lemma FinishLedger(s: State, k: SessionKey)
    requires Ledger(s.tcp, s.udp, s.streams, s.hist) && k in s.tcp && !s.tcp[k].state.Pending?
    ensures Ledger(s.tcp[k := s.tcp[k].(state := TcpState.Closed)], s.udp, s.streams, s.hist)
  {
    var e := s.tcp[k].(state := TcpState.Closed);
    PutSize(s.tcp, k, e);
    CountPut(s.tcp, k, e, NotPending());
    CountPut(s.tcp, k, e, Orphaned());
  }

  /** The parts of `Inv` that do not read entry states. */
  lemma RestateRest(s: State, k: SessionKey, e: TcpEntry)
    requires TcpOwned(s.slots, s.tcp) && NoLeak(s.slots, s.tcp, s.dsts) && Pools(s.cfg, s.slots, s.tcp, s.hist.peak)
    requires k in s.tcp && e.handle == s.tcp[k].handle
    ensures TcpOwned(s.slots, s.tcp[k := e]) && NoLeak(s.slots, s.tcp[k := e], s.dsts) &&
            Pools(s.cfg, s.slots, s.tcp[k := e], s.hist.peak)
    ensures |s.tcp[k := e]| == |s.tcp|
  {
    RestateOwned(s.slots, s.tcp, k, e);
    RestateNoLeak(s.slots, s.tcp, s.dsts, k, e);
    RestatePools(s.cfg, s.slots, s.tcp, s.hist.peak, k, e);
    PutSize(s.tcp, k, e);
  }

  lemma AcceptInv(s: State, k: SessionKey)
    requires Inv(s) && k in s.tcp && s.tcp[k].state.Pending?
    ensures Inv(Accept(s, k))
  {
    InvParts(s);
    RestateRest(s, k, s.tcp[k].(state := TcpState.Established));
    AcceptExposed(s.tcp, s.streams, s.hist.accepted, k);
    AcceptLedger(s, k);
    PartsInv(Accept(s, k));
  }

  lemma FinishInv(s: State, k: SessionKey)
    requires Inv(s) && k in s.tcp && !s.tcp[k].state.Pending?
    ensures Inv(Finish(s, k))
  {
    InvParts(s);
    RestateRest(s, k, s.tcp[k].(state := TcpState.Closed));
    FinishExposed(s.tcp, s.streams, s.hist.accepted, k);
    FinishLedger(s, k);
    PartsInv(Finish(s, k));
  }

  /** A visit changes nothing, accepts a pending entry or finishes an established one. */
  lemma VisitCases(s: State, k: SessionKey)
    ensures || Visit(s, k) == s
            || (k in s.tcp && s.tcp[k].state.Pending? && Visit(s, k) == Accept(s, k))
            || (k in s.tcp && s.tcp[k].state.Established? && Visit(s, k) == Finish(s, k))
  {
  }

  lemma VisitOwned(s: State, k: SessionKey)
    requires TcpOwned(s.slots, s.tcp)
    ensures var t := Visit(s, k); t.slots == s.slots && TcpOwned(t.slots, t.tcp) && t.tcp.Keys == s.tcp.Keys
  {
    VisitCases(s, k);
    if k in s.tcp {
      RestateOwned(s.slots, s.tcp, k, s.tcp[k].(state := TcpState.Established));
      RestateOwned(s.slots, s.tcp, k, s.tcp[k].(state := TcpState.Closed));
    }
  }

  lemma VisitInv(s: State, k: SessionKey)
    requires Inv(s)
    ensures Inv(Visit(s, k))
  {
    VisitCases(s, k);
    if Visit(s, k) == s {
    } else if s.tcp[k].state.Pending? {
      AcceptInv(s, k);
    } else {
      FinishInv(s, k);
    }
  }

  lemma {:induction false} VisitAllInv(s: State, ks: seq<SessionKey>)
    requires Inv(s)
    ensures Inv(VisitAll(s, ks))
    decreases |ks|
  {
    if ks != [] {
      VisitInv(s, ks[0]);
      VisitAllInv(Visit(s, ks[0]), ks[1..]);
    }
  }

  // ---- A socket leaves a set ----

  /** `b` is `a` with handle `h` of interface `id` removed; pools may differ. */
  ghost predicate Removed(a: map<InterfaceId, Slot>, b: map<InterfaceId, Slot>, id: InterfaceId, h: Handle) {
    && id in a && h in a[id].sockets
    && b.Keys == a.Keys
    && (forall i :: i in a && i != id ==> b[i] == a[i])
    && b[id].sockets == a[id].sockets - {h}
    && b[id].(sockets := map[], pool := []) == a[id].(sockets := map[], pool := [])
  }

  lemma RemovedShape(cfg: Config, a: map<InterfaceId, Slot>, b: map<InterfaceId, Slot>, id: InterfaceId, h: Handle)
    requires Shape(cfg, a) && Removed(a, b, id, h)
    ensures Shape(cfg, b)
  {
  }

  lemma RemovedTcp(a: map<InterfaceId, Slot>, b: map<InterfaceId, Slot>, tcp: map<SessionKey, TcpEntry>,
          id: InterfaceId, h: Handle)
    requires TcpOwned(a, tcp) && Removed(a, b, id, h)
    requires forall k :: k in tcp && k.iface == id ==> tcp[k].handle != h
    ensures TcpOwned(b, tcp)
  {
  }

  lemma RemovedDst(a: map<InterfaceId, Slot>, b: map<InterfaceId, Slot>, dsts: map<DstKey, SharedSocket>,
          id: InterfaceId, h: Handle)
    requires DstOwned(a, dsts) && Removed(a, b, id, h)
    requires forall d :: d in dsts && d.iface == id ==> dsts[d].handle != h
    ensures DstOwned(b, dsts)
  {
  }

  // ---- Reaping ----

  lemma ReapNoLeak(a: map<InterfaceId, Slot>, b: map<InterfaceId, Slot>, tcp: map<SessionKey, TcpEntry>,
          dsts: map<DstKey, SharedSocket>, k: SessionKey)
    requires NoLeak(a, tcp, dsts) && k in tcp && Removed(a, b, k.iface, tcp[k].handle)
    ensures NoLeak(b, tcp - {k}, dsts)
  {
    forall id, g | HasSocket(b, id, g)
      ensures HasSocket(a, id, g) && b[id].sockets[g] == a[id].sockets[g] && !(id == k.iface && g == tcp[k].handle)
    {
    }
    forall id, g | HasSocket(b, id, g) && b[id].sockets[g].TcpSock? ensures OwnedBySession(tcp - {k}, id, g) {
      var l :| l in tcp && l.iface == id && tcp[l].handle == g;
      assert l in tcp - {k} && (tcp - {k})[l].handle == g;
    }
  }

  lemma ReapSlots(s: State, k: SessionKey)
    requires TcpOwned(s.slots, s.tcp) && k in s.tcp
    ensures HasSocket(s.slots, k.iface, s.tcp[k].handle) && s.slots[k.iface].sockets[s.tcp[k].handle].TcpSock?
    ensures Removed(s.slots, Reap(s, k).slots, k.iface, s.tcp[k].handle)
  {
  }

  lemma ReapOwnership(s: State, k: SessionKey)
    requires Shape(s.cfg, s.slots) && TcpOwned(s.slots, s.tcp) && DstOwned(s.slots, s.dsts) &&
             NoLeak(s.slots, s.tcp, s.dsts)
    requires k in s.tcp
    ensures var r := Reap(s, k);
            Shape(r.cfg, r.slots) && TcpOwned(r.slots, r.tcp) && DstOwned(r.slots, r.dsts) &&
              NoLeak(r.slots, r.tcp, r.dsts)
  {
    var h := s.tcp[k].handle;
    var slots := Reap(s, k).slots;
    ReapSlots(s, k);
    RemovedShape(s.cfg, s.slots, slots, k.iface, h);
    assert TcpOwned(s.slots, s.tcp - {k});
    RemovedTcp(s.slots, slots, s.tcp - {k}, k.iface, h);
    RemovedDst(s.slots, slots, s.dsts, k.iface, h);
    ReapNoLeak(s.slots, slots, s.tcp, s.dsts, k);
  }

  lemma ReapExposed(tcp: map<SessionKey, TcpEntry>, streams: map<StreamId, Stream>, made: nat, k: SessionKey)
    requires Exposed(tcp, streams, made) && k in tcp && tcp[k].orphaned
    ensures Exposed(tcp - {k}, streams, made)
  {
  }

  lemma ReapLedger(s: State, k: SessionKey)
    requires Ledger(s.tcp, s.udp, s.streams, s.hist) && Exposed(s.tcp, s.streams, s.hist.accepted)
    requires k in s.tcp && s.tcp[k].orphaned
    ensures Ledger(s.tcp - {k}, s.udp, s.streams, s.hist.(reaped := s.hist.reaped + 1))
  {
    DropSize(s.tcp, k);
    CountDrop(s.tcp, k, NotPending());
    CountDrop(s.tcp, k, Orphaned());
  }

  /** Giving one TCP socket's cost back never saturates. */
  lemma RefundTcp(s: State, r: State)
    requires Budget(s.cfg, s.bytes, |s.tcp|, |s.dsts|, s.hist.failedBinds)
    requires r.cfg == s.cfg && |r.tcp| + 1 == |s.tcp| && r.dsts == s.dsts && r.hist.failedBinds == s.hist.failedBinds
    requires r.bytes == Release(s.bytes, 2 * s.cfg.tcpBufferSize)
    ensures 2 * s.cfg.tcpBufferSize <= s.bytes
    ensures Budget(r.cfg, r.bytes, |r.tcp|, |r.dsts|, r.hist.failedBinds)
  {
    assert Times(|s.tcp|, 2 * s.cfg.tcpBufferSize) == Times(|r.tcp|, 2 * s.cfg.tcpBufferSize) + 2 * s.cfg.tcpBufferSize;
  }

  /** The pool of `id` in `r` is within its cap and the peak, and holds closed sockets only. */
  ghost predicate PoolKept(s: State, r: State, id: InterfaceId) {
    && id in r.slots && id in s.hist.peak
    && |r.slots[id].pool| <= s.cfg.tcpPoolSize
    && Count(r.tcp, OnIface(id)) + |r.slots[id].pool| <= s.hist.peak[id]
    && forall p :: p in r.slots[id].pool ==> p.TcpSock? && p.state == SockState.Closed
  }

  lemma ReapPoolAt(s: State, k: SessionKey, id: InterfaceId)
    requires Shape(s.cfg, s.slots) && Pools(s.cfg, s.slots, s.tcp, s.hist.peak) && Reapable(s, k) && id in s.slots
    requires HasSocket(s.slots, k.iface, s.tcp[k].handle) && s.slots[k.iface].sockets[s.tcp[k].handle].TcpSock?
    ensures PoolKept(s, Reap(s, k), id)
  {
    CountDrop(s.tcp, k, OnIface(id));
  }

  lemma ReapPools(s: State, k: SessionKey)
    requires Shape(s.cfg, s.slots) && Pools(s.cfg, s.slots, s.tcp, s.hist.peak) && TcpOwned(s.slots, s.tcp) &&
             Reapable(s, k)
    ensures var r := Reap(s, k); Pools(r.cfg, r.slots, r.tcp, r.hist.peak)
  {
    var r := Reap(s, k);
    ReapSlots(s, k);
    forall id | id in r.slots ensures PoolKept(s, r, id) {
      ReapPoolAt(s, k, id);
    }
  }

  lemma ReapInv(s: State, k: SessionKey)
    requires Inv(s) && Reapable(s, k)
    ensures Inv(Reap(s, k))
  {
    InvParts(s);
    ReapOwnership(s, k);
    ReapBudget(s, k);
    ReapPools(s, k);
    ReapExposed(s.tcp, s.streams, s.hist.accepted, k);
    ReapLedger(s, k);
    PartsInv(Reap(s, k));
  }

  lemma ReapBudget(s: State, k: SessionKey)
    requires Shape(s.cfg, s.slots) && TcpOwned(s.slots, s.tcp) && Caps(s.cfg, s.tcp, s.udp) && k in s.tcp
    requires Budget(s.cfg, s.bytes, |s.tcp|, |s.dsts|, s.hist.failedBinds)
    ensures var r := Reap(s, k);
            Budget(r.cfg, r.bytes, |r.tcp|, |r.dsts|, r.hist.failedBinds) && Caps(r.cfg, r.tcp, r.udp)
  {
    ReapSlots(s, k);
    SlotCosts(s.cfg, s.slots, k.iface);
    DropSize(s.tcp, k);
    RefundTcp(s, Reap(s, k));
  }

  /** Reaping one entry leaves every other entry and its socket as they were. */
  lemma ReapFrame(s: State, k: SessionKey, l: SessionKey)
    requires TcpOwned(s.slots, s.tcp) && k in s.tcp && l in s.tcp && l != k
    ensures var r := Reap(s, k);
            l in r.tcp && r.tcp[l] == s.tcp[l] && SockStateOf(r.slots, l, r.tcp[l]) == SockStateOf(s.slots, l, s.tcp[l])
  {
    ReapSlots(s, k);
  }

  ghost predicate AllReapable(s: State, ks: seq<SessionKey>) {
    NoDup(ks) && forall i :: 0 <= i < |ks| ==> Reapable(s, ks[i])
  }

  lemma ReapRest(s: State, ks: seq<SessionKey>)
    requires TcpOwned(s.slots, s.tcp) && ks != [] && AllReapable(s, ks)
    ensures AllReapable(Reap(s, ks[0]), ks[1..])
  {
    forall i | 0 <= i < |ks[1..]| ensures Reapable(Reap(s, ks[0]), ks[1..][i]) {
      assert Reapable(s, ks[i + 1]);
      ReapFrame(s, ks[0], ks[i + 1]);
    }
  }

  lemma {:induction false} ReapAllInv(s: State, ks: seq<SessionKey>)
    requires Inv(s) && AllReapable(s, ks)
    ensures Inv(ReapAll(s, ks))
    decreases |ks|
  {
    if ks != [] {
      InvTcp(s);
      assert Reapable(s, ks[0]);
      ReapInv(s, ks[0]);
      ReapRest(s, ks);
      ReapAllInv(Reap(s, ks[0]), ks[1..]);
    }
  }

  lemma {:induction false} ReapListReapable(s: State, ks: seq<SessionKey>)
    requires NoDup(ks)
    ensures AllReapable(s, ReapList(s, ks))
    ensures forall k :: k in ReapList(s, ks) <==> k in ks && Reapable(s, k)
    decreases |ks|
  {
    if ks != [] {
      ReapListReapable(s, ks[1..]);
      assert ks[0] !in ks[1..];
    }
  }

  // ---- Dropping and shutting down streams ----

  lemma CloseSocketSame(slots: map<InterfaceId, Slot>, id: InterfaceId, h: Handle)
    ensures SameSockets(slots, CloseSocket(slots, id, h))
  {
    if HasSocket(slots, id, h) && slots[id].sockets[h].TcpSock? {
      PutSocketSame(slots, id, h, slots[id].sockets[h].(state := AfterClose(slots[id].sockets[h].state)));
    }
  }

  lemma OrphanExposed(tcp: map<SessionKey, TcpEntry>, streams: map<StreamId, Stream>, made: nat, x: StreamId)
    requires Exposed(tcp, streams, made) && x in streams
    ensures var k := streams[x].key; Exposed(tcp[k := tcp[k].(orphaned := true)], streams - {x}, made)
  {
    var k := streams[x].key;
    forall l | l in tcp && l != k && !tcp[l].state.Pending? && !tcp[l].orphaned ensures HasStream(streams - {x}, l) {
      var y :| y in streams && streams[y].key == l;
      assert y in streams - {x} && (streams - {x})[y].key == l;
    }
  }

  lemma OrphanLedger(s: State, x: StreamId)
    requires Ledger(s.tcp, s.udp, s.streams, s.hist) && Exposed(s.tcp, s.streams, s.hist.accepted) && x in s.streams
    ensures var k := s.streams[x].key;
            Ledger(s.tcp[k := s.tcp[k].(orphaned := true)], s.udp, s.streams - {x},
              s.hist.(dropped := s.hist.dropped + 1))
  {
    var k := s.streams[x].key;
    var e := s.tcp[k].(orphaned := true);
    PutSize(s.tcp, k, e);
    CountPut(s.tcp, k, e, NotPending());
    CountPut(s.tcp, k, e, Orphaned());
    DropSize(s.streams, x);
  }

  lemma DropStreamInv(s: State, x: StreamId)
    requires Inv(s) && x in s.streams
    ensures Inv(DropStream(s, x))
  {
    var k := s.streams[x].key;
    InvExposed(s);
    OrphanInv(s, x);
    CloseSocketSame(s.slots, k.iface, s.streams[x].handle);
    var t := s.(tcp := s.tcp[k := s.tcp[k].(orphaned := true)], streams := s.streams - {x},
      hist := s.hist.(dropped := s.hist.dropped + 1));
    SameSocketsKeepInv(t, CloseSocket(s.slots, k.iface, s.streams[x].handle));
  }

  lemma OrphanInv(s: State, x: StreamId)
    requires Inv(s) && x in s.streams && s.streams[x].key in s.tcp
    ensures Inv(s.(tcp := s.tcp[s.streams[x].key := s.tcp[s.streams[x].key].(orphaned := true)],
                   streams := s.streams - {x}, hist := s.hist.(dropped := s.hist.dropped + 1)))
  {
    var k := s.streams[x].key;
    InvParts(s);
    RestateRest(s, k, s.tcp[k].(orphaned := true));
    OrphanExposed(s.tcp, s.streams, s.hist.accepted, x);
    OrphanLedger(s, x);
    PartsInv(s.(tcp := s.tcp[k := s.tcp[k].(orphaned := true)], streams := s.streams - {x},
      hist := s.hist.(dropped := s.hist.dropped + 1)));
  }

  lemma ShutdownInv(s: State, x: StreamId)
    requires Inv(s) && x in s.streams
    ensures Inv(Shutdown(s, x))
  {
    CloseSocketSame(s.slots, s.streams[x].key.iface, s.streams[x].handle);
    SameSocketsKeepInv(s, Shutdown(s, x).slots);
  }
}

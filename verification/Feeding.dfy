/**
 Building runs: feed one packet to an idle netstack and take a cycle. What the cycle does
 is then the effect of that packet alone, followed by the post-pass.
 */
module Feeding {
  import opened Types
  import opened Connections
  import opened Ops
  import opened Invariant
  import opened PreserveAlloc
  import opened Redistribution
  import opened Tables
  import opened PrePassFacts
  import opened Runs
  import opened Isolation
  import opened Witness

  // ---- Nothing waits ----

  ghost predicate NoIngress(s: State) {
    forall id :: id in s.slots ==> s.slots[id].ingress == []
  }

  ghost predicate EmptyBuffers(slots: map<InterfaceId, Slot>) {
    forall id, h :: HasSocket(slots, id, h) && slots[id].sockets[h].UdpSock? ==> slots[id].sockets[h].rx == []
  }

  /** Nothing waits in any ingress queue or receive buffer. */
  ghost predicate Idle(s: State) {
    NoIngress(s) && EmptyBuffers(s.slots)
  }

  lemma InitIdle(cfg: Config)
    requires NoDup(cfg.ifaces)
    ensures Reachable(cfg, Init(cfg)) && Idle(Init(cfg))
  {
    assert ValidRun(Init(cfg), []) && After(Init(cfg), []) == Init(cfg);
  }

  lemma NothingOwed(s: State, k: SessionKey)
    requires EmptyBuffers(s.slots)
    ensures Owed(s, k) == []
  {
  }

  /** No dropped connection has a closed socket. */
  ghost predicate Unreapable(s: State) {
    forall k :: !Reapable(s, k)
  }

  // ---- Frames of the post-pass ----

  lemma ReapIngress(s: State, k: SessionKey, id: InterfaceId)
    requires id in s.slots
    ensures id in Reap(s, k).slots && Reap(s, k).slots[id].ingress == s.slots[id].ingress
  {
  }

  lemma {:induction false} ReapAllIngress(s: State, ks: seq<SessionKey>, id: InterfaceId)
    requires id in s.slots
    ensures id in ReapAll(s, ks).slots && ReapAll(s, ks).slots[id].ingress == s.slots[id].ingress
    decreases |ks|
  {
    if ks != [] {
      ReapIngress(s, ks[0], id);
      ReapAllIngress(Reap(s, ks[0]), ks[1..], id);
    }
  }

  /** The slots differ in their sockets only. */
  ghost predicate SocketsOnly(a: map<InterfaceId, Slot>, b: map<InterfaceId, Slot>) {
    a.Keys == b.Keys && forall id :: id in a ==> b[id] == a[id].(sockets := b[id].sockets)
  }

  lemma RemoveSocketsOnly(s: State, k: SessionKey)
    ensures SocketsOnly(s.slots, RemoveUdp(s, k).slots)
  {
  }

  lemma {:induction false} RemoveAllSocketsOnly(s: State, ks: seq<SessionKey>)
    ensures SocketsOnly(s.slots, RemoveAll(s, ks).slots)
    decreases |ks|
  {
    if ks != [] {
      RemoveSocketsOnly(s, ks[0]);
      RemoveAllSocketsOnly(RemoveUdp(s, ks[0]), ks[1..]);
    }
  }

  lemma ClearRxSocketsOnly(s: State)
    ensures SocketsOnly(s.slots, ClearRx(s).slots)
  {
  }

  lemma {:induction false} RemoveAllSockets(s: State, ks: seq<SessionKey>, id: InterfaceId, h: Handle)
    requires HasSocket(RemoveAll(s, ks).slots, id, h)
    ensures HasSocket(s.slots, id, h) && RemoveAll(s, ks).slots[id].sockets[h] == s.slots[id].sockets[h]
    decreases |ks|
  {
    if ks != [] {
      RemoveAllSockets(RemoveUdp(s, ks[0]), ks[1..], id, h);
      RemoveUdpSockets(s, ks[0], id, h);
    }
  }

  /** After the TCP part the post-pass changes nothing of a slot but its sockets. */
  lemma PostPassSlots(s: State, ch: Choices)
    ensures SocketsOnly(TcpPass(s, ch).slots, PostPass(s, ch).slots)
  {
    var t := TcpPass(s, ch);
    var u := Redistribute(t, ch);
    ClearRxSocketsOnly(t);
    RemoveAllSocketsOnly(u, ExpiredList(u, ch.udpOrder, ch.now));
  }

  lemma PostPassNoIngress(s: State, ch: Choices)
    requires NoIngress(s) && TcpPass(s, ch).slots.Keys == s.slots.Keys
    ensures NoIngress(PostPass(s, ch))
  {
    var v := VisitAll(s, ch.tcpOrder);
    PostPassSlots(s, ch);
    forall id | id in PostPass(s, ch).slots ensures PostPass(s, ch).slots[id].ingress == [] {
      ReapAllIngress(v, ReapList(v, ch.tcpOrder), id);
    }
  }

  lemma SweptBuffers(t: State, u: State, ks: seq<SessionKey>, now: Instant)
    requires IdealRedistribution(t, u, now)
    ensures EmptyBuffers(RemoveAll(u, ks).slots)
  {
    var r := RemoveAll(u, ks);
    forall id, h | HasSocket(r.slots, id, h) && r.slots[id].sockets[h].UdpSock?
      ensures r.slots[id].sockets[h].rx == [] {
      RemoveAllSockets(u, ks, id, h);
      assert HasSocket(t.slots, id, h);
    }
  }

  lemma PostPassBuffers(s: State, ch: Choices)
    requires Inv(s) && NoDup(ch.tcpOrder) && Enumerates(ch.dstOrder, s.dsts.Keys)
    ensures EmptyBuffers(PostPass(s, ch).slots)
  {
    var t := TcpPass(s, ch);
    TcpPassKeepsUdp(s, ch);
    RedistributionIsIdeal(t, ch);
    SweptBuffers(t, Redistribute(t, ch), ExpiredList(Redistribute(t, ch), ch.udpOrder, ch.now), ch.now);
  }

  lemma SameKeys(s: State, t: State)
    requires Shape(s.cfg, s.slots) && Shape(t.cfg, t.slots) && t.cfg == s.cfg
    ensures t.slots.Keys == s.slots.Keys
  {
  }

  lemma PostPassIdle(s: State, ch: Choices)
    requires Inv(s) && NoDup(ch.tcpOrder) && Enumerates(ch.dstOrder, s.dsts.Keys) && NoIngress(s)
    ensures Idle(PostPass(s, ch))
  {
    TcpPassKeepsUdp(s, ch);
    InvShape(s);
    InvShape(TcpPass(s, ch));
    SameKeys(s, TcpPass(s, ch));
    PostPassNoIngress(s, ch);
    PostPassBuffers(s, ch);
  }

  /** A post-pass forgets no session, reopens no queue and counts no failed bind. */
  lemma PostPassKeeps(p: State, ch: Choices)
    requires Inv(p) && NoDup(ch.tcpOrder) && Enumerates(ch.dstOrder, p.dsts.Keys) && Enumerates(ch.udpOrder, p.udp.Keys)
    ensures var r := PostPass(p, ch);
            && r.sessions == p.sessions && r.hist.failedBinds == p.hist.failedBinds && r.cfg == p.cfg
            && forall q :: q in p.queues && p.queues[q].closed ==> q in r.queues && r.queues[q].closed
  {
    TcpPassKeepsUdp(p, ch);
    RedistributionIsIdeal(TcpPass(p, ch), ch);
    SweepEffect(Redistribute(TcpPass(p, ch), ch), ch);
  }

  // ---- Sockets of listed connections ----

  lemma {:induction false} ReapAllSockets(s: State, ks: seq<SessionKey>, id: InterfaceId, h: Handle)
    requires HasSocket(ReapAll(s, ks).slots, id, h)
    ensures HasSocket(s.slots, id, h) && ReapAll(s, ks).slots[id].sockets[h] == s.slots[id].sockets[h]
    decreases |ks|
  {
    if ks != [] {
      ReapAllSockets(Reap(s, ks[0]), ks[1..], id, h);
      ReapSockets(s, ks[0], id, h);
    }
  }

  /** A socket that survives the post-pass is what it was, up to a drained receive buffer. */
  lemma PostPassSocket(p: State, ch: Choices, id: InterfaceId, h: Handle)
    requires HasSocket(PostPass(p, ch).slots, id, h) && PostPass(p, ch).slots[id].sockets[h].TcpSock?
    ensures HasSocket(p.slots, id, h) && PostPass(p, ch).slots[id].sockets[h] == p.slots[id].sockets[h]
  {
    var v, t := VisitAll(p, ch.tcpOrder), TcpPass(p, ch);
    var u := Redistribute(t, ch);
    RemoveAllSockets(u, ExpiredList(u, ch.udpOrder, ch.now), id, h);
    assert HasSocket(ClearRx(t).slots, id, h);
    assert HasSocket(t.slots, id, h) && t.slots[id].sockets[h] == u.slots[id].sockets[h];
    ReapAllSockets(v, ReapList(v, ch.tcpOrder), id, h);
  }

  lemma PostPassState(p: State, ch: Choices, k: SessionKey)
    requires Inv(p) && Enumerates(ch.tcpOrder, p.tcp.Keys) && k in PostPass(p, ch).tcp
    ensures k in p.tcp && StateIn(PostPass(p, ch), k) == StateIn(p, k)
  {
    var r := PostPass(p, ch);
    InvTcp(p);
    TcpPassEffect(p, ch, k);
    PostPassInv(p, ch);
    InvTcp(r);
    PostPassSocket(p, ch, k.iface, r.tcp[k].handle);
  }

  /** Whatever is reapable is reaped. */
  lemma PostPassUnreapable(p: State, ch: Choices)
    requires Inv(p) && Enumerates(ch.tcpOrder, p.tcp.Keys)
    ensures Unreapable(PostPass(p, ch))
  {
    InvTcp(p);
    forall k ensures !Reapable(PostPass(p, ch), k) {
      TcpPassEffect(p, ch, k);
      if k in PostPass(p, ch).tcp {
        PostPassState(p, ch, k);
      }
    }
  }

  // ---- A pre-pass with a single packet ----

  lemma PreSlotSingle(s: State, id: InterfaceId, pkt: Packet, ch: Choices)
    requires id in s.slots && s.slots[id].ingress == []
    ensures PreSlot(WithIngress(s, id, [pkt]), id, ch) == WithIngress(PacketStep(s, id, 0, pkt, ch), id, [pkt])
  {
    var t := WithIngress(s, id, [pkt]);
    assert WithIngress(t, id, []).slots == s.slots;
    var u := PacketStep(s, id, 0, pkt, ch);
    PacketStepIngress(s, id, 0, pkt, ch, id);
    assert Packets(s, id, 0, [pkt], ch) == Packets(u, id, 1, [pkt], ch) == u;
    assert [] + [pkt] == [pkt];
  }

  lemma {:induction false} PrePassSingle(s: State, ids: seq<InterfaceId>, id: InterfaceId, pkt: Packet, ch: Choices)
    requires NoIngress(s) && NoDup(ids) && id in ids && forall i :: i in ids ==> i in s.slots
    ensures PrePass(WithIngress(s, id, [pkt]), ids, ch) == WithIngress(PacketStep(s, id, 0, pkt, ch), id, [pkt])
    decreases |ids|
  {
    var t, u := WithIngress(s, id, [pkt]), WithIngress(PacketStep(s, id, 0, pkt, ch), id, [pkt]);
    assert ids[0] !in ids[1..];
    if ids[0] == id {
      PreSlotSingle(s, id, pkt, ch);
      forall i | i in ids[1..] ensures AllInert(u, i, u.slots[i].ingress) {
        PacketStepIngress(s, id, 0, pkt, ch, i);
      }
      InertPrePass(u, ids[1..], ch);
    } else {
      InertPreSlot(t, ids[0], ch);
      PrePassSingle(s, ids[1..], id, pkt, ch);
    }
  }

  // ---- Feeding ----

  /** The state in which the post-pass starts if `pkt` is the only packet and the poll settles the slots. */
  ghost function Fed(s: State, id: InterfaceId, pkt: Packet, ch: Choices, st: SockState): State
    requires id in s.slots
  {
    var q := PacketStep(s, id, 0, pkt, ch);
    q.(slots := Settled(q.slots, st))
  }

  /** The hash maps of `p` are enumerated in full. */
  ghost predicate Orders(p: State, ch: Choices) {
    Enumerates(ch.tcpOrder, p.tcp.Keys) && Enumerates(ch.dstOrder, p.dsts.Keys) && Enumerates(ch.udpOrder, p.udp.Keys)
  }

  lemma IngressQueued(s: State, id: InterfaceId, pkt: Packet)
    requires id in s.slots && NoIngress(s)
    ensures Enqueue(s, id, pkt) == WithIngress(s, id, [pkt])
  {
    assert [] + [pkt] == [pkt];
  }

  lemma SettledIngress(s: State, id: InterfaceId, pkts: seq<Packet>, st: SockState)
    requires id in s.slots
    ensures Settled(WithIngress(s, id, pkts).slots, st) == Settled(s.slots, st)
  {
  }

  /** Take a cycle at `now` in which opens go as `open` says and TCP sockets settle in `st`. */
  lemma Settle(cfg: Config, s: State, now: Instant, open: bool, st: SockState) returns (ch: Choices, r: State)
    requires Reachable(cfg, s)
    ensures SettlingCycle(s, ch, now, open, st)
    ensures Inv(Polled(s, ch)) && r == PostPass(Polled(s, ch), ch)
    ensures Reachable(cfg, r) && Leads(s, r) && Idle(r) && Unreapable(r)
  {
    ReachableInv(cfg, s);
    ch := SomeCycle(s, now, open, st);
    PolledInv(s, ch);
    r := PostPass(Polled(s, ch), ch);
    LeadsNowhere(s);
    LeadsOn(s, s, Cycle(ch));
    ReachableStep(cfg, s, Cycle(ch));
    PostPassIdle(Polled(s, ch), ch);
    PostPassUnreapable(Polled(s, ch), ch);
  }

  /** Feed one packet, then take such a cycle. */
  lemma Feed(cfg: Config, s: State, id: InterfaceId, pkt: Packet, now: Instant, open: bool, st: SockState)
    returns (ch: Choices, r: State)
    requires Reachable(cfg, s) && Idle(s) && id in s.slots
    ensures FreshPicks(ch) && Opens(ch, open) && ch.now == now
    ensures var p := Fed(s, id, pkt, ch, st); Inv(p) && p.cfg == cfg && Orders(p, ch) && r == PostPass(p, ch)
    ensures Reachable(cfg, r) && Leads(s, r) && Idle(r) && Unreapable(r)
  {
    ReachableInv(cfg, s);
    InvShape(s);
    IngressQueued(s, id, pkt);
    var t := WithIngress(s, id, [pkt]);
    assert t == Apply(s, Ingress(id, pkt));
    ReachableStep(cfg, s, Ingress(id, pkt));
    LeadsNowhere(s);
    LeadsOn(s, s, Ingress(id, pkt));
    ch, r := Settle(cfg, t, now, open, st);
    FedPolled(s, id, pkt, ch, now, open, st);
    LeadsFurther(s, t, r);
  }

  lemma FedPolled(s: State, id: InterfaceId, pkt: Packet, ch: Choices, now: Instant, open: bool, st: SockState)
    requires Shape(s.cfg, s.slots) && NoIngress(s) && id in s.slots &&
             SettlingCycle(WithIngress(s, id, [pkt]), ch, now, open, st)
    ensures var t, p := WithIngress(s, id, [pkt]), Fed(s, id, pkt, ch, st);
            Mapped(t) && Polled(t, ch) == p && NoIngress(p) && Orders(p, ch)
  {
    PrePassSingle(s, s.cfg.ifaces, id, pkt, ch);
    SettledIngress(PacketStep(s, id, 0, pkt, ch), id, [pkt], st);
  }

  lemma IdlePolled(s: State, ch: Choices, now: Instant, open: bool, st: SockState)
    requires NoIngress(s) && SettlingCycle(s, ch, now, open, st)
    ensures Polled(s, ch) == s.(slots := Settled(s.slots, st))
  {
    InertPrePass(s, s.cfg.ifaces, ch);
  }

  // ---- Cycles in which nothing is received and nothing expires ----

  /** No session is overdue at `now`. */
  ghost predicate Timely(s: State, now: Instant) {
    forall k :: k in s.udp ==> Elapsed(now, s.udp[k].lastActivity) <= s.cfg.udpTimeout
  }

  lemma {:induction false} NothingInSlot(s: State, id: InterfaceId, ds: seq<DstKey>)
    requires EmptyBuffers(s.slots)
    ensures DrainSlot(s, id, ds) == []
    decreases |ds|
  {
    if ds != [] {
      NothingInSlot(s, id, ds[1..]);
    }
  }

  lemma {:induction false} NothingDrained(s: State, ids: seq<InterfaceId>, ds: seq<DstKey>)
    requires EmptyBuffers(s.slots)
    ensures DrainAll(s, ids, ds) == []
    decreases |ids|
  {
    if ids != [] {
      NothingInSlot(s, ids[0], ds);
      NothingDrained(s, ids[1..], ds);
    }
  }

  lemma ClearedAlready(s: State)
    requires EmptyBuffers(s.slots)
    ensures ClearRx(s) == s
  {
    forall id | id in s.slots ensures ClearRx(s).slots[id] == s.slots[id] {
      forall h | h in s.slots[id].sockets ensures ClearRx(s).slots[id].sockets[h] == s.slots[id].sockets[h] {
        assert HasSocket(s.slots, id, h);
      }
      assert ClearRx(s).slots[id].sockets == s.slots[id].sockets;
    }
    assert ClearRx(s).slots == s.slots;
  }

  lemma {:induction false} NothingExpired(s: State, ks: seq<SessionKey>, now: Instant)
    requires Timely(s, now)
    ensures ExpiredList(s, ks, now) == []
    decreases |ks|
  {
    if ks != [] {
      NothingExpired(s, ks[1..], now);
    }
  }

  lemma {:induction false} ReapAllBuffers(s: State, ks: seq<SessionKey>)
    requires EmptyBuffers(s.slots)
    ensures EmptyBuffers(ReapAll(s, ks).slots)
    decreases |ks|
  {
    if ks != [] {
      ReapBuffers(s, ks[0]);
      ReapAllBuffers(Reap(s, ks[0]), ks[1..]);
    }
  }

  lemma ReapSockets(s: State, k: SessionKey, id: InterfaceId, h: Handle)
    requires HasSocket(Reap(s, k).slots, id, h)
    ensures HasSocket(s.slots, id, h) && Reap(s, k).slots[id].sockets[h] == s.slots[id].sockets[h]
  {
  }

  lemma ReapBuffers(s: State, k: SessionKey)
    requires EmptyBuffers(s.slots)
    ensures EmptyBuffers(Reap(s, k).slots)
  {
    var r := Reap(s, k);
    forall id, h | HasSocket(r.slots, id, h) && r.slots[id].sockets[h].UdpSock?
      ensures r.slots[id].sockets[h].rx == [] {
      ReapSockets(s, k, id, h);
    }
  }

  /** Then the post-pass is its TCP part. */
  lemma IdlePostPass(p: State, ch: Choices)
    requires EmptyBuffers(p.slots) && Timely(p, ch.now)
    ensures PostPass(p, ch) == TcpPass(p, ch)
  {
    var v, t := VisitAll(p, ch.tcpOrder), TcpPass(p, ch);
    ReapAllBuffers(v, ReapList(v, ch.tcpOrder));
    ClearedAlready(t);
    NothingDrained(t, t.cfg.ifaces, ch.dstOrder);
    NothingExpired(t, ch.udpOrder, ch.now);
  }

  lemma SettledBuffers(slots: map<InterfaceId, Slot>, st: SockState)
    requires EmptyBuffers(slots)
    ensures EmptyBuffers(Settled(slots, st))
  {
    forall id, h | HasSocket(Settled(slots, st), id, h) && Settled(slots, st)[id].sockets[h].UdpSock?
      ensures Settled(slots, st)[id].sockets[h].rx == []
    {
      assert HasSocket(slots, id, h);
    }
  }

  // ---- What the TCP part does when there is nothing to reap ----

  lemma SettledState(p: State, slots: map<InterfaceId, Slot>, st: SockState, k: SessionKey)
    requires p.slots == Settled(slots, st) && TcpOwned(p.slots, p.tcp) && k in p.tcp
    ensures StateIn(p, k) == Toward(SockStateOf(slots, k, p.tcp[k]), st)
  {
    var h := p.tcp[k].handle;
    assert HasSocket(p.slots, k.iface, h);
    assert HasSocket(slots, k.iface, h);
  }

  /** A poll that drives sockets elsewhere closes none. */
  lemma SettledUnreapable(q: State, p: State, st: SockState)
    requires p == q.(slots := Settled(q.slots, st)) && TcpOwned(p.slots, p.tcp)
    requires Unreapable(q) && st != SockState.Closed
    ensures Unreapable(p)
  {
    forall k ensures !Reapable(p, k) {
      assert !Reapable(q, k);
      if k in p.tcp {
        SettledState(p, q.slots, st, k);
      }
    }
  }

  lemma {:induction false} NothingReapable(s: State, ks: seq<SessionKey>)
    requires forall k :: k in ks ==> !Reapable(s, k)
    ensures ReapList(s, ks) == []
    decreases |ks|
  {
    if ks != [] {
      NothingReapable(s, ks[1..]);
    }
  }

  /** The table with every entry advanced by the state of its socket. */
  ghost function AllAdvanced(s: State): map<SessionKey, TcpEntry> {
    map k | k in s.tcp :: Advance(s.tcp[k], StateIn(s, k))
  }

  lemma UnreapablePass(p: State, ch: Choices)
    requires TcpOwned(p.slots, p.tcp) && Enumerates(ch.tcpOrder, p.tcp.Keys) && Unreapable(p)
    ensures TcpPass(p, ch) == VisitAll(p, ch.tcpOrder) && VisitAll(p, ch.tcpOrder).tcp == AllAdvanced(p)
  {
    var v := VisitAll(p, ch.tcpOrder);
    forall k ensures k in v.tcp <==> k in p.tcp
             ensures k in p.tcp ==> v.tcp[k] == Advance(p.tcp[k], StateIn(p, k)) && !Reapable(v, k) {
      VisitAllEffect(p, ch.tcpOrder, k);
      assert !Reapable(p, k);
    }
    NothingReapable(v, ch.tcpOrder);
  }

  /** The whole post-pass then: entries advance, and streams for the new ones appear. */
  lemma UneventfulPass(p: State, ch: Choices)
    requires TcpOwned(p.slots, p.tcp) && Orders(p, ch) && EmptyBuffers(p.slots) && Timely(p, ch.now) && Unreapable(p)
    ensures var r := PostPass(p, ch);
            r == p.(tcp := AllAdvanced(p), streams := r.streams, hist := p.hist.(accepted := r.hist.accepted))
  {
    IdlePostPass(p, ch);
    UnreapablePass(p, ch);
  }
}

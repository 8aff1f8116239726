/**
 The pre-pass only ever adds, and when every listen and bind succeeds it is
 idempotent: rerunning it on the packets it put back changes nothing.
 */
module PrePassFacts {
  import opened Types
  import opened Counting
  import opened Ops
  import opened Invariant
  import opened PreserveAlloc

  // ---- Growth ----

  /** Tables gain pending entries and empty queues, charged bytes rise, and nothing else changes. */
  ghost predicate Grows(s: State, t: State) {
    && t.cfg == s.cfg
    && s.slots.Keys == t.slots.Keys
    && (forall k :: k in s.tcp ==> k in t.tcp && t.tcp[k] == s.tcp[k])
    && (forall k :: k in t.tcp && k !in s.tcp ==> t.tcp[k].state.Pending? && !t.tcp[k].orphaned)
    && (forall k :: k in s.udp ==> k in t.udp && t.udp[k] == s.udp[k])
    && (forall q :: q in s.queues && q < s.hist.retains ==> q in t.queues && t.queues[q] == s.queues[q])
    && (forall q :: q in t.queues && q !in s.queues ==> t.queues[q] == Queue([], false) && q < t.hist.retains)
    && (forall q :: q in s.sessions && q < s.hist.retains ==> q in t.sessions && t.sessions[q] == s.sessions[q])
    && s.bytes <= t.bytes && s.hist.retains <= t.hist.retains && s.hist.failedBinds <= t.hist.failedBinds
    && t.streams == s.streams && t.hist.accepted == s.hist.accepted
  }

  lemma GrowsTrans(s: State, t: State, u: State)
    requires Grows(s, t) && Grows(t, u)
    ensures Grows(s, u)
  {
  }

  lemma TcpListenGrows(s: State, key: SessionKey, h: Handle)
    requires key.iface in s.slots && key !in s.tcp
    ensures Grows(s, TcpListen(s, key, h))
  {
  }

  lemma TcpListenFailsGrows(s: State, key: SessionKey)
    requires key.iface in s.slots
    ensures Grows(s, TcpListenFails(s, key))
  {
  }

  lemma AllocTcpGrows(s: State, key: SessionKey, listens: bool, h: Handle)
    requires key.iface in s.slots && key !in s.tcp
    ensures Grows(s, AllocTcp(s, key, listens, h))
  {
    TcpListenGrows(s, key, h);
    TcpListenFailsGrows(s, key);
  }

  lemma JoinSharedGrows(s: State, key: SessionKey, now: Instant)
    requires key !in s.udp && DstOf(key) in s.dsts
    ensures Grows(s, JoinShared(s, key, now))
  {
  }

  lemma BindSharedGrows(s: State, key: SessionKey, h: Handle, now: Instant)
    requires key.iface in s.slots && key !in s.udp
    ensures Grows(s, BindShared(s, key, h, now))
  {
  }

  lemma BindFailsGrows(s: State, key: SessionKey)
    requires key.iface in s.slots
    ensures Grows(s, BindFails(s, key))
  {
  }

  lemma AllocUdpGrows(s: State, key: SessionKey, binds: bool, h: Handle, now: Instant)
    requires key.iface in s.slots && key !in s.udp
    ensures Grows(s, AllocUdp(s, key, binds, h, now))
  {
    if DstOf(key) in s.dsts {
      JoinSharedGrows(s, key, now);
    } else if !Reservable(s.cfg, s.bytes, UdpCost(s.cfg, s.slots[key.iface].mtu)) {
    } else if binds {
      BindSharedGrows(s, key, h, now);
    } else {
      BindFailsGrows(s, key);
    }
  }

  lemma PacketStepGrows(s: State, id: InterfaceId, j: nat, pkt: Packet, ch: Choices)
    requires id in s.slots
    ensures Grows(s, PacketStep(s, id, j, pkt, ch))
  {
    var h := ch.pick(id, s.slots[id].sockets.Keys);
    match pkt
    case Opaque =>
    case TcpPacket(src, dst, syn) =>
      var key := SessionKey(id, Tcp, src, dst);
      if key !in s.tcp {
        AllocTcpGrows(s, key, ch.opens(id, j), h);
      }
    case UdpPacket(src, dst) =>
      var key := SessionKey(id, Udp, src, dst);
      if key !in s.udp {
        AllocUdpGrows(s, key, ch.opens(id, j), h, ch.now);
      }
  }

  lemma {:induction false} PacketsGrow(s: State, id: InterfaceId, j: nat, pkts: seq<Packet>, ch: Choices)
    requires id in s.slots && j <= |pkts|
    ensures Grows(s, Packets(s, id, j, pkts, ch))
    decreases |pkts| - j
  {
    if j < |pkts| {
      var t := PacketStep(s, id, j, pkts[j], ch);
      PacketStepGrows(s, id, j, pkts[j], ch);
      PacketsGrow(t, id, j + 1, pkts, ch);
      GrowsTrans(s, t, Packets(t, id, j + 1, pkts, ch));
    }
  }

  lemma PreSlotGrows(s: State, id: InterfaceId, ch: Choices)
    requires id in s.slots
    ensures Grows(s, PreSlot(s, id, ch))
  {
    var pkts := s.slots[id].ingress;
    var a := WithIngress(s, id, []);
    PacketsGrow(a, id, 0, pkts, ch);
    GrowsTrans(s, a, Packets(a, id, 0, pkts, ch));
  }

  lemma {:induction false} PrePassGrows(s: State, ids: seq<InterfaceId>, ch: Choices)
    requires forall id :: id in ids ==> id in s.slots
    ensures Grows(s, PrePass(s, ids, ch))
    decreases |ids|
  {
    if ids != [] {
      var t := PreSlot(s, ids[0], ch);
      PreSlotGrows(s, ids[0], ch);
      PrePassGrows(t, ids[1..], ch);
      GrowsTrans(s, t, PrePass(t, ids[1..], ch));
    }
  }

  // ---- Ingress queues are put back unchanged ----

  lemma AllocIngress(s: State, key: SessionKey, opens: bool, h: Handle, now: Instant, i: InterfaceId)
    requires key.iface in s.slots && i in s.slots
    ensures AllocTcp(s, key, opens, h).slots[i].ingress == s.slots[i].ingress
    ensures AllocUdp(s, key, opens, h, now).slots[i].ingress == s.slots[i].ingress
  {
  }

  lemma PacketStepIngress(s: State, id: InterfaceId, j: nat, pkt: Packet, ch: Choices, i: InterfaceId)
    requires id in s.slots && i in s.slots
    ensures PacketStep(s, id, j, pkt, ch).slots[i].ingress == s.slots[i].ingress
  {
    var h := ch.pick(id, s.slots[id].sockets.Keys);
    if pkt.TcpPacket? {
      AllocIngress(s, SessionKey(id, Tcp, pkt.src, pkt.dst), ch.opens(id, j), h, ch.now, i);
    } else if pkt.UdpPacket? {
      AllocIngress(s, SessionKey(id, Udp, pkt.src, pkt.dst), ch.opens(id, j), h, ch.now, i);
    }
  }

  lemma {:induction false} PacketsIngress(s: State, id: InterfaceId, j: nat, pkts: seq<Packet>, ch: Choices,
          i: InterfaceId)
    requires id in s.slots && i in s.slots && j <= |pkts|
    ensures Packets(s, id, j, pkts, ch).slots[i].ingress == s.slots[i].ingress
    decreases |pkts| - j
  {
    if j < |pkts| {
      PacketStepIngress(s, id, j, pkts[j], ch, i);
      PacketsIngress(PacketStep(s, id, j, pkts[j], ch), id, j + 1, pkts, ch, i);
    }
  }

  lemma PreSlotIngress(s: State, id: InterfaceId, ch: Choices, i: InterfaceId)
    requires id in s.slots && i in s.slots
    ensures PreSlot(s, id, ch).slots[i].ingress == s.slots[i].ingress
  {
    PacketsIngress(WithIngress(s, id, []), id, 0, s.slots[id].ingress, ch, i);
  }

  lemma {:induction false} PrePassIngress(s: State, ids: seq<InterfaceId>, ch: Choices, i: InterfaceId)
    requires i in s.slots && forall id :: id in ids ==> id in s.slots
    ensures PrePass(s, ids, ch).slots[i].ingress == s.slots[i].ingress
    decreases |ids|
  {
    if ids != [] {
      PreSlotIngress(s, ids[0], ch, i);
      PrePassIngress(PreSlot(s, ids[0], ch), ids[1..], ch, i);
    }
  }

  // ---- Idempotence ----

  /** The pre-pass has nothing left to do for this packet: its flow is known, or refused by a cap or the budget. */
  ghost predicate Inert(s: State, id: InterfaceId, pkt: Packet)
    requires id in s.slots
  {
    match pkt
    case Opaque => true
    case TcpPacket(src, dst, syn) =>
      || !syn
      || SessionKey(id, Tcp, src, dst) in s.tcp
      || |s.tcp| >= s.cfg.tcpMaxConnections
      || !Reservable(s.cfg, s.bytes, TcpCost(s.slots[id]))
    case UdpPacket(src, dst) =>
      || SessionKey(id, Udp, src, dst) in s.udp
      || |s.udp| >= s.cfg.udpMaxSessions
      || (DstKey(id, dst) !in s.dsts && !Reservable(s.cfg, s.bytes, UdpCost(s.cfg, s.slots[id].mtu)))
  }

  lemma InertIsNoop(s: State, id: InterfaceId, j: nat, pkt: Packet, ch: Choices)
    requires id in s.slots && Inert(s, id, pkt)
    ensures PacketStep(s, id, j, pkt, ch) == s
  {
  }

  lemma StepMakesInert(s: State, id: InterfaceId, j: nat, pkt: Packet, ch: Choices)
    requires id in s.slots && ch.opens(id, j)
    ensures Inert(PacketStep(s, id, j, pkt, ch), id, pkt)
  {
    var h := ch.pick(id, s.slots[id].sockets.Keys);
    match pkt
    case Opaque =>
    case TcpPacket(src, dst, syn) =>
      assert SessionKey(id, Tcp, src, dst) in TcpListen(s, SessionKey(id, Tcp, src, dst), h).tcp;
    case UdpPacket(src, dst) =>
      var key := SessionKey(id, Udp, src, dst);
      assert key in BindShared(s, key, h, ch.now).udp;
      assert DstOf(key) in s.dsts ==> key in JoinShared(s, key, ch.now).udp;
  }

  lemma TablesGrow(s: State, t: State)
    requires Grows(s, t)
    ensures |s.tcp| <= |t.tcp| && |s.udp| <= |t.udp|
  {
    SubsetSize(s.tcp.Keys, t.tcp.Keys);
    SubsetSize(s.udp.Keys, t.udp.Keys);
  }

  /** A destination refused for lack of budget is not created later in the pass. */
  lemma StepKeepsFresh(s: State, id: InterfaceId, j: nat, pkt: Packet, ch: Choices, d: DstKey)
    requires Shape(s.cfg, s.slots) && id in s.slots && d !in s.dsts &&
             !Reservable(s.cfg, s.bytes, UdpCost(s.cfg, s.cfg.mtu))
    ensures d !in PacketStep(s, id, j, pkt, ch).dsts
  {
  }

  lemma StepKeepsInert(s: State, id: InterfaceId, j: nat, pkt: Packet, ch: Choices, i: InterfaceId, p: Packet)
    requires Shape(s.cfg, s.slots) && id in s.slots && i in s.slots && Inert(s, i, p)
    requires Shape(s.cfg, PacketStep(s, id, j, pkt, ch).slots)
    ensures Inert(PacketStep(s, id, j, pkt, ch), i, p)
  {
    var t := PacketStep(s, id, j, pkt, ch);
    PacketStepGrows(s, id, j, pkt, ch);
    TablesGrow(s, t);
    SlotCosts(s.cfg, s.slots, i);
    SlotCosts(s.cfg, t.slots, i);
    if p.UdpPacket? && DstKey(i, p.dst) !in s.dsts && !Reservable(s.cfg, s.bytes, UdpCost(s.cfg, s.cfg.mtu)) {
      StepKeepsFresh(s, id, j, pkt, ch, DstKey(i, p.dst));
    }
  }

  ghost predicate AllInert(s: State, id: InterfaceId, pkts: seq<Packet>)
    requires id in s.slots
  {
    forall p :: p in pkts ==> Inert(s, id, p)
  }

  ghost predicate AllOpen(ch: Choices) {
    forall id, j :: ch.opens(id, j)
  }

  lemma {:induction false} PacketsKeepInert(s: State, id: InterfaceId, j: nat, pkts: seq<Packet>, ch: Choices,
          i: InterfaceId, p: Packet)
    requires Inv(s) && FreshPicks(ch) && id in s.slots && i in s.slots && j <= |pkts| && Inert(s, i, p)
    ensures Inert(Packets(s, id, j, pkts, ch), i, p)
    decreases |pkts| - j
  {
    if j < |pkts| {
      InvShape(s);
      PacketStepInv(s, id, j, pkts[j], ch);
      InvShape(PacketStep(s, id, j, pkts[j], ch));
      StepKeepsInert(s, id, j, pkts[j], ch, i, p);
      PacketsKeepInert(PacketStep(s, id, j, pkts[j], ch), id, j + 1, pkts, ch, i, p);
    }
  }

  lemma InertCons(s: State, id: InterfaceId, pkts: seq<Packet>, j: nat)
    requires id in s.slots && j < |pkts| && Inert(s, id, pkts[j]) && AllInert(s, id, pkts[j + 1..])
    ensures AllInert(s, id, pkts[j..])
  {
    assert pkts[j..] == [pkts[j]] + pkts[j + 1..];
  }

  lemma {:induction false} PacketsMakeInert(s: State, id: InterfaceId, j: nat, pkts: seq<Packet>, ch: Choices)
    requires Inv(s) && FreshPicks(ch) && AllOpen(ch) && id in s.slots && j <= |pkts|
    ensures AllInert(Packets(s, id, j, pkts, ch), id, pkts[j..])
    decreases |pkts| - j
  {
    if j < |pkts| {
      var t := PacketStep(s, id, j, pkts[j], ch);
      PacketStepInv(s, id, j, pkts[j], ch);
      StepMakesInert(s, id, j, pkts[j], ch);
      PacketsKeepInert(t, id, j + 1, pkts, ch, id, pkts[j]);
      PacketsMakeInert(t, id, j + 1, pkts, ch);
      InertCons(Packets(t, id, j + 1, pkts, ch), id, pkts, j);
    }
  }

  lemma WithIngressInert(s: State, id: InterfaceId, pkts: seq<Packet>, i: InterfaceId, p: Packet)
    requires id in s.slots && i in s.slots
    ensures Inert(WithIngress(s, id, pkts), i, p) <==> Inert(s, i, p)
  {
  }

  lemma PreSlotInert(s: State, id: InterfaceId, ch: Choices)
    requires Inv(s) && FreshPicks(ch) && AllOpen(ch) && id in s.slots
    ensures AllInert(PreSlot(s, id, ch), id, s.slots[id].ingress)
  {
    var pkts := s.slots[id].ingress;
    var a := WithIngress(s, id, []);
    WithIngressInv(s, id, []);
    PacketsMakeInert(a, id, 0, pkts, ch);
    var t := Packets(a, id, 0, pkts, ch);
    assert pkts[0..] == pkts;
    forall p | p in pkts ensures Inert(PreSlot(s, id, ch), id, p) {
      WithIngressInert(t, id, t.slots[id].ingress + pkts, id, p);
    }
  }

  lemma PreSlotKeepsInert(s: State, id: InterfaceId, ch: Choices, i: InterfaceId, p: Packet)
    requires Inv(s) && FreshPicks(ch) && id in s.slots && i in s.slots && Inert(s, i, p)
    ensures Inert(PreSlot(s, id, ch), i, p)
  {
    var pkts := s.slots[id].ingress;
    var a := WithIngress(s, id, []);
    WithIngressInv(s, id, []);
    WithIngressInert(s, id, [], i, p);
    PacketsKeepInert(a, id, 0, pkts, ch, i, p);
    var t := Packets(a, id, 0, pkts, ch);
    WithIngressInert(t, id, t.slots[id].ingress + pkts, i, p);
  }

  lemma {:induction false} PrePassKeepsInert(s: State, ids: seq<InterfaceId>, ch: Choices, i: InterfaceId, p: Packet)
    requires Inv(s) && FreshPicks(ch) && i in s.slots && Inert(s, i, p) && forall id :: id in ids ==> id in s.slots
    ensures Inert(PrePass(s, ids, ch), i, p)
    decreases |ids|
  {
    if ids != [] {
      PreSlotInv(s, ids[0], ch);
      PreSlotKeepsInert(s, ids[0], ch, i, p);
      PrePassKeepsInert(PreSlot(s, ids[0], ch), ids[1..], ch, i, p);
    }
  }

  lemma {:induction false} PrePassMakesInert(s: State, ids: seq<InterfaceId>, ch: Choices, i: InterfaceId)
    requires Inv(s) && FreshPicks(ch) && AllOpen(ch) && i in ids && forall id :: id in ids ==> id in s.slots
    ensures AllInert(PrePass(s, ids, ch), i, s.slots[i].ingress)
    decreases |ids|
  {
    var t := PreSlot(s, ids[0], ch);
    PreSlotInv(s, ids[0], ch);
    if i == ids[0] {
      PreSlotInert(s, i, ch);
      forall p | p in s.slots[i].ingress ensures Inert(PrePass(s, ids, ch), i, p) {
        PrePassKeepsInert(t, ids[1..], ch, i, p);
      }
    } else {
      PreSlotIngress(s, ids[0], ch, i);
      PrePassMakesInert(t, ids[1..], ch, i);
    }
  }

  lemma {:induction false} InertPackets(s: State, id: InterfaceId, j: nat, pkts: seq<Packet>, ch: Choices)
    requires id in s.slots && j <= |pkts| && AllInert(s, id, pkts)
    ensures Packets(s, id, j, pkts, ch) == s
    decreases |pkts| - j
  {
    if j < |pkts| {
      InertIsNoop(s, id, j, pkts[j], ch);
      InertPackets(s, id, j + 1, pkts, ch);
    }
  }

  lemma InertPreSlot(s: State, id: InterfaceId, ch: Choices)
    requires id in s.slots && AllInert(s, id, s.slots[id].ingress)
    ensures PreSlot(s, id, ch) == s
  {
    var pkts := s.slots[id].ingress;
    var a := WithIngress(s, id, []);
    forall p | p in pkts ensures Inert(a, id, p) {
      WithIngressInert(s, id, [], id, p);
    }
    InertPackets(a, id, 0, pkts, ch);
    assert [] + pkts == pkts;
    assert PreSlot(s, id, ch).slots == s.slots;
  }

  lemma {:induction false} InertPrePass(s: State, ids: seq<InterfaceId>, ch: Choices)
    requires forall id :: id in ids ==> id in s.slots
    requires forall id :: id in ids ==> AllInert(s, id, s.slots[id].ingress)
    ensures PrePass(s, ids, ch) == s
    decreases |ids|
  {
    if ids != [] {
      InertPreSlot(s, ids[0], ch);
      InertPrePass(s, ids[1..], ch);
    }
  }

  /** A second pre-pass, with any choices at all, is a no-op: no entry, charge, socket or session is added. */
  lemma PrePassIdempotent(s: State, first: Choices, second: Choices)
    requires Inv(s) && FreshPicks(first) && AllOpen(first)
    ensures forall id :: id in s.cfg.ifaces ==> id in s.slots
    ensures var p := PrePass(s, s.cfg.ifaces, first); PrePass(p, p.cfg.ifaces, second) == p
  {
    InvShape(s);
    var ids := s.cfg.ifaces;
    var p := PrePass(s, ids, first);
    forall id | id in ids ensures AllInert(p, id, p.slots[id].ingress) {
      PrePassMakesInert(s, ids, first, id);
      PrePassIngress(s, ids, first, id);
    }
    InertPrePass(p, ids, second);
  }
}

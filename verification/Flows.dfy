/** What any cycle does for any UDP flow: when it is admitted, and when its session expires. */
module Flows {
  import opened Types
  import opened Ops
  import opened Invariant
  import opened PreserveAlloc
  import opened Redistribution
  import opened Tables
  import opened PrePassFacts
  import opened Runs

  // ---- New entries carry the time of the cycle ----

  ghost predicate NewAt(s: State, t: State, now: Instant) {
    && (forall k :: k in s.udp ==> k in t.udp && t.udp[k] == s.udp[k])
    && (forall k :: k in t.udp && k !in s.udp ==> t.udp[k].lastActivity == now)
  }

  lemma AllocUdpNew(s: State, key: SessionKey, binds: bool, h: Handle, now: Instant)
    requires key.iface in s.slots && key !in s.udp
    ensures NewAt(s, AllocUdp(s, key, binds, h, now), now)
  {
    var r := AllocUdp(s, key, binds, h, now);
    assert r.udp == s.udp || exists g :: r.udp == s.udp[key := UdpEntry(g, s.hist.retains, now)];
  }

  lemma StepNew(s: State, id: InterfaceId, j: nat, pkt: Packet, ch: Choices)
    requires id in s.slots
    ensures NewAt(s, PacketStep(s, id, j, pkt, ch), ch.now)
  {
    var r := PacketStep(s, id, j, pkt, ch);
    if r.udp != s.udp {
      AllocUdpNew(s, SessionKey(id, Udp, pkt.src, pkt.dst), ch.opens(id, j), ch.pick(id, s.slots[id].sockets.Keys),
        ch.now);
    }
  }

  lemma {:induction false} PacketsNew(s: State, id: InterfaceId, j: nat, pkts: seq<Packet>, ch: Choices)
    requires id in s.slots && j <= |pkts|
    ensures NewAt(s, Packets(s, id, j, pkts, ch), ch.now)
    decreases |pkts| - j
  {
    if j < |pkts| {
      StepNew(s, id, j, pkts[j], ch);
      PacketsNew(PacketStep(s, id, j, pkts[j], ch), id, j + 1, pkts, ch);
    }
  }

  lemma {:induction false} PrePassNew(s: State, ids: seq<InterfaceId>, ch: Choices)
    requires forall id :: id in ids ==> id in s.slots
    ensures NewAt(s, PrePass(s, ids, ch), ch.now)
    decreases |ids|
  {
    if ids != [] {
      PacketsNew(WithIngress(s, ids[0], []), ids[0], 0, s.slots[ids[0]].ingress, ch);
      PrePassNew(PreSlot(s, ids[0], ch), ids[1..], ch);
    }
  }

  // ---- Admission ----

  /** The session under `key` is listed since `now`, open, and its queue holds exactly `got`. */
  ghost predicate FreshlyListed(r: State, key: SessionKey, now: Instant, got: seq<Bytes>) {
    && key in r.udp && r.udp[key].lastActivity == now
    && var q := r.udp[key].queue;
       && q in r.queues && r.queues[q] == Queue(got, false)
       && q in r.sessions && r.sessions[q] == Session(key, r.udp[key].socket)
  }

  /** The queue of an entry that a pre-pass added is new, hence empty. */
  lemma NewQueue(s: State, p: State, key: SessionKey)
    requires Grows(s, p) && key in p.udp && key !in s.udp
    requires Linked(s.udp, s.queues, s.sessions, s.hist.retains) && Linked(p.udp, p.queues, p.sessions, p.hist.retains)
    ensures p.queues[p.udp[key].queue] == Queue([], false)
  {
    assert p.udp[key].queue !in s.queues;
  }

  lemma AdmittedServed(p: State, r: State, key: SessionKey, now: Instant)
    requires Served(p, r, key, now) && key in p.udp && p.udp[key].lastActivity == now
    requires p.udp[key].queue in p.queues && p.queues[p.udp[key].queue] == Queue([], false)
    requires Linked(r.udp, r.queues, r.sessions, r.hist.retains)
    ensures FreshlyListed(r, key, now, Owed(p, key))
  {
    assert [] + Owed(p, key) == Owed(p, key);
  }

  lemma NewEntry(s: State, ch: Choices, key: SessionKey)
    requires Inv(s) && CycleEnabled(s, ch) && key !in s.udp && key in PrePass(s, s.cfg.ifaces, ch).udp
    ensures var p := PrePass(s, s.cfg.ifaces, ch);
            p.udp[key].lastActivity == ch.now && p.udp[key].queue in p.queues &&
              p.queues[p.udp[key].queue] == Queue([], false)
  {
    var p := PrePass(s, s.cfg.ifaces, ch);
    PrePassGrows(s, s.cfg.ifaces, ch);
    PrePassNew(s, s.cfg.ifaces, ch);
    PrePassInv(s, s.cfg.ifaces, ch);
    InvLinks(s);
    InvLinks(p);
    NewQueue(s, p, key);
  }

  lemma AdmittedCycle(s: State, ch: Choices, key: SessionKey)
    requires Inv(s) && CycleEnabled(s, ch) && key !in s.udp && key in Polled(s, ch).udp
    ensures FreshlyListed(Apply(s, Cycle(ch)), key, ch.now, Owed(Polled(s, ch), key))
  {
    var p := Polled(s, ch);
    var r := PostPass(p, ch);
    NewEntry(s, ch, key);
    PolledInv(s, ch);
    PostPassInv(p, ch);
    PostPassSessions(p, ch, key);
    InvLinks(r);
    AdmittedServed(p, r, key, ch.now);
  }

  /**
   The pre-pass of a cycle leaves no room for the flow: the table is full, or its destination is new and does
   not fit.
   */
  ghost predicate Refused(s: State, ch: Choices, key: SessionKey)
    requires Mapped(s)
  {
    var p := PrePass(s, s.cfg.ifaces, ch);
    |p.udp| >= s.cfg.udpMaxSessions || (DstOf(key) !in p.dsts && !Reservable(s.cfg, p.bytes, UdpCost(s.cfg, s.cfg.mtu)))
  }

  /**
   In every cycle whose binds succeed, a queued UDP packet of a flow without a session gets one that is listed
   afterwards, open, last active now and holding exactly its own datagrams; or the cap or the budget refused it.
   */
  lemma CycleAdmits(cfg: Config, s: State, ch: Choices, id: InterfaceId, src: Endpoint, dst: Endpoint)
    requires Reachable(cfg, s) && CycleEnabled(s, ch) && AllOpen(ch)
    requires id in s.slots && UdpPacket(src, dst) in s.slots[id].ingress && SessionKey(id, Udp, src, dst) !in s.udp
    ensures var key := SessionKey(id, Udp, src, dst);
            FreshlyListed(Apply(s, Cycle(ch)), key, ch.now, Owed(Polled(s, ch), key)) || Refused(s, ch, key)
  {
    ReachableInv(cfg, s);
    PacketAnswered(s, ch, id, UdpPacket(src, dst));
    if !Refused(s, ch, SessionKey(id, Udp, src, dst)) {
      AdmittedCycle(s, ch, SessionKey(id, Udp, src, dst));
    }
  }

  lemma PacketAnswered(s: State, ch: Choices, id: InterfaceId, pkt: Packet)
    requires Inv(s) && CycleEnabled(s, ch) && AllOpen(ch) && id in s.slots && pkt in s.slots[id].ingress &&
             pkt.UdpPacket?
    ensures var key := SessionKey(id, Udp, pkt.src, pkt.dst);
              key in PrePass(s, s.cfg.ifaces, ch).udp || Refused(s, ch, key)
  {
    var p := PrePass(s, s.cfg.ifaces, ch);
    InvShape(s);
    PrePassMakesInert(s, s.cfg.ifaces, ch, id);
    PrePassInv(s, s.cfg.ifaces, ch);
    InvShape(p);
    SlotCosts(p.cfg, p.slots, id);
    assert Inert(p, id, pkt);
  }

  // ---- Expiry ----

  /**
   In every cycle a listed session stays exactly if it hears something or its last activity is within the timeout,
   on either side; its object stays in any case, over a closed queue if the session goes.
   */
  lemma CycleExpires(cfg: Config, s: State, ch: Choices, k: SessionKey)
    requires Reachable(cfg, s) && CycleEnabled(s, ch) && k in s.udp
    ensures var p, r, q := Polled(s, ch), Apply(s, Cycle(ch)), s.udp[k].queue;
            && (k in r.udp <==>
                  || Owed(p, k) != []
                  || (&& ch.now - s.udp[k].lastActivity <= cfg.udpTimeout
                      && s.udp[k].lastActivity - ch.now <= cfg.udpTimeout))
            && q in s.sessions && q in r.sessions && r.sessions[q] == s.sessions[q] && s.sessions[q].key == k
            && q in s.queues && q in r.queues && r.queues[q] == Queue(s.queues[q].inner + Owed(p, k), k !in r.udp)
  {
    ReachableInv(cfg, s);
    var p := Polled(s, ch);
    ListedPolled(s, ch, k);
    PolledInv(s, ch);
    PostPassSessions(p, ch, k);
    SessionsKept(p, ch);
  }

  /** The pre-pass and the poll leave a listed session, its object and its queue alone. */
  lemma ListedPolled(s: State, ch: Choices, k: SessionKey)
    requires Inv(s) && CycleEnabled(s, ch) && k in s.udp
    ensures var p, q := Polled(s, ch), s.udp[k].queue;
            && k in p.udp && p.udp[k] == s.udp[k] && p.cfg == s.cfg
            && q in s.sessions && q in p.sessions && p.sessions[q] == s.sessions[q] && s.sessions[q].key == k
            && q in s.queues && q in p.queues && p.queues[q] == s.queues[q] && !s.queues[q].closed
  {
    InvLinks(s);
    PrePassGrows(s, s.cfg.ifaces, ch);
  }

  lemma SessionsKept(s: State, ch: Choices)
    ensures PostPass(s, ch).sessions == s.sessions
  {
  }
}

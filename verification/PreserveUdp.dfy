/** Redistribution, the timeout sweep and UDP session drops keep the invariant. */
module PreserveUdp {
  import opened Types
  import opened Counting
  import opened Ops
  import opened Invariant
  import opened PreserveAlloc
  import opened PreserveTcp

  // ---- Removing an entry ----

  lemma CloseEntryLinked(s: State, k: SessionKey)
    requires Linked(s.udp, s.queues, s.sessions, s.hist.retains) && k in s.udp
    ensures var r := CloseEntry(s, k); Linked(r.udp, r.queues, r.sessions, r.hist.retains)
  {
    var r := CloseEntry(s, k);
    forall l | l in r.udp ensures !r.queues[r.udp[l].queue].closed {
      assert s.sessions[s.udp[l].queue].key == l;
    }
    forall q | q in r.queues && !r.queues[q].closed ensures r.sessions[q].key in r.udp {
      assert q in s.queues && !s.queues[q].closed;
    }
  }

  lemma CloseEntryLedger(s: State, k: SessionKey)
    requires Ledger(s.tcp, s.udp, s.streams, s.hist) && Caps(s.cfg, s.tcp, s.udp) && k in s.udp
    ensures var r := CloseEntry(s, k); Ledger(r.tcp, r.udp, r.streams, r.hist) && Caps(r.cfg, r.tcp, r.udp)
  {
    DropSize(s.udp, k);
  }

  lemma LowerCounts(udp: map<SessionKey, UdpEntry>, dsts: map<DstKey, SharedSocket>, k: SessionKey)
    requires RefCounts(udp, dsts) && k in udp && dsts[DstOf(k)].count > 1
    ensures var d := DstOf(k); RefCounts(udp - {k}, dsts[d := dsts[d].(count := dsts[d].count - 1)])
  {
    var d := DstOf(k);
    var udp', dsts' := udp - {k}, dsts[d := dsts[d].(count := dsts[d].count - 1)];
    forall c | c in dsts' ensures 1 <= dsts'[c].count == Count(udp', ToDst(c)) {
      CountDrop(udp, k, ToDst(c));
    }
  }

  /** A count of one means `k` is the only session on its destination. */
  lemma LastCounts(udp: map<SessionKey, UdpEntry>, dsts: map<DstKey, SharedSocket>, k: SessionKey)
    requires RefCounts(udp, dsts) && k in udp && dsts[DstOf(k)].count <= 1
    ensures RefCounts(udp - {k}, dsts - {DstOf(k)})
  {
    var d := DstOf(k);
    var udp', dsts' := udp - {k}, dsts - {d};
    CountDrop(udp, k, ToDst(d));
    assert Selected(udp', ToDst(d)) == {};
    forall l | l in udp' ensures DstOf(l) in dsts' && udp'[l].socket == dsts'[DstOf(l)].handle {
      assert l !in Selected(udp', ToDst(d));
    }
    forall c | c in dsts' ensures 1 <= dsts'[c].count == Count(udp', ToDst(c)) {
      CountDrop(udp, k, ToDst(c));
    }
  }

  lemma LowerOwned(slots: map<InterfaceId, Slot>, tcp: map<SessionKey, TcpEntry>, dsts: map<DstKey, SharedSocket>,
          d: DstKey)
    requires DstOwned(slots, dsts) && NoLeak(slots, tcp, dsts) && d in dsts && dsts[d].count > 1
    ensures var dsts' := dsts[d := dsts[d].(count := dsts[d].count - 1)];
              DstOwned(slots, dsts') && NoLeak(slots, tcp, dsts')
  {
  }

  lemma FreeNoLeak(a: map<InterfaceId, Slot>, b: map<InterfaceId, Slot>, tcp: map<SessionKey, TcpEntry>,
          dsts: map<DstKey, SharedSocket>, d: DstKey)
    requires NoLeak(a, tcp, dsts) && d in dsts && Removed(a, b, d.iface, dsts[d].handle)
    ensures NoLeak(b, tcp, dsts - {d})
  {
    forall id, g | HasSocket(b, id, g)
      ensures HasSocket(a, id, g) && b[id].sockets[g] == a[id].sockets[g] && !(id == d.iface && g == dsts[d].handle)
    {
    }
  }

  lemma FreeOwnership(s: State, d: DstKey)
    requires Shape(s.cfg, s.slots) && TcpOwned(s.slots, s.tcp) && DstOwned(s.slots, s.dsts) &&
             NoLeak(s.slots, s.tcp, s.dsts)
    requires d in s.dsts
    ensures var r := FreeShared(s, d, s.dsts[d].handle);
            Shape(r.cfg, r.slots) && TcpOwned(r.slots, r.tcp) && DstOwned(r.slots, r.dsts) &&
              NoLeak(r.slots, r.tcp, r.dsts)
  {
    var h := s.dsts[d].handle;
    var slots := FreeShared(s, d, h).slots;
    RemovedShape(s.cfg, s.slots, slots, d.iface, h);
    RemovedTcp(s.slots, slots, s.tcp, d.iface, h);
    assert DstOwned(s.slots, s.dsts - {d});
    RemovedDst(s.slots, slots, s.dsts - {d}, d.iface, h);
    FreeNoLeak(s.slots, slots, s.tcp, s.dsts, d);
  }

  /** Giving one UDP socket's cost back never saturates. */
  lemma RefundUdp(s: State, r: State)
    requires Budget(s.cfg, s.bytes, |s.tcp|, |s.dsts|, s.hist.failedBinds)
    requires r.cfg == s.cfg && r.tcp == s.tcp && |r.dsts| + 1 == |s.dsts| && r.hist.failedBinds == s.hist.failedBinds
    requires r.bytes == Release(s.bytes, UdpCost(s.cfg, s.cfg.mtu))
    ensures UdpCost(s.cfg, s.cfg.mtu) <= s.bytes
    ensures Budget(r.cfg, r.bytes, |r.tcp|, |r.dsts|, r.hist.failedBinds)
  {
    var u := UdpCost(s.cfg, s.cfg.mtu);
    assert Times(|s.dsts| + s.hist.failedBinds, u) == Times(|r.dsts| + r.hist.failedBinds, u) + u;
  }

  lemma FreeBudget(s: State, d: DstKey, h: Handle)
    requires Shape(s.cfg, s.slots) && Pools(s.cfg, s.slots, s.tcp, s.hist.peak) && d in s.dsts && d.iface in s.slots
    requires Budget(s.cfg, s.bytes, |s.tcp|, |s.dsts|, s.hist.failedBinds)
    ensures var r := FreeShared(s, d, h);
            Budget(r.cfg, r.bytes, |r.tcp|, |r.dsts|, r.hist.failedBinds) && Pools(r.cfg, r.slots, r.tcp, r.hist.peak)
  {
    SlotCosts(s.cfg, s.slots, d.iface);
    DropSize(s.dsts, d);
    RefundUdp(s, FreeShared(s, d, h));
    assert forall id :: id in s.slots ==> FreeShared(s, d, h).slots[id].pool == s.slots[id].pool;
  }

  lemma RemoveSharedInv(s: State, k: SessionKey)
    requires Inv(s) && k in s.udp && DstOf(k) in s.dsts && s.dsts[DstOf(k)].count > 1
    ensures Inv(RemoveUdp(s, k))
  {
    var d := DstOf(k);
    InvParts(s);
    CloseEntryLinked(s, k);
    CloseEntryLedger(s, k);
    LowerCounts(s.udp, s.dsts, k);
    LowerOwned(s.slots, s.tcp, s.dsts, d);
    PutSize(s.dsts, d, s.dsts[d].(count := s.dsts[d].count - 1));
    PartsInv(RemoveUdp(s, k));
  }

  lemma RemoveLastInv(s: State, k: SessionKey)
    requires Inv(s) && k in s.udp && DstOf(k) in s.dsts && s.dsts[DstOf(k)].count <= 1
    ensures Inv(RemoveUdp(s, k))
  {
    var d := DstOf(k);
    InvParts(s);
    CloseEntryLinked(s, k);
    CloseEntryLedger(s, k);
    LastCounts(s.udp, s.dsts, k);
    FreeOwnership(CloseEntry(s, k), d);
    FreeBudget(CloseEntry(s, k), d, s.dsts[d].handle);
    PartsInv(RemoveUdp(s, k));
  }

  lemma RemoveUdpInv(s: State, k: SessionKey)
    requires Inv(s)
    ensures Inv(RemoveUdp(s, k))
  {
    if k in s.udp {
      InvCounts(s);
      if s.dsts[DstOf(k)].count > 1 {
        RemoveSharedInv(s, k);
      } else {
        RemoveLastInv(s, k);
      }
    }
  }

  lemma {:induction false} RemoveAllInv(s: State, ks: seq<SessionKey>)
    requires Inv(s)
    ensures Inv(RemoveAll(s, ks))
    decreases |ks|
  {
    if ks != [] {
      RemoveUdpInv(s, ks[0]);
      RemoveAllInv(RemoveUdp(s, ks[0]), ks[1..]);
    }
  }

  // ---- Redistribution ----

  lemma ClearRxSame(s: State)
    ensures SameSockets(s.slots, ClearRx(s).slots)
  {
  }

  lemma TouchCounts(udp: map<SessionKey, UdpEntry>, dsts: map<DstKey, SharedSocket>, k: SessionKey, now: Instant)
    requires RefCounts(udp, dsts) && k in udp
    ensures RefCounts(udp[k := udp[k].(lastActivity := now)], dsts)
  {
    var e := udp[k].(lastActivity := now);
    forall d | d in dsts ensures Count(udp[k := e], ToDst(d)) == Count(udp, ToDst(d)) {
      CountPut(udp, k, e, ToDst(d));
    }
  }

  lemma DeliverLinked(s: State, k: SessionKey, data: Bytes, now: Instant)
    requires Linked(s.udp, s.queues, s.sessions, s.hist.retains)
    ensures var r := DeliverOne(s, k, data, now); Linked(r.udp, r.queues, r.sessions, r.hist.retains)
  {
  }

  lemma DeliverParts(s: State, k: SessionKey, data: Bytes, now: Instant)
    requires k in s.udp && RefCounts(s.udp, s.dsts) && Linked(s.udp, s.queues, s.sessions, s.hist.retains)
    ensures var r := DeliverOne(s, k, data, now);
            && r == s.(udp := r.udp, queues := r.queues) && |r.udp| == |s.udp|
            && RefCounts(r.udp, r.dsts) && Linked(r.udp, r.queues, r.sessions, r.hist.retains)
  {
    TouchCounts(s.udp, s.dsts, k, now);
    DeliverLinked(s, k, data, now);
    PutSize(s.udp, k, s.udp[k].(lastActivity := now));
  }

  /** Only UDP entries and queues change, and their parts of the invariant still hold. */
  lemma UdpChanged(s: State, r: State)
    requires Inv(s) && r == s.(udp := r.udp, queues := r.queues) && |r.udp| == |s.udp|
    requires RefCounts(r.udp, r.dsts) && Linked(r.udp, r.queues, r.sessions, r.hist.retains)
    ensures Inv(r)
  {
    forall part ensures Holds(r, part) {
      match part
      case Counts =>
      case Links =>
      case Sums => InvLedger(s);
      case TableCaps => InvCaps(s);
      case _ => assert Holds(s, part);
    }
  }

  lemma DeliverOneInv(s: State, k: SessionKey, data: Bytes, now: Instant)
    requires Inv(s)
    ensures Inv(DeliverOne(s, k, data, now))
  {
    if k in s.udp {
      InvCounts(s);
      InvLinks(s);
      DeliverParts(s, k, data, now);
      UdpChanged(s, DeliverOne(s, k, data, now));
    }
  }

  lemma {:induction false} DeliverAllInv(s: State, list: seq<(SessionKey, Bytes)>, now: Instant)
    requires Inv(s)
    ensures Inv(DeliverAll(s, list, now))
    decreases |list|
  {
    if list != [] {
      DeliverOneInv(s, list[0].0, list[0].1, now);
      DeliverAllInv(DeliverOne(s, list[0].0, list[0].1, now), list[1..], now);
    }
  }

  lemma RedistributeInv(s: State, ch: Choices)
    requires Inv(s)
    ensures Inv(Redistribute(s, ch))
  {
    ClearRxSame(s);
    SameSocketsKeepInv(s, ClearRx(s).slots);
    DeliverAllInv(ClearRx(s), DrainAll(s, s.cfg.ifaces, ch.dstOrder), ch.now);
  }

  // ---- Application side ----

  /** Once the entry under its key is gone, no entry uses a session's queue. */
  lemma ForgetLinked(s: State, q: QueueId)
    requires Linked(s.udp, s.queues, s.sessions, s.hist.retains) && q in s.sessions && s.sessions[q].key !in s.udp
    ensures Linked(s.udp, s.queues, s.sessions - {q}, s.hist.retains)
  {
  }

  lemma RemoveUdpKeeps(s: State, k: SessionKey)
    ensures RemoveUdp(s, k).udp == s.udp - {k} && RemoveUdp(s, k).sessions == s.sessions
  {
  }

  lemma DropSessionInv(s: State, q: QueueId)
    requires Inv(s) && q in s.sessions
    ensures Inv(DropSession(s, q))
  {
    var r := RemoveUdp(s, s.sessions[q].key);
    RemoveUdpInv(s, s.sessions[q].key);
    RemoveUdpKeeps(s, s.sessions[q].key);
    InvParts(r);
    ForgetLinked(r, q);
    PartsInv(DropSession(s, q));
  }

  lemma TrySendSame(s: State, q: QueueId, payload: Bytes, answer: SendOutcome)
    requires q in s.sessions && q in s.queues
    ensures SameSockets(s.slots, TrySend(s, q, payload, answer).0.slots)
    ensures TrySend(s, q, payload, answer).0 == s.(slots := TrySend(s, q, payload, answer).0.slots)
  {
    var r := TrySend(s, q, payload, answer).0;
    if r == s {
      SameSocketsRefl(s.slots);
    } else {
      var key, h := s.sessions[q].key, s.sessions[q].socket;
      var sock := s.slots[key.iface].sockets[h].(tx := s.slots[key.iface].sockets[h].tx + [(key.src, payload)]);
      assert r == s.(slots := PutSocket(s.slots, key.iface, h, sock));
      PutSocketSame(s.slots, key.iface, h, sock);
    }
  }

  lemma SameSocketsRefl(slots: map<InterfaceId, Slot>)
    ensures SameSockets(slots, slots)
  {
  }

  lemma TrySendInv(s: State, q: QueueId, payload: Bytes, answer: SendOutcome)
    requires Inv(s) && q in s.sessions && q in s.queues
    ensures Inv(TrySend(s, q, payload, answer).0)
  {
    TrySendSame(s, q, payload, answer);
    SameSocketsKeepInv(s, TrySend(s, q, payload, answer).0.slots);
  }

  lemma PopLinked(s: State, q: QueueId)
    requires Linked(s.udp, s.queues, s.sessions, s.hist.retains) && q in s.queues
    ensures Linked(s.udp, Pop(s, q).0.queues, s.sessions, s.hist.retains)
  {
  }

  lemma PopInv(s: State, q: QueueId)
    requires Inv(s) && q in s.queues
    ensures Inv(Pop(s, q).0)
  {
    var r := Pop(s, q).0;
    InvCounts(s);
    InvLinks(s);
    PopLinked(s, q);
    UdpChanged(s, r);
  }
}

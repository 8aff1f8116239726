/**
 UDP redistribution refines a per-session specification: each session receives
 exactly the datagrams of its own destination socket that come from its own
 source, in arrival order, whatever order the hash map enumerates sockets in.
 */
module Redistribution {
  import opened Types
  import opened Ops
  import opened Invariant
  import opened PreserveUdp

  /** The payloads in a receive buffer that were sent from `src`, oldest first. */
  ghost function Matching(rx: seq<Rx>, src: Endpoint): seq<Bytes>
    decreases |rx|
  {
    if rx == [] then []
    else (if rx[0].Datagram? && rx[0].src == src then [rx[0].data] else []) + Matching(rx[1..], src)
  }

  /** What session `k` is owed by the buffers of state `s`. */
  ghost function Owed(s: State, k: SessionKey): seq<Bytes> {
    Matching(RxOf(s.slots, s.dsts, DstOf(k)), k.src)
  }

  /** The part of a routing list addressed to `k`. */
  ghost function ForKey(list: seq<(SessionKey, Bytes)>, k: SessionKey): seq<Bytes>
    decreases |list|
  {
    if list == [] then [] else (if list[0].0 == k then [list[0].1] else []) + ForKey(list[1..], k)
  }

  lemma {:induction false} ForKeyConcat(a: seq<(SessionKey, Bytes)>, b: seq<(SessionKey, Bytes)>, k: SessionKey)
    ensures ForKey(a + b, k) == ForKey(a, k) + ForKey(b, k)
    decreases |a|
  {
    if a == [] {
      assert a + b == b;
    } else {
      assert (a + b)[1..] == a[1..] + b;
      ForKeyConcat(a[1..], b, k);
    }
  }

  lemma {:induction false} ForKeyTagged(d: DstKey, rx: seq<Rx>, k: SessionKey)
    requires k.proto == Udp
    ensures ForKey(Tagged(d, rx), k) == if DstOf(k) == d then Matching(rx, k.src) else []
    decreases |rx|
  {
    if rx != [] {
      ForKeyTagged(d, rx[1..], k);
      match rx[0]
      case Datagram(src, data) =>
        var head := (SessionKey(d.iface, Udp, src, d.ep), data);
        assert Tagged(d, rx)[1..] == Tagged(d, rx[1..]);
      case Truncated =>
        assert Tagged(d, rx) == Tagged(d, rx[1..]);
    }
  }

  lemma {:induction false} ForKeyDrainSlot(s: State, id: InterfaceId, ds: seq<DstKey>, k: SessionKey)
    requires k.proto == Udp && NoDup(ds)
    ensures ForKey(DrainSlot(s, id, ds), k) == if k.iface == id && DstOf(k) in ds then Owed(s, k) else []
    decreases |ds|
  {
    if ds != [] {
      var head := if ds[0].iface == id then Tagged(ds[0], RxOf(s.slots, s.dsts, ds[0])) else [];
      ForKeyDrainSlot(s, id, ds[1..], k);
      ForKeyConcat(head, DrainSlot(s, id, ds[1..]), k);
      ForKeyTagged(ds[0], RxOf(s.slots, s.dsts, ds[0]), k);
      assert ds[0] !in ds[1..];
    }
  }

  lemma {:induction false} ForKeyDrainAll(s: State, ids: seq<InterfaceId>, ds: seq<DstKey>, k: SessionKey)
    requires k.proto == Udp && NoDup(ds) && NoDup(ids)
    ensures ForKey(DrainAll(s, ids, ds), k) == if k.iface in ids && DstOf(k) in ds then Owed(s, k) else []
    decreases |ids|
  {
    if ids != [] {
      ForKeyDrainAll(s, ids[1..], ds, k);
      ForKeyDrainSlot(s, ids[0], ds, k);
      ForKeyConcat(DrainSlot(s, ids[0], ds), DrainAll(s, ids[1..], ds), k);
      assert ids[0] !in ids[1..];
    }
  }

  // ---- Delivering a routing list ----

  /** Entry and queue of session `k` in `r` are those of `s` with `got` delivered. */
  ghost predicate Delivered(s: State, r: State, k: SessionKey, got: seq<Bytes>, now: Instant) {
    && k in s.udp && k in r.udp && s.udp[k].queue in s.queues && s.udp[k].queue in r.queues
    && r.udp[k] == s.udp[k].(lastActivity := if got == [] then s.udp[k].lastActivity else now)
    && r.queues[s.udp[k].queue] == s.queues[s.udp[k].queue].(inner := s.queues[s.udp[k].queue].inner + got)
  }

  lemma DeliverOneEffect(s: State, x: SessionKey, data: Bytes, now: Instant, k: SessionKey)
    requires Linked(s.udp, s.queues, s.sessions, s.hist.retains) && k in s.udp
    ensures Delivered(s, DeliverOne(s, x, data, now), k, if x == k then [data] else [], now)
  {
    if x in s.udp && x != k {
      assert s.sessions[s.udp[x].queue].key == x && s.sessions[s.udp[k].queue].key == k;
    }
    assert s.queues[s.udp[k].queue].inner + [] == s.queues[s.udp[k].queue].inner;
  }

  lemma DeliveredTwice(s: State, t: State, r: State, k: SessionKey, a: seq<Bytes>, b: seq<Bytes>, now: Instant)
    requires Delivered(s, t, k, a, now) && Delivered(t, r, k, b, now)
    ensures Delivered(s, r, k, a + b, now)
  {
    var q := s.udp[k].queue;
    assert (s.queues[q].inner + a) + b == s.queues[q].inner + (a + b);
  }

  lemma {:induction false} DeliverAllEffect(s: State, list: seq<(SessionKey, Bytes)>, now: Instant, k: SessionKey)
    requires Linked(s.udp, s.queues, s.sessions, s.hist.retains) && k in s.udp
    ensures Delivered(s, DeliverAll(s, list, now), k, ForKey(list, k), now)
    decreases |list|
  {
    if list == [] {
      assert s.queues[s.udp[k].queue].inner + [] == s.queues[s.udp[k].queue].inner;
    } else {
      var t := DeliverOne(s, list[0].0, list[0].1, now);
      DeliverOneEffect(s, list[0].0, list[0].1, now, k);
      DeliverLinked(s, list[0].0, list[0].1, now);
      DeliverAllEffect(t, list[1..], now, k);
      DeliveredTwice(s, t, DeliverAll(s, list, now), k, if list[0].0 ==
        k then [list[0].1] else [], ForKey(list[1..], k), now);
    }
  }

  lemma DeliverOneFrame(s: State, k: SessionKey, data: Bytes, now: Instant)
    requires Linked(s.udp, s.queues, s.sessions, s.hist.retains)
    ensures var t := DeliverOne(s, k, data, now);
            && t.udp.Keys == s.udp.Keys && t.queues.Keys == s.queues.Keys
            && forall q :: q in s.queues && s.queues[q].closed ==> t.queues[q] == s.queues[q]
  {
  }

  /** Nothing but the queues of table entries is touched. */
  lemma {:induction false} DeliverAllFrame(s: State, list: seq<(SessionKey, Bytes)>, now: Instant)
    requires Linked(s.udp, s.queues, s.sessions, s.hist.retains)
    ensures var r := DeliverAll(s, list, now);
            && r.udp.Keys == s.udp.Keys && r.queues.Keys == s.queues.Keys
            && forall q :: q in s.queues && s.queues[q].closed ==> r.queues[q] == s.queues[q]
    decreases |list|
  {
    if list != [] {
      var t := DeliverOne(s, list[0].0, list[0].1, now);
      DeliverOneFrame(s, list[0].0, list[0].1, now);
      DeliverLinked(s, list[0].0, list[0].1, now);
      DeliverAllFrame(t, list[1..], now);
    }
  }

  // ---- The theorem ----

  /** `r` is `s` after an ideal redistribution: the specification names no order and no list. */
  ghost predicate IdealRedistribution(s: State, r: State, now: Instant) {
    && r == s.(slots := r.slots, udp := r.udp, queues := r.queues)
    && r.udp.Keys == s.udp.Keys && r.queues.Keys == s.queues.Keys
    && (forall k :: k in s.udp ==> Delivered(s, r, k, Owed(s, k), now))
    && (forall q :: q in s.queues && s.queues[q].closed ==> r.queues[q] == s.queues[q])
    && r.slots.Keys == s.slots.Keys
    && (forall id :: id in s.slots ==>
          && r.slots[id] == s.slots[id].(sockets := r.slots[id].sockets)
          && r.slots[id].sockets.Keys == s.slots[id].sockets.Keys)
    && (forall id, h :: HasSocket(s.slots, id, h) ==>
          r.slots[id].sockets[h] ==
            if s.slots[id].sockets[h].UdpSock? then s.slots[id].sockets[h].(rx := []) else s.slots[id].sockets[h])
  }

  lemma ClearRxEffect(s: State)
    requires NoLeak(s.slots, s.tcp, s.dsts)
    ensures var r := ClearRx(s);
            && r.slots.Keys == s.slots.Keys
            && (forall id :: id in s.slots ==>
                  && r.slots[id] == s.slots[id].(sockets := r.slots[id].sockets)
                  && r.slots[id].sockets.Keys == s.slots[id].sockets.Keys)
            && (forall id, h :: HasSocket(s.slots, id, h) ==>
                  r.slots[id].sockets[h] ==
                    if s.slots[id].sockets[h].UdpSock? then s.slots[id].sockets[h].(rx := [])
                      else s.slots[id].sockets[h])
  {
  }

  lemma RedistributionIsIdeal(s: State, ch: Choices)
    requires Inv(s) && Enumerates(ch.dstOrder, s.dsts.Keys)
    ensures IdealRedistribution(s, Redistribute(s, ch), ch.now)
  {
    var list := DrainAll(s, s.cfg.ifaces, ch.dstOrder);
    InvLeaks(s);
    InvLinks(s);
    ClearRxEffect(s);
    DeliverAllFrame(ClearRx(s), list, ch.now);
    forall k | k in s.udp ensures Delivered(s, Redistribute(s, ch), k, Owed(s, k), ch.now) {
      InvShape(s);
      InvCounts(s);
      InvDst(s);
      ForKeyDrainAll(s, s.cfg.ifaces, ch.dstOrder, k);
      DeliverAllEffect(ClearRx(s), list, ch.now, k);
    }
  }

  lemma IdealQueuesUnique(s: State, a: State, b: State, now: Instant)
    requires Linked(s.udp, s.queues, s.sessions, s.hist.retains)
    requires IdealRedistribution(s, a, now) && IdealRedistribution(s, b, now)
    ensures a.udp == b.udp && a.queues == b.queues
  {
    forall q | q in s.queues ensures a.queues[q] == b.queues[q] {
      if !s.queues[q].closed {
        var k := s.sessions[q].key;
        assert k in s.udp && s.udp[k].queue == q;
      }
    }
  }

  lemma IdealSlotsUnique(s: State, a: State, b: State, now: Instant)
    requires IdealRedistribution(s, a, now) && IdealRedistribution(s, b, now)
    ensures a.slots == b.slots
  {
    forall id | id in s.slots ensures a.slots[id].sockets == b.slots[id].sockets {
      forall h | h in s.slots[id].sockets ensures a.slots[id].sockets[h] == b.slots[id].sockets[h] {
        assert HasSocket(s.slots, id, h);
      }
    }
  }

  /** An ideal redistribution leaves nothing open, so enumeration order cannot matter. */
  lemma IdealIsUnique(s: State, a: State, b: State, now: Instant)
    requires Linked(s.udp, s.queues, s.sessions, s.hist.retains)
    requires IdealRedistribution(s, a, now) && IdealRedistribution(s, b, now)
    ensures a == b
  {
    IdealQueuesUnique(s, a, b, now);
    IdealSlotsUnique(s, a, b, now);
  }

  lemma RedistributionOrderIrrelevant(s: State, ch: Choices, order: seq<DstKey>)
    requires Inv(s) && Enumerates(ch.dstOrder, s.dsts.Keys) && Enumerates(order, s.dsts.Keys)
    ensures Redistribute(s, ch) == Redistribute(s, ch.(dstOrder := order))
  {
    InvLinks(s);
    RedistributionIsIdeal(s, ch);
    RedistributionIsIdeal(s, ch.(dstOrder := order));
    IdealIsUnique(s, Redistribute(s, ch), Redistribute(s, ch.(dstOrder := order)), ch.now);
  }

  /** What a listed session is owed is what its own socket's receive buffer holds from its source, oldest first. */
  lemma OwedByOwnSocket(s: State, k: SessionKey)
    requires Inv(s) && k in s.udp
    ensures HasSocket(s.slots, k.iface, s.udp[k].socket) && s.slots[k.iface].sockets[s.udp[k].socket].UdpSock?
    ensures Owed(s, k) == Matching(s.slots[k.iface].sockets[s.udp[k].socket].rx, k.src)
  {
    InvCounts(s);
    InvDst(s);
  }
}

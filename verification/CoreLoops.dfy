/**
 What the loops of the mutable netstack keep, stated on values: each predicate ties the
 state reached so far to the operation the loop implements.
 */
module CoreLoops {
  import opened Types
  import opened Counting
  import Ops
  import opened Invariant
  import opened PreserveTcp
  import opened PreserveUdp
  import opened Redistribution
  import opened Runs

  /** `table` is the slot vector by interface id. */
  ghost predicate Mirrors(ids: seq<InterfaceId>, slots: seq<Slot>, table: map<InterfaceId, Slot>) {
    && NoDup(ids) && HasIds(slots, ids)
    && (forall i :: 0 <= i < |slots| ==> slots[i].id in table && table[slots[i].id] == slots[i])
    && (forall id :: Covers(ids, table, id))
  }

  /** An interface has a slot exactly if it is configured. */
  ghost predicate Covers(ids: seq<InterfaceId>, table: map<InterfaceId, Slot>, id: InterfaceId) {
    id in table <==> id in ids
  }

  /** Recognise an operation's result by its fields. */
  lemma TcpListenIs(s: State, r: State, key: SessionKey, h: Handle)
    requires key.iface in s.slots
    requires r == s.(slots := r.slots, tcp := r.tcp, bytes := r.bytes, hist := r.hist)
    requires var slot := s.slots[key.iface];
             && r.slots == Ops.SetSlot(s.slots, key.iface,
                  slot.(pool := Ops.PoolRest(slot.pool), sockets := slot.sockets[h := TcpSock(Listen, key.dst)]))
             && r.tcp == s.tcp[key := TcpEntry(h, Pending, false)]
             && r.bytes == s.bytes + Ops.TcpCost(slot)
             && r.hist == s.hist.(created := s.hist.created + 1,
                  peak := Ops.Risen(s.hist.peak, key.iface, Count(r.tcp, OnIface(key.iface))))
    ensures r == Ops.TcpListen(s, key, h)
  {
  }

  lemma AddSessionIs(s: State, r: State, key: SessionKey, h: Handle, now: Instant)
    requires r == s.(udp := r.udp, queues := r.queues, sessions := r.sessions, hist := r.hist)
    requires r.udp == s.udp[key := UdpEntry(h, s.hist.retains, now)]
    requires r.queues == s.queues[s.hist.retains := Queue([], false)]
    requires r.sessions == s.sessions[s.hist.retains := Session(key, h)]
    requires r.hist == s.hist.(retains := s.hist.retains + 1)
    ensures r == Ops.AddSession(s, key, h, now)
  {
  }

  /** An entry's handle names a TCP socket of an existing slot, so that its lookup cannot panic. */
  ghost predicate HasTcpSocket(slots: map<InterfaceId, Slot>, key: SessionKey, h: Handle) {
    Ops.HasSocket(slots, key.iface, h) && slots[key.iface].sockets[h].TcpSock?
  }

  /** Visiting entries changes neither what is orphaned nor what is closed. */
  lemma ReapableVisit(s: State, k: SessionKey, x: SessionKey)
    ensures Ops.Reapable(Ops.Visit(s, k), x) <==> Ops.Reapable(s, x)
  {
    VisitCases(s, k);
  }

  lemma {:induction false} ReapListVisit(s: State, k: SessionKey, order: seq<SessionKey>)
    ensures Ops.ReapList(Ops.Visit(s, k), order) == Ops.ReapList(s, order)
    decreases |order|
  {
    if order != [] {
      ReapableVisit(s, k, order[0]);
      ReapListVisit(s, k, order[1..]);
    }
  }

  lemma {:induction false} ReapListVisitAll(s: State, ks: seq<SessionKey>, order: seq<SessionKey>)
    ensures Ops.ReapList(Ops.VisitAll(s, ks), order) == Ops.ReapList(s, order)
    decreases |ks|
  {
    if ks != [] {
      ReapListVisit(s, ks[0], order);
      ReapListVisitAll(Ops.Visit(s, ks[0]), ks[1..], order);
    }
  }

  /** One iteration over the TCP table. */
  lemma VisitStep(s: State, order: seq<SessionKey>, n: nat)
    requires TcpOwned(s.slots, s.tcp) && n < |order| && order[n] in s.tcp
    ensures HasTcpSocket(s.slots, order[n], s.tcp[order[n]].handle)
    ensures var t := Ops.Visit(s, order[n]);
            && TcpOwned(t.slots, t.tcp) && t.tcp.Keys == s.tcp.Keys
            && Ops.VisitAll(t, order[n + 1..]) == Ops.VisitAll(s, order[n..])
            && Ops.ReapList(s, order[n..]) ==
                 (if Ops.Reapable(s, order[n]) then [order[n]] else []) + Ops.ReapList(t, order[n + 1..])
  {
    assert order[n..][1..] == order[n + 1..];
    VisitOwned(s, order[n]);
    ReapListVisit(s, order[n], order[n + 1..]);
  }

  /** The loop over the TCP table has turned `s` into `cur` after `n` entries and collected `reap`. */
  ghost predicate Visiting(s: State, cur: State, order: seq<SessionKey>, n: nat, reap: seq<SessionKey>) {
    && n <= |order| && TcpOwned(cur.slots, cur.tcp) && (forall k :: k in order ==> k in cur.tcp)
    && Ops.VisitAll(cur, order[n..]) == Ops.VisitAll(s, order)
    && reap + Ops.ReapList(cur, order[n..]) == Ops.ReapList(s, order)
  }

  lemma VisitNext(s: State, cur: State, order: seq<SessionKey>, n: nat, reap: seq<SessionKey>)
    requires Visiting(s, cur, order, n, reap) && n < |order|
    ensures order[n] in cur.tcp && HasTcpSocket(cur.slots, order[n], cur.tcp[order[n]].handle)
    ensures Visiting(s, Ops.Visit(cur, order[n]), order, n + 1,
              if Ops.Reapable(cur, order[n]) then reap + [order[n]] else reap)
  {
    var k := order[n];
    assert k in order;
    VisitStep(cur, order, n);
    var rest := Ops.ReapList(Ops.Visit(cur, k), order[n + 1..]);
    assert reap + ([k] + rest) == (reap + [k]) + rest;
    assert [] + rest == rest;
  }

  /** Reaped one after the other, each of `ks` is found with its socket, whose cost is charged. */
  ghost predicate AllReaping(s: State, ks: seq<SessionKey>)
    decreases |ks|
  {
    ks != [] ==>
      && ks[0] in s.tcp && HasTcpSocket(s.slots, ks[0], s.tcp[ks[0]].handle)
      && Ops.TcpCost(s.slots[ks[0].iface]) <= s.bytes
      && AllReaping(Ops.Reap(s, ks[0]), ks[1..])
  }

  lemma InvReaping(s: State, k: SessionKey)
    requires Inv(s) && k in s.tcp
    ensures HasTcpSocket(s.slots, k, s.tcp[k].handle) && Ops.TcpCost(s.slots[k.iface]) <= s.bytes
  {
    InvShape(s);
    InvTcp(s);
    InvBudget(s);
    TimesMono(1, |s.tcp|, 2 * s.cfg.tcpBufferSize);
    TimesOne(2 * s.cfg.tcpBufferSize);
  }

  lemma {:induction false} InvAllReaping(s: State, ks: seq<SessionKey>)
    requires Inv(s) && AllReapable(s, ks)
    ensures AllReaping(s, ks)
    decreases |ks|
  {
    if ks != [] {
      assert Ops.Reapable(s, ks[0]);
      InvReaping(s, ks[0]);
      InvTcp(s);
      ReapInv(s, ks[0]);
      ReapRest(s, ks);
      InvAllReaping(Ops.Reap(s, ks[0]), ks[1..]);
    }
  }

  /** The reaping loop has turned `s` into `cur` after `n` keys. */
  ghost predicate Reaping(s: State, cur: State, ks: seq<SessionKey>, n: nat) {
    n <= |ks| && AllReaping(cur, ks[n..]) && Ops.ReapAll(cur, ks[n..]) == Ops.ReapAll(s, ks)
  }

  lemma ReapEnd(s: State, cur: State, ks: seq<SessionKey>)
    requires Reaping(s, cur, ks, |ks|)
    ensures cur == Ops.ReapAll(s, ks)
  {
    assert ks[|ks|..] == [];
  }

  lemma ReapStart(s: State, ks: seq<SessionKey>)
    requires AllReaping(s, ks)
    ensures Reaping(s, s, ks, 0)
  {
    assert ks[0..] == ks;
  }

  lemma ReapNext(s: State, cur: State, ks: seq<SessionKey>, n: nat)
    requires Reaping(s, cur, ks, n) && n < |ks|
    ensures ks[n] in cur.tcp && HasTcpSocket(cur.slots, ks[n], cur.tcp[ks[n]].handle)
    ensures Ops.TcpCost(cur.slots[ks[n].iface]) <= cur.bytes
    ensures Reaping(s, Ops.Reap(cur, ks[n]), ks, n + 1)
  {
    assert ks[n..][1..] == ks[n + 1..];
  }

  // ---- Draining the shared sockets ----

  /** `slot` is the slot of `s` with the receive buffers of the shared sockets in `done` emptied. */
  ghost predicate PartlyDrained(s: State, slot: Slot, done: set<DstKey>) {
    && slot.id in s.slots
    && slot == s.slots[slot.id].(sockets := slot.sockets)
    && slot.sockets.Keys == s.slots[slot.id].sockets.Keys
    && (forall h :: h in slot.sockets ==>
         slot.sockets[h] == Emptied(slot.id, h, s.slots[slot.id].sockets[h], s.dsts, done))
  }

  ghost function Emptied(id: InterfaceId, h: Handle, sock: Socket, dsts: map<DstKey, SharedSocket>,
          done: set<DstKey>): Socket
  {
    if sock.UdpSock? && DstKey(id, sock.bound) in done then Ops.Drained(id, h, sock, dsts) else sock
  }

  lemma FullyDrained(s: State, slot: Slot, order: seq<DstKey>, done: set<DstKey>)
    requires PartlyDrained(s, slot, done) && Enumerates(order, s.dsts.Keys) &&
             forall j :: 0 <= j < |order| ==> order[j] in done
    ensures slot == Ops.ClearRx(s).slots[slot.id]
  {
    forall d | d in s.dsts ensures d in done {
      assert d in order;
    }
    assert slot.sockets == Ops.ClearRx(s).slots[slot.id].sockets;
  }

  /** The socket of an undrained destination is there and holds what it held. */
  lemma DrainReads(s: State, slot: Slot, done: set<DstKey>, d: DstKey)
    requires PartlyDrained(s, slot, done) && DstOwned(s.slots, s.dsts) && d in s.dsts && d !in done &&
             d.iface == slot.id
    ensures s.dsts[d].handle in slot.sockets
    ensures slot.sockets[s.dsts[d].handle] == s.slots[slot.id].sockets[s.dsts[d].handle]
    ensures slot.sockets[s.dsts[d].handle].UdpSock? && slot.sockets[s.dsts[d].handle].bound == d.ep
    ensures slot.sockets[s.dsts[d].handle].rx == Ops.RxOf(s.slots, s.dsts, d)
  {
    assert Ops.HasSocket(s.slots, d.iface, s.dsts[d].handle);
  }

  lemma DrainWrites(s: State, slot: Slot, done: set<DstKey>, d: DstKey)
    requires PartlyDrained(s, slot, done) && DstOwned(s.slots, s.dsts) && d in s.dsts && d !in done &&
             d.iface == slot.id
    requires s.dsts[d].handle in slot.sockets && slot.sockets[s.dsts[d].handle].UdpSock?
    ensures var h := s.dsts[d].handle;
            PartlyDrained(s, slot.(sockets := slot.sockets[h := slot.sockets[h].(rx := [])]), done + {d})
  {
    DrainReads(s, slot, done, d);
  }

  /** A destination of another slot changes nothing in this one. */
  lemma DrainSkips(s: State, slot: Slot, done: set<DstKey>, d: DstKey)
    requires PartlyDrained(s, slot, done) && d.iface != slot.id
    ensures PartlyDrained(s, slot, done + {d})
  {
  }

  /** `done` holds exactly the first `n` elements of `order`. */
  ghost predicate Passed(order: seq<DstKey>, n: nat, done: set<DstKey>) {
    && n <= |order|
    && (forall j :: 0 <= j < n ==> order[j] in done)
    && (forall j :: n <= j < |order| ==> order[j] !in done)
  }

  /** The datagrams collected so far and those still to come are all of them, in order. */
  ghost predicate Collecting(items: seq<(SessionKey, Bytes)>, rest: seq<(SessionKey, Bytes)>,
          whole: seq<(SessionKey, Bytes)>)
  {
    items + rest == whole
  }

  /** What one destination adds to the datagrams of slot `id`. */
  lemma DrainSlotStep(s: State, id: InterfaceId, order: seq<DstKey>, n: nat, items: seq<(SessionKey, Bytes)>)
    requires n < |order| && Collecting(items, Ops.DrainSlot(s, id, order[n..]), Ops.DrainSlot(s, id, order))
    ensures order[n].iface != id ==> Collecting(items, Ops.DrainSlot(s, id, order[n + 1..]),
              Ops.DrainSlot(s, id, order))
    ensures order[n].iface == id ==>
              Collecting(items + Ops.Tagged(order[n], Ops.RxOf(s.slots, s.dsts, order[n])),
                Ops.DrainSlot(s, id, order[n + 1..]),
                         Ops.DrainSlot(s, id, order))
  {
    assert order[n..][1..] == order[n + 1..];
    var head, rest := Ops.Tagged(order[n], Ops.RxOf(s.slots, s.dsts, order[n])), Ops.DrainSlot(s, id, order[n + 1..]);
    if order[n].iface == id {
      assert items + (head + rest) == (items + head) + rest;
    } else {
      assert [] + rest == rest;
    }
  }

  lemma DrainAllStep(s: State, ids: seq<InterfaceId>, i: nat, order: seq<DstKey>, items: seq<(SessionKey, Bytes)>)
    requires i < |ids| && Collecting(items, Ops.DrainAll(s, ids[i..], order), Ops.DrainAll(s, ids, order))
    ensures Collecting(items + Ops.DrainSlot(s, ids[i], order), Ops.DrainAll(s, ids[i + 1..], order),
              Ops.DrainAll(s, ids, order))
  {
    assert ids[i..][1..] == ids[i + 1..];
    var head, rest := Ops.DrainSlot(s, ids[i], order), Ops.DrainAll(s, ids[i + 1..], order);
    assert items + (head + rest) == (items + head) + rest;
  }

  /** A loop over the slot vector that turns table `before` into table `after`, with `i` slots done. */
  ghost predicate Replacing(ids: seq<InterfaceId>, slots: seq<Slot>, before: map<InterfaceId, Slot>,
          after: map<InterfaceId, Slot>, i: nat)
  {
    && i <= |slots| && HasIds(slots, ids)
    && (forall j :: 0 <= j < i ==> slots[j].id in after && slots[j] == after[slots[j].id])
    && (forall j :: i <= j < |slots| ==> slots[j].id in before && slots[j] == before[slots[j].id])
  }

  lemma ReplaceNext(ids: seq<InterfaceId>, slots: seq<Slot>, before: map<InterfaceId, Slot>,
          after: map<InterfaceId, Slot>, i: nat, slot: Slot)
    requires Replacing(ids, slots, before, after, i) && i < |slots|
    requires slot.id == slots[i].id && slot.id in after && slot == after[slot.id]
    ensures Replacing(ids, slots[i := slot], before, after, i + 1)
  {
  }

  lemma ReplaceEnd(ids: seq<InterfaceId>, slots: seq<Slot>, before: map<InterfaceId, Slot>,
          after: map<InterfaceId, Slot>)
    requires Replacing(ids, slots, before, after, |slots|) && NoDup(ids) && forall id :: Covers(ids, after, id)
    ensures Mirrors(ids, slots, after)
  {
  }

  /** One more buffer element read. */
  lemma TaggedStep(d: DstKey, rx: seq<Rx>, n: nat, items: seq<(SessionKey, Bytes)>)
    requires n < |rx| && items + Ops.Tagged(d, rx[n..]) == Ops.Tagged(d, rx)
    ensures rx[n].Truncated? ==> items + Ops.Tagged(d, rx[n + 1..]) == Ops.Tagged(d, rx)
    ensures rx[n].Datagram? ==>
              (items + [(SessionKey(d.iface, Udp, rx[n].src, d.ep), rx[n].data)]) + Ops.Tagged(d, rx[n + 1..]) ==
                Ops.Tagged(d, rx)
  {
    assert rx[n..][1..] == rx[n + 1..];
    var rest := Ops.Tagged(d, rx[n + 1..]);
    if rx[n].Datagram? {
      var head := [(SessionKey(d.iface, Udp, rx[n].src, d.ep), rx[n].data)];
      assert items + (head + rest) == (items + head) + rest;
    } else {
      assert [] + rest == rest;
    }
  }

  // ---- Delivery and sweep ----

  /** Every entry's queue exists; in the program the entry holds a reference to it. */
  ghost predicate QueuesExist(udp: map<SessionKey, UdpEntry>, queues: map<QueueId, Queue>) {
    forall k :: k in udp ==> udp[k].queue in queues
  }

  lemma DeliverKeepsQueues(s: State, k: SessionKey, data: Bytes, now: Instant)
    requires QueuesExist(s.udp, s.queues)
    ensures var t := Ops.DeliverOne(s, k, data, now); QueuesExist(t.udp, t.queues)
  {
  }

  /** The loop over the routed datagrams, `n` of them delivered. */
  ghost predicate Delivering(s: State, t: State, routed: seq<(SessionKey, Bytes)>, n: nat, now: Instant) {
    n <= |routed| && QueuesExist(t.udp, t.queues) &&
      Ops.DeliverAll(t, routed[n..], now) == Ops.DeliverAll(s, routed, now)
  }

  lemma DeliverStart(s: State, routed: seq<(SessionKey, Bytes)>, now: Instant)
    requires QueuesExist(s.udp, s.queues)
    ensures Delivering(s, s, routed, 0, now)
  {
    assert routed[0..] == routed;
  }

  lemma DeliverNext(s: State, t: State, routed: seq<(SessionKey, Bytes)>, n: nat, now: Instant)
    requires Delivering(s, t, routed, n, now) && n < |routed|
    ensures Delivering(s, Ops.DeliverOne(t, routed[n].0, routed[n].1, now), routed, n + 1, now)
  {
    assert routed[n..][1..] == routed[n + 1..];
    DeliverKeepsQueues(t, routed[n].0, routed[n].1, now);
  }

  /**
   The entry's queue, its shared registration and its socket exist, so that removing it cannot panic, and the
   socket is charged.
   */
  ghost predicate Removable(s: State, k: SessionKey) {
    k in s.udp ==>
      && s.udp[k].queue in s.queues && DstOf(k) in s.dsts && Ops.HasSocket(s.slots, k.iface, s.udp[k].socket)
      && Ops.UdpCost(s.cfg, s.slots[k.iface].mtu) <= s.bytes
  }

  /** ... for each of `ks`, when they are removed one after the other. */
  ghost predicate AllRemovable(s: State, ks: seq<SessionKey>)
    decreases |ks|
  {
    ks == [] || (Removable(s, ks[0]) && AllRemovable(Ops.RemoveUdp(s, ks[0]), ks[1..]))
  }

  lemma InvUdpRefund(s: State, d: DstKey)
    requires Inv(s) && d in s.dsts
    ensures d.iface in s.slots && Ops.UdpCost(s.cfg, s.slots[d.iface].mtu) <= s.bytes
  {
    InvShape(s);
    InvDst(s);
    InvBudget(s);
    TimesMono(1, |s.dsts| + s.hist.failedBinds, Ops.UdpCost(s.cfg, s.cfg.mtu));
    TimesOne(Ops.UdpCost(s.cfg, s.cfg.mtu));
  }

  lemma InvRemovable(s: State, k: SessionKey)
    requires Inv(s)
    ensures Removable(s, k)
  {
    InvCounts(s);
    InvDst(s);
    InvLinks(s);
    if k in s.udp {
      InvUdpRefund(s, DstOf(k));
    }
  }

  lemma {:induction false} InvAllRemovable(s: State, ks: seq<SessionKey>)
    requires Inv(s)
    ensures AllRemovable(s, ks)
    decreases |ks|
  {
    if ks != [] {
      InvRemovable(s, ks[0]);
      RemoveUdpInv(s, ks[0]);
      InvAllRemovable(Ops.RemoveUdp(s, ks[0]), ks[1..]);
    }
  }

  /** The removal loop has turned `s` into `cur` after `n` keys. */
  ghost predicate Removing(s: State, cur: State, ks: seq<SessionKey>, n: nat) {
    n <= |ks| && AllRemovable(cur, ks[n..]) && Ops.RemoveAll(cur, ks[n..]) == Ops.RemoveAll(s, ks)
  }

  lemma RemoveStart(s: State, ks: seq<SessionKey>)
    requires AllRemovable(s, ks)
    ensures Removing(s, s, ks, 0)
  {
    assert ks[0..] == ks;
  }

  lemma RemoveNext(s: State, cur: State, ks: seq<SessionKey>, n: nat)
    requires Removing(s, cur, ks, n) && n < |ks|
    ensures Removable(cur, ks[n]) && Removing(s, Ops.RemoveUdp(cur, ks[n]), ks, n + 1)
  {
    assert ks[n..][1..] == ks[n + 1..];
  }

  lemma RemoveEnd(s: State, cur: State, ks: seq<SessionKey>)
    requires Removing(s, cur, ks, |ks|)
    ensures cur == Ops.RemoveAll(s, ks)
  {
  }

  lemma ExpiredStep(s: State, order: seq<SessionKey>, n: nat, now: Instant, expired: seq<SessionKey>)
    requires n < |order| && expired + Ops.ExpiredList(s, order[n..], now) == Ops.ExpiredList(s, order, now)
    ensures (if Ops.Overdue(s, order[n], now) then expired + [order[n]] else expired) +
            Ops.ExpiredList(s, order[n + 1..], now)
            == Ops.ExpiredList(s, order, now)
  {
    assert order[n..][1..] == order[n + 1..];
    var rest := Ops.ExpiredList(s, order[n + 1..], now);
    if Ops.Overdue(s, order[n], now) {
      assert expired + ([order[n]] + rest) == (expired + [order[n]]) + rest;
    } else {
      assert [] + rest == rest;
    }
  }

  // ---- Stages of the post-pass ----

  // What each stage of the post-pass needs of the state the stage before leaves.

  ghost predicate TcpReady(s: State, ch: Choices) {
    && TcpOwned(s.slots, s.tcp) && (forall k :: k in ch.tcpOrder ==> k in s.tcp)
    && var v := Ops.VisitAll(s, ch.tcpOrder); AllReaping(v, Ops.ReapList(v, ch.tcpOrder))
  }

  ghost predicate UdpReady(t: State, ch: Choices) {
    && DstOwned(t.slots, t.dsts) && QueuesExist(t.udp, t.queues) && Enumerates(ch.dstOrder, t.dsts.Keys)
    && var u := Ops.Redistribute(t, ch);
       (forall k :: k in ch.udpOrder ==> k in u.udp) && AllRemovable(u, Ops.ExpiredList(u, ch.udpOrder, ch.now))
  }

  ghost predicate PostPassReady(s: State, ch: Choices) {
    TcpReady(s, ch) && UdpReady(Ops.TcpPass(s, ch), ch)
  }

  lemma TcpStages(s: State, ch: Choices)
    requires Inv(s) && Enumerates(ch.tcpOrder, s.tcp.Keys)
    ensures TcpReady(s, ch)
  {
    var v := Ops.VisitAll(s, ch.tcpOrder);
    VisitAllInv(s, ch.tcpOrder);
    InvTcp(s);
    InvTcp(v);
    ReapListReapable(v, ch.tcpOrder);
    InvAllReaping(v, Ops.ReapList(v, ch.tcpOrder));
  }

  lemma UdpStages(t: State, ch: Choices)
    requires Inv(t) && Enumerates(ch.dstOrder, t.dsts.Keys) && Enumerates(ch.udpOrder, t.udp.Keys)
    ensures UdpReady(t, ch)
  {
    var u := Ops.Redistribute(t, ch);
    InvDst(t);
    InvLinks(t);
    RedistributeInv(t, ch);
    DeliverAllFrame(Ops.ClearRx(t), Ops.DrainAll(t, t.cfg.ifaces, ch.dstOrder), ch.now);
    InvAllRemovable(u, Ops.ExpiredList(u, ch.udpOrder, ch.now));
  }

  lemma InvReady(s: State, ch: Choices)
    requires Inv(s)
    requires Enumerates(ch.tcpOrder, s.tcp.Keys) && Enumerates(ch.dstOrder, s.dsts.Keys) &&
             Enumerates(ch.udpOrder, s.udp.Keys)
    ensures PostPassReady(s, ch)
  {
    var t := Ops.TcpPass(s, ch);
    TcpStages(s, ch);
    TcpPassInv(s, ch);
    TcpPassFrame(s, ch);
    UdpStages(t, ch);
  }

  lemma TcpPassFrame(s: State, ch: Choices)
    ensures var t := Ops.TcpPass(s, ch); t.dsts == s.dsts && t.udp == s.udp && t.queues == s.queues
  {
  }

  lemma PolledMirrors(ids: seq<InterfaceId>, slots: seq<Slot>)
    requires NoDup(ids) && HasIds(slots, ids)
    ensures Mirrors(ids, slots, SlotMap(slots))
  {
    SlotMapLookup(slots, ids);
  }

  /** A cycle that may start can be carried through: the slots keep their positions and no lookup misses. */
  lemma CycleReady(s: State, ch: Choices)
    requires Inv(s) && CycleEnabled(s, ch)
    ensures Mirrors(s.cfg.ifaces, ch.polled, SlotMap(ch.polled)) && PostPassReady(Polled(s, ch), ch)
  {
    PolledInv(s, ch);
    InvReady(Polled(s, ch), ch);
    InvShape(s);
    PolledMirrors(s.cfg.ifaces, ch.polled);
  }

  // ---- Application side ----

  /** A live stream's handle names its own socket. */
  lemma StreamHasSocket(s: State, x: StreamId)
    requires Inv(s) && x in s.streams
    ensures var k, h := s.streams[x].key, s.streams[x].handle;
            k in s.tcp && Ops.HasSocket(s.slots, k.iface, h) && s.slots[k.iface].sockets[h].TcpSock? &&
              s.slots[k.iface].sockets[h].local == k.dst
  {
    InvTcp(s);
    InvExposed(s);
  }

  /** A live session's queue exists and, while it is open, so does its shared socket. */
  lemma SessionHasSocket(s: State, q: QueueId)
    requires Inv(s) && q in s.sessions
    ensures q in s.queues
    ensures var k, h := s.sessions[q].key, s.sessions[q].socket;
            !s.queues[q].closed ==> Ops.HasSocket(s.slots, k.iface, h) && s.slots[k.iface].sockets[h].UdpSock?
  {
    InvLinks(s);
    InvCounts(s);
    InvDst(s);
  }
}

/**
 The mutable netstack behind its mutex. Slots are a vector searched by id, hash maps
 are updated in place, budget releases of a post-pass are summed up and applied once,
 and datagrams are collected before they are delivered; every method is proved
 against the operation it implements, and no socket lookup can miss.
 */
module CoreState {
  import opened Types
  import opened Connections
  import opened Counting
  import Ops
  import opened Invariant
  import opened Tables
  import opened Runs
  import opened Fifo
  import opened CoreLoops

  class Core {
    const cfg: Config
    var slots: seq<Slot>
    var tcp: map<SessionKey, TcpEntry>
    var udp: map<SessionKey, UdpEntry>
    var dsts: map<DstKey, SharedSocket>
    var bytes: nat
    /** The shared queues, and the identities of the next queue and the next stream to be created. */
    var queues: map<QueueId, Queue>
    var nextQueue: QueueId
    var nextStream: StreamId
    /** Application-side objects that are alive. */
    var streams: map<StreamId, Stream>
    var sessions: map<QueueId, Session>
    ghost var hist: History
    /** The slot vector by interface id. */
    ghost var table: map<InterfaceId, Slot>

    ghost function St(): State
      reads this
    {
      State(cfg, table, tcp, udp, dsts, bytes, queues, streams, sessions, hist)
    }

    ghost predicate Wired()
      reads this
    {
      Mirrors(cfg.ifaces, slots, table) && nextQueue == hist.retains && nextStream == hist.accepted
    }

    ghost predicate Valid()
      reads this
    {
      Wired() && Inv(St())
    }

    // ---- Slots and budget (core.rs) ----

    method FindSlot(id: InterfaceId) returns (i: nat)
      requires Wired()
      ensures i <= |slots|
      ensures i < |slots| <==> id in table
      ensures i < |slots| ==> slots[i].id == id && table[id] == slots[i]
    {
      i := 0;
      while i < |slots| && slots[i].id != id
        invariant i <= |slots|
        invariant forall j :: 0 <= j < i ==> slots[j].id != id
      {
        i := i + 1;
      }
      assert Covers(cfg.ifaces, table, id);
      assert i < |slots| ==> cfg.ifaces[i] == id;
    }

    method PutSlot(i: nat, slot: Slot)
      requires Wired() && i < |slots| && slot.id == slots[i].id
      modifies this`slots, this`table
      ensures Wired() && slots == old(slots)[i := slot]
      ensures slot.id in old(table) && table == Ops.SetSlot(old(table), slot.id, slot)
    {
      ghost var before := table;
      slots := slots[i := slot];
      table := table[slot.id := slot];
      forall id ensures Covers(cfg.ifaces, table, id) {
        assert Covers(cfg.ifaces, before, id);
      }
      assert forall j :: 0 <= j < |slots| && j != i ==> cfg.ifaces[j] != cfg.ifaces[i];
    }

    method ReserveBuffer(need: nat) returns (ok: bool)
      modifies this`bytes
      ensures ok == Ops.Reservable(cfg, old(bytes), need)
      ensures bytes == if ok then old(bytes) + need else old(bytes)
      ensures St() == old(St()).(bytes := bytes)
    {
      if cfg.maxBufferBytes.Some? && bytes + need > cfg.maxBufferBytes.value {
        return false;
      }
      bytes := bytes + need;
      return true;
    }

    method ReleaseBuffer(freed: nat)
      modifies this`bytes
      ensures bytes == Ops.Release(old(bytes), freed)
    {
      bytes := if freed <= bytes then bytes - freed else 0;
    }

    // ---- Pre-pass (runner.rs) ----

    method AllocTcp(i: nat, key: SessionKey, listens: bool, h: Handle)
      requires Wired() && i < |slots| && key.iface == slots[i].id && key.iface in St().slots
      modifies this
      ensures Wired() && St() == Ops.AllocTcp(old(St()), key, listens, h)
    {
      ghost var s := St();
      var ok := ReserveBuffer(2 * slots[i].bufferSize);
      if ok {
        // a pooled socket is taken, or a new one made, and asked to listen
        if listens {
          RegisterTcp(s, i, key, h);
        } else {
          AbandonTcp(s, i, key);
        }
      }
    }

    /** State `s` with interface `key.iface` at position `i` and `cost` charged on top. */
    ghost predicate Charged(s: State, i: nat, key: SessionKey, cost: nat)
      reads this
    {
      Wired() && i < |slots| && key.iface == slots[i].id && key.iface in s.slots && St() == s.(bytes := s.bytes + cost)
    }

    /** The listen failed: the pooled socket is gone and its cost is given back. */
    method AbandonTcp(ghost s: State, i: nat, key: SessionKey)
      requires i < |slots| && Charged(s, i, key, Ops.TcpCost(slots[i]))
      modifies this`slots, this`table, this`bytes
      ensures Wired() && St() == Ops.TcpListenFails(s, key)
    {
      PutSlot(i, slots[i].(pool := Ops.PoolRest(slots[i].pool)));
      ReleaseBuffer(2 * slots[i].bufferSize);
    }

    /** Add the listening socket to the set and its entry to the table. */
    method RegisterTcp(ghost s: State, i: nat, key: SessionKey, h: Handle)
      requires i < |slots| && Charged(s, i, key, Ops.TcpCost(slots[i]))
      modifies this`slots, this`table, this`tcp, this`hist
      ensures Wired() && St() == Ops.TcpListen(s, key, h)
    {
      PutSlot(i, slots[i].(pool := Ops.PoolRest(slots[i].pool),
        sockets := slots[i].sockets[h := TcpSock(Listen, key.dst)]));
      tcp := tcp[key := TcpEntry(h, Pending, false)];
      hist := hist.(created := hist.created + 1,
        peak := Ops.Risen(hist.peak, key.iface, Count(tcp, OnIface(key.iface))));
      TcpListenIs(s, St(), key, h);
    }

    /** The handle of the shared socket for `d`, which is created under handle `h` if there is none and it binds. */
    method UdpSocketFor(i: nat, d: DstKey, binds: bool, h: Handle) returns (handle: Option<Handle>)
      requires Wired() && i < |slots| && d.iface == slots[i].id && d.iface in St().slots
      modifies this`slots, this`table, this`dsts
      ensures Wired() && |slots| == |old(slots)|
      ensures d in old(dsts) ==>
                handle == Some(old(dsts)[d].handle) && slots == old(slots) && table == old(table) && dsts == old(dsts)
      ensures d !in old(dsts) && !binds ==>
                handle == None && slots == old(slots) && table == old(table) && dsts == old(dsts)
      ensures d !in old(dsts) && binds ==>
                && handle == Some(h) && dsts == old(dsts)[d := SharedSocket(h, 0)]
                && var slot := old(table)[d.iface];
                   table == Ops.SetSlot(old(table), d.iface, slot.(sockets := slot.sockets[h := UdpSock(d.ep, [], [])]))
    {
      if d in dsts {
        return Some(dsts[d].handle);
      }
      if !binds {
        return None;
      }
      PutSlot(i, slots[i].(sockets := slots[i].sockets[h := UdpSock(d.ep, [], [])]));
      dsts := dsts[d := SharedSocket(h, 0)];
      return Some(h);
    }

    method UdpSocketRetain(d: DstKey)
      modifies this`dsts
      ensures dsts == if d in old(dsts) then Ops.Retain(old(dsts), d) else old(dsts)
    {
      if d in dsts {
        dsts := dsts[d := dsts[d].(count := dsts[d].count + 1)];
      }
    }

    /** Drop one reference; true if that was the last one and the registration is gone. */
    method UdpSocketRelease(d: DstKey) returns (last: bool)
      modifies this`dsts
      ensures last <==> d in old(dsts) && old(dsts)[d].count <= 1
      ensures dsts == if last then old(dsts) - {d}
                      else if d in old(dsts) then old(dsts)[d := old(dsts)[d].(count := old(dsts)[d].count - 1)]
                      else old(dsts)
    {
      last := false;
      if d in dsts {
        var count := if dsts[d].count == 0 then 0 else dsts[d].count - 1;
        if count == 0 {
          dsts := dsts - {d};
          return true;
        }
        dsts := dsts[d := dsts[d].(count := count)];
      }
    }

    method AllocUdp(i: nat, key: SessionKey, binds: bool, h: Handle, now: Instant) returns (accepted: bool)
      requires Wired() && i < |slots| && key.iface == slots[i].id && key.iface in St().slots
      modifies this
      ensures Wired() && St() == Ops.AllocUdp(old(St()), key, binds, h, now)
      ensures accepted <==> old(hist.retains) < hist.retains
    {
      accepted := true;
      if DstOf(key) in dsts {
        JoinShared(i, key, binds, h, now);
      } else {
        accepted := OpenShared(i, key, binds, h, now);
      }
    }

    method JoinShared(i: nat, key: SessionKey, binds: bool, h: Handle, now: Instant)
      requires Wired() && i < |slots| && key.iface == slots[i].id && key.iface in St().slots && DstOf(key) in dsts
      modifies this
      ensures Wired() && St() == Ops.JoinShared(old(St()), key, now)
    {
      var handle := UdpSocketFor(i, DstOf(key), binds, h);
      UdpSocketRetain(DstOf(key));
      AddSession(key, handle.value, now);
    }

    /** Reserve, bind and register a new shared socket; the reservation survives a failed bind. */
    method OpenShared(i: nat, key: SessionKey, binds: bool, h: Handle, now: Instant) returns (accepted: bool)
      requires Wired() && i < |slots| && key.iface == slots[i].id && key.iface in St().slots && DstOf(key) !in dsts
      modifies this
      ensures Wired() && St() == Ops.AllocUdp(old(St()), key, binds, h, now)
      ensures accepted <==> old(hist.retains) < hist.retains
    {
      ghost var s := St();
      var need := Max(cfg.udpBufferPackets, 1) * 64 + Max(cfg.udpBufferBytes, slots[i].mtu);
      assert need == Ops.UdpCost(cfg, slots[i].mtu);
      accepted := ReserveBuffer(need);
      if accepted {
        accepted := binds;
        if binds {
          BindShared(s, i, key, h, now);
        } else {
          FailBind(s, i, key);
        }
      }
    }

    /** A failed bind leaves no trace but the charge. */
    method FailBind(ghost s: State, i: nat, key: SessionKey)
      requires i < |slots| && Charged(s, i, key, Ops.UdpCost(cfg, slots[i].mtu))
      modifies this`hist
      ensures Wired() && St() == Ops.BindFails(s, key) && hist.retains == s.hist.retains
    {
      hist := hist.(failedBinds := hist.failedBinds + 1);
    }

    method BindShared(ghost s: State, i: nat, key: SessionKey, h: Handle, now: Instant)
      requires i < |slots| && Charged(s, i, key, Ops.UdpCost(cfg, slots[i].mtu)) && DstOf(key) !in dsts
      modifies this
      ensures Wired() && St() == Ops.BindShared(s, key, h, now) && hist.retains == s.hist.retains + 1
    {
      var handle := UdpSocketFor(i, DstOf(key), true, h);
      UdpSocketRetain(DstOf(key));
      assert dsts == s.dsts[DstOf(key) := SharedSocket(h, 1)];
      AddSession(key, handle.value, now);
    }

    /** A new queue, the entry that feeds it and the session object that reads it. */
    method AddSession(key: SessionKey, h: Handle, now: Instant)
      requires Wired()
      modifies this`queues, this`udp, this`sessions, this`nextQueue, this`hist
      ensures Wired() && nextQueue == old(nextQueue) + 1
      ensures queues == old(queues)[old(hist.retains) := Queue([], false)]
      ensures udp == old(udp)[key := UdpEntry(h, old(hist.retains), now)]
      ensures sessions == old(sessions)[old(hist.retains) := Session(key, h)]
      ensures hist == old(hist).(retains := old(hist.retains) + 1)
      ensures St() == Ops.AddSession(old(St()), key, h, now)
    {
      ghost var s := St();
      queues := queues[nextQueue := Queue([], false)];
      udp := udp[key := UdpEntry(h, nextQueue, now)];
      sessions := sessions[nextQueue := Session(key, h)];
      nextQueue := nextQueue + 1;
      hist := hist.(retains := hist.retains + 1);
      AddSessionIs(s, St(), key, h, now);
    }

    /** Serve one ingress packet of the slot at position `i`. */
    method ServePacket(i: nat, j: nat, pkt: Packet, ch: Choices)
      requires Wired() && i < |slots| && slots[i].id in St().slots
      modifies this
      ensures Wired() && St() == Ops.PacketStep(old(St()), old(slots)[i].id, j, pkt, ch)
    {
      var id := slots[i].id;
      if pkt.TcpPacket? {
        var key := SessionKey(id, Tcp, pkt.src, pkt.dst);
        if pkt.syn && key !in tcp && |tcp| < cfg.tcpMaxConnections {
          AllocTcp(i, key, ch.opens(id, j), ch.pick(id, slots[i].sockets.Keys));
        }
      } else if pkt.UdpPacket? {
        var key := SessionKey(id, Udp, pkt.src, pkt.dst);
        if key !in udp && |udp| < cfg.udpMaxSessions {
          var _ := AllocUdp(i, key, ch.opens(id, j), ch.pick(id, slots[i].sockets.Keys), ch.now);
        }
      }
    }

    /** Take the ingress queue of a slot, serve its packets and put them back for the poll. */
    method PreSlot(i: nat, ch: Choices)
      requires Wired() && i < |slots| && cfg.ifaces[i] in St().slots
      modifies this
      ensures Wired() && St() == Ops.PreSlot(old(St()), cfg.ifaces[i], ch)
    {
      ghost var s := St();
      var id := slots[i].id;
      var pkts := slots[i].ingress;
      PutSlot(i, slots[i].(ingress := []));
      ghost var a := St();
      assert a == Ops.WithIngress(s, id, []);
      var j := 0;
      while j < |pkts|
        invariant j <= |pkts| && Wired() && id in St().slots
        invariant Ops.Packets(St(), id, j, pkts, ch) == Ops.Packets(a, id, 0, pkts, ch)
      {
        ServePacket(i, j, pkts[j], ch);
        j := j + 1;
      }
      ghost var t := St();
      PutSlot(i, slots[i].(ingress := slots[i].ingress + pkts));
      assert St() == Ops.WithIngress(t, id, t.slots[id].ingress + pkts);
    }

    method PrePass(ch: Choices)
      requires Wired()
      modifies this
      ensures Wired() && Mapped(old(St())) && St() == Ops.PrePass(old(St()), cfg.ifaces, ch)
    {
      ghost var s := St();
      var i := 0;
      assert cfg.ifaces[0..] == cfg.ifaces;
      while i < |slots|
        invariant i <= |slots| && Wired() && Mapped(St())
        invariant Ops.PrePass(St(), cfg.ifaces[i..], ch) == Ops.PrePass(s, cfg.ifaces, ch)
      {
        ghost var next := Ops.PreSlot(St(), cfg.ifaces[i], ch);
        assert cfg.ifaces[i..][1..] == cfg.ifaces[i + 1..];
        PreSlot(i, ch);
        assert St() == next;
        i := i + 1;
      }
    }

    // ---- Post-pass, TCP (runner.rs) ----

    /** Advance one entry by its socket's state; true if it is orphaned and its socket closed. */
    method VisitEntry(key: SessionKey) returns (reapable: bool)
      requires Wired() && key in tcp && HasTcpSocket(table, key, tcp[key].handle)
      modifies this`tcp, this`streams, this`nextStream, this`hist
      ensures Wired() && St() == Ops.Visit(old(St()), key)
      ensures reapable == Ops.Reapable(old(St()), key)
    {
      var i := FindSlot(key.iface);
      var entry := tcp[key];
      var socket := slots[i].sockets[entry.handle];
      reapable := entry.orphaned && socket.state == SockState.Closed;
      if entry.state == TcpState.Pending {
        if socket.state == SockState.Established {
          AcceptEntry(key);
        }
      } else if entry.state == TcpState.Established {
        if socket.state in {SockState.Closed, TimeWait, Listen} {
          tcp := tcp[key := entry.(state := TcpState.Closed)];
        }
      }
    }

    /** Expose an established entry through a new stream. */
    method AcceptEntry(key: SessionKey)
      requires Wired() && key in tcp
      modifies this`tcp, this`streams, this`nextStream, this`hist
      ensures Wired() && St() == Ops.Accept(old(St()), key)
    {
      streams := streams[nextStream := Stream(key, tcp[key].handle)];
      nextStream := nextStream + 1;
      hist := hist.(accepted := hist.accepted + 1);
      tcp := tcp[key := tcp[key].(state := TcpState.Established)];
    }

    method VisitEntries(order: seq<SessionKey>) returns (reap: seq<SessionKey>)
      requires Wired() && TcpOwned(table, tcp) && forall k :: k in order ==> k in tcp
      modifies this`tcp, this`streams, this`nextStream, this`hist
      ensures Wired() && St() == Ops.VisitAll(old(St()), order)
      ensures reap == Ops.ReapList(St(), order)
    {
      ghost var s := St();
      reap := [];
      var n := 0;
      assert order[0..] == order;
      while n < |order|
        invariant n <= |order| && Wired() && Visiting(s, St(), order, n, reap)
      {
        VisitNext(s, St(), order, n, reap);
        var reapable := VisitEntry(order[n]);
        reap := if reapable then reap + [order[n]] else reap;
        n := n + 1;
      }
      ReapListVisitAll(s, order, order);
    }

    /** The state as it will be once the budget stands at `b`; a post-pass applies its releases at the end. */
    ghost function At(b: nat): State
      reads this
    {
      St().(bytes := b)
    }

    /** Remove one entry and its socket, pool the socket if there is room, and report the cost to give back. */
    method ReapEntry(key: SessionKey, ghost b: nat) returns (freed: nat)
      requires Wired() && key in tcp && HasTcpSocket(table, key, tcp[key].handle) && Ops.TcpCost(table[key.iface]) <= b
      modifies this`tcp, this`slots, this`table, this`hist
      ensures Wired() && freed <= b && At(b - freed) == Ops.Reap(old(At(b)), key)
    {
      var h := tcp[key].handle;
      tcp := tcp - {key};
      hist := hist.(reaped := hist.reaped + 1);
      var i := FindSlot(key.iface);
      var slot := slots[i];
      freed := 2 * slot.bufferSize;
      var pool := if |slot.pool| < slot.poolMax then slot.pool + [slot.sockets[h]] else slot.pool;
      PutSlot(i, slot.(sockets := slot.sockets - {h}, pool := pool));
    }

    method ReapEntries(ks: seq<SessionKey>, ghost start: nat) returns (released: nat)
      requires Wired() && AllReaping(At(start), ks)
      modifies this`tcp, this`slots, this`table, this`hist
      ensures Wired() && released <= start && At(start - released) == Ops.ReapAll(old(At(start)), ks)
    {
      ghost var s, b: nat := At(start), start;
      released := 0;
      var n := 0;
      ReapStart(s, ks);
      while n < |ks|
        invariant Wired() && released <= start && b == start - released && Reaping(s, At(b), ks, n)
      {
        ghost var next := Ops.Reap(At(b), ks[n]);
        ReapNext(s, At(b), ks, n);
        var freed := ReapEntry(ks[n], b);
        b := b - freed;
        released := released + freed;
        assert At(b) == next;
        n := n + 1;
      }
      ReapEnd(s, At(b), ks);
    }

    // ---- Post-pass, UDP redistribution (runner.rs) ----

    /** Empty a receive buffer, tagging each datagram with its session; truncated ones are skipped. */
    static method ReadBuffer(d: DstKey, rx: seq<Rx>) returns (items: seq<(SessionKey, Bytes)>)
      ensures items == Ops.Tagged(d, rx)
    {
      var n := 0;
      items := [];
      assert rx[0..] == rx;
      while n < |rx|
        invariant n <= |rx| && items + Ops.Tagged(d, rx[n..]) == Ops.Tagged(d, rx)
      {
        TaggedStep(d, rx, n, items);
        if rx[n].Datagram? {
          items := items + [(SessionKey(d.iface, Udp, rx[n].src, d.ep), rx[n].data)];
        }
        n := n + 1;
      }
    }

    /** Drain the shared socket `h` of `d`, in a slot of `s` whose sockets of `done` are drained. */
    static method DrainSocket(start: Slot, h: Handle, d: DstKey, ghost s: State, ghost done: set<DstKey>)
      returns (slot: Slot, items: seq<(SessionKey, Bytes)>)
      requires PartlyDrained(s, start, done) && d.iface == start.id && d !in done
      requires DstOwned(s.slots, s.dsts) && d in s.dsts && s.dsts[d].handle == h
      ensures slot.id == start.id && PartlyDrained(s, slot, done + {d})
      ensures items == Ops.Tagged(d, Ops.RxOf(s.slots, s.dsts, d))
    {
      DrainReads(s, start, done, d);
      DrainWrites(s, start, done, d);
      items := ReadBuffer(d, start.sockets[h].rx);
      slot := start.(sockets := start.sockets[h := start.sockets[h].(rx := [])]);
    }

    /** Drain the shared sockets of one slot, in a state `s` that it is a slot of. */
    static method DrainSlot(start: Slot, dsts: map<DstKey, SharedSocket>, order: seq<DstKey>, ghost s: State)
      returns (slot: Slot, items: seq<(SessionKey, Bytes)>, ghost done: set<DstKey>)
      requires start.id in s.slots && s.slots[start.id] == start && dsts == s.dsts && DstOwned(s.slots, s.dsts)
      requires NoDup(order) && forall j :: 0 <= j < |order| ==> order[j] in dsts
      ensures slot.id == start.id && PartlyDrained(s, slot, done) && Passed(order, |order|, done)
      ensures items == Ops.DrainSlot(s, start.id, order)
    {
      var n := 0;
      slot, items, done := start, [], {};
      assert order[0..] == order;
      while n < |order|
        invariant slot.id == start.id && PartlyDrained(s, slot, done) && Passed(order, n, done)
        invariant Collecting(items, Ops.DrainSlot(s, slot.id, order[n..]), Ops.DrainSlot(s, slot.id, order))
      {
        var d := order[n];
        DrainSlotStep(s, slot.id, order, n, items);
        if d.iface == slot.id {
          var more;
          slot, more := DrainSocket(slot, dsts[d].handle, d, s, done);
          items := items + more;
        } else {
          DrainSkips(s, slot, done, d);
        }
        done := done + {d};
        n := n + 1;
      }
    }

    /** Drain every shared socket, slot by slot. */
    static method DrainSlots(start: seq<Slot>, dsts: map<DstKey, SharedSocket>, order: seq<DstKey>, ghost s: State,
            ghost clear: map<InterfaceId, Slot>)
      returns (slots: seq<Slot>, routed: seq<(SessionKey, Bytes)>)
      requires Replacing(s.cfg.ifaces, start, s.slots, clear, 0) && clear == Ops.ClearRx(s).slots && dsts == s.dsts
      requires DstOwned(s.slots, s.dsts) && Enumerates(order, s.dsts.Keys)
      ensures Replacing(s.cfg.ifaces, slots, s.slots, clear, |slots|)
      ensures routed == Ops.DrainAll(s, s.cfg.ifaces, order)
    {
      var i := 0;
      slots, routed := start, [];
      ghost var ids := s.cfg.ifaces;
      assert ids[0..] == ids;
      while i < |slots|
        invariant Replacing(ids, slots, s.slots, clear, i)
        invariant Collecting(routed, Ops.DrainAll(s, ids[i..], order), Ops.DrainAll(s, ids, order))
      {
        DrainAllStep(s, ids, i, order, routed);
        var slot, items, done := DrainSlot(slots[i], dsts, order, s);
        FullyDrained(s, slot, order, done);
        ReplaceNext(ids, slots, s.slots, clear, i, slot);
        slots := slots[i := slot];
        routed := routed + items;
        i := i + 1;
      }
    }

    method DrainAll(order: seq<DstKey>, ghost b: nat) returns (routed: seq<(SessionKey, Bytes)>)
      requires Wired() && Enumerates(order, dsts.Keys) && DstOwned(table, dsts)
      modifies this`slots, this`table
      ensures Wired() && At(b) == Ops.ClearRx(old(At(b)))
      ensures routed == Ops.DrainAll(old(At(b)), cfg.ifaces, order)
    {
      ghost var s := At(b);
      ghost var clear := Ops.ClearRx(s).slots;
      slots, routed := DrainSlots(slots, dsts, order, s, clear);
      forall id ensures Covers(cfg.ifaces, clear, id) {
        assert Covers(cfg.ifaces, s.slots, id);
      }
      ReplaceEnd(cfg.ifaces, slots, s.slots, clear);
      table := clear;
    }

    /** Push one datagram to its session, if there is one, and note the activity. */
    method DeliverDatagram(key: SessionKey, data: Bytes, now: Instant, ghost b: nat)
      requires Wired() && QueuesExist(udp, queues)
      modifies this`udp, this`queues
      ensures Wired() && At(b) == Ops.DeliverOne(old(At(b)), key, data, now)
    {
      if key in udp {
        var entry := udp[key];
        queues := queues[entry.queue := queues[entry.queue].(inner := queues[entry.queue].inner + [data])];
        udp := udp[key := entry.(lastActivity := now)];
      }
    }

    method DeliverAll(routed: seq<(SessionKey, Bytes)>, now: Instant, ghost b: nat)
      requires Wired() && QueuesExist(udp, queues)
      modifies this`udp, this`queues
      ensures Wired() && At(b) == Ops.DeliverAll(old(At(b)), routed, now)
    {
      ghost var s := At(b);
      var n := 0;
      DeliverStart(s, routed, now);
      while n < |routed|
        invariant Wired() && Delivering(s, At(b), routed, n, now)
      {
        DeliverNext(s, At(b), routed, n, now);
        DeliverDatagram(routed[n].0, routed[n].1, now, b);
        n := n + 1;
      }
    }

    /** Drain every shared socket before the first delivery. */
    method Redistribute(ch: Choices, ghost b: nat)
      requires Wired() && Enumerates(ch.dstOrder, dsts.Keys) && DstOwned(table, dsts) && QueuesExist(udp, queues)
      modifies this`slots, this`table, this`udp, this`queues
      ensures Wired() && At(b) == Ops.Redistribute(old(At(b)), ch)
    {
      var routed := DrainAll(ch.dstOrder, b);
      DeliverAll(routed, ch.now, b);
    }

    // ---- UDP removal (runner.rs, stream/udp.rs) ----

    /** Free the socket of an unregistered destination; `s` is the state that still had the registration. */
    method FreeShared(d: DstKey, h: Handle, ghost s: State) returns (freed: nat)
      requires Wired() && d in s.dsts && Ops.HasSocket(s.slots, d.iface, h) && At(s.bytes) == s.(dsts := s.dsts - {d})
      modifies this`slots, this`table
      ensures Wired() && freed == Ops.UdpCost(cfg, s.slots[d.iface].mtu)
      ensures At(Ops.Release(s.bytes, freed)) == Ops.FreeShared(s, d, h)
    {
      var i := FindSlot(d.iface);
      freed := Max(cfg.udpBufferPackets, 1) * 64 + Max(cfg.udpBufferBytes, slots[i].mtu);
      assert freed == Ops.UdpCost(cfg, slots[i].mtu);
      PutSlot(i, slots[i].(sockets := slots[i].sockets - {h}));
    }

    /** Drop one reference to the shared socket; report the cost to give back. */
    method ReleaseShared(d: DstKey, h: Handle, ghost b: nat) returns (freed: nat)
      requires Wired() && d in dsts && Ops.HasSocket(table, d.iface, h) && Ops.UdpCost(cfg, table[d.iface].mtu) <= b
      modifies this`dsts, this`slots, this`table
      ensures Wired() && freed <= b && At(b - freed) == Ops.ReleaseShared(old(At(b)), d, h)
    {
      ghost var s := At(b);
      freed := 0;
      var last := UdpSocketRelease(d);
      if last {
        freed := FreeShared(d, h, s);
      }
    }

    /** Remove an entry, close its queue and release its shared socket; report the cost to give back. */
    method TakeUdp(key: SessionKey, ghost b: nat) returns (freed: nat)
      requires Wired() && key in udp && Removable(At(b), key)
      modifies this`udp, this`queues, this`dsts, this`slots, this`table, this`hist
      ensures Wired() && freed <= b && At(b - freed) == Ops.RemoveUdp(old(At(b)), key)
    {
      ghost var s := At(b);
      var entry := udp[key];
      udp := udp - {key};
      queues := queues[entry.queue := queues[entry.queue].(closed := true)];
      hist := hist.(releases := hist.releases + 1);
      assert At(b) == Ops.CloseEntry(s, key);
      freed := ReleaseShared(DstOf(key), entry.socket, b);
    }

    method CollectExpired(order: seq<SessionKey>, now: Instant, ghost b: nat) returns (expired: seq<SessionKey>)
      requires forall k :: k in order ==> k in udp
      ensures expired == Ops.ExpiredList(At(b), order, now)
      ensures forall k :: k in expired <==>
                && k in order
                && (now - udp[k].lastActivity > cfg.udpTimeout || udp[k].lastActivity - now > cfg.udpTimeout)
    {
      expired := [];
      var n := 0;
      assert order[0..] == order;
      while n < |order|
        invariant n <= |order| && expired + Ops.ExpiredList(At(b), order[n..], now) ==
                  Ops.ExpiredList(At(b), order, now)
      {
        ExpiredStep(At(b), order, n, now, expired);
        if Ops.Elapsed(now, udp[order[n]].lastActivity) > cfg.udpTimeout {
          expired := expired + [order[n]];
        }
        n := n + 1;
      }
      ExpiredMembers(At(b), order, now);
    }

    method RemoveEntries(ks: seq<SessionKey>, ghost start: nat) returns (released: nat)
      requires Wired() && AllRemovable(At(start), ks)
      modifies this`udp, this`queues, this`dsts, this`slots, this`table, this`hist
      ensures Wired() && released <= start && At(start - released) == Ops.RemoveAll(old(At(start)), ks)
    {
      ghost var s, b: nat := At(start), start;
      released := 0;
      var n := 0;
      RemoveStart(s, ks);
      while n < |ks|
        invariant Wired() && released <= start && b == start - released && Removing(s, At(b), ks, n)
      {
        ghost var next := Ops.RemoveUdp(At(b), ks[n]);
        RemoveNext(s, At(b), ks, n);
        if ks[n] in udp {
          var freed := TakeUdp(ks[n], b);
          b := b - freed;
          released := released + freed;
        }
        assert At(b) == next;
        n := n + 1;
      }
      RemoveEnd(s, At(b), ks);
    }

    // ---- One poll cycle (runner.rs) ----

    method PostPassTcp(ch: Choices) returns (freed: nat)
      requires Wired() && TcpReady(St(), ch)
      modifies this`tcp, this`streams, this`nextStream, this`slots, this`table, this`hist
      ensures Wired() && freed <= bytes && At(bytes - freed) == Ops.TcpPass(old(St()), ch)
    {
      var reap := VisitEntries(ch.tcpOrder);
      freed := ReapEntries(reap, bytes);
    }

    method PostPassUdp(ch: Choices, ghost b: nat) returns (freed: nat)
      requires Wired() && UdpReady(At(b), ch)
      modifies this`udp, this`queues, this`dsts, this`slots, this`table, this`hist
      ensures Wired() && freed <= b && At(b - freed) == Ops.Sweep(Ops.Redistribute(old(At(b)), ch), ch)
    {
      Redistribute(ch, b);
      var expired := CollectExpired(ch.udpOrder, ch.now, b);
      freed := RemoveEntries(expired, b);
    }

    /** Reports the sum that is given back at the end, all of which is charged: the release never saturates. */
    method PostPass(ch: Choices) returns (released: nat)
      requires Wired() && PostPassReady(St(), ch)
      modifies this
      ensures Wired() && St() == Ops.PostPass(old(St()), ch)
      ensures released <= old(bytes) && bytes == old(bytes) - released
    {
      ghost var t := Ops.TcpPass(St(), ch);
      ghost var r := Ops.PostPass(St(), ch);
      assert UdpReady(t, ch) && r == Ops.Sweep(Ops.Redistribute(t, ch), ch);
      var freedTcp := PostPassTcp(ch);
      ghost var b := bytes - freedTcp;
      assert At(b) == t;
      var freedUdp := PostPassUdp(ch, b);
      released := freedTcp + freedUdp;
      assert At(bytes - released) == r;
      ReleaseBuffer(released);
    }

    /** Pre-pass and poll; `ch.polled` is what the engine makes of the slots. */
    method PreparePoll(ch: Choices)
      requires Wired() && Mapped(St()) && Mirrors(cfg.ifaces, ch.polled, SlotMap(ch.polled))
      modifies this
      ensures Wired() && St() == Polled(old(St()), ch)
    {
      PrePass(ch);
      ghost var p := St();
      slots := ch.polled;
      table := SlotMap(ch.polled);
      assert St() == p.(slots := table);
    }

    method RunCycle(ch: Choices) returns (released: nat)
      requires Wired() && Mapped(St()) && Mirrors(cfg.ifaces, ch.polled, SlotMap(ch.polled)) &&
               PostPassReady(Polled(St(), ch), ch)
      modifies this
      ensures Wired() && St() == Ops.PostPass(Polled(old(St()), ch), ch)
      ensures released <= Polled(old(St()), ch).bytes && bytes == Polled(old(St()), ch).bytes - released
    {
      PreparePoll(ch);
      released := PostPass(ch);
    }

    method PollOnce(ch: Choices) returns (released: nat)
      requires Valid() && CycleEnabled(St(), ch)
      modifies this
      ensures Valid() && St() == Apply(old(St()), Cycle(ch))
      ensures released <= Polled(old(St()), ch).bytes && bytes == Polled(old(St()), ch).bytes - released
    {
      CycleReady(St(), ch);
      ApplyInv(St(), Cycle(ch));
      released := RunCycle(ch);
    }

    // ---- Construction and ingress (builder.rs, runner.rs) ----

    static method BuildSlots(config: Config) returns (slots: seq<Slot>)
      requires NoDup(config.ifaces)
      ensures Mirrors(config.ifaces, slots, Init(config).slots)
    {
      slots := [];
      while |slots| < |config.ifaces|
        invariant |slots| <= |config.ifaces|
        invariant forall j :: 0 <= j < |slots| ==>
                    slots[j] == Slot(config.ifaces[j], [], map[], [], config.tcpPoolSize, config.mtu,
                      config.tcpBufferSize)
      {
        slots := slots + [Slot(config.ifaces[|slots|], [], map[], [], config.tcpPoolSize, config.mtu,
          config.tcpBufferSize)];
      }
    }

    constructor (config: Config)
      requires NoDup(config.ifaces)
      ensures Valid() && cfg == config && St() == Init(config)
    {
      var built := BuildSlots(config);
      cfg, slots := config, built;
      tcp, udp, dsts, bytes := map[], map[], map[], 0;
      queues, nextQueue, nextStream, streams, sessions := map[], 0, 0, map[], map[];
      hist, table := Init(config).hist, Init(config).slots;
      InitInv(config);
    }

    method PushIngress(id: InterfaceId, pkt: Packet)
      requires Wired()
      modifies this`slots, this`table
      ensures Wired() && St() == Ops.Enqueue(old(St()), id, pkt)
    {
      var i := FindSlot(id);
      if i < |slots| {
        PutSlot(i, slots[i].(ingress := slots[i].ingress + [pkt]));
      }
    }

    method QueueIngress(id: InterfaceId, pkt: Packet)
      requires Valid()
      modifies this`slots, this`table
      ensures Valid() && St() == Apply(old(St()), Ingress(id, pkt))
    {
      ApplyInv(St(), Ingress(id, pkt));
      PushIngress(id, pkt);
    }

    // ---- TCP streams (stream/tcp.rs) ----

    /** The lookup every stream operation starts with: it finds the stream's own socket. */
    method StreamSocket(x: StreamId) returns (i: nat, socket: Socket)
      requires Valid() && x in streams
      ensures i < |slots| && slots[i].id == streams[x].key.iface
      ensures streams[x].handle in slots[i].sockets && socket == slots[i].sockets[streams[x].handle]
      ensures socket.TcpSock? && socket.local == streams[x].key.dst
    {
      StreamHasSocket(St(), x);
      i := FindSlot(streams[x].key.iface);
      socket := slots[i].sockets[streams[x].handle];
    }

    /** Close the socket if it is open; the lookup must succeed. */
    method CloseSocket(id: InterfaceId, h: Handle)
      requires Wired() && Ops.HasSocket(table, id, h) && table[id].sockets[h].TcpSock?
      modifies this`slots, this`table
      ensures Wired() && table == Ops.CloseSocket(old(table), id, h)
    {
      var i := FindSlot(id);
      var socket := slots[i].sockets[h];
      if Ops.IsOpen(socket.state) {
        PutSlot(i, slots[i].(sockets := slots[i].sockets[h := socket.(state := AfterClose(socket.state))]));
      }
    }

    method ShutStream(x: StreamId)
      requires Wired() && x in streams && HasTcpSocket(table, streams[x].key, streams[x].handle)
      modifies this`slots, this`table
      ensures Wired() && St() == Ops.Shutdown(old(St()), x)
    {
      CloseSocket(streams[x].key.iface, streams[x].handle);
    }

    method StreamShutdown(x: StreamId)
      requires Valid() && x in streams
      modifies this`slots, this`table
      ensures Valid() && St() == Apply(old(St()), Label.StreamShutdown(x))
    {
      ApplyInv(St(), Label.StreamShutdown(x));
      StreamHasSocket(St(), x);
      ShutStream(x);
    }

    method Orphan(x: StreamId)
      requires Wired() && x in streams
      requires streams[x].key in tcp ==> HasTcpSocket(table, streams[x].key, streams[x].handle)
      modifies this`slots, this`table, this`tcp, this`streams, this`hist
      ensures Wired() && St() == Ops.DropStream(old(St()), x)
    {
      var key := streams[x].key;
      if key in tcp {
        CloseSocket(key.iface, streams[x].handle);
        tcp := tcp[key := tcp[key].(orphaned := true)];
      }
      streams := streams - {x};
      hist := hist.(dropped := hist.dropped + 1);
    }

    method StreamDrop(x: StreamId)
      requires Valid() && x in streams
      modifies this`slots, this`table, this`tcp, this`streams, this`hist
      ensures Valid() && St() == Apply(old(St()), Label.StreamDrop(x))
    {
      ApplyInv(St(), Label.StreamDrop(x));
      StreamHasSocket(St(), x);
      Orphan(x);
    }

    // ---- UDP sessions (stream/udp.rs) ----

    /** One send attempt by a session whose socket exists while its queue is open. */
    method Send(q: QueueId, payload: Bytes, answer: Ops.SendOutcome) returns (outcome: Ops.SendOutcome)
      requires Wired() && q in sessions && q in queues
      requires !queues[q].closed ==>
                 var k, h := sessions[q].key, sessions[q].socket;
                   Ops.HasSocket(table, k.iface, h) && table[k.iface].sockets[h].UdpSock?
      modifies this`slots, this`table
      ensures Wired() && (St(), outcome) == Ops.TrySend(old(St()), q, payload, answer)
    {
      if queues[q].closed {
        return Ops.Failed;
      }
      var key, h := sessions[q].key, sessions[q].socket;
      var i := FindSlot(key.iface);
      var socket := slots[i].sockets[h];
      if answer.Sent? {
        PutSlot(i, slots[i].(sockets := slots[i].sockets[h := socket.(tx := socket.tx + [(key.src, payload)])]));
      }
      return answer;
    }

    /** `answer` is what the socket says if it is asked. */
    method TrySend(q: QueueId, payload: Bytes, answer: Ops.SendOutcome) returns (outcome: Ops.SendOutcome)
      requires Valid() && q in sessions && q in queues
      modifies this`slots, this`table
      ensures Valid() && St() == Apply(old(St()), SessionSend(q, payload, answer))
      ensures outcome == Ops.TrySend(old(St()), q, payload, answer).1
    {
      ApplyInv(St(), SessionSend(q, payload, answer));
      SessionHasSocket(St(), q);
      outcome := Send(q, payload, answer);
    }

    method PopFront(q: QueueId) returns (data: Option<Bytes>)
      requires Wired() && q in queues
      modifies this`queues
      ensures Wired() && (St(), data) == Ops.Pop(old(St()), q)
    {
      var inner := queues[q].inner;
      if inner == [] {
        return None;
      }
      queues := queues[q := queues[q].(inner := inner[1..])];
      return Some(inner[0]);
    }

    method QueuePop(q: QueueId) returns (data: Option<Bytes>)
      requires Valid() && q in sessions && q in queues
      modifies this`queues
      ensures Valid() && St() == Apply(old(St()), SessionPop(q)) && data == Ops.Pop(old(St()), q).1
      ensures data.None? <==> old(queues[q].inner) == []
      ensures q in queues && (if data.Some? then [data.value] else []) + queues[q].inner == old(queues[q].inner)
    {
      PopAnswers(St(), q);
      ApplyInv(St(), SessionPop(q));
      data := PopFront(q);
    }

    /** Remove whatever entry stands under the session's key, and the session object. */
    method Forget(q: QueueId) returns (freed: nat)
      requires Wired() && q in sessions && Removable(St(), sessions[q].key)
      modifies this
      ensures Wired() && St() == Ops.DropSession(old(St()), q)
      ensures freed <= old(bytes) && bytes == old(bytes) - freed
    {
      freed := 0;
      if sessions[q].key in udp {
        freed := TakeUdp(sessions[q].key, bytes);
        ReleaseBuffer(freed);
      }
      sessions := sessions - {q};
    }

    method SessionDrop(q: QueueId) returns (freed: nat)
      requires Valid() && q in sessions
      modifies this
      ensures Valid() && St() == Apply(old(St()), Label.SessionDrop(q))
      ensures freed <= old(bytes) && bytes == old(bytes) - freed
    {
      ApplyInv(St(), Label.SessionDrop(q));
      InvRemovable(St(), sessions[q].key);
      freed := Forget(q);
    }
  }
}

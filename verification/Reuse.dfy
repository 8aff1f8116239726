/** Pools are queues: of the sockets of an interface, the one that has been idle longest is reused first. */
module Reuse {
  import opened Types
  import opened Ops
  import opened Invariant
  import opened Runs
  import opened Feeding
  import opened Holdings

  /** `b` is pool `a` after one socket was asked for: its first is gone, if it had one. */
  ghost predicate DrawnOne(a: seq<Socket>, b: seq<Socket>) {
    if a == [] then b == [] else a == [a[0]] + b
  }

  /** `b` is what is left of pool `a` after any number of sockets was asked for. */
  ghost predicate Drawn(a: seq<Socket>, b: seq<Socket>) {
    |b| <= |a| && a[|a| - |b|..] == b
  }

  /** A TCP allocation that the budget admits draws on the pool of its interface, also if the listen then fails. */
  lemma AllocDraws(s: State, key: SessionKey, listens: bool, h: Handle, id: InterfaceId)
    requires key.iface in s.slots && id in s.slots
    ensures var r := AllocTcp(s, key, listens, h);
            if id == key.iface && Reservable(s.cfg, s.bytes, 2 * s.slots[id].bufferSize)
            then DrawnOne(s.slots[id].pool, r.slots[id].pool)
            else r.slots[id].pool == s.slots[id].pool
  {
  }

  lemma DrawnOn(a: seq<Socket>, b: seq<Socket>, c: seq<Socket>)
    requires Drawn(a, b) && Drawn(b, c)
    ensures Drawn(a, c)
  {
  }

  lemma OneIsDrawn(a: seq<Socket>, b: seq<Socket>)
    requires DrawnOne(a, b)
    ensures Drawn(a, b)
  {
  }

  lemma PacketDraws(s: State, id: InterfaceId, j: nat, pkt: Packet, ch: Choices, i: InterfaceId)
    requires id in s.slots && i in s.slots
    ensures Drawn(s.slots[i].pool, PacketStep(s, id, j, pkt, ch).slots[i].pool)
  {
    var h := ch.pick(id, s.slots[id].sockets.Keys);
    match pkt
    case Opaque =>
    case TcpPacket(src, dst, syn) =>
      var key := SessionKey(id, Tcp, src, dst);
      var r := AllocTcp(s, key, ch.opens(id, j), h);
      AllocDraws(s, key, ch.opens(id, j), h, i);
      if r.slots[i].pool != s.slots[i].pool {
        OneIsDrawn(s.slots[i].pool, r.slots[i].pool);
      }
    case UdpPacket(src, dst) => UdpAllocPools(s, SessionKey(id, Udp, src, dst), ch.opens(id, j), h, ch.now);
  }

  lemma {:induction false} PacketsDraw(s: State, id: InterfaceId, j: nat, pkts: seq<Packet>, ch: Choices,
          i: InterfaceId)
    requires id in s.slots && i in s.slots && j <= |pkts|
    ensures Drawn(s.slots[i].pool, Packets(s, id, j, pkts, ch).slots[i].pool)
    decreases |pkts| - j
  {
    if j < |pkts| {
      var t := PacketStep(s, id, j, pkts[j], ch);
      PacketDraws(s, id, j, pkts[j], ch, i);
      PacketsDraw(t, id, j + 1, pkts, ch, i);
      DrawnOn(s.slots[i].pool, t.slots[i].pool, Packets(s, id, j, pkts, ch).slots[i].pool);
    }
  }

  lemma {:induction false} PrePassDraws(s: State, ids: seq<InterfaceId>, ch: Choices, i: InterfaceId)
    requires (forall id :: id in ids ==> id in s.slots) && i in s.slots
    ensures Drawn(s.slots[i].pool, PrePass(s, ids, ch).slots[i].pool)
    decreases |ids|
  {
    if ids != [] {
      var t := PreSlot(s, ids[0], ch);
      PacketsDraw(WithIngress(s, ids[0], []), ids[0], 0, s.slots[ids[0]].ingress, ch, i);
      PrePassDraws(t, ids[1..], ch, i);
      DrawnOn(s.slots[i].pool, t.slots[i].pool, PrePass(s, ids, ch).slots[i].pool);
    }
  }

  /** A reaped socket goes to the end of the pool, or nowhere. */
  lemma ReapAppends(s: State, k: SessionKey, i: InterfaceId)
    requires i in s.slots
    ensures var r := Reap(s, k);
            && i in r.slots && s.slots[i].pool <= r.slots[i].pool
            && (r.slots[i].pool != s.slots[i].pool ==>
                  k in s.tcp && k.iface == i && HasSocket(s.slots, i, s.tcp[k].handle)
                  && r.slots[i].pool == s.slots[i].pool + [s.slots[i].sockets[s.tcp[k].handle]])
  {
    if k in s.tcp && HasSocket(s.slots, k.iface, s.tcp[k].handle) {
      var slot, r := s.slots[k.iface], Reap(s, k);
      assert r.slots[k.iface].pool == slot.pool || r.slots[k.iface].pool == slot.pool + [slot.sockets[s.tcp[k].handle]];
    } else {
      assert Reap(s, k).slots == s.slots;
    }
  }

  lemma {:induction false} ReapAllAppends(s: State, ks: seq<SessionKey>, i: InterfaceId)
    requires i in s.slots
    ensures i in ReapAll(s, ks).slots && s.slots[i].pool <= ReapAll(s, ks).slots[i].pool
    decreases |ks|
  {
    if ks != [] {
      ReapAppends(s, ks[0], i);
      ReapAllAppends(Reap(s, ks[0]), ks[1..], i);
    }
  }

  lemma PostPassAppends(p: State, ch: Choices, i: InterfaceId)
    requires i in p.slots
    ensures i in PostPass(p, ch).slots && p.slots[i].pool <= PostPass(p, ch).slots[i].pool
  {
    var v := VisitAll(p, ch.tcpOrder);
    ReapAllAppends(v, ReapList(v, ch.tcpOrder), i);
    PostPassSlots(p, ch);
  }

  /** From `s` over `p` to `r` the pool of `i` first loses sockets at its front and then gains some at its end. */
  ghost predicate Queued(s: State, p: State, r: State, i: InterfaceId) {
    && i in s.slots && i in p.slots && i in r.slots
    && Drawn(s.slots[i].pool, p.slots[i].pool) && p.slots[i].pool <= r.slots[i].pool
  }

  lemma CycleQueues(s: State, ch: Choices, i: InterfaceId)
    requires CycleEnabled(s, ch) && i in s.slots
    ensures Queued(s, PrePass(s, s.cfg.ifaces, ch), PostPass(Polled(s, ch), ch), i)
  {
    PrePassDraws(s, s.cfg.ifaces, ch, i);
    PostPassAppends(Polled(s, ch), ch, i);
  }

  /** In every cycle pools are served as queues: the pre-pass takes, the post-pass gives. */
  lemma OldestReusedFirst(cfg: Config, s: State, ch: Choices, i: InterfaceId)
    requires Reachable(cfg, s) && CycleEnabled(s, ch) && i in cfg.ifaces
    ensures Queued(s, PrePass(s, s.cfg.ifaces, ch), Apply(s, Cycle(ch)), i)
  {
    ReachableInv(cfg, s);
    InvShape(s);
    CycleQueues(s, ch, i);
    assert Apply(s, Cycle(ch)) == PostPass(Polled(s, ch), ch);
  }
}

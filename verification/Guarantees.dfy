/** What holds between steps in every state a netstack can reach. */
module Guarantees {
  import opened Types
  import opened Counting
  import opened Ops
  import opened Invariant
  import opened Runs
  import opened Isolation

  // ---- Sockets and their owners ----

  ghost function TcpHandles(s: State, id: InterfaceId): set<Handle> {
    set k | k in s.tcp && k.iface == id :: s.tcp[k].handle
  }

  ghost function UdpHandles(s: State, id: InterfaceId): set<Handle> {
    set d | d in s.dsts && d.iface == id :: s.dsts[d].handle
  }

  lemma {:induction false} ImageSize<A, B>(f: map<A, B>, keys: set<A>, image: set<B>)
    requires keys <= f.Keys && forall a :: a in keys ==> f[a] in image
    requires forall b :: b in image ==> exists a :: a in keys && f[a] == b
    requires forall a, b :: a in keys && b in keys && f[a] == f[b] ==> a == b
    ensures |image| == |keys|
    decreases keys
  {
    if keys != {} {
      var a :| a in keys;
      forall b | b in image - {f[a]} ensures exists c :: c in keys - {a} && f[c] == b {
        var c :| c in keys && f[c] == b;
        assert c in keys - {a};
      }
      ImageSize(f, keys - {a}, image - {f[a]});
    } else {
      assert image == {};
    }
  }

  /** No socket is leaked, shared by two owners or dangling. */
  lemma SocketsExactlyOwned(cfg: Config, s: State, id: InterfaceId)
    requires Reachable(cfg, s) && id in cfg.ifaces
    ensures id in s.slots
    ensures s.slots[id].sockets.Keys == TcpHandles(s, id) + UdpHandles(s, id)
    ensures TcpHandles(s, id) !! UdpHandles(s, id)
    ensures |TcpHandles(s, id)| == |set k | k in s.tcp && k.iface == id|
    ensures |UdpHandles(s, id)| == |set d | d in s.dsts && d.iface == id|
    ensures forall h :: h in TcpHandles(s, id) ==> s.slots[id].sockets[h].TcpSock?
    ensures forall h :: h in UdpHandles(s, id) ==> s.slots[id].sockets[h].UdpSock?
  {
    ReachableInv(cfg, s);
    InvShape(s);
    InvTcp(s);
    InvDst(s);
    InvLeaks(s);
    TcpSocketsOwned(s, id);
    UdpSocketsOwned(s, id);
    AllSocketsOwned(s, id);
  }

  lemma TcpSocketsOwned(s: State, id: InterfaceId)
    requires TcpOwned(s.slots, s.tcp) && id in s.slots
    ensures |TcpHandles(s, id)| == |set k | k in s.tcp && k.iface == id|
    ensures forall h :: h in TcpHandles(s, id) ==> h in s.slots[id].sockets && s.slots[id].sockets[h].TcpSock?
  {
    var keys := set k | k in s.tcp && k.iface == id;
    var f := map k | k in s.tcp :: s.tcp[k].handle;
    forall h | h in TcpHandles(s, id) ensures exists k :: k in keys && f[k] == h {
      var k :| k in s.tcp && k.iface == id && s.tcp[k].handle == h;
      assert k in keys && f[k] == h;
    }
    ImageSize(f, keys, TcpHandles(s, id));
  }

  lemma UdpSocketsOwned(s: State, id: InterfaceId)
    requires DstOwned(s.slots, s.dsts) && id in s.slots
    ensures |UdpHandles(s, id)| == |set d | d in s.dsts && d.iface == id|
    ensures forall h :: h in UdpHandles(s, id) ==> h in s.slots[id].sockets && s.slots[id].sockets[h].UdpSock?
  {
    var keys := set d | d in s.dsts && d.iface == id;
    var f := map d | d in s.dsts :: s.dsts[d].handle;
    forall h | h in UdpHandles(s, id) ensures exists d :: d in keys && f[d] == h {
      var d :| d in s.dsts && d.iface == id && s.dsts[d].handle == h;
      assert d in keys && f[d] == h;
    }
    forall c, d | c in keys && d in keys && f[c] == f[d] ensures c == d {
      assert s.slots[id].sockets[s.dsts[c].handle].bound == c.ep;
    }
    ImageSize(f, keys, UdpHandles(s, id));
  }

  lemma AllSocketsOwned(s: State, id: InterfaceId)
    requires TcpOwned(s.slots, s.tcp) && DstOwned(s.slots, s.dsts) && NoLeak(s.slots, s.tcp, s.dsts) && id in s.slots
    ensures s.slots[id].sockets.Keys == TcpHandles(s, id) + UdpHandles(s, id)
  {
    forall h | h in s.slots[id].sockets ensures h in TcpHandles(s, id) + UdpHandles(s, id) {
      assert HasSocket(s.slots, id, h);
      match s.slots[id].sockets[h]
      case TcpSock(_, _) =>
        var k :| k in s.tcp && k.iface == id && s.tcp[k].handle == h;
      case UdpSock(bound, _, _) =>
        assert DstKey(id, bound) in s.dsts;
    }
  }

  // ---- Shared UDP sockets ----

  /** The shared socket of `d` exists exactly while some session uses it, and its count is their number. */
  lemma SharedSocketsCounted(cfg: Config, s: State, d: DstKey)
    requires Reachable(cfg, s)
    ensures d in s.dsts <==> exists k :: k in s.udp && DstOf(k) == d
    ensures d in s.dsts ==> 1 <= s.dsts[d].count == |set k | k in s.udp && DstOf(k) == d|
    ensures forall k :: k in s.udp && DstOf(k) == d ==> s.udp[k].socket == s.dsts[d].handle
    ensures d in s.dsts ==>
              && HasSocket(s.slots, d.iface, s.dsts[d].handle)
              && s.slots[d.iface].sockets[s.dsts[d].handle].UdpSock?
              && s.slots[d.iface].sockets[s.dsts[d].handle].bound == d.ep
    ensures forall h :: (&& HasSocket(s.slots, d.iface, h) && s.slots[d.iface].sockets[h].UdpSock?
                         && s.slots[d.iface].sockets[h].bound == d.ep)
              ==> d in s.dsts && s.dsts[d].handle == h
  {
    ReachableInv(cfg, s);
    InvCounts(s);
    InvDst(s);
    InvLeaks(s);
    SharedIffUsed(s.udp, s.dsts, d);
    BoundHandle(s, d);
  }

  lemma SharedIffUsed(udp: map<SessionKey, UdpEntry>, dsts: map<DstKey, SharedSocket>, d: DstKey)
    requires RefCounts(udp, dsts)
    ensures d in dsts <==> exists k :: k in udp && DstOf(k) == d
    ensures d in dsts ==> 1 <= dsts[d].count == |set k | k in udp && DstOf(k) == d|
    ensures forall k :: k in udp && DstOf(k) == d ==> udp[k].socket == dsts[d].handle
  {
    CountMeaning(udp, d);
    if d in dsts {
      var k :| k in Selected(udp, ToDst(d));
      assert k in udp && DstOf(k) == d;
    }
  }

  lemma BoundHandle(s: State, d: DstKey)
    requires NoLeak(s.slots, s.tcp, s.dsts)
    ensures forall h :: (&& HasSocket(s.slots, d.iface, h) && s.slots[d.iface].sockets[h].UdpSock?
                         && s.slots[d.iface].sockets[h].bound == d.ep)
              ==> d in s.dsts && s.dsts[d].handle == h
  {
  }

  lemma CountMeaning(udp: map<SessionKey, UdpEntry>, d: DstKey)
    ensures Count(udp, ToDst(d)) == |set k | k in udp && DstOf(k) == d|
    ensures Count(udp, ToDst(d)) >= 1 ==> Selected(udp, ToDst(d)) != {}
  {
    assert Selected(udp, ToDst(d)) == set k | k in udp && DstOf(k) == d;
  }

  // ---- Application objects ----

  /** A session's queue is open exactly while the table lists that queue under the session's key. */
  lemma OpenQueueIffListed(cfg: Config, s: State, q: QueueId)
    requires Reachable(cfg, s) && q in s.sessions
    ensures q in s.queues
    ensures var key := s.sessions[q].key;
            && (!s.queues[q].closed <==> key in s.udp && s.udp[key].queue == q)
            && (!s.queues[q].closed ==> s.udp[key].socket == s.sessions[q].socket)
  {
    ReachableInv(cfg, s);
    InvLinks(s);
  }

  /** `r` is `s`, with the datagram at the end of the session's transmit buffer if the socket took it. */
  ghost predicate SendChanges(s: State, r: State, q: QueueId, payload: Bytes, answer: SendOutcome)
    requires q in s.sessions
    requires var key, h := s.sessions[q].key, s.sessions[q].socket;
             HasSocket(s.slots, key.iface, h) && s.slots[key.iface].sockets[h].UdpSock?
  {
    var key, h := s.sessions[q].key, s.sessions[q].socket;
    var was := s.slots[key.iface].sockets[h];
    && (answer != Sent ==> r == s)
    && (answer == Sent ==>
          && HasSocket(r.slots, key.iface, h)
          && r == s.(slots := r.slots) && OnlySocket(s.slots, r.slots, key.iface, h)
          && r.slots[key.iface].sockets[h] == was.(tx := was.tx + [(key.src, payload)]))
  }

  /**
   A send by an open session reaches a live socket bound to its own destination, and changes nothing but its transmit
   buffer, and that only if the socket takes the datagram; a send by a closed session fails.
   */
  lemma SendReachesOwnSocket(cfg: Config, s: State, q: QueueId, payload: Bytes, answer: SendOutcome)
    requires Reachable(cfg, s) && q in s.sessions
    ensures q in s.queues
    ensures var r, outcome := Apply(s, SessionSend(q, payload, answer)), TrySend(s, q, payload, answer).1;
            var key, h := s.sessions[q].key, s.sessions[q].socket;
            if s.queues[q].closed then r == s && outcome == Failed
            else
              && outcome == answer
              && HasSocket(s.slots, key.iface, h)
              && s.slots[key.iface].sockets[h].UdpSock? && s.slots[key.iface].sockets[h].bound == key.dst
              && SendChanges(s, r, q, payload, answer)
  {
    ReachableInv(cfg, s);
    InvLinks(s);
    if !s.queues[q].closed {
      InvCounts(s);
      InvDst(s);
      var key := s.sessions[q].key;
      assert key in s.udp && DstOf(key) in s.dsts;
      SendEffect(s, q, payload, answer);
    }
  }

  lemma SendEffect(s: State, q: QueueId, payload: Bytes, answer: SendOutcome)
    requires q in s.sessions && q in s.queues && !s.queues[q].closed
    requires var key, h := s.sessions[q].key, s.sessions[q].socket;
             HasSocket(s.slots, key.iface, h) && s.slots[key.iface].sockets[h].UdpSock?
    ensures var (r, outcome) := TrySend(s, q, payload, answer);
            outcome == answer && SendChanges(s, r, q, payload, answer)
  {
  }

  /** A live stream's handle names its own TCP socket, and no other entry, stream or shared socket. */
  lemma StreamHandleIsOwn(cfg: Config, s: State, x: StreamId)
    requires Reachable(cfg, s) && x in s.streams
    ensures var key, h := s.streams[x].key, s.streams[x].handle;
            && key in s.tcp && s.tcp[key].handle == h && !s.tcp[key].orphaned && !s.tcp[key].state.Pending?
            && HasSocket(s.slots, key.iface, h)
            && s.slots[key.iface].sockets[h].TcpSock? && s.slots[key.iface].sockets[h].local == key.dst
            && (forall k :: k in s.tcp && k.iface == key.iface && s.tcp[k].handle == h ==> k == key)
            && (forall d :: d in s.dsts && d.iface == key.iface ==> s.dsts[d].handle != h)
            && (forall y :: y in s.streams && y != x ==>
                  s.streams[y].key != key && (s.streams[y].key.iface == key.iface ==> s.streams[y].handle != h))
  {
    ReachableInv(cfg, s);
    InvTcp(s);
    InvDst(s);
    InvExposed(s);
    StreamHandle(s, x);
  }

  lemma StreamHandle(s: State, x: StreamId)
    requires TcpOwned(s.slots, s.tcp) && DstOwned(s.slots, s.dsts) && Exposed(s.tcp, s.streams, s.hist.accepted) &&
             x in s.streams
    ensures var key, h := s.streams[x].key, s.streams[x].handle;
            && key in s.tcp && s.tcp[key].handle == h && !s.tcp[key].orphaned && !s.tcp[key].state.Pending?
            && HasSocket(s.slots, key.iface, h)
            && s.slots[key.iface].sockets[h].TcpSock? && s.slots[key.iface].sockets[h].local == key.dst
            && (forall k :: k in s.tcp && k.iface == key.iface && s.tcp[k].handle == h ==> k == key)
            && (forall d :: d in s.dsts && d.iface == key.iface ==> s.dsts[d].handle != h)
            && (forall y :: y in s.streams && y != x ==>
                  s.streams[y].key != key && (s.streams[y].key.iface == key.iface ==> s.streams[y].handle != h))
  {
  }

  // ---- Conservation ----

  /** `n` is the larger of two numbers. */
  predicate LargerOf(n: nat, a: nat, b: nat) {
    n >= a && n >= b && (n == a || n == b)
  }

  lemma UdpCostIs(cfg: Config, payload: nat, packets: nat)
    requires LargerOf(payload, cfg.udpBufferBytes, cfg.mtu) && LargerOf(packets, cfg.udpBufferPackets, 1)
    ensures UdpCost(cfg, cfg.mtu) == 64 * packets + payload
  {
  }

  /**
   Charged bytes are exactly two buffers per TCP entry, and per shared UDP socket and failed bind one payload region
   and 64 bytes per packet.
   */
  ghost predicate ChargedFor(s: State, payload: nat, packets: nat) {
    s.bytes == |s.tcp| * (2 * s.cfg.tcpBufferSize) + (|s.dsts| + s.hist.failedBinds) * (64 * packets + payload)
  }

  lemma ChargedFromInv(s: State, payload: nat, packets: nat)
    requires Budget(s.cfg, s.bytes, |s.tcp|, |s.dsts|, s.hist.failedBinds)
    requires LargerOf(payload, s.cfg.udpBufferBytes, s.cfg.mtu) && LargerOf(packets, s.cfg.udpBufferPackets, 1)
    ensures ChargedFor(s, payload, packets)
  {
    UdpCostIs(s.cfg, payload, packets);
    TimesIsProduct(|s.tcp|, 2 * s.cfg.tcpBufferSize);
    TimesIsProduct(|s.dsts| + s.hist.failedBinds, UdpCost(s.cfg, s.cfg.mtu));
  }

  /**
   In every reachable state, with a payload region that holds at least one whole packet, and room for at least one;
   the charged bytes stay within the limit.
   */
  lemma BudgetConserved(cfg: Config, s: State, payload: nat, packets: nat)
    requires Reachable(cfg, s)
    requires LargerOf(payload, cfg.udpBufferBytes, cfg.mtu) && LargerOf(packets, cfg.udpBufferPackets, 1)
    ensures s.cfg == cfg && ChargedFor(s, payload, packets)
    ensures cfg.maxBufferBytes.Some? ==> s.bytes <= cfg.maxBufferBytes.value
  {
    ReachableInv(cfg, s);
    InvBudget(s);
    ChargedFromInv(s, payload, packets);
  }

  /**
   Entries created are live or reaped; reaped ones were dropped, dropped ones accepted; retains are releases or
   live.
   */
  lemma EventsConserved(cfg: Config, s: State)
    requires Reachable(cfg, s)
    ensures s.hist.created == |s.tcp| + s.hist.reaped
    ensures s.hist.reaped <= s.hist.dropped <= s.hist.accepted <= s.hist.created
    ensures |s.streams| == s.hist.accepted - s.hist.dropped
    ensures s.hist.retains == s.hist.releases + |s.udp|
    ensures |s.tcp| <= cfg.tcpMaxConnections && |s.udp| <= cfg.udpMaxSessions
  {
    ReachableInv(cfg, s);
    InvLedger(s);
    InvCaps(s);
    CountBound(s.tcp, NotPending());
  }

  /** Live and pooled TCP sockets of one interface. */
  ghost function HeldTcp(s: State, id: InterfaceId): nat
    requires id in s.slots
  {
    |set k | k in s.tcp && k.iface == id| + |s.slots[id].pool|
  }

  /** Pools stay under their cap, hold closed sockets, and with the live ones stay under every bound on the peak. */
  lemma PoolsBounded(cfg: Config, s: State, id: InterfaceId)
    requires Reachable(cfg, s) && id in cfg.ifaces
    ensures id in s.slots && id in s.hist.peak
    ensures |s.slots[id].pool| <= cfg.tcpPoolSize
    ensures forall p :: p in s.slots[id].pool ==> p.TcpSock? && p.state == SockState.Closed
    ensures HeldTcp(s, id) <= s.hist.peak[id] <= cfg.tcpMaxConnections
    ensures cfg.maxBufferBytes.Some? ==> HeldTcp(s, id) * (2 * cfg.tcpBufferSize) <= cfg.maxBufferBytes.value
  {
    ReachableInv(cfg, s);
    InvShape(s);
    InvPools(s);
    PoolBounds(s, id);
    TimesIsProduct(HeldTcp(s, id), 2 * cfg.tcpBufferSize);
  }

  lemma PoolBounds(s: State, id: InterfaceId)
    requires Pools(s.cfg, s.slots, s.tcp, s.hist.peak) && id in s.slots
    ensures HeldTcp(s, id) <= s.hist.peak[id] <= s.cfg.tcpMaxConnections
    ensures s.cfg.maxBufferBytes.Some? ==> Times(HeldTcp(s, id), 2 * s.cfg.tcpBufferSize) <= s.cfg.maxBufferBytes.value
  {
    assert Selected(s.tcp, OnIface(id)) == set k | k in s.tcp && k.iface == id;
    TimesMono(HeldTcp(s, id), s.hist.peak[id], 2 * s.cfg.tcpBufferSize);
  }
}

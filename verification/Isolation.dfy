/** Dropping one stream or session: what it leaves alone. */
module Isolation {
  import opened Types
  import opened Ops
  import opened Invariant
  import opened PreserveUdp
  import opened Tables
  import opened Runs

  /** Removing an entry takes at most its own shared socket out of the sets and alters none. */
  lemma RemoveUdpSockets(s: State, k: SessionKey, id: InterfaceId, h: Handle)
    requires HasSocket(RemoveUdp(s, k).slots, id, h)
    ensures HasSocket(s.slots, id, h) && RemoveUdp(s, k).slots[id].sockets[h] == s.slots[id].sockets[h]
  {
  }

  /** Every session but `q` keeps its object and its queue. */
  ghost predicate QueuesUntouched(s: State, r: State, q: QueueId) {
    forall p :: p in s.sessions && p != q ==>
      p in r.sessions && r.sessions[p] == s.sessions[p] && p in s.queues && p in r.queues && r.queues[p] == s.queues[p]
  }

  /** Every entry but the one of `q` stays, with the socket it names. */
  ghost predicate EntriesUntouched(s: State, r: State, q: QueueId) {
    forall k :: k in s.udp && s.udp[k].queue != q ==> SameEntry(s, r, k)
  }

  ghost predicate OthersUntouched(s: State, r: State, q: QueueId) {
    QueuesUntouched(s, r, q) && EntriesUntouched(s, r, q)
  }

  lemma OpenDropQueues(s: State, q: QueueId)
    requires Linked(s.udp, s.queues, s.sessions, s.hist.retains) && q in s.sessions && !s.queues[q].closed
    ensures var r := DropSession(s, q);
            && r.udp == s.udp - {s.sessions[q].key}
            && r.sessions == s.sessions - {q}
            && r.queues == s.queues[q := s.queues[q].(closed := true)]
  {
    var key := s.sessions[q].key;
    assert s.udp[key].queue == q;
    RemoveUdpQueues(s, key);
  }

  lemma RemoveUdpQueues(s: State, k: SessionKey)
    requires k in s.udp && s.udp[k].queue in s.queues
    ensures var r, q := RemoveUdp(s, k), s.udp[k].queue;
            r.udp == s.udp - {k} && r.queues == s.queues[q := s.queues[q].(closed := true)] && r.sessions == s.sessions
  {
    assert RemoveUdp(s, k).udp == CloseEntry(s, k).udp && RemoveUdp(s, k).queues == CloseEntry(s, k).queues;
  }

  /** An entry that survives a removal still has its socket. */
  lemma SurvivorSocket(s: State, k: SessionKey, l: SessionKey)
    requires RefCounts(s.udp, s.dsts) && DstOwned(s.slots, s.dsts) && l in s.udp && l != k
    requires var r := RemoveUdp(s, k); RefCounts(r.udp, r.dsts) && DstOwned(r.slots, r.dsts)
    ensures SameEntry(s, RemoveUdp(s, k), l)
  {
    RemoveUdpEffect(s, k);
    ListedSocket(RemoveUdp(s, k), l);
    RemoveUdpSockets(s, k, l.iface, s.udp[l].socket);
  }

  ghost predicate SameEntry(s: State, r: State, k: SessionKey) {
    && k in s.udp && k in r.udp && r.udp[k] == s.udp[k]
    && HasSocket(s.slots, k.iface, s.udp[k].socket) && HasSocket(r.slots, k.iface, s.udp[k].socket)
    && r.slots[k.iface].sockets[s.udp[k].socket] == s.slots[k.iface].sockets[s.udp[k].socket]
  }

  lemma ListedSocket(s: State, l: SessionKey)
    requires RefCounts(s.udp, s.dsts) && DstOwned(s.slots, s.dsts) && l in s.udp
    ensures HasSocket(s.slots, l.iface, s.udp[l].socket)
  {
  }

  lemma OpenDropIsolated(s: State, q: QueueId)
    requires Inv(s) && q in s.sessions && q in s.queues && !s.queues[q].closed
    ensures OthersUntouched(s, DropSession(s, q), q)
  {
    var key := s.sessions[q].key;
    RemoveUdpInv(s, key);
    InvLinks(s);
    InvCounts(s);
    InvDst(s);
    InvCounts(RemoveUdp(s, key));
    InvDst(RemoveUdp(s, key));
    OpenDropFromParts(s, q);
    OpenDropKeepsQueues(s, q);
  }

  lemma OpenDropKeepsQueues(s: State, q: QueueId)
    requires Linked(s.udp, s.queues, s.sessions, s.hist.retains) && q in s.sessions && !s.queues[q].closed
    ensures QueuesUntouched(s, DropSession(s, q), q)
  {
    OpenDropQueues(s, q);
  }

  lemma OpenDropFromParts(s: State, q: QueueId)
    requires Linked(s.udp, s.queues, s.sessions, s.hist.retains) && q in s.sessions && !s.queues[q].closed
    requires RefCounts(s.udp, s.dsts) && DstOwned(s.slots, s.dsts)
    requires var r := RemoveUdp(s, s.sessions[q].key); RefCounts(r.udp, r.dsts) && DstOwned(r.slots, r.dsts)
    ensures EntriesUntouched(s, DropSession(s, q), q)
  {
    OpenDropQueues(s, q);
    forall k | k in s.udp && s.udp[k].queue != q ensures SameEntry(s, DropSession(s, q), k) {
      SurvivorSocket(s, s.sessions[q].key, k);
    }
  }

  lemma UnlistedDropIsolated(s: State, q: QueueId)
    requires Inv(s) && q in s.sessions && s.sessions[q].key !in s.udp
    ensures DropSession(s, q) == s.(sessions := s.sessions - {q})
    ensures OthersUntouched(s, DropSession(s, q), q)
  {
    InvLinks(s);
    InvCounts(s);
    InvDst(s);
    UnlistedDropParts(s, q);
  }

  lemma UnlistedDropParts(s: State, q: QueueId)
    requires Linked(s.udp, s.queues, s.sessions, s.hist.retains) && RefCounts(s.udp, s.dsts) &&
             DstOwned(s.slots, s.dsts)
    requires q in s.sessions && s.sessions[q].key !in s.udp
    ensures OthersUntouched(s, s.(sessions := s.sessions - {q}), q)
  {
    forall k | k in s.udp ensures HasSocket(s.slots, k.iface, s.udp[k].socket) {
      ListedSocket(s, k);
    }
  }

  /** A stale session whose 5-tuple is in use again closes its successor's queue and takes its entry. */
  lemma StaleDropHitsSuccessor(s: State, q: QueueId)
    requires Linked(s.udp, s.queues, s.sessions, s.hist.retains)
    requires q in s.sessions && s.queues[q].closed && s.sessions[q].key in s.udp
    ensures var key, r := s.sessions[q].key, DropSession(s, q);
            var successor := s.udp[key].queue;
            && successor != q && successor in s.sessions && !s.queues[successor].closed
            && key !in r.udp && successor in r.sessions && successor in r.queues && r.queues[successor].closed
  {
    RemoveUdpQueues(s, s.sessions[q].key);
  }

  /** Dropping a session is isolated exactly if its queue is still open or nobody uses its 5-tuple. */
  lemma DropIsolatedIff(cfg: Config, s: State, q: QueueId)
    requires Reachable(cfg, s) && q in s.sessions
    ensures q in s.queues
    ensures OthersUntouched(s, DropSession(s, q), q) <==> !s.queues[q].closed || s.sessions[q].key !in s.udp
  {
    ReachableInv(cfg, s);
    InvLinks(s);
    if !s.queues[q].closed {
      OpenDropIsolated(s, q);
    } else if s.sessions[q].key !in s.udp {
      UnlistedDropIsolated(s, q);
    } else {
      StaleDropHitsSuccessor(s, q);
      assert !OthersUntouched(s, DropSession(s, q), q);
    }
  }

  // ---- TCP streams ----

  /** The slots differ at most in the socket `h` of interface `id`. */
  ghost predicate OnlySocket(a: map<InterfaceId, Slot>, b: map<InterfaceId, Slot>, id: InterfaceId, h: Handle) {
    && a.Keys == b.Keys
    && (forall i :: i in a ==> b[i] == a[i].(sockets := b[i].sockets) && b[i].sockets.Keys == a[i].sockets.Keys)
    && (forall i, g :: HasSocket(a, i, g) && (i != id || g != h) ==> b[i].sockets[g] == a[i].sockets[g])
  }

  /** `now` is the TCP socket `was` after the application closed its side. */
  ghost predicate ClosedFrom(was: Socket, now: Socket)
    requires was.TcpSock?
  {
    && now.TcpSock? && now.local == was.local
    && (was.state in {SynReceived, SockState.Established} ==> now.state == FinWait1)
    && (was.state == CloseWait ==> now.state == LastAck)
    && (was.state in {Listen, SynSent} ==> now.state == SockState.Closed)
    && (was.state in {FinWait1, FinWait2, Closing, LastAck, TimeWait, SockState.Closed} ==> now.state == was.state)
  }

  lemma CloseOnlyOwn(slots: map<InterfaceId, Slot>, id: InterfaceId, h: Handle)
    requires HasSocket(slots, id, h) && slots[id].sockets[h].TcpSock?
    ensures var r, was := CloseSocket(slots, id, h), slots[id].sockets[h];
            && OnlySocket(slots, r, id, h)
            && ClosedFrom(was, r[id].sockets[h])
  {
  }

  /** Every other connection's socket stays in the state it is in. */
  lemma OthersKeepState(s: State, b: map<InterfaceId, Slot>, key: SessionKey, k: SessionKey)
    requires TcpOwned(s.slots, s.tcp) && key in s.tcp && k in s.tcp && k != key &&
             OnlySocket(s.slots, b, key.iface, s.tcp[key].handle)
    ensures SockStateOf(b, k, s.tcp[k]) == SockStateOf(s.slots, k, s.tcp[k])
  {
    assert HasSocket(s.slots, k.iface, s.tcp[k].handle);
  }

  /**
   `r` is `s` without stream `x`: its entry orphaned, its socket closed by the application, all else the same.
   */
  ghost predicate DroppedAlone(s: State, r: State, x: StreamId)
    requires x in s.streams
  {
    var key, h := s.streams[x].key, s.streams[x].handle;
    && key in s.tcp && HasTcp(s, key.iface, h) && HasSocket(r.slots, key.iface, h)
    && r == s.(slots := r.slots, tcp := s.tcp[key := s.tcp[key].(orphaned := true)], streams := s.streams - {x},
         hist := r.hist)
    && OnlySocket(s.slots, r.slots, key.iface, h)
    && ClosedFrom(s.slots[key.iface].sockets[h], r.slots[key.iface].sockets[h])
    && forall k :: k in s.tcp && k != key ==> SockStateOf(r.slots, k, s.tcp[k]) == SockStateOf(s.slots, k, s.tcp[k])
  }

  ghost predicate HasTcp(s: State, id: InterfaceId, h: Handle) {
    HasSocket(s.slots, id, h) && s.slots[id].sockets[h].TcpSock?
  }

  /** Dropping a stream orphans its own entry, closes its own socket if that is open, and touches nothing else. */
  lemma StreamDropIsolated(cfg: Config, s: State, x: StreamId)
    requires Reachable(cfg, s) && x in s.streams
    ensures DroppedAlone(s, Apply(s, Label.StreamDrop(x)), x)
  {
    ReachableInv(cfg, s);
    InvTcp(s);
    InvExposed(s);
    StreamDropParts(s, x);
    assert Apply(s, Label.StreamDrop(x)) == DropStream(s, x);
  }

  lemma StreamDropParts(s: State, x: StreamId)
    requires TcpOwned(s.slots, s.tcp) && Exposed(s.tcp, s.streams, s.hist.accepted) && x in s.streams
    ensures DroppedAlone(s, DropStream(s, x), x)
  {
    var r, key := DropStream(s, x), s.streams[x].key;
    CloseOnlyOwn(s.slots, key.iface, s.streams[x].handle);
    forall k | k in s.tcp && k != key ensures SockStateOf(r.slots, k, s.tcp[k]) == SockStateOf(s.slots, k, s.tcp[k]) {
      OthersKeepState(s, r.slots, key, k);
    }
  }

  /** `r` is `s` with the socket of stream `x` closed by the application, all else the same. */
  ghost predicate ShutAlone(s: State, r: State, x: StreamId)
    requires x in s.streams
  {
    var key, h := s.streams[x].key, s.streams[x].handle;
    && HasTcp(s, key.iface, h) && HasSocket(r.slots, key.iface, h)
    && r == s.(slots := r.slots)
    && OnlySocket(s.slots, r.slots, key.iface, h)
    && ClosedFrom(s.slots[key.iface].sockets[h], r.slots[key.iface].sockets[h])
  }

  /** Shutting a stream down closes its own socket, and touches nothing else. */
  lemma ShutdownIsolated(cfg: Config, s: State, x: StreamId)
    requires Reachable(cfg, s) && x in s.streams
    ensures ShutAlone(s, Apply(s, Label.StreamShutdown(x)), x)
  {
    ReachableInv(cfg, s);
    InvTcp(s);
    InvExposed(s);
    ShutdownParts(s, x);
    assert Apply(s, Label.StreamShutdown(x)) == Shutdown(s, x);
  }

  lemma ShutdownParts(s: State, x: StreamId)
    requires TcpOwned(s.slots, s.tcp) && Exposed(s.tcp, s.streams, s.hist.accepted) && x in s.streams
    ensures ShutAlone(s, Shutdown(s, x), x)
  {
    CloseOnlyOwn(s.slots, s.streams[x].key.iface, s.streams[x].handle);
  }
}

/**
 Runs that reach what the session layer should avoid: a reaped session that outlives the
 reuse of its 5-tuple, connections that never get anywhere, pools full of uncharged
 sockets, and a budget eaten by failed binds.
 */
module Scenarios {
  import opened Types
  import opened Connections
  import opened Counting
  import opened Ops
  import opened Invariant
  import opened PreserveAlloc
  import opened PreserveTcp
  import opened Tables
  import opened PrePassFacts
  import opened Runs
  import opened Isolation
  import opened Witness
  import opened Feeding
  import opened SocketStates

  ghost predicate SamePools(a: map<InterfaceId, Slot>, b: map<InterfaceId, Slot>) {
    forall i :: i in a ==> i in b && b[i].pool == a[i].pool
  }

  /** Session objects are all still there and no closed queue reopened. */
  ghost predicate Outlived(s: State, r: State) {
    && (forall q :: q in s.sessions ==> q in r.sessions && r.sessions[q] == s.sessions[q])
    && (forall q :: q in s.queues && s.queues[q].closed ==> q in r.queues && r.queues[q].closed)
  }

  lemma IfaceSlot(cfg: Config, s: State, id: InterfaceId)
    requires Reachable(cfg, s)
    ensures id in s.slots <==> id in cfg.ifaces
  {
    ReachableInv(cfg, s);
    InvShape(s);
  }

  // ---- New sockets have empty buffers ----

  /** The socket `h` of `id` is an old one, or its buffers are empty. */
  ghost predicate OldOrEmpty(a: map<InterfaceId, Slot>, b: map<InterfaceId, Slot>, id: InterfaceId, h: Handle) {
    HasSocket(b, id, h) ==>
      || (HasSocket(a, id, h) && b[id].sockets[h] == a[id].sockets[h])
      || (b[id].sockets[h].UdpSock? ==> b[id].sockets[h].rx == [] && b[id].sockets[h].tx == [])
  }

  lemma AllocTcpSockets(s: State, key: SessionKey, opens: bool, g: Handle, id: InterfaceId, h: Handle)
    requires key.iface in s.slots
    ensures OldOrEmpty(s.slots, AllocTcp(s, key, opens, g).slots, id, h)
  {
    var r := AllocTcp(s, key, opens, g);
    if id != key.iface || r == s {
      assert id in s.slots ==> r.slots[id] == s.slots[id];
    }
  }

  lemma AllocUdpSockets(s: State, key: SessionKey, opens: bool, g: Handle, now: Instant, id: InterfaceId, h: Handle)
    requires key.iface in s.slots
    ensures OldOrEmpty(s.slots, AllocUdp(s, key, opens, g, now).slots, id, h)
  {
  }

  lemma StepBuffers(s: State, id: InterfaceId, pkt: Packet, ch: Choices)
    requires id in s.slots && EmptyBuffers(s.slots)
    ensures EmptyBuffers(PacketStep(s, id, 0, pkt, ch).slots)
  {
    var r, g := PacketStep(s, id, 0, pkt, ch), ch.pick(id, s.slots[id].sockets.Keys);
    if pkt.TcpPacket? || pkt.UdpPacket? {
      forall i, h ensures OldOrEmpty(s.slots, r.slots, i, h) {
        AllocTcpSockets(s, SessionKey(id, Tcp, pkt.src, pkt.dst), ch.opens(id, 0), g, i, h);
        AllocUdpSockets(s, SessionKey(id, Udp, pkt.src, pkt.dst), ch.opens(id, 0), g, ch.now, i, h);
      }
    }
    forall i, h | HasSocket(r.slots, i, h) && r.slots[i].sockets[h].UdpSock? ensures r.slots[i].sockets[h].rx == [] {
      assert OldOrEmpty(s.slots, r.slots, i, h);
    }
  }

  // ---- UDP flows ----

  /** `r` is `s` with one more UDP session under `key`, last active at `now`; pools and failed binds are the same. */
  ghost predicate OneMore(s: State, r: State, key: SessionKey, now: Instant) {
    && key in r.udp && r.udp == s.udp[key := r.udp[key]] && r.udp[key].lastActivity == now
    && r.dsts.Keys == s.dsts.Keys + {DstOf(key)}
    && r.hist.failedBinds == s.hist.failedBinds && SamePools(s.slots, r.slots)
  }

  lemma JoinedOne(s: State, key: SessionKey, now: Instant)
    requires DstOf(key) in s.dsts
    ensures var r := JoinShared(s, key, now); OneMore(s, r, key, now) && r.tcp == s.tcp
  {
  }

  lemma BoundOne(s: State, key: SessionKey, h: Handle, now: Instant)
    requires key.iface in s.slots
    ensures var r := BindShared(s, key, h, now); OneMore(s, r, key, now) && r.tcp == s.tcp
  {
  }

  lemma UdpStep(s: State, id: InterfaceId, src: Endpoint, dst: Endpoint, ch: Choices)
    requires Shape(s.cfg, s.slots) && id in s.slots && Opens(ch, true)
    requires var key := SessionKey(id, Udp, src, dst);
             key !in s.udp && |s.udp| < s.cfg.udpMaxSessions
             && (DstOf(key) in s.dsts || Reservable(s.cfg, s.bytes, UdpCost(s.cfg, s.cfg.mtu)))
    ensures var r := PacketStep(s, id, 0, UdpPacket(src, dst), ch);
            OneMore(s, r, SessionKey(id, Udp, src, dst), ch.now) && r.tcp == s.tcp
  {
    var key, h := SessionKey(id, Udp, src, dst), ch.pick(id, s.slots[id].sockets.Keys);
    assert ch.opens(id, 0);
    if DstOf(key) in s.dsts {
      JoinedOne(s, key, ch.now);
    } else {
      BoundOne(s, key, h, ch.now);
    }
  }

  lemma StillListed(s: State, q: State, p: State, ch: Choices, key: SessionKey)
    requires OneMore(s, q, key, ch.now) && q.tcp == s.tcp && Outlived(s, q) && EmptyBuffers(q.slots) && Unreapable(q)
    requires Timely(s, ch.now) && q.cfg == s.cfg && p == q.(slots := Settled(q.slots, SockState.Established))
    requires Inv(p) && Orders(p, ch)
    ensures var r := PostPass(p, ch); OneMore(s, r, key, ch.now) && r.tcp.Keys == s.tcp.Keys && Outlived(s, r)
  {
    InvTcp(p);
    SettledBuffers(q.slots, SockState.Established);
    SettledUnreapable(q, p, SockState.Established);
    UneventfulPass(p, ch);
  }

  /** New entries are not orphaned, so that there is nothing new to reap. */
  lemma StepUnreapable(s: State, id: InterfaceId, pkt: Packet, ch: Choices)
    requires Inv(s) && id in s.slots && FreshPicks(ch) && Unreapable(s)
    ensures Unreapable(PacketStep(s, id, 0, pkt, ch))
  {
    forall k ensures !Reapable(PacketStep(s, id, 0, pkt, ch), k) {
      PacketCarries(s, id, 0, pkt, ch, k);
      assert !Reapable(s, k);
    }
  }

  /** The flow's session is listed after its first datagram and an uneventful cycle. */
  lemma UdpAdmitted(cfg: Config, s: State, id: InterfaceId, src: Endpoint, dst: Endpoint, now: Instant)
    returns (r: State)
    requires Reachable(cfg, s) && Idle(s) && Unreapable(s) && id in s.slots && Timely(s, now)
    requires var key := SessionKey(id, Udp, src, dst);
             && key !in s.udp && |s.udp| < cfg.udpMaxSessions
             && (DstOf(key) in s.dsts || Reservable(cfg, s.bytes, UdpCost(cfg, cfg.mtu)))
    ensures Reachable(cfg, r) && Leads(s, r) && Idle(r) && Unreapable(r)
    ensures OneMore(s, r, SessionKey(id, Udp, src, dst), now) && r.tcp.Keys == s.tcp.Keys
    ensures Outlived(s, r)
  {
    var pkt := UdpPacket(src, dst);
    var ch;
    ch, r := Feed(cfg, s, id, pkt, now, true, SockState.Established);
    ReachableInv(cfg, s);
    InvShape(s);
    InvLinks(s);
    UdpStep(s, id, src, dst, ch);
    PacketStepGrows(s, id, 0, pkt, ch);
    StepBuffers(s, id, pkt, ch);
    StepUnreapable(s, id, pkt, ch);
    StillListed(s, PacketStep(s, id, 0, pkt, ch), Fed(s, id, pkt, ch, SockState.Established), ch,
      SessionKey(id, Udp, src, dst));
  }

  lemma EmptyOrder<T(!new)>(order: seq<T>, keys: set<T>)
    requires Enumerates(order, keys)
    ensures keys == {} ==> order == []
  {
    if order != [] {
      assert order[0] in order;
    }
  }

  lemma NoTcpPass(p: State, ch: Choices)
    requires p.tcp == map[] && Enumerates(ch.tcpOrder, p.tcp.Keys)
    ensures TcpPass(p, ch) == p
  {
    EmptyOrder(ch.tcpOrder, p.tcp.Keys);
  }

  /** With nothing waiting, a cycle past the timeout sweeps the session and keeps its object over a closed queue. */
  lemma UdpExpired(cfg: Config, s: State, key: SessionKey, now: Instant) returns (r: State)
    requires Reachable(cfg, s) && Idle(s) && s.tcp == map[] && key in s.udp && key.iface in s.slots
    requires Elapsed(now, s.udp[key].lastActivity) > cfg.udpTimeout
    ensures Reachable(cfg, r) && Idle(r) && r.tcp == map[] && r.hist.failedBinds == s.hist.failedBinds
    ensures key !in r.udp && (forall k :: k in r.udp ==> k in s.udp)
    ensures var q := s.udp[key].queue;
            q in r.sessions && r.sessions[q].key == key && q in r.queues && r.queues[q].closed
  {
    var ch;
    ch, r := Feed(cfg, s, key.iface, Opaque, now, true, SockState.Established);
    ReachableInv(cfg, s);
    InvLinks(s);
    ExpiredPassed(s, Fed(s, key.iface, Opaque, ch, SockState.Established), ch, key);
  }

  lemma ExpiredPassed(s: State, p: State, ch: Choices, key: SessionKey)
    requires Inv(p) && Orders(p, ch) && Idle(s) && p == s.(slots := Settled(s.slots, SockState.Established)) &&
             p.tcp == map[]
    requires key in p.udp && Elapsed(ch.now, p.udp[key].lastActivity) > p.cfg.udpTimeout
    requires p.udp[key].queue in p.sessions && p.sessions[p.udp[key].queue].key == key
    ensures var r, q := PostPass(p, ch), p.udp[key].queue;
            && r.tcp == map[] && r.hist.failedBinds == p.hist.failedBinds && key !in r.udp
            && (forall k :: k in r.udp ==> k in p.udp)
            && q in r.sessions && r.sessions[q].key == key && q in r.queues && r.queues[q].closed
  {
    var r := PostPass(p, ch);
    SettledBuffers(s.slots, SockState.Established);
    NothingOwed(p, key);
    forall k | k in r.udp ensures k in p.udp {
      PostPassSessions(p, ch, k);
    }
    PostPassSessions(p, ch, key);
    PostPassKeeps(p, ch);
    NoTcpPass(p, ch);
  }

  /** The tables are empty and `failed` binds have failed so far. */
  ghost predicate Bare(s: State, failed: nat) {
    s.tcp == map[] && s.udp == map[] && s.dsts == map[] && s.hist.failedBinds == failed
  }

  lemma BareDsts(s: State)
    requires Inv(s) && s.udp == map[]
    ensures s.dsts == map[]
  {
    InvCounts(s);
    forall d ensures d !in s.dsts {
      assert Selected(s.udp, ToDst(d)) == {};
    }
  }

  lemma BareBytes(cfg: Config, s: State, failed: nat)
    requires Reachable(cfg, s) && Bare(s, failed)
    ensures s.bytes == Times(failed, UdpCost(cfg, cfg.mtu))
  {
    ReachableInv(cfg, s);
    InvBudget(s);
  }

  /**
   Every netstack with an interface, room for a UDP session and budget for its socket can reach a state in which
   a reaped session is alive while a successor uses its 5-tuple. Dropping it then is not isolated.
   */
  lemma StaleSessionReachable(cfg: Config, id: InterfaceId, src: Endpoint, dst: Endpoint)
    requires NoDup(cfg.ifaces) && id in cfg.ifaces && cfg.udpMaxSessions >= 1 &&
             Reservable(cfg, 0, UdpCost(cfg, cfg.mtu))
    ensures exists s, q :: Reachable(cfg, s) && q in s.sessions && s.sessions[q].key == SessionKey(id, Udp, src, dst)
                           && !OthersUntouched(s, DropSession(s, q), q)
  {
    var key := SessionKey(id, Udp, src, dst);
    InitIdle(cfg);
    var s1 := UdpAdmitted(cfg, Init(cfg), id, src, dst, 0);
    IfaceSlot(cfg, s1, id);
    var q := s1.udp[key].queue;
    var s2 := UdpExpired(cfg, s1, key, cfg.udpTimeout + 1);
    IfaceSlot(cfg, s2, id);
    ReachableInv(cfg, s2);
    assert s2.udp == map[] by {
      assert forall k :: k !in s2.udp;
    }
    BareDsts(s2);
    BareBytes(cfg, s2, 0);
    var s3 := UdpAdmitted(cfg, s2, id, src, dst, cfg.udpTimeout + 1);
    DropIsolatedIff(cfg, s3, q);
  }

  // ---- TCP connections ----

  ghost function Client(n: nat): Endpoint {
    Endpoint(n, 40000)
  }

  ghost const SERVER: Endpoint := Endpoint(2, 80)

  ghost function ConnKey(id: InterfaceId, n: nat): SessionKey {
    SessionKey(id, Tcp, Client(n), SERVER)
  }

  /** The listen of a new connection succeeds. */
  lemma SynStep(s: State, key: SessionKey, ch: Choices)
    requires key.proto == Tcp && key.iface in s.slots && Opens(ch, true) && key !in s.tcp
    requires |s.tcp| < s.cfg.tcpMaxConnections && Reservable(s.cfg, s.bytes, TcpCost(s.slots[key.iface]))
    ensures PacketStep(s, key.iface, 0, TcpPacket(key.src, key.dst, true), ch)
            == TcpListen(s, key, ch.pick(key.iface, s.slots[key.iface].sockets.Keys))
  {
    assert ch.opens(key.iface, 0);
  }

  /** Entry `k` of `r` is that of `s` after a poll that drives sockets to `st`. */
  ghost predicate Followed(s: State, r: State, k: SessionKey, st: SockState)
    requires k in s.tcp
  {
    k in r.tcp && StateIn(r, k) == Toward(StateIn(s, k), st) && r.tcp[k] == Advance(s.tcp[k], StateIn(r, k))
  }

  /** The same for an entry that the cycle inserted. */
  ghost predicate Entered(r: State, key: SessionKey, st: SockState) {
    && key in r.tcp && StateIn(r, key) == Toward(Listen, st)
    && r.tcp[key] == Advance(TcpEntry(r.tcp[key].handle, Pending, false), StateIn(r, key))
  }

  /** No session comes or goes, and no bind fails. */
  ghost predicate SameUdp(s: State, r: State) {
    r.udp == s.udp && r.dsts == s.dsts && r.hist.failedBinds == s.hist.failedBinds
  }

  /** `r` is `s` with a connection under `key` after such a poll; of the pools at most that of its interface shrank. */
  ghost predicate Joined(s: State, r: State, key: SessionKey, st: SockState) {
    && r.tcp.Keys == s.tcp.Keys + {key} && Entered(r, key, st) && (forall k :: k in s.tcp ==> Followed(s, r, k, st))
    && SameUdp(s, r)
    && (forall i :: i in s.slots ==>
         i in r.slots && (i != key.iface || s.slots[i].pool == [] ==> r.slots[i].pool == s.slots[i].pool))
  }

  /** `r` is `s` after such a poll. */
  ghost predicate Waited(s: State, r: State, st: SockState) {
    && r.tcp.Keys == s.tcp.Keys && (forall k :: k in s.tcp ==> Followed(s, r, k, st))
    && SameUdp(s, r) && SamePools(s.slots, r.slots)
  }

  lemma AdvancedFollow(q: State, p: State, r: State, st: SockState)
    requires p == q.(slots := Settled(q.slots, st)) && TcpOwned(p.slots, p.tcp)
    requires r.slots == p.slots && r.tcp == AllAdvanced(p)
    ensures r.tcp.Keys == q.tcp.Keys && SamePools(q.slots, r.slots)
    ensures forall k :: k in q.tcp ==> Followed(q, r, k, st)
  {
    forall k | k in q.tcp ensures Followed(q, r, k, st) {
      SettledState(p, q.slots, st, k);
    }
  }

  /** From `q`, the state after the pre-pass, to `r`, when nothing is reaped and nothing received. */
  lemma SettledPass(q: State, p: State, ch: Choices, st: SockState)
    requires p == q.(slots := Settled(q.slots, st)) && Inv(p) && Orders(p, ch) && st != SockState.Closed
    requires EmptyBuffers(q.slots) && Timely(q, ch.now) && Unreapable(q)
    ensures Waited(q, PostPass(p, ch), st)
  {
    var r := PostPass(p, ch);
    InvTcp(p);
    SettledBuffers(q.slots, st);
    SettledUnreapable(q, p, st);
    UneventfulPass(p, ch);
    AdvancedFollow(q, p, r, st);
  }

  lemma ListenJoins(s: State, key: SessionKey, h: Handle, r: State, st: SockState)
    requires TcpOwned(s.slots, s.tcp) && key.iface in s.slots && h !in s.slots[key.iface].sockets && key !in s.tcp
    requires Waited(TcpListen(s, key, h), r, st)
    ensures Joined(s, r, key, st)
  {
    var q := TcpListen(s, key, h);
    forall k ensures Carried(s, q, k) {
      ListenCarries(s, key, h, k);
    }
    assert q.tcp == s.tcp[key := TcpEntry(h, Pending, false)];
    CarriedFollow(s, q, r, key, st);
  }

  lemma CarriedFollow(s: State, q: State, r: State, key: SessionKey, st: SockState)
    requires (forall k :: Carried(s, q, k)) && key !in s.tcp
    requires (exists h :: q.tcp == s.tcp[key := TcpEntry(h, Pending, false)])
    requires r.tcp.Keys == q.tcp.Keys && forall k :: k in q.tcp ==> Followed(q, r, k, st)
    ensures r.tcp.Keys == s.tcp.Keys + {key} && Entered(r, key, st)
    ensures forall k :: k in s.tcp ==> Followed(s, r, k, st)
  {
    forall k | k in s.tcp ensures Followed(s, r, k, st) {
      assert Carried(s, q, k) && Followed(q, r, k, st);
    }
    assert Carried(s, q, key) && Followed(q, r, key, st);
  }

  /** A SYN, and a cycle in which nothing else happens. */
  lemma Connected(cfg: Config, s: State, key: SessionKey, st: SockState) returns (r: State)
    requires Reachable(cfg, s) && Idle(s) && Unreapable(s) && Timely(s, 0) && st != SockState.Closed
    requires key.proto == Tcp && key.iface in s.slots && key !in s.tcp
    requires |s.tcp| < cfg.tcpMaxConnections && Reservable(cfg, s.bytes, 2 * cfg.tcpBufferSize)
    ensures Reachable(cfg, r) && Leads(s, r) && Idle(r) && Unreapable(r) && Joined(s, r, key, st)
  {
    var id, pkt := key.iface, TcpPacket(key.src, key.dst, true);
    var ch;
    ch, r := Feed(cfg, s, id, pkt, 0, true, st);
    ReachableInv(cfg, s);
    InvShape(s);
    InvTcp(s);
    SynStep(s, key, ch);
    StepBuffers(s, id, pkt, ch);
    StepUnreapable(s, id, pkt, ch);
    SettledPass(PacketStep(s, id, 0, pkt, ch), Fed(s, id, pkt, ch, st), ch, st);
    ListenJoins(s, key, ch.pick(id, s.slots[id].sockets.Keys), r, st);
  }

  /** A cycle in which nothing happens but the poll. */
  lemma Wait(cfg: Config, s: State, st: SockState) returns (r: State)
    requires Reachable(cfg, s) && Idle(s) && Unreapable(s) && Timely(s, 0) && st != SockState.Closed
    ensures Reachable(cfg, r) && Leads(s, r) && Idle(r) && Unreapable(r) && Waited(s, r, st)
  {
    var ch;
    ch, r := Settle(cfg, s, 0, true, st);
    IdlePolled(s, ch, 0, true, st);
    SettledPass(s, Polled(s, ch), ch, st);
  }

  /** Two polls of a handshake, SYN-RECEIVED and then ESTABLISHED, move the other sockets as the second alone would. */
  lemma TwoPolls(s: State, m: State, r: State, k: SessionKey)
    requires k in s.tcp && Followed(s, m, k, SynReceived) && Followed(m, r, k, SockState.Established)
    ensures Followed(s, r, k, SockState.Established)
  {
  }

  lemma HandshakeJoins(s: State, m: State, r: State, key: SessionKey)
    requires Joined(s, m, key, SynReceived) && Waited(m, r, SockState.Established)
    ensures Joined(s, r, key, SockState.Established)
  {
    forall k | k in s.tcp ensures Followed(s, r, k, SockState.Established) {
      TwoPolls(s, m, r, k);
    }
    assert Followed(m, r, key, SockState.Established);
  }

  /** A SYN in one cycle, the completed handshake in the next. */
  lemma Handshake(cfg: Config, s: State, key: SessionKey) returns (r: State)
    requires Reachable(cfg, s) && Idle(s) && Unreapable(s) && Timely(s, 0)
    requires key.proto == Tcp && key.iface in s.slots && key !in s.tcp
    requires |s.tcp| < cfg.tcpMaxConnections && Reservable(cfg, s.bytes, 2 * cfg.tcpBufferSize)
    ensures Reachable(cfg, r) && Leads(s, r) && Idle(r) && Unreapable(r) && Joined(s, r, key, SockState.Established)
  {
    var m := Connected(cfg, s, key, SynReceived);
    ReachableInv(cfg, s);
    ReachableInv(cfg, m);
    r := Wait(cfg, m, SockState.Established);
    LeadsFurther(s, m, r);
    HandshakeJoins(s, m, r, key);
  }

  // ---- ... that never get established ----

  /** No UDP session, no failed bind. */
  ghost predicate TcpOnly(s: State) {
    s.udp == map[] && s.dsts == map[] && s.hist.failedBinds == 0
  }

  /** `n` connections on `id`, all of them in the middle of the handshake. */
  ghost predicate AllPending(s: State, id: InterfaceId, n: nat) {
    && |s.tcp| == n
    && (forall k :: k in s.tcp ==>
          k.iface == id && k.src.addr < n && s.tcp[k].state.Pending? && StateIn(s, k) == SynReceived)
  }

  lemma PendingNext(s: State, r: State, id: InterfaceId, n: nat)
    requires AllPending(s, id, n) && Joined(s, r, ConnKey(id, n), SynReceived)
    ensures AllPending(r, id, n + 1)
  {
    GrowSize(s.tcp, r.tcp, ConnKey(id, n));
    forall k | k in r.tcp
      ensures k.iface == id && k.src.addr < n + 1 && r.tcp[k].state.Pending? && StateIn(r, k) == SynReceived {
      if k in s.tcp {
        assert Followed(s, r, k, SynReceived);
      }
    }
  }

  lemma TcpBytes(cfg: Config, s: State)
    requires Reachable(cfg, s) && TcpOnly(s)
    ensures s.bytes == Times(|s.tcp|, 2 * cfg.tcpBufferSize)
  {
    ReachableInv(cfg, s);
    InvBudget(s);
  }

  lemma PendOne(cfg: Config, s: State, id: InterfaceId, n: nat) returns (r: State)
    requires Reachable(cfg, s) && Idle(s) && Unreapable(s) && id in cfg.ifaces && AllPending(s, id, n) && TcpOnly(s)
    requires n < cfg.tcpMaxConnections && Reservable(cfg, Times(n, 2 * cfg.tcpBufferSize), 2 * cfg.tcpBufferSize)
    ensures Reachable(cfg, r) && Idle(r) && Unreapable(r) && AllPending(r, id, n + 1) && TcpOnly(r)
  {
    TcpBytes(cfg, s);
    IfaceSlot(cfg, s, id);
    r := Connected(cfg, s, ConnKey(id, n), SynReceived);
    PendingNext(s, r, id, n);
  }

  lemma {:induction false} PendMany(cfg: Config, id: InterfaceId, n: nat) returns (s: State)
    requires NoDup(cfg.ifaces) && id in cfg.ifaces && n <= cfg.tcpMaxConnections
    requires Reservable(cfg, 0, Times(n, 2 * cfg.tcpBufferSize))
    ensures Reachable(cfg, s) && Idle(s) && Unreapable(s) && AllPending(s, id, n) && TcpOnly(s)
    decreases n
  {
    if n == 0 {
      InitIdle(cfg);
      s := Init(cfg);
    } else {
      TimesMono(n - 1, n, 2 * cfg.tcpBufferSize);
      var t := PendMany(cfg, id, n - 1);
      s := PendOne(cfg, t, id, n - 1);
    }
  }

  /** As many half-open connections as the cap and the limit admit. */
  lemma PendingReachable(cfg: Config, id: InterfaceId, n: nat) returns (s: State)
    requires NoDup(cfg.ifaces) && id in cfg.ifaces && n <= cfg.tcpMaxConnections
    requires Reservable(cfg, 0, n * (2 * cfg.tcpBufferSize))
    ensures Reachable(cfg, s) && Idle(s) && Unreapable(s) && AllPending(s, id, n) && TcpOnly(s)
  {
    TimesIsProduct(n, 2 * cfg.tcpBufferSize);
    s := PendMany(cfg, id, n);
  }

  // ---- ... that end in the pool ----

  /** Every connection is established, or the application has closed it. */
  ghost predicate OpenSockets(s: State) {
    forall k :: k in s.tcp ==> StateIn(s, k) in {SockState.Established, FinWait1}
  }

  /** The application drops the connection's stream; its socket sends a FIN. */
  lemma HungUp(cfg: Config, s: State, key: SessionKey) returns (r: State)
    requires Reachable(cfg, s) && Idle(s) && TcpOnly(s) && OpenSockets(s) && key in s.tcp
    requires !s.tcp[key].state.Pending? && !s.tcp[key].orphaned
    ensures Reachable(cfg, r) && Idle(r) && TcpOnly(r) && OpenSockets(r) && SamePools(s.slots, r.slots)
    ensures r.tcp == s.tcp[key := s.tcp[key].(orphaned := true)]
  {
    ReachableInv(cfg, s);
    InvExposed(s);
    assert HasStream(s.streams, key);
    var x :| x in s.streams && s.streams[x].key == key;
    r := DropStream(s, x);
    assert r == Apply(s, Label.StreamDrop(x));
    ReachableStep(cfg, s, Label.StreamDrop(x));
    CloseKeepsIdle(s.slots, key.iface, s.streams[x].handle);
    StreamDropIsolated(cfg, s, x);
    DroppedOpen(s, r, x);
  }

  lemma DroppedOpen(s: State, r: State, x: StreamId)
    requires OpenSockets(s) && x in s.streams && DroppedAlone(s, r, x)
    requires s.streams[x].handle == s.tcp[s.streams[x].key].handle
    ensures OpenSockets(r)
  {
    var key := s.streams[x].key;
    forall k | k in r.tcp ensures StateIn(r, k) in {SockState.Established, FinWait1} {
      assert StateIn(s, k) in {SockState.Established, FinWait1};
    }
  }

  lemma CloseKeepsIdle(slots: map<InterfaceId, Slot>, id: InterfaceId, h: Handle)
    ensures var r := CloseSocket(slots, id, h);
            && SocketsOnly(slots, r) && (EmptyBuffers(slots) ==> EmptyBuffers(r))
  {
    var r := CloseSocket(slots, id, h);
    forall i, g | HasSocket(r, i, g) && r[i].sockets[g].UdpSock?
      ensures HasSocket(slots, i, g) && slots[i].sockets[g] == r[i].sockets[g] {
    }
  }

  /** `h` connections on `id`, established, of which those numbered `t` and above are dropped by the application. */
  ghost predicate LoadedTable(tcp: map<SessionKey, TcpEntry>, id: InterfaceId, h: nat, t: nat) {
    && |tcp| == h && Count(tcp, Orphaned()) == (if h > t then h - t else 0)
    && (forall k :: k in tcp ==> k.iface == id && k.src.addr < h && tcp[k].state.Established?)
  }

  /** Such a netstack, idle, with the pools of `s0` and no UDP session. */
  ghost predicate Loaded(cfg: Config, s0: State, s: State, id: InterfaceId, h: nat, t: nat) {
    && Reachable(cfg, s) && Idle(s) && TcpOnly(s) && SamePools(s0.slots, s.slots)
    && LoadedTable(s.tcp, id, h, t) && OpenSockets(s)
  }

  /** `h + 1` connections on `id`, established, of which `dropped` are orphaned but not the last. */
  ghost predicate JustLoaded(tcp: map<SessionKey, TcpEntry>, id: InterfaceId, h: nat, dropped: nat) {
    && |tcp| == h + 1 && Count(tcp, Orphaned()) == dropped
    && (forall k :: k in tcp ==> k.iface == id && k.src.addr < h + 1 && tcp[k].state.Established?)
    && ConnKey(id, h) in tcp && !tcp[ConnKey(id, h)].orphaned
  }

  lemma LoadedKeys(a: map<SessionKey, TcpEntry>, b: map<SessionKey, TcpEntry>, id: InterfaceId, h: nat, t: nat)
    requires LoadedTable(a, id, h, t) && b.Keys == a.Keys + {ConnKey(id, h)} && forall k :: k in a ==> b[k] == a[k]
    requires b[ConnKey(id, h)].state.Established? && !b[ConnKey(id, h)].orphaned
    ensures JustLoaded(b, id, h, Count(a, Orphaned()))
  {
    SameOrphans(a, b, ConnKey(id, h));
  }

  /** Connections that are open stay as they are while another one joins. */
  lemma OpenJoined(s: State, r: State, key: SessionKey)
    requires OpenSockets(s) && (forall k :: k in s.tcp ==> s.tcp[k].state.Established?)
    requires Joined(s, r, key, SockState.Established)
    ensures OpenSockets(r) && r.tcp[key].state.Established? && !r.tcp[key].orphaned
    ensures forall k :: k in s.tcp ==> k in r.tcp && r.tcp[k] == s.tcp[k]
  {
    forall k | k in s.tcp ensures k in r.tcp && r.tcp[k] == s.tcp[k] && StateIn(r, k) == StateIn(s, k) {
      OpenStays(s, r, k);
    }
  }

  lemma OpenStays(s: State, r: State, k: SessionKey)
    requires k in s.tcp && s.tcp[k].state.Established? && StateIn(s, k) in {SockState.Established, FinWait1}
    requires Followed(s, r, k, SockState.Established)
    ensures k in r.tcp && r.tcp[k] == s.tcp[k] && StateIn(r, k) == StateIn(s, k)
  {
  }

  lemma SameOrphans(a: map<SessionKey, TcpEntry>, b: map<SessionKey, TcpEntry>, key: SessionKey)
    requires key !in a && b.Keys == a.Keys + {key} && !b[key].orphaned && forall k :: k in a ==> b[k] == a[k]
    ensures |b| == |a| + 1 && Count(b, Orphaned()) == Count(a, Orphaned())
  {
    GrowSize(a, b, key);
    assert Selected(b, Orphaned()) == Selected(a, Orphaned());
  }

  lemma LoadedDropped(b: map<SessionKey, TcpEntry>, id: InterfaceId, h: nat, t: nat)
    requires h >= t && JustLoaded(b, id, h, h - t)
    ensures LoadedTable(b[ConnKey(id, h) := b[ConnKey(id, h)].(orphaned := true)], id, h + 1, t)
  {
    var key := ConnKey(id, h);
    var e := b[key].(orphaned := true);
    CountPut(b, key, e, Orphaned());
    PutSize(b, key, e);
  }

  lemma LoadOne(cfg: Config, s0: State, s: State, id: InterfaceId, h: nat, t: nat) returns (r: State)
    requires Loaded(cfg, s0, s, id, h, t) && id in s0.slots && s0.slots[id].pool == []
    requires h < cfg.tcpMaxConnections && Reservable(cfg, Times(h, 2 * cfg.tcpBufferSize), 2 * cfg.tcpBufferSize)
    ensures Loaded(cfg, s0, r, id, h + 1, t)
  {
    TcpBytes(cfg, s);
    assert ConnKey(id, h) !in s.tcp;
    r := Handshake(cfg, s, ConnKey(id, h));
    OpenJoined(s, r, ConnKey(id, h));
    LoadedKeys(s.tcp, r.tcp, id, h, t);
    if h >= t {
      LoadedDropped(r.tcp, id, h, t);
      r := HungUp(cfg, r, ConnKey(id, h));
    }
  }

  /** They are admitted if the cap and the limit allow. */
  lemma {:induction false} LoadMany(cfg: Config, s0: State, id: InterfaceId, h: nat, t: nat) returns (s: State)
    requires Reachable(cfg, s0) && Idle(s0) && Bare(s0, 0) && id in s0.slots && s0.slots[id].pool == []
    requires h <= cfg.tcpMaxConnections && Reservable(cfg, 0, Times(h, 2 * cfg.tcpBufferSize))
    ensures Loaded(cfg, s0, s, id, h, t)
    decreases h
  {
    if h == 0 {
      s := s0;
      assert Selected(s.tcp, Orphaned()) == {};
    } else {
      TimesMono(h - 1, h, 2 * cfg.tcpBufferSize);
      s := LoadMany(cfg, s0, id, h - 1, t);
      s := LoadOne(cfg, s0, s, id, h - 1, t);
    }
  }

  lemma {:induction false} SeqSize<T>(xs: seq<T>, members: set<T>)
    requires NoDup(xs) && forall x :: x in xs <==> x in members
    ensures |xs| == |members|
    decreases |xs|
  {
    if xs != [] {
      var rest := members - {xs[0]};
      assert forall x :: x in xs[1..] <==> x in rest;
      SeqSize(xs[1..], rest);
      assert members == rest + {xs[0]};
    } else {
      assert members == {};
    }
  }

  /** While the pool has room, a reaped socket moves there. */
  lemma ReapOne(s: State, k: SessionKey, id: InterfaceId)
    requires Shape(s.cfg, s.slots) && TcpOwned(s.slots, s.tcp) && k in s.tcp && k.iface == id && id in s.slots
    requires |s.slots[id].pool| < s.cfg.tcpPoolSize
    ensures var r := Reap(s, k);
            && |r.tcp| == |s.tcp| - 1 && id in r.slots && |r.slots[id].pool| == |s.slots[id].pool| + 1
            && forall i :: i in s.slots && i != id ==> i in r.slots && r.slots[i].pool == s.slots[i].pool
  {
    DropSize(s.tcp, k);
    assert HasSocket(s.slots, id, s.tcp[k].handle);
  }

  /** The pools of all interfaces but `id` are the same. */
  ghost predicate OtherPools(a: map<InterfaceId, Slot>, b: map<InterfaceId, Slot>, id: InterfaceId) {
    forall i :: i in a && i != id ==> i in b && b[i].pool == a[i].pool
  }

  lemma {:induction false} ReapMany(s: State, ks: seq<SessionKey>, id: InterfaceId)
    requires Inv(s) && AllReapable(s, ks) && id in s.slots && (forall k :: k in s.tcp ==> k.iface == id)
    requires |s.slots[id].pool| + |ks| <= s.cfg.tcpPoolSize
    ensures var r := ReapAll(s, ks);
            && |r.tcp| == |s.tcp| - |ks| && id in r.slots && |r.slots[id].pool| == |s.slots[id].pool| + |ks|
            && OtherPools(s.slots, r.slots, id)
    decreases |ks|
  {
    if ks != [] {
      InvShape(s);
      InvTcp(s);
      assert Reapable(s, ks[0]);
      ReapOne(s, ks[0], id);
      ReapInv(s, ks[0]);
      ReapRest(s, ks);
      ReapEffect(s, ks[0]);
      ReapMany(Reap(s, ks[0]), ks[1..], id);
    }
  }

  /** A poll that leaves every socket closed: the dropped connections, and no others, move to the pool. */
  lemma ClosedPass(p: State, slots: map<InterfaceId, Slot>, ch: Choices, id: InterfaceId)
    requires Inv(p) && Orders(p, ch) && p.slots == Settled(slots, SockState.Closed) && id in p.slots
    requires EmptyBuffers(p.slots) && Timely(p, ch.now) && forall k :: k in p.tcp ==> k.iface == id
    requires |p.slots[id].pool| + Count(p.tcp, Orphaned()) <= p.cfg.tcpPoolSize
    ensures var r, n := PostPass(p, ch), Count(p.tcp, Orphaned());
            && |r.tcp| == |p.tcp| - n && id in r.slots && |r.slots[id].pool| == |p.slots[id].pool| + n
            && OtherPools(p.slots, r.slots, id)
            && r.udp == p.udp && r.dsts == p.dsts && r.hist.failedBinds == p.hist.failedBinds
  {
    var v := VisitAll(p, ch.tcpOrder);
    var ks := ReapList(v, ch.tcpOrder);
    IdlePostPass(p, ch);
    VisitAllInv(p, ch.tcpOrder);
    DroppedOnes(p, slots, ch);
    ReapMany(v, ks, id);
  }

  lemma SameSize<K, V>(a: map<K, V>, b: map<K, V>)
    requires forall k :: k in a <==> k in b
    ensures a.Keys == b.Keys && |a| == |b|
  {
    assert |a| == |a.Keys| && |b| == |b.Keys|;
  }

  lemma DroppedOne(p: State, slots: map<InterfaceId, Slot>, ch: Choices, k: SessionKey)
    requires TcpOwned(p.slots, p.tcp) && Enumerates(ch.tcpOrder, p.tcp.Keys) &&
             p.slots == Settled(slots, SockState.Closed)
    requires var v := VisitAll(p, ch.tcpOrder); TcpOwned(v.slots, v.tcp)
    ensures var v := VisitAll(p, ch.tcpOrder);
            (k in v.tcp <==> k in p.tcp) && (Reapable(v, k) <==> k in p.tcp && p.tcp[k].orphaned)
  {
    var v := VisitAll(p, ch.tcpOrder);
    VisitAllEffect(p, ch.tcpOrder, k);
    if k in p.tcp {
      SettledState(v, slots, SockState.Closed, k);
    }
  }

  lemma DroppedOnes(p: State, slots: map<InterfaceId, Slot>, ch: Choices)
    requires Inv(p) && Enumerates(ch.tcpOrder, p.tcp.Keys) && p.slots == Settled(slots, SockState.Closed)
    ensures var v := VisitAll(p, ch.tcpOrder);
            var ks := ReapList(v, ch.tcpOrder);
            && v.tcp.Keys == p.tcp.Keys && |v.tcp| == |p.tcp|
            && AllReapable(v, ks) && |ks| == Count(p.tcp, Orphaned())
  {
    var v := VisitAll(p, ch.tcpOrder);
    var ks := ReapList(v, ch.tcpOrder);
    ReapListReapable(v, ch.tcpOrder);
    VisitAllInv(p, ch.tcpOrder);
    InvTcp(p);
    InvTcp(v);
    forall k ensures k in v.tcp <==> k in p.tcp ensures Reapable(v, k) <==> k in p.tcp && p.tcp[k].orphaned {
      DroppedOne(p, slots, ch, k);
    }
    SameSize(v.tcp, p.tcp);
    SeqSize(ks, Selected(p.tcp, Orphaned()));
  }

  /** `h` connections, of which `t` stay and the others end up in the pool, uncharged. */
  lemma PooledFrom(cfg: Config, s0: State, id: InterfaceId, h: nat, t: nat) returns (r: State)
    requires Reachable(cfg, s0) && Idle(s0) && Bare(s0, 0) && id in s0.slots && s0.slots[id].pool == []
    requires t <= h <= cfg.tcpMaxConnections && h - t <= cfg.tcpPoolSize &&
             Reservable(cfg, 0, Times(h, 2 * cfg.tcpBufferSize))
    ensures Reachable(cfg, r) && Idle(r) && Unreapable(r) && TcpOnly(r) && |r.tcp| == t
    ensures id in r.slots && |r.slots[id].pool| == h - t && OtherPools(s0.slots, r.slots, id)
  {
    var s := LoadMany(cfg, s0, id, h, t);
    var ch;
    ch, r := Feed(cfg, s, id, Opaque, 0, true, SockState.Closed);
    SettledBuffers(s.slots, SockState.Closed);
    ClosedPass(Fed(s, id, Opaque, ch, SockState.Closed), s.slots, ch, id);
  }

  /** Any number of connections that the pool, the cap and the limit admit can end in the pool, with nothing charged. */
  lemma PooledReachable(cfg: Config, id: InterfaceId, n: nat) returns (r: State)
    requires NoDup(cfg.ifaces) && id in cfg.ifaces && n <= cfg.tcpMaxConnections && n <= cfg.tcpPoolSize
    requires Reservable(cfg, 0, n * (2 * cfg.tcpBufferSize))
    ensures Reachable(cfg, r) && Idle(r) && Bare(r, 0) && r.bytes == 0
    ensures id in r.slots && |r.slots[id].pool| == n
  {
    InitIdle(cfg);
    TimesIsProduct(n, 2 * cfg.tcpBufferSize);
    r := PooledFrom(cfg, Init(cfg), id, n, 0);
    BareBytes(cfg, r, 0);
  }

  // ---- Binds that fail ----

  lemma FailedStep(s: State, id: InterfaceId, src: Endpoint, dst: Endpoint, ch: Choices)
    requires id in s.slots && Opens(ch, false) && Bare(s, s.hist.failedBinds) && s.cfg.udpMaxSessions >= 1
    requires Reservable(s.cfg, s.bytes, UdpCost(s.cfg, s.slots[id].mtu))
    ensures PacketStep(s, id, 0, UdpPacket(src, dst), ch) == BindFails(s, SessionKey(id, Udp, src, dst))
  {
    assert !ch.opens(id, 0);
  }

  lemma LeakedPass(s: State, key: SessionKey, p: State, ch: Choices)
    requires key.iface in s.slots && Bare(s, s.hist.failedBinds) && Orders(p, ch) && EmptyBuffers(p.slots)
    requires p == BindFails(s, key).(slots := p.slots)
    ensures Bare(PostPass(p, ch), s.hist.failedBinds + 1)
  {
    IdlePostPass(p, ch);
    NoTcpPass(p, ch);
  }

  /** One datagram whose bind fails: no session comes of it, and its charge stays. */
  lemma LeakOne(cfg: Config, s: State, id: InterfaceId, src: Endpoint, dst: Endpoint) returns (r: State)
    requires Reachable(cfg, s) && Idle(s) && id in s.slots && Bare(s, s.hist.failedBinds) && cfg.udpMaxSessions >= 1
    requires Reservable(cfg, s.bytes, UdpCost(cfg, cfg.mtu))
    ensures Reachable(cfg, r) && Idle(r) && Bare(r, s.hist.failedBinds + 1)
  {
    var ch;
    ch, r := Feed(cfg, s, id, UdpPacket(src, dst), 0, false, SockState.Closed);
    ReachableInv(cfg, s);
    InvShape(s);
    FailedStep(s, id, src, dst, ch);
    SettledBuffers(s.slots, SockState.Closed);
    LeakedPass(s, SessionKey(id, Udp, src, dst), Fed(s, id, UdpPacket(src, dst), ch, SockState.Closed), ch);
  }

  lemma {:induction false} LeakMany(cfg: Config, id: InterfaceId, src: Endpoint, dst: Endpoint, m: nat)
    returns (s: State)
    requires NoDup(cfg.ifaces) && id in cfg.ifaces && cfg.udpMaxSessions >= 1
    requires Reservable(cfg, 0, Times(m, UdpCost(cfg, cfg.mtu)))
    ensures Reachable(cfg, s) && Idle(s) && Bare(s, m) && id in s.slots && s.bytes == Times(m, UdpCost(cfg, cfg.mtu))
    decreases m
  {
    if m == 0 {
      InitIdle(cfg);
      s := Init(cfg);
    } else {
      TimesMono(m - 1, m, UdpCost(cfg, cfg.mtu));
      var t := LeakMany(cfg, id, src, dst, m - 1);
      s := LeakOne(cfg, t, id, src, dst);
    }
    BareBytes(cfg, s, m);
    IfaceSlot(cfg, s, id);
  }

  /** As many failed binds as the limit admits: nothing exists, and their cost is charged. */
  lemma LeakReachable(cfg: Config, id: InterfaceId, src: Endpoint, dst: Endpoint, m: nat) returns (s: State)
    requires NoDup(cfg.ifaces) && id in cfg.ifaces && cfg.udpMaxSessions >= 1
    requires Reservable(cfg, 0, m * UdpCost(cfg, cfg.mtu))
    ensures Reachable(cfg, s) && Idle(s) && Bare(s, m) && id in s.slots
    ensures s.bytes == m * UdpCost(cfg, cfg.mtu) && (m > 0 ==> s.bytes > 0)
  {
    TimesIsProduct(m, UdpCost(cfg, cfg.mtu));
    s := LeakMany(cfg, id, src, dst, m);
  }

  /** The number of charges of cost `c` that just fit. */
  lemma LastFit(c: nat, limit: nat) returns (m: nat)
    requires c > 0
    ensures Times(m, c) <= limit < Times(m + 1, c)
  {
    m := 0;
    while Times(m + 1, c) <= limit
      invariant Times(m, c) <= limit
      decreases limit - Times(m, c)
    {
      m := m + 1;
    }
  }
}

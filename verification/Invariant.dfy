/**
 The agreement between the redundant structures of the netstack, split by the
 structures each part relates. `Inv` is kept by every step of every run.
 */
module Invariant {
  import opened Types
  import opened Counting
  import opened Ops

  /** Every slot was built from the same configuration, one per registered interface. */
  ghost predicate Shape(cfg: Config, slots: map<InterfaceId, Slot>) {
    && NoDup(cfg.ifaces)
    && (forall id :: id in slots <==> id in cfg.ifaces)
    && (forall id :: id in slots ==>
          && slots[id].id == id
          && slots[id].mtu == cfg.mtu
          && slots[id].bufferSize == cfg.tcpBufferSize
          && slots[id].poolMax == cfg.tcpPoolSize)
  }

  /** Each TCP entry owns a TCP socket that listens or listened on its destination, and owns it alone. */
  ghost predicate TcpOwned(slots: map<InterfaceId, Slot>, tcp: map<SessionKey, TcpEntry>) {
    && (forall k :: k in tcp ==>
          && k.proto == Tcp
          && HasSocket(slots, k.iface, tcp[k].handle)
          && slots[k.iface].sockets[tcp[k].handle].TcpSock?
          && slots[k.iface].sockets[tcp[k].handle].local == k.dst)
    && (forall k, l :: k in tcp && l in tcp && k.iface == l.iface && tcp[k].handle == tcp[l].handle ==> k == l)
  }

  /** Each shared entry owns a UDP socket bound to its own destination. */
  ghost predicate DstOwned(slots: map<InterfaceId, Slot>, dsts: map<DstKey, SharedSocket>) {
    forall d :: d in dsts ==>
      && HasSocket(slots, d.iface, dsts[d].handle)
      && slots[d.iface].sockets[dsts[d].handle].UdpSock?
      && slots[d.iface].sockets[dsts[d].handle].bound == d.ep
  }

  ghost predicate OwnedBySession(tcp: map<SessionKey, TcpEntry>, id: InterfaceId, h: Handle) {
    exists k :: k in tcp && k.iface == id && tcp[k].handle == h
  }

  /** Every socket in a set has an owner in the tables. */
  ghost predicate NoLeak(slots: map<InterfaceId, Slot>, tcp: map<SessionKey, TcpEntry>,
          dsts: map<DstKey, SharedSocket>)
  {
    forall id, h :: HasSocket(slots, id, h) ==>
      match slots[id].sockets[h]
      case TcpSock(_, _) => OwnedBySession(tcp, id, h)
      case UdpSock(bound, _, _) => DstKey(id, bound) in dsts && dsts[DstKey(id, bound)].handle == h
  }

  /** Reference counts are exact, never zero, and every session stores its shared socket's handle. */
  ghost predicate RefCounts(udp: map<SessionKey, UdpEntry>, dsts: map<DstKey, SharedSocket>) {
    && (forall d :: d in dsts ==> 1 <= dsts[d].count == Count(udp, ToDst(d)))
    && (forall k :: k in udp ==> DstOf(k) in dsts && udp[k].socket == dsts[DstOf(k)].handle)
  }

  /** Table entries and open queues of live session objects name each other. */
  ghost predicate Linked(udp: map<SessionKey, UdpEntry>, queues: map<QueueId, Queue>, sessions: map<QueueId, Session>,
          made: nat)
  {
    && (forall q :: q in queues ==> q < made)
    && (forall q :: q in sessions ==> q in queues)
    && (forall k :: k in udp ==>
          && k.proto == Udp
          && udp[k].queue in sessions
          && sessions[udp[k].queue] == Session(k, udp[k].socket)
          && !queues[udp[k].queue].closed)
    && (forall q :: q in queues && !queues[q].closed ==>
          q in sessions && sessions[q].key in udp && udp[sessions[q].key].queue == q)
  }

  /** Live streams and exposed, unorphaned TCP entries name each other. */
  ghost predicate Exposed(tcp: map<SessionKey, TcpEntry>, streams: map<StreamId, Stream>, made: nat) {
    && (forall x :: x in streams ==>
          && x < made
          && streams[x].key in tcp
          && tcp[streams[x].key].handle == streams[x].handle
          && !tcp[streams[x].key].orphaned
          && !tcp[streams[x].key].state.Pending?)
    && (forall x, y :: x in streams && y in streams && streams[x].key == streams[y].key ==> x == y)
    && (forall k :: k in tcp && !tcp[k].state.Pending? && !tcp[k].orphaned ==> HasStream(streams, k))
    && (forall k :: k in tcp && tcp[k].orphaned ==> !tcp[k].state.Pending?)
  }

  ghost predicate HasStream(streams: map<StreamId, Stream>, k: SessionKey) {
    exists x :: x in streams && streams[x].key == k
  }

  /** The charged bytes are the cost of all sockets plus what failed binds never gave back. */
  ghost predicate Budget(cfg: Config, bytes: nat, tcps: nat, shared: nat, failed: nat) {
    && bytes == Times(tcps, 2 * cfg.tcpBufferSize) + Times(shared + failed, UdpCost(cfg, cfg.mtu))
    && (cfg.maxBufferBytes.Some? ==> bytes <= cfg.maxBufferBytes.value)
  }

  /** Reuse pools are capped, hold closed sockets only, and never outgrow the interface's peak. */
  ghost predicate Pools(cfg: Config, slots: map<InterfaceId, Slot>, tcp: map<SessionKey, TcpEntry>,
          peak: map<InterfaceId, nat>)
  {
    && peak.Keys == slots.Keys
    && (forall id :: id in slots ==>
          && |slots[id].pool| <= cfg.tcpPoolSize
          && (forall p :: p in slots[id].pool ==> p.TcpSock? && p.state == SockState.Closed)
          && Count(tcp, OnIface(id)) + |slots[id].pool| <= peak[id]
          && peak[id] <= cfg.tcpMaxConnections
          && (cfg.maxBufferBytes.Some? ==> Times(peak[id], 2 * cfg.tcpBufferSize) <= cfg.maxBufferBytes.value))
  }

  /** Conservation of TCP entries and streams, and of UDP retains. */
  ghost predicate Ledger(tcp: map<SessionKey, TcpEntry>, udp: map<SessionKey, UdpEntry>,
          streams: map<StreamId, Stream>, hist: History)
  {
    && hist.created == |tcp| + hist.reaped
    && hist.accepted == Count(tcp, NotPending()) + hist.reaped
    && hist.dropped == Count(tcp, Orphaned()) + hist.reaped
    && hist.accepted == |streams| + hist.dropped
    && hist.retains == |udp| + hist.releases
  }

  ghost predicate Caps(cfg: Config, tcp: map<SessionKey, TcpEntry>, udp: map<SessionKey, UdpEntry>) {
    |tcp| <= cfg.tcpMaxConnections && |udp| <= cfg.udpMaxSessions
  }

  /** The parts of the invariant. */
  datatype Part =
    | SlotShape | TcpSockets | DstSockets | Leaks | Counts | Links | Exposure | Charges | PoolSizes | Sums | TableCaps

  ghost predicate Holds(s: State, part: Part) {
    match part
    case SlotShape => Shape(s.cfg, s.slots)
    case TcpSockets => TcpOwned(s.slots, s.tcp)
    case DstSockets => DstOwned(s.slots, s.dsts)
    case Leaks => NoLeak(s.slots, s.tcp, s.dsts)
    case Counts => RefCounts(s.udp, s.dsts)
    case Links => Linked(s.udp, s.queues, s.sessions, s.hist.retains)
    case Exposure => Exposed(s.tcp, s.streams, s.hist.accepted)
    case Charges => Budget(s.cfg, s.bytes, |s.tcp|, |s.dsts|, s.hist.failedBinds)
    case PoolSizes => Pools(s.cfg, s.slots, s.tcp, s.hist.peak)
    case Sums => Ledger(s.tcp, s.udp, s.streams, s.hist)
    case TableCaps => Caps(s.cfg, s.tcp, s.udp)
  }

  /** Every part holds; a proof names the parts it uses. */
  ghost predicate Inv(s: State) {
    forall part :: Holds(s, part)
  }

  /** All parts at once. */
  ghost predicate Parts(s: State) {
    && Shape(s.cfg, s.slots)
    && TcpOwned(s.slots, s.tcp)
    && DstOwned(s.slots, s.dsts)
    && NoLeak(s.slots, s.tcp, s.dsts)
    && RefCounts(s.udp, s.dsts)
    && Linked(s.udp, s.queues, s.sessions, s.hist.retains)
    && Exposed(s.tcp, s.streams, s.hist.accepted)
    && Budget(s.cfg, s.bytes, |s.tcp|, |s.dsts|, s.hist.failedBinds)
    && Pools(s.cfg, s.slots, s.tcp, s.hist.peak)
    && Ledger(s.tcp, s.udp, s.streams, s.hist)
    && Caps(s.cfg, s.tcp, s.udp)
  }

  // One part of the invariant at a time, so that a proof sees only what it uses.

  lemma InvShape(s: State)
    requires Inv(s)
    ensures Shape(s.cfg, s.slots)
  {
    assert Holds(s, SlotShape);
  }

  lemma InvTcp(s: State)
    requires Inv(s)
    ensures TcpOwned(s.slots, s.tcp)
  {
    assert Holds(s, TcpSockets);
  }

  lemma InvDst(s: State)
    requires Inv(s)
    ensures DstOwned(s.slots, s.dsts)
  {
    assert Holds(s, DstSockets);
  }

  lemma InvLeaks(s: State)
    requires Inv(s)
    ensures NoLeak(s.slots, s.tcp, s.dsts)
  {
    assert Holds(s, Leaks);
  }

  lemma InvCounts(s: State)
    requires Inv(s)
    ensures RefCounts(s.udp, s.dsts)
  {
    assert Holds(s, Counts);
  }

  lemma InvLinks(s: State)
    requires Inv(s)
    ensures Linked(s.udp, s.queues, s.sessions, s.hist.retains)
  {
    assert Holds(s, Links);
  }

  lemma InvExposed(s: State)
    requires Inv(s)
    ensures Exposed(s.tcp, s.streams, s.hist.accepted)
  {
    assert Holds(s, Exposure);
  }

  lemma InvBudget(s: State)
    requires Inv(s)
    ensures Budget(s.cfg, s.bytes, |s.tcp|, |s.dsts|, s.hist.failedBinds)
  {
    assert Holds(s, Charges);
  }

  lemma InvPools(s: State)
    requires Inv(s)
    ensures Pools(s.cfg, s.slots, s.tcp, s.hist.peak)
  {
    assert Holds(s, PoolSizes);
  }

  lemma InvLedger(s: State)
    requires Inv(s)
    ensures Ledger(s.tcp, s.udp, s.streams, s.hist)
  {
    assert Holds(s, Sums);
  }

  lemma InvCaps(s: State)
    requires Inv(s)
    ensures Caps(s.cfg, s.tcp, s.udp)
  {
    assert Holds(s, TableCaps);
  }

  lemma InvParts(s: State)
    requires Inv(s)
    ensures Parts(s)
  {
    InvShape(s);
    InvTcp(s);
    InvDst(s);
    InvLeaks(s);
    InvCounts(s);
    InvLinks(s);
    InvExposed(s);
    InvBudget(s);
    InvPools(s);
    InvLedger(s);
    InvCaps(s);
  }

  lemma PartsInv(s: State)
    requires Parts(s)
    ensures Inv(s)
  {
  }

  /** Socket sets that differ at most in connection states, buffers and ingress. */
  ghost predicate SameSockets(a: map<InterfaceId, Slot>, b: map<InterfaceId, Slot>) {
    && a.Keys == b.Keys
    && (forall id :: id in a ==>
          && a[id].(ingress := [], sockets := map[]) == b[id].(ingress := [], sockets := map[])
          && a[id].sockets.Keys == b[id].sockets.Keys)
    && (forall id, h :: HasSocket(a, id, h) ==> SameSocket(a[id].sockets[h], b[id].sockets[h]))
  }

  ghost predicate SameSocket(a: Socket, b: Socket) {
    match a
    case TcpSock(_, local) => b.TcpSock? && b.local == local
    case UdpSock(bound, _, _) => b.UdpSock? && b.bound == bound
  }

  lemma PutSocketSame(slots: map<InterfaceId, Slot>, id: InterfaceId, h: Handle, sock: Socket)
    requires HasSocket(slots, id, h) && SameSocket(slots[id].sockets[h], sock)
    ensures SameSockets(slots, PutSocket(slots, id, h, sock))
  {
  }

  lemma SameSocketsShape(cfg: Config, a: map<InterfaceId, Slot>, b: map<InterfaceId, Slot>)
    requires Shape(cfg, a) && SameSockets(a, b)
    ensures Shape(cfg, b)
  {
  }

  lemma SameSocketsTcp(a: map<InterfaceId, Slot>, b: map<InterfaceId, Slot>, tcp: map<SessionKey, TcpEntry>)
    requires TcpOwned(a, tcp) && SameSockets(a, b)
    ensures TcpOwned(b, tcp)
  {
  }

  lemma SameSocketsDst(a: map<InterfaceId, Slot>, b: map<InterfaceId, Slot>, dsts: map<DstKey, SharedSocket>)
    requires DstOwned(a, dsts) && SameSockets(a, b)
    ensures DstOwned(b, dsts)
  {
  }

  lemma SameSocketsNoLeak(a: map<InterfaceId, Slot>, b: map<InterfaceId, Slot>, tcp: map<SessionKey, TcpEntry>,
          dsts: map<DstKey, SharedSocket>)
    requires NoLeak(a, tcp, dsts) && SameSockets(a, b)
    ensures NoLeak(b, tcp, dsts)
  {
    assert forall id, h :: HasSocket(b, id, h) ==> HasSocket(a, id, h);
  }

  lemma SameSocketsPools(cfg: Config, a: map<InterfaceId, Slot>, b: map<InterfaceId, Slot>,
          tcp: map<SessionKey, TcpEntry>, peak: map<InterfaceId, nat>)
    requires Pools(cfg, a, tcp, peak) && SameSockets(a, b)
    ensures Pools(cfg, b, tcp, peak)
  {
    assert forall id :: id in a ==> a[id].pool == b[id].pool;
  }

  /** Polling, closing and sending touch no ownership. */
  lemma SameSocketsKeepInv(s: State, slots: map<InterfaceId, Slot>)
    requires Inv(s) && SameSockets(s.slots, slots)
    ensures Inv(s.(slots := slots))
  {
    var r := s.(slots := slots);
    forall part ensures Holds(r, part) {
      assert Holds(s, part);
      match part
      case SlotShape => SameSocketsShape(s.cfg, s.slots, slots);
      case TcpSockets => SameSocketsTcp(s.slots, slots, s.tcp);
      case DstSockets => SameSocketsDst(s.slots, slots, s.dsts);
      case Leaks => SameSocketsNoLeak(s.slots, slots, s.tcp, s.dsts);
      case PoolSizes => SameSocketsPools(s.cfg, s.slots, slots, s.tcp, s.hist.peak);
      case _ =>
    }
  }
}

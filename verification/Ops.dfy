/**
 The netstack's operations as functions on `State`: what each critical section
 does to the tables, the slots, the budget and the queues.
 */
module Ops {
  import opened Types
  import opened Counting
  import opened Connections

  // ---- Buffer budget (core.rs) ----

  function TcpCost(slot: Slot): nat {
    2 * slot.bufferSize
  }

  function UdpPayload(cfg: Config, mtu: nat): nat {
    Max(cfg.udpBufferBytes, mtu)
  }

  function UdpCost(cfg: Config, mtu: nat): nat {
    Max(cfg.udpBufferPackets, 1) * 64 + UdpPayload(cfg, mtu)
  }

  predicate Reservable(cfg: Config, bytes: nat, need: nat) {
    cfg.maxBufferBytes.Some? ==> bytes + need <= cfg.maxBufferBytes.value
  }

  function Release(bytes: nat, freed: nat): nat {
    if freed <= bytes then bytes - freed else 0
  }

  // ---- Pre-pass (runner.rs) ----

  function PoolRest(pool: seq<Socket>): seq<Socket> {
    if pool == [] then [] else pool[1..]
  }

  ghost function Risen(peak: map<InterfaceId, nat>, id: InterfaceId, live: nat): map<InterfaceId, nat> {
    peak[id := Max(if id in peak then peak[id] else 0, live)]
  }

  /** The slot map with one slot replaced; the interfaces stay the same. */
  ghost function SetSlot(slots: map<InterfaceId, Slot>, id: InterfaceId, slot: Slot): (r: map<InterfaceId, Slot>)
    requires id in slots
    ensures r.Keys == slots.Keys
  {
    slots[id := slot]
  }

  /** A listening socket, pooled or new, enters the set and its entry the table. */
  ghost function TcpListen(s: State, key: SessionKey, h: Handle): (r: State)
    requires key.iface in s.slots
    ensures r.slots.Keys == s.slots.Keys
  {
    var slot := s.slots[key.iface];
    var tcp := s.tcp[key := TcpEntry(h, Pending, false)];
    s.(slots := SetSlot(s.slots, key.iface,
                        slot.(pool := PoolRest(slot.pool), sockets := slot.sockets[h := TcpSock(Listen, key.dst)])),
       tcp := tcp,
       bytes := s.bytes + TcpCost(slot),
       hist := s.hist.(created := s.hist.created + 1,
                       peak := Risen(s.hist.peak, key.iface, Count(tcp, OnIface(key.iface)))))
  }

  /** The socket that refused to listen is lost to the pool; its reservation is given back. */
  ghost function TcpListenFails(s: State, key: SessionKey): (r: State)
    requires key.iface in s.slots
    ensures r.slots.Keys == s.slots.Keys
  {
    var slot := s.slots[key.iface];
    s.(slots := SetSlot(s.slots, key.iface, slot.(pool := PoolRest(slot.pool))),
       bytes := Release(s.bytes + TcpCost(slot), TcpCost(slot)))
  }

  ghost function AllocTcp(s: State, key: SessionKey, listens: bool, h: Handle): (r: State)
    requires key.iface in s.slots
    ensures r.slots.Keys == s.slots.Keys && r.cfg == s.cfg && r.streams == s.streams
  {
    if !Reservable(s.cfg, s.bytes, TcpCost(s.slots[key.iface])) then s
    else if listens then TcpListen(s, key, h)
    else TcpListenFails(s, key)
  }

  /** Record the new session once its shared socket is known. */
  ghost function AddSession(s: State, key: SessionKey, h: Handle, now: Instant): State
  {
    var q := s.hist.retains;
    s.(udp := s.udp[key := UdpEntry(h, q, now)],
       queues := s.queues[q := Queue([], false)],
       sessions := s.sessions[q := Session(key, h)],
       hist := s.hist.(retains := q + 1))
  }

  ghost function Retain(dsts: map<DstKey, SharedSocket>, d: DstKey): map<DstKey, SharedSocket>
    requires d in dsts
  {
    dsts[d := dsts[d].(count := dsts[d].count + 1)]
  }

  ghost function JoinShared(s: State, key: SessionKey, now: Instant): State
    requires DstOf(key) in s.dsts
  {
    AddSession(s.(dsts := Retain(s.dsts, DstOf(key))), key, s.dsts[DstOf(key)].handle, now)
  }

  ghost function BindShared(s: State, key: SessionKey, h: Handle, now: Instant): (r: State)
    requires key.iface in s.slots
    ensures r.slots.Keys == s.slots.Keys
  {
    var slot := s.slots[key.iface];
    AddSession(
      s.(slots := SetSlot(s.slots, key.iface, slot.(sockets := slot.sockets[h := UdpSock(key.dst, [], [])])),
         dsts := s.dsts[DstOf(key) := SharedSocket(h, 1)],
         bytes := s.bytes + UdpCost(s.cfg, slot.mtu)),
      key, h, now)
  }

  /** No socket comes to exist, yet the reservation is kept. */
  ghost function BindFails(s: State, key: SessionKey): State
    requires key.iface in s.slots
  {
    s.(bytes := s.bytes + UdpCost(s.cfg, s.slots[key.iface].mtu),
       hist := s.hist.(failedBinds := s.hist.failedBinds + 1))
  }

  ghost function AllocUdp(s: State, key: SessionKey, binds: bool, h: Handle, now: Instant): (r: State)
    requires key.iface in s.slots
    ensures r.slots.Keys == s.slots.Keys && r.cfg == s.cfg && r.streams == s.streams
  {
    if DstOf(key) in s.dsts then JoinShared(s, key, now)
    else if !Reservable(s.cfg, s.bytes, UdpCost(s.cfg, s.slots[key.iface].mtu)) then s
    else if binds then BindShared(s, key, h, now)
    else BindFails(s, key)
  }

  /** One ingress packet of interface `id`, at position `j` of its queue. */
  ghost function PacketStep(s: State, id: InterfaceId, j: nat, pkt: Packet, ch: Choices): (r: State)
    requires id in s.slots
    ensures r.slots.Keys == s.slots.Keys && r.cfg == s.cfg && r.streams == s.streams
  {
    var h := ch.pick(id, s.slots[id].sockets.Keys);
    match pkt
    case Opaque => s
    case TcpPacket(src, dst, syn) =>
      var key := SessionKey(id, Tcp, src, dst);
      if !syn || key in s.tcp || |s.tcp| >= s.cfg.tcpMaxConnections then s
      else AllocTcp(s, key, ch.opens(id, j), h)
    case UdpPacket(src, dst) =>
      var key := SessionKey(id, Udp, src, dst);
      if key in s.udp || |s.udp| >= s.cfg.udpMaxSessions then s
      else AllocUdp(s, key, ch.opens(id, j), h, ch.now)
  }

  ghost function Packets(s: State, id: InterfaceId, j: nat, pkts: seq<Packet>, ch: Choices): (r: State)
    requires id in s.slots && j <= |pkts|
    ensures r.slots.Keys == s.slots.Keys && r.cfg == s.cfg && r.streams == s.streams
    decreases |pkts| - j
  {
    if j == |pkts| then s else Packets(PacketStep(s, id, j, pkts[j], ch), id, j + 1, pkts, ch)
  }

  ghost function WithIngress(s: State, id: InterfaceId, pkts: seq<Packet>): State
    requires id in s.slots
  {
    s.(slots := SetSlot(s.slots, id, s.slots[id].(ingress := pkts)))
  }

  /** Take the ingress queue, serve every packet, put the packets back. */
  ghost function PreSlot(s: State, id: InterfaceId, ch: Choices): (r: State)
    requires id in s.slots
    ensures r.slots.Keys == s.slots.Keys
  {
    var pkts := s.slots[id].ingress;
    var t := Packets(WithIngress(s, id, []), id, 0, pkts, ch);
    WithIngress(t, id, t.slots[id].ingress + pkts)
  }

  ghost function PrePass(s: State, ids: seq<InterfaceId>, ch: Choices): (r: State)
    requires forall id :: id in ids ==> id in s.slots
    ensures r.slots.Keys == s.slots.Keys && r.cfg == s.cfg && r.streams == s.streams
    decreases |ids|
  {
    if ids == [] then s else PrePass(PreSlot(s, ids[0], ch), ids[1..], ch)
  }

  // ---- Post-pass, TCP (runner.rs) ----

  /** The socket an entry's handle names, if the interface and the handle exist. */
  ghost predicate HasSocket(slots: map<InterfaceId, Slot>, id: InterfaceId, h: Handle) {
    id in slots && h in slots[id].sockets
  }

  ghost function SockStateOf(slots: map<InterfaceId, Slot>, k: SessionKey, e: TcpEntry): SockState {
    if HasSocket(slots, k.iface, e.handle) && slots[k.iface].sockets[e.handle].TcpSock?
    then slots[k.iface].sockets[e.handle].state
    else SockState.Listen
  }

  /** The state of a listed connection's socket. */
  ghost function StateIn(s: State, k: SessionKey): SockState
    requires k in s.tcp
  {
    SockStateOf(s.slots, k, s.tcp[k])
  }

  /** The handshake completed: the entry is exposed through a new stream. */
  ghost function Accept(s: State, k: SessionKey): State
    requires k in s.tcp
  {
    s.(tcp := s.tcp[k := s.tcp[k].(state := TcpState.Established)],
       streams := s.streams[s.hist.accepted := Stream(k, s.tcp[k].handle)],
       hist := s.hist.(accepted := s.hist.accepted + 1))
  }

  ghost function Finish(s: State, k: SessionKey): State
    requires k in s.tcp
  {
    s.(tcp := s.tcp[k := s.tcp[k].(state := TcpState.Closed)])
  }

  /** Advance one TCP entry by the state its socket reached. */
  ghost function Visit(s: State, k: SessionKey): State
  {
    if k !in s.tcp || k.iface !in s.slots then s
    else
      var sock := SockStateOf(s.slots, k, s.tcp[k]);
      match s.tcp[k].state
      case Pending => if sock == SockState.Established then Accept(s, k) else s
      case Established => if sock in {SockState.Closed, TimeWait, Listen} then Finish(s, k) else s
      case Closed => s
  }

  ghost function VisitAll(s: State, ks: seq<SessionKey>): (r: State)
    ensures r == s.(tcp := r.tcp, streams := r.streams, hist := s.hist.(accepted := r.hist.accepted))
    decreases |ks|
  {
    if ks == [] then s else VisitAll(Visit(s, ks[0]), ks[1..])
  }

  ghost predicate Reapable(s: State, k: SessionKey) {
    k in s.tcp && s.tcp[k].orphaned && SockStateOf(s.slots, k, s.tcp[k]) == SockState.Closed
  }

  ghost function ReapList(s: State, ks: seq<SessionKey>): seq<SessionKey>
    decreases |ks|
  {
    if ks == [] then []
    else (if Reapable(s, ks[0]) then [ks[0]] else []) + ReapList(s, ks[1..])
  }

  ghost function Reap(s: State, k: SessionKey): State
  {
    if k !in s.tcp then s
    else
      var h := s.tcp[k].handle;
      var t := s.(tcp := s.tcp - {k}, hist := s.hist.(reaped := s.hist.reaped + 1));
      if !HasSocket(s.slots, k.iface, h) then t
      else
        var slot := s.slots[k.iface];
        var pool :=
          if slot.sockets[h].TcpSock? && |slot.pool| < slot.poolMax then slot.pool + [slot.sockets[h]] else slot.pool;
        t.(slots := SetSlot(s.slots, k.iface, slot.(sockets := slot.sockets - {h}, pool := pool)),
           bytes := Release(s.bytes, TcpCost(slot)))
  }

  ghost function ReapAll(s: State, ks: seq<SessionKey>): (r: State)
    ensures r == s.(tcp := r.tcp, slots := r.slots, bytes := r.bytes, hist := s.hist.(reaped := r.hist.reaped))
    decreases |ks|
  {
    if ks == [] then s else ReapAll(Reap(s, ks[0]), ks[1..])
  }

  // ---- Post-pass, UDP redistribution (runner.rs) ----

  /** Receive buffer of the shared socket registered for `d`. */
  ghost function RxOf(slots: map<InterfaceId, Slot>, dsts: map<DstKey, SharedSocket>, d: DstKey): seq<Rx> {
    if d in dsts && HasSocket(slots, d.iface, dsts[d].handle) && slots[d.iface].sockets[dsts[d].handle].UdpSock?
    then slots[d.iface].sockets[dsts[d].handle].rx
    else []
  }

  ghost function Tagged(d: DstKey, rx: seq<Rx>): seq<(SessionKey, Bytes)>
    decreases |rx|
  {
    if rx == [] then []
    else
      (match rx[0]
       case Datagram(src, data) => [(SessionKey(d.iface, Udp, src, d.ep), data)]
       case Truncated => [])
      + Tagged(d, rx[1..])
  }

  ghost function DrainSlot(s: State, id: InterfaceId, ds: seq<DstKey>): seq<(SessionKey, Bytes)>
    decreases |ds|
  {
    if ds == [] then []
    else (if ds[0].iface == id then Tagged(ds[0], RxOf(s.slots, s.dsts, ds[0])) else []) + DrainSlot(s, id, ds[1..])
  }

  ghost function DrainAll(s: State, ids: seq<InterfaceId>, ds: seq<DstKey>): seq<(SessionKey, Bytes)>
    decreases |ids|
  {
    if ids == [] then [] else DrainSlot(s, ids[0], ds) + DrainAll(s, ids[1..], ds)
  }

  ghost function Drained(id: InterfaceId, h: Handle, sock: Socket, dsts: map<DstKey, SharedSocket>): Socket {
    if sock.UdpSock? && DstKey(id, sock.bound) in dsts && dsts[DstKey(id, sock.bound)].handle == h
    then sock.(rx := []) else sock
  }

  ghost function ClearRx(s: State): State {
    s.(slots := map id | id in s.slots ::
         s.slots[id].(sockets := map h | h in s.slots[id].sockets :: Drained(id, h, s.slots[id].sockets[h], s.dsts)))
  }

  ghost function DeliverOne(s: State, k: SessionKey, data: Bytes, now: Instant): State {
    if k !in s.udp || s.udp[k].queue !in s.queues then s
    else
      var e := s.udp[k];
      var q := s.queues[e.queue];
      s.(udp := s.udp[k := e.(lastActivity := now)],
         queues := s.queues[e.queue := q.(inner := q.inner + [data])])
  }

  ghost function DeliverAll(s: State, list: seq<(SessionKey, Bytes)>, now: Instant): (r: State)
    ensures r == s.(udp := r.udp, queues := r.queues)
    decreases |list|
  {
    if list == [] then s else DeliverAll(DeliverOne(s, list[0].0, list[0].1, now), list[1..], now)
  }

  ghost function Redistribute(s: State, ch: Choices): State {
    DeliverAll(ClearRx(s), DrainAll(s, s.cfg.ifaces, ch.dstOrder), ch.now)
  }

  // ---- UDP removal, by the sweep (runner.rs) and by drop (stream/udp.rs) ----

  /** Take the entry out of the table and close its queue, whatever the queue still holds. */
  ghost function CloseEntry(s: State, k: SessionKey): State
    requires k in s.udp
  {
    var q := s.udp[k].queue;
    s.(udp := s.udp - {k},
       queues := if q in s.queues then s.queues[q := s.queues[q].(closed := true)] else s.queues,
       hist := s.hist.(releases := s.hist.releases + 1))
  }

  /** The last reference is gone: forget the shared socket `h`, free it and refund its cost. */
  ghost function FreeShared(s: State, d: DstKey, h: Handle): State
    requires d in s.dsts
  {
    var t := s.(dsts := s.dsts - {d});
    if d.iface !in s.slots then t
    else
      var slot := s.slots[d.iface];
      t.(slots := SetSlot(s.slots, d.iface, slot.(sockets := slot.sockets - {h})),
         bytes := Release(s.bytes, UdpCost(s.cfg, slot.mtu)))
  }

  ghost function ReleaseShared(s: State, d: DstKey, h: Handle): State
  {
    if d !in s.dsts then s
    else if s.dsts[d].count > 1 then s.(dsts := s.dsts[d := s.dsts[d].(count := s.dsts[d].count - 1)])
    else FreeShared(s, d, h)
  }

  ghost function RemoveUdp(s: State, k: SessionKey): (r: State)
    ensures r == s.(udp := r.udp, dsts := r.dsts, slots := r.slots, bytes := r.bytes, queues := r.queues,
                    hist := s.hist.(releases := r.hist.releases))
  {
    if k !in s.udp then s else ReleaseShared(CloseEntry(s, k), DstOf(k), s.udp[k].socket)
  }

  /** `Instant - Instant` is the distance between the two, whichever is later. */
  function Elapsed(now: Instant, last: Instant): nat {
    if last <= now then now - last else last - now
  }

  ghost predicate Overdue(s: State, k: SessionKey, now: Instant) {
    k in s.udp && Elapsed(now, s.udp[k].lastActivity) > s.cfg.udpTimeout
  }

  ghost function ExpiredList(s: State, ks: seq<SessionKey>, now: Instant): seq<SessionKey>
    decreases |ks|
  {
    if ks == [] then []
    else (if Overdue(s, ks[0], now) then [ks[0]] else []) + ExpiredList(s, ks[1..], now)
  }

  ghost function RemoveAll(s: State, ks: seq<SessionKey>): (r: State)
    ensures r == s.(udp := r.udp, dsts := r.dsts, slots := r.slots, bytes := r.bytes, queues := r.queues,
                    hist := s.hist.(releases := r.hist.releases))
    decreases |ks|
  {
    if ks == [] then s else RemoveAll(RemoveUdp(s, ks[0]), ks[1..])
  }

  // ---- One poll cycle (runner.rs, `poll_once`) ----

  ghost function TcpPass(s: State, ch: Choices): State {
    var v := VisitAll(s, ch.tcpOrder);
    ReapAll(v, ReapList(v, ch.tcpOrder))
  }

  ghost function Sweep(s: State, ch: Choices): State {
    RemoveAll(s, ExpiredList(s, ch.udpOrder, ch.now))
  }

  ghost function PostPass(s: State, ch: Choices): State {
    Sweep(Redistribute(TcpPass(s, ch), ch), ch)
  }

  // ---- Application side (stream/tcp.rs, stream/udp.rs) ----

  /** The slot map with the socket under a used handle replaced. */
  ghost function PutSocket(slots: map<InterfaceId, Slot>, id: InterfaceId, h: Handle,
          sock: Socket): map<InterfaceId, Slot>
    requires HasSocket(slots, id, h)
  {
    SetSlot(slots, id, slots[id].(sockets := slots[id].sockets[h := sock]))
  }

  predicate IsOpen(state: SockState) {
    state != SockState.Closed && state != TimeWait
  }

  /** `close()` on a TCP socket, if that is open. */
  ghost function CloseSocket(slots: map<InterfaceId, Slot>, id: InterfaceId, h: Handle): map<InterfaceId, Slot> {
    if HasSocket(slots, id, h) && slots[id].sockets[h].TcpSock? && IsOpen(slots[id].sockets[h].state)
    then PutSocket(slots, id, h, slots[id].sockets[h].(state := AfterClose(slots[id].sockets[h].state)))
    else slots
  }

  ghost function Shutdown(s: State, x: StreamId): State
    requires x in s.streams
  {
    s.(slots := CloseSocket(s.slots, s.streams[x].key.iface, s.streams[x].handle))
  }

  ghost function DropStream(s: State, x: StreamId): State
    requires x in s.streams
  {
    var k := s.streams[x].key;
    var t := s.(streams := s.streams - {x}, hist := s.hist.(dropped := s.hist.dropped + 1));
    if k !in s.tcp then t
    else t.(slots := CloseSocket(s.slots, k.iface, s.streams[x].handle),
            tcp := s.tcp[k := s.tcp[k].(orphaned := true)])
  }

  datatype SendOutcome = Sent | Full | Failed

  /** What the socket answers to `send_slice`, if the session gets that far. */
  ghost function TrySend(s: State, q: QueueId, payload: Bytes, answer: SendOutcome): (State, SendOutcome)
    requires q in s.sessions && q in s.queues
  {
    var key, h := s.sessions[q].key, s.sessions[q].socket;
    if s.queues[q].closed || !HasSocket(s.slots, key.iface, h) ||
      !s.slots[key.iface].sockets[h].UdpSock? then (s, Failed)
    else if answer.Sent? then
      var sock := s.slots[key.iface].sockets[h];
      (s.(slots := PutSocket(s.slots, key.iface, h, sock.(tx := sock.tx + [(key.src, payload)]))), Sent)
    else (s, answer)
  }

  ghost function Pop(s: State, q: QueueId): (State, Option<Bytes>)
    requires q in s.queues
  {
    var queue := s.queues[q];
    if queue.inner == [] then (s, None)
    else (s.(queues := s.queues[q := queue.(inner := queue.inner[1..])]), Some(queue.inner[0]))
  }

  ghost function DropSession(s: State, q: QueueId): State
    requires q in s.sessions
  {
    var t := RemoveUdp(s, s.sessions[q].key);
    t.(sessions := t.sessions - {q})
  }

  /** Queue an ingress packet; packets for unknown interfaces are dropped. */
  ghost function Enqueue(s: State, id: InterfaceId, pkt: Packet): State {
    if id !in s.slots then s else WithIngress(s, id, s.slots[id].ingress + [pkt])
  }
}

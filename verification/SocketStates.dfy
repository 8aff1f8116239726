/** What each step does to the sockets of listed connections: an entry keeps its socket as long as it is listed. */
module SocketStates {
  import opened Types
  import opened Connections
  import opened Ops
  import opened Invariant
  import opened PreserveAlloc
  import opened PreserveUdp
  import opened Runs
  import opened Isolation

  // ---- Pre-pass ----

  /** An entry under `k` stays, with its socket in the same state; a new one is pending and its socket listens. */
  ghost predicate Carried(s: State, t: State, k: SessionKey) {
    && (k in s.tcp ==> k in t.tcp && t.tcp[k] == s.tcp[k] && StateIn(t, k) == StateIn(s, k))
    && (k in t.tcp && k !in s.tcp ==> t.tcp[k].state.Pending? && !t.tcp[k].orphaned && StateIn(t, k) == Listen)
  }

  lemma ListenCarries(s: State, key: SessionKey, h: Handle, k: SessionKey)
    requires TcpOwned(s.slots, s.tcp) && key.iface in s.slots && h !in s.slots[key.iface].sockets && key !in s.tcp
    ensures Carried(s, TcpListen(s, key, h), k)
  {
  }

  lemma ListenFailsCarries(s: State, key: SessionKey, k: SessionKey)
    requires key.iface in s.slots
    ensures Carried(s, TcpListenFails(s, key), k)
  {
  }

  lemma AllocTcpCarries(s: State, key: SessionKey, opens: bool, h: Handle, k: SessionKey)
    requires TcpOwned(s.slots, s.tcp) && key.iface in s.slots && h !in s.slots[key.iface].sockets && key !in s.tcp
    ensures Carried(s, AllocTcp(s, key, opens, h), k)
  {
    ListenCarries(s, key, h, k);
    ListenFailsCarries(s, key, k);
  }

  lemma AllocUdpCarries(s: State, key: SessionKey, binds: bool, h: Handle, now: Instant, k: SessionKey)
    requires TcpOwned(s.slots, s.tcp) && key.iface in s.slots && h !in s.slots[key.iface].sockets
    ensures Carried(s, AllocUdp(s, key, binds, h, now), k)
  {
  }

  lemma PacketCarries(s: State, id: InterfaceId, j: nat, pkt: Packet, ch: Choices, k: SessionKey)
    requires Inv(s) && id in s.slots && FreshPicks(ch)
    ensures Carried(s, PacketStep(s, id, j, pkt, ch), k)
  {
    var h := ch.pick(id, s.slots[id].sockets.Keys);
    InvTcp(s);
    match pkt
    case Opaque =>
    case TcpPacket(src, dst, syn) =>
      if syn && SessionKey(id, Tcp, src, dst) !in s.tcp {
        AllocTcpCarries(s, SessionKey(id, Tcp, src, dst), ch.opens(id, j), h, k);
      }
    case UdpPacket(src, dst) => AllocUdpCarries(s, SessionKey(id, Udp, src, dst), ch.opens(id, j), h, ch.now, k);
  }

  lemma {:induction false} PacketsCarry(s: State, id: InterfaceId, j: nat, pkts: seq<Packet>, ch: Choices,
          k: SessionKey)
    requires Inv(s) && id in s.slots && FreshPicks(ch) && j <= |pkts|
    ensures Carried(s, Packets(s, id, j, pkts, ch), k)
    decreases |pkts| - j
  {
    if j < |pkts| {
      PacketCarries(s, id, j, pkts[j], ch, k);
      PacketStepInv(s, id, j, pkts[j], ch);
      PacketsCarry(PacketStep(s, id, j, pkts[j], ch), id, j + 1, pkts, ch, k);
    }
  }

  lemma IngressCarries(s: State, id: InterfaceId, pkts: seq<Packet>, k: SessionKey)
    requires id in s.slots
    ensures Carried(s, WithIngress(s, id, pkts), k)
  {
  }

  lemma PreSlotCarries(s: State, id: InterfaceId, ch: Choices, k: SessionKey)
    requires Inv(s) && id in s.slots && FreshPicks(ch)
    ensures Carried(s, PreSlot(s, id, ch), k)
  {
    var a := WithIngress(s, id, []);
    var b := Packets(a, id, 0, s.slots[id].ingress, ch);
    IngressCarries(s, id, [], k);
    WithIngressInv(s, id, []);
    PacketsCarry(a, id, 0, s.slots[id].ingress, ch, k);
    IngressCarries(b, id, b.slots[id].ingress + s.slots[id].ingress, k);
  }

  lemma {:induction false} PrePassCarries(s: State, ids: seq<InterfaceId>, ch: Choices, k: SessionKey)
    requires Inv(s) && FreshPicks(ch) && forall id :: id in ids ==> id in s.slots
    ensures Carried(s, PrePass(s, ids, ch), k)
    decreases |ids|
  {
    if ids != [] {
      PreSlotCarries(s, ids[0], ch, k);
      PreSlotInv(s, ids[0], ch);
      PrePassCarries(PreSlot(s, ids[0], ch), ids[1..], ch, k);
    }
  }

  // ---- A whole cycle ----

  lemma EngineState(a: map<InterfaceId, Slot>, b: map<InterfaceId, Slot>, tcp: map<SessionKey, TcpEntry>, k: SessionKey)
    requires EnginePolls(a, b) && TcpOwned(a, tcp) && k in tcp
    ensures MayBecome(SockStateOf(a, k, tcp[k]), SockStateOf(b, k, tcp[k]))
  {
    assert HasSocket(a, k.iface, tcp[k].handle);
  }

  /** What becomes of the entry under `k` and its socket until the post-pass. */
  ghost predicate Moving(s: State, p: State, k: SessionKey) {
    && (k in s.tcp ==> k in p.tcp && p.tcp[k] == s.tcp[k] && MayBecome(StateIn(s, k), StateIn(p, k)))
    && (k in p.tcp && k !in s.tcp ==>
          p.tcp[k].state.Pending? && !p.tcp[k].orphaned && MayBecome(Listen, StateIn(p, k)))
  }

  /** The engine moves the socket of a listed connection along the protocol. */
  lemma PolledState(s: State, ch: Choices, k: SessionKey)
    requires Inv(s) && CycleEnabled(s, ch)
    ensures Moving(s, Polled(s, ch), k)
  {
    var q := PrePass(s, s.cfg.ifaces, ch);
    InvShape(s);
    PrePassCarries(s, s.cfg.ifaces, ch, k);
    PrePassInv(s, s.cfg.ifaces, ch);
    InvTcp(q);
    if k in q.tcp {
      EngineState(q.slots, SlotMap(ch.polled), q.tcp, k);
    }
  }

  // ---- Other steps ----

  ghost predicate Untouched(s: State, r: State, k: SessionKey)
    requires k in s.tcp
  {
    k in r.tcp && r.tcp[k] == s.tcp[k] && StateIn(r, k) == StateIn(s, k)
  }

  lemma EnqueueOther(s: State, id: InterfaceId, pkt: Packet, k: SessionKey)
    requires k in s.tcp
    ensures Untouched(s, Enqueue(s, id, pkt), k)
  {
    if id in s.slots {
      IngressCarries(s, id, s.slots[id].ingress + [pkt], k);
    }
  }

  lemma ShutOther(s: State, x: StreamId, k: SessionKey)
    requires TcpOwned(s.slots, s.tcp) && Exposed(s.tcp, s.streams, s.hist.accepted) && x in s.streams
    requires k in s.tcp && s.tcp[k].state.Pending?
    ensures Untouched(s, Shutdown(s, x), k)
  {
    ShutdownParts(s, x);
    OthersKeepState(s, Shutdown(s, x).slots, s.streams[x].key, k);
  }

  lemma StreamDropOther(s: State, x: StreamId, k: SessionKey)
    requires TcpOwned(s.slots, s.tcp) && Exposed(s.tcp, s.streams, s.hist.accepted) && x in s.streams
    requires k in s.tcp && s.tcp[k].state.Pending?
    ensures Untouched(s, DropStream(s, x), k)
  {
    StreamDropParts(s, x);
  }

  lemma SendOther(s: State, q: QueueId, payload: Bytes, answer: SendOutcome, k: SessionKey)
    requires TcpOwned(s.slots, s.tcp) && q in s.sessions && q in s.queues && k in s.tcp
    ensures Untouched(s, TrySend(s, q, payload, answer).0, k)
  {
  }

  lemma DropOther(s: State, q: QueueId, k: SessionKey)
    requires Inv(s) && q in s.sessions && k in s.tcp
    ensures Untouched(s, DropSession(s, q), k)
  {
    var r := DropSession(s, q);
    DropSessionInv(s, q);
    InvTcp(s);
    InvTcp(r);
    assert HasSocket(r.slots, k.iface, r.tcp[k].handle);
    RemoveUdpSockets(s, s.sessions[q].key, k.iface, r.tcp[k].handle);
  }

  lemma PopOther(s: State, q: QueueId, k: SessionKey)
    requires q in s.queues && k in s.tcp
    ensures Untouched(s, Pop(s, q).0, k)
  {
  }

  /** The application does not touch a pending connection, nor its socket. */
  lemma PendingUntouched(s: State, l: Label, k: SessionKey)
    requires Inv(s) && Enabled(s, l) && !l.Cycle? && k in s.tcp && s.tcp[k].state.Pending?
    ensures Untouched(s, Apply(s, l), k)
  {
    InvTcp(s);
    match l
    case Ingress(id, pkt) => EnqueueOther(s, id, pkt, k);
    case StreamShutdown(x) =>
      InvExposed(s);
      ShutOther(s, x, k);
    case StreamDrop(x) =>
      InvExposed(s);
      StreamDropOther(s, x, k);
    case SessionSend(q, payload, answer) => SendOther(s, q, payload, answer, k);
    case SessionPop(q) => PopOther(s, q, k);
    case SessionDrop(q) => DropOther(s, q, k);
  }
}

/**
 From every reachable state some run empties the netstack, down to lost connections and the
 charges of failed binds. So those alone decide whether a new flow or connection can ever be served.
 */
module Recovery {
  import opened Types
  import opened Connections
  import opened Counting
  import opened Ops
  import opened Invariant
  import opened Tables
  import opened Runs
  import opened Isolation
  import opened Lifecycle
  import opened Witness
  import opened Feeding
  import opened SocketStates
  import opened Scenarios
  import opened Losses
  import opened Permanence

  // ---- If everything opens, no bind fails ----

  lemma StepNoFail(s: State, id: InterfaceId, j: nat, pkt: Packet, ch: Choices)
    requires id in s.slots && Opens(ch, true)
    ensures PacketStep(s, id, j, pkt, ch).hist.failedBinds == s.hist.failedBinds
  {
    assert ch.opens(id, j);
  }

  lemma {:induction false} PacketsNoFail(s: State, id: InterfaceId, j: nat, pkts: seq<Packet>, ch: Choices)
    requires id in s.slots && j <= |pkts| && Opens(ch, true)
    ensures Packets(s, id, j, pkts, ch).hist.failedBinds == s.hist.failedBinds
    decreases |pkts| - j
  {
    if j < |pkts| {
      StepNoFail(s, id, j, pkts[j], ch);
      PacketsNoFail(PacketStep(s, id, j, pkts[j], ch), id, j + 1, pkts, ch);
    }
  }

  lemma {:induction false} PrePassNoFail(s: State, ids: seq<InterfaceId>, ch: Choices)
    requires Opens(ch, true) && forall id :: id in ids ==> id in s.slots
    ensures PrePass(s, ids, ch).hist.failedBinds == s.hist.failedBinds
    decreases |ids|
  {
    if ids != [] {
      PacketsNoFail(WithIngress(s, ids[0], []), ids[0], 0, s.slots[ids[0]].ingress, ch);
      PrePassNoFail(PreSlot(s, ids[0], ch), ids[1..], ch);
    }
  }

  // ---- Emptying ----

  /** Every pending connection is lost, and was so in `s`. */
  ghost predicate OnlyLost(s: State, r: State) {
    forall k :: IsPending(r, k) ==> Lost(r, k) && Lost(s, k)
  }

  /** `r` is an idle state that `s` leads to, with no more pending connections than those lost in `s`. */
  ghost predicate Calmed(cfg: Config, s: State, r: State) {
    && Reachable(cfg, r) && Leads(s, r) && Idle(r) && r.hist.failedBinds == s.hist.failedBinds
    && OnlyLost(s, r)
  }

  /** A poll that drives sockets no further than ESTABLISHED loses no connection. */
  lemma NoLoss(s: State, ch: Choices, st: SockState, k: SessionKey)
    requires Inv(s) && CycleEnabled(s, ch) && IsPending(PostPass(Polled(s, ch), ch), k)
    requires SlotMap(ch.polled) == Settled(PrePass(s, s.cfg.ifaces, ch).slots, st) && !Past(st)
    ensures var r := PostPass(Polled(s, ch), ch);
            (Lost(r, k) ==> Lost(s, k)) && (st == SockState.Established ==> Lost(r, k))
  {
    var q, p := PrePass(s, s.cfg.ifaces, ch), Polled(s, ch);
    PolledInv(s, ch);
    InvTcp(p);
    PostPassPending(p, ch, k);
    PrePassCarries(s, s.cfg.ifaces, ch, k);
    SettledState(p, q.slots, st, k);
    LostBefore(s, q, p, PostPass(p, ch), st, k);
  }

  lemma LostBefore(s: State, q: State, p: State, r: State, st: SockState, k: SessionKey)
    requires Carried(s, q, k) && p.tcp == q.tcp && IsPending(p, k) && IsPending(r, k) && !Past(st)
    requires StateIn(r, k) == StateIn(p, k) == Toward(StateIn(q, k), st) != SockState.Established
    ensures (Lost(r, k) ==> Lost(s, k)) && (st == SockState.Established ==> Lost(r, k))
  {
  }

  /** A cycle that serves all ingress and drives sockets to `st`. */
  lemma CalmCycle(cfg: Config, s: State, st: SockState) returns (r: State)
    requires Reachable(cfg, s) && !Past(st)
    ensures Reachable(cfg, r) && Leads(s, r) && Idle(r) && r.hist.failedBinds == s.hist.failedBinds
    ensures forall k :: IsPending(r, k) ==> (Lost(r, k) ==> Lost(s, k)) && (st == SockState.Established ==> Lost(r, k))
  {
    var ch;
    ch, r := Settle(cfg, s, 0, true, st);
    ReachableInv(cfg, s);
    PrePassNoFail(s, s.cfg.ifaces, ch);
    PostPassKeeps(Polled(s, ch), ch);
    forall k | IsPending(r, k) ensures (Lost(r, k) ==> Lost(s, k)) && (st == SockState.Established ==> Lost(r, k)) {
      NoLoss(s, ch, st, k);
    }
  }

  /** All ingress is served, and all handshakes complete that are not lost. */
  lemma Calm(cfg: Config, s: State) returns (r: State)
    requires Reachable(cfg, s)
    ensures Calmed(cfg, s, r)
  {
    var m := CalmCycle(cfg, s, SynReceived);
    r := CalmCycle(cfg, m, SockState.Established);
    LeadsFurther(s, m, r);
    ReachableInv(cfg, m);
    forall k | IsPending(r, k) ensures Lost(r, k) && Lost(s, k) {
      assert Lost(m, k);
    }
  }

  /** A step of the application leaves pending connections alone. */
  lemma StillOnlyLost(s: State, t: State, l: Label)
    requires Inv(t) && Enabled(t, l) && !l.Cycle? && OnlyLost(s, t)
    ensures OnlyLost(s, Apply(t, l))
  {
    forall k | IsPending(Apply(t, l), k) ensures Lost(Apply(t, l), k) && Lost(s, k) {
      OtherPending(t, l, k);
    }
  }

  lemma CalmStep(cfg: Config, s: State, t: State, l: Label)
    requires Calmed(cfg, s, t) && Enabled(t, l) && !l.Cycle?
    requires Idle(Apply(t, l)) && Apply(t, l).hist.failedBinds == t.hist.failedBinds
    ensures Calmed(cfg, s, Apply(t, l))
  {
    ReachableInv(cfg, t);
    LeadsOn(s, t, l);
    ReachableStep(cfg, t, l);
    StillOnlyLost(s, t, l);
  }

  lemma StreamDropKeeps(s: State, x: StreamId)
    requires x in s.streams && Idle(s)
    ensures var r := DropStream(s, x);
            && Idle(r) && r.streams == s.streams - {x} && r.sessions == s.sessions
            && r.hist.failedBinds == s.hist.failedBinds
  {
    var r, k := DropStream(s, x), s.streams[x].key;
    CloseKeepsIdle(s.slots, k.iface, s.streams[x].handle);
    assert r.slots == s.slots || r.slots == CloseSocket(s.slots, k.iface, s.streams[x].handle);
  }

  lemma DropOneStream(cfg: Config, s: State, t: State, x: StreamId) returns (r: State)
    requires Calmed(cfg, s, t) && x in t.streams
    ensures Calmed(cfg, s, r) && r.streams == t.streams - {x} && r.sessions == t.sessions
  {
    r := DropStream(t, x);
    assert r == Apply(t, Label.StreamDrop(x));
    StreamDropKeeps(t, x);
    CalmStep(cfg, s, t, Label.StreamDrop(x));
  }

  lemma {:induction false} DropStreams(cfg: Config, s: State, t: State) returns (r: State)
    requires Calmed(cfg, s, t)
    ensures Calmed(cfg, s, r) && r.streams == map[] && r.sessions == t.sessions
    decreases |t.streams|
  {
    if t.streams == map[] {
      r := t;
    } else {
      var x :| x in t.streams;
      DropSize(t.streams, x);
      r := DropOneStream(cfg, s, t, x);
      r := DropStreams(cfg, s, r);
    }
  }

  lemma DropKeepsIdle(s: State, q: QueueId)
    requires Idle(s) && q in s.sessions
    ensures Idle(DropSession(s, q))
  {
    var k, r := s.sessions[q].key, DropSession(s, q);
    RemoveSocketsOnly(s, k);
    forall id, h | HasSocket(r.slots, id, h) && r.slots[id].sockets[h].UdpSock?
      ensures r.slots[id].sockets[h].rx == [] {
      RemoveUdpSockets(s, k, id, h);
    }
  }

  lemma DropOneSession(cfg: Config, s: State, t: State, q: QueueId) returns (r: State)
    requires Calmed(cfg, s, t) && q in t.sessions
    ensures Calmed(cfg, s, r) && r.sessions == t.sessions - {q} && r.streams == t.streams
  {
    r := DropSession(t, q);
    assert r == Apply(t, Label.SessionDrop(q));
    DropKeepsIdle(t, q);
    CalmStep(cfg, s, t, Label.SessionDrop(q));
  }

  lemma {:induction false} DropSessions(cfg: Config, s: State, t: State) returns (r: State)
    requires Calmed(cfg, s, t)
    ensures Calmed(cfg, s, r) && r.sessions == map[] && r.streams == t.streams
    decreases |t.sessions|
  {
    if t.sessions == map[] {
      r := t;
    } else {
      var q :| q in t.sessions;
      DropSize(t.sessions, q);
      r := DropOneSession(cfg, s, t, q);
      r := DropSessions(cfg, s, r);
    }
  }

  /** Once all sockets are closed, a post-pass reaps everything that is not pending, if no stream is left. */
  lemma ClosedOut(t: State, p: State, ch: Choices, k: SessionKey)
    requires Inv(p) && p == t.(slots := Settled(t.slots, SockState.Closed)) && Enumerates(ch.tcpOrder, p.tcp.Keys)
    requires t.streams == map[] && k in PostPass(p, ch).tcp
    ensures IsPending(t, k)
  {
    InvTcp(p);
    InvExposed(p);
    TcpPassEffect(p, ch, k);
    SettledState(p, t.slots, SockState.Closed, k);
    assert !HasStream(p.streams, k);
  }

  /** Beside the connections lost in `s` nothing is listed; what is charged is their cost and that of failed binds. */
  ghost predicate Emptied(s: State, r: State) {
    && r.tcp == (map k | k in s.tcp && Lost(s, k) :: s.tcp[k]) && r.udp == map[] && r.dsts == map[]
    && (forall id, h :: HasSocket(r.slots, id, h) ==> OwnedBySession(r.tcp, id, h))
    && r.hist.failedBinds == s.hist.failedBinds
    && r.bytes == |LostKeys(s)| * (2 * s.cfg.tcpBufferSize) + s.hist.failedBinds * UdpCost(s.cfg, s.cfg.mtu)
  }

  lemma LostTable(s: State, r: State)
    requires Inv(s) && Leads(s, r) && forall k :: k in r.tcp ==> Lost(s, k)
    ensures r.tcp == (map k | k in s.tcp && Lost(s, k) :: s.tcp[k]) && |r.tcp| == |LostKeys(s)|
  {
    LostLeads(s, r);
    assert r.tcp.Keys == LostKeys(s);
  }

  lemma EmptiedOut(s: State, r: State)
    requires Inv(s) && Inv(r) && Leads(s, r) && r.cfg == s.cfg && r.hist.failedBinds == s.hist.failedBinds
    requires r.sessions == map[] && forall k :: k in r.tcp ==> Lost(s, k)
    ensures Emptied(s, r)
  {
    LostTable(s, r);
    InvLinks(r);
    InvCounts(r);
    QuietUdp(r);
    InvLeaks(r);
    InvBudget(r);
    LossTimes(s.cfg, |LostKeys(s)|, s.hist.failedBinds);
  }

  /** All connections close, and those that are not lost are reaped. */
  lemma CloseAll(cfg: Config, s: State, t: State) returns (r: State)
    requires Reachable(cfg, s) && Calmed(cfg, s, t) && t.streams == map[] && t.sessions == map[]
    ensures Reachable(cfg, r) && Leads(s, r) && Idle(r) && Unreapable(r) && Emptied(s, r)
  {
    var ch;
    ch, r := Settle(cfg, t, 0, true, SockState.Closed);
    LeadsFurther(s, t, r);
    IdlePolled(t, ch, 0, true, SockState.Closed);
    PostPassKeeps(Polled(t, ch), ch);
    forall k | k in r.tcp ensures Lost(s, k) {
      ClosedOut(t, Polled(t, ch), ch, k);
    }
    ReachableInv(cfg, s);
    ReachableInv(cfg, r);
    EmptiedOut(s, r);
  }

  /**
   From every reachable state some run leaves exactly the lost connections, and no charge but theirs and those of
   the binds that failed before.
   */
  lemma CanBeEmptied(cfg: Config, s: State) returns (r: State)
    requires Reachable(cfg, s)
    ensures Reachable(cfg, r) && Leads(s, r) && Idle(r) && Unreapable(r) && Emptied(s, r)
  {
    r := Calm(cfg, s);
    r := DropStreams(cfg, s, r);
    r := DropSessions(cfg, s, r);
    r := CloseAll(cfg, s, r);
  }

  // ---- Which destinations can be served ----

  /** Some run from `s` ends with a session listed under `key`. */
  ghost predicate CanBeServed(s: State, key: SessionKey) {
    exists t :: Leads(s, t) && key in t.udp
  }

  lemma NeverServed(cfg: Config, s: State, key: SessionKey, t: State)
    requires Reachable(cfg, s) && DstOf(key) !in s.dsts && (cfg.udpMaxSessions == 0 || Starved(s)) && Leads(s, t)
    ensures key !in t.udp
  {
    ReachableInv(cfg, s);
    ReachableLeads(cfg, s, t);
    ReachableInv(cfg, t);
    InvCaps(t);
    InvCounts(t);
    if Starved(s) {
      var run :| ValidRun(s, run) && After(s, run) == t;
      StarvedRun(s, run);
    }
  }

  lemma OneFits(cfg: Config, lost: nat, failed: nat)
    requires !OneTooMany(cfg, lost, failed)
    ensures Reservable(cfg, LossCost(cfg, lost, failed), UdpCost(cfg, cfg.mtu))
  {
    assert (failed + 1) * UdpCost(cfg, cfg.mtu) == failed * UdpCost(cfg, cfg.mtu) + UdpCost(cfg, cfg.mtu);
  }

  lemma ServedOnce(cfg: Config, s: State, key: SessionKey)
    requires Reachable(cfg, s) && key.proto == Udp && key.iface in cfg.ifaces && cfg.udpMaxSessions >= 1 && !Starved(s)
    ensures CanBeServed(s, key)
  {
    ReachableInv(cfg, s);
    var r := CanBeEmptied(cfg, s);
    OneFits(cfg, |LostKeys(s)|, s.hist.failedBinds);
    IfaceSlot(cfg, r, key.iface);
    var t := UdpAdmitted(cfg, r, key.iface, key.src, key.dst, 0);
    LeadsFurther(s, r, t);
  }

  /**
   A destination without a socket can be served in some future exactly if sessions are allowed and lost connections
   and failed binds leave room for a socket.
   */
  lemma ServedAgainIff(cfg: Config, s: State, key: SessionKey)
    requires Reachable(cfg, s) && key.proto == Udp && key.iface in cfg.ifaces && DstOf(key) !in s.dsts
    ensures CanBeServed(s, key) <==> cfg.udpMaxSessions >= 1 && !Starved(s)
  {
    if cfg.udpMaxSessions >= 1 && !Starved(s) {
      ServedOnce(cfg, s, key);
    } else {
      forall t | Leads(s, t) ensures key !in t.udp {
        NeverServed(cfg, s, key, t);
      }
    }
  }

  // ---- Which connections can be accepted ----

  /** Some run from `s` ends with a stream for `key`. */
  ghost predicate CanConnect(s: State, key: SessionKey) {
    exists t :: Leads(s, t) && HasStream(t.streams, key)
  }

  /** Beside the lost connections and the failed binds, the cap and the limit leave room for a connection. */
  ghost predicate RoomLeft(s: State) {
    && |LostKeys(s)| < s.cfg.tcpMaxConnections
    && Reservable(s.cfg, LossCost(s.cfg, |LostKeys(s)| + 1, s.hist.failedBinds), 0)
  }

  /** A state with a stream for `key` lists every connection lost before, and `key` beside. */
  lemma OneBeside(s: State, t: State, key: SessionKey)
    requires Inv(s) && Inv(t) && Leads(s, t) && HasStream(t.streams, key)
    ensures !Lost(s, key) && |LostKeys(s)| + 1 <= |t.tcp|
  {
    LostLeads(s, t);
    InvExposed(t);
    assert key in t.tcp && !t.tcp[key].state.Pending? && key !in LostKeys(t);
    assert LostKeys(s) + {key} <= t.tcp.Keys;
    SubsetSize(LostKeys(s) + {key}, t.tcp.Keys);
  }

  lemma ConnectsNeeds(cfg: Config, s: State, t: State, key: SessionKey)
    requires Reachable(cfg, s) && Leads(s, t) && HasStream(t.streams, key)
    ensures !Lost(s, key) && RoomLeft(s)
  {
    ReachableInv(cfg, s);
    ReachableLeads(cfg, s, t);
    ReachableInv(cfg, t);
    OneBeside(s, t, key);
    InvCaps(t);
    InvBudget(t);
    var run :| ValidRun(s, run) && After(s, run) == t;
    RunFailedBinds(s, run);
    LossCharged(t, |LostKeys(s)| + 1, s.hist.failedBinds);
  }

  lemma OneMoreFits(cfg: Config, lost: nat, failed: nat)
    ensures LossCost(cfg, lost + 1, failed) == LossCost(cfg, lost, failed) + 2 * cfg.tcpBufferSize
  {
    LossTimes(cfg, lost, failed);
    LossTimes(cfg, lost + 1, failed);
  }

  lemma ConnectsOnce(cfg: Config, s: State, key: SessionKey)
    requires Reachable(cfg, s) && key.proto == Tcp && key.iface in cfg.ifaces && !Lost(s, key) && RoomLeft(s)
    ensures CanConnect(s, key)
  {
    ReachableInv(cfg, s);
    var r := CanBeEmptied(cfg, s);
    LostTable(s, r);
    OneMoreFits(cfg, |LostKeys(s)|, s.hist.failedBinds);
    IfaceSlot(cfg, r, key.iface);
    var t := Handshake(cfg, r, key);
    ReachableInv(cfg, t);
    AcceptedHasStream(t, key);
    LeadsFurther(s, r, t);
  }

  lemma AcceptedHasStream(t: State, key: SessionKey)
    requires Inv(t) && Entered(t, key, SockState.Established)
    ensures HasStream(t.streams, key)
  {
    InvExposed(t);
  }

  /**
   A connection can get a stream in some future exactly if it is not itself lost, and the lost ones and the failed
   binds leave room for one.
   */
  lemma ConnectsAgainIff(cfg: Config, s: State, key: SessionKey)
    requires Reachable(cfg, s) && key.proto == Tcp && key.iface in cfg.ifaces
    ensures CanConnect(s, key) <==> !Lost(s, key) && RoomLeft(s)
  {
    if !Lost(s, key) && RoomLeft(s) {
      ConnectsOnce(cfg, s, key);
    }
    forall t | Leads(s, t) && HasStream(t.streams, key) ensures !Lost(s, key) && RoomLeft(s) {
      ConnectsNeeds(cfg, s, t, key);
    }
  }

  /** In particular a listed connection can unless it is lost. */
  lemma ListedConnectsIff(cfg: Config, s: State, k: SessionKey)
    requires Reachable(cfg, s) && k in s.tcp
    ensures CanConnect(s, k) <==> !Lost(s, k)
  {
    ReachableInv(cfg, s);
    InvShape(s);
    InvTcp(s);
    if !Lost(s, k) {
      InvCaps(s);
      InvBudget(s);
      SubsetSize(LostKeys(s) + {k}, s.tcp.Keys);
      LossCharged(s, |LostKeys(s)| + 1, s.hist.failedBinds);
    }
    ConnectsAgainIff(cfg, s, k);
  }
}

/**
 What a run never gives back: the charges of failed binds and of lost connections, and TCP entries whose handshake
 is never seen to complete.
 */
module Permanence {
  import opened Types
  import opened Counting
  import opened Ops
  import opened Invariant
  import opened PreserveAlloc
  import opened PrePassFacts
  import opened Runs
  import opened Lifecycle
  import opened Traces
  import opened Witness
  import opened Feeding
  import opened SocketStates
  import opened Scenarios
  import opened Losses

  // ---- Failed binds ----

  lemma StepFailedBinds(s: State, l: Label)
    requires Enabled(s, l)
    ensures s.hist.failedBinds <= Apply(s, l).hist.failedBinds
  {
    if l.Cycle? {
      PrePassGrows(s, s.cfg.ifaces, l.ch);
    }
  }

  lemma {:induction false} RunFailedBinds(s: State, run: seq<Label>)
    requires ValidRun(s, run)
    ensures s.hist.failedBinds <= After(s, run).hist.failedBinds
    decreases |run|
  {
    if run != [] {
      StepFailedBinds(s, run[0]);
      RunFailedBinds(Apply(s, run[0]), run[1..]);
    }
  }

  lemma {:induction false} ReachableRun(cfg: Config, s: State, run: seq<Label>)
    requires Reachable(cfg, s) && ValidRun(s, run)
    ensures Reachable(cfg, After(s, run))
    decreases |run|
  {
    if run != [] {
      ReachableStep(cfg, s, run[0]);
      ReachableRun(cfg, Apply(s, run[0]), run[1..]);
    }
  }

  /** What `lost` connections and `failed` binds cost. */
  ghost function LossCost(cfg: Config, lost: nat, failed: nat): nat {
    lost * (2 * cfg.tcpBufferSize) + failed * UdpCost(cfg, cfg.mtu)
  }

  lemma LossTimes(cfg: Config, lost: nat, failed: nat)
    ensures LossCost(cfg, lost, failed) == Times(lost, 2 * cfg.tcpBufferSize) + Times(failed, UdpCost(cfg, cfg.mtu))
  {
    TimesIsProduct(lost, 2 * cfg.tcpBufferSize);
    TimesIsProduct(failed, UdpCost(cfg, cfg.mtu));
  }

  lemma LossMono(cfg: Config, a: nat, b: nat, c: nat, d: nat)
    requires a <= c && b <= d
    ensures LossCost(cfg, a, b) <= LossCost(cfg, c, d)
  {
    LossTimes(cfg, a, b);
    LossTimes(cfg, c, d);
    TimesMono(a, c, 2 * cfg.tcpBufferSize);
    TimesMono(b, d, UdpCost(cfg, cfg.mtu));
  }

  lemma LossCharged(t: State, lost: nat, failed: nat)
    requires Budget(t.cfg, t.bytes, |t.tcp|, |t.dsts|, t.hist.failedBinds)
    requires lost <= |t.tcp| && failed <= t.hist.failedBinds
    ensures t.bytes >= LossCost(t.cfg, lost, failed)
  {
    LossTimes(t.cfg, |t.tcp|, |t.dsts| + t.hist.failedBinds);
    LossMono(t.cfg, lost, failed, |t.tcp|, |t.dsts| + t.hist.failedBinds);
  }

  lemma LostListed(s: State)
    ensures |LostKeys(s)| <= |s.tcp|
  {
    SubsetSize(LostKeys(s), s.tcp.Keys);
  }

  /** Losses only grow. */
  lemma LossesGrow(s: State, run: seq<Label>)
    requires Inv(s) && ValidRun(s, run)
    ensures var t := After(s, run);
            |LostKeys(s)| <= |LostKeys(t)| <= |t.tcp| && s.hist.failedBinds <= t.hist.failedBinds
  {
    var t := After(s, run);
    assert Leads(s, t);
    LostLeads(s, t);
    SubsetSize(LostKeys(s), LostKeys(t));
    LostListed(t);
    RunFailedBinds(s, run);
  }

  /** Whatever happens later, the connections lost and the binds failed so far stay charged. */
  lemma ChargesNeverReturned(cfg: Config, s: State, run: seq<Label>)
    requires Reachable(cfg, s) && ValidRun(s, run)
    ensures After(s, run).bytes >= |LostKeys(s)| * (2 * cfg.tcpBufferSize) + s.hist.failedBinds * UdpCost(cfg, cfg.mtu)
  {
    var t := After(s, run);
    ReachableInv(cfg, s);
    LossesGrow(s, run);
    ReachableRun(cfg, s, run);
    ReachableInv(cfg, t);
    InvBudget(t);
    LossCharged(t, |LostKeys(s)|, s.hist.failedBinds);
  }

  /** Losses leave less of the limit than one UDP socket costs. */
  ghost predicate Starved(s: State) {
    OneTooMany(s.cfg, |LostKeys(s)|, s.hist.failedBinds)
  }

  /** Beside so many lost connections and failed binds, one more UDP socket does not fit. */
  ghost predicate OneTooMany(cfg: Config, lost: nat, failed: nat) {
    cfg.maxBufferBytes.Some? && LossCost(cfg, lost, failed + 1) > cfg.maxBufferBytes.value
  }

  /** At least `lost` connections are listed, which together with the failed binds leave no room for a UDP socket. */
  ghost predicate Full(s: State, lost: nat) {
    lost <= |s.tcp| && OneTooMany(s.cfg, lost, s.hist.failedBinds)
  }

  lemma FullRefuses(s: State, id: InterfaceId, lost: nat)
    requires Shape(s.cfg, s.slots) && Budget(s.cfg, s.bytes, |s.tcp|, |s.dsts|, s.hist.failedBinds)
    requires Full(s, lost) && id in s.slots
    ensures !Reservable(s.cfg, s.bytes, UdpCost(s.cfg, s.slots[id].mtu))
  {
    SlotCosts(s.cfg, s.slots, id);
    LossCharged(s, lost, s.hist.failedBinds);
    LossTimes(s.cfg, lost, s.hist.failedBinds);
    LossTimes(s.cfg, lost, s.hist.failedBinds + 1);
  }

  /** No destination is added and no further bind is tried. */
  ghost predicate NoNewDsts(s: State, t: State) {
    t.cfg == s.cfg && t.hist.failedBinds == s.hist.failedBinds && t.dsts.Keys <= s.dsts.Keys
  }

  lemma RefusedUdp(s: State, key: SessionKey, binds: bool, h: Handle, now: Instant)
    requires key.iface in s.slots && !Reservable(s.cfg, s.bytes, UdpCost(s.cfg, s.slots[key.iface].mtu))
    ensures NoNewDsts(s, AllocUdp(s, key, binds, h, now))
  {
  }

  lemma FullPacket(s: State, id: InterfaceId, j: nat, pkt: Packet, ch: Choices, lost: nat)
    requires Inv(s) && Full(s, lost) && id in s.slots
    ensures var t := PacketStep(s, id, j, pkt, ch); NoNewDsts(s, t) && Full(t, lost)
  {
    var t := PacketStep(s, id, j, pkt, ch);
    InvShape(s);
    InvBudget(s);
    FullRefuses(s, id, lost);
    PacketStepGrows(s, id, j, pkt, ch);
    SubsetSize(s.tcp.Keys, t.tcp.Keys);
    if pkt.UdpPacket? {
      RefusedUdp(s, SessionKey(id, Udp, pkt.src, pkt.dst), ch.opens(id, j), ch.pick(id, s.slots[id].sockets.Keys),
        ch.now);
    }
  }

  lemma {:induction false} FullPackets(s: State, id: InterfaceId, j: nat, pkts: seq<Packet>, ch: Choices, lost: nat)
    requires Inv(s) && FreshPicks(ch) && Full(s, lost) && id in s.slots && j <= |pkts|
    ensures var t := Packets(s, id, j, pkts, ch); NoNewDsts(s, t) && Full(t, lost)
    decreases |pkts| - j
  {
    if j < |pkts| {
      FullPacket(s, id, j, pkts[j], ch, lost);
      PacketStepInv(s, id, j, pkts[j], ch);
      FullPackets(PacketStep(s, id, j, pkts[j], ch), id, j + 1, pkts, ch, lost);
    }
  }

  lemma {:induction false} FullPrePass(s: State, ids: seq<InterfaceId>, ch: Choices, lost: nat)
    requires Inv(s) && FreshPicks(ch) && Full(s, lost) && forall id :: id in ids ==> id in s.slots
    ensures NoNewDsts(s, PrePass(s, ids, ch))
    decreases |ids|
  {
    if ids != [] {
      WithIngressInv(s, ids[0], []);
      FullPackets(WithIngress(s, ids[0], []), ids[0], 0, s.slots[ids[0]].ingress, ch, lost);
      PreSlotInv(s, ids[0], ch);
      FullPrePass(PreSlot(s, ids[0], ch), ids[1..], ch, lost);
    }
  }

  lemma RemoveDsts(s: State, k: SessionKey)
    ensures RemoveUdp(s, k).dsts.Keys <= s.dsts.Keys
  {
  }

  lemma {:induction false} RemoveAllDsts(s: State, ks: seq<SessionKey>)
    ensures RemoveAll(s, ks).dsts.Keys <= s.dsts.Keys
    decreases |ks|
  {
    if ks != [] {
      RemoveDsts(s, ks[0]);
      RemoveAllDsts(RemoveUdp(s, ks[0]), ks[1..]);
    }
  }

  lemma PostPassDsts(s: State, ch: Choices)
    ensures NoNewDsts(s, PostPass(s, ch))
  {
    var u := Redistribute(TcpPass(s, ch), ch);
    RemoveAllDsts(u, ExpiredList(u, ch.udpOrder, ch.now));
  }

  lemma StarvedCycle(s: State, ch: Choices)
    requires Inv(s) && Starved(s) && CycleEnabled(s, ch)
    ensures NoNewDsts(s, PostPass(Polled(s, ch), ch))
  {
    LostListed(s);
    FullPrePass(s, s.cfg.ifaces, ch, |LostKeys(s)|);
    PostPassDsts(Polled(s, ch), ch);
  }

  lemma StarvedStep(s: State, l: Label)
    requires Inv(s) && Starved(s) && Enabled(s, l)
    ensures NoNewDsts(s, Apply(s, l))
  {
    if l.Cycle? {
      StarvedCycle(s, l.ch);
    } else {
      OtherDsts(s, l);
    }
  }

  lemma OtherDsts(s: State, l: Label)
    requires Enabled(s, l) && !l.Cycle?
    ensures NoNewDsts(s, Apply(s, l))
  {
    if l.SessionDrop? {
      RemoveDsts(s, s.sessions[l.q].key);
    }
  }

  lemma SingleStep(s: State, l: Label)
    requires Enabled(s, l)
    ensures ValidRun(s, [l]) && After(s, [l]) == Apply(s, l)
  {
    ExtendRun(s, [], l);
    assert [] + [l] == [l];
  }

  lemma StillStarved(s: State, t: State)
    requires Starved(s) && t.cfg == s.cfg && |LostKeys(s)| <= |LostKeys(t)| && s.hist.failedBinds <= t.hist.failedBinds
    ensures Starved(t)
  {
    LossMono(s.cfg, |LostKeys(s)|, s.hist.failedBinds + 1, |LostKeys(t)|, t.hist.failedBinds + 1);
  }

  lemma LossesStep(s: State, l: Label)
    requires Inv(s) && Enabled(s, l)
    ensures |LostKeys(s)| <= |LostKeys(Apply(s, l))|
  {
    SingleStep(s, l);
    LossesGrow(s, [l]);
  }

  lemma {:induction false} StarvedRun(s: State, run: seq<Label>)
    requires Inv(s) && Starved(s) && ValidRun(s, run)
    ensures NoNewDsts(s, After(s, run)) && Starved(After(s, run))
    decreases |run|
  {
    if run != [] {
      StarvedStep(s, run[0]);
      LossesStep(s, run[0]);
      StillStarved(s, Apply(s, run[0]));
      ApplyInv(s, run[0]);
      StarvedRun(Apply(s, run[0]), run[1..]);
    }
  }

  lemma RefusedNow(s: State, key: SessionKey, binds: bool, h: Handle, now: Instant)
    requires Inv(s) && Starved(s) && key.iface in s.cfg.ifaces && DstOf(key) !in s.dsts
    ensures key.iface in s.slots && AllocUdp(s, key, binds, h, now) == s
  {
    InvShape(s);
    InvBudget(s);
    LostListed(s);
    FullRefuses(s, key.iface, |LostKeys(s)|);
  }

  /**
   Once lost connections and failed binds leave less than a socket's cost, no destination without a socket ever
   gets one again: every later allocation for one is refused, and the set of shared sockets only shrinks.
   */
  lemma RefusedForever(cfg: Config, s: State, run: seq<Label>, key: SessionKey, binds: bool, h: Handle, now: Instant)
    requires Reachable(cfg, s) && Starved(s) && ValidRun(s, run) && key.iface in cfg.ifaces && DstOf(key) !in s.dsts
    ensures var t := After(s, run);
            t.dsts.Keys <= s.dsts.Keys && key.iface in t.slots && AllocUdp(t, key, binds, h, now) == t
  {
    ReachableInv(cfg, s);
    StarvedRun(s, run);
    ReachableRun(cfg, s, run);
    ReachableInv(cfg, After(s, run));
    RefusedNow(After(s, run), key, binds, h, now);
  }

  /** With a limit set, failing binds alone lead to such a state, in which no session and no socket exists. */
  lemma StarvedReachable(cfg: Config, id: InterfaceId, src: Endpoint, dst: Endpoint) returns (s: State)
    requires NoDup(cfg.ifaces) && id in cfg.ifaces && cfg.udpMaxSessions >= 1 && cfg.maxBufferBytes.Some?
    ensures Reachable(cfg, s) && Starved(s) && s.tcp == map[] && s.udp == map[] && s.dsts == map[]
  {
    var u := UdpCost(cfg, cfg.mtu);
    var m := LastFit(u, cfg.maxBufferBytes.value);
    TimesIsProduct(m, u);
    TimesIsProduct(m + 1, u);
    s := LeakReachable(cfg, id, src, dst, m);
    ReachableInv(cfg, s);
    LossTimes(cfg, 0, m + 1);
    assert LostKeys(s) == {};
  }

  /** So do lost connections alone, as many as leave less than a socket's cost, without any failed bind. */
  lemma StarvedByLoss(cfg: Config, id: InterfaceId, n: nat) returns (s: State)
    requires NoDup(cfg.ifaces) && id in cfg.ifaces && n <= cfg.tcpMaxConnections && cfg.maxBufferBytes.Some?
    requires var cost := n * (2 * cfg.tcpBufferSize);
             cost <= cfg.maxBufferBytes.value < cost + UdpCost(cfg, cfg.mtu)
    ensures Reachable(cfg, s) && Starved(s) && s.hist.failedBinds == 0 && s.udp == map[] && s.dsts == map[]
  {
    s := LostReachable(cfg, id, n);
    ReachableInv(cfg, s);
    assert |s.tcp| == |s.tcp.Keys|;
  }

  // ---- Entries that stay pending ----

  /** No cycle of the run finds the socket of the entry under `k` established. */
  ghost predicate NeverEstablished(s: State, run: seq<Label>, k: SessionKey)
    requires ValidRun(s, run) && k in s.tcp
    decreases |run|
  {
    run != [] ==>
      && (run[0].Cycle? ==> SockStateOf(Polled(s, run[0].ch).slots, k, s.tcp[k]) != SockState.Established)
      && (k in Apply(s, run[0]).tcp ==> NeverEstablished(Apply(s, run[0]), run[1..], k))
  }

  lemma PendingCycle(s: State, ch: Choices, k: SessionKey)
    requires Inv(s) && CycleEnabled(s, ch) && k in s.tcp && s.tcp[k].state.Pending?
    requires SockStateOf(Polled(s, ch).slots, k, s.tcp[k]) != SockState.Established
    ensures var r := PostPass(Polled(s, ch), ch); k in r.tcp && r.tcp[k] == s.tcp[k]
  {
    InvExposed(s);
    CycleTcp(s, ch, k);
  }

  lemma PendingStep(s: State, l: Label, k: SessionKey)
    requires Inv(s) && Enabled(s, l) && k in s.tcp && s.tcp[k].state.Pending?
    requires l.Cycle? ==> SockStateOf(Polled(s, l.ch).slots, k, s.tcp[k]) != SockState.Established
    ensures k in Apply(s, l).tcp && Apply(s, l).tcp[k] == s.tcp[k]
  {
    if l.Cycle? {
      PendingCycle(s, l.ch, k);
    } else if l.StreamDrop? {
      InvExposed(s);
      DropStreamTable(s, l.x);
    } else {
      OtherSteps(s, l);
    }
  }

  /** An entry that is never seen established stays listed, unchanged, to the end of any run. */
  lemma {:induction false} PendingForever(s: State, run: seq<Label>, k: SessionKey)
    requires Inv(s) && ValidRun(s, run) && k in s.tcp && s.tcp[k].state.Pending? && NeverEstablished(s, run, k)
    ensures k in After(s, run).tcp && After(s, run).tcp[k] == s.tcp[k]
    decreases |run|
  {
    if run != [] {
      PendingStep(s, run[0], k);
      ApplyInv(s, run[0]);
      PendingForever(Apply(s, run[0]), run[1..], k);
    }
  }

  /** A step does something under a pending key exactly if it is a cycle that finds its socket established. */
  lemma PendingEvents(s: State, l: Label, k: SessionKey)
    requires Inv(s) && Enabled(s, l) && k in s.tcp && s.tcp[k].state.Pending?
    ensures StepEvents(s, l, k) != [] <==>
              l.Cycle? && SockStateOf(Polled(s, l.ch).slots, k, s.tcp[k]) == SockState.Established
  {
    InvExposed(s);
    if l.Cycle? {
      PrePassGrows(s, s.cfg.ifaces, l.ch);
      AcceptedIff(s, l.ch, k);
      if !FoundEstablished(Polled(s, l.ch), k) {
        NoEvents(s, l.ch, k);
      }
    } else {
      forall e ensures e !in StepEvents(s, l, k) {
        OtherMeans(s, l, k, e);
      }
      NoMembers(StepEvents(s, l, k));
    }
  }

  lemma NoMembers(es: seq<Event>)
    ensures (forall e :: e !in es) ==> es == []
  {
    if es != [] {
      assert es[0] in es;
    }
  }

  lemma NoEvents(s: State, ch: Choices, k: SessionKey)
    requires Inv(s) && CycleEnabled(s, ch) && k in s.tcp && s.tcp[k].state.Pending? &&
             !FoundEstablished(Polled(s, ch), k)
    ensures StepEvents(s, Cycle(ch), k) == []
  {
    InvExposed(s);
    AcceptedIff(s, ch, k);
    forall e ensures e !in StepEvents(s, Cycle(ch), k) {
      CycleMeans(s, ch, k, e);
    }
    NoMembers(StepEvents(s, Cycle(ch), k));
  }

  /** Nothing ever happens to a pending entry exactly if no cycle finds its socket established. */
  lemma {:induction false} PendingIff(s: State, run: seq<Label>, k: SessionKey)
    requires Inv(s) && ValidRun(s, run) && k in s.tcp && s.tcp[k].state.Pending?
    ensures Trace(s, run, k) == [] <==> NeverEstablished(s, run, k)
    decreases |run|
  {
    if run != [] {
      var t := Apply(s, run[0]);
      PendingEvents(s, run[0], k);
      if StepEvents(s, run[0], k) == [] {
        PendingStep(s, run[0], k);
        ApplyInv(s, run[0]);
        PendingIff(t, run[1..], k);
        assert Trace(s, run, k) == [] + Trace(t, run[1..], k) == Trace(t, run[1..], k);
      }
    }
  }

  /** The run consists of cycles that leave every handshake where it is. */
  ghost predicate Stuck(s: State, run: seq<Label>) {
    && ValidRun(s, run) && (forall l :: l in run ==> l.Cycle?)
    && (forall k :: IsPending(s, k) ==> NeverEstablished(s, run, k))
  }

  /** Any number of cycles can go by without any handshake completing. */
  lemma {:induction false} StuckRun(cfg: Config, s: State, m: nat) returns (run: seq<Label>)
    requires Reachable(cfg, s)
    ensures |run| == m && Stuck(s, run)
    decreases m
  {
    if m == 0 {
      run := [];
    } else {
      var ch, r := Settle(cfg, s, 0, true, SynReceived);
      var rest := StuckRun(cfg, r, m - 1);
      run := [Cycle(ch)] + rest;
      StuckCycle(cfg, s, ch, rest);
    }
  }

  lemma StuckCycle(cfg: Config, s: State, ch: Choices, rest: seq<Label>)
    requires Reachable(cfg, s) && CycleEnabled(s, ch) && Stuck(Apply(s, Cycle(ch)), rest)
    requires SlotMap(ch.polled) == Settled(PrePass(s, s.cfg.ifaces, ch).slots, SynReceived)
    ensures Stuck(s, [Cycle(ch)] + rest)
  {
    ReachableInv(cfg, s);
    CycleFirst(s, ch, rest);
    forall k | IsPending(s, k) ensures NeverEstablished(s, [Cycle(ch)] + rest, k) {
      EarlyOrLost(cfg, s, k);
      NotEstablished(s, ch, k);
      PendingStep(s, Cycle(ch), k);
      assert IsPending(Apply(s, Cycle(ch)), k);
      StuckLonger(s, ch, rest, k);
    }
  }

  lemma CycleFirst(s: State, ch: Choices, rest: seq<Label>)
    requires CycleEnabled(s, ch) && ValidRun(Apply(s, Cycle(ch)), rest)
    ensures ValidRun(s, [Cycle(ch)] + rest)
  {
    var run := [Cycle(ch)] + rest;
    assert run[0] == Cycle(ch) && run[1..] == rest;
  }

  lemma StuckLonger(s: State, ch: Choices, rest: seq<Label>, k: SessionKey)
    requires CycleEnabled(s, ch) && ValidRun(s, [Cycle(ch)] + rest) && ValidRun(Apply(s, Cycle(ch)), rest) && k in s.tcp
    requires SockStateOf(Polled(s, ch).slots, k, s.tcp[k]) != SockState.Established
    requires k in Apply(s, Cycle(ch)).tcp ==> NeverEstablished(Apply(s, Cycle(ch)), rest, k)
    ensures NeverEstablished(s, [Cycle(ch)] + rest, k)
  {
    var run := [Cycle(ch)] + rest;
    assert run[0] == Cycle(ch) && run[1..] == rest;
  }

  lemma NotEstablished(s: State, ch: Choices, k: SessionKey)
    requires Inv(s) && CycleEnabled(s, ch) && k in s.tcp && StateIn(s, k) != SockState.Established
    requires SlotMap(ch.polled) == Settled(PrePass(s, s.cfg.ifaces, ch).slots, SynReceived)
    ensures SockStateOf(Polled(s, ch).slots, k, s.tcp[k]) != SockState.Established
  {
    var p := Polled(s, ch);
    PolledInv(s, ch);
    InvTcp(p);
    PrePassCarries(s, s.cfg.ifaces, ch, k);
    SettledState(p, PrePass(s, s.cfg.ifaces, ch).slots, SynReceived, k);
  }

  /** A table full of such entries never changes again, so that every later SYN of a new connection is refused. */
  lemma FullTableForever(cfg: Config, s: State, run: seq<Label>,
                         id: InterfaceId, j: nat, src: Endpoint, dst: Endpoint, syn: bool, ch: Choices)
    requires Reachable(cfg, s) && ValidRun(s, run) && |s.tcp| >= cfg.tcpMaxConnections && id in cfg.ifaces
    requires forall k :: k in s.tcp ==> s.tcp[k].state.Pending? && NeverEstablished(s, run, k)
    ensures var t := After(s, run);
              t.tcp == s.tcp && id in t.slots && PacketStep(t, id, j, TcpPacket(src, dst, syn), ch) == t
  {
    var t := After(s, run);
    ReachableInv(cfg, s);
    forall k | k in s.tcp ensures k in t.tcp && t.tcp[k] == s.tcp[k] {
      PendingForever(s, run, k);
    }
    ReachableRun(cfg, s, run);
    ReachableInv(cfg, t);
    InvShape(t);
    InvCaps(t);
    SubsetSize(s.tcp.Keys, t.tcp.Keys);
  }

  /**
   Whenever the limit admits a full table, some run fills it with entries that any number of further cycles leave as
   they are, so that no connection is served in any of them.
   */
  lemma FullTableReachable(cfg: Config, id: InterfaceId, m: nat) returns (s: State, run: seq<Label>)
    requires NoDup(cfg.ifaces) && id in cfg.ifaces &&
             Reservable(cfg, 0, cfg.tcpMaxConnections * (2 * cfg.tcpBufferSize))
    ensures Reachable(cfg, s) && |s.tcp| == cfg.tcpMaxConnections && |run| == m && ValidRun(s, run)
    ensures forall k :: k in s.tcp ==> s.tcp[k].state.Pending? && NeverEstablished(s, run, k)
    ensures After(s, run).tcp == s.tcp
  {
    s := PendingReachable(cfg, id, cfg.tcpMaxConnections);
    run := StuckRun(cfg, s, m);
    assert forall k :: k in s.tcp ==> IsPending(s, k);
    FullTableForever(cfg, s, run, id, 0, Client(0), SERVER, true,
      Choices(0, Constantly(true), AboveHandles(), [], [], [], []));
  }
}

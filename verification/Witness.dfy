/**
 Cycles that exist: whatever the outcome of listens and binds, a poll cycle is always
 possible; and the states in which a pre-pass has nothing to do.
 */
module Witness {
  import opened Types
  import opened Connections
  import opened Ops
  import opened Invariant
  import opened PreserveAlloc
  import opened PrePassFacts
  import opened Runs

  // ---- Choices for a cycle ----

  ghost function Above(live: set<Handle>): (h: Handle)
    ensures forall x :: x in live ==> x < h
  {
    if live == {} then 0
    else
      var x :| x in live;
      var rest := Above(live - {x});
      assert forall y :: y in live ==> y == x || y in live - {x};
      if x < rest then rest else x + 1
  }

  ghost function AboveHandles(): (InterfaceId, set<Handle>) -> Handle {
    (id: InterfaceId, live: set<Handle>) => Above(live)
  }

  ghost function Constantly(open: bool): (InterfaceId, nat) -> bool {
    (id: InterfaceId, j: nat) => open
  }

  lemma {:induction false} EnumerateSet<T(!new)>(keys: set<T>) returns (xs: seq<T>)
    ensures Enumerates(xs, keys)
    decreases keys
  {
    if keys == {} {
      xs := [];
    } else {
      var x :| x in keys;
      var rest := EnumerateSet(keys - {x});
      xs := [x] + rest;
    }
  }

  /** The pre-pass reads the clock, the outcomes and the handle choice, and nothing else of a cycle's choices. */
  ghost predicate SamePre(a: Choices, b: Choices) {
    a.now == b.now && a.opens == b.opens && a.pick == b.pick
  }

  lemma {:induction false} PacketsRead(s: State, id: InterfaceId, j: nat, pkts: seq<Packet>, a: Choices, b: Choices)
    requires id in s.slots && j <= |pkts| && SamePre(a, b)
    ensures Packets(s, id, j, pkts, a) == Packets(s, id, j, pkts, b)
    decreases |pkts| - j
  {
    if j < |pkts| {
      assert PacketStep(s, id, j, pkts[j], a) == PacketStep(s, id, j, pkts[j], b);
      PacketsRead(PacketStep(s, id, j, pkts[j], a), id, j + 1, pkts, a, b);
    }
  }

  lemma {:induction false} PrePassReads(s: State, ids: seq<InterfaceId>, a: Choices, b: Choices)
    requires SamePre(a, b) && forall id :: id in ids ==> id in s.slots
    ensures PrePass(s, ids, a) == PrePass(s, ids, b)
    decreases |ids|
  {
    if ids != [] {
      PacketsRead(WithIngress(s, ids[0], []), ids[0], 0, s.slots[ids[0]].ingress, a, b);
      PrePassReads(PreSlot(s, ids[0], a), ids[1..], a, b);
    }
  }

  /** The slots after a poll that consumes all ingress and drives TCP sockets to `st`. */
  ghost function Settled(slots: map<InterfaceId, Slot>, st: SockState): map<InterfaceId, Slot> {
    map id | id in slots :: slots[id].(ingress := [], sockets := Restated(slots[id].sockets, st))
  }

  ghost function Restated(sockets: map<Handle, Socket>, st: SockState): map<Handle, Socket> {
    map h | h in sockets ::
      if sockets[h].TcpSock? then sockets[h].(state := Toward(sockets[h].state, st)) else sockets[h]
  }

  ghost function InOrder(slots: map<InterfaceId, Slot>, ids: seq<InterfaceId>): seq<Slot>
    requires forall id :: id in ids ==> id in slots
  {
    if ids == [] then [] else [slots[ids[0]]] + InOrder(slots, ids[1..])
  }

  lemma {:induction false} InOrderAt(slots: map<InterfaceId, Slot>, ids: seq<InterfaceId>)
    requires forall id :: id in ids ==> id in slots
    ensures |InOrder(slots, ids)| == |ids|
    ensures forall i :: 0 <= i < |ids| ==> InOrder(slots, ids)[i] == slots[ids[i]]
  {
    if ids != [] {
      InOrderAt(slots, ids[1..]);
    }
  }

  lemma InOrderMap(cfg: Config, slots: map<InterfaceId, Slot>)
    requires Shape(cfg, slots)
    ensures var polled := InOrder(slots, cfg.ifaces); HasIds(polled, cfg.ifaces) && SlotMap(polled) == slots
  {
    var polled := InOrder(slots, cfg.ifaces);
    InOrderAt(slots, cfg.ifaces);
    SlotMapLookup(polled, cfg.ifaces);
    assert SlotMap(polled).Keys == slots.Keys;
    forall id | id in slots ensures SlotMap(polled)[id] == slots[id] {
      var i :| 0 <= i < |cfg.ifaces| && cfg.ifaces[i] == id;
    }
  }

  lemma SettledPolls(slots: map<InterfaceId, Slot>, st: SockState)
    ensures EnginePolls(slots, Settled(slots, st))
  {
  }

  lemma SettledShape(cfg: Config, slots: map<InterfaceId, Slot>, st: SockState)
    requires Shape(cfg, slots)
    ensures Shape(cfg, Settled(slots, st))
  {
  }

  /** Every listen and bind of the cycle succeeds, or every one fails. */
  ghost predicate Opens(ch: Choices, open: bool) {
    forall id, j :: ch.opens(id, j) == open
  }

  /** `ch` is a cycle at time `now` in which listens and binds go as `open` says and the poll settles the slots. */
  ghost predicate SettlingCycle(s: State, ch: Choices, now: Instant, open: bool, st: SockState) {
    && CycleEnabled(s, ch) && ch.now == now && Opens(ch, open)
    && SlotMap(ch.polled) == Settled(PrePass(s, s.cfg.ifaces, ch).slots, st)
  }

  /** From any state with the invariant such a cycle can be taken. */
  lemma SomeCycle(s: State, now: Instant, open: bool, st: SockState) returns (ch: Choices)
    requires Inv(s)
    ensures SettlingCycle(s, ch, now, open, st)
  {
    var draft := Choices(now, Constantly(open), AboveHandles(), [], [], [], []);
    assert FreshPicks(draft);
    InvShape(s);
    PrePassInv(s, s.cfg.ifaces, draft);
    var p := PrePass(s, s.cfg.ifaces, draft);
    InvShape(p);
    ch := CompleteCycle(s, draft, p, st);
    assert Opens(ch, open);
  }

  lemma CompleteCycle(s: State, draft: Choices, p: State, st: SockState) returns (ch: Choices)
    requires Mapped(s) && FreshPicks(draft) && p == PrePass(s, s.cfg.ifaces, draft) && Shape(s.cfg, p.slots)
    ensures CycleEnabled(s, ch) && SamePre(draft, ch) &&
            SlotMap(ch.polled) == Settled(PrePass(s, s.cfg.ifaces, ch).slots, st)
  {
    var tcpOrder := EnumerateSet(p.tcp.Keys);
    var dstOrder := EnumerateSet(p.dsts.Keys);
    var udpOrder := EnumerateSet(p.udp.Keys);
    var slots := Settled(p.slots, st);
    SettledShape(s.cfg, p.slots, st);
    InOrderMap(s.cfg, slots);
    SettledPolls(p.slots, st);
    ch := draft.(polled := InOrder(slots, s.cfg.ifaces), tcpOrder := tcpOrder, dstOrder := dstOrder,
      udpOrder := udpOrder);
    PrePassReads(s, s.cfg.ifaces, draft, ch);
  }

  /** No pre-pass, whatever opens, changes the state. */
  ghost predicate PrePassStable(s: State)
    requires Mapped(s)
  {
    forall ch :: PrePass(s, s.cfg.ifaces, ch) == s
  }

  /** Every queued packet is already served, refused or ignored. */
  ghost predicate IngressInert(s: State)
    requires Mapped(s)
  {
    forall id :: id in s.cfg.ifaces ==> AllInert(s, id, s.slots[id].ingress)
  }

  lemma InertIsStable(s: State)
    requires Mapped(s) && IngressInert(s)
    ensures PrePassStable(s)
  {
    forall ch ensures PrePass(s, s.cfg.ifaces, ch) == s {
      InertPrePass(s, s.cfg.ifaces, ch);
    }
  }

  lemma StableIsInert(s: State)
    requires Inv(s) && Mapped(s) && PrePassStable(s)
    ensures IngressInert(s)
  {
    var ch := Choices(0, Constantly(true), AboveHandles(), [], [], [], []);
    assert FreshPicks(ch) && PrePass(s, s.cfg.ifaces, ch) == s;
    forall id | id in s.cfg.ifaces ensures AllInert(s, id, s.slots[id].ingress) {
      PrePassMakesInert(s, s.cfg.ifaces, ch, id);
    }
  }

  /** The pre-pass leaves a state alone exactly if its queued packets leave it nothing to do. */
  lemma PrePassStableIff(cfg: Config, s: State)
    requires Reachable(cfg, s)
    ensures Mapped(s) && (PrePassStable(s) <==> IngressInert(s))
  {
    ReachableInv(cfg, s);
    InvShape(s);
    if IngressInert(s) {
      InertIsStable(s);
    }
    if PrePassStable(s) {
      StableIsInert(s);
    }
  }

  /** No reachable state is stuck: a poll cycle is enabled at any time. */
  lemma CycleAlwaysPossible(cfg: Config, s: State, now: Instant)
    requires Reachable(cfg, s)
    ensures exists ch :: CycleEnabled(s, ch) && ch.now == now
  {
    ReachableInv(cfg, s);
    var ch := SomeCycle(s, now, true, SockState.Established);
  }
}

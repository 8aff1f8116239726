/**
 Packets keep their order: each interface's queue holds them as they arrived, and the pre-pass
 serves them first come, first served.
 */
module Arrivals {
  import opened Types
  import opened Ops
  import opened Invariant
  import opened PrePassFacts
  import opened Runs
  import opened Feeding

  // ---- Queueing ----

  /** The packets that the steps of a run queue for interface `id`, in order. */
  ghost function Arrived(run: seq<Label>, id: InterfaceId): seq<Packet>
    decreases |run|
  {
    if run == [] then []
    else (if run[0].Ingress? && run[0].id == id then [run[0].pkt] else []) + Arrived(run[1..], id)
  }

  lemma EnqueueIngress(s: State, id: InterfaceId, pkt: Packet, i: InterfaceId)
    requires i in s.slots
    ensures var r := Enqueue(s, id, pkt);
            i in r.slots && r.slots[i].ingress == s.slots[i].ingress + if id == i then [pkt] else []
  {
  }

  lemma CloseIngress(slots: map<InterfaceId, Slot>, id: InterfaceId, h: Handle, i: InterfaceId)
    requires i in slots
    ensures var r := CloseSocket(slots, id, h); i in r && r[i].ingress == slots[i].ingress
  {
  }

  lemma DropIngress(s: State, q: QueueId, i: InterfaceId)
    requires q in s.sessions && i in s.slots
    ensures i in DropSession(s, q).slots && DropSession(s, q).slots[i].ingress == s.slots[i].ingress
  {
    RemoveSocketsOnly(s, s.sessions[q].key);
  }

  lemma SendIngress(s: State, q: QueueId, payload: Bytes, answer: SendOutcome, i: InterfaceId)
    requires q in s.sessions && q in s.queues && i in s.slots
    ensures var r := TrySend(s, q, payload, answer).0; i in r.slots && r.slots[i].ingress == s.slots[i].ingress
  {
  }

  lemma StepIngress(s: State, l: Label, i: InterfaceId)
    requires Enabled(s, l) && !l.Cycle? && i in s.slots
    ensures i in Apply(s, l).slots && Apply(s, l).slots[i].ingress == s.slots[i].ingress + Arrived([l], i)
  {
    assert Arrived([l], i) == if l.Ingress? && l.id == i then [l.pkt] else [];
    match l
    case Ingress(id, pkt) => EnqueueIngress(s, id, pkt, i);
    case StreamShutdown(x) => CloseIngress(s.slots, s.streams[x].key.iface, s.streams[x].handle, i);
    case StreamDrop(x) => CloseIngress(s.slots, s.streams[x].key.iface, s.streams[x].handle, i);
    case SessionSend(q, payload, answer) => SendIngress(s, q, payload, answer, i);
    case SessionPop(q) =>
    case SessionDrop(q) => DropIngress(s, q, i);
  }

  lemma {:induction false} QuietIngress(s: State, run: seq<Label>, i: InterfaceId)
    requires ValidRun(s, run) && (forall l :: l in run ==> !l.Cycle?) && i in s.slots
    ensures i in After(s, run).slots && After(s, run).slots[i].ingress == s.slots[i].ingress + Arrived(run, i)
    decreases |run|
  {
    if run != [] {
      StepIngress(s, run[0], i);
      QuietIngress(Apply(s, run[0]), run[1..], i);
      ArrivedCons(run, i);
    }
  }

  lemma ArrivedCons(run: seq<Label>, i: InterfaceId)
    requires run != []
    ensures Arrived(run, i) == Arrived([run[0]], i) + Arrived(run[1..], i)
  {
    assert [run[0]][1..] == [];
  }

  /** A cycle leaves in a queue what its poll leaves there. */
  lemma CycleIngress(s: State, ch: Choices, i: InterfaceId)
    requires Inv(s) && CycleEnabled(s, ch) && i in s.cfg.ifaces
    ensures var polled, r := SlotMap(ch.polled), Apply(s, Cycle(ch));
            i in polled && i in r.slots && r.slots[i].ingress == polled[i].ingress
  {
    var p := Polled(s, ch);
    PolledInv(s, ch);
    InvShape(p);
    PostPassIngress(p, ch, i);
  }

  lemma PostPassIngress(p: State, ch: Choices, i: InterfaceId)
    requires i in p.slots
    ensures i in PostPass(p, ch).slots && PostPass(p, ch).slots[i].ingress == p.slots[i].ingress
  {
    var v := VisitAll(p, ch.tcpOrder);
    ReapAllIngress(v, ReapList(v, ch.tcpOrder), i);
    PostPassSlots(p, ch);
  }

  /** What the last poll of the run left in the queue of `i`, or what it held at the start. */
  ghost function Leftover(s: State, run: seq<Label>, i: InterfaceId): seq<Packet>
    requires i in s.slots
  {
    if run != [] && run[|run| - 1].Cycle? && i in SlotMap(run[|run| - 1].ch.polled)
    then SlotMap(run[|run| - 1].ch.polled)[i].ingress else s.slots[i].ingress
  }

  /**
   At any time an interface's queue is what the last poll left in it, followed by what was queued since, in order:
   `front` is the run up to that poll, and empty if there was none.
   */
  lemma QueuedInOrder(cfg: Config, s: State, front: seq<Label>, back: seq<Label>, i: InterfaceId)
    requires Reachable(cfg, s) && i in cfg.ifaces && i in s.slots
    requires ValidRun(s, front) && ValidRun(After(s, front), back)
    requires (front == [] || front[|front| - 1].Cycle?) && forall l :: l in back ==> !l.Cycle?
    ensures ValidRun(s, front + back) && i in After(s, front + back).slots
    ensures After(s, front + back).slots[i].ingress == Leftover(s, front, i) + Arrived(back, i)
  {
    ReachableInv(cfg, s);
    JoinRuns(s, front, back);
    if front != [] {
      LastCycle(s, front, i);
    }
    QuietIngress(After(s, front), back, i);
  }

  lemma LastCycle(s: State, front: seq<Label>, i: InterfaceId)
    requires Inv(s) && i in s.cfg.ifaces && i in s.slots
    requires ValidRun(s, front) && front != [] && front[|front| - 1].Cycle?
    ensures i in After(s, front).slots && After(s, front).slots[i].ingress == Leftover(s, front, i)
  {
    var n := |front| - 1;
    SplitRun(s, front, n);
    RunInv(s, front[..n]);
    RunCfg(s, front[..n]);
    CycleIngress(After(s, front[..n]), front[n].ch, i);
  }

  lemma {:induction false} SplitRun(s: State, run: seq<Label>, n: nat)
    requires ValidRun(s, run) && n < |run|
    ensures ValidRun(s, run[..n]) && Enabled(After(s, run[..n]), run[n])
    ensures n == |run| - 1 ==> After(s, run) == Apply(After(s, run[..n]), run[n])
    decreases n
  {
    if n == 0 {
      assert run[..0] == [];
    } else {
      SplitRun(Apply(s, run[0]), run[1..], n - 1);
      assert run[..n][1..] == run[1..][..n - 1];
    }
  }

  // ---- Serving ----

  lemma {:induction false} PacketsSplit(s: State, id: InterfaceId, j: nat, a: seq<Packet>, b: seq<Packet>, ch: Choices)
    requires id in s.slots && j <= |a|
    ensures Packets(s, id, j, a + b, ch) == Packets(Packets(s, id, j, a, ch), id, |a|, a + b, ch)
    decreases |a| - j
  {
    if j < |a| {
      assert (a + b)[j] == a[j];
      PacketsSplit(PacketStep(s, id, j, a[j], ch), id, j + 1, a, b, ch);
    }
  }

  /** Whatever the first packets of a queue get, they get no matter which packets follow. */
  lemma FirstComeFirstServed(s: State, id: InterfaceId, a: seq<Packet>, b: seq<Packet>, ch: Choices)
    requires id in s.slots
    ensures Grows(Packets(s, id, 0, a, ch), Packets(s, id, 0, a + b, ch))
  {
    PacketsSplit(s, id, 0, a, b, ch);
    PacketsGrow(Packets(s, id, 0, a, ch), id, |a|, a + b, ch);
  }

  /** ... and no matter what later interfaces ask for. */
  lemma {:induction false} InterfacesInTurn(s: State, xs: seq<InterfaceId>, ys: seq<InterfaceId>, ch: Choices)
    requires (forall id :: id in xs ==> id in s.slots) && (forall id :: id in ys ==> id in s.slots)
    ensures PrePass(s, xs + ys, ch) == PrePass(PrePass(s, xs, ch), ys, ch)
    ensures Grows(PrePass(s, xs, ch), PrePass(s, xs + ys, ch))
    decreases |xs|
  {
    if xs == [] {
      assert xs + ys == ys;
      PrePassGrows(s, ys, ch);
    } else {
      assert (xs + ys)[1..] == xs[1..] + ys;
      InterfacesInTurn(PreSlot(s, xs[0], ch), xs[1..], ys, ch);
    }
  }
}

/** Datagrams over whole runs: what a session pops is, in order, what was routed to its entry. */
module Fifo {
  import opened Types
  import opened Counting
  import opened Ops
  import opened Invariant
  import opened Redistribution
  import opened Tables
  import opened PrePassFacts
  import opened Runs

  ghost function Held(s: State, q: QueueId): seq<Bytes> {
    if q in s.queues then s.queues[q].inner else []
  }

  /** What the next post-pass routes to queue `q`. */
  ghost function Gain(p: State, q: QueueId): seq<Bytes> {
    if q in p.queues && !p.queues[q].closed && q in p.sessions then Owed(p, p.sessions[q].key) else []
  }

  /** The datagrams a step routes to queue `q`: those its destination socket received from its source. */
  ghost function StepRouted(s: State, l: Label, q: QueueId): seq<Bytes>
    requires Enabled(s, l)
  {
    if l.Cycle? then Gain(Polled(s, l.ch), q) else []
  }

  /** The datagram a step hands to the application from queue `q`, if it is a pop that answers one. */
  ghost function StepPopped(s: State, l: Label, q: QueueId): seq<Bytes>
    requires Enabled(s, l)
  {
    if l.SessionPop? && l.q == q && Pop(s, q).1.Some? then [Pop(s, q).1.value] else []
  }

  /** A pop answers nothing exactly if nothing is queued; what it answers and what stays queued is what was queued. */
  lemma PopAnswers(s: State, q: QueueId)
    requires q in s.queues
    ensures var (r, data) := Pop(s, q);
            && (data.None? <==> s.queues[q].inner == [])
            && q in r.queues && (if data.Some? then [data.value] else []) + r.queues[q].inner == s.queues[q].inner
            && r == s.(queues := s.queues[q := s.queues[q].(inner := r.queues[q].inner)])
  {
    var queue := s.queues[q];
    if queue.inner == [] {
      assert s.queues[q := queue.(inner := [])] == s.queues;
    } else {
      assert [queue.inner[0]] + queue.inner[1..] == queue.inner;
    }
  }

  ghost function Routed(s: State, run: seq<Label>, q: QueueId): seq<Bytes>
    requires ValidRun(s, run)
    decreases |run|
  {
    if run == [] then [] else StepRouted(s, run[0], q) + Routed(Apply(s, run[0]), run[1..], q)
  }

  ghost function Popped(s: State, run: seq<Label>, q: QueueId): seq<Bytes>
    requires ValidRun(s, run)
    decreases |run|
  {
    if run == [] then [] else StepPopped(s, run[0], q) + Popped(Apply(s, run[0]), run[1..], q)
  }

  lemma PolledQueue(s: State, ch: Choices, q: QueueId)
    requires Linked(s.udp, s.queues, s.sessions, s.hist.retains) && Mapped(s)
    ensures Held(Polled(s, ch), q) == Held(s, q)
    ensures q in s.queues ==> q in Polled(s, ch).queues && Polled(s, ch).queues[q] == s.queues[q]
  {
    PrePassGrows(s, s.cfg.ifaces, ch);
  }

  lemma CycleQueue(s: State, ch: Choices, q: QueueId)
    requires Inv(s) && CycleEnabled(s, ch)
    ensures var r := PostPass(Polled(s, ch), ch);
            && Held(r, q) == Held(s, q) + StepRouted(s, Cycle(ch), q)
            && (q in s.queues && s.queues[q].closed ==>
                 q in r.queues && r.queues[q].closed && StepRouted(s, Cycle(ch), q) == [])
  {
    var p := Polled(s, ch);
    InvLinks(s);
    PolledQueue(s, ch, q);
    PolledInv(s, ch);
    PostPassHeld(p, ch, q);
    CycleHeld(s, p, PostPass(p, ch), q);
  }

  lemma CycleHeld(s: State, p: State, r: State, q: QueueId)
    requires Held(p, q) == Held(s, q) && (q in s.queues ==> q in p.queues && p.queues[q] == s.queues[q]) &&
             HeldStep(p, r, q)
    ensures Held(r, q) == Held(s, q) + Gain(p, q)
    ensures q in s.queues && s.queues[q].closed ==> q in r.queues && r.queues[q].closed && Gain(p, q) == []
  {
  }

  lemma PostPassHeld(p: State, ch: Choices, q: QueueId)
    requires Inv(p) && NoDup(ch.tcpOrder) && Enumerates(ch.dstOrder, p.dsts.Keys) && Enumerates(ch.udpOrder, p.udp.Keys)
    ensures HeldStep(p, PostPass(p, ch), q)
  {
    var r := PostPass(p, ch);
    InvLinks(p);
    PostPassQueueKeys(p, ch);
    if q in p.queues && !p.queues[q].closed {
      PostPassSessions(p, ch, p.sessions[q].key);
    }
    HeldFromServed(p, r, q, ch.now);
  }

  ghost predicate HeldStep(p: State, r: State, q: QueueId) {
    && Held(r, q) == Held(p, q) + Gain(p, q)
    && (q in p.queues && p.queues[q].closed ==> q in r.queues && r.queues[q].closed)
  }

  lemma HeldFromServed(p: State, r: State, q: QueueId, now: Instant)
    requires Linked(p.udp, p.queues, p.sessions, p.hist.retains) && r.queues.Keys == p.queues.Keys
    requires q in p.queues && p.queues[q].closed ==> r.queues[q] == p.queues[q]
    requires q in p.queues && !p.queues[q].closed ==> Served(p, r, p.sessions[q].key, now)
    ensures HeldStep(p, r, q)
  {
    if q in p.queues && !p.queues[q].closed {
      assert p.udp[p.sessions[q].key].queue == q;
    } else {
      assert Held(p, q) + [] == Held(p, q);
    }
  }

  lemma PostPassQueueKeys(p: State, ch: Choices)
    requires Inv(p) && NoDup(ch.tcpOrder) && Enumerates(ch.dstOrder, p.dsts.Keys) && Enumerates(ch.udpOrder, p.udp.Keys)
    ensures var r := PostPass(p, ch);
            && r.queues.Keys == p.queues.Keys
            && forall q :: q in p.queues && p.queues[q].closed ==> r.queues[q] == p.queues[q]
  {
    var t := TcpPass(p, ch);
    TcpPassKeepsUdp(p, ch);
    RedistributionIsIdeal(t, ch);
    SweepEffect(Redistribute(t, ch), ch);
  }

  lemma DropQueue(s: State, q: QueueId, d: QueueId)
    requires d in s.sessions
    ensures [] + Held(DropSession(s, d), q) == Held(s, q) + []
    ensures q in s.queues && s.queues[q].closed ==> q in DropSession(s, d).queues && DropSession(s, d).queues[q].closed
  {
    RemoveUdpEffect(s, s.sessions[d].key);
  }

  lemma StepQueue(s: State, l: Label, q: QueueId)
    requires Inv(s) && Enabled(s, l)
    ensures StepPopped(s, l, q) + Held(Apply(s, l), q) == Held(s, q) + StepRouted(s, l, q)
    ensures q in s.queues && s.queues[q].closed ==>
              q in Apply(s, l).queues && Apply(s, l).queues[q].closed && StepRouted(s, l, q) == []
  {
    if l.Cycle? {
      CycleQueue(s, l.ch, q);
      CycleStepQueue(s, l, q);
    } else if l.SessionDrop? {
      DropQueue(s, q, l.q);
    } else {
      QuickStep(s, l, q);
    }
  }

  lemma CycleStepQueue(s: State, l: Label, q: QueueId)
    requires Enabled(s, l) && l.Cycle?
    requires Held(Apply(s, l), q) == Held(s, q) + StepRouted(s, l, q)
    ensures StepPopped(s, l, q) + Held(Apply(s, l), q) == Held(s, q) + StepRouted(s, l, q)
  {
    assert StepPopped(s, l, q) == [];
    assert [] + Held(Apply(s, l), q) == Held(Apply(s, l), q);
  }

  lemma PopQueue(s: State, q: QueueId, d: QueueId)
    requires d in s.queues && d in s.sessions
    ensures StepPopped(s, SessionPop(d), q) + Held(Pop(s, d).0, q) == Held(s, q) + []
    ensures q in s.queues ==> q in Pop(s, d).0.queues && Pop(s, d).0.queues[q].closed == s.queues[q].closed
  {
    PopAnswers(s, d);
  }

  lemma QuickStep(s: State, l: Label, q: QueueId)
    requires Enabled(s, l) && !l.Cycle? && !l.SessionDrop?
    ensures StepPopped(s, l, q) + Held(Apply(s, l), q) == Held(s, q) + StepRouted(s, l, q)
    ensures q in s.queues ==> q in Apply(s, l).queues && Apply(s, l).queues[q].closed == s.queues[q].closed
  {
    if l.SessionPop? {
      PopQueue(s, q, l.q);
    } else {
      assert Apply(s, l).queues == s.queues;
    }
  }

  /** Popped so far, followed by what is still queued, is everything routed so far. */
  lemma {:induction false} QueueIsFifo(s: State, run: seq<Label>, q: QueueId)
    requires Inv(s) && ValidRun(s, run)
    ensures Popped(s, run, q) + Held(After(s, run), q) == Held(s, q) + Routed(s, run, q)
    decreases |run|
  {
    if run != [] {
      var t := Apply(s, run[0]);
      StepQueue(s, run[0], q);
      ApplyInv(s, run[0]);
      QueueIsFifo(t, run[1..], q);
      FifoCons(s, run, q);
    }
  }

  /** One step and the rest of the run compose. */
  lemma FifoCons(s: State, run: seq<Label>, q: QueueId)
    requires ValidRun(s, run) && run != []
    requires StepPopped(s, run[0], q) + Held(Apply(s, run[0]), q) == Held(s, q) + StepRouted(s, run[0], q)
    requires var t := Apply(s, run[0]);
             Popped(t, run[1..], q) + Held(After(t, run[1..]), q) == Held(t, q) + Routed(t, run[1..], q)
    ensures Popped(s, run, q) + Held(After(s, run), q) == Held(s, q) + Routed(s, run, q)
  {
    var t := Apply(s, run[0]);
    Regroup(StepPopped(s, run[0], q), Popped(t, run[1..], q), Held(After(t, run[1..]), q), Held(s, q),
            StepRouted(s, run[0], q), Held(t, q), Routed(t, run[1..], q));
  }

  /** From the start of a netstack, sessions see exactly their own datagrams in arrival order. */
  lemma SessionsSeeTheirDatagrams(cfg: Config, run: seq<Label>, q: QueueId)
    requires NoDup(cfg.ifaces) && ValidRun(Init(cfg), run)
    ensures Popped(Init(cfg), run, q) + Held(After(Init(cfg), run), q) == Routed(Init(cfg), run, q)
  {
    InitInv(cfg);
    QueueIsFifo(Init(cfg), run, q);
    assert Held(Init(cfg), q) == [];
  }

  /** A closed queue stays closed and never gains a datagram, even if its 5-tuple is used again. */
  lemma {:induction false} ClosedForever(s: State, run: seq<Label>, q: QueueId)
    requires Inv(s) && ValidRun(s, run) && q in s.queues && s.queues[q].closed
    ensures q in After(s, run).queues && After(s, run).queues[q].closed
    ensures Routed(s, run, q) == []
    decreases |run|
  {
    if run != [] {
      StepQueue(s, run[0], q);
      ApplyInv(s, run[0]);
      ClosedForever(Apply(s, run[0]), run[1..], q);
    }
  }
}

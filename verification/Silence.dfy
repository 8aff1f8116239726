/**
 What counts as activity of a UDP session. Only datagrams routed to it do: whatever it
 sends, its timestamp stays, and the first cycle past the timeout reclaims it.
 */
module Silence {
  import opened Types
  import opened Ops
  import opened Invariant
  import opened PreserveUdp
  import opened Redistribution
  import opened Tables
  import opened PrePassFacts
  import opened Runs
  import opened Isolation
  import opened Fifo

  /** The table lists queue `q` under `k`. */
  ghost predicate Lists(s: State, k: SessionKey, q: QueueId) {
    k in s.udp && s.udp[k].queue == q
  }

  /** A step that neither drops a session of `k` nor is a cycle further than the timeout from `last`. */
  ghost predicate Spares(s: State, l: Label, k: SessionKey, last: Instant)
    requires Enabled(s, l)
  {
    && (l.Cycle? ==> l.ch.now - last <= s.cfg.udpTimeout && last - l.ch.now <= s.cfg.udpTimeout)
    && (l.SessionDrop? ==> s.sessions[l.q].key != k)
  }

  /** Every step of the run is of that kind. */
  ghost predicate Spared(s: State, run: seq<Label>, k: SessionKey, last: Instant)
    requires ValidRun(s, run)
    decreases |run|
  {
    run == [] || (Spares(s, run[0], k, last) && Spared(Apply(s, run[0]), run[1..], k, last))
  }

  /** `r` lists the entry of `k` unchanged, or its queue `q` is closed. */
  ghost predicate KeptOrClosed(s: State, r: State, k: SessionKey, q: QueueId, kept: bool)
    requires k in s.udp
  {
    if kept then k in r.udp && r.udp[k] == s.udp[k] else k !in r.udp && q in r.queues && r.queues[q].closed
  }

  lemma SilentPostPass(p: State, ch: Choices, k: SessionKey)
    requires Inv(p) && NoDup(ch.tcpOrder) && Enumerates(ch.dstOrder, p.dsts.Keys) && Enumerates(ch.udpOrder, p.udp.Keys)
    requires k in p.udp && Owed(p, k) == []
    ensures var last := p.udp[k].lastActivity;
            KeptOrClosed(p, PostPass(p, ch), k, p.udp[k].queue,
              ch.now - last <= p.cfg.udpTimeout && last - ch.now <= p.cfg.udpTimeout)
  {
    PostPassSessions(p, ch, k);
  }

  /** In the state a post-pass starts from, what queue `q` gains is what its session is owed. */
  lemma PolledGain(s: State, ch: Choices, k: SessionKey, q: QueueId)
    requires Inv(s) && CycleEnabled(s, ch) && Lists(s, k, q)
    ensures var p := Polled(s, ch);
              k in p.udp && p.udp[k] == s.udp[k] && p.cfg == s.cfg && StepRouted(s, Cycle(ch), q) == Owed(p, k)
  {
    PrePassGrows(s, s.cfg.ifaces, ch);
    PolledInv(s, ch);
    InvLinks(Polled(s, ch));
  }

  lemma SilentCycle(s: State, ch: Choices, k: SessionKey, q: QueueId)
    requires Inv(s) && CycleEnabled(s, ch) && Lists(s, k, q) && StepRouted(s, Cycle(ch), q) == []
    ensures KeptOrClosed(s, Apply(s, Cycle(ch)), k, q, Spares(s, Cycle(ch), k, s.udp[k].lastActivity))
  {
    PolledGain(s, ch, k, q);
    PolledInv(s, ch);
    SilentPostPass(Polled(s, ch), ch, k);
  }

  lemma DropListed(s: State, q: QueueId, k: SessionKey)
    requires Linked(s.udp, s.queues, s.sessions, s.hist.retains) && q in s.sessions && k in s.udp
    ensures KeptOrClosed(s, DropSession(s, q), k, s.udp[k].queue, s.sessions[q].key != k)
  {
    if s.sessions[q].key in s.udp {
      RemoveUdpQueues(s, s.sessions[q].key);
    }
  }

  lemma OtherStep(s: State, l: Label, k: SessionKey)
    requires Enabled(s, l) && !l.Cycle? && !l.SessionDrop?
    ensures Apply(s, l).udp == s.udp
  {
    match l
    case Ingress(id, pkt) =>
    case StreamShutdown(x) =>
    case StreamDrop(x) =>
    case SessionSend(q, payload, answer) => TrySendSame(s, q, payload, answer);
    case SessionPop(q) =>
  }

  lemma SilentStep(s: State, l: Label, k: SessionKey, q: QueueId)
    requires Inv(s) && Enabled(s, l) && Lists(s, k, q) && StepRouted(s, l, q) == []
    ensures KeptOrClosed(s, Apply(s, l), k, q, Spares(s, l, k, s.udp[k].lastActivity))
  {
    if l.Cycle? {
      SilentCycle(s, l.ch, k, q);
    } else if l.SessionDrop? {
      InvLinks(s);
      DropListed(s, l.q, k);
    } else {
      OtherStep(s, l, k);
    }
  }

  /** A closed queue is never listed again. */
  lemma NeverListed(s: State, run: seq<Label>, k: SessionKey, q: QueueId)
    requires Inv(s) && ValidRun(s, run) && q in s.queues && s.queues[q].closed
    ensures !Lists(After(s, run), k, q)
  {
    ClosedForever(s, run, q);
    RunInv(s, run);
    InvLinks(After(s, run));
  }

  lemma {:induction false} RunSilent(s: State, run: seq<Label>, k: SessionKey, q: QueueId)
    requires Inv(s) && ValidRun(s, run) && Lists(s, k, q) && Routed(s, run, q) == []
    ensures Lists(After(s, run), k, q) <==> Spared(s, run, k, s.udp[k].lastActivity)
    ensures Lists(After(s, run), k, q) ==> After(s, run).udp[k] == s.udp[k]
    decreases |run|
  {
    if run != [] {
      var t := Apply(s, run[0]);
      SilentStep(s, run[0], k, q);
      ApplyInv(s, run[0]);
      if Spares(s, run[0], k, s.udp[k].lastActivity) {
        RunSilent(t, run[1..], k, q);
      } else {
        NeverListed(t, run[1..], k, q);
      }
    }
  }

  /**
   Over any run in which nothing is routed to a session, whatever it sends: it keeps its timestamp while it is listed,
   and it is listed at the end exactly if no cycle came later than the timeout after that timestamp and no session
   of its 5-tuple was dropped.
   */
  lemma SendingIsNoActivity(cfg: Config, s: State, run: seq<Label>, k: SessionKey)
    requires Reachable(cfg, s) && ValidRun(s, run) && k in s.udp && Routed(s, run, s.udp[k].queue) == []
    ensures var t, q := After(s, run), s.udp[k].queue;
            && (Lists(t, k, q) <==> Spared(s, run, k, s.udp[k].lastActivity))
            && (Lists(t, k, q) ==> t.udp[k] == s.udp[k])
  {
    ReachableInv(cfg, s);
    RunSilent(s, run, k, s.udp[k].queue);
  }
}

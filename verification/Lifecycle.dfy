/** Every TCP entry goes through pending, established, orphaned and closed, and leaves nothing behind. */
module Lifecycle {
  import opened Types
  import opened Counting
  import opened Ops
  import opened Invariant
  import opened Tables
  import opened PrePassFacts
  import opened Runs

  function Rank(state: TcpState): nat {
    match state case Pending => 0 case Established => 1 case Closed => 2
  }

  /** What a cycle may do to the entry under `k`. */
  ghost predicate Moved(s: State, p: State, r: State, k: SessionKey) {
    && (k in s.tcp && k in r.tcp ==>
          && r.tcp[k].handle == s.tcp[k].handle
          && Rank(s.tcp[k].state) <= Rank(r.tcp[k].state) <= Rank(s.tcp[k].state) + 1
          && r.tcp[k].orphaned == s.tcp[k].orphaned)
    && (k in s.tcp && k !in r.tcp ==>
          s.tcp[k].orphaned && !s.tcp[k].state.Pending? && SockStateOf(p.slots, k, s.tcp[k]) == SockState.Closed)
    && (k !in s.tcp && k in r.tcp ==> Rank(r.tcp[k].state) <= 1 && !r.tcp[k].orphaned)
  }

  /**
   What one step may do to it: only cycles move, insert or remove entries, and only its own stream's drop
   orphans one.
   */
  ghost predicate EntryStep(s: State, l: Label, r: State, k: SessionKey)
    requires Enabled(s, l)
  {
    if l.Cycle? then Moved(s, Polled(s, l.ch), r, k)
    else
      && (k in r.tcp <==> k in s.tcp)
      && (k in s.tcp ==>
            r.tcp[k] == if l.StreamDrop? && s.streams[l.x].key == k then s.tcp[k].(orphaned := true) else s.tcp[k])
  }

  /** What a cycle does to the entry under `k`, with `p` the state its post-pass starts from. */
  ghost predicate CycleTables(s: State, p: State, r: State, k: SessionKey) {
    && (k in s.tcp ==> k in p.tcp && p.tcp[k] == s.tcp[k])
    && (k in p.tcp && k !in s.tcp ==> p.tcp[k].state.Pending? && !p.tcp[k].orphaned)
    && (k in r.tcp <==> k in p.tcp && !Reapable(p, k))
    && (k in r.tcp ==> r.tcp[k] == Advance(p.tcp[k], SockStateOf(p.slots, k, p.tcp[k])))
  }

  lemma CycleTcp(s: State, ch: Choices, k: SessionKey)
    requires Inv(s) && CycleEnabled(s, ch)
    ensures CycleTables(s, Polled(s, ch), PostPass(Polled(s, ch), ch), k)
  {
    var p := Polled(s, ch);
    PrePassGrows(s, s.cfg.ifaces, ch);
    PolledInv(s, ch);
    InvTcp(p);
    TcpPassEffect(p, ch, k);
  }

  lemma CycleEntry(s: State, ch: Choices, k: SessionKey)
    requires Inv(s) && CycleEnabled(s, ch)
    ensures EntryStep(s, Cycle(ch), PostPass(Polled(s, ch), ch), k)
  {
    InvExposed(s);
    CycleTcp(s, ch, k);
    TablesMove(s, Polled(s, ch), PostPass(Polled(s, ch), ch), k);
  }

  lemma TablesMove(s: State, p: State, r: State, k: SessionKey)
    requires CycleTables(s, p, r, k) && (k in s.tcp && s.tcp[k].orphaned ==> !s.tcp[k].state.Pending?)
    ensures Moved(s, p, r, k)
  {
  }

  /** Entries only move forward, leave only orphaned and closed, and are orphaned only by their own stream's drop. */
  lemma EntryLifecycle(cfg: Config, s: State, l: Label, k: SessionKey)
    requires Reachable(cfg, s) && Enabled(s, l)
    ensures EntryStep(s, l, Apply(s, l), k)
  {
    ReachableInv(cfg, s);
    if l.Cycle? {
      CycleEntry(s, l.ch, k);
    } else {
      InvExposed(s);
      OtherEntry(s, l, k);
    }
  }

  lemma OtherEntry(s: State, l: Label, k: SessionKey)
    requires Enabled(s, l) && !l.Cycle? && Exposed(s.tcp, s.streams, s.hist.accepted)
    ensures EntryStep(s, l, Apply(s, l), k)
  {
    if l.StreamDrop? {
      DropStreamTable(s, l.x);
    } else {
      OtherSteps(s, l);
    }
  }

  lemma DropStreamTable(s: State, x: StreamId)
    requires x in s.streams && s.streams[x].key in s.tcp
    ensures var k := s.streams[x].key; DropStream(s, x).tcp == s.tcp[k := s.tcp[k].(orphaned := true)]
  {
  }

  lemma OtherSteps(s: State, l: Label)
    requires Enabled(s, l) && !l.Cycle? && !l.StreamDrop?
    ensures Apply(s, l).tcp == s.tcp
  {
  }

  // ---- Quiescence ----

  /** Nothing is pending, every application object is gone and every TCP socket is closed. */
  ghost predicate Quiet(s: State) {
    && s.streams == map[] && s.sessions == map[]
    && (forall k :: k in s.tcp ==> !s.tcp[k].state.Pending? && SockStateOf(s.slots, k, s.tcp[k]) == SockState.Closed)
  }

  lemma QuietUdp(s: State)
    requires Linked(s.udp, s.queues, s.sessions, s.hist.retains) && RefCounts(s.udp, s.dsts) && s.sessions == map[]
    ensures s.udp == map[] && s.dsts == map[]
  {
    assert forall k :: k !in s.udp;
    forall d ensures d !in s.dsts {
      assert Selected(s.udp, ToDst(d)) == {};
    }
  }

  lemma QuietTcp(s: State, ch: Choices)
    requires Inv(s) && Quiet(s) && Enumerates(ch.tcpOrder, s.tcp.Keys)
    ensures PostPass(s, ch).tcp == map[]
  {
    InvTcp(s);
    InvExposed(s);
    forall k ensures k !in PostPass(s, ch).tcp {
      TcpPassEffect(s, ch, k);
      if k in s.tcp {
        assert !HasStream(s.streams, k);
      }
    }
  }

  /** With empty tables no socket has an owner, so the sets are empty too. */
  lemma EmptyTables(s: State)
    requires NoLeak(s.slots, s.tcp, s.dsts) && Budget(s.cfg, s.bytes, |s.tcp|, |s.dsts|, s.hist.failedBinds)
    requires s.tcp == map[] && s.dsts == map[]
    ensures forall id :: id in s.slots ==> s.slots[id].sockets == map[]
    ensures s.bytes == Times(s.hist.failedBinds, UdpCost(s.cfg, s.cfg.mtu))
  {
    assert forall id, h :: !HasSocket(s.slots, id, h);
  }

  lemma TimesZero(n: nat, c: nat)
    requires c > 0
    ensures Times(n, c) == 0 <==> n == 0
  {
  }

  /** One post-pass from a quiet state frees everything; the budget returns to zero exactly if no bind ever failed. */
  lemma QuiescenceLeavesNothing(s: State, ch: Choices)
    requires Inv(s) && Quiet(s) && Enumerates(ch.tcpOrder, s.tcp.Keys)
    ensures var r := PostPass(s, ch);
            && r.tcp == map[] && r.udp == map[] && r.dsts == map[]
            && (forall id :: id in r.slots ==> r.slots[id].sockets == map[])
            && r.bytes == s.hist.failedBinds * UdpCost(s.cfg, s.cfg.mtu)
            && (r.bytes == 0 <==> s.hist.failedBinds == 0)
  {
    var r := PostPass(s, ch);
    QuietTcp(s, ch);
    PostPassInv(s, ch);
    PostPassSessionsKept(s, ch);
    InvLinks(r);
    InvCounts(r);
    QuietUdp(r);
    InvLeaks(r);
    InvBudget(r);
    EmptyTables(r);
    TimesZero(s.hist.failedBinds, UdpCost(s.cfg, s.cfg.mtu));
    TimesIsProduct(s.hist.failedBinds, UdpCost(s.cfg, s.cfg.mtu));
  }

  lemma PostPassSessionsKept(s: State, ch: Choices)
    ensures var r := PostPass(s, ch);
            r.sessions == s.sessions && r.cfg == s.cfg && r.hist.failedBinds == s.hist.failedBinds
  {
  }
}

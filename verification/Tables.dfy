/** What one post-pass does to the two session tables, entry by entry. */
module Tables {
  import opened Types
  import opened Ops
  import opened Invariant
  import opened PreserveTcp
  import opened PreserveUdp
  import opened Redistribution

  // ---- TCP ----

  /** The lifecycle of one entry as a function of the state its socket reached. */
  function Advance(e: TcpEntry, sock: SockState): TcpEntry {
    if e.state.Pending? && sock == SockState.Established then e.(state := TcpState.Established)
    else if e.state.Established? && sock in {SockState.Closed, TimeWait, Listen} then e.(state := TcpState.Closed)
    else e
  }

  lemma {:induction false} VisitAllEffect(s: State, ks: seq<SessionKey>, k: SessionKey)
    requires TcpOwned(s.slots, s.tcp) && NoDup(ks)
    ensures var r := VisitAll(s, ks);
            && (k in r.tcp <==> k in s.tcp)
            && (k in s.tcp ==>
                  r.tcp[k] == if k in ks then Advance(s.tcp[k], SockStateOf(s.slots, k, s.tcp[k])) else s.tcp[k])
    decreases |ks|
  {
    if ks != [] {
      var t := Visit(s, ks[0]);
      VisitCases(s, ks[0]);
      VisitOwned(s, ks[0]);
      VisitAllEffect(t, ks[1..], k);
      assert ks[0] !in ks[1..];
    }
  }

  lemma ReapEffect(s: State, k: SessionKey)
    ensures forall l :: l in Reap(s, k).tcp <==> l in s.tcp && l != k
    ensures forall l :: l in Reap(s, k).tcp ==> Reap(s, k).tcp[l] == s.tcp[l]
  {
  }

  lemma {:induction false} ReapAllEffect(s: State, ks: seq<SessionKey>, k: SessionKey)
    ensures k in ReapAll(s, ks).tcp <==> k in s.tcp && k !in ks
    ensures k in ReapAll(s, ks).tcp ==> ReapAll(s, ks).tcp[k] == s.tcp[k]
    decreases |ks|
  {
    if ks != [] {
      ReapEffect(s, ks[0]);
      ReapAllEffect(Reap(s, ks[0]), ks[1..], k);
    }
  }

  /** An entry goes exactly when it is orphaned and its socket closed; the others advance. */
  lemma TcpPassEffect(s: State, ch: Choices, k: SessionKey)
    requires TcpOwned(s.slots, s.tcp) && Enumerates(ch.tcpOrder, s.tcp.Keys)
    ensures var r := TcpPass(s, ch);
            && (k in r.tcp <==> k in s.tcp && !Reapable(s, k))
            && (k in r.tcp ==> r.tcp[k] == Advance(s.tcp[k], SockStateOf(s.slots, k, s.tcp[k])))
  {
    var v := VisitAll(s, ch.tcpOrder);
    VisitAllEffect(s, ch.tcpOrder, k);
    ReapListReapable(v, ch.tcpOrder);
    ReapAllEffect(v, ReapList(v, ch.tcpOrder), k);
  }

  // ---- UDP ----

  lemma {:induction false} RemoveAllEffect(s: State, ks: seq<SessionKey>)
    ensures RemoveAll(s, ks).udp == s.udp - (set k | k in ks)
    ensures RemoveAll(s, ks).queues.Keys == s.queues.Keys
    ensures forall q :: q in s.queues ==>
              && RemoveAll(s, ks).queues[q].inner == s.queues[q].inner
              && (s.queues[q].closed ==> RemoveAll(s, ks).queues[q].closed)
    decreases |ks|
  {
    if ks != [] {
      RemoveUdpEffect(s, ks[0]);
      RemoveAllEffect(RemoveUdp(s, ks[0]), ks[1..]);
      assert (set k | k in ks) == {ks[0]} + (set k | k in ks[1..]);
    }
  }

  lemma RemoveUdpEffect(s: State, k: SessionKey)
    ensures var r := RemoveUdp(s, k);
            && r.udp == s.udp - {k} && r.queues.Keys == s.queues.Keys
            && forall q :: q in s.queues ==>
                 && r.queues[q].inner == s.queues[q].inner
                 && (s.queues[q].closed ==> r.queues[q].closed)
  {
    if k in s.udp {
      var t := CloseEntry(s, k);
      assert t.queues.Keys == s.queues.Keys;
      assert RemoveUdp(s, k).udp == t.udp && RemoveUdp(s, k).queues == t.queues;
    } else {
      assert s.udp - {k} == s.udp;
    }
  }

  lemma {:induction false} ExpiredMembers(s: State, ks: seq<SessionKey>, now: Instant)
    ensures forall k :: k in ExpiredList(s, ks, now) <==> k in ks && Overdue(s, k, now)
    decreases |ks|
  {
    if ks != [] {
      ExpiredMembers(s, ks[1..], now);
    }
  }

  /** Reaping TCP sockets touches no UDP receive buffer. */
  lemma ReapRx(s: State, k: SessionKey, d: DstKey)
    requires TcpOwned(s.slots, s.tcp) && DstOwned(s.slots, s.dsts) && k in s.tcp
    ensures RxOf(Reap(s, k).slots, Reap(s, k).dsts, d) == RxOf(s.slots, s.dsts, d)
  {
    ReapSlots(s, k);
  }

  lemma {:induction false} ReapAllRx(s: State, ks: seq<SessionKey>, d: DstKey)
    requires Inv(s) && AllReapable(s, ks)
    ensures RxOf(ReapAll(s, ks).slots, ReapAll(s, ks).dsts, d) == RxOf(s.slots, s.dsts, d)
    decreases |ks|
  {
    if ks != [] {
      InvTcp(s);
      InvDst(s);
      assert Reapable(s, ks[0]);
      ReapInv(s, ks[0]);
      ReapRest(s, ks);
      ReapRx(s, ks[0], d);
      ReapAllRx(Reap(s, ks[0]), ks[1..], d);
    }
  }

  lemma TcpPassOwed(s: State, ch: Choices, k: SessionKey)
    requires Inv(s) && NoDup(ch.tcpOrder)
    ensures Owed(TcpPass(s, ch), k) == Owed(s, k)
  {
    var v := VisitAll(s, ch.tcpOrder);
    VisitAllInv(s, ch.tcpOrder);
    ReapListReapable(v, ch.tcpOrder);
    ReapAllRx(v, ReapList(v, ch.tcpOrder), DstOf(k));
  }

  /** When session `k` was last active, counting what this post-pass delivers to it. */
  ghost function LastHeard(s: State, k: SessionKey, now: Instant): Instant
    requires k in s.udp
  {
    if Owed(s, k) == [] then s.udp[k].lastActivity else now
  }

  lemma TcpPassKeepsUdp(s: State, ch: Choices)
    requires Inv(s) && NoDup(ch.tcpOrder)
    ensures var t := TcpPass(s, ch);
            Inv(t) && t.udp == s.udp && t.queues == s.queues && t.dsts == s.dsts && t.cfg == s.cfg &&
              t.sessions == s.sessions
            && t.hist.retains == s.hist.retains
  {
    var v := VisitAll(s, ch.tcpOrder);
    VisitAllInv(s, ch.tcpOrder);
    ReapListReapable(v, ch.tcpOrder);
    ReapAllInv(v, ReapList(v, ch.tcpOrder));
  }

  lemma SweepEffect(s: State, ch: Choices)
    requires Enumerates(ch.udpOrder, s.udp.Keys)
    ensures SweptInto(s, Sweep(s, ch), ch.now)
  {
    ExpiredMembers(s, ch.udpOrder, ch.now);
    RemoveAllEffect(s, ExpiredList(s, ch.udpOrder, ch.now));
  }

  /** `r` holds the sessions of `s` whose last activity is within the timeout; queues keep what they hold. */
  ghost predicate SweptInto(s: State, r: State, now: Instant) {
    && (forall k :: k in r.udp <==>
          && k in s.udp
          && now - s.udp[k].lastActivity <= s.cfg.udpTimeout && s.udp[k].lastActivity - now <= s.cfg.udpTimeout)
    && (forall k :: k in r.udp ==> r.udp[k] == s.udp[k])
    && r.queues.Keys == s.queues.Keys && r.sessions == s.sessions
    && (forall q :: q in s.queues ==>
         r.queues[q].inner == s.queues[q].inner && (s.queues[q].closed ==> r.queues[q].closed))
  }

  /** Survival, refreshed timestamp and deliveries of session `k` over one post-pass. */
  ghost predicate Served(s: State, r: State, k: SessionKey, now: Instant) {
    && (k in r.udp <==>
          && k in s.udp
          && (|| Owed(s, k) != []
              || (now - s.udp[k].lastActivity <= s.cfg.udpTimeout && s.udp[k].lastActivity - now <= s.cfg.udpTimeout)))
    && (k in r.udp ==> r.udp[k] == s.udp[k].(lastActivity := LastHeard(s, k, now)))
    && (k in s.udp ==>
          && s.udp[k].queue in s.queues && s.udp[k].queue in r.queues
          && r.queues[s.udp[k].queue].inner == s.queues[s.udp[k].queue].inner + Owed(s, k)
          && (r.queues[s.udp[k].queue].closed <==> k !in r.udp))
  }

  lemma SweptIsServed(t: State, u: State, r: State, k: SessionKey, now: Instant)
    requires IdealRedistribution(t, u, now) && SweptInto(u, r, now)
    requires Linked(t.udp, t.queues, t.sessions, t.hist.retains) && Linked(r.udp, r.queues, r.sessions, r.hist.retains)
    ensures Served(t, r, k, now)
  {
    if k in t.udp {
      assert Delivered(t, u, k, Owed(t, k), now);
      var q := t.udp[k].queue;
      assert t.sessions[q].key == k;
      if k in r.udp {
        assert r.udp[k].queue == q;
      }
    }
  }

  lemma PostPassSessions(s: State, ch: Choices, k: SessionKey)
    requires Inv(s) && NoDup(ch.tcpOrder) && Enumerates(ch.dstOrder, s.dsts.Keys) && Enumerates(ch.udpOrder, s.udp.Keys)
    ensures Served(s, PostPass(s, ch), k, ch.now)
    ensures k in s.udp && Owed(s, k) != [] ==> k in PostPass(s, ch).udp
  {
    var t := TcpPass(s, ch);
    TcpPassKeepsUdp(s, ch);
    TcpPassOwed(s, ch, k);
    PostPassServes(t, ch, k);
  }

  lemma PostPassServes(t: State, ch: Choices, k: SessionKey)
    requires Inv(t) && Enumerates(ch.dstOrder, t.dsts.Keys) && Enumerates(ch.udpOrder, t.udp.Keys)
    ensures Served(t, Sweep(Redistribute(t, ch), ch), k, ch.now)
  {
    var u := Redistribute(t, ch);
    var r := Sweep(u, ch);
    RedistributeInv(t, ch);
    RedistributionIsIdeal(t, ch);
    SweepEffect(u, ch);
    RemoveAllInv(u, ExpiredList(u, ch.udpOrder, ch.now));
    InvLinks(t);
    InvLinks(r);
    SweptIsServed(t, u, r, k, ch.now);
  }
}

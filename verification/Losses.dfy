/**
 Connections that are lost: their handshake was over before a cycle could see it complete, so that no stream is ever
 handed out for them and nothing ever removes them.
 */
module Losses {
  import opened Types
  import opened Connections
  import opened Ops
  import opened Invariant
  import opened Tables
  import opened Runs
  import opened Lifecycle
  import opened Feeding
  import opened SocketStates
  import opened Scenarios

  ghost predicate IsPending(s: State, k: SessionKey) {
    k in s.tcp && s.tcp[k].state.Pending?
  }

  /** The entry is pending, its socket beyond ESTABLISHED. */
  ghost predicate Lost(s: State, k: SessionKey) {
    IsPending(s, k) && Past(StateIn(s, k))
  }

  ghost function LostKeys(s: State): set<SessionKey> {
    set k | k in s.tcp && Lost(s, k)
  }

  // ---- Never to be found again ----

  lemma LostCycle(s: State, ch: Choices, k: SessionKey)
    requires Inv(s) && CycleEnabled(s, ch) && Lost(s, k)
    ensures var r := PostPass(Polled(s, ch), ch); Lost(r, k) && r.tcp[k] == s.tcp[k]
  {
    var p := Polled(s, ch);
    InvExposed(s);
    PolledState(s, ch, k);
    PastForGood(StateIn(s, k), StateIn(p, k));
    CycleTcp(s, ch, k);
    PolledInv(s, ch);
    PostPassState(p, ch, k);
  }

  lemma LostStep(s: State, l: Label, k: SessionKey)
    requires Inv(s) && Enabled(s, l) && Lost(s, k)
    ensures Lost(Apply(s, l), k) && Apply(s, l).tcp[k] == s.tcp[k]
  {
    if l.Cycle? {
      LostCycle(s, l.ch, k);
    } else {
      PendingUntouched(s, l, k);
    }
  }

  /** A lost connection stays listed, unchanged and lost, to the end of any run. */
  lemma {:induction false} LostForever(s: State, run: seq<Label>, k: SessionKey)
    requires Inv(s) && ValidRun(s, run) && Lost(s, k)
    ensures Lost(After(s, run), k) && After(s, run).tcp[k] == s.tcp[k]
    decreases |run|
  {
    if run != [] {
      LostStep(s, run[0], k);
      ApplyInv(s, run[0]);
      LostForever(Apply(s, run[0]), run[1..], k);
    }
  }

  lemma LostLeads(s: State, t: State)
    requires Inv(s) && Leads(s, t)
    ensures LostKeys(s) <= LostKeys(t) && forall k :: Lost(s, k) ==> k in t.tcp && t.tcp[k] == s.tcp[k]
  {
    var run :| ValidRun(s, run) && After(s, run) == t;
    forall k | Lost(s, k) ensures Lost(t, k) && t.tcp[k] == s.tcp[k] {
      LostForever(s, run, k);
    }
  }

  // ---- Pending connections are seen as soon as they are established ----

  /** No pending connection has an established socket. */
  ghost predicate Noticed(s: State) {
    forall k :: IsPending(s, k) ==> StateIn(s, k) != SockState.Established
  }

  /** What a post-pass leaves pending, it found pending and with a socket that is not established. */
  lemma PostPassPending(p: State, ch: Choices, k: SessionKey)
    requires Inv(p) && Enumerates(ch.tcpOrder, p.tcp.Keys) && IsPending(PostPass(p, ch), k)
    ensures IsPending(p, k) && PostPass(p, ch).tcp[k] == p.tcp[k]
    ensures StateIn(PostPass(p, ch), k) == StateIn(p, k) != SockState.Established
  {
    InvTcp(p);
    TcpPassEffect(p, ch, k);
    PostPassState(p, ch, k);
  }

  lemma CycleNotices(s: State, ch: Choices)
    requires Inv(s) && CycleEnabled(s, ch)
    ensures Noticed(PostPass(Polled(s, ch), ch))
  {
    var p := Polled(s, ch);
    PolledInv(s, ch);
    forall k ensures IsPending(PostPass(p, ch), k) ==> StateIn(PostPass(p, ch), k) != SockState.Established {
      if IsPending(PostPass(p, ch), k) {
        PostPassPending(p, ch, k);
      }
    }
  }

  /** What a step other than a cycle leaves pending was so before, with its socket in the same state. */
  lemma OtherPending(s: State, l: Label, k: SessionKey)
    requires Inv(s) && Enabled(s, l) && !l.Cycle? && IsPending(Apply(s, l), k)
    ensures IsPending(s, k) && StateIn(Apply(s, l), k) == StateIn(s, k)
  {
    InvExposed(s);
    OtherEntry(s, l, k);
    PendingUntouched(s, l, k);
  }

  lemma StepNotices(s: State, l: Label)
    requires Inv(s) && Enabled(s, l) && Noticed(s)
    ensures Noticed(Apply(s, l))
  {
    if l.Cycle? {
      CycleNotices(s, l.ch);
    } else {
      forall k | IsPending(Apply(s, l), k)
        ensures StateIn(Apply(s, l), k) != SockState.Established {
        OtherPending(s, l, k);
      }
    }
  }

  lemma {:induction false} RunNotices(s: State, run: seq<Label>)
    requires Inv(s) && ValidRun(s, run) && Noticed(s)
    ensures Noticed(After(s, run))
    decreases |run|
  {
    if run != [] {
      StepNotices(s, run[0]);
      ApplyInv(s, run[0]);
      RunNotices(Apply(s, run[0]), run[1..]);
    }
  }

  /** So a reachable pending connection is in the middle of its handshake, or lost. */
  lemma EarlyOrLost(cfg: Config, s: State, k: SessionKey)
    requires Reachable(cfg, s) && IsPending(s, k)
    ensures Early(StateIn(s, k)) <==> !Lost(s, k)
    ensures StateIn(s, k) != SockState.Established
  {
    var run :| ValidRun(Init(cfg), run) && After(Init(cfg), run) == s;
    InitInv(cfg);
    RunNotices(Init(cfg), run);
  }

  // ---- Losing connections ----

  lemma WaitLoses(s: State, r: State, id: InterfaceId, n: nat)
    requires AllPending(s, id, n) && Waited(s, r, CloseWait)
    ensures |r.tcp| == n && LostKeys(r) == r.tcp.Keys
  {
    assert |r.tcp| == |r.tcp.Keys| == |s.tcp.Keys|;
    forall k | k in r.tcp ensures Lost(r, k) {
      assert k in s.tcp && Followed(s, r, k, CloseWait);
    }
  }

  /**
   As many lost connections as the cap and the limit admit: the peer completes the handshake and sends its FIN before
   the next poll, which so takes the socket from SYN-RECEIVED to CLOSE-WAIT.
   */
  lemma LostReachable(cfg: Config, id: InterfaceId, n: nat) returns (r: State)
    requires NoDup(cfg.ifaces) && id in cfg.ifaces && n <= cfg.tcpMaxConnections
    requires Reservable(cfg, 0, n * (2 * cfg.tcpBufferSize))
    ensures Reachable(cfg, r) && Idle(r) && TcpOnly(r) && |r.tcp| == n && LostKeys(r) == r.tcp.Keys
  {
    var s := PendingReachable(cfg, id, n);
    r := Wait(cfg, s, CloseWait);
    WaitLoses(s, r, id, n);
  }
}

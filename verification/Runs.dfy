/**
 The netstack as a transition system. Every critical section is one step; a step's
 label carries what code outside the netstack decides. All results about runs
 start here: every reachable state satisfies `Inv`.
 */
module Runs {
  import opened Types
  import opened Connections
  import opened Counting
  import opened Ops
  import opened Invariant
  import opened PreserveAlloc
  import opened PreserveTcp
  import opened PreserveUdp

  datatype Label =
    | Ingress(id: InterfaceId, pkt: Packet)
    | Cycle(ch: Choices)
    | StreamShutdown(x: StreamId)
    | StreamDrop(x: StreamId)
    | SessionSend(q: QueueId, payload: Bytes, answer: SendOutcome)
    | SessionPop(q: QueueId)
    | SessionDrop(q: QueueId)

  /** `build`: one empty slot per interface, nothing charged. */
  ghost function Init(cfg: Config): State {
    State(cfg,
          map id | id in cfg.ifaces :: Slot(id, [], map[], [], cfg.tcpPoolSize, cfg.mtu, cfg.tcpBufferSize),
          map[], map[], map[], 0, map[], map[], map[],
          History(0, 0, 0, 0, 0, 0, 0, map id | id in cfg.ifaces :: 0))
  }

  ghost predicate Mapped(s: State) {
    forall id :: id in s.cfg.ifaces ==> id in s.slots
  }

  /**
   A poll adds and removes no sockets, moves connections along the transitions of the protocol, keeps what
   receive buffers hold, and may change anything else.
   */
  ghost predicate EnginePolls(a: map<InterfaceId, Slot>, b: map<InterfaceId, Slot>) {
    && SameSockets(a, b)
    && (forall id, h :: HasSocket(a, id, h) && a[id].sockets[h].TcpSock? ==>
          MayBecome(a[id].sockets[h].state, b[id].sockets[h].state))
    && (forall id, h :: HasSocket(a, id, h) && a[id].sockets[h].UdpSock? ==> a[id].sockets[h].rx <= b[id].sockets[h].rx)
  }

  ghost predicate CycleEnabled(s: State, ch: Choices) {
    && Mapped(s)
    && FreshPicks(ch)
    && HasIds(ch.polled, s.cfg.ifaces)
    && var p := PrePass(s, s.cfg.ifaces, ch);
       && EnginePolls(p.slots, SlotMap(ch.polled))
       && Enumerates(ch.tcpOrder, p.tcp.Keys)
       && Enumerates(ch.dstOrder, p.dsts.Keys)
       && Enumerates(ch.udpOrder, p.udp.Keys)
  }

  /** The state the post-pass starts from. */
  ghost function Polled(s: State, ch: Choices): State
    requires Mapped(s)
  {
    PrePass(s, s.cfg.ifaces, ch).(slots := SlotMap(ch.polled))
  }

  ghost predicate Enabled(s: State, l: Label) {
    match l
    case Ingress(_, _) => true
    case Cycle(ch) => CycleEnabled(s, ch)
    case StreamShutdown(x) => x in s.streams
    case StreamDrop(x) => x in s.streams
    case SessionSend(q, _, _) => q in s.sessions && q in s.queues
    case SessionPop(q) => q in s.sessions && q in s.queues
    case SessionDrop(q) => q in s.sessions
  }

  ghost function Apply(s: State, l: Label): State
    requires Enabled(s, l)
  {
    match l
    case Ingress(id, pkt) => Enqueue(s, id, pkt)
    case Cycle(ch) => PostPass(Polled(s, ch), ch)
    case StreamShutdown(x) => Shutdown(s, x)
    case StreamDrop(x) => DropStream(s, x)
    case SessionSend(q, payload, answer) => TrySend(s, q, payload, answer).0
    case SessionPop(q) => Pop(s, q).0
    case SessionDrop(q) => DropSession(s, q)
  }

  ghost predicate ValidRun(s: State, run: seq<Label>)
    decreases |run|
  {
    run == [] || (Enabled(s, run[0]) && ValidRun(Apply(s, run[0]), run[1..]))
  }

  ghost function After(s: State, run: seq<Label>): State
    requires ValidRun(s, run)
    decreases |run|
  {
    if run == [] then s else After(Apply(s, run[0]), run[1..])
  }

  /** `s` is the end of some run of a netstack built from `cfg`, whose interface ids are distinct. */
  ghost predicate Reachable(cfg: Config, s: State) {
    NoDup(cfg.ifaces) && exists run :: ValidRun(Init(cfg), run) && After(Init(cfg), run) == s
  }

  lemma InitTables(cfg: Config)
    requires NoDup(cfg.ifaces)
    ensures var s := Init(cfg);
            Ledger(s.tcp, s.udp, s.streams, s.hist) && Pools(cfg, s.slots, s.tcp, s.hist.peak) && Shape(cfg, s.slots)
  {
    var s := Init(cfg);
    assert Selected(s.tcp, NotPending()) == {};
    assert Selected(s.tcp, Orphaned()) == {};
    forall id ensures Selected(s.tcp, OnIface(id)) == {} {
    }
  }

  lemma InitBudget(cfg: Config)
    ensures var s := Init(cfg); Budget(cfg, s.bytes, |s.tcp|, |s.dsts|, s.hist.failedBinds) && Caps(cfg, s.tcp, s.udp)
  {
    assert Times(0, 2 * cfg.tcpBufferSize) == 0 && Times(0, UdpCost(cfg, cfg.mtu)) == 0;
  }

  lemma InitEmpty(cfg: Config)
    ensures var s := Init(cfg);
            && TcpOwned(s.slots, s.tcp) && DstOwned(s.slots, s.dsts) && NoLeak(s.slots, s.tcp, s.dsts)
            && RefCounts(s.udp, s.dsts)
            && Linked(s.udp, s.queues, s.sessions, s.hist.retains) && Exposed(s.tcp, s.streams, s.hist.accepted)
  {
  }

  lemma InitInv(cfg: Config)
    requires NoDup(cfg.ifaces)
    ensures Inv(Init(cfg))
  {
    InitTables(cfg);
    InitBudget(cfg);
    InitEmpty(cfg);
    PartsInv(Init(cfg));
  }

  lemma TcpPassInv(s: State, ch: Choices)
    requires Inv(s) && NoDup(ch.tcpOrder)
    ensures Inv(TcpPass(s, ch))
  {
    var v := VisitAll(s, ch.tcpOrder);
    VisitAllInv(s, ch.tcpOrder);
    ReapListReapable(v, ch.tcpOrder);
    ReapAllInv(v, ReapList(v, ch.tcpOrder));
  }

  lemma PostPassInv(s: State, ch: Choices)
    requires Inv(s) && NoDup(ch.tcpOrder)
    ensures Inv(PostPass(s, ch))
  {
    var t := TcpPass(s, ch);
    TcpPassInv(s, ch);
    RedistributeInv(t, ch);
    var u := Redistribute(t, ch);
    RemoveAllInv(u, ExpiredList(u, ch.udpOrder, ch.now));
  }

  lemma PolledInv(s: State, ch: Choices)
    requires Inv(s) && CycleEnabled(s, ch)
    ensures Inv(Polled(s, ch))
  {
    PrePassInv(s, s.cfg.ifaces, ch);
    SameSocketsKeepInv(PrePass(s, s.cfg.ifaces, ch), SlotMap(ch.polled));
  }

  /** Every step keeps the invariant. */
  lemma ApplyInv(s: State, l: Label)
    requires Inv(s) && Enabled(s, l)
    ensures Inv(Apply(s, l))
  {
    match l
    case Ingress(id, pkt) =>
      if id in s.slots {
        WithIngressInv(s, id, s.slots[id].ingress + [pkt]);
      }
    case Cycle(ch) =>
      PolledInv(s, ch);
      PostPassInv(Polled(s, ch), ch);
    case StreamShutdown(x) => ShutdownInv(s, x);
    case StreamDrop(x) => DropStreamInv(s, x);
    case SessionSend(q, payload, answer) => TrySendInv(s, q, payload, answer);
    case SessionPop(q) => PopInv(s, q);
    case SessionDrop(q) => DropSessionInv(s, q);
  }

  lemma {:induction false} RunInv(s: State, run: seq<Label>)
    requires Inv(s) && ValidRun(s, run)
    ensures Inv(After(s, run))
    decreases |run|
  {
    if run != [] {
      ApplyInv(s, run[0]);
      RunInv(Apply(s, run[0]), run[1..]);
    }
  }

  lemma ApplyCfg(s: State, l: Label)
    requires Enabled(s, l)
    ensures Apply(s, l).cfg == s.cfg
  {
  }

  lemma {:induction false} RunCfg(s: State, run: seq<Label>)
    requires ValidRun(s, run)
    ensures After(s, run).cfg == s.cfg
    decreases |run|
  {
    if run != [] {
      ApplyCfg(s, run[0]);
      RunCfg(Apply(s, run[0]), run[1..]);
    }
  }

  /** The invariant holds in every reachable state, and the configuration never changes. */
  lemma ReachableInv(cfg: Config, s: State)
    requires Reachable(cfg, s)
    ensures Inv(s) && s.cfg == cfg
  {
    var run :| ValidRun(Init(cfg), run) && After(Init(cfg), run) == s;
    InitInv(cfg);
    RunInv(Init(cfg), run);
    RunCfg(Init(cfg), run);
  }

  /** A run can be extended by any enabled step. */
  lemma {:induction false} ExtendRun(s: State, run: seq<Label>, l: Label)
    requires ValidRun(s, run) && Enabled(After(s, run), l)
    ensures ValidRun(s, run + [l]) && After(s, run + [l]) == Apply(After(s, run), l)
    decreases |run|
  {
    if run == [] {
      assert (run + [l])[1..] == [];
    } else {
      assert (run + [l])[1..] == run[1..] + [l];
      ExtendRun(Apply(s, run[0]), run[1..], l);
    }
  }

  lemma ReachableStep(cfg: Config, s: State, l: Label)
    requires Reachable(cfg, s) && Enabled(s, l)
    ensures Reachable(cfg, Apply(s, l))
  {
    var run :| ValidRun(Init(cfg), run) && After(Init(cfg), run) == s;
    ExtendRun(Init(cfg), run, l);
    EndOfRun(cfg, run + [l]);
  }

  lemma EndOfRun(cfg: Config, run: seq<Label>)
    requires NoDup(cfg.ifaces) && ValidRun(Init(cfg), run)
    ensures Reachable(cfg, After(Init(cfg), run))
  {
  }

  // ---- Going on from a state ----

  /** Some run leads from `s` to `t`. */
  ghost predicate Leads(s: State, t: State) {
    exists run :: ValidRun(s, run) && After(s, run) == t
  }

  lemma LeadsNowhere(s: State)
    ensures Leads(s, s)
  {
    assert ValidRun(s, []) && After(s, []) == s;
  }

  lemma LeadsOn(s: State, t: State, l: Label)
    requires Leads(s, t) && Enabled(t, l)
    ensures Leads(s, Apply(t, l))
  {
    var run :| ValidRun(s, run) && After(s, run) == t;
    ExtendRun(s, run, l);
  }

  lemma {:induction false} JoinRuns(s: State, a: seq<Label>, b: seq<Label>)
    requires ValidRun(s, a) && ValidRun(After(s, a), b)
    ensures ValidRun(s, a + b) && After(s, a + b) == After(After(s, a), b)
    decreases |a|
  {
    if a == [] {
      assert a + b == b;
    } else {
      assert (a + b)[1..] == a[1..] + b;
      JoinRuns(Apply(s, a[0]), a[1..], b);
    }
  }

  lemma LeadsFurther(s: State, t: State, u: State)
    requires Leads(s, t) && Leads(t, u)
    ensures Leads(s, u)
  {
    var a :| ValidRun(s, a) && After(s, a) == t;
    var b :| ValidRun(t, b) && After(t, b) == u;
    JoinRuns(s, a, b);
  }

  lemma ReachableLeads(cfg: Config, s: State, t: State)
    requires Reachable(cfg, s) && Leads(s, t)
    ensures Reachable(cfg, t)
  {
    LeadsFurther(Init(cfg), s, t);
  }
}

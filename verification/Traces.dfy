/**
 The life of a TCP key over whole runs. What happens under one key is read off the states
 of a run as a sequence of events; every such sequence goes round
 inserted, accepted, dropped, removed, and each round has one stream of its own.
 */
module Traces {
  import opened Types
  import opened Ops
  import opened Invariant
  import opened PreserveTcp
  import opened PrePassFacts
  import opened Runs
  import opened Lifecycle

  datatype Event = Inserted | Accepted(x: StreamId) | Dropped(x: StreamId) | Removed

  // ---- Reading events off a step ----

  /** The table a post-pass starts from; other steps neither insert nor remove entries in between. */
  ghost function Between(s: State, l: Label): map<SessionKey, TcpEntry>
    requires Enabled(s, l)
  {
    if l.Cycle? then Polled(s, l.ch).tcp else s.tcp
  }

  /** The streams for `k` among those numbered from `lo` up to `hi`. */
  ghost function StreamsFor(streams: map<StreamId, Stream>, k: SessionKey, lo: nat, hi: nat): seq<Event>
    decreases hi - lo
  {
    if lo >= hi then []
    else (if lo in streams && streams[lo].key == k then [Accepted(lo)] else []) + StreamsFor(streams, k, lo + 1, hi)
  }

  /** What one step does under key `k`: streams are numbered by acceptance, so new ones have the new numbers. */
  ghost function StepEvents(s: State, l: Label, k: SessionKey): seq<Event>
    requires Enabled(s, l)
  {
    var r := Apply(s, l);
    (if k !in s.tcp && k in Between(s, l) then [Inserted] else [])
    + StreamsFor(r.streams, k, s.hist.accepted, r.hist.accepted)
    + (if l.StreamDrop? && s.streams[l.x].key == k then [Dropped(l.x)] else [])
    + (if k in Between(s, l) && k !in r.tcp then [Removed] else [])
  }

  ghost function Trace(s: State, run: seq<Label>, k: SessionKey): seq<Event>
    requires ValidRun(s, run)
    decreases |run|
  {
    if run == [] then [] else StepEvents(s, run[0], k) + Trace(Apply(s, run[0]), run[1..], k)
  }

  // ---- The rounds ----

  datatype Phase = Absent | Listed | Handed(x: StreamId) | Left | Bad

  function Next(ph: Phase, e: Event): Phase {
    match e
    case Inserted => if ph.Absent? then Listed else Bad
    case Accepted(x) => if ph.Listed? then Handed(x) else Bad
    case Dropped(x) => if ph == Handed(x) then Left else Bad
    case Removed => if ph.Left? then Absent else Bad
  }

  function Walk(ph: Phase, es: seq<Event>): Phase
    decreases |es|
  {
    if es == [] then ph else Walk(Next(ph, es[0]), es[1..])
  }

  /** Where the key stands in state `s`. */
  ghost predicate InPhase(s: State, k: SessionKey, ph: Phase) {
    match ph
    case Absent => k !in s.tcp
    case Listed => k in s.tcp && s.tcp[k].state.Pending?
    case Handed(x) =>
      && k in s.tcp && !s.tcp[k].state.Pending? && !s.tcp[k].orphaned
      && x in s.streams && s.streams[x] == Stream(k, s.tcp[k].handle)
    case Left => k in s.tcp && !s.tcp[k].state.Pending? && s.tcp[k].orphaned
    case Bad => false
  }

  lemma WalkShort(ph: Phase, e: Event, f: Event)
    ensures Walk(ph, []) == ph && Walk(ph, [e]) == Next(ph, e) && Walk(ph, [e, f]) == Next(Next(ph, e), f)
  {
    assert [e, f][1..] == [f];
    assert Walk(ph, [e, f]) == Walk(Next(ph, e), [f]) == Walk(Next(Next(ph, e), f), []);
  }

  lemma {:induction false} WalkConcat(ph: Phase, a: seq<Event>, b: seq<Event>)
    ensures Walk(ph, a + b) == Walk(Walk(ph, a), b)
    decreases |a|
  {
    if a == [] {
      assert a + b == b;
    } else {
      assert (a + b)[1..] == a[1..] + b;
      WalkConcat(Next(ph, a[0]), a[1..], b);
    }
  }

  // ---- New streams ----

  lemma VisitStreams(s: State, k: SessionKey)
    requires forall x :: x in s.streams ==> x < s.hist.accepted
    ensures var t := Visit(s, k);
            && s.hist.accepted <= t.hist.accepted && (forall x :: x in t.streams ==> x < t.hist.accepted)
            && (forall x :: x < s.hist.accepted ==>
                 (x in t.streams <==> x in s.streams) && (x in s.streams ==> t.streams[x] == s.streams[x]))
  {
    VisitCases(s, k);
  }

  lemma {:induction false} VisitAllStreams(s: State, ks: seq<SessionKey>)
    requires forall x :: x in s.streams ==> x < s.hist.accepted
    ensures var t := VisitAll(s, ks);
            && s.hist.accepted <= t.hist.accepted && (forall x :: x in t.streams ==> x < t.hist.accepted)
            && (forall x :: x < s.hist.accepted ==>
                 (x in t.streams <==> x in s.streams) && (x in s.streams ==> t.streams[x] == s.streams[x]))
    decreases |ks|
  {
    if ks != [] {
      VisitStreams(s, ks[0]);
      VisitAllStreams(Visit(s, ks[0]), ks[1..]);
    }
  }

  /** A cycle keeps the streams there are and numbers new ones from the count of accepted ones. */
  ghost predicate StreamsGrow(s: State, r: State) {
    && s.hist.accepted <= r.hist.accepted
    && (forall x :: x < s.hist.accepted ==>
         (x in r.streams <==> x in s.streams) && (x in s.streams ==> r.streams[x] == s.streams[x]))
  }

  lemma CycleStreams(s: State, ch: Choices)
    requires Inv(s) && CycleEnabled(s, ch)
    ensures StreamsGrow(s, PostPass(Polled(s, ch), ch))
  {
    var p := Polled(s, ch);
    InvExposed(s);
    PrePassGrows(s, s.cfg.ifaces, ch);
    VisitAllStreams(p, ch.tcpOrder);
    PostPassStreams(p, ch);
  }

  lemma PostPassStreams(p: State, ch: Choices)
    ensures var r, v := PostPass(p, ch), VisitAll(p, ch.tcpOrder);
              r.streams == v.streams && r.hist.accepted == v.hist.accepted
  {
  }

  /** No two streams have the same key, so a step lists at most one new stream under `k`. */
  lemma {:induction false} NoStreamFor(streams: map<StreamId, Stream>, k: SessionKey, lo: nat, hi: nat)
    requires forall x :: lo <= x < hi && x in streams ==> streams[x].key != k
    ensures StreamsFor(streams, k, lo, hi) == []
    decreases hi - lo
  {
    if lo < hi {
      NoStreamFor(streams, k, lo + 1, hi);
    }
  }

  lemma {:induction false} OneStreamFor(streams: map<StreamId, Stream>, k: SessionKey, lo: nat, hi: nat, x: StreamId)
    requires lo <= x < hi && x in streams && streams[x].key == k
    requires forall y :: y in streams && streams[y].key == k ==> y == x
    ensures StreamsFor(streams, k, lo, hi) == [Accepted(x)]
    decreases hi - lo
  {
    if lo == x {
      NoStreamFor(streams, k, lo + 1, hi);
    } else {
      OneStreamFor(streams, k, lo + 1, hi, x);
    }
  }

  /** The streams for `k` that a step adds: one if the entry is exposed now and had no stream before, otherwise none. */
  lemma NewStream(s: State, r: State, k: SessionKey) returns (x: StreamId)
    requires Exposed(s.tcp, s.streams, s.hist.accepted) && Exposed(r.tcp, r.streams, r.hist.accepted) &&
             StreamsGrow(s, r)
    ensures var es := StreamsFor(r.streams, k, s.hist.accepted, r.hist.accepted);
            var open := k in r.tcp && !r.tcp[k].state.Pending? && !r.tcp[k].orphaned;
            if open && !HasStream(s.streams, k)
            then es == [Accepted(x)] && x in r.streams && r.streams[x] == Stream(k, r.tcp[k].handle)
            else es == []
  {
    x := 0;
    if k in r.tcp && !r.tcp[k].state.Pending? && !r.tcp[k].orphaned {
      assert HasStream(r.streams, k);
      x :| x in r.streams && r.streams[x].key == k;
      if x < s.hist.accepted {
        NoStreamFor(r.streams, k, s.hist.accepted, r.hist.accepted);
      } else {
        OneStreamFor(r.streams, k, s.hist.accepted, r.hist.accepted, x);
        assert !HasStream(s.streams, k) by {
          assert forall y :: y in s.streams ==> y < s.hist.accepted && r.streams[y] == s.streams[y];
        }
      }
    } else {
      NoStreamFor(r.streams, k, s.hist.accepted, r.hist.accepted);
    }
  }

  // ---- One step ----

  ghost function CycleEvents(s: State, p: State, r: State, k: SessionKey): seq<Event> {
    (if k !in s.tcp && k in p.tcp then [Inserted] else [])
    + StreamsFor(r.streams, k, s.hist.accepted, r.hist.accepted)
    + (if k in p.tcp && k !in r.tcp then [Removed] else [])
  }

  lemma CycleFromAbsent(s: State, p: State, r: State, k: SessionKey)
    requires Exposed(s.tcp, s.streams, s.hist.accepted) && Exposed(r.tcp, r.streams, r.hist.accepted) &&
             StreamsGrow(s, r)
    requires CycleTables(s, p, r, k) && InPhase(s, k, Absent)
    ensures InPhase(r, k, Walk(Absent, CycleEvents(s, p, r, k)))
  {
    var x := NewStream(s, r, k);
    assert !HasStream(s.streams, k);
    WalkShort(Absent, Inserted, Accepted(x));
    assert CycleEvents(s, p, r, k) ==
           if k !in p.tcp then [] else if r.tcp[k].state.Pending? then [Inserted] else [Inserted, Accepted(x)];
  }

  lemma CycleFromListed(s: State, p: State, r: State, k: SessionKey)
    requires Exposed(s.tcp, s.streams, s.hist.accepted) && Exposed(r.tcp, r.streams, r.hist.accepted) &&
             StreamsGrow(s, r)
    requires CycleTables(s, p, r, k) && InPhase(s, k, Listed)
    ensures InPhase(r, k, Walk(Listed, CycleEvents(s, p, r, k)))
  {
    var x := NewStream(s, r, k);
    assert !HasStream(s.streams, k);
    WalkShort(Listed, Accepted(x), Removed);
    assert CycleEvents(s, p, r, k) == if r.tcp[k].state.Pending? then [] else [Accepted(x)];
  }

  lemma CycleFromHanded(s: State, p: State, r: State, k: SessionKey, x: StreamId)
    requires Exposed(s.tcp, s.streams, s.hist.accepted) && Exposed(r.tcp, r.streams, r.hist.accepted) &&
             StreamsGrow(s, r)
    requires CycleTables(s, p, r, k) && InPhase(s, k, Handed(x))
    ensures InPhase(r, k, Walk(Handed(x), CycleEvents(s, p, r, k)))
  {
    var y := NewStream(s, r, k);
    assert HasStream(s.streams, k);
    assert CycleEvents(s, p, r, k) == [];
  }

  lemma CycleFromLeft(s: State, p: State, r: State, k: SessionKey)
    requires Exposed(s.tcp, s.streams, s.hist.accepted) && Exposed(r.tcp, r.streams, r.hist.accepted) &&
             StreamsGrow(s, r)
    requires CycleTables(s, p, r, k) && InPhase(s, k, Left)
    ensures InPhase(r, k, Walk(Left, CycleEvents(s, p, r, k)))
  {
    var x := NewStream(s, r, k);
    WalkShort(Left, Removed, Removed);
    assert CycleEvents(s, p, r, k) == if k in r.tcp then [] else [Removed];
  }

  lemma CyclePhase(s: State, p: State, r: State, k: SessionKey, ph: Phase)
    requires Exposed(s.tcp, s.streams, s.hist.accepted) && Exposed(r.tcp, r.streams, r.hist.accepted) &&
             StreamsGrow(s, r)
    requires CycleTables(s, p, r, k) && InPhase(s, k, ph)
    ensures InPhase(r, k, Walk(ph, CycleEvents(s, p, r, k)))
  {
    match ph
    case Absent => CycleFromAbsent(s, p, r, k);
    case Listed => CycleFromListed(s, p, r, k);
    case Handed(x) => CycleFromHanded(s, p, r, k, x);
    case Left => CycleFromLeft(s, p, r, k);
  }

  lemma CycleStepEvents(s: State, ch: Choices, k: SessionKey)
    requires CycleEnabled(s, ch)
    ensures StepEvents(s, Cycle(ch), k) == CycleEvents(s, Polled(s, ch), PostPass(Polled(s, ch), ch), k)
  {
  }

  lemma OtherStreams(s: State, l: Label)
    requires Enabled(s, l) && !l.Cycle?
    ensures var r := Apply(s, l);
            r.hist.accepted == s.hist.accepted && r.streams == if l.StreamDrop? then s.streams - {l.x} else s.streams
  {
    match l
    case Ingress(id, pkt) =>
    case StreamShutdown(x) =>
    case StreamDrop(x) =>
    case SessionSend(q, payload, answer) =>
    case SessionPop(q) =>
    case SessionDrop(q) =>
  }

  lemma OtherPhase(s: State, l: Label, k: SessionKey, ph: Phase)
    requires Enabled(s, l) && !l.Cycle? && Exposed(s.tcp, s.streams, s.hist.accepted) && InPhase(s, k, ph)
    ensures InPhase(Apply(s, l), k, Walk(ph, StepEvents(s, l, k)))
  {
    var r := Apply(s, l);
    OtherStreams(s, l);
    if l.StreamDrop? {
      DropStreamTable(s, l.x);
      WalkShort(ph, Dropped(l.x), Removed);
    } else {
      OtherSteps(s, l);
    }
    assert StreamsFor(r.streams, k, s.hist.accepted, r.hist.accepted) == [];
    assert StepEvents(s, l, k) == if l.StreamDrop? && s.streams[l.x].key == k then [Dropped(l.x)] else [];
  }

  lemma StepPhase(s: State, l: Label, k: SessionKey, ph: Phase)
    requires Inv(s) && Enabled(s, l) && InPhase(s, k, ph)
    ensures InPhase(Apply(s, l), k, Walk(ph, StepEvents(s, l, k)))
  {
    InvExposed(s);
    if l.Cycle? {
      CycleStreams(s, l.ch);
      CycleTcp(s, l.ch, k);
      ApplyInv(s, l);
      InvExposed(Apply(s, l));
      CycleStepEvents(s, l.ch, k);
      CyclePhase(s, Polled(s, l.ch), Apply(s, l), k, ph);
    } else {
      OtherPhase(s, l, k, ph);
    }
  }

  // ---- Whole runs ----

  /** The events of a run lead from where the key stands to where it ends, without a wrong turn. */
  lemma {:induction false} RunPhase(s: State, run: seq<Label>, k: SessionKey, ph: Phase)
    requires Inv(s) && ValidRun(s, run) && InPhase(s, k, ph)
    ensures InPhase(After(s, run), k, Walk(ph, Trace(s, run, k)))
    decreases |run|
  {
    if run != [] {
      var t := Apply(s, run[0]);
      StepPhase(s, run[0], k, ph);
      ApplyInv(s, run[0]);
      RunPhase(t, run[1..], k, Walk(ph, StepEvents(s, run[0], k)));
      WalkConcat(ph, StepEvents(s, run[0], k), Trace(t, run[1..], k));
    }
  }

  /** Round after round: inserted, accepted with a stream, that stream dropped, removed. */
  ghost predicate Rounds(es: seq<Event>) {
    forall i :: 0 <= i < |es| ==> InRound(es, i)
  }

  ghost predicate InRound(es: seq<Event>, i: nat)
    requires i < |es|
  {
    if i % 4 == 0 then es[i].Inserted?
    else if i % 4 == 1 then es[i].Accepted?
    else if i % 4 == 2 then es[i - 1].Accepted? && es[i] == Dropped(es[i - 1].x)
    else es[i].Removed?
  }

  ghost predicate PhaseAfter(es: seq<Event>, ph: Phase) {
    if |es| % 4 == 0 then ph.Absent?
    else if |es| % 4 == 1 then ph.Listed?
    else if |es| % 4 == 2 then es[|es| - 1].Accepted? && ph == Handed(es[|es| - 1].x)
    else ph.Left?
  }

  lemma {:induction false} WalkRounds(es: seq<Event>)
    requires !Walk(Absent, es).Bad?
    ensures Rounds(es) && PhaseAfter(es, Walk(Absent, es))
    decreases |es|
  {
    if es != [] {
      var n := |es| - 1;
      var front := es[..n];
      assert es == front + [es[n]];
      WalkConcat(Absent, front, [es[n]]);
      WalkShort(Walk(Absent, front), es[n], es[n]);
      WalkRounds(front);
      forall i | 0 <= i < n ensures InRound(es, i) {
        assert InRound(front, i);
      }
      assert InRound(es, n);
    }
  }

  /** In particular a removal is preceded by one insertion, one acceptance and the drop of that very stream. */
  lemma RemovalEndsRound(es: seq<Event>, i: nat)
    requires Rounds(es) && i < |es| && es[i].Removed?
    ensures i >= 3 && es[i - 3].Inserted? && es[i - 2].Accepted? && es[i - 1] == Dropped(es[i - 2].x)
  {
    assert InRound(es, i);
    assert InRound(es, i - 1) && InRound(es, i - 3);
  }

  /**
   Over any run of a netstack, what happens under a TCP key is a sequence of rounds: its entry is inserted, yields
   one stream, that stream is dropped, and only then the entry is removed. The last round may be unfinished.
   */
  lemma KeyGoesInRounds(cfg: Config, run: seq<Label>, k: SessionKey)
    requires NoDup(cfg.ifaces) && ValidRun(Init(cfg), run)
    ensures var es, s := Trace(Init(cfg), run, k), After(Init(cfg), run); Rounds(es) && InPhase(s, k, Walk(Absent, es))
  {
    InitInv(cfg);
    RunPhase(Init(cfg), run, k, Absent);
    WalkRounds(Trace(Init(cfg), run, k));
  }

  // ---- What each event means ----

  lemma {:induction false} StreamsForMember(streams: map<StreamId, Stream>, k: SessionKey, lo: nat, hi: nat, e: Event)
    requires e in StreamsFor(streams, k, lo, hi)
    ensures e.Accepted? && lo <= e.x < hi && e.x in streams && streams[e.x].key == k
    decreases hi - lo
  {
    if lo < hi && !(lo in streams && streams[lo].key == k && e == Accepted(lo)) {
      StreamsForMember(streams, k, lo + 1, hi, e);
    }
  }

  /** A stream is handed out exactly when its own entry, pending until then, is found established. */
  ghost predicate AcceptMeans(s: State, p: State, r: State, k: SessionKey, x: StreamId) {
    && k in p.tcp && p.tcp[k].state.Pending? && SockStateOf(p.slots, k, p.tcp[k]) == SockState.Established
    && k in r.tcp && r.tcp[k] == p.tcp[k].(state := TcpState.Established)
    && x !in s.streams && x in r.streams && r.streams[x] == Stream(k, p.tcp[k].handle)
  }

  lemma AcceptedMeans(s: State, p: State, r: State, k: SessionKey, x: StreamId)
    requires Exposed(s.tcp, s.streams, s.hist.accepted) && Exposed(r.tcp, r.streams, r.hist.accepted) &&
             StreamsGrow(s, r)
    requires CycleTables(s, p, r, k) && s.hist.accepted <= x && x in r.streams && r.streams[x].key == k
    ensures AcceptMeans(s, p, r, k, x)
  {
    assert !HasStream(s.streams, k) by {
      assert forall y :: y in s.streams ==> y < s.hist.accepted && y in r.streams && r.streams[y] == s.streams[y];
    }
  }

  ghost predicate Means(s: State, l: Label, k: SessionKey, e: Event)
    requires Enabled(s, l)
  {
    if l.Cycle? then MeansInCycle(s, Polled(s, l.ch), Apply(s, l), k, e)
    else l.StreamDrop? && e == Dropped(l.x) && s.streams[l.x].key == k
  }

  ghost predicate MeansInCycle(s: State, p: State, r: State, k: SessionKey, e: Event) {
    match e
    case Inserted => k !in s.tcp && k in p.tcp && p.tcp[k].state.Pending?
    case Accepted(x) => AcceptMeans(s, p, r, k, x)
    case Dropped(x) => false
    case Removed => k in s.tcp && s.tcp[k].orphaned && SockStateOf(p.slots, k, s.tcp[k]) == SockState.Closed
  }

  lemma {:induction false} StreamListed(streams: map<StreamId, Stream>, k: SessionKey, lo: nat, hi: nat, x: StreamId)
    requires lo <= x < hi && x in streams && streams[x].key == k
    ensures Accepted(x) in StreamsFor(streams, k, lo, hi)
    decreases hi - lo
  {
    if lo < x {
      StreamListed(streams, k, lo + 1, hi, x);
    }
  }

  lemma EventInTables(s: State, p: State, r: State, k: SessionKey, e: Event)
    requires Exposed(s.tcp, s.streams, s.hist.accepted) && Exposed(r.tcp, r.streams, r.hist.accepted) &&
             StreamsGrow(s, r)
    requires CycleTables(s, p, r, k)
    ensures e in CycleEvents(s, p, r, k) <==> MeansInCycle(s, p, r, k, e)
  {
    if e in StreamsFor(r.streams, k, s.hist.accepted, r.hist.accepted) {
      StreamsForMember(r.streams, k, s.hist.accepted, r.hist.accepted, e);
      AcceptedMeans(s, p, r, k, e.x);
    }
    if e.Accepted? && AcceptMeans(s, p, r, k, e.x) {
      StreamListed(r.streams, k, s.hist.accepted, r.hist.accepted, e.x);
    }
  }

  lemma CycleMeans(s: State, ch: Choices, k: SessionKey, e: Event)
    requires Inv(s) && CycleEnabled(s, ch)
    ensures e in StepEvents(s, Cycle(ch), k) <==> Means(s, Cycle(ch), k, e)
  {
    var p, r := Polled(s, ch), PostPass(Polled(s, ch), ch);
    InvExposed(s);
    CycleStreams(s, ch);
    CycleTcp(s, ch, k);
    PolledInv(s, ch);
    PostPassInv(p, ch);
    InvExposed(r);
    CycleStepEvents(s, ch, k);
    EventInTables(s, p, r, k, e);
  }

  /**
   An event happens in a step exactly if what its name says does: in particular removal is the reaping of an orphaned
   entry whose socket is closed.
   */
  lemma EventMeaning(cfg: Config, s: State, l: Label, k: SessionKey, e: Event)
    requires Reachable(cfg, s) && Enabled(s, l)
    ensures e in StepEvents(s, l, k) <==> Means(s, l, k, e)
  {
    ReachableInv(cfg, s);
    if l.Cycle? {
      CycleMeans(s, l.ch, k, e);
    } else {
      InvExposed(s);
      OtherMeans(s, l, k, e);
    }
  }

  lemma OtherMeans(s: State, l: Label, k: SessionKey, e: Event)
    requires Enabled(s, l) && !l.Cycle? && Exposed(s.tcp, s.streams, s.hist.accepted)
    ensures e in StepEvents(s, l, k) <==> Means(s, l, k, e)
  {
    OtherStreams(s, l);
    if l.StreamDrop? {
      DropStreamTable(s, l.x);
    } else {
      OtherSteps(s, l);
    }
  }

  /** The post-pass that starts from `p` finds the pending entry under `k` established. */
  ghost predicate FoundEstablished(p: State, k: SessionKey) {
    k in p.tcp && p.tcp[k].state.Pending? && SockStateOf(p.slots, k, p.tcp[k]) == SockState.Established
  }

  /** A cycle hands out a stream for `k` exactly if it finds the pending entry under `k` established. */
  lemma AcceptedIff(s: State, ch: Choices, k: SessionKey)
    requires Inv(s) && CycleEnabled(s, ch)
    ensures (exists x :: Accepted(x) in StepEvents(s, Cycle(ch), k)) <==> FoundEstablished(Polled(s, ch), k)
  {
    var p, r := Polled(s, ch), PostPass(Polled(s, ch), ch);
    InvExposed(s);
    CycleStreams(s, ch);
    CycleTcp(s, ch, k);
    PolledInv(s, ch);
    PostPassInv(p, ch);
    InvExposed(r);
    CycleStepEvents(s, ch, k);
    AcceptedInTables(s, p, r, k);
  }

  lemma AcceptedInTables(s: State, p: State, r: State, k: SessionKey)
    requires Exposed(s.tcp, s.streams, s.hist.accepted) && Exposed(r.tcp, r.streams, r.hist.accepted) &&
             StreamsGrow(s, r)
    requires CycleTables(s, p, r, k)
    ensures (exists x :: Accepted(x) in CycleEvents(s, p, r, k)) <==> FoundEstablished(p, k)
  {
    if x :| Accepted(x) in CycleEvents(s, p, r, k) {
      EventInTables(s, p, r, k, Accepted(x));
    }
    if FoundEstablished(p, k) {
      assert !HasStream(s.streams, k);
      var x := NewStream(s, r, k);
      assert Accepted(x) in StreamsFor(r.streams, k, s.hist.accepted, r.hist.accepted);
      assert Accepted(x) in CycleEvents(s, p, r, k);
    }
  }

  // ---- Each round has a stream of its own ----

  /** The accepted streams are numbered upwards from `lo`. */
  ghost predicate Upwards(es: seq<Event>, lo: nat)
    decreases |es|
  {
    es == [] || (if es[0].Accepted? then lo <= es[0].x && Upwards(es[1..], es[0].x + 1) else Upwards(es[1..], lo))
  }

  ghost predicate AllBelow(es: seq<Event>, hi: nat) {
    forall e :: e in es && e.Accepted? ==> e.x < hi
  }

  lemma {:induction false} UpwardsFrom(es: seq<Event>, lo: nat, higher: nat)
    requires Upwards(es, higher) && lo <= higher
    ensures Upwards(es, lo)
    decreases |es|
  {
    if es != [] && !es[0].Accepted? {
      UpwardsFrom(es[1..], lo, higher);
    }
  }

  lemma {:induction false} UpwardsConcat(a: seq<Event>, b: seq<Event>, lo: nat, mid: nat)
    requires Upwards(a, lo) && AllBelow(a, mid) && lo <= mid && Upwards(b, mid)
    ensures Upwards(a + b, lo)
    decreases |a|
  {
    if a == [] {
      assert a + b == b;
      UpwardsFrom(b, lo, mid);
    } else {
      assert (a + b)[1..] == a[1..] + b;
      assert a[0] in a;
      UpwardsConcat(a[1..], b, if a[0].Accepted? then a[0].x + 1 else lo, mid);
    }
  }

  lemma {:induction false} StreamsUpwards(streams: map<StreamId, Stream>, k: SessionKey, lo: nat, hi: nat)
    ensures Upwards(StreamsFor(streams, k, lo, hi), lo) && AllBelow(StreamsFor(streams, k, lo, hi), hi)
    decreases hi - lo
  {
    if lo < hi {
      var rest := StreamsFor(streams, k, lo + 1, hi);
      StreamsUpwards(streams, k, lo + 1, hi);
      if lo in streams && streams[lo].key == k {
        assert ([Accepted(lo)] + rest)[1..] == rest;
      } else {
        assert [] + rest == rest;
        UpwardsFrom(rest, lo, lo + 1);
      }
    }
  }

  /** No event of `es` is an acceptance. */
  ghost predicate NoAccept(es: seq<Event>) {
    forall e :: e in es ==> !e.Accepted?
  }

  lemma {:induction false} NoAcceptUpwards(es: seq<Event>, lo: nat)
    requires NoAccept(es)
    ensures Upwards(es, lo)
    decreases |es|
  {
    if es != [] {
      assert es[0] in es;
      NoAcceptUpwards(es[1..], lo);
    }
  }

  lemma UpwardsAround(a: seq<Event>, b: seq<Event>, c: seq<Event>, d: seq<Event>, lo: nat, hi: nat)
    requires NoAccept(a) && NoAccept(c) && NoAccept(d) && Upwards(b, lo) && AllBelow(b, hi) && lo <= hi
    ensures Upwards(a + b + c + d, lo) && AllBelow(a + b + c + d, hi)
  {
    NoAcceptUpwards(a, lo);
    UpwardsConcat(a, b, lo, lo);
    NoAcceptUpwards(c, hi);
    UpwardsConcat(a + b, c, lo, hi);
    NoAcceptUpwards(d, hi);
    UpwardsConcat(a + b + c, d, lo, hi);
  }

  lemma CycleUpwards(s: State, p: State, r: State, k: SessionKey)
    requires s.hist.accepted <= r.hist.accepted
    ensures Upwards(CycleEvents(s, p, r, k), s.hist.accepted) && AllBelow(CycleEvents(s, p, r, k), r.hist.accepted)
  {
    var lo, hi := s.hist.accepted, r.hist.accepted;
    var a := if k !in s.tcp && k in p.tcp then [Inserted] else [];
    var d := if k in p.tcp && k !in r.tcp then [Removed] else [];
    StreamsUpwards(r.streams, k, lo, hi);
    UpwardsAround(a, StreamsFor(r.streams, k, lo, hi), [], d, lo, hi);
    assert a + StreamsFor(r.streams, k, lo, hi) + [] == a + StreamsFor(r.streams, k, lo, hi);
  }

  lemma OtherEvents(s: State, l: Label, k: SessionKey)
    requires Enabled(s, l) && !l.Cycle?
    ensures NoAccept(StepEvents(s, l, k)) && Apply(s, l).hist.accepted == s.hist.accepted
  {
    OtherStreams(s, l);
    assert StreamsFor(Apply(s, l).streams, k, s.hist.accepted, Apply(s, l).hist.accepted) == [];
  }

  lemma StepUpwards(s: State, l: Label, k: SessionKey)
    requires Inv(s) && Enabled(s, l)
    ensures s.hist.accepted <= Apply(s, l).hist.accepted
    ensures Upwards(StepEvents(s, l, k), s.hist.accepted) && AllBelow(StepEvents(s, l, k), Apply(s, l).hist.accepted)
  {
    if l.Cycle? {
      CycleStreams(s, l.ch);
      CycleStepEvents(s, l.ch, k);
      CycleUpwards(s, Polled(s, l.ch), PostPass(Polled(s, l.ch), l.ch), k);
    } else {
      OtherEvents(s, l, k);
      NoAcceptUpwards(StepEvents(s, l, k), s.hist.accepted);
    }
  }

  lemma {:induction false} RunUpwards(s: State, run: seq<Label>, k: SessionKey)
    requires Inv(s) && ValidRun(s, run)
    ensures Upwards(Trace(s, run, k), s.hist.accepted)
    decreases |run|
  {
    if run != [] {
      var t := Apply(s, run[0]);
      StepUpwards(s, run[0], k);
      ApplyInv(s, run[0]);
      RunUpwards(t, run[1..], k);
      UpwardsConcat(StepEvents(s, run[0], k), Trace(t, run[1..], k), s.hist.accepted, t.hist.accepted);
    }
  }

  lemma {:induction false} UpwardsDistinct(es: seq<Event>, lo: nat, i: nat, j: nat)
    requires Upwards(es, lo) && i < j < |es| && es[i].Accepted? && es[j].Accepted?
    ensures es[i].x < es[j].x
    decreases |es|
  {
    if i == 0 {
      UpwardsAbove(es[1..], es[0].x + 1, j - 1);
    } else {
      UpwardsDistinct(es[1..], if es[0].Accepted? then es[0].x + 1 else lo, i - 1, j - 1);
    }
  }

  lemma {:induction false} UpwardsAbove(es: seq<Event>, lo: nat, j: nat)
    requires Upwards(es, lo) && j < |es| && es[j].Accepted?
    ensures lo <= es[j].x
    decreases |es|
  {
    if j > 0 {
      UpwardsAbove(es[1..], if es[0].Accepted? then es[0].x + 1 else lo, j - 1);
    }
  }

  /** Different rounds of a key have different streams. */
  lemma RoundsHaveOwnStreams(cfg: Config, run: seq<Label>, k: SessionKey, i: nat, j: nat)
    requires NoDup(cfg.ifaces) && ValidRun(Init(cfg), run) && i < j < |Trace(Init(cfg), run, k)|
    requires var es := Trace(Init(cfg), run, k); es[i].Accepted? && es[j].Accepted?
    ensures var es := Trace(Init(cfg), run, k); es[i].x < es[j].x
  {
    InitInv(cfg);
    RunUpwards(Init(cfg), run, k);
    UpwardsDistinct(Trace(Init(cfg), run, k), 0, i, j);
  }
}

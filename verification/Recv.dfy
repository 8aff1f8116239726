/**
 `WayUdpSession::recv` against the runner. Its pop, closed-check, registration and
 wait are separate steps outside the core lock, so pushes and closes fall between
 them; `notify_waiters` wakes a registered receiver and keeps no permit.
 */
module Recv {
  import opened Types
  import opened Counting

  /** Where the receiver stands; `Got` and `GotNone` are returns from `recv`. */
  datatype Pc = Popping | Checking | Registering | Waiting(woken: bool) | Got(data: Bytes) | GotNone

  /** The queue and the receiver. */
  datatype Chan = Chan(inner: seq<Bytes>, closed: bool, pc: Pc)

  datatype Event = Push(data: Bytes) | Close | Step

  const START: Chan := Chan([], false, Popping)

  function Wake(pc: Pc): Pc {
    if pc.Waiting? then Waiting(true) else pc
  }

  /** One step of the receiver; a receiver that waits unwoken stays where it is. */
  function Receive(c: Chan): Chan {
    match c.pc
    case Popping =>
      if c.inner == [] then c.(pc := Checking)
      else c.(pc := Got(c.inner[0]), inner := c.inner[1..])
    case Checking => c.(pc := if c.closed then GotNone else Registering)
    case Registering => c.(pc := Waiting(false))
    case Waiting(woken) => if woken then c.(pc := Popping) else c
    case Got(_) => c.(pc := Popping)
    case GotNone => c.(pc := Popping)
  }

  function Next(c: Chan, e: Event): Chan {
    match e
    case Push(data) => c.(inner := c.inner + [data], pc := Wake(c.pc))
    case Close => c.(closed := true, pc := Wake(c.pc))
    case Step => Receive(c)
  }

  function Final(c: Chan, run: seq<Event>): Chan
    decreases |run|
  {
    if run == [] then c else Final(Next(c, run[0]), run[1..])
  }

  lemma {:induction false} FinalConcat(c: Chan, a: seq<Event>, b: seq<Event>)
    ensures Final(c, a + b) == Final(Final(c, a), b)
    decreases |a|
  {
    if a == [] {
      assert a + b == b;
    } else {
      assert (a + b)[1..] == a[1..] + b;
      FinalConcat(Next(c, a[0]), a[1..], b);
    }
  }

  lemma FinalLast(run: seq<Event>)
    requires run != []
    ensures Final(START, run) == Next(Final(START, run[..|run| - 1]), run[|run| - 1])
  {
    var n := |run| - 1;
    assert run == run[..n] + [run[n]];
    FinalConcat(START, run[..n], [run[n]]);
    assert Final(Final(START, run[..n]), [run[n]]) == Final(Next(Final(START, run[..n]), run[n]), []);
  }

  // ---- Nothing is lost, doubled or reordered ----

  ghost function PushedBy(e: Event): seq<Bytes> {
    if e.Push? then [e.data] else []
  }

  /** All that a run pushes, in order. */
  ghost function Pushed(run: seq<Event>): seq<Bytes>
    decreases |run|
  {
    if run == [] then [] else PushedBy(run[0]) + Pushed(run[1..])
  }

  ghost function ReturnedBy(c: Chan, e: Event): seq<Bytes> {
    if e.Step? && Next(c, e).pc.Got? then [Next(c, e).pc.data] else []
  }

  /** All that `recv` returns over a run, in order. */
  ghost function Returned(c: Chan, run: seq<Event>): seq<Bytes>
    decreases |run|
  {
    if run == [] then [] else ReturnedBy(c, run[0]) + Returned(Next(c, run[0]), run[1..])
  }

  lemma NextInOrder(c: Chan, e: Event)
    ensures ReturnedBy(c, e) + Next(c, e).inner == c.inner + PushedBy(e)
  {
    if e.Step? && c.pc.Popping? && c.inner != [] {
      assert [c.inner[0]] + c.inner[1..] == c.inner;
    }
  }

  lemma {:induction false} RunInOrder(c: Chan, run: seq<Event>)
    ensures Returned(c, run) + Final(c, run).inner == c.inner + Pushed(run)
    decreases |run|
  {
    if run == [] {
      assert [] + c.inner == c.inner + [];
    } else {
      var n := Next(c, run[0]);
      NextInOrder(c, run[0]);
      RunInOrder(n, run[1..]);
      Regroup(ReturnedBy(c, run[0]), Returned(n, run[1..]), Final(n, run[1..]).inner, c.inner, PushedBy(run[0]),
        n.inner, Pushed(run[1..]));
    }
  }

  /** Whatever the interleaving, what `recv` returned and what is queued is what was pushed, in order. */
  lemma ReceivedInOrder(run: seq<Event>)
    ensures Returned(START, run) + Final(START, run).inner == Pushed(run)
  {
    RunInOrder(START, run);
    assert START.inner + Pushed(run) == Pushed(run);
  }

  // ---- Steps of the receiver, by their position in a run ----

  /** The state before the event at position `i`. */
  ghost function Before(run: seq<Event>, i: nat): Chan
    requires i <= |run|
  {
    Final(START, run[..i])
  }

  /** At `i` the receiver finds the queue empty. */
  ghost predicate EmptyPop(run: seq<Event>, i: nat) {
    i < |run| && run[i].Step? && Before(run, i).pc.Popping? && Before(run, i).inner == []
  }

  /** At `i` the receiver finds the queue open. */
  ghost predicate OpenCheck(run: seq<Event>, i: nat) {
    i < |run| && run[i].Step? && Before(run, i).pc.Checking? && !Before(run, i).closed
  }

  ghost predicate Registration(run: seq<Event>, i: nat) {
    i < |run| && run[i].Step? && Before(run, i).pc.Registering?
  }

  ghost predicate PushBetween(run: seq<Event>, a: nat, b: nat) {
    exists j :: a < j < b && j < |run| && run[j].Push?
  }

  ghost predicate CloseBetween(run: seq<Event>, a: nat, b: nat) {
    exists j :: a < j < b && j < |run| && run[j].Close?
  }

  /** The receiver takes no step after position `a` and before `b`. */
  ghost predicate NoStep(run: seq<Event>, a: nat, b: nat) {
    forall j :: a < j < b && j < |run| ==> !run[j].Step?
  }

  lemma BeforeFront(run: seq<Event>, i: nat)
    requires run != [] && i < |run|
    ensures Before(run, i) == Before(run[..|run| - 1], i)
  {
    assert run[..i] == run[..|run| - 1][..i];
  }

  /** A receiver about to check: its pop at `p` found nothing, and what is queued came after that. */
  lemma {:induction false} AboutToCheck(run: seq<Event>) returns (p: nat)
    requires Final(START, run).pc.Checking?
    ensures EmptyPop(run, p) && NoStep(run, p, |run|)
    ensures Final(START, run).inner != [] <==> PushBetween(run, p, |run|)
    decreases |run|
  {
    var n := |run| - 1;
    var front := run[..n];
    FinalLast(run);
    if run[n].Step? {
      p := n;
    } else {
      p := AboutToCheck(front);
      BeforeFront(run, p);
      if run[n].Close? && PushBetween(run, p, |run|) {
        var j :| p < j < |run| && run[j].Push?;
        assert front[j].Push?;
      }
    }
  }

  /** A receiver about to register: its pop at `p` found nothing, its check at `q` found the queue open. */
  lemma {:induction false} AboutToRegister(run: seq<Event>) returns (p: nat, q: nat)
    requires Final(START, run).pc.Registering?
    ensures p < q && EmptyPop(run, p) && OpenCheck(run, q) && NoStep(run, p, q) && NoStep(run, q, |run|)
    ensures Final(START, run).inner != [] <==> PushBetween(run, p, |run|)
    ensures Final(START, run).closed <==> CloseBetween(run, q, |run|)
    decreases |run|
  {
    var n := |run| - 1;
    var front := run[..n];
    FinalLast(run);
    if run[n].Step? {
      q := n;
      p := AboutToCheck(front);
      BeforeFront(run, p);
      PushFront(run, p);
    } else {
      p, q := AboutToRegister(front);
      BeforeFront(run, p);
      BeforeFront(run, q);
      PushFront(run, p);
      CloseFront(run, q);
    }
  }

  lemma PushFront(run: seq<Event>, a: nat)
    requires run != [] && a < |run| - 1
    ensures var n := |run| - 1; PushBetween(run, a, |run|) <==> PushBetween(run[..n], a, n) || run[n].Push?
  {
    var n := |run| - 1;
    if PushBetween(run[..n], a, n) {
      var j :| a < j < n && run[..n][j].Push?;
      assert run[j].Push?;
    }
    if PushBetween(run, a, |run|) && !run[n].Push? {
      var j :| a < j < |run| && run[j].Push?;
      assert run[..n][j].Push?;
    }
  }

  lemma CloseFront(run: seq<Event>, a: nat)
    requires run != [] && a < |run| - 1
    ensures var n := |run| - 1; CloseBetween(run, a, |run|) <==> CloseBetween(run[..n], a, n) || run[n].Close?
  {
    var n := |run| - 1;
    if CloseBetween(run[..n], a, n) {
      var j :| a < j < n && run[..n][j].Close?;
      assert run[j].Close?;
    }
    if CloseBetween(run, a, |run|) && !run[n].Close? {
      var j :| a < j < |run| && run[j].Close?;
      assert run[..n][j].Close?;
    }
  }

  // ---- Parking ----

  /**
   A parked, unwoken receiver popped nothing at `p`, saw the queue open at `q` and registered at `r`, its last steps
   that did anything. It is parked over a datagram or a close exactly if one was pushed between `p` and `r` or the
   queue was closed between `q` and `r`.
   */
  lemma {:induction false} ParkedOnNewsIff(run: seq<Event>) returns (p: nat, q: nat, r: nat)
    requires Final(START, run).pc == Waiting(false)
    ensures p < q < r && EmptyPop(run, p) && OpenCheck(run, q) && Registration(run, r) && NoStep(run, p, q) &&
            NoStep(run, q, r)
    ensures forall j :: r < j < |run| ==> run[j].Step?
    ensures Final(START, run).inner != [] <==> PushBetween(run, p, r)
    ensures Final(START, run).closed <==> CloseBetween(run, q, r)
    decreases |run|
  {
    var n := |run| - 1;
    var front := run[..n];
    FinalLast(run);
    if Final(START, front).pc.Registering? {
      r := n;
      p, q := AboutToRegister(front);
    } else {
      p, q, r := ParkedOnNewsIff(front);
      BeforeFront(run, r);
    }
    BeforeFront(run, p);
    BeforeFront(run, q);
    BetweenFront(run, p, q, r);
  }

  lemma BetweenFront(run: seq<Event>, p: nat, q: nat, r: nat)
    requires run != [] && r < |run|
    ensures var front := run[..|run| - 1];
            && (PushBetween(front, p, r) <==> PushBetween(run, p, r))
            && (CloseBetween(front, q, r) <==> CloseBetween(run, q, r))
  {
    var front := run[..|run| - 1];
    assert forall j :: 0 <= j < |front| ==> front[j] == run[j];
  }

  /** `recv` returns `None` over a queue that still holds data exactly if a push came after its last pop. */
  lemma NoneOverDataIff(run: seq<Event>) returns (p: nat)
    requires Final(START, run).pc.Checking? && Final(START, run).closed
    ensures EmptyPop(run, p) && NoStep(run, p, |run|)
    ensures var c := Final(START, run + [Step]); c.pc == GotNone && (c.inner != [] <==> PushBetween(run, p, |run|))
  {
    p := AboutToCheck(run);
    FinalConcat(START, run, [Step]);
    assert Final(Final(START, run), [Step]) == Final(Receive(Final(START, run)), []);
  }

  // ---- Waking ----

  ghost predicate Silent(es: seq<Event>) {
    forall e :: e in es ==> !e.Step?
  }

  /** While the receiver takes no step, the queue only grows and a woken or busy receiver stays where it is. */
  lemma {:induction false} SilentKeeps(c: Chan, es: seq<Event>)
    requires Silent(es) && c.pc != Waiting(false)
    ensures var d := Final(c, es); d.pc == c.pc && c.inner <= d.inner && (c.closed ==> d.closed)
    decreases |es|
  {
    if es != [] {
      assert es[0] in es;
      SilentKeeps(Next(c, es[0]), es[1..]);
    }
  }

  lemma OneStep(c: Chan)
    ensures Final(c, [Step]) == Receive(c)
  {
    assert Final(c, [Step]) == Final(Receive(c), []);
  }

  /** Silent events, then one step of the receiver. */
  lemma SilentStep(c: Chan, es: seq<Event>)
    requires Silent(es) && c.pc != Waiting(false)
    ensures var d := Final(c, es);
            d.pc == c.pc && c.inner <= d.inner && (c.closed ==> d.closed) && Final(c, es + [Step]) == Receive(d)
  {
    SilentKeeps(c, es);
    FinalConcat(c, es, [Step]);
    OneStep(Final(c, es));
  }

  /**
   Any push or close after registration wakes the receiver. Whatever else is pushed or closed between its next
   steps, its second step returns the oldest datagram if there is one by then, and otherwise its third returns `None`.
   */
  lemma NewsAfterRegistrationWakes(run: seq<Event>, e: Event, a: seq<Event>, b: seq<Event>, c: seq<Event>)
    requires Final(START, run).pc.Waiting? && !e.Step? && Silent(a) && Silent(b) && Silent(c)
    ensures var woken := Final(START, run + [e]);
            var popping := Final(woken, a + [Step] + b);
            && woken.pc == Waiting(true) && (woken.inner != [] || woken.closed)
            && (popping.inner != [] ==> Final(popping, [Step]).pc == Got(popping.inner[0]))
            && (woken.inner != [] ==> popping.inner != [] && popping.inner[0] == woken.inner[0])
            && (popping.inner == [] ==> Final(popping, [Step] + c + [Step]).pc == GotNone)
  {
    var parked, woken := Final(START, run), Final(START, run + [e]);
    FinalConcat(START, run, [e]);
    assert Final(parked, [e]) == Final(Next(parked, e), []);
    SilentStep(woken, a);
    var awake := Final(woken, a + [Step]);
    SilentKeeps(awake, b);
    FinalConcat(woken, a + [Step], b);
    var popping := Final(awake, b);
    OneStep(popping);
    if popping.inner == [] {
      SilentStep(Receive(popping), c);
      assert [Step] + c + [Step] == [Step] + (c + [Step]);
      FinalConcat(popping, [Step], c + [Step]);
    }
  }

  /** Both kinds of stale view happen: a receiver parked on a datagram, and `None` over one. */
  lemma StaleViewsHappen(data: Bytes)
    ensures var c := Final(START, [Step, Step, Push(data), Step]); c.pc == Waiting(false) && c.inner == [data]
    ensures var c := Final(START, [Step, Push(data), Close, Step]); c.pc == GotNone && c.inner == [data]
  {
    var a, b := [Step, Step, Push(data), Step], [Step, Push(data), Close, Step];
    Unroll(START, a);
    Unroll(START, b);
  }

  lemma Unroll(c: Chan, es: seq<Event>)
    requires |es| == 4
    ensures Final(c, es) == Next(Next(Next(Next(c, es[0]), es[1]), es[2]), es[3])
  {
    var c1 := Next(c, es[0]);
    var c2 := Next(c1, es[1]);
    var c3 := Next(c2, es[2]);
    assert Final(c3, es[1..][1..][1..]) == Final(Next(c3, es[3]), []);
    assert Final(c2, es[1..][1..]) == Final(c3, es[1..][1..][1..]);
    assert Final(c1, es[1..]) == Final(c2, es[1..][1..]);
  }
}

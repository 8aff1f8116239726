/** How the engine moves a connection through the states of section 3.3.2 of RFC 9293. */
module Connections {
  import opened Types

  /** One transition that a segment, a timeout or a reset causes; those the application causes are not among them. */
  predicate Transition(a: SockState, b: SockState) {
    match a
    case Closed => false
    case Listen => b == SynReceived
    case SynSent => b in {SynReceived, SockState.Established, SockState.Closed}
    case SynReceived => b in {Listen, SockState.Established, CloseWait, SockState.Closed}
    case Established => b in {CloseWait, SockState.Closed}
    case FinWait1 => b in {FinWait2, Closing, TimeWait, SockState.Closed}
    case FinWait2 => b in {TimeWait, SockState.Closed}
    case Closing => b in {TimeWait, SockState.Closed}
    case CloseWait => b == SockState.Closed
    case LastAck => b == SockState.Closed
    case TimeWait => b == SockState.Closed
  }

  /** Where any number of such transitions can take a connection. */
  predicate MayBecome(a: SockState, b: SockState) {
    || a == b
    || b == SockState.Closed
    || (Early(a) && b in {Listen, SynReceived, SockState.Established, CloseWait})
    || (a == SockState.Established && b == CloseWait)
    || (a == FinWait1 && b in {FinWait2, Closing, TimeWait})
    || (a in {FinWait2, Closing} && b == TimeWait)
  }

  /** The handshake is not complete. */
  predicate Early(state: SockState) {
    state in {Listen, SynSent, SynReceived}
  }

  /** The connection has been established, or was given up, and cannot be established again. */
  predicate Past(state: SockState) {
    !Early(state) && state != SockState.Established
  }

  /** What `close()` makes of a connection's state, by section 3.10.4 of RFC 9293. */
  function AfterClose(state: SockState): SockState {
    match state
    case Listen => SockState.Closed
    case SynSent => SockState.Closed
    case SynReceived => FinWait1
    case Established => FinWait1
    case CloseWait => LastAck
    case _ => state
  }

  /** A poll that drives connections to `st` and leaves alone those that cannot get there. */
  function Toward(state: SockState, st: SockState): (r: SockState)
    ensures MayBecome(state, r)
  {
    if MayBecome(state, st) then st else state
  }

  /** Consecutive states are one transition apart. */
  ghost predicate Transitions(states: seq<SockState>) {
    forall i :: 0 <= i < |states| - 1 ==> Transition(states[i], states[i + 1])
  }

  /** The states lead from `a` to `b`. */
  ghost predicate Connects(states: seq<SockState>, a: SockState, b: SockState) {
    |states| > 0 && states[0] == a && states[|states| - 1] == b && Transitions(states)
  }

  lemma {:induction false} ConnectsWithin(states: seq<SockState>, a: SockState, b: SockState)
    requires Connects(states, a, b)
    ensures MayBecome(a, b)
    decreases |states|
  {
    if |states| > 1 {
      assert Transition(states[0], states[1]);
      ConnectsWithin(states[1..], states[1], b);
    }
  }

  lemma SomePath(a: SockState, b: SockState) returns (states: seq<SockState>)
    requires MayBecome(a, b)
    ensures Connects(states, a, b)
  {
    if a == b {
      states := [a];
    } else if Transition(a, b) {
      states := [a, b];
    } else if a == SynSent || b in {SockState.Established, CloseWait} {
      states := [a, SynReceived, b];
    } else {
      assert a == Listen;
      states := [a, SynReceived, b];
    }
  }

  /** `MayBecome` is what transitions one after the other can do, no less and no more. */
  lemma MayBecomeIff(a: SockState, b: SockState)
    ensures MayBecome(a, b) <==> exists states :: Connects(states, a, b)
  {
    if MayBecome(a, b) {
      var states := SomePath(a, b);
    }
    forall states | Connects(states, a, b) ensures MayBecome(a, b) {
      ConnectsWithin(states, a, b);
    }
  }

  /** Neither the engine nor `close()` takes a connection back from beyond ESTABLISHED. */
  lemma PastForGood(a: SockState, b: SockState)
    requires Past(a) && (MayBecome(a, b) || b == AfterClose(a))
    ensures Past(b)
  {
  }
}

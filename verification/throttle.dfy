/** The scroll throttle as a two-state gate. A scroll signal that finds no pending timer
    starts one and counts as one attempt; a scroll signal that finds a pending timer is
    dropped; only the timer firing clears it again. */
module Throttle {

  datatype Signal = Scroll | TimerFired

  /** The outcome of one signal: whether a timer is pending afterwards and whether the
      signal counted as an attempt. */
  datatype Gate = Gate(pending: bool, counted: bool)

  /** One signal delivered to the gate whose timer is `pending`. */
  function Step(pending: bool, s: Signal): (g: Gate)
    ensures g.counted ==> !pending
    ensures s == Scroll ==> g.pending
    ensures s == TimerFired ==> !g.pending && !g.counted
    ensures s == Scroll && pending ==> !g.counted
    ensures s == Scroll && !pending ==> g.counted
  {
    match s
    case Scroll => if pending then Gate(true, false) else Gate(true, true)
    case TimerFired => Gate(false, false)
  }

  /** Attempts counted while delivering `signals` in order, starting from `pending`. */
  function Counted(pending: bool, signals: seq<Signal>): nat
    decreases signals
  {
    if signals == [] then 0
    else
      var g := Step(pending, signals[0]);
      (if g.counted then 1 else 0) + Counted(g.pending, signals[1..])
  }

  /** Whether a timer is pending after delivering `signals` in order. */
  function PendingAfter(pending: bool, signals: seq<Signal>): bool
    decreases signals
  {
    if signals == [] then pending
    else PendingAfter(Step(pending, signals[0]).pending, signals[1..])
  }

  /** How many times the timer fires in `signals`. */
  function Fires(signals: seq<Signal>): nat
  {
    if signals == [] then 0
    else (if signals[0] == TimerFired then 1 else 0) + Fires(signals[1..])
  }

  /** `n` scroll signals in a row, with no timer firing in between. */
  function Burst(n: nat): (b: seq<Signal>)
    ensures |b| == n
    ensures forall i :: 0 <= i < n ==> b[i] == Scroll
  {
    if n == 0 then [] else [Scroll] + Burst(n - 1)
  }

  /** A burst of scroll signals inside one throttle window counts exactly once when the
      gate was idle and not at all when a timer was already pending; the gate is left
      pending either way. */
  lemma {:induction false} BurstCountsOnce(pending: bool, n: nat)
    requires n >= 1
    ensures Counted(pending, Burst(n)) == (if pending then 0 else 1)
    ensures PendingAfter(pending, Burst(n))
    decreases n
  {
    assert Burst(n)[1..] == Burst(n - 1);
    if n > 1 {
      BurstCountsOnce(true, n - 1);
    }
  }

  /** Each timer firing re-opens the gate at most once: over any sequence of signals the
      attempts counted are at most one (if the gate started idle) plus the number of
      firings. */
  lemma {:induction false} AtMostOncePerWindow(pending: bool, signals: seq<Signal>)
    ensures Counted(pending, signals) <= (if pending then 0 else 1) + Fires(signals)
    decreases signals
  {
    if signals != [] {
      AtMostOncePerWindow(Step(pending, signals[0]).pending, signals[1..]);
    }
  }

  /** Only the timer clears the gate: after a non-empty sequence of signals the gate is
      idle exactly when the last signal was the timer firing. */
  lemma {:induction false} IdleOnlyAfterFiring(pending: bool, signals: seq<Signal>)
    requires signals != []
    ensures !PendingAfter(pending, signals) <==> signals[|signals| - 1] == TimerFired
    decreases signals
  {
    if |signals| > 1 {
      IdleOnlyAfterFiring(Step(pending, signals[0]).pending, signals[1..]);
    }
  }
}

/** The counters of one episode of the evasive button, as a value: how many attempts
    were made, the scale the button has shrunk to, and whether the "Yes" button has
    had its one-time boost. An episode starts when the page loads and again at every
    restart. */
module Episodes {
  import opened Geometry

  datatype Episode = Episode(attempts: nat, scale: real, boosted: bool)

  /** The state at page load and after a restart: no attempts, full size, no boost. */
  function Start(): Episode
  {
    Episode(0, 1.0, false)
  }

  /** `setNoScale`: the requested scale, clamped into `[MIN_SCALE, 1]`. */
  function ClampScale(requested: real): (s: real)
    ensures MIN_SCALE <= s <= 1.0
    ensures MIN_SCALE <= requested <= 1.0 ==> s == requested
    ensures requested < MIN_SCALE ==> s == MIN_SCALE
    ensures 1.0 < requested ==> s == 1.0
  {
    Clamp(requested, MIN_SCALE, 1.0)
  }

  /** The counter part of `attemptNo`: one more attempt, the scale one step smaller
      (saturating at `MIN_SCALE`), and the boost flag raised. A raised flag stays raised;
      the scale never grows and never leaves `[MIN_SCALE, 1]`. */
  function Attempt(e: Episode): (r: Episode)
    ensures r.attempts == e.attempts + 1
    ensures MIN_SCALE <= r.scale <= 1.0
    ensures MIN_SCALE <= e.scale ==> r.scale <= e.scale
    ensures MIN_SCALE + SHRINK_STEP <= e.scale <= 1.0 ==> r.scale == e.scale - SHRINK_STEP
    ensures e.scale <= MIN_SCALE + SHRINK_STEP ==> r.scale == MIN_SCALE
    ensures r.boosted
  {
    Episode(e.attempts + 1, ClampScale(e.scale - SHRINK_STEP), true)
  }

  /** The episode after `k` further attempts. */
  function AttemptsFrom(e: Episode, k: nat): Episode
  {
    if k == 0 then e else Attempt(AttemptsFrom(e, k - 1))
  }

  /** The scale after `k` attempts of an episode, in closed form: `max(MIN_SCALE, 1 - SHRINK_STEP * k)`. */
  function ScaleAfter(k: nat): real
  {
    Max(MIN_SCALE, 1.0 - SHRINK_STEP * k as real)
  }

  /** What every reachable episode satisfies: its scale is the closed form of its attempt
      count, and the boost has happened exactly when an attempt has. */
  predicate Consistent(e: Episode)
  {
    e.scale == ScaleAfter(e.attempts) && e.boosted == (e.attempts > 0)
  }

  /** The closed form always lies in `[MIN_SCALE, 1]`, never grows with the count, and is
      saturated from the seventh attempt on (six attempts leave 0.28). */
  lemma ScaleAfterFacts(j: nat, k: nat)
    requires j <= k
    ensures MIN_SCALE <= ScaleAfter(k) <= ScaleAfter(j) <= 1.0
    ensures k >= 7 ==> ScaleAfter(k) == MIN_SCALE
    ensures ScaleAfter(6) == 0.28
  {
  }

  /** The start of an episode is consistent: no attempts, full size, no boost. */
  lemma StartIsConsistent()
    ensures Consistent(Start())
  {
  }

  /** An attempt on a consistent episode gives a consistent episode. */
  lemma AttemptKeepsConsistent(e: Episode)
    requires Consistent(e)
    ensures Consistent(Attempt(e))
  {
  }

  /** After `k` attempts from the start of an episode the count is exactly `k`, the scale
      is `max(MIN_SCALE, 1 - SHRINK_STEP * k)` and the boost has happened iff `k > 0`. */
  lemma {:induction false} AttemptsFromStart(k: nat)
    ensures AttemptsFrom(Start(), k) == Episode(k, ScaleAfter(k), k > 0)
  {
    if k > 0 {
      AttemptsFromStart(k - 1);
      AttemptKeepsConsistent(AttemptsFrom(Start(), k - 1));
    }
  }

  /** Within an episode the boost is one-shot: after `k` further attempts the flag is
      raised iff it already was or some attempt was made; attempts never lower it. */
  lemma {:induction false} BoostIsOneShot(e: Episode, k: nat)
    ensures AttemptsFrom(e, k).boosted == (e.boosted || k > 0)
    ensures AttemptsFrom(e, k).attempts == e.attempts + k
  {
    if k > 0 {
      BoostIsOneShot(e, k - 1);
    }
  }

  /** Across any run of attempts the scale never grows, as long as it started in range. */
  lemma {:induction false} ScaleNeverGrows(e: Episode, j: nat, k: nat)
    requires MIN_SCALE <= e.scale <= 1.0
    requires j <= k
    ensures MIN_SCALE <= AttemptsFrom(e, k).scale <= AttemptsFrom(e, j).scale <= e.scale
  {
    if j < k {
      ScaleNeverGrows(e, j, k - 1);
    } else if k > 0 {
      ScaleNeverGrows(e, k - 1, k - 1);
    }
  }

  /** The scenario of one and of seven attempts: one attempt leaves scale 0.88 with the
      boost applied; seven leave the saturated 0.25, with the sped-up flee radius 160. */
  lemma FirstAndSeventhAttempt()
    ensures AttemptsFrom(Start(), 1) == Episode(1, 0.88, true)
    ensures AttemptsFrom(Start(), 7) == Episode(7, MIN_SCALE, true)
    ensures Radius(AttemptsFrom(Start(), 7).attempts) == 160.0
  {
  }
}

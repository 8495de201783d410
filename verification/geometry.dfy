/** Settings and geometry helpers of the evasive "No" button: clamping, the scaled
    footprint of the button, the random placement inside the button area and the
    per-axis arithmetic of a flee step. Lengths are exact reals; randomness and the
    Euclidean distance are inputs. */
module Geometry {

  /** Margin kept between the area's edge and the button (pixels). */
  const PADDING: real := 10.0
  /** How close the pointer may come before the button runs (pixels). */
  const BASE_RADIUS: real := 110.0
  /** Scale lost per attempt. */
  const SHRINK_STEP: real := 0.12
  /** The scale never drops below this. */
  const MIN_SCALE: real := 0.25
  /** From this many attempts on, the button runs earlier, further and more erratically. */
  const SPEED_UP_AFTER: nat := 6

  /** Width and height of a rectangle. */
  datatype Size = Size(w: real, h: real)

  function Max(a: real, b: real): real { if a >= b then a else b }
  function Min(a: real, b: real): real { if a <= b then a else b }

  /** `Math.max(lo, Math.min(hi, v))`: `v` restricted to `[lo, hi]`; when the range is
      empty (`hi < lo`) the lower bound wins. */
  function Clamp(v: real, lo: real, hi: real): (r: real)
    ensures lo <= hi ==> lo <= r <= hi
    ensures hi < lo ==> r == lo
    ensures lo <= v <= hi ==> r == v
    ensures lo <= hi && v < lo ==> r == lo
    ensures lo <= hi && hi < v ==> r == hi
  {
    Max(lo, Min(hi, v))
  }

  /** The button's rendered length along one axis: its unscaled length times the scale.
      With a scale in `[MIN_SCALE, 1]` it lies between a quarter of the basis and the basis. */
  function Scaled(basis: real, scale: real): (e: real)
    requires 0.0 <= basis
    requires MIN_SCALE <= scale <= 1.0
    ensures MIN_SCALE * basis <= e <= basis
    ensures basis > 0.0 ==> e > 0.0
  {
    ScaledBetween(basis, scale);
    basis * scale
  }

  lemma ScaledBetween(basis: real, scale: real)
    requires 0.0 <= basis
    requires MIN_SCALE <= scale <= 1.0
    ensures MIN_SCALE * basis <= basis * scale <= basis
    ensures basis > 0.0 ==> basis * scale > 0.0
  {
  }

  /** Length of the free placement range along one axis, never negative. */
  function Slack(extent: real, size: real): real
  {
    Max(0.0, extent - size - PADDING)
  }

  /** `random * length` for a `random` drawn from `[0, 1)`: a point of `[0, length)`,
      or 0 when the length is 0. */
  function Portion(random: real, length: real): (p: real)
    requires 0.0 <= random < 1.0
    requires 0.0 <= length
    ensures 0.0 <= p <= length
    ensures 0.0 < length ==> p < length
  {
    FractionBelow(random, length);
    random * length
  }

  /** One coordinate of a random placement: `random * max(0, extent - size - PADDING) + PADDING`
      for a `random` drawn from `[0, 1)`. The range starts at the padding and, when the
      button fits, ends at `extent - size`: the far edge keeps no padding. When the
      button does not fit, the coordinate is exactly the padding. */
  function PlaceCoord(extent: real, size: real, random: real): (x: real)
    requires 0.0 <= random < 1.0
    ensures PADDING <= x <= PADDING + Slack(extent, size)
    ensures extent - size - PADDING <= 0.0 ==> x == PADDING
    ensures x <= Max(PADDING, extent - size)
    ensures extent - size - PADDING > 0.0 ==> x < extent - size
  {
    Portion(random, Slack(extent, size)) + PADDING
  }

  /** Upper end of the range a flee step clamps into: `max(PADDING, extent - size - PADDING)`. */
  function FleeLimit(extent: real, size: real): real
  {
    Max(PADDING, extent - size - PADDING)
  }

  /** A committed flee coordinate: the moved coordinate clamped into
      `[PADDING, FleeLimit(extent, size)]`. Whatever the offset, the result is inside that
      range, and an offset that already lands inside it is taken as it is. */
  function FleeCoord(current: real, offset: real, extent: real, size: real): (x: real)
    ensures PADDING <= x <= FleeLimit(extent, size)
    ensures x <= PADDING || x <= extent - size - PADDING
    ensures PADDING <= current + offset <= FleeLimit(extent, size) ==> x == current + offset
    ensures current + offset < PADDING ==> x == PADDING
    ensures current + offset > FleeLimit(extent, size) ==> x == FleeLimit(extent, size)
  {
    Clamp(current + offset, PADDING, FleeLimit(extent, size))
  }

  /** True once the button is in its sped-up phase. */
  predicate SpedUp(attempts: nat)
  {
    attempts >= SPEED_UP_AFTER
  }

  /** The distance at which the pointer scares the button: 110, or 160 when sped up. */
  function Radius(attempts: nat): real
  {
    if SpedUp(attempts) then BASE_RADIUS + 50.0 else BASE_RADIUS
  }

  /** How far one flee step pushes along the unit direction: 150, or 190 when sped up. */
  function Push(attempts: nat): real
  {
    if SpedUp(attempts) then 190.0 else 150.0
  }

  /** Width of the random jitter interval: 140, or 200 when sped up. */
  function JitterSpan(attempts: nat): real
  {
    if SpedUp(attempts) then 200.0 else 140.0
  }

  /** `(random - 0.5) * span`: a jitter drawn from `[-span/2, span/2)`. */
  function Jitter(random: real, span: real): (j: real)
    requires 0.0 <= random < 1.0
    requires 0.0 <= span
    ensures -span / 2.0 <= j <= span / 2.0
    ensures span > 0.0 ==> j < span / 2.0
  {
    assert (random - 0.5) * span == Portion(random, span) - span / 2.0;
    (random - 0.5) * span
  }

  /** The offset of one flee step along the axis of `d`, where `d` and `e` are the two
      components of the centre-minus-pointer vector and `dist` is its length: the push
      along the direction component of `d`, plus the jitter. The step moves the button by
      at most `push + span/2` along that axis, and when the pointer sits on the centre
      only the jitter is left. */
  function FleeOffset(d: real, e: real, dist: real, attempts: nat, random: real): (o: real)
    requires 0.0 <= dist && dist * dist == d * d + e * e
    requires 0.0 <= random < 1.0
    ensures Abs(o) <= Push(attempts) + JitterSpan(attempts) / 2.0
    ensures dist == 0.0 ==> o == Jitter(random, JitterSpan(attempts))
  {
    SquareFits(d, e, dist);
    PushBound(Direction(d, dist), Push(attempts));
    Direction(d, dist) * Push(attempts) + Jitter(random, JitterSpan(attempts))
  }

  /** A unit-vector component times a non-negative push lies within the push. */
  lemma PushBound(u: real, push: real)
    requires -1.0 <= u <= 1.0 && 0.0 <= push
    ensures Abs(u * push) <= push
  {
    if u >= 0.0 {
      ProductNonNegative(1.0 - u, push);
    } else {
      ProductNonNegative(1.0 + u, push);
    }
  }

  /** The square of one component of a vector is bounded by its squared length. */
  lemma SquareFits(d: real, e: real, dist: real)
    requires dist * dist == d * d + e * e
    ensures d * d <= dist * dist
  {
  }

  /** Absolute value. */
  function Abs(a: real): real { if a < 0.0 then -a else a }

  /** A component of the push direction, `d / (dist || 1)`: the component of the
      centre-minus-pointer vector divided by its length, where a length of zero divides by
      one instead. The result is a component of a unit vector, and it is zero when the
      pointer sits on the centre: there is no fallback direction. */
  function Direction(d: real, dist: real): (u: real)
    requires 0.0 <= dist
    requires d * d <= dist * dist
    ensures -1.0 <= u <= 1.0
    ensures dist == 0.0 ==> u == 0.0
    ensures u * dist == d
  {
    UnitComponent(d, dist);
    d / (if dist == 0.0 then 1.0 else dist)
  }

  lemma UnitComponent(d: real, dist: real)
    requires 0.0 <= dist
    requires d * d <= dist * dist
    ensures var u := d / (if dist == 0.0 then 1.0 else dist);
      -1.0 <= u <= 1.0 && u * dist == d
  {
    ComponentBound(d, dist);
    var u := d / (if dist == 0.0 then 1.0 else dist);
    if dist == 0.0 {
      assert d == 0.0;
    } else {
      assert u * dist == d;
    }
  }

  /** A vector component is no longer than the vector: from `d*d <= dist*dist` and a
      non-negative `dist` follows `|d| <= dist`. */
  lemma ComponentBound(d: real, dist: real)
    requires 0.0 <= dist
    requires d * d <= dist * dist
    ensures Abs(d) <= dist
  {
    if Abs(d) > dist {
      assert (Abs(d) - dist) * (Abs(d) + dist) == d * d - dist * dist;
      ProductPositive(Abs(d) - dist, Abs(d) + dist);
    }
  }

  /** The distance test of a flee step, `dist > radius`, decided on squares: for a
      non-negative distance whose square is `dx*dx + dy*dy`, the pointer is out of reach
      exactly when the squared distance exceeds the squared radius. */
  lemma FarIffSquaredFar(dx: real, dy: real, dist: real, radius: real)
    requires 0.0 <= dist && dist * dist == dx * dx + dy * dy
    requires 0.0 <= radius
    ensures dist > radius <==> dx * dx + dy * dy > radius * radius
  {
    assert (dist - radius) * (dist + radius) == dist * dist - radius * radius;
    if dist > radius {
      ProductPositive(dist - radius, dist + radius);
    } else {
      ProductNonNegative(radius - dist, dist + radius);
    }
  }

  lemma ProductNonNegative(a: real, b: real)
    requires 0.0 <= a && 0.0 <= b
    ensures 0.0 <= a * b
  {
  }

  lemma ProductPositive(a: real, b: real)
    requires 0.0 < a && 0.0 < b
    ensures 0.0 < a * b
  {
  }

  /** A fraction `r` in `[0, 1)` of a non-negative length `s` is at most `s`, and below
      it when `s` is positive. */
  lemma FractionBelow(r: real, s: real)
    requires 0.0 <= r < 1.0 && 0.0 <= s
    ensures 0.0 <= r * s <= s
    ensures 0.0 < s ==> r * s < s
  {
  }

  /** The placement range and the flee range differ at the far end: when the button fits
      with room to spare, a random placement may land up to `PADDING` beyond the farthest
      coordinate a flee step would commit. */
  lemma PlacementReachesBeyondFleeLimit()
    ensures PlaceCoord(400.0, 120.0, 0.99) > FleeLimit(400.0, 120.0)
    ensures PlaceCoord(400.0, 120.0, 0.99) <= 400.0 - 120.0
  {
  }
}

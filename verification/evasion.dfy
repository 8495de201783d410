/** The page state behind the evasive "No" button: the module-level counters, the
    scroll-throttle token, the button's committed position and the `hidden` flags of the
    three screens, with one method per function or event handler that changes them.
    Everything the handlers read from the page (the area's size, the button's unscaled
    size, the live centre of the button, the pointer, `Math.random()`, `Math.hypot`) is a
    parameter. */
module Evasion {
  import opened Geometry
  import opened Episodes
  import Throttle

  datatype Option<T> = None | Some(value: T)

  datatype Point = Point(x: real, y: real)

  /** The three screens of the page. */
  datatype Screen = Question | Yay | Roses

  /** A unit interval sample, as returned by `Math.random()`. */
  predicate IsRandom(r: real)
  {
    0.0 <= r < 1.0
  }

  /** A rendered size: offsets are never negative. */
  predicate IsSize(s: Size)
  {
    0.0 <= s.w && 0.0 <= s.h
  }

  class NoButton {
    var attempts: nat
    var scale: real
    var yesBoosted: bool
    /** True while a throttle timer is pending (`scrollTimer` is not null). */
    var scrollTimer: bool
    /** Committed `style.left` and `style.top` of the button, in pixels. */
    var left: real
    var top: real
    var questionHidden: bool
    var yayHidden: bool
    var rosesHidden: bool

    /** The episode counters as a value. */
    ghost function Counters(): Episode
      reads this
    {
      Episode(attempts, scale, yesBoosted)
    }

    /** Exactly one of the three screens is visible. */
    ghost predicate OneScreen()
      reads this
    {
      (!questionHidden && yayHidden && rosesHidden) ||
      (questionHidden && !yayHidden && rosesHidden) ||
      (questionHidden && yayHidden && !rosesHidden)
    }

    /** The screen that is visible. */
    ghost function Shown(): Screen
      reads this
      requires OneScreen()
    {
      if !questionHidden then Question else if !yayHidden then Yay else Roses
    }

    /** The invariant every handler keeps: the counters are those of `k` attempts into an
        episode (so the scale is in `[MIN_SCALE, 1]` and the boost tracks the first
        attempt), the committed position never lies closer to the area's top or left
        edge than the padding, and exactly one screen is visible. */
    ghost predicate Valid()
      reads this
    {
      Consistent(Counters()) && PADDING <= left && PADDING <= top && OneScreen()
    }

    /** `effectiveBtnSize`: the button's unscaled size times the current scale. */
    function EffectiveSize(basis: Size): (s: Size)
      reads this
      requires IsSize(basis)
      requires MIN_SCALE <= scale <= 1.0
      ensures MIN_SCALE * basis.w <= s.w <= basis.w
      ensures MIN_SCALE * basis.h <= s.h <= basis.h
    {
      Size(Scaled(basis.w, scale), Scaled(basis.h, scale))
    }

    /** Page load: the question screen is the visible one (the markup's initial state),
        the scale is set to 1 and the button is placed at random. */
    constructor (area: Size, basis: Size, rx: real, ry: real)
      requires IsSize(basis) && IsRandom(rx) && IsRandom(ry)
      ensures Valid()
      ensures Counters() == Start() && !scrollTimer && Shown() == Question
      ensures left == PlaceCoord(area.w, basis.w, rx)
      ensures top == PlaceCoord(area.h, basis.h, ry)
    {
      attempts, scale, yesBoosted := 0, 1.0, false;
      scrollTimer := false;
      left, top := PADDING, PADDING;
      questionHidden, yayHidden, rosesHidden := false, true, true;
      new;
      SetNoScale(1.0);
      RandomizeNoPosition(area, basis, rx, ry);
      StartIsConsistent();
    }

    /** `setNoScale`: commits the requested scale clamped into `[MIN_SCALE, 1]`. */
    method SetNoScale(requested: real)
      modifies this`scale
      ensures scale == ClampScale(requested)
      ensures MIN_SCALE <= scale <= 1.0
    {
      scale := Clamp(requested, MIN_SCALE, 1.0);
    }

    /** `randomizeNoPosition`: a random placement for the button at its current scale.
        Each coordinate lies in `[PADDING, PADDING + max(0, extent - size - PADDING)]` and
        is exactly `PADDING` when the scaled button does not fit. */
    method RandomizeNoPosition(area: Size, basis: Size, rx: real, ry: real)
      requires IsSize(basis) && IsRandom(rx) && IsRandom(ry)
      requires MIN_SCALE <= scale <= 1.0
      modifies this`left, this`top
      ensures left == PlaceCoord(area.w, EffectiveSize(basis).w, rx)
      ensures top == PlaceCoord(area.h, EffectiveSize(basis).h, ry)
      ensures PADDING <= left <= PADDING + Slack(area.w, EffectiveSize(basis).w)
      ensures PADDING <= top <= PADDING + Slack(area.h, EffectiveSize(basis).h)
    {
      var size := EffectiveSize(basis);
      var maxX := area.w - size.w - PADDING;
      var maxY := area.h - size.h - PADDING;
      left := Portion(rx, Max(0.0, maxX)) + PADDING;
      top := Portion(ry, Max(0.0, maxY)) + PADDING;
    }

    /** `attemptNo`: one more attempt, one shrink step (saturating at `MIN_SCALE`), a new
        random placement at the new scale, and the one-time boost of "Yes". The screens
        and the throttle token are untouched. */
    method AttemptNo(area: Size, basis: Size, rx: real, ry: real)
      requires Valid()
      requires IsSize(basis) && IsRandom(rx) && IsRandom(ry)
      modifies this
      ensures Valid()
      ensures Counters() == Attempt(old(Counters()))
      ensures attempts == old(attempts) + 1 && scale <= old(scale) && yesBoosted
      ensures left == PlaceCoord(area.w, EffectiveSize(basis).w, rx)
      ensures top == PlaceCoord(area.h, EffectiveSize(basis).h, ry)
      ensures scrollTimer == old(scrollTimer)
      ensures questionHidden == old(questionHidden) && yayHidden == old(yayHidden)
      ensures rosesHidden == old(rosesHidden)
    {
      AttemptKeepsConsistent(Counters());
      attempts := attempts + 1;
      SetNoScale(scale - SHRINK_STEP);
      RandomizeNoPosition(area, basis, rx, ry);
      if !yesBoosted {
        yesBoosted := true;
      }
    }

    /** `flee`: when the pointer is within the active radius of the button's centre, push
        the button away from it and clamp the result into the padded area; otherwise do
        nothing. `dist` is `Math.hypot(dx, dy)` for `dx, dy` the centre minus the pointer;
        `jx` and `jy` are the two `Math.random()` draws of the jitter. Only the position
        can change, and the decision is the same as comparing squared lengths. */
    method Flee(pointer: Point, centre: Point, dist: real, area: Size, basis: Size, jx: real, jy: real)
      requires Valid()
      requires IsSize(basis) && IsRandom(jx) && IsRandom(jy)
      requires 0.0 <= dist
      requires dist * dist == (centre.x - pointer.x) * (centre.x - pointer.x) + (centre.y - pointer.y) * (centre.y - pointer.y)
      modifies this`left, this`top
      ensures Valid()
      ensures var dx, dy := centre.x - pointer.x, centre.y - pointer.y;
        dx * dx + dy * dy > Radius(attempts) * Radius(attempts) ==> left == old(left) && top == old(top)
      ensures var dx, dy := centre.x - pointer.x, centre.y - pointer.y;
        dx * dx + dy * dy <= Radius(attempts) * Radius(attempts) ==>
          left == FleeCoord(old(left), FleeOffset(dx, dy, dist, attempts, jx), area.w, EffectiveSize(basis).w) &&
          top == FleeCoord(old(top), FleeOffset(dy, dx, dist, attempts, jy), area.h, EffectiveSize(basis).h)
      ensures dist > Radius(attempts) ==> left == old(left) && top == old(top)
      ensures dist <= Radius(attempts) ==>
        var dx, dy := centre.x - pointer.x, centre.y - pointer.y;
        left == FleeCoord(old(left), FleeOffset(dx, dy, dist, attempts, jx), area.w, EffectiveSize(basis).w) &&
        top == FleeCoord(old(top), FleeOffset(dy, dx, dist, attempts, jy), area.h, EffectiveSize(basis).h)
      ensures dist <= Radius(attempts) ==>
        PADDING <= left <= FleeLimit(area.w, EffectiveSize(basis).w) &&
        PADDING <= top <= FleeLimit(area.h, EffectiveSize(basis).h)
      ensures dist == 0.0 ==>
        left == FleeCoord(old(left), Jitter(jx, JitterSpan(attempts)), area.w, EffectiveSize(basis).w) &&
        top == FleeCoord(old(top), Jitter(jy, JitterSpan(attempts)), area.h, EffectiveSize(basis).h)
    {
      var dx := centre.x - pointer.x;
      var dy := centre.y - pointer.y;
      var radius := Radius(attempts);
      FarIffSquaredFar(dx, dy, dist, radius);
      if dist > radius {
        return;
      }
      var size := EffectiveSize(basis);
      left := FleeCoord(left, FleeOffset(dx, dy, dist, attempts, jx), area.w, size.w);
      top := FleeCoord(top, FleeOffset(dy, dx, dist, attempts, jy), area.h, size.h);
    }

    /** The `touchmove` handler: a signal without a touch point is ignored; otherwise the
        first touch point is handed to `flee`. */
    method TouchMove(touch: Option<Point>, centre: Point, dist: real, area: Size, basis: Size, jx: real, jy: real)
      requires Valid()
      requires IsSize(basis) && IsRandom(jx) && IsRandom(jy)
      requires 0.0 <= dist
      requires touch.Some? ==>
        dist * dist == (centre.x - touch.value.x) * (centre.x - touch.value.x) + (centre.y - touch.value.y) * (centre.y - touch.value.y)
      modifies this`left, this`top
      ensures Valid()
      ensures touch.None? ==> left == old(left) && top == old(top)
      ensures dist > Radius(attempts) ==> left == old(left) && top == old(top)
      ensures touch.Some? && dist <= Radius(attempts) ==>
        var dx, dy := centre.x - touch.value.x, centre.y - touch.value.y;
        left == FleeCoord(old(left), FleeOffset(dx, dy, dist, attempts, jx), area.w, EffectiveSize(basis).w) &&
        top == FleeCoord(old(top), FleeOffset(dy, dx, dist, attempts, jy), area.h, EffectiveSize(basis).h)
    {
      if touch.None? {
        return;
      }
      Flee(touch.value, centre, dist, area, basis, jx, jy);
    }

    /** `resetToStart`: only the question screen is visible, the counters are back at the
        start of an episode and the button is placed at random at full size. The throttle
        token is not touched. */
    method ResetToStart(area: Size, basis: Size, rx: real, ry: real)
      requires IsSize(basis) && IsRandom(rx) && IsRandom(ry)
      modifies this
      ensures Valid()
      ensures Counters() == Start() && Shown() == Question
      ensures left == PlaceCoord(area.w, basis.w, rx)
      ensures top == PlaceCoord(area.h, basis.h, ry)
      ensures scrollTimer == old(scrollTimer)
    {
      rosesHidden := true;
      yayHidden := true;
      questionHidden := false;
      attempts := 0;
      scale := 1.0;
      SetNoScale(1.0);
      RandomizeNoPosition(area, basis, rx, ry);
      yesBoosted := false;
      StartIsConsistent();
    }

    /** The window `scroll` handler: dropped while a timer is pending; otherwise it starts
        the timer and makes exactly one attempt. */
    method Scroll(area: Size, basis: Size, rx: real, ry: real)
      requires Valid()
      requires IsSize(basis) && IsRandom(rx) && IsRandom(ry)
      modifies this
      ensures Valid()
      ensures scrollTimer == Throttle.Step(old(scrollTimer), Throttle.Scroll).pending
      ensures Throttle.Step(old(scrollTimer), Throttle.Scroll).counted ==>
        Counters() == Attempt(old(Counters())) &&
        left == PlaceCoord(area.w, EffectiveSize(basis).w, rx) &&
        top == PlaceCoord(area.h, EffectiveSize(basis).h, ry)
      ensures !Throttle.Step(old(scrollTimer), Throttle.Scroll).counted ==>
        Counters() == old(Counters()) && left == old(left) && top == old(top)
      ensures questionHidden == old(questionHidden) && yayHidden == old(yayHidden)
      ensures rosesHidden == old(rosesHidden)
    {
      if scrollTimer {
        return;
      }
      scrollTimer := true;
      AttemptNo(area, basis, rx, ry);
    }

    /** The throttle timer firing: it clears the token and nothing else. */
    method TimerFires()
      requires Valid()
      modifies this`scrollTimer
      ensures Valid()
      ensures scrollTimer == Throttle.Step(old(scrollTimer), Throttle.TimerFired).pending
    {
      scrollTimer := false;
    }

    /** The window `resize` handler: a new random placement at the current scale; the
        counters are untouched. */
    method Resize(area: Size, basis: Size, rx: real, ry: real)
      requires Valid()
      requires IsSize(basis) && IsRandom(rx) && IsRandom(ry)
      modifies this`left, this`top
      ensures Valid()
      ensures left == PlaceCoord(area.w, EffectiveSize(basis).w, rx)
      ensures top == PlaceCoord(area.h, EffectiveSize(basis).h, ry)
    {
      RandomizeNoPosition(area, basis, rx, ry);
    }

    /** The "Yes" click, from the question screen (where the button lives): the
        question is hidden and the celebration screen shown. */
    method Yes()
      requires Valid() && Shown() == Question
      modifies this`questionHidden, this`yayHidden
      ensures Valid() && Shown() == Yay
    {
      questionHidden := true;
      yayHidden := false;
    }

    /** The "claim" click, from the celebration screen: it is hidden and the roses
        screen shown. */
    method Claim()
      requires Valid() && Shown() == Yay
      modifies this`yayHidden, this`rosesHidden
      ensures Valid() && Shown() == Roses
    {
      yayHidden := true;
      rosesHidden := false;
    }

    /** The "restart" click: `resetToStart`. */
    method Restart(area: Size, basis: Size, rx: real, ry: real)
      requires IsSize(basis) && IsRandom(rx) && IsRandom(ry)
      modifies this
      ensures Valid()
      ensures Counters() == Start() && Shown() == Question
      ensures left == PlaceCoord(area.w, basis.w, rx) && top == PlaceCoord(area.h, basis.h, ry)
      ensures scrollTimer == old(scrollTimer)
    {
      ResetToStart(area, basis, rx, ry);
    }
  }
}

/** A session on a 400 x 600 area with a 120 x 50 button, derived from the contracts
    above alone: page load, one attempt, a scroll burst of which only the first signal
    counts, five more attempts, then yes, claim and restart. */
module Session {
  import opened Geometry
  import opened Episodes
  import opened Evasion

  method Walkthrough(r: real)
    requires IsRandom(r)
  {
    var area, basis := Size(400.0, 600.0), Size(120.0, 50.0);
    var b := new NoButton(area, basis, r, r);
    // The far end of a random placement is `extent - size`, not `extent - size - PADDING`.
    assert 10.0 <= b.left <= 280.0 && 10.0 <= b.top <= 550.0;
    b.AttemptNo(area, basis, r, r);
    assert b.scale == 0.88 && b.yesBoosted;
    assert b.EffectiveSize(basis).w == 105.6;
    assert b.left <= 400.0 - 105.6;
    b.Scroll(area, basis, r, r);
    b.Scroll(area, basis, r, r);
    assert b.attempts == 2 && b.scrollTimer;
    b.TimerFires();
    b.AttemptNo(area, basis, r, r);
    b.AttemptNo(area, basis, r, r);
    b.AttemptNo(area, basis, r, r);
    b.AttemptNo(area, basis, r, r);
    assert b.attempts == 6 && Radius(b.attempts) == 160.0;
    b.AttemptNo(area, basis, r, r);
    assert b.attempts == 7 && b.scale == MIN_SCALE;
    b.Yes();
    b.Claim();
    assert b.Shown() == Roses;
    b.Restart(area, basis, r, r);
    assert b.Shown() == Question && b.attempts == 0 && b.scale == 1.0 && !b.yesBoosted;
  }
}

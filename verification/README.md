# Evasive "No" button — a Dafny model

This project models the core of a small single-page Valentine's game. The page asks a
question with a "Yes" and a "No" button. The "No" button avoids being pressed:

- every hover, click, tap or (throttled) scroll counts as an attempt. An attempt shrinks
  the button by a fixed step down to a floor, places it somewhere random in its area,
  and gives the "Yes" button a one-time boost;
- a pointer that comes close makes the button flee. The button is pushed away from the
  pointer with some random jitter and clamped back into the padded area.

Saying yes leads through a celebration screen to a roses screen. From there "restart"
resets the episode.

The model has four modules:

- `Geometry` (geometry.dfy) holds the settings `PADDING = 10`, `BASE_RADIUS = 110`,
  `SHRINK_STEP = 0.12`, `MIN_SCALE = 0.25` and `SPEED_UP_AFTER = 6`, and the pure helpers:
  - `clamp`;
  - the scaled button size;
  - one coordinate of a random placement;
  - the per-axis arithmetic of a flee step: direction, push, jitter and the clamp.

  Lengths are exact `real`s.
- `Episodes` (episode.dfy) holds the counters of an episode as a value: attempts, scale
  and the boost flag. It has the attempt step and the closed form of the scale after `k`
  attempts.
- `Throttle` (throttle.dfy) is the scroll throttle as a gate with a pending-timer token.
  Its lemmas are about whole sequences of scroll and timer signals.
- `Evasion` (evasion.dfy) has the class `NoButton`. Its fields are the page's
  module-level `let` variables, the throttle token, the committed `left`/`top` of the
  button and the `hidden` flags of the three screens. There is one method per function
  or event handler that changes them. Each method is specified by the pure functions
  above. `Valid()` is the invariant every handler keeps:
  - the counters are those of some number of attempts into an episode;
  - the position is never closer than `PADDING` to the top or left edge;
  - exactly one screen is visible.

  The `Session` module at the end of that file walks through a session using only the
  contracts.

The page's reads are parameters: the area size, the button's unscaled size, the
button's live centre, the pointer, each `Math.random()` draw (a real in `[0, 1)`) and
`Math.hypot` (a `dist >= 0` whose square is `dx*dx + dy*dy`).

Three behaviours of the code worth noting:

- **Placement range** (script.js:43-47, 92-96). A random placement lies in
  `[PADDING, PADDING + max(0, W - w - PADDING)]`. Its far end is `W - w`, not
  `W - w - PADDING`. A flee step clamps into the narrower
  `[PADDING, max(PADDING, W - w - PADDING)]`. So for a 400-wide area and a 120-wide
  button, the first placement reaches up to 280, while a flee step never commits beyond
  270. `Geometry.PlacementReachesBeyondFleeLimit` exhibits the difference.
- **Zero distance** (script.js:88-89). With the pointer on the centre, `dx / (dist || 1)` is 0. The push
  term vanishes and only the jitter moves the button. There is no fallback unit vector.
- **Flee does not always move the button** (script.js:95-96). A pointer within the radius leads to a new
  clamped position. If the button is already pressed against the clamp, that position can
  equal the old one.

## Model

| member | source | states |
|---|---|---|
| `Geometry.Clamp` | script.js:25 | The result is in `[lo, hi]` when `lo <= hi`. When `hi < lo`, the lower bound wins. A value already in range is returned unchanged. Values below or above the range go to the nearer bound. |
| `Geometry.Scaled` | script.js:35-37 | With a scale in `[MIN_SCALE, 1]`, the rendered length is between a quarter of the basis and the basis. It is positive when the basis is. |
| `Geometry.Portion` | script.js:46-47 | `Math.random() * n` for `n >= 0` lies in `[0, n]`. It is strictly below `n` when `n > 0`. |
| `Geometry.PlaceCoord` | script.js:43-47 | A placement coordinate lies in `[PADDING, PADDING + max(0, extent - size - PADDING)]`. It is exactly `PADDING` when the scaled button does not fit. When the button fits, the coordinate is strictly below `extent - size`, so the far edge keeps no padding. |
| `Geometry.FleeCoord` | script.js:92-96 | For any offset, the committed coordinate lies in `[PADDING, max(PADDING, extent - size - PADDING)]`. An offset that lands in range is kept exactly. Offsets that land outside go to the nearer bound. |
| `Geometry.Jitter` | script.js:86 | `(Math.random() - 0.5) * span` lies in `[-span/2, span/2)`. |
| `Geometry.Direction` | script.js:88-89 | `d / (dist \|\| 1)` is a unit-vector component in `[-1, 1]`. Times `dist` it gives back `d`. It is 0 when the distance is 0, so there is no fallback direction. |
| `Geometry.FleeOffset` | script.js:85-89 | One flee step's offset along an axis, `(d / (dist \|\| 1)) * push + jitter` for a vector `(d, e)` of length `dist`, moves the button by at most `push + span/2` (190 + 100 once sped up, else 150 + 70). At zero distance it is the jitter alone. |
| `Geometry.FarIffSquaredFar` | script.js:77-80 | For `dist = hypot(dx, dy)`, the early return `dist > radius` holds exactly when `dx*dx + dy*dy > radius*radius`. |
| `Geometry.PlacementReachesBeyondFleeLimit` | script.js:43-47 | A random placement (400-wide area, 120-wide button) can lie beyond the farthest coordinate a flee step commits, while staying within `W - w`. |
| `Episodes.ClampScale` | script.js:27-28 | `setNoScale` commits a scale in `[MIN_SCALE, 1]`. It keeps an in-range request and saturates requests outside the range. |
| `Episodes.Attempt` | script.js:53-65 | An attempt adds exactly 1 to the count and raises the boost. The scale never grows and stays in `[MIN_SCALE, 1]`. It drops by exactly `SHRINK_STEP` while there is room, and saturates at `MIN_SCALE` otherwise. |
| `Episodes.ScaleAfterFacts` | script.js:16-17 | `max(0.25, 1 - 0.12k)` is in `[0.25, 1]` and non-increasing in `k`. It is 0.28 after six attempts and saturated from the seventh on. |
| `Episodes.StartIsConsistent` | script.js:110-117 | The start of an episode (0 attempts, scale 1, no boost) satisfies "scale = closed form of the count, boost iff count > 0". |
| `Episodes.AttemptKeepsConsistent` | script.js:53-65 | An attempt on a consistent episode keeps "scale = closed form of the count, boost iff count > 0". |
| `Episodes.AttemptsFromStart` | script.js:53-55 | After `k` attempts from a reset: `attempts = k`, `scale = max(0.25, 1 - 0.12k)`, and boosted iff `k > 0`. |
| `Episodes.BoostIsOneShot` | script.js:62-65 | After `k` more attempts, the boost flag is set iff it was set already or `k > 0`. Attempts never lower it, and the count grows by exactly `k`. |
| `Episodes.ScaleNeverGrows` | script.js:27-28 | Over any run of attempts starting in range, the scale is non-increasing and stays at least `MIN_SCALE`. |
| `Episodes.FirstAndSeventhAttempt` | script.js:79 | One attempt gives scale 0.88 with the boost. Seven give the saturated 0.25, and the flee radius is then 160. |
| `Throttle.Step` | script.js:152-156 | A scroll signal counts exactly when no timer is pending. A scroll always leaves a timer pending. Only the timer firing clears it, and a firing never counts. |
| `Throttle.BurstCountsOnce` | script.js:152-156 | `n >= 1` scroll signals inside one window count exactly once from an idle gate, and zero times when a timer is already pending. The gate ends up pending. |
| `Throttle.AtMostOncePerWindow` | script.js:151-156 | Over any signal sequence, the counted attempts are at most 1 (from idle) plus the number of timer firings. |
| `Throttle.IdleOnlyAfterFiring` | script.js:153-154 | After a non-empty signal sequence, the gate is idle exactly when the last signal was the timer firing. |
| `Evasion.NoButton.EffectiveSize` | script.js:35-37 | The effective size is between `MIN_SCALE` times the basis and the basis, on each axis. |
| `Evasion.NoButton.constructor` | script.js:122-125 | After page load: question screen only, episode at its start, no pending timer, and a random placement at scale 1. |
| `Evasion.NoButton.SetNoScale` | script.js:27-31 | The committed scale is the request clamped into `[MIN_SCALE, 1]`. |
| `Evasion.NoButton.RandomizeNoPosition` | script.js:39-51 | Each committed coordinate is a `PlaceCoord` of the area extent and the current scaled size. It lies in `[PADDING, PADDING + max(0, extent - size - PADDING)]`. |
| `Evasion.NoButton.AttemptNo` | script.js:53-66 | The counters take one `Attempt` step: count + 1, scale not larger, boost set. The button is re-placed at the new scale. Screens and the throttle token are unchanged, and `Valid()` is kept. |
| `Evasion.NoButton.Flee` | script.js:68-100 | Squared distance above the squared radius (`Radius`: 160 once sped up, else 110) leaves the position unchanged. A distance above the radius leaves it unchanged too. Otherwise each coordinate becomes the clamp of old + `FleeOffset`: direction × push (`Push`: 190 or 150) + jitter (`JitterSpan`: 200 or 140). Any move lands in `[PADDING, max(PADDING, extent - size - PADDING)]`. At zero distance only the jitter moves it. Counters, screens and token are unchanged. |
| `Evasion.NoButton.TouchMove` | script.js:138-142 | A signal without a touch point changes nothing, and neither does a touch beyond the radius. A touch within the radius gives each coordinate the clamp of old + direction × push + jitter, as in `Flee`. |
| `Evasion.NoButton.ResetToStart` | script.js:103-119 | Only the question screen is visible. The counters are back at 0 attempts, scale 1 and no boost. The button is re-placed at full size, and the throttle token is untouched. |
| `Evasion.NoButton.Scroll` | script.js:152-156 | Afterwards the token is set. When it was already set, nothing else changes. Otherwise exactly one `Attempt` happens, with a new placement. |
| `Evasion.NoButton.TimerFires` | script.js:154 | The timer firing clears the token and changes nothing else. |
| `Evasion.NoButton.Resize` | script.js:128 | A resize re-places the button at the current scale. The counters are untouched. |
| `Evasion.NoButton.Yes` | script.js:159-162 | From the question screen, the celebration screen becomes the only visible one. |
| `Evasion.NoButton.Claim` | script.js:164-167 | From the celebration screen, the roses screen becomes the only visible one. |
| `Evasion.NoButton.Restart` | script.js:169-171 | Restart leaves only the question screen visible, with `attempts = 0`, `scale = 1` and no boost. The button gets a fresh random placement at full size, and the throttle token is untouched. |

## Left out

- Element lookups, `addEventListener` wiring, the `passive` options and `preventDefault`
  (script.js:1-11, 122-148) are left out. The `mouseenter`, `click` and `touchstart`
  handlers only call `attemptNo`, so they are modelled by calling `AttemptNo`. The
  `mousemove` handler only calls `flee` and is modelled by `Flee`. The suppressed default
  click action is not modelled.
- The CSS transform strings, the formatting of `style.left`/`top`, the `parseFloat` of the
  style and the `tabindex` attribute are left out. The position is kept as two reals. It
  is always set by the initial placement, so the `|| 0` fallback never applies.
- `getBoundingClientRect`, `offsetWidth`/`offsetHeight` and the effect of the
  centre-origin scale transform on the live rectangle are rendering queries. They are
  parameters.
- `Math.random`, `Math.hypot` and floating-point rounding are left out. The random draws
  and the Euclidean distance are parameters, and the arithmetic is exact real arithmetic.
  NaN and infinite inputs are not modelled.
- `setTimeout` timing is left out. The 350 ms window is a boolean token plus an explicit
  `TimerFires` operation.
- The hint text and the `boost` class toggling are display only. Only the boolean
  `yesBoosted` is kept.
- `Evasion.NoButton.Yes`: requires the question screen to be visible. `Evasion.NoButton.Claim`:
  requires the celebration screen to be visible. The handlers themselves do not check
  this. Their buttons are assumed to sit inside those screens, which the page markup
  (not part of this model) decides, so a hidden button cannot be clicked.
- The initial visibility of the three screens comes from the markup, which is not part
  of this model. The constructor assumes that only the question screen is shown.

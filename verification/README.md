# Pull-to-refresh: a Dafny model

This project models the numeric core of a Jetpack Compose pull-to-refresh
container (`PullRefresh`). It covers four parts:

- **The state holder** (`PullRefreshState`). It tracks the pull offset in
  pixels and the `isRefreshing` and `isPulling` flags. Its threshold rule
  starts a refresh once the offset reaches the trigger. It stops a running
  refresh once the offset falls below 60% of the trigger. Between the two
  (the hysteresis band) nothing changes.
- **The nested-scroll connection** (`PullRefreshNestedScrollConnection`).
  - It reacts only while enabled and only to drag deltas.
  - Pre-scroll handles upward deltas. It clamps the offset to `[0, maxOffset]`.
  - Post-scroll handles downward deltas. It passes only a damped share
    `available * cos(min(1, |cur| / max) * PI / 2)`, and does not clamp.
  - On release (pre-fling) it ends the pull, runs the threshold rule and
    swallows the fling velocity when a pull was in progress.
- **The indicator geometry.** This is the slingshot that drives the
  progress arc's trim, rotation and arrow scale, plus the indicator's
  vertical placement. Both are closed-form functions of the offset and the
  trigger distance.
- **The container.** It has default lengths 120/100/240 dp and converts
  them to pixels. It remembers one connection whose `enabled` flag follows
  `pullEnabled`. A settle effect moves the offset to the refresh position
  or to rest whenever a pull ends or the refreshing flag changes.

Modules:

- `RealMath`: `abs`, `min`, `max`, `coerceIn`, and small order lemmas on
  products and quotients.
- `Damping`: the damped share of a drag.
- `PullRefreshState`: the state holder.
- `NestedScroll`: the connection.
- `Indicator`: the slingshot and indicator placement.
- `PullRefresh`: the container. It adds an event loop (`Step`, `Run`) over
  scroll deltas, releases and recompositions, and the invariant `Settled`
  that every run keeps.

Modelling choices:

- Lengths and offsets are `real`.
- The cosine is not computed. The damping curve is a function-valued
  parameter `rate`, and every fact about damping rests only on three
  properties named by `Damping.IsDampingCurve`:
  - `rate(0) = 1`;
  - `rate` stays within `[0, 1]` on `[0, 1]`;
  - `rate` never grows on `[0, 1]`.
- `Damping.LinearCurve` shows these three can hold at once.
- Every launched mutation (`dispatchScrollDelta`, `animateOffsetTo`) is
  taken to complete at once and in order. The animation is an assignment.
- The source divides by the lengths `maxOffset` (damping) and `maxOffsetY`
  (indicator geometry). Wherever such a division is reached, the model
  requires that length to be positive. Pre-scroll only clamps with
  `coerceIn(0, maxOffset)`, which throws for a negative bound, so it
  requires `maxOffset >= 0`. The event loop requires a positive maximum,
  and the indicator placement a positive trigger.

Behaviour of the code worth knowing:

- The offset update after post-scroll is `offset + delta` with no clamp.
  So one long downward drag can carry the offset past `maxOffset`
  (`NestedScroll.PostScrollCanPassMax`).
- Once the offset is past the maximum, a short upward drag snaps it back
  to `maxOffset`. It then reports more consumed than it was offered
  (`NestedScroll.PreScrollAboveMaxOverConsumes`).
- A drag from rest passes whole, because `rate(0) = 1`. So in a sequence
  of equal drags only the later ones are damped.

## Model

| member | source | states |
|---|---|---|
| PullRefreshState.UpdateRefreshStateByOffset | pullrefresh/src/main/java/com/chalilayang/pullrefresh/PullRefreshState.kt:54-61 | `onRefresh` runs (exactly once) iff the state was not refreshing and the offset reached the trigger, and then the state is refreshing; a refreshing state below 60% of the trigger stops refreshing without a callback; in the band between, the state is returned unchanged with no callback; offset and pulling flag never change |
| PullRefreshState.Initial | pullrefresh/src/main/java/com/chalilayang/pullrefresh/PullRefreshState.kt:29-38 | a new holder starts with the offset at rest, not pulling, and refreshing as it was created |
| PullRefreshState.DispatchScrollDelta | pullrefresh/src/main/java/com/chalilayang/pullrefresh/PullRefreshState.kt:48-52 | the offset moves by exactly the delta (no clamp) and both flags are kept |
| PullRefreshState.AnimateOffsetTo | pullrefresh/src/main/java/com/chalilayang/pullrefresh/PullRefreshState.kt:42-46 | the offset ends at the target and both flags are kept |
| PullRefreshState.DispatchComposes | pullrefresh/src/main/java/com/chalilayang/pullrefresh/PullRefreshState.kt:48-52 | two dispatched deltas add up, and dispatching the opposite delta undoes a dispatch |
| PullRefreshState.ThresholdIdempotent | pullrefresh/src/main/java/com/chalilayang/pullrefresh/PullRefreshState.kt:54-61 | with a positive trigger a second evaluation at the same offset changes nothing, so the two evaluations call `onRefresh` at most once |
| PullRefreshState.ThresholdFlickersWithNegativeTrigger | pullrefresh/src/main/java/com/chalilayang/pullrefresh/PullRefreshState.kt:55-59 | with trigger -10 and offset -8 the first evaluation starts a refresh and the second clears it, so the positive-trigger requirement above is needed |
| PullRefreshState.RefreshingPersistsInBand | pullrefresh/src/main/java/com/chalilayang/pullrefresh/PullRefreshState.kt:58-60 | over any sequence of offsets all at or above 60% of the trigger, a running refresh stays on and `onRefresh` is never called |
| PullRefreshState.IdleStaysIdleBelowTrigger | pullrefresh/src/main/java/com/chalilayang/pullrefresh/PullRefreshState.kt:55-57 | over any sequence of offsets all below the trigger, an idle state never starts refreshing and `onRefresh` is never called |
| PullRefreshState.AtMostOneRefreshInBand | pullrefresh/src/main/java/com/chalilayang/pullrefresh/PullRefreshState.kt:54-61 | over any sequence of offsets that never drop below 60% of the trigger, `onRefresh` runs at most once in total (no flicker) |
| Damping.DampingProgress | pullrefresh/src/main/java/com/chalilayang/pullrefresh/PullRefreshState.kt:137 | the progress lies in `[0, 1]`, is 0 at rest and 1 once the offset's magnitude reaches the maximum; scaled back by the maximum it is the offset's magnitude capped at the maximum, so below the maximum it is exactly `|cur| / max` |
| Damping.ProgressMonotone | pullrefresh/src/main/java/com/chalilayang/pullrefresh/PullRefreshState.kt:137 | progress never falls as the offset's magnitude grows |
| Damping.DampedShare | pullrefresh/src/main/java/com/chalilayang/pullrefresh/PullRefreshState.kt:138-139 | for a rate in `[0, 1]` the share has the drag's sign and no larger magnitude, and the whole drag passes exactly when the rate is 1: any lower rate damps a non-empty drag |
| Damping.LowerRateSmallerShare | pullrefresh/src/main/java/com/chalilayang/pullrefresh/PullRefreshState.kt:138-139 | a lower rate passes no larger share of a downward drag, and a strictly lower rate a strictly smaller share of a non-empty one |
| Damping.DampedShareShrinks | pullrefresh/src/main/java/com/chalilayang/pullrefresh/PullRefreshState.kt:138-139 | for a damping curve, a downward drag passes no larger share at a later progress, and a strictly smaller one wherever the curve has strictly fallen |
| Damping.LinearCurveIsDampingCurve | pullrefresh/src/main/java/com/chalilayang/pullrefresh/PullRefreshState.kt:138 | the three properties assumed of the cosine curve can all hold at once |
| NestedScroll.PreScroll | pullrefresh/src/main/java/com/chalilayang/pullrefresh/PullRefreshState.kt:108-120 | for any maximum `coerceIn` accepts (not negative), offset plus consumption equals the new offset clamped to `[0, maxOffset]`; consumed x is 0; the new state's offset is moved by exactly the consumption and it is pulling iff it was already or something was consumed |
| NestedScroll.ComputeOffsetConsume | pullrefresh/src/main/java/com/chalilayang/pullrefresh/PullRefreshState.kt:135-140 | the consumption has the drag's sign and no larger magnitude, a drag from rest passes whole, and a non-empty drag passes whole exactly when the curve is still 1 at the current progress |
| NestedScroll.ConsumeShrinksWithOffset | pullrefresh/src/main/java/com/chalilayang/pullrefresh/PullRefreshState.kt:135-140 | a downward drag consumes no more at a larger offset magnitude than at a smaller one |
| NestedScroll.PostScroll | pullrefresh/src/main/java/com/chalilayang/pullrefresh/PullRefreshState.kt:122-133 | consumption is the damped share; when non-zero the state becomes pulling and the offset moves by exactly that share, else nothing changes |
| NestedScroll.OnPreScroll | pullrefresh/src/main/java/com/chalilayang/pullrefresh/PullRefreshState.kt:73-98 | disabled, non-drag or non-upward deltas consume nothing and leave the state untouched; an active upward drag clamps the offset into `[0, maxOffset]`; from an offset within `[0, maxOffset]` it consumes between the delta and 0; the offset never goes below rest |
| NestedScroll.OnPostScroll | pullrefresh/src/main/java/com/chalilayang/pullrefresh/PullRefreshState.kt:82-106 | disabled, non-drag or non-downward deltas consume nothing and leave the state untouched; an active downward delta is exactly `PostScroll`, consuming the damped share of the delta, which lies between 0 and the delta and is the whole delta from rest |
| NestedScroll.OnPreFling | pullrefresh/src/main/java/com/chalilayang/pullrefresh/PullRefreshState.kt:142-149 | afterwards nothing pulls; the velocity is consumed whole iff a pull was in progress, else zero; the state and callback count are exactly the threshold rule applied to the unpulled state with the connection's trigger |
| NestedScroll.PreScrollRetracts | pullrefresh/src/main/java/com/chalilayang/pullrefresh/PullRefreshState.kt:108-116 | an upward drag at least as long as the pull brings the offset to rest and consumes exactly the pull |
| NestedScroll.PostScrollCanPassMax | pullrefresh/src/main/java/com/chalilayang/pullrefresh/PullRefreshState.kt:122-129 | a downward drag of 1000 from rest with maximum 240 moves the offset to 1000, past the maximum |
| NestedScroll.PreScrollAboveMaxOverConsumes | pullrefresh/src/main/java/com/chalilayang/pullrefresh/PullRefreshState.kt:108-110 | at offset 300 with maximum 240 an upward drag of 10 consumes 60 and lands at 240 |
| NestedScroll.ThreeDragsStayBelowMax | pullrefresh/src/main/java/com/chalilayang/pullrefresh/PullRefreshState.kt:122-140 | three downward drags of 50 from rest (maximum 240) reach 50, then at most 100, then at most 150, never decreasing and staying below the maximum |
| NestedScroll.ReleaseMidPullSwallowsFling | pullrefresh/src/main/java/com/chalilayang/pullrefresh/PullRefreshState.kt:142-148 | releasing during a pull consumes the whole fling velocity and ends the pull |
| Indicator.OffsetPercent | pullrefresh/src/main/java/com/chalilayang/pullrefresh/CircularProgressPainter.kt:114 | the percentage is at most 1, non-negative for a downward offset, exactly 1 from the maximum on, and scaled back by the maximum it is the offset capped at the maximum |
| Indicator.OffsetPercentMonotone | pullrefresh/src/main/java/com/chalilayang/pullrefresh/CircularProgressPainter.kt:114 | the percentage never falls as the offset grows |
| Indicator.AdjustedPercent | pullrefresh/src/main/java/com/chalilayang/pullrefresh/CircularProgressPainter.kt:114-115 | the adjusted percentage lies in `[0, 1]`, is 0 up to 40% of the distance, 1 from the full distance on, and rises linearly in between: `0.6 * max * a == y - 0.4 * max` |
| Indicator.AdjustedPercentMonotone | pullrefresh/src/main/java/com/chalilayang/pullrefresh/CircularProgressPainter.kt:114-115 | the adjusted percentage never falls as the offset grows |
| Indicator.TensionSlingshotPercent | pullrefresh/src/main/java/com/chalilayang/pullrefresh/CircularProgressPainter.kt:116-119 | the overshoot share lies in `[0, 2]`, is 0 within the distance, 2 from three times it on, and in between it is the overshoot over the distance: `t * max == |y| - max` |
| Indicator.TensionSlingshotPercentMonotone | pullrefresh/src/main/java/com/chalilayang/pullrefresh/CircularProgressPainter.kt:116-119 | the overshoot share never falls as the offset's magnitude grows |
| Indicator.EaseBounds | pullrefresh/src/main/java/com/chalilayang/pullrefresh/CircularProgressPainter.kt:120-123 | `q - q^2` lies in `[0, 1/4]` on `[0, 1/2]`, 0 at 0 and 1/4 at 1/2 |
| Indicator.EaseMonotone | pullrefresh/src/main/java/com/chalilayang/pullrefresh/CircularProgressPainter.kt:120-123 | `q - q^2` rises on `[0, 1/2]` |
| Indicator.TensionPercent | pullrefresh/src/main/java/com/chalilayang/pullrefresh/CircularProgressPainter.kt:120-123 | the tension lies in `[0, 0.5]`, is 0 within the distance and 0.5 from three times it on, and in between follows the parabola `8 m^2 t == 4 m d - d^2` in the overshoot `d = |y| - m` |
| Indicator.TensionMonotone | pullrefresh/src/main/java/com/chalilayang/pullrefresh/CircularProgressPainter.kt:116-123 | the tension never falls as the offset's magnitude grows |
| Indicator.UpdatedSlingshot | pullrefresh/src/main/java/com/chalilayang/pullrefresh/CircularProgressPainter.kt:110-136 | start trim is 0; end trim lies in `[0, MaxProgressArc]` and equals `MaxProgressArc` times the arrow scale, which lies in `[0, 1]`; the arrow scale is exactly the adjusted percentage, so the arc opens linearly between 40% and 100% of the distance; both are 0 up to 40% and full from the distance on; the rotation is `-0.125 + 0.2 * arrowScale + tension` and lies in `[-0.125, 0.575]` |
| Indicator.SlingshotAtRest | pullrefresh/src/main/java/com/chalilayang/pullrefresh/CircularProgressPainter.kt:124-128 | at offset 0 the arc is empty, the arrow hidden and the rotation -0.125 |
| Indicator.EndTrimMonotone | pullrefresh/src/main/java/com/chalilayang/pullrefresh/CircularProgressPainter.kt:114-128 | end trim and arrow scale never fall as the offset grows |
| Indicator.RotationMonotone | pullrefresh/src/main/java/com/chalilayang/pullrefresh/CircularProgressPainter.kt:114-127 | the rotation never falls as a downward offset grows |
| Indicator.IndicatorOffset | pullrefresh/src/main/java/com/chalilayang/pullrefresh/PullRefreshState.kt:152-166 | the indicator follows the pull exactly on `[0, max]`, is non-negative for a downward pull, past the maximum it is the maximum plus the eased overshoot, never more than 1.5 times the maximum and exactly that from three times it on |
| Indicator.IndicatorOffsetMonotone | pullrefresh/src/main/java/com/chalilayang/pullrefresh/PullRefreshState.kt:157-162 | the indicator never moves up as a downward pull grows |
| PullRefresh.Settle | pullrefresh/src/main/java/com/chalilayang/pullrefresh/PullRefresh.kt:54-63 | while pulling nothing moves; otherwise the offset goes to the refresh position when refreshing and to 0 when not; flags are kept |
| PullRefresh.SettleIdempotent | pullrefresh/src/main/java/com/chalilayang/pullrefresh/PullRefresh.kt:54-63 | settling twice is settling once, and an unpulled settled offset is its settle target |
| PullRefresh.FirstConnection | pullrefresh/src/main/java/com/chalilayang/pullrefresh/PullRefresh.kt:51-74 | the connection's maximum is the maximum pull length and its trigger the trigger length, both times the density, and `enabled` is `pullEnabled` |
| PullRefresh.Recompose | pullrefresh/src/main/java/com/chalilayang/pullrefresh/PullRefresh.kt:68-74 | a recomposition keeps the remembered lengths and sets `enabled` to `pullEnabled` |
| PullRefresh.DefaultRefreshingOffsetInBand | pullrefresh/src/main/java/com/chalilayang/pullrefresh/PullRefresh.kt:35-37 | at every density the default refresh position (100) lies in `[0.6 * 120, 120)`, the hysteresis band of the default trigger |
| PullRefresh.SettledThresholdIsStable | pullrefresh/src/main/java/com/chalilayang/pullrefresh/PullRefresh.kt:54-63 | with the refresh position inside the band, evaluating the threshold at the settled position neither starts nor clears a refresh |
| PullRefresh.RunEffect | pullrefresh/src/main/java/com/chalilayang/pullrefresh/PullRefresh.kt:54-63 | the effect keeps the new flags; when neither flag changed, or a drag still pulls, the state is left as it is; when a flag changed and nothing pulls, the offset goes to the settle target |
| PullRefresh.Mount | pullrefresh/src/main/java/com/chalilayang/pullrefresh/PullRefresh.kt:49-74 | first composition builds the connection from the lengths, converts the refresh position to pixels, starts unpulled at the settle target and with no callback |
| PullRefresh.Step | pullrefresh/src/main/java/com/chalilayang/pullrefresh/PullRefresh.kt:54-74 | no event changes the connection's lengths or the refresh position; `enabled` changes only on recomposition, to `pullEnabled`; the callback count grows by at most one, and only on a release that starts a refresh |
| PullRefresh.MountSettled | pullrefresh/src/main/java/com/chalilayang/pullrefresh/PullRefresh.kt:54-63 | a freshly composed container with valid lengths is settled |
| PullRefresh.StepKeepsSettled | pullrefresh/src/main/java/com/chalilayang/pullrefresh/PullRefresh.kt:54-63 | every event keeps the container settled: the offset is never negative, and it sits at its settle target whenever nothing pulls |
| PullRefresh.RunKeepsSettled | pullrefresh/src/main/java/com/chalilayang/pullrefresh/PullRefresh.kt:54-63 | every sequence of events keeps the container settled |
| PullRefresh.RunKeepsConnectionLengths | pullrefresh/src/main/java/com/chalilayang/pullrefresh/PullRefresh.kt:68-74 | over any sequence of events the connection keeps its first lengths, and `onRefresh` runs at most once per release |
| PullRefresh.ReleasePastTriggerRefreshes | pullrefresh/src/main/java/com/chalilayang/pullrefresh/PullRefresh.kt:54-63 | releasing an idle pull at or past the trigger starts a refresh, calls `onRefresh` once and settles at the refresh position |
| PullRefresh.ReleaseShortOfTriggerRetracts | pullrefresh/src/main/java/com/chalilayang/pullrefresh/PullRefresh.kt:54-63 | releasing an idle pull short of the trigger calls nothing and settles at rest |
| PullRefresh.IndicatorPlacement | pullrefresh/src/main/java/com/chalilayang/pullrefresh/PullRefresh.kt:64-67 | the indicator uses the trigger distance as reference: it follows the pull up to the trigger and never passes 1.5 times it |

## Left out

- Drawing and layout: the painter's arc and arrow drawing, the indicator
  composable (surface, crossfade, elevation, alpha), and the container's
  layout and over-scroll configuration. They turn the slingshot and
  indicator numbers into angles, pixels, an alpha and an elevation; those
  conversions are not modelled.
- Concurrency and timing: `MutatorMutex` priorities, coroutine launches and
  `Animatable` curves. Each dispatched delta is applied at once and in order,
  and `animateOffsetTo` is an assignment. So stale reads between launched
  deltas and animations cut short by a drag are not modelled. The settle
  effect's keys are compared after every event, not once per frame. So a
  pull and a release inside one frame, which leave the keys unchanged and
  run no settle in the source, settle the offset in the model.
- Floating point: offsets are exact reals and `0.6f`, `0.4f` and `0.8f` are
  exact decimals. The cosine is the abstract `rate` curve, so no fact relies
  on `cos(PI / 2)` being exactly 0. Float-to-int rounding of the drawn
  offsets is left out.
- NestedScroll.ComputeOffsetConsume: states only the consequences of the
  three curve properties (sign, magnitude, whole drag exactly at rate 1,
  monotone in the offset), not the value of the cosine itself.
- Non-positive lengths: the source divides by `maxOffset` and by the
  trigger distance (as `maxOffsetY`), so every member that divides by one
  requires it positive. The event loop requires a positive maximum
  throughout, and the indicator placement a positive trigger. Pre-scroll
  alone accepts a zero maximum, as `coerceIn` does.
- Length changes after the first composition: the source remembers the
  connection with the first lengths, and the host model keeps them fixed.
  Only `pullEnabled` and `isRefreshing` change on recomposition.
- The `consumed` argument of `onPostScroll`: the source ignores it, and so
  does the model.
- The `onRefresh` callback is counted rather than run. What it does (usually
  setting `isRefreshing`) arrives in the model as a later recomposition.
- The demo activity: it is a sample screen, not library logic.

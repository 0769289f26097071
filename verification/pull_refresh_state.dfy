/** The state holder of a pull-refresh container: the pull offset in pixels,
    the refreshing flag and the pulling flag, together with the rule that
    starts or stops a refresh from the offset. */
module PullRefreshState {

  /** `pullOffset` is the distance the content is pulled down; `isRefreshing`
      is true while a refresh runs; `isPulling` is true while a drag moves the
      offset. */
  datatype State = State(pullOffset: real, isRefreshing: bool, isPulling: bool)

  /** A freshly created holder: the offset starts at rest, nothing pulls, and
      the refreshing flag is the one it was created with. */
  function Initial(isRefreshing: bool): (s: State)
    ensures s.pullOffset == 0.0 && !s.isPulling
    ensures s.isRefreshing == isRefreshing
  {
    State(0.0, isRefreshing, false)
  }

  /** Fraction of the trigger distance below which a running refresh is cleared. */
  const HysteresisFactor: real := 0.6

  /** The state after a threshold evaluation and how often `onRefresh` ran. */
  datatype ThresholdResult = ThresholdResult(state: State, refreshCalls: nat)

  /** Starts a refresh once the offset reaches the trigger, and stops a running
      one once the offset falls below 60% of the trigger. Between the two
      nothing changes. */
  function UpdateRefreshStateByOffset(s: State, refreshTrigger: real): (r: ThresholdResult)
    ensures r.state.pullOffset == s.pullOffset && r.state.isPulling == s.isPulling
    ensures r.refreshCalls <= 1
    ensures r.refreshCalls == 1 <==> !s.isRefreshing && s.pullOffset >= refreshTrigger
    ensures r.refreshCalls == 1 ==> r.state.isRefreshing
    ensures s.isRefreshing && s.pullOffset < HysteresisFactor * refreshTrigger ==>
              !r.state.isRefreshing && r.refreshCalls == 0
    ensures (|| (!s.isRefreshing && s.pullOffset < refreshTrigger)
             || (s.isRefreshing && s.pullOffset >= HysteresisFactor * refreshTrigger)) ==>
              r == ThresholdResult(s, 0)
  {
    if !s.isRefreshing && s.pullOffset >= refreshTrigger then
      ThresholdResult(s.(isRefreshing := true), 1)
    else if s.isRefreshing && s.pullOffset < refreshTrigger * HysteresisFactor then
      ThresholdResult(s.(isRefreshing := false), 0)
    else
      ThresholdResult(s, 0)
  }

  /** A drag step moves the offset by exactly `delta`; the launched mutation is
      taken to run at once. */
  function DispatchScrollDelta(s: State, delta: real): (r: State)
    ensures r.pullOffset - s.pullOffset == delta
    ensures r.isRefreshing == s.isRefreshing && r.isPulling == s.isPulling
  {
    s.(pullOffset := s.pullOffset + delta)
  }

  /** The settle animation, taken to reach its target at once. */
  function AnimateOffsetTo(s: State, target: real): (r: State)
    ensures r.pullOffset == target
    ensures r.isRefreshing == s.isRefreshing && r.isPulling == s.isPulling
  {
    s.(pullOffset := target)
  }

  /** Deltas dispatched in order add up. */
  lemma DispatchComposes(s: State, d1: real, d2: real)
    ensures DispatchScrollDelta(DispatchScrollDelta(s, d1), d2) == DispatchScrollDelta(s, d1 + d2)
    ensures DispatchScrollDelta(DispatchScrollDelta(s, d1), -d1) == s
  {
  }

  /** With a positive trigger, evaluating the threshold a second time at the same
      offset changes nothing, so `onRefresh` runs at most once over both calls. */
  lemma ThresholdIdempotent(s: State, refreshTrigger: real)
    requires refreshTrigger > 0.0
    ensures var r1 := UpdateRefreshStateByOffset(s, refreshTrigger);
            var r2 := UpdateRefreshStateByOffset(r1.state, refreshTrigger);
            r2 == ThresholdResult(r1.state, 0) && r1.refreshCalls + r2.refreshCalls <= 1
  {
  }

  /** With a negative trigger the same offset can start and then clear a refresh
      on consecutive evaluations, so the positive trigger above is needed. */
  lemma ThresholdFlickersWithNegativeTrigger()
    ensures var s := State(-8.0, false, false);
            var r1 := UpdateRefreshStateByOffset(s, -10.0);
            var r2 := UpdateRefreshStateByOffset(r1.state, -10.0);
            r1.state.isRefreshing && !r2.state.isRefreshing
  {
  }

  /** Evaluates the threshold after moving the offset to each value in turn,
      summing the `onRefresh` calls. */
  function ThresholdAlong(s: State, refreshTrigger: real, offsets: seq<real>): ThresholdResult
    decreases |offsets|
  {
    if |offsets| == 0 then ThresholdResult(s, 0)
    else
      var r := UpdateRefreshStateByOffset(AnimateOffsetTo(s, offsets[0]), refreshTrigger);
      var rest := ThresholdAlong(r.state, refreshTrigger, offsets[1..]);
      ThresholdResult(rest.state, r.refreshCalls + rest.refreshCalls)
  }

  /** Hysteresis: a running refresh survives every offset at or above 60% of the
      trigger, and no further `onRefresh` happens meanwhile. */
  lemma {:induction false} RefreshingPersistsInBand(s: State, refreshTrigger: real, offsets: seq<real>)
    requires s.isRefreshing
    requires forall i :: 0 <= i < |offsets| ==> offsets[i] >= HysteresisFactor * refreshTrigger
    ensures ThresholdAlong(s, refreshTrigger, offsets).state.isRefreshing
    ensures ThresholdAlong(s, refreshTrigger, offsets).refreshCalls == 0
    decreases |offsets|
  {
    if |offsets| > 0 {
      var r := UpdateRefreshStateByOffset(AnimateOffsetTo(s, offsets[0]), refreshTrigger);
      RefreshingPersistsInBand(r.state, refreshTrigger, offsets[1..]);
    }
  }

  /** No refresh starts while every offset stays below the trigger. */
  lemma {:induction false} IdleStaysIdleBelowTrigger(s: State, refreshTrigger: real, offsets: seq<real>)
    requires !s.isRefreshing
    requires forall i :: 0 <= i < |offsets| ==> offsets[i] < refreshTrigger
    ensures !ThresholdAlong(s, refreshTrigger, offsets).state.isRefreshing
    ensures ThresholdAlong(s, refreshTrigger, offsets).refreshCalls == 0
    decreases |offsets|
  {
    if |offsets| > 0 {
      var r := UpdateRefreshStateByOffset(AnimateOffsetTo(s, offsets[0]), refreshTrigger);
      IdleStaysIdleBelowTrigger(r.state, refreshTrigger, offsets[1..]);
    }
  }

  /** No flicker: while the offset never drops below 60% of the trigger, the
      threshold fires `onRefresh` at most once, however many evaluations run. */
  lemma {:induction false} AtMostOneRefreshInBand(s: State, refreshTrigger: real, offsets: seq<real>)
    requires forall i :: 0 <= i < |offsets| ==> offsets[i] >= HysteresisFactor * refreshTrigger
    ensures ThresholdAlong(s, refreshTrigger, offsets).refreshCalls <= 1
    decreases |offsets|
  {
    if |offsets| > 0 {
      var r := UpdateRefreshStateByOffset(AnimateOffsetTo(s, offsets[0]), refreshTrigger);
      if r.state.isRefreshing {
        RefreshingPersistsInBand(r.state, refreshTrigger, offsets[1..]);
      } else {
        AtMostOneRefreshInBand(r.state, refreshTrigger, offsets[1..]);
      }
    }
  }
}

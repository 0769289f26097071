/** The nested-scroll connection of a pull-refresh container. The host offers
    each drag delta to it before the inner scrollable content (pre-scroll) and
    offers what the content left over after it (post-scroll); on release it
    offers the fling velocity (pre-fling). Each answer is the part the
    connection consumes. */
module NestedScroll {
  import opened RealMath
  import opened Damping
  import opened PullRefreshState

  datatype Offset = Offset(x: real, y: real)

  const ZeroOffset: Offset := Offset(0.0, 0.0)

  datatype Velocity = Velocity(x: real, y: real)

  const ZeroVelocity: Velocity := Velocity(0.0, 0.0)

  /** Where a scroll delta comes from; only a finger drag moves the pull. */
  datatype ScrollSource = Drag | Fling | Relocate

  /** The connection's fixed maximum and trigger offsets (pixels) and its
      externally toggled `enabled` switch. */
  datatype Connection = Connection(maxOffset: real, triggerOffset: real, enabled: bool)

  /** The part of a scroll delta consumed and the state after the dispatch. */
  datatype ScrollResult = ScrollResult(consumed: Offset, state: State)

  /** The part of the fling velocity consumed, the state after release and how
      often `onRefresh` ran. */
  datatype FlingResult = FlingResult(consumed: Velocity, state: State, refreshCalls: nat)

  /** Whether the connection reacts to a scroll delta from `source` at all. */
  predicate Active(c: Connection, source: ScrollSource) {
    c.enabled && source == Drag
  }

  /** Shrinks a pulled offset by an upward drag, keeping the offset within
      `[0, maxOffset]`; a non-zero consumption marks the state as pulling and is
      dispatched as the offset delta. `coerceIn` throws for a negative
      maximum, so the maximum must not be negative. */
  function PreScroll(c: Connection, s: State, available: Offset): (r: ScrollResult)
    requires c.maxOffset >= 0.0
    ensures r.consumed.x == 0.0
    ensures s.pullOffset + r.consumed.y == Clamp(s.pullOffset + available.y, 0.0, c.maxOffset)
    ensures r.state.pullOffset == s.pullOffset + r.consumed.y
    ensures r.state.isPulling == (s.isPulling || r.consumed.y != 0.0)
    ensures r.state.isRefreshing == s.isRefreshing
  {
    var offsetY := Clamp(available.y + s.pullOffset, 0.0, c.maxOffset);
    var dragConsumed := offsetY - s.pullOffset;
    if Abs(dragConsumed) > 0.0 then
      ScrollResult(Offset(0.0, dragConsumed), DispatchScrollDelta(s.(isPulling := true), dragConsumed))
    else
      ScrollResult(ZeroOffset, s)
  }

  /** `available * rate(min(1, |cur| / maxOffset))`: the damped share of a
      downward drag that moves the pull. */
  function ComputeOffsetConsume(rate: real -> real, available: real, curOffsetY: real, maxOffsetY: real): (r: real)
    requires maxOffsetY > 0.0
    requires IsDampingCurve(rate)
    ensures available >= 0.0 ==> 0.0 <= r <= available
    ensures available <= 0.0 ==> available <= r <= 0.0
    ensures curOffsetY == 0.0 ==> r == available
    ensures available != 0.0 ==>
              (r == available <==> rate(DampingProgress(curOffsetY, maxOffsetY)) == 1.0)
  {
    DampedShare(rate, available, DampingProgress(curOffsetY, maxOffsetY))
  }

  /** The damped share shrinks as the pull moves away from rest. */
  lemma ConsumeShrinksWithOffset(rate: real -> real, available: real, cur1: real, cur2: real, maxOffsetY: real)
    requires maxOffsetY > 0.0
    requires IsDampingCurve(rate)
    requires available >= 0.0
    requires Abs(cur1) <= Abs(cur2)
    ensures ComputeOffsetConsume(rate, available, cur2, maxOffsetY)
              <= ComputeOffsetConsume(rate, available, cur1, maxOffsetY)
  {
    ProgressMonotone(cur1, cur2, maxOffsetY);
    DampedShareShrinks(rate, available, DampingProgress(cur1, maxOffsetY), DampingProgress(cur2, maxOffsetY));
  }

  /** Grows the pull by the damped share of a downward drag. The result is not
      clamped: the offset can pass `maxOffset`. */
  function PostScroll(rate: real -> real, c: Connection, s: State, available: Offset): (r: ScrollResult)
    requires c.maxOffset > 0.0
    requires IsDampingCurve(rate)
    ensures r.consumed.x == 0.0
    ensures r.consumed.y == ComputeOffsetConsume(rate, available.y, s.pullOffset, c.maxOffset)
    ensures r.state.pullOffset == s.pullOffset + r.consumed.y
    ensures r.state.isPulling == (s.isPulling || r.consumed.y != 0.0)
    ensures r.state.isRefreshing == s.isRefreshing
  {
    var dragConsumed := ComputeOffsetConsume(rate, available.y, s.pullOffset, c.maxOffset);
    if Abs(dragConsumed) > 0.0 then
      ScrollResult(Offset(0.0, dragConsumed), DispatchScrollDelta(s.(isPulling := true), dragConsumed))
    else
      ScrollResult(ZeroOffset, s)
  }

  /** The pre-scroll entry point: only an enabled connection, only a drag and
      only an upward delta reach `PreScroll`. */
  function OnPreScroll(c: Connection, s: State, available: Offset, source: ScrollSource): (r: ScrollResult)
    requires c.maxOffset >= 0.0
    ensures !Active(c, source) || available.y >= 0.0 ==> r == ScrollResult(ZeroOffset, s)
    ensures r.consumed.x == 0.0
    ensures r.state.pullOffset == s.pullOffset + r.consumed.y
    ensures r.state.isPulling == (s.isPulling || r.consumed.y != 0.0)
    ensures r.state.isRefreshing == s.isRefreshing
    ensures Active(c, source) && available.y < 0.0 ==>
              r.state.pullOffset == Clamp(s.pullOffset + available.y, 0.0, c.maxOffset)
    ensures 0.0 <= s.pullOffset <= c.maxOffset ==> Min(available.y, 0.0) <= r.consumed.y <= 0.0
    ensures s.pullOffset >= 0.0 ==> r.state.pullOffset >= 0.0
  {
    if !c.enabled then ScrollResult(ZeroOffset, s)
    else if source == Drag then
      if available.y < 0.0 then PreScroll(c, s, available) else ScrollResult(ZeroOffset, s)
    else ScrollResult(ZeroOffset, s)
  }

  /** The post-scroll entry point: only an enabled connection, only a drag and
      only a downward leftover delta reach `PostScroll`. */
  function OnPostScroll(rate: real -> real, c: Connection, s: State, available: Offset, source: ScrollSource): (r: ScrollResult)
    requires c.maxOffset > 0.0
    requires IsDampingCurve(rate)
    ensures !Active(c, source) || available.y <= 0.0 ==> r == ScrollResult(ZeroOffset, s)
    ensures r.consumed.x == 0.0
    ensures r.state.pullOffset == s.pullOffset + r.consumed.y
    ensures r.state.isPulling == (s.isPulling || r.consumed.y != 0.0)
    ensures r.state.isRefreshing == s.isRefreshing
    ensures 0.0 <= r.consumed.y <= Max(available.y, 0.0)
    ensures Active(c, source) && available.y > 0.0 ==> r == PostScroll(rate, c, s, available)
    ensures Active(c, source) && available.y > 0.0 ==>
              r.consumed.y == ComputeOffsetConsume(rate, available.y, s.pullOffset, c.maxOffset)
    ensures Active(c, source) && available.y > 0.0 && s.pullOffset == 0.0 ==> r.consumed == available.(x := 0.0)
  {
    if !c.enabled then ScrollResult(ZeroOffset, s)
    else if source == Drag then
      if available.y > 0.0 then PostScroll(rate, c, s, available) else ScrollResult(ZeroOffset, s)
    else ScrollResult(ZeroOffset, s)
  }

  /** Release: the pull ends, the threshold rule runs once with the connection's
      trigger, and the whole velocity is consumed exactly when a pull was in
      progress, so a pull never flings the inner content. */
  function OnPreFling(c: Connection, s: State, available: Velocity): (r: FlingResult)
    ensures !r.state.isPulling
    ensures r.consumed == (if s.isPulling then available else ZeroVelocity)
    ensures ThresholdResult(r.state, r.refreshCalls)
              == UpdateRefreshStateByOffset(s.(isPulling := false), c.triggerOffset)
    ensures r.state.pullOffset == s.pullOffset
    ensures r.refreshCalls == 1 <==> !s.isRefreshing && s.pullOffset >= c.triggerOffset
  {
    var wasPulling := s.isPulling;
    var t := UpdateRefreshStateByOffset(s.(isPulling := false), c.triggerOffset);
    FlingResult(if wasPulling then available else ZeroVelocity, t.state, t.refreshCalls)
  }

  /** An upward drag at least as long as the pull brings the offset back to rest. */
  lemma PreScrollRetracts(c: Connection, s: State, available: Offset)
    requires c.maxOffset >= 0.0 && c.enabled
    requires 0.0 <= s.pullOffset <= c.maxOffset
    requires available.y < 0.0 && available.y <= -s.pullOffset
    ensures OnPreScroll(c, s, available, Drag).state.pullOffset == 0.0
    ensures OnPreScroll(c, s, available, Drag).consumed.y == -s.pullOffset
  {
  }

  /** Post-scroll does not clamp: one long downward drag from rest moves the
      offset past `maxOffset` whatever the damping curve. */
  lemma PostScrollCanPassMax(rate: real -> real)
    requires IsDampingCurve(rate)
    ensures var c := Connection(240.0, 120.0, true);
            var r := OnPostScroll(rate, c, Initial(false), Offset(0.0, 1000.0), Drag);
            r.state.pullOffset == 1000.0 && r.state.pullOffset > c.maxOffset
  {
  }

  /** Once the offset is past `maxOffset`, a short upward drag snaps it back to
      `maxOffset` and reports more consumed than the drag offered. */
  lemma PreScrollAboveMaxOverConsumes()
    ensures var r := OnPreScroll(Connection(240.0, 120.0, true), State(300.0, false, true), Offset(0.0, -10.0), Drag);
            r.consumed.y == -60.0 && r.consumed.y < -10.0 && r.state.pullOffset == 240.0
  {
  }

  /** Three downward drags of 50 from rest with trigger 120 and maximum 240:
      the first passes whole, each later one moves the offset by at most 50,
      and the pull stays below the maximum. */
  lemma ThreeDragsStayBelowMax(rate: real -> real)
    requires IsDampingCurve(rate)
    ensures var c := Connection(240.0, 120.0, true);
            var d := Offset(0.0, 50.0);
            var s1 := OnPostScroll(rate, c, Initial(false), d, Drag).state;
            var s2 := OnPostScroll(rate, c, s1, d, Drag).state;
            var s3 := OnPostScroll(rate, c, s2, d, Drag).state;
            && s1.pullOffset == 50.0
            && s1.pullOffset <= s2.pullOffset <= 100.0
            && s2.pullOffset <= s3.pullOffset <= 150.0
            && s3.pullOffset < c.maxOffset
  {
  }

  /** Release in the middle of a pull swallows the fling. */
  lemma ReleaseMidPullSwallowsFling(c: Connection, s: State, v: Velocity)
    requires s.isPulling && !s.isRefreshing
    ensures OnPreFling(c, s, v).consumed == v
    ensures !OnPreFling(c, s, v).state.isPulling
  {
  }
}

/** The pull-refresh container: it converts its length parameters to pixels,
    remembers one nested-scroll connection, settles the offset whenever a pull
    ends or the refreshing flag changes, and places the indicator. Every
    launched mutation is taken to run at once and in order. */
module PullRefresh {
  import opened Damping
  import opened PullRefreshState
  import opened NestedScroll
  import opened Indicator

  /** The container's parameters; lengths in density-independent pixels. */
  datatype Config = Config(
    pullEnabled: bool,
    refreshTriggerOffset: real,
    refreshingOffset: real,
    refreshingMaxPullOffset: real)

  /** Enabled, trigger at 120, refresh position 100, maximum pull 240. */
  const DefaultConfig: Config := Config(true, 120.0, 100.0, 240.0)

  /** Lengths the model can run with: positive trigger and maximum, and a
      refresh position that is not negative (at or below rest). */
  predicate ValidConfig(cfg: Config) {
    cfg.refreshTriggerOffset > 0.0 && cfg.refreshingOffset >= 0.0 && cfg.refreshingMaxPullOffset > 0.0
  }

  /** Converts a density-independent length to pixels. */
  function ToPx(dp: real, density: real): real {
    dp * density
  }

  /** Where the offset settles once no drag pulls. */
  function SettleTarget(isRefreshing: bool, refreshingOffsetPx: real): real {
    if isRefreshing then refreshingOffsetPx else 0.0
  }

  /** The settle effect: while a drag pulls nothing happens; otherwise the
      offset goes to the refresh position when refreshing and to rest when not. */
  function Settle(s: State, refreshingOffsetPx: real): (r: State)
    ensures s.isPulling ==> r == s
    ensures !s.isPulling && s.isRefreshing ==> r.pullOffset == refreshingOffsetPx
    ensures !s.isPulling && !s.isRefreshing ==> r.pullOffset == 0.0
    ensures r.isPulling == s.isPulling && r.isRefreshing == s.isRefreshing
  {
    if !s.isPulling then
      AnimateOffsetTo(s, SettleTarget(s.isRefreshing, refreshingOffsetPx))
    else
      s
  }

  /** Settling a settled state changes nothing, and a settled state that is not
      pulled sits exactly at its settle target. */
  lemma SettleIdempotent(s: State, refreshingOffsetPx: real)
    ensures Settle(Settle(s, refreshingOffsetPx), refreshingOffsetPx) == Settle(s, refreshingOffsetPx)
    ensures !s.isPulling ==>
              Settle(s, refreshingOffsetPx).pullOffset == SettleTarget(s.isRefreshing, refreshingOffsetPx)
  {
  }

  /** The connection built at first composition: maximum and trigger come from
      the configured lengths and `enabled` from `pullEnabled`. */
  function FirstConnection(cfg: Config, density: real): (c: Connection)
    ensures c.maxOffset == cfg.refreshingMaxPullOffset * density
    ensures c.triggerOffset == cfg.refreshTriggerOffset * density
    ensures c.enabled == cfg.pullEnabled
  {
    Recompose(Connection(ToPx(cfg.refreshingMaxPullOffset, density), ToPx(cfg.refreshTriggerOffset, density), false), cfg)
  }

  /** A recomposition keeps the remembered connection and only copies
      `pullEnabled` into it. */
  function Recompose(c: Connection, cfg: Config): (r: Connection)
    ensures r.enabled == cfg.pullEnabled
    ensures r.maxOffset == c.maxOffset && r.triggerOffset == c.triggerOffset
  {
    c.(enabled := cfg.pullEnabled)
  }

  /** The default refresh position lies inside the hysteresis band of the
      default trigger at every density. */
  lemma DefaultRefreshingOffsetInBand(density: real)
    requires density > 0.0
    ensures var trigger := ToPx(DefaultConfig.refreshTriggerOffset, density);
            var refreshing := ToPx(DefaultConfig.refreshingOffset, density);
            HysteresisFactor * trigger <= refreshing < trigger
  {
  }

  /** A refresh position inside the band makes the settled position stable:
      evaluating the threshold there neither starts nor clears a refresh. */
  lemma SettledThresholdIsStable(s: State, triggerPx: real, refreshingOffsetPx: real)
    requires !s.isPulling
    requires triggerPx > 0.0
    requires HysteresisFactor * triggerPx <= refreshingOffsetPx < triggerPx
    ensures var settled := Settle(s, refreshingOffsetPx);
            UpdateRefreshStateByOffset(settled, triggerPx) == ThresholdResult(settled, 0)
  {
  }

  /** The container as a whole: the remembered connection, the refresh position
      in pixels, the state and how often `onRefresh` has run. */
  datatype Host = Host(conn: Connection, refreshingOffsetPx: real, state: State, refreshCalls: nat)

  /** What reaches the container: a scroll delta offered before or after the
      content, a release, or a recomposition with new `isRefreshing` and
      `pullEnabled` arguments. */
  datatype Event =
    | PreScrollEvent(available: Offset, source: ScrollSource)
    | PostScrollEvent(available: Offset, source: ScrollSource)
    | PreFlingEvent(velocity: Velocity)
    | Recomposed(isRefreshing: bool, pullEnabled: bool)

  /** The settle effect is keyed on the pulling and refreshing flags: it runs
      when either differs from the previous state. */
  function RunEffect(before: State, after: State, refreshingOffsetPx: real): (r: State)
    ensures r.isPulling == after.isPulling && r.isRefreshing == after.isRefreshing
    ensures before.isPulling == after.isPulling && before.isRefreshing == after.isRefreshing ==> r == after
    ensures after.isPulling ==> r == after
    ensures !after.isPulling && (before.isPulling || before.isRefreshing != after.isRefreshing) ==>
              r.pullOffset == SettleTarget(after.isRefreshing, refreshingOffsetPx)
  {
    if before.isPulling != after.isPulling || before.isRefreshing != after.isRefreshing then
      Settle(after, refreshingOffsetPx)
    else
      after
  }

  /** First composition: the connection is built, the state starts at rest and
      the settle effect runs once. */
  function Mount(cfg: Config, density: real, isRefreshing: bool): (h: Host)
    ensures h.conn == FirstConnection(cfg, density)
    ensures h.refreshingOffsetPx == cfg.refreshingOffset * density
    ensures h.state.isRefreshing == isRefreshing && !h.state.isPulling
    ensures h.state.pullOffset == SettleTarget(isRefreshing, h.refreshingOffsetPx)
    ensures h.refreshCalls == 0
  {
    var refreshingOffsetPx := ToPx(cfg.refreshingOffset, density);
    Host(FirstConnection(cfg, density), refreshingOffsetPx, Settle(Initial(isRefreshing), refreshingOffsetPx), 0)
  }

  /** One event and the settle effect it causes. */
  function Step(rate: real -> real, h: Host, e: Event): (r: Host)
    requires h.conn.maxOffset > 0.0
    requires IsDampingCurve(rate)
    ensures r.conn.maxOffset == h.conn.maxOffset && r.conn.triggerOffset == h.conn.triggerOffset
    ensures r.refreshingOffsetPx == h.refreshingOffsetPx
    ensures r.conn.enabled == (if e.Recomposed? then e.pullEnabled else h.conn.enabled)
    ensures h.refreshCalls <= r.refreshCalls <= h.refreshCalls + 1
    ensures r.refreshCalls == h.refreshCalls + 1 ==>
              e.PreFlingEvent? && !h.state.isRefreshing && r.state.isRefreshing
  {
    match e
    case PreScrollEvent(available, source) =>
      var res := OnPreScroll(h.conn, h.state, available, source);
      h.(state := RunEffect(h.state, res.state, h.refreshingOffsetPx))
    case PostScrollEvent(available, source) =>
      var res := OnPostScroll(rate, h.conn, h.state, available, source);
      h.(state := RunEffect(h.state, res.state, h.refreshingOffsetPx))
    case PreFlingEvent(velocity) =>
      var res := OnPreFling(h.conn, h.state, velocity);
      h.(state := RunEffect(h.state, res.state, h.refreshingOffsetPx),
         refreshCalls := h.refreshCalls + res.refreshCalls)
    case Recomposed(isRefreshing, pullEnabled) =>
      var s := h.state.(isRefreshing := isRefreshing);
      h.(conn := h.conn.(enabled := pullEnabled), state := RunEffect(h.state, s, h.refreshingOffsetPx))
  }

  /** The events applied in order. */
  function Run(rate: real -> real, h: Host, events: seq<Event>): Host
    requires h.conn.maxOffset > 0.0
    requires IsDampingCurve(rate)
    decreases |events|
  {
    if |events| == 0 then h
    else
      var next := Step(rate, h, events[0]);
      Run(rate, next, events[1..])
  }

  /** What holds between events: the offset is never negative, and whenever
      no drag pulls the offset sits at its settle target. */
  ghost predicate Settled(h: Host) {
    && h.conn.maxOffset > 0.0
    && h.refreshingOffsetPx >= 0.0
    && h.state.pullOffset >= 0.0
    && (!h.state.isPulling ==> h.state.pullOffset == SettleTarget(h.state.isRefreshing, h.refreshingOffsetPx))
  }

  /** A freshly composed container with valid lengths is settled. */
  lemma MountSettled(cfg: Config, density: real, isRefreshing: bool)
    requires ValidConfig(cfg) && density > 0.0
    ensures Settled(Mount(cfg, density, isRefreshing))
  {
  }

  /** Every event keeps the container settled. */
  lemma StepKeepsSettled(rate: real -> real, h: Host, e: Event)
    requires Settled(h)
    requires IsDampingCurve(rate)
    ensures Settled(Step(rate, h, e))
  {
  }

  /** Every run from a settled container ends settled. */
  lemma {:induction false} RunKeepsSettled(rate: real -> real, h: Host, events: seq<Event>)
    requires Settled(h)
    requires IsDampingCurve(rate)
    ensures Settled(Run(rate, h, events))
    decreases |events|
  {
    if |events| > 0 {
      StepKeepsSettled(rate, h, events[0]);
      RunKeepsSettled(rate, Step(rate, h, events[0]), events[1..]);
    }
  }

  /** The connection keeps the lengths of the first composition for the
      container's whole life, and `onRefresh` runs at most once per release. */
  lemma {:induction false} RunKeepsConnectionLengths(rate: real -> real, h: Host, events: seq<Event>)
    requires h.conn.maxOffset > 0.0
    requires IsDampingCurve(rate)
    ensures Run(rate, h, events).conn.maxOffset == h.conn.maxOffset
    ensures Run(rate, h, events).conn.triggerOffset == h.conn.triggerOffset
    ensures Run(rate, h, events).refreshCalls <= h.refreshCalls + CountReleases(events)
    decreases |events|
  {
    if |events| > 0 {
      RunKeepsConnectionLengths(rate, Step(rate, h, events[0]), events[1..]);
    }
  }

  /** How many releases a sequence of events holds. */
  function CountReleases(events: seq<Event>): nat
    decreases |events|
  {
    if |events| == 0 then 0
    else (if events[0].PreFlingEvent? then 1 else 0) + CountReleases(events[1..])
  }

  /** Releasing a pull past the trigger starts a refresh, runs `onRefresh`
      once, and settles the offset at the refresh position. */
  lemma ReleasePastTriggerRefreshes(rate: real -> real, h: Host, v: Velocity)
    requires Settled(h)
    requires IsDampingCurve(rate)
    requires h.state.isPulling && !h.state.isRefreshing
    requires h.state.pullOffset >= h.conn.triggerOffset
    ensures var r := Step(rate, h, PreFlingEvent(v));
            && r.state.isRefreshing && !r.state.isPulling
            && r.refreshCalls == h.refreshCalls + 1
            && r.state.pullOffset == h.refreshingOffsetPx
  {
  }

  /** Releasing a pull short of the trigger runs no refresh and settles the
      offset back at rest. */
  lemma ReleaseShortOfTriggerRetracts(rate: real -> real, h: Host, v: Velocity)
    requires Settled(h)
    requires IsDampingCurve(rate)
    requires h.state.isPulling && !h.state.isRefreshing
    requires h.state.pullOffset < h.conn.triggerOffset
    ensures var r := Step(rate, h, PreFlingEvent(v));
            && !r.state.isRefreshing && !r.state.isPulling
            && r.refreshCalls == h.refreshCalls
            && r.state.pullOffset == 0.0
  {
  }

  /** The indicator is placed with the trigger distance as its reference. */
  function IndicatorPlacement(h: Host): (y: real)
    requires h.conn.triggerOffset > 0.0
    ensures 0.0 <= h.state.pullOffset <= h.conn.triggerOffset ==> y == h.state.pullOffset
    ensures y <= 1.5 * h.conn.triggerOffset
  {
    IndicatorOffset(h.state.pullOffset, h.conn.triggerOffset)
  }
}

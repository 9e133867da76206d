/**
 * The pull-to-refresh wrapper (src/components/PullToRefresh.tsx): touch
 * handlers drive three state fields and the remembered start position. The
 * awaited `onRefresh()` is split in two steps: the touch end that starts it
 * and the completion that follows it.
 */
module PullToRefresh {

  /** Pull distance, in pixels, from which releasing starts a refresh. */
  const Threshold: real := 60.0

  /** The most the indicator is ever pulled open. */
  const MaxPull: real := 100.0

  /** `Math.min(a, b)`. */
  function Min(a: real, b: real): (m: real)
    ensures m <= a && m <= b && (m == a || m == b)
  {
    if a <= b then a else b
  }

  /** The indicator's rotation in degrees: a full turn once the threshold is reached. */
  function Rotation(pullDistance: real): (deg: real)
    requires 0.0 <= pullDistance
    ensures 0.0 <= deg <= 360.0
    ensures deg == 360.0 <==> pullDistance >= Threshold
    ensures pullDistance < Threshold ==> deg == pullDistance * 6.0
  {
    Min(pullDistance / Threshold, 1.0) * 360.0
  }

  /** The indicator's height: the pull distance while positive, otherwise nothing. */
  function IndicatorHeight(pullDistance: real): (h: real)
    ensures h >= 0.0
    ensures pullDistance > 0.0 ==> h == pullDistance
    ensures pullDistance <= 0.0 ==> h == 0.0
  {
    if pullDistance > 0.0 then pullDistance else 0.0
  }

  class PullToRefresh {
    var pulling: bool
    var pullDistance: real
    var refreshing: bool
    /** The `startY` ref: where the current pull began. */
    var startY: real
    /** How many times `onRefresh` has been called. */
    var refreshCalls: nat

    /**
     * The distance stays within [0, 100]; a refresh pins it at the threshold
     * during a pull; when no pull is under way the indicator is closed.
     */
    predicate Valid()
      reads this
    {
      0.0 <= pullDistance <= MaxPull
      && (refreshing ==> pullDistance == Threshold && pulling)
      && (!pulling ==> pullDistance == 0.0)
    }

    constructor ()
      ensures Valid()
      ensures !pulling && pullDistance == 0.0 && !refreshing && startY == 0.0 && refreshCalls == 0
    {
      pulling, pullDistance, refreshing, startY, refreshCalls := false, 0.0, false, 0.0, 0;
    }

    /** A touch begins; it starts a pull only on a mounted container scrolled to the top. */
    method HandleTouchStart(hasContainer: bool, scrollTop: real, clientY: real)
      requires Valid()
      modifies this
      ensures Valid()
      ensures hasContainer && scrollTop == 0.0 ==> pulling && startY == clientY
      ensures !(hasContainer && scrollTop == 0.0) ==> pulling == old(pulling) && startY == old(startY)
      ensures pullDistance == old(pullDistance) && refreshing == old(refreshing)
      ensures refreshCalls == old(refreshCalls)
    {
      if hasContainer && scrollTop == 0.0 {
        startY := clientY;
        pulling := true;
      }
    }

    /** The finger moves; a downward drag opens the indicator by half the distance, at most 100. */
    method HandleTouchMove(clientY: real)
      requires Valid()
      modifies this
      ensures Valid()
      ensures pulling == old(pulling) && refreshing == old(refreshing) && startY == old(startY)
      ensures refreshCalls == old(refreshCalls)
      ensures !old(pulling) || old(refreshing) || clientY - startY <= 0.0 ==> pullDistance == old(pullDistance)
      ensures old(pulling) && !old(refreshing) && clientY - startY > 0.0 ==>
        pullDistance == Min((clientY - startY) * 0.5, MaxPull)
    {
      if !pulling || refreshing {
        return;
      }
      var diff := clientY - startY;
      if diff > 0.0 {
        pullDistance := Min(diff * 0.5, MaxPull);
      }
    }

    /**
     * The finger lifts. Past the threshold a refresh starts: `onRefresh` is
     * called once and the indicator is held at the threshold. Otherwise the
     * pull ends. While a refresh runs, nothing happens.
     */
    method HandleTouchEnd()
      requires Valid()
      modifies this
      ensures Valid()
      ensures startY == old(startY)
      ensures old(refreshing) ==>
        refreshing && pulling == old(pulling) && pullDistance == old(pullDistance) && refreshCalls == old(refreshCalls)
      ensures !old(refreshing) && old(pullDistance) >= Threshold ==>
        refreshing && pullDistance == Threshold && pulling && refreshCalls == old(refreshCalls) + 1
      ensures !old(refreshing) && old(pullDistance) < Threshold ==>
        !refreshing && pullDistance == 0.0 && !pulling && refreshCalls == old(refreshCalls)
    {
      if refreshing {
        return;
      }
      if pullDistance >= Threshold {
        refreshing := true;
        pullDistance := Threshold;
        refreshCalls := refreshCalls + 1;
      } else {
        pullDistance := 0.0;
        pulling := false;
      }
    }

    /** The awaited `onRefresh()` resolves: the refresh ends and the pull is reset. */
    method CompleteRefresh()
      requires Valid() && refreshing
      modifies this
      ensures Valid()
      ensures !refreshing && pullDistance == 0.0 && !pulling
      ensures startY == old(startY) && refreshCalls == old(refreshCalls)
    {
      refreshing := false;
      pullDistance := 0.0;
      pulling := false;
    }

    /**
     * The awaited `onRefresh()` rejects: the handler stops at the `await`, so
     * neither `setRefreshing(false)` nor the reset after it runs.
     */
    method RejectRefresh()
      requires Valid() && refreshing
      ensures Valid() && refreshing
    {
    }
  }

  /**
   * One full gesture from rest: a touch at the top, a drag of `drag` pixels,
   * the release and, if a refresh started, its completion. `onRefresh` is
   * called exactly when the drag reached twice the threshold, and, provided
   * that call resolves, the component ends at rest either way.
   */
  method Gesture(p: PullToRefresh, startY: real, drag: real) returns (refreshed: bool)
    requires p.Valid() && !p.pulling && !p.refreshing
    modifies p
    ensures p.Valid()
    ensures refreshed <==> drag >= 2.0 * Threshold
    ensures p.refreshCalls == old(p.refreshCalls) + (if refreshed then 1 else 0)
    ensures !p.pulling && !p.refreshing && p.pullDistance == 0.0
  {
    p.HandleTouchStart(true, 0.0, startY);
    p.HandleTouchMove(startY + drag);
    refreshed := p.pullDistance >= Threshold;
    p.HandleTouchEnd();
    if p.refreshing {
      p.CompleteRefresh();
    }
  }

  /**
   * After a rejected `onRefresh()` the component is stuck: further moves and
   * releases change nothing, the indicator stays open at the threshold and
   * `onRefresh` is never called again.
   */
  method StuckAfterRejection(p: PullToRefresh, clientY: real)
    requires p.Valid() && p.refreshing
    modifies p
    ensures p.Valid() && p.refreshing && p.pulling && p.pullDistance == Threshold
    ensures p.startY == old(p.startY) && p.refreshCalls == old(p.refreshCalls)
    ensures IndicatorHeight(p.pullDistance) == Threshold
  {
    p.RejectRefresh();
    p.HandleTouchMove(clientY);
    p.HandleTouchEnd();
  }
}

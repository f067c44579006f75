/** The dynamic-island pull-to-refresh controller (`ScrollViewModel`) and the
    two views that drive it: `DynamicIslandRefreshView` and
    `CustomRefreshView`. The platform callbacks become explicit method calls:
    the scroll offset reported through `ScrollOffsetKey`, the pan gesture's
    `.changed` and `.ended`/`.cancelled` phases, and the end of the
    asynchronous refresh action. Haptic feedback is counted in a ghost field. */
module PullRefresh {
  import opened RealMath

  /** `refreshEableOffset`: how far the content must be pulled to refresh. */
  const RefreshEnableOffset: real := 140.0
  /** Height of `dynamicIslandFrame` (x 0, y 14, width 124, height 37). */
  const IslandHeight: real := 37.0
  /** `canvasSymbolSize` of the circle drawn under the island. */
  const CanvasSymbolSize: real := 47.0
  /** `total` in the indicator offset: half the pull distance plus half the island. */
  const IndicatorRest: real := RefreshEnableOffset / 2.0 + IslandHeight / 2.0

  /** The progress computed by the offset callback: divide by the threshold,
      then replace a negative value by 0 and a value above 1 by 1. */
  function PullProgress(offset: real): (p: real)
    ensures p == Clamp(offset / RefreshEnableOffset, 0.0, 1.0)
  {
    var p0 := offset / RefreshEnableOffset;
    var p1 := if p0 < 0.0 then 0.0 else p0;
    if p1 > 1.0 then 1.0 else p1
  }

  /** Progress is 0 at or above the rest position, 1 from the threshold on,
      and never decreases while the content is pulled further. */
  lemma PullProgressShape(offset: real, further: real)
    requires offset <= further
    ensures 0.0 <= PullProgress(offset) <= 1.0
    ensures offset <= 0.0 ==> PullProgress(offset) == 0.0
    ensures offset >= RefreshEnableOffset ==> PullProgress(offset) == 1.0
    ensures PullProgress(offset) <= PullProgress(further)
  {
    ClampMonotone(offset / RefreshEnableOffset, further / RefreshEnableOffset, 0.0, 1.0);
  }

  /** Where the refresh indicator sits below the island (`RefreshView` and the
      circle `CanvasSymbol`): nowhere while nothing is pulled; following the
      pull while not eligible; at least at its rest position once eligible. */
  function IndicatorOffset(isEligible: bool, contentOffset: real, scrollOffset: real): (y: real)
    ensures scrollOffset <= 0.0 ==> y == 0.0
    ensures y >= 0.0
    ensures !isEligible && scrollOffset > 0.0 ==> y == scrollOffset
    ensures isEligible && scrollOffset > 0.0 ==> y >= IndicatorRest && y >= contentOffset
    ensures isEligible && scrollOffset > 0.0 ==> y == IndicatorRest || y == contentOffset
  {
    var total := RefreshEnableOffset / 2.0 + IslandHeight / 2.0;
    var followed := if isEligible then (if contentOffset > total then contentOffset else total) else scrollOffset;
    if scrollOffset > 0.0 then followed else 0.0
  }

  class ScrollViewModel {
    var isEligible: bool
    var isRefreshing: bool
    var progress: real
    var contentOffset: real
    var scrollOffset: real
    var isImpact: bool
    /** Number of haptic impacts played so far. */
    ghost var impacts: nat

    /** The progress always belongs to the recorded scroll offset; eligibility
        is only ever held with the offset at or past the threshold; and a
        refresh only runs while eligible. */
    ghost predicate Valid()
      reads this
    {
      && progress == PullProgress(scrollOffset)
      && (isEligible ==> scrollOffset >= RefreshEnableOffset)
      && (isRefreshing ==> isEligible)
    }

    constructor ()
      ensures Valid()
      ensures !isEligible && !isRefreshing && !isImpact
      ensures progress == 0.0 && contentOffset == 0.0 && scrollOffset == 0.0 && impacts == 0
    {
      isEligible := false;
      isRefreshing := false;
      progress := 0.0;
      contentOffset := 0.0;
      scrollOffset := 0.0;
      isImpact := false;
      impacts := 0;
    }

    /** The offset callback of `DynamicIslandRefreshView`. While not eligible it
        records the offset and its clamped progress; once eligible those stay
        frozen, and the first offset report starts the refresh. */
    method DynamicIslandOffsetChanged(offset: real)
      requires Valid()
      modifies this
      ensures Valid()
      ensures contentOffset == offset
      ensures !old(isEligible) ==> scrollOffset == offset && progress == Clamp(offset / RefreshEnableOffset, 0.0, 1.0)
      ensures old(isEligible) ==> scrollOffset == old(scrollOffset) && progress == old(progress)
      ensures 0.0 <= progress <= 1.0
      ensures isRefreshing == (old(isRefreshing) || old(isEligible))
      ensures isEligible == old(isEligible) && isImpact == old(isImpact) && impacts == old(impacts)
    {
      contentOffset := offset;
      if !isEligible {
        var p := offset / RefreshEnableOffset;
        p := if p < 0.0 then 0.0 else p;
        p := if p > 1.0 then 1.0 else p;
        scrollOffset := offset;
        progress := p;
      }
      if isEligible && !isRefreshing {
        isRefreshing := true;
      }
    }

    /** The offset callback of `CustomRefreshView`: the same bookkeeping, and
        one haptic exactly when the refresh starts. */
    method CustomOffsetChanged(offset: real)
      requires Valid()
      modifies this
      ensures Valid()
      ensures contentOffset == offset
      ensures !old(isEligible) ==> scrollOffset == offset && progress == Clamp(offset / RefreshEnableOffset, 0.0, 1.0)
      ensures old(isEligible) ==> scrollOffset == old(scrollOffset) && progress == old(progress)
      ensures isRefreshing == (old(isRefreshing) || old(isEligible))
      ensures impacts == old(impacts) + (if !old(isRefreshing) && isRefreshing then 1 else 0)
      ensures isEligible == old(isEligible) && isImpact == old(isImpact)
    {
      contentOffset := offset;
      if !isEligible {
        var p := offset / RefreshEnableOffset;
        p := if p < 0.0 then 0.0 else p;
        p := if p > 1.0 then 1.0 else p;
        scrollOffset := offset;
        progress := p;
      }
      if isEligible && !isRefreshing {
        isRefreshing := true;
        impacts := impacts + 1;
      }
    }

    /** The pan gesture's `.changed` phase: one haptic when the pull is at or
        past the threshold and none has been played since the last time it
        was below it (or since the last gesture end). */
    method GestureChanged()
      requires Valid()
      modifies this
      ensures Valid()
      ensures impacts == old(impacts) + (if old(scrollOffset) >= RefreshEnableOffset && !old(isImpact) then 1 else 0)
      ensures isImpact == (scrollOffset >= RefreshEnableOffset)
      ensures isEligible == old(isEligible) && isRefreshing == old(isRefreshing)
      ensures progress == old(progress) && contentOffset == old(contentOffset) && scrollOffset == old(scrollOffset)
    {
      if scrollOffset >= RefreshEnableOffset && !isImpact {
        impacts := impacts + 1;
        isImpact := true;
      } else if scrollOffset < RefreshEnableOffset && isImpact {
        isImpact := false;
      }
    }

    /** The pan gesture's `.ended` or `.cancelled` phase: eligibility is
        decided against the threshold, and the haptic is re-armed. An eligible
        controller stays eligible, because its offset is frozen past the
        threshold. */
    method GestureEnded()
      requires Valid()
      modifies this
      ensures Valid()
      ensures isEligible == (scrollOffset >= RefreshEnableOffset)
      ensures old(isEligible) ==> isEligible
      ensures !isImpact
      ensures isRefreshing == old(isRefreshing) && impacts == old(impacts)
      ensures progress == old(progress) && contentOffset == old(contentOffset) && scrollOffset == old(scrollOffset)
    {
      if scrollOffset >= RefreshEnableOffset {
        isEligible := true;
      } else {
        isEligible := false;
      }
      isImpact := false;
    }

    /** What both views do once the refresh action has finished. */
    method CompleteRefresh()
      requires Valid()
      modifies this
      ensures Valid()
      ensures progress == 0.0 && scrollOffset == 0.0 && !isEligible && !isRefreshing
      ensures contentOffset == old(contentOffset) && isImpact == old(isImpact) && impacts == old(impacts)
    {
      progress := 0.0;
      isEligible := false;
      isRefreshing := false;
      scrollOffset := 0.0;
    }

    /** Height of the clear spacer above the content: `refreshEableOffset * progress`. */
    function SpacerHeight(): (h: real)
      reads this
      requires Valid()
      ensures 0.0 <= h <= RefreshEnableOffset
      ensures h == RefreshEnableOffset <==> progress == 1.0
    {
      RefreshEnableOffset * progress
    }

    /** Rotation of the arrow in degrees: `progress * 180`. */
    function ArrowRotation(): (degrees: real)
      reads this
      requires Valid()
      ensures 0.0 <= degrees <= 180.0
      ensures degrees == 0.0 <==> scrollOffset <= 0.0
    {
      progress * 180.0
    }

    /** Opacities of the arrow and of the spinner: exactly one is shown, the
        spinner precisely while eligible. */
    function IndicatorOpacities(): (r: (real, real))
      reads this
      ensures r.0 + r.1 == 1.0
      ensures r.0 == 0.0 || r.0 == 1.0
      ensures r.1 == 1.0 <==> isEligible
    {
      (if isEligible then 0.0 else 1.0, if isEligible then 1.0 else 0.0)
    }

    /** Vertical offset of the indicator for this state; once eligible it is
        never above its rest position. */
    function IndicatorY(): (y: real)
      reads this
      requires Valid()
      ensures y >= 0.0
      ensures isEligible ==> y >= IndicatorRest
      ensures !isEligible ==> y == Max(scrollOffset, 0.0)
    {
      IndicatorOffset(isEligible, contentOffset, scrollOffset)
    }

    /** Scale of the circle under the island: from the island's height at no
        progress to the full symbol at full progress. */
    function CircleScale(): (s: real)
      reads this
      requires Valid()
      ensures IslandHeight / CanvasSymbolSize <= s <= 1.0
      ensures progress == 1.0 ==> s == 1.0
      ensures progress == 0.0 ==> s == IslandHeight / CanvasSymbolSize
    {
      var scale := IslandHeight / CanvasSymbolSize;
      scale + (progress / 1.0) * (1.0 - scale)
    }
  }

  /** The scenario of a full pull: the content is pulled to 200 points, the
      finger lifts, the next offset report starts the refresh, and the
      completion returns the controller to rest. */
  method PullScenario() returns (eligible: bool, refreshing: bool, restProgress: real, restEligible: bool)
    ensures eligible && refreshing
    ensures restProgress == 0.0 && !restEligible
  {
    var m := new ScrollViewModel();
    m.DynamicIslandOffsetChanged(80.0);
    m.GestureChanged();
    assert m.impacts == 0;
    m.DynamicIslandOffsetChanged(200.0);
    m.GestureChanged();
    assert m.impacts == 1;
    m.GestureChanged();
    assert m.impacts == 1;
    m.GestureEnded();
    m.DynamicIslandOffsetChanged(150.0);
    assert m.scrollOffset == 200.0;
    eligible, refreshing := m.isEligible, m.isRefreshing;
    m.CompleteRefresh();
    restProgress, restEligible := m.progress, m.isEligible;
  }
}

/** `PageView` of `PageViewDemo`: a horizontally paged scroll view whose
    pages are vertical scroll views sharing one header. The pages keep their
    vertical positions in step so that the header looks shared. Each page's
    `ScrollGeometry` is modelled by its vertical offset (`offsetY`) and each
    `ScrollPosition` by the vertical position last requested with
    `scrollTo(y:)`; both are arrays of reals, one entry per label. The main
    (horizontal) scroll geometry is its horizontal offset and content width. */
module PageView {
  import opened Options
  import opened RealMath
  import opened Sequences

  /** Swift's `round`: the nearest integer, halves rounded away from zero. */
  function Round(x: real): (n: int)
    ensures Abs(x - n as real) <= 0.5
    ensures x >= 0.0 ==> n >= 0
  {
    if x >= 0.0 then (x + 0.5).Floor else -((-x + 0.5).Floor)
  }

  /** The page nearest to the horizontal scroll position, when the page width
      is positive and that page exists: `Int(round(offsetX / pageWidth))`
      checked against `labels.indices`. */
  function PageIndexAt(count: nat, contentWidth: real, offsetX: real): (r: Option<nat>)
    ensures r.Some? ==> r.value < count
    ensures r.Some? ==> count > 0 && contentWidth > 0.0
    ensures r.Some? ==> Abs(offsetX - r.value as real * (contentWidth / count as real)) <= (contentWidth / count as real) / 2.0
  {
    if count == 0 then None
    else
      var pageWidth := contentWidth / count as real;
      if pageWidth <= 0.0 then None
      else
        var index := Round(offsetX / pageWidth);
        NearestPage(offsetX, pageWidth, index);
        if 0 <= index < count then Some(index) else None
  }

  /** Rounding `offsetX / pageWidth` lands on the page whose start is nearest. */
  lemma NearestPage(offsetX: real, pageWidth: real, index: int)
    requires pageWidth > 0.0 && index == Round(offsetX / pageWidth)
    ensures Abs(offsetX - index as real * pageWidth) <= pageWidth / 2.0
    ensures offsetX >= 0.0 ==> index >= 0
  {
    var x := offsetX / pageWidth;
    assert offsetX == x * pageWidth;
    var d := x - index as real;
    assert offsetX - index as real * pageWidth == d * pageWidth;
    assert -0.5 <= d <= 0.5;
    assert -0.5 * pageWidth <= d * pageWidth <= 0.5 * pageWidth;
  }

  /** Every horizontal position from the first page's start up to the middle
      of the last page selects a page. */
  lemma PageIndexCovers(count: nat, contentWidth: real, offsetX: real)
    requires count > 0 && contentWidth > 0.0
    requires 0.0 <= offsetX < contentWidth - contentWidth / count as real / 2.0
    ensures PageIndexAt(count, contentWidth, offsetX).Some?
  {
    var pageWidth := contentWidth / count as real;
    assert contentWidth == count as real * pageWidth;
    var x := offsetX / pageWidth;
    assert offsetX == x * pageWidth;
    var bound := (count as real - 0.5) * pageWidth;
    assert contentWidth - contentWidth / count as real / 2.0 == bound;
    QuotientBelow(offsetX, count as real - 0.5, pageWidth);
    var index := Round(x);
    assert index as real <= x + 0.5;
  }

  /** `currentVisibleIndex`: always a valid page when there is one, falling
      back to the first page. */
  function CurrentVisibleIndex(count: nat, contentWidth: real, offsetX: real): (i: nat)
    ensures count > 0 ==> i < count
    ensures PageIndexAt(count, contentWidth, offsetX).None? ==> i == 0
    ensures count > 0 && contentWidth / count as real <= 0.0 ==> i == 0
    ensures PageIndexAt(count, contentWidth, offsetX).Some? ==> i == PageIndexAt(count, contentWidth, offsetX).value
  {
    match PageIndexAt(count, contentWidth, offsetX)
    case Some(index) => index
    case None => 0
  }

  /** Brightness of tab label `i` in the tab bar: full when the pager is
      exactly on that page, fading to nothing one page away. */
  function Fade(progress: real, i: nat): (fade: real)
    ensures 0.0 <= fade <= 1.0
    ensures fade == 1.0 <==> progress == i as real
    ensures Abs(progress - i as real) >= 1.0 ==> fade == 0.0
  {
    1.0 - Min(Abs(progress - i as real), 1.0)
  }

  /** The label's opacity `0.5 + 0.5 * fade`: never below half. */
  function LabelOpacity(progress: real, i: nat): (opacity: real)
    ensures 0.5 <= opacity <= 1.0
    ensures opacity == 1.0 <==> progress == i as real
  {
    0.5 + 0.5 * Fade(progress, i)
  }

  /** The tab bar's progress: `offsetX / contentWidth * labels.count`, the
      horizontal position measured in pages. */
  function TabBarProgress(count: nat, contentWidth: real, offsetX: real): real
    requires contentWidth != 0.0
  {
    offsetX / contentWidth * count as real
  }

  /** With the pager resting at the start of page `k`, the bar's progress is
      exactly `k`: that page's label is drawn at full opacity and every other
      label at half. */
  lemma RestingPageHighlighted(count: nat, contentWidth: real, k: nat, i: nat)
    requires count > 0 && contentWidth > 0.0
    ensures var progress := TabBarProgress(count, contentWidth, k as real * (contentWidth / count as real));
      && progress == k as real
      && LabelOpacity(progress, k) == 1.0
      && (i != k ==> LabelOpacity(progress, i) == 0.5)
  {
    var pageWidth := contentWidth / count as real;
    var offsetX := k as real * pageWidth;
    assert contentWidth == count as real * pageWidth;
    assert offsetX / contentWidth == k as real / count as real;
    assert k as real / count as real * count as real == k as real;
  }

  class PageViewState {
    /** The titles of the `labels`, one per page. */
    const labels: seq<string>
    var activeTab: Option<string>
    var headerHeight: real
    var scrollGeometries: array<real>
    var scrollPositions: array<real>
    var mainScrollDisabled: bool
    var mainScrollIdle: bool
    var mainOffsetX: real
    var mainContentWidth: real

    /** One geometry and one position per label, in two separate arrays. */
    ghost predicate Valid()
      reads this
    {
      && scrollGeometries.Length == |labels|
      && scrollPositions.Length == |labels|
      && scrollGeometries != scrollPositions
    }

    /** The initialiser sizes both arrays from the label count. */
    constructor (titles: seq<string>)
      ensures Valid()
      ensures labels == titles && activeTab == None
      ensures scrollGeometries.Length == |titles| && scrollPositions.Length == |titles|
      ensures forall i :: 0 <= i < |titles| ==> scrollGeometries[i] == 0.0 && scrollPositions[i] == 0.0
      ensures fresh(scrollGeometries) && fresh(scrollPositions)
      ensures headerHeight == 0.0 && !mainScrollDisabled && mainScrollIdle
      ensures mainOffsetX == 0.0 && mainContentWidth == 0.0
    {
      labels := titles;
      activeTab := None;
      headerHeight := 0.0;
      scrollGeometries := new real[|titles|](_ => 0.0);
      scrollPositions := new real[|titles|](_ => 0.0);
      mainScrollDisabled := false;
      mainScrollIdle := true;
      mainOffsetX := 0.0;
      mainContentWidth := 0.0;
    }

    /** The page that the header and tab bar are drawn on. */
    function VisiblePage(): (i: nat)
      reads this
      ensures |labels| > 0 ==> i < |labels|
      ensures PageIndexAt(|labels|, mainContentWidth, mainOffsetX).Some? ==>
        i == PageIndexAt(|labels|, mainContentWidth, mainOffsetX).value
      ensures PageIndexAt(|labels|, mainContentWidth, mainOffsetX).None? ==> i == 0
    {
      CurrentVisibleIndex(|labels|, mainContentWidth, mainOffsetX)
    }

    /** `onAppear`: the first label becomes active unless a tab already is. */
    method Appear()
      requires Valid()
      modifies this
      ensures Valid() && unchanged(this`scrollGeometries, this`scrollPositions)
      ensures old(activeTab).Some? ==> activeTab == old(activeTab)
      ensures old(activeTab).None? && |labels| > 0 ==> activeTab == Some(labels[0])
      ensures old(activeTab).None? && |labels| == 0 ==> activeTab == None
      ensures headerHeight == old(headerHeight) && mainScrollDisabled == old(mainScrollDisabled)
      ensures mainScrollIdle == old(mainScrollIdle)
      ensures mainOffsetX == old(mainOffsetX) && mainContentWidth == old(mainContentWidth)
    {
      if activeTab == None {
        activeTab := if |labels| > 0 then Some(labels[0]) else None;
      }
    }

    /** The header reports its height. */
    method HeaderHeightChanged(newValue: real)
      requires Valid()
      modifies this`headerHeight
      ensures Valid()
      ensures headerHeight == newValue
    {
      headerHeight := newValue;
    }

    /** The main scroll view reports its geometry. */
    method MainGeometryChanged(offsetX: real, contentWidth: real)
      requires Valid()
      modifies this`mainOffsetX, this`mainContentWidth
      ensures Valid()
      ensures mainOffsetX == offsetX && mainContentWidth == contentWidth
    {
      mainOffsetX := offsetX;
      mainContentWidth := contentWidth;
    }

    /** The main scroll view changes phase. On becoming idle, the page it
        rests on (if in range) becomes the active tab. */
    method MainPhaseChanged(idle: bool)
      requires Valid()
      modifies this`mainScrollIdle, this`activeTab
      ensures Valid()
      ensures mainScrollIdle == idle
      ensures idle && PageIndexAt(|labels|, mainContentWidth, mainOffsetX).Some? ==>
        activeTab == Some(labels[PageIndexAt(|labels|, mainContentWidth, mainOffsetX).value])
      ensures !idle || PageIndexAt(|labels|, mainContentWidth, mainOffsetX).None? ==> activeTab == old(activeTab)
    {
      mainScrollIdle := idle;
      if idle {
        match PageIndexAt(|labels|, mainContentWidth, mainOffsetX) {
          case Some(pageIndex) =>
            var newTab := labels[pageIndex];
            if activeTab != Some(newTab) {
              activeTab := Some(newTab);
            }
          case None =>
        }
      }
    }

    /** Tapping tab label `i` in the tab bar. */
    method TabTapped(i: nat)
      requires Valid() && i < |labels|
      modifies this`activeTab
      ensures Valid()
      ensures activeTab == Some(labels[i])
    {
      activeTab := Some(labels[i]);
    }

    /** A drag on the header or tab bar locks the horizontal pager until it ends. */
    method HeaderDrag(ended: bool)
      requires Valid()
      modifies this`mainScrollDisabled
      ensures Valid()
      ensures mainScrollDisabled == !ended
    {
      mainScrollDisabled := !ended;
    }

    /** `resetScrollViews(from)`: every other page goes back to the top. */
    method ResetScrollViews(from: string)
      requires Valid()
      modifies scrollPositions
      ensures Valid()
      ensures forall i :: 0 <= i < |labels| ==>
        scrollPositions[i] == if labels[i] != from then 0.0 else old(scrollPositions[i])
    {
      var index := 0;
      while index < |labels|
        invariant 0 <= index <= |labels|
        invariant forall i :: 0 <= i < index ==>
          scrollPositions[i] == if labels[i] != from then 0.0 else old(scrollPositions[i])
        invariant forall i :: index <= i < |labels| ==> scrollPositions[i] == old(scrollPositions[i])
      {
        if labels[index] != from {
          scrollPositions[index] := 0.0;
        }
        index := index + 1;
      }
    }

    /** `updateOtherScrollViews(from, to)`: every other page that is not yet
        scrolled past the header, or is asked to show it, moves to `to`. */
    method UpdateOtherScrollViews(from: string, to: real)
      requires Valid()
      modifies scrollPositions
      ensures Valid()
      ensures forall i :: 0 <= i < |labels| ==>
        scrollPositions[i] ==
          if labels[i] != from && (scrollGeometries[i] < headerHeight || to < headerHeight) then to
          else old(scrollPositions[i])
    {
      var index := 0;
      while index < |labels|
        invariant 0 <= index <= |labels|
        invariant forall i :: 0 <= i < index ==>
          scrollPositions[i] ==
            if labels[i] != from && (scrollGeometries[i] < headerHeight || to < headerHeight) then to
            else old(scrollPositions[i])
        invariant forall i :: index <= i < |labels| ==> scrollPositions[i] == old(scrollPositions[i])
      {
        var title := labels[index];
        var offset := scrollGeometries[index];
        var wantsUpdate := offset < headerHeight || to < headerHeight;
        if wantsUpdate && title != from {
          scrollPositions[index] := to;
        }
        index := index + 1;
      }
    }

    /** The page of label `page` reports its geometry: it is stored at the
        label's index, and pulling that page below its top sends the other
        pages to the top. */
    method PageGeometryChanged(page: nat, offsetY: real)
      requires Valid() && page < |labels|
      modifies scrollGeometries, scrollPositions
      ensures Valid()
      ensures var k := FirstIndex(labels, labels[page]);
        && scrollGeometries[k] == offsetY
        && forall i :: 0 <= i < |labels| && i != k ==> scrollGeometries[i] == old(scrollGeometries[i])
      ensures offsetY < 0.0 ==> forall i :: 0 <= i < |labels| ==>
        scrollPositions[i] == if labels[i] != labels[page] then 0.0 else old(scrollPositions[i])
      ensures offsetY >= 0.0 ==> forall i :: 0 <= i < |labels| ==> scrollPositions[i] == old(scrollPositions[i])
    {
      var index := FirstIndex(labels, labels[page]);
      scrollGeometries[index] := offsetY;
      if offsetY < 0.0 {
        ResetScrollViews(labels[page]);
      }
    }

    /** The page of label `page` changes scroll phase: the other pages follow
        its offset capped at the header height (the guard of the source
        always holds), and an idle phase re-enables the pager. */
    method PagePhaseChanged(page: nat, idle: bool)
      requires Valid() && page < |labels|
      modifies this`mainScrollDisabled, scrollPositions
      ensures Valid()
      ensures var to := Min(scrollGeometries[FirstIndex(labels, labels[page])], headerHeight);
        && to <= headerHeight
        && forall i :: 0 <= i < |labels| ==>
          scrollPositions[i] ==
            if labels[i] != labels[page] && (scrollGeometries[i] < headerHeight || to < headerHeight) then to
            else old(scrollPositions[i])
      ensures mainScrollDisabled == (old(mainScrollDisabled) && !idle)
    {
      var index := FirstIndex(labels, labels[page]);
      var geometry := scrollGeometries[index];
      var maxOffset := Min(geometry, headerHeight);
      if idle || maxOffset <= headerHeight {
        UpdateOtherScrollViews(labels[page], maxOffset);
      }
      if idle && mainScrollDisabled {
        mainScrollDisabled := false;
      }
    }
  }
}

/** The pull-to-search screen of `PullSearchDemo`: pulling the content down
    fades in a frosted overlay, and a scroll that ends far enough down (or
    flung downward) expands the search, which only the cancel button
    collapses. `offsetY` is the content's bottom edge in the scroll view's
    coordinates; the scroll end reports the vertical velocity `dy`. */
module PullSearch {
  import opened RealMath

  /** `progress`: `max(min((offsetY - 200) / 100, 1), 0)`. */
  function Progress(offsetY: real): (p: real)
    ensures p == Clamp((offsetY - 200.0) / 100.0, 0.0, 1.0)
  {
    Max(Min((offsetY - 200.0) / 100.0, 1.0), 0.0)
  }

  /** The ramp: 0 up to 200 points, linear over the next 100, 1 from 300 on,
      always within [0, 1] and never decreasing as the pull grows. */
  lemma ProgressRamp(offsetY: real, further: real)
    requires offsetY <= further
    ensures 0.0 <= Progress(offsetY) <= 1.0
    ensures offsetY <= 200.0 ==> Progress(offsetY) == 0.0
    ensures offsetY >= 300.0 ==> Progress(offsetY) == 1.0
    ensures 200.0 <= offsetY <= 300.0 ==> Progress(offsetY) == (offsetY - 200.0) / 100.0
    ensures Progress(offsetY) <= Progress(further)
  {
    ClampMonotone((offsetY - 200.0) / 100.0, (further - 200.0) / 100.0, 0.0, 1.0);
  }

  /** The scroll-end rule: pulled past 300 points, or flung downward faster
      than 1.5 while pulled at all. */
  predicate ShouldExpand(offsetY: real, dy: real)
  {
    offsetY > 300.0 || (-dy > 1.5 && offsetY > 0.0)
  }

  class SearchState {
    var offsetY: real
    var isExpanded: bool

    constructor ()
      ensures offsetY == 0.0 && !isExpanded
    {
      offsetY := 0.0;
      isExpanded := false;
    }

    /** The content's geometry changes. */
    method GeometryChanged(newValue: real)
      modifies this`offsetY
      ensures offsetY == newValue
    {
      offsetY := newValue;
    }

    /** The scroll ends with vertical velocity `dy`: the search expands when
        the rule holds and otherwise stays as it was; it never collapses. */
    method ScrollEnded(dy: real)
      modifies this`isExpanded
      ensures isExpanded == (old(isExpanded) || ShouldExpand(offsetY, dy))
      ensures old(isExpanded) ==> isExpanded
    {
      if offsetY > 300.0 || (-dy > 1.5 && offsetY > 0.0) {
        isExpanded := true;
      }
    }

    /** The cancel button. */
    method Cancel()
      modifies this`isExpanded
      ensures !isExpanded
    {
      isExpanded := false;
    }

    /** Opacity of the frosted overlay: full while expanded, else the pull
        progress; so it is never below the progress and never above 1. */
    function OverlayOpacity(): (o: real)
      reads this
      ensures Progress(offsetY) <= o <= 1.0
      ensures isExpanded ==> o == 1.0
      ensures !isExpanded ==> o == Progress(offsetY)
    {
      ProgressRamp(offsetY, offsetY);
      if isExpanded then 1.0 else Progress(offsetY)
    }

    /** The result list's opacity and whether it accepts touches: shown and
        touchable exactly while expanded, and never more visible than the
        overlay behind it, which is opaque whenever the results are shown. */
    function ResultsShown(): (r: (real, bool))
      reads this
      ensures r.1 <==> isExpanded
      ensures r.0 == 1.0 <==> isExpanded
      ensures r.0 == 0.0 <==> !isExpanded
      ensures r.1 ==> OverlayOpacity() == 1.0
      ensures r.0 <= OverlayOpacity()
    {
      (if isExpanded then 1.0 else 0.0, isExpanded)
    }
  }

  /** A slow pull to 250 points half-shows the overlay and does not expand;
      a fling from there expands it; cancel collapses it again. */
  method PullScenario() returns (half: real, slowExpanded: bool, flungExpanded: bool, cancelled: bool)
    ensures half == 0.5 && !slowExpanded && flungExpanded && !cancelled
  {
    var s := new SearchState();
    s.GeometryChanged(250.0);
    half := s.OverlayOpacity();
    s.ScrollEnded(0.0);
    slowExpanded := s.isExpanded;
    s.ScrollEnded(-2.0);
    flungExpanded := s.isExpanded;
    s.Cancel();
    cancelled := s.isExpanded;
  }
}

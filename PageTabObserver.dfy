/** The page tab bar of `PageTabDemo` (collection-view variant). A probe view
    placed behind a page walks up its superview chain to the
    `UICollectionView` that backs the paged `TabView`; `PageOffsetObserver`
    then observes that view's `contentOffset` by key-value observing, and the
    tab bar's capsule follows it.

    The UIKit view hierarchy is a sequence of views; a view's superview is
    named by its index, which is always larger than the view's own index, so
    every superview chain ends. Key-value observing registrations are kept as
    a multiset of the collection views observed. */
module PageTabObserver {
  import opened Options
  import opened RealMath

  datatype View = View(isCollection: bool, superview: Option<nat>)

  /** Every superview exists and lies further up the sequence than its child. */
  predicate WellFormed(h: seq<View>)
  {
    forall i :: 0 <= i < |h| && h[i].superview.Some? ==> i < h[i].superview.value < |h|
  }

  /** The reference definition: the chain of superviews of `v`, nearest first. */
  function Ancestors(h: seq<View>, v: nat): (chain: seq<nat>)
    requires WellFormed(h) && v < |h|
    ensures forall k :: 0 <= k < |chain| ==> v < chain[k] < |h|
    ensures forall j, k :: 0 <= j < k < |chain| ==> chain[j] < chain[k]
    decreases |h| - v
  {
    match h[v].superview
    case None => []
    case Some(s) => [s] + Ancestors(h, s)
  }

  /** `UIView.collectionSuperView`: the superview if it is a collection view,
      otherwise the superview's own `collectionSuperView`. */
  function CollectionSuperView(h: seq<View>, v: nat): (r: Option<nat>)
    requires WellFormed(h) && v < |h|
    ensures r.Some? ==> v < r.value < |h| && h[r.value].isCollection
    decreases |h| - v
  {
    match h[v].superview
    case None => None
    case Some(s) =>
      if h[s].isCollection then Some(s) else CollectionSuperView(h, s)
  }

  /** `collectionSuperView` finds the nearest collection view among the strict
      ancestors: it is an ancestor, no ancestor closer to the view is a
      collection view, and it is nil exactly when no ancestor is one. */
  lemma {:induction false} CollectionSuperViewNearest(h: seq<View>, v: nat)
    requires WellFormed(h) && v < |h|
    ensures var r, chain := CollectionSuperView(h, v), Ancestors(h, v);
      && (r.Some? ==> r.value in chain)
      && (r.Some? ==> forall k :: 0 <= k < |chain| && chain[k] < r.value ==> !h[chain[k]].isCollection)
      && (r.None? <==> forall k :: 0 <= k < |chain| ==> !h[chain[k]].isCollection)
    decreases |h| - v
  {
    match h[v].superview
    case None =>
    case Some(s) =>
      if !h[s].isCollection {
        CollectionSuperViewNearest(h, s);
        var chain := Ancestors(h, v);
        assert chain == [s] + Ancestors(h, s);
        assert forall k :: 1 <= k < |chain| ==> chain[k] == Ancestors(h, s)[k - 1];
      }
  }

  /** What the key-value observer is told about: the collection view whose
      `contentOffset` changed, some other object, or none. */
  datatype Observed = CollectionView(contentOffsetX: real) | OtherObject | NoObject

  class PageOffsetObserver {
    var collectionView: Option<nat>
    var offset: real
    var isObserving: bool
    /** The `contentOffset` observations registered, by collection view. */
    var registrations: multiset<nat>

    constructor ()
      ensures collectionView == None && offset == 0.0 && !isObserving && registrations == multiset{}
    {
      collectionView := None;
      offset := 0.0;
      isObserving := false;
      registrations := multiset{};
    }

    /** `observe()`: registers on the collection view, if there is one, and
        marks the observer as observing; a second call does nothing. */
    method Observe()
      modifies this
      ensures old(isObserving) ==> registrations == old(registrations)
      ensures !old(isObserving) && collectionView.Some? ==>
        registrations == old(registrations) + multiset{collectionView.value}
      ensures !old(isObserving) && collectionView.None? ==> registrations == old(registrations)
      ensures isObserving
      ensures collectionView == old(collectionView) && offset == old(offset)
    {
      if isObserving {
        return;
      }
      if collectionView.Some? {
        registrations := registrations + multiset{collectionView.value};
      }
      isObserving := true;
    }

    /** `remove()`: removes the registration from the collection view, if
        there is one, and marks the observer as not observing. */
    method Remove()
      modifies this
      ensures collectionView.Some? ==> registrations == old(registrations) - multiset{collectionView.value}
      ensures collectionView.None? ==> registrations == old(registrations)
      ensures !isObserving
      ensures collectionView == old(collectionView) && offset == old(offset)
    {
      if collectionView.Some? {
        registrations := registrations - multiset{collectionView.value};
      }
      isObserving := false;
    }

    /** `observeValue(forKeyPath:of:change:context:)`: only a `contentOffset`
        change reported by a collection view moves the offset. */
    method ObserveValue(keyPath: Option<string>, observed: Observed)
      modifies this`offset
      ensures keyPath == Some("contentOffset") && observed.CollectionView? ==> offset == observed.contentOffsetX
      ensures !(keyPath == Some("contentOffset") && observed.CollectionView?) ==> offset == old(offset)
    {
      if keyPath != Some("contentOffset") {
        return;
      }
      match observed {
        case CollectionView(x) => offset := x;
        case OtherObject =>
        case NoObject =>
      }
    }

    /** The probe behind a page (`FindCollectionView`), placed at view `probe`
        of hierarchy `h`: if it has a collection view above it, that view is
        stored and observed. */
    method ProbeAttached(h: seq<View>, probe: nat)
      requires WellFormed(h) && probe < |h|
      modifies this
      ensures CollectionSuperView(h, probe).Some? ==>
        collectionView == CollectionSuperView(h, probe) && isObserving
      ensures CollectionSuperView(h, probe).Some? && !old(isObserving) ==>
        registrations == old(registrations) + multiset{CollectionSuperView(h, probe).value}
      ensures old(isObserving) ==> registrations == old(registrations)
      ensures CollectionSuperView(h, probe).None? ==>
        collectionView == old(collectionView) && isObserving == old(isObserving) && registrations == old(registrations)
      ensures offset == old(offset)
    {
      var found := CollectionSuperView(h, probe);
      if found.Some? {
        collectionView := found;
        Observe();
      }
    }

    /** The capsule's displacement as drawn: nothing while no collection view
        is known, otherwise `CapsuleOffset` of the observed offset. */
    function Capsule(boundsWidth: real, barWidth: real): (x: Option<real>)
      reads this
      requires boundsWidth != 0.0
      ensures x.Some? <==> collectionView.Some?
      ensures x.Some? ==> x.value == CapsuleOffset(offset, boundsWidth, barWidth)
      ensures x.Some? && boundsWidth > 0.0 && barWidth >= 0.0 && 0.0 <= offset <= 3.0 * boundsWidth ==>
        0.0 <= x.value <= 3.0 * barWidth / TabCount
    {
      CapsuleInBar(offset, boundsWidth, barWidth);
      if collectionView.Some? then Some(CapsuleOffset(offset, boundsWidth, barWidth)) else None
    }
  }

  /** `DummyTab.allCases.count`. */
  const TabCount: real := 4.0

  /** The capsule's displacement: the page progress `offset / pageWidth`
      times the capsule width `barWidth / tabCount`. */
  function CapsuleOffset(offset: real, pageWidth: real, barWidth: real): real
    requires pageWidth != 0.0
  {
    (offset / pageWidth) * (barWidth / TabCount)
  }

  /** While the pager is between its first and last page, the capsule stays
      inside the bar: from the first slot to the last. */
  lemma CapsuleInBar(offset: real, pageWidth: real, barWidth: real)
    requires pageWidth != 0.0
    ensures pageWidth > 0.0 && barWidth >= 0.0 && 0.0 <= offset <= 3.0 * pageWidth ==>
      0.0 <= CapsuleOffset(offset, pageWidth, barWidth) <= 3.0 * barWidth / TabCount
  {
    if pageWidth > 0.0 && barWidth >= 0.0 && 0.0 <= offset <= 3.0 * pageWidth {
      var progress := offset / pageWidth;
      QuotientAtMost(offset, 3.0, pageWidth);
      assert 0.0 <= progress <= 3.0;
      assert progress * (barWidth / TabCount) <= 3.0 * (barWidth / TabCount);
    }
  }

  /** With the pager resting on page `k` the capsule covers the k-th of the
      four equal slots of the bar, and it moves in the direction of the
      scroll. */
  lemma CapsuleOnPage(k: nat, pageWidth: real, barWidth: real, offset: real, further: real)
    requires pageWidth > 0.0 && barWidth >= 0.0 && offset <= further
    ensures CapsuleOffset(k as real * pageWidth, pageWidth, barWidth) == k as real * (barWidth / TabCount)
    ensures CapsuleOffset(offset, pageWidth, barWidth) <= CapsuleOffset(further, pageWidth, barWidth)
  {
    assert k as real * pageWidth / pageWidth == k as real;
    var a, b := offset / pageWidth, further / pageWidth;
    assert further - offset == (b - a) * pageWidth;
    assert a <= b;
  }

  /** Observing twice registers once; removing afterwards leaves no
      registration behind. */
  method ObserveTwiceScenario() returns (afterObserve: multiset<nat>, afterRemove: multiset<nat>, observing: bool)
    ensures afterObserve == multiset{2}
    ensures afterRemove == multiset{}
    ensures !observing
  {
    var h := [View(false, Some(1)), View(false, Some(2)), View(true, None)];
    var o := new PageOffsetObserver();
    o.ProbeAttached(h, 0);
    o.Observe();
    afterObserve := o.registrations;
    o.Remove();
    afterRemove, observing := o.registrations, o.isObserving;
  }

  /** Two page probes that find the same collection view: the first stores
      and observes it, the second finds the observer already observing and
      adds no registration. */
  method TwoProbesScenario() returns (registered: multiset<nat>, observing: bool)
    ensures registered == multiset{2}
    ensures observing
  {
    var h := [View(false, Some(2)), View(false, Some(2)), View(true, None)];
    var o := new PageOffsetObserver();
    o.ProbeAttached(h, 0);
    o.ProbeAttached(h, 1);
    registered, observing := o.registrations, o.isObserving;
  }
}

/** The page tab bar of `PageTabDemo` (offset-key variant): a paged `TabView`
    of the four `DummyTab` pages under a tab bar whose capsule follows the
    horizontal page offset. Each page reports its global `minX` through
    `PageOffsetKey` (see `PreferenceKey`); a tap on a tab label jumps there
    and suppresses the page reports until the pager settles. */
module PageTabOffset {
  import opened RealMath
  import opened Sequences

  datatype DummyTab = Home | Chats | Calls | Settings

  /** `DummyTab.allCases`, in declaration order. */
  const AllCases: seq<DummyTab> := [Home, Chats, Calls, Settings]

  /** `DummyTab.allCases.count`. */
  const TabCount: real := 4.0

  /** `indexOf(tab:)`: the tab's position among all cases. */
  function IndexOf(t: DummyTab): (i: nat)
    ensures i < |AllCases| && AllCases[i] == t
  {
    assert t == AllCases[0] || t == AllCases[1] || t == AllCases[2] || t == AllCases[3];
    FirstIndex(AllCases, t)
  }

  /** The position of every tab is that of its declaration, so distinct tabs
      sit at distinct positions. */
  lemma IndexOfOrder(a: DummyTab, b: DummyTab)
    ensures IndexOf(Home) == 0 && IndexOf(Chats) == 1 && IndexOf(Calls) == 2 && IndexOf(Settings) == 3
    ensures IndexOf(a) == IndexOf(b) ==> a == b
  {
  }

  /** `tabOffset(size:padding:)`: the capsule's displacement, the fraction of
      a page scrolled times the width of one tab slot. */
  function TabOffset(offsetX: real, width: real, padding: real): real
    requires width != 0.0
  {
    (-offsetX / width) * ((width - padding) / TabCount)
  }

  /** With the pager resting on page `k` (`offsetX == -width * k`) and no
      padding, the capsule sits exactly on the k-th tab slot. */
  lemma TabOffsetAtPage(k: nat, width: real)
    requires width > 0.0
    ensures TabOffset(-width * k as real, width, 0.0) == k as real * width / TabCount
  {
    assert -(-width * k as real) / width == k as real;
  }

  /** While the pager is between its first and last page, the capsule stays
      inside the bar: between the first slot and the last slot. */
  lemma TabOffsetInBar(offsetX: real, width: real, padding: real)
    requires width > 0.0 && 0.0 <= padding <= width
    requires -3.0 * width <= offsetX <= 0.0
    ensures 0.0 <= TabOffset(offsetX, width, padding) <= 3.0 * (width - padding) / TabCount
  {
    var f := -offsetX / width;
    assert -offsetX == f * width;
    QuotientAtMost(-offsetX, 3.0, width);
    assert 0.0 <= f <= 3.0;
    var slot := (width - padding) / TabCount;
    assert slot >= 0.0;
    assert f * slot <= 3.0 * slot;
  }

  class TabPager {
    var activeTab: DummyTab
    var offsetX: real
    var isTapped: bool

    constructor ()
      ensures activeTab == Home && offsetX == 0.0 && !isTapped
    {
      activeTab := Home;
      offsetX := 0.0;
      isTapped := false;
    }

    /** The page of `tab` reports its global `minX` (`value`) for a pager of
        width `width`. Only the active page moves the bar, and only when no
        tap is in flight; a report of 0 ends a tap. */
    method PageOffsetChanged(tab: DummyTab, value: real, width: real)
      modifies this
      ensures old(activeTab) == tab && !old(isTapped) ==> offsetX == value - width * IndexOf(tab) as real
      ensures old(activeTab) != tab || old(isTapped) ==> offsetX == old(offsetX)
      ensures isTapped == (old(isTapped) && value != 0.0)
      ensures activeTab == old(activeTab)
    {
      if activeTab == tab && !isTapped {
        offsetX := value - (width * IndexOf(tab) as real);
      }
      if value == 0.0 && isTapped {
        isTapped := false;
      }
    }

    /** A tap on the label of `tab`: the pager jumps to that page and the
        page reports are ignored until the target page settles. */
    method TabTapped(tab: DummyTab, width: real)
      modifies this
      ensures isTapped && activeTab == tab
      ensures offsetX == -width * IndexOf(tab) as real
    {
      isTapped := true;
      activeTab := tab;
      offsetX := -width * IndexOf(tab) as real;
    }

    /** A swipe that settles on another page: the selection binding of the
        paged `TabView` makes that page's tab active and touches nothing
        else. */
    method PageSelected(tab: DummyTab)
      modifies this`activeTab
      ensures activeTab == tab
      ensures offsetX == old(offsetX) && isTapped == old(isTapped)
    {
      activeTab := tab;
    }

    /** The capsule displacement drawn for this state (`padding: 0`). */
    function CapsuleOffset(width: real): real
      reads this
      requires width != 0.0
    {
      TabOffset(offsetX, width, 0.0)
    }
  }

  /** Tapping a tab puts the capsule on its slot; while the pager animates,
      reports from the page still moving leave it there, and the target
      page's settling report (0) ends the tap with the same bar position. */
  method TapScenario(tab: DummyTab, width: real) returns (tapped: real, during: real, settled: real, stillTapped: bool)
    requires width > 0.0
    ensures tapped == IndexOf(tab) as real * width / TabCount
    ensures during == tapped && settled == tapped
    ensures !stillTapped
  {
    var p := new TabPager();
    p.PageOffsetChanged(Home, -0.25 * width, width);
    p.TabTapped(tab, width);
    TabOffsetAtPage(IndexOf(tab), width);
    tapped := p.CapsuleOffset(width);
    p.PageOffsetChanged(tab, 0.5 * width, width);
    during := p.CapsuleOffset(width);
    p.PageOffsetChanged(tab, 0.0, width);
    settled := p.CapsuleOffset(width);
    stillTapped := p.isTapped;
  }

  /** Swiping from the first page to the second: while the first page is
      dragged the bar follows its report; once the second page becomes the
      active tab its report continues from the same bar position, and when
      it settles the capsule rests on the second slot. */
  method SwipeScenario(width: real) returns (dragging: real, handedOver: real, settled: real, tapped: bool)
    requires width > 0.0
    ensures handedOver == dragging
    ensures settled == width / TabCount
    ensures !tapped
  {
    var p := new TabPager();
    p.PageOffsetChanged(Home, -0.6 * width, width);
    dragging := p.CapsuleOffset(width);
    p.PageSelected(Chats);
    p.PageOffsetChanged(Chats, 0.4 * width, width);
    handedOver := p.CapsuleOffset(width);
    p.PageOffsetChanged(Chats, 0.0, width);
    TabOffsetAtPage(IndexOf(Chats), width);
    settled := p.CapsuleOffset(width);
    tapped := p.isTapped;
  }
}

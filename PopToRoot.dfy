/** The pop-to-root tab bar of `PopToRootAppDemo`: a two-tab `TabView` whose
    selection binding counts reselections of the active tab, and pops that
    tab's navigation stack to its root on the second reselection. A
    `NavigationPath` is modelled as the sequence of values pushed on it. */
module PopToRoot {

  datatype Tab = Home | Settings

  /** `Tab.rawValue`. */
  function RawValue(t: Tab): string
  {
    match t
    case Home => "Home"
    case Settings => "Settings"
  }

  /** `Tab.symbolImage`: the SF Symbol shown in the tab item. */
  function SymbolImage(t: Tab): (name: string)
    ensures name == "house.fill" || name == "gearshape.fill"
  {
    match t
    case Home => "house.fill"
    case Settings => "gearshape.fill"
  }

  /** Distinct tabs never share a symbol or a title. */
  lemma {:induction false} TabLabelsDistinct(a: Tab, b: Tab)
    requires a != b
    ensures SymbolImage(a) != SymbolImage(b)
    ensures RawValue(a) != RawValue(b)
  {
    match a
    case Home =>
      assert SymbolImage(a)[0] == 'h' && SymbolImage(b)[0] == 'g';
      assert RawValue(a)[0] == 'H' && RawValue(b)[0] == 'S';
    case Settings =>
      assert SymbolImage(a)[0] == 'g' && SymbolImage(b)[0] == 'h';
      assert RawValue(a)[0] == 'S' && RawValue(b)[0] == 'H';
  }

  /** The values the home stack's links push, in the order they appear. */
  const HomeLinks: seq<string> := ["Detail", "more"]

  /** The navigation links on the top screen of tab `t` whose stack is
      `path`: the home root lists "Detail", the "Detail" screen lists "more",
      the "more" screen and the settings list have none. */
  function Links(t: Tab, path: seq<string>): (links: seq<string>)
    ensures |links| <= 1
    ensures t == Settings ==> links == []
    ensures t == Home && |path| <= 2 && path == HomeLinks[..|path|] ==>
      (links == [] <==> |path| == 2) && (|path| < 2 ==> links == [HomeLinks[|path|]])
  {
    match t
    case Home =>
      if path == [] then ["Detail"]
      else if path[|path| - 1] == "Detail" then ["more"]
      else []
    case Settings => []
  }

  class TabController {
    var activeTab: Tab
    var homeStackPath: seq<string>
    var settingsStackPath: seq<string>
    var tabCount: int

    /** Between two selections the reselection counter is 0 or 1, and each
        path is one the links of its tab can build: the home path is a prefix
        of "Detail", "more", and the settings path stays empty. */
    ghost predicate Valid()
      reads this
    {
      && 0 <= tabCount <= 1
      && |homeStackPath| <= 2 && homeStackPath == HomeLinks[..|homeStackPath|]
      && settingsStackPath == []
    }

    function PathOf(t: Tab): seq<string>
      reads this
    {
      match t
      case Home => homeStackPath
      case Settings => settingsStackPath
    }

    constructor ()
      ensures Valid()
      ensures activeTab == Home && tabCount == 0
      ensures homeStackPath == [] && settingsStackPath == []
    {
      activeTab := Home;
      homeStackPath := [];
      settingsStackPath := [];
      tabCount := 0;
    }

    /** Tapping a `NavigationLink` shown on the active tab pushes its value on
        that tab's stack. */
    method Push(t: Tab, value: string)
      requires Valid() && t == activeTab && value in Links(t, PathOf(t))
      modifies this
      ensures Valid()
      ensures PathOf(t) == old(PathOf(t)) + [value]
      ensures t == Home ==> settingsStackPath == old(settingsStackPath)
      ensures t == Settings ==> homeStackPath == old(homeStackPath)
      ensures activeTab == old(activeTab) && tabCount == old(tabCount)
    {
      match t {
        case Home =>
          assert HomeLinks[..|homeStackPath| + 1] == homeStackPath + [value];
          homeStackPath := homeStackPath + [value];
        case Settings =>
          // unreachable: `Links(Settings, _)` is empty, the settings list shows no link
          assert false;
      }
    }

    /** The setter of the `tabSelection` binding. Selecting another tab resets
        the counter; reselecting the active tab counts, and the second
        reselection in a row empties that tab's path. */
    method Select(newValue: Tab)
      requires Valid()
      modifies this
      ensures Valid()
      ensures activeTab == newValue
      ensures newValue != old(activeTab) ==>
        tabCount == 0 && homeStackPath == old(homeStackPath) && settingsStackPath == old(settingsStackPath)
      ensures newValue == old(activeTab) && old(tabCount) == 0 ==>
        tabCount == 1 && homeStackPath == old(homeStackPath) && settingsStackPath == old(settingsStackPath)
      ensures newValue == old(activeTab) && old(tabCount) == 1 ==>
        tabCount == 0 && PathOf(newValue) == []
      ensures newValue == Home ==> settingsStackPath == old(settingsStackPath)
      ensures newValue == Settings ==> homeStackPath == old(homeStackPath)
    {
      if newValue == activeTab {
        tabCount := tabCount + 1;
        if tabCount == 2 {
          match newValue {
            case Home => homeStackPath := [];
            case Settings => settingsStackPath := [];
          }
          tabCount := 0;
        }
      } else {
        tabCount := 0;
      }
      activeTab := newValue;
    }
  }

  /** Tapping the active tab twice pops its stack to the root and leaves the
      other tab's stack as it was; links are followed only on the active tab. */
  method DoubleTapScenario() returns (home: seq<string>, settings: seq<string>, count: int)
    ensures home == [] && settings == [] && count == 0
  {
    var c := new TabController();
    c.Push(Home, "Detail");
    c.Push(Home, "more");
    c.Select(Settings);
    c.Select(Home);
    assert c.homeStackPath == ["Detail", "more"];
    c.Select(Home);
    assert c.homeStackPath == ["Detail", "more"];
    c.Select(Home);
    home, settings, count := c.homeStackPath, c.settingsStackPath, c.tabCount;
  }
}

/** `StoreView2` of `PageTabDemo`: a store with two currencies (gold coins
    and diamonds), a row of category tabs of which the first ("推荐",
    recommended) shows everything, and an item detail sheet whose purchase
    button is enabled only when one of the two prices can be paid. */
module Store {
  import opened Options
  import opened Sequences

  /** `StoreItem`, without its presentation fields. A price of 0 means the
      item is not sold for that currency. */
  datatype StoreItem = StoreItem(name: string, category: string, icon: string, priceGold: int, priceDiamond: int)

  /** `categories`: the tab titles, "recommended" first. */
  const Categories: seq<string> := ["推荐", "泡泡皮肤", "游戏道具", "特效组件", "稀有装饰"]

  /** `storeItems`, in the order listed, grouped by category. */
  const SkinItems: seq<StoreItem> := [
    StoreItem("彩虹幻影皮肤", "泡泡皮肤", "cloud.rainbow.half.fill", 1200, 60),
    StoreItem("星空流光皮肤", "泡泡皮肤", "sparkles", 1200, 0),
    StoreItem("软萌猫咪皮肤", "泡泡皮肤", "cat.fill", 1000, 0)
  ]
  const PropItems: seq<StoreItem> := [
    StoreItem("时间胶囊", "游戏道具", "timer", 500, 0),
    StoreItem("双倍得分卡", "游戏道具", "2.circle.fill", 600, 30)
  ]
  const EffectItems: seq<StoreItem> := [
    StoreItem("黄金破碎动画", "特效组件", "dollarsign.circle.fill", 900, 45),
    StoreItem("樱花雨特效包", "特效组件", "leaf.fill", 1100, 55)
  ]
  const RareItems: seq<StoreItem> := [
    StoreItem("海底世界背景", "稀有装饰", "water.waves", 2000, 100)
  ]
  const StoreItems: seq<StoreItem> := SkinItems + PropItems + EffectItems + RareItems

  /** `ItemDetailView.canAfford`: the gold price is set and covered, or else
      the diamond price is set and covered. */
  function CanAfford(item: StoreItem, coins: int, diamonds: int): (r: bool)
    ensures r <==> (item.priceGold > 0 && item.priceGold <= coins) || (item.priceDiamond > 0 && item.priceDiamond <= diamonds)
  {
    if item.priceGold > 0 && item.priceGold <= coins then true
    else if item.priceDiamond > 0 && item.priceDiamond <= diamonds then true
    else false
  }

  /** An item with neither price set can never be bought, and more money
      never makes an affordable item unaffordable. */
  lemma CanAffordProperties(item: StoreItem, coins: int, diamonds: int, moreCoins: int, moreDiamonds: int)
    requires coins <= moreCoins && diamonds <= moreDiamonds
    ensures item.priceGold == 0 && item.priceDiamond == 0 ==> !CanAfford(item, moreCoins, moreDiamonds)
    ensures CanAfford(item, coins, diamonds) ==> CanAfford(item, moreCoins, moreDiamonds)
  {
  }

  /** The purchase button of the detail sheet: its title and whether it is
      disabled. */
  function PurchaseButton(item: StoreItem, coins: int, diamonds: int): (r: (string, bool))
    ensures r.1 <==> !CanAfford(item, coins, diamonds)
    ensures r.0 == "立即购买" <==> !r.1
    ensures r.0 == "立即购买" || r.0 == "货币不足"
  {
    var canAfford := CanAfford(item, coins, diamonds);
    (if canAfford then "立即购买" else "货币不足", !canAfford)
  }

  /** Whatever the wallet, the button never enables an item with neither
      price, and an enabled button stays enabled as the wallet grows; its
      title always names the state it is in. */
  lemma PurchaseButtonProperties(item: StoreItem, coins: int, diamonds: int, moreCoins: int, moreDiamonds: int)
    requires coins <= moreCoins && diamonds <= moreDiamonds
    ensures item.priceGold <= 0 && item.priceDiamond <= 0 ==> PurchaseButton(item, coins, diamonds) == ("货币不足", true)
    ensures !PurchaseButton(item, coins, diamonds).1 ==> PurchaseButton(item, moreCoins, moreDiamonds) == ("立即购买", false)
  {
    CanAffordProperties(item, coins, diamonds, moreCoins, moreDiamonds);
  }

  /** The filter of the item grid:
      `selectedCategory == 0 || $0.category == categories[selectedCategory]`. */
  function Visible(items: seq<StoreItem>, selected: nat): (r: seq<StoreItem>)
    requires selected < |Categories|
    ensures selected == 0 ==> r == items
    ensures selected != 0 ==> forall i :: 0 <= i < |r| ==> r[i].category == Categories[selected]
    ensures forall i :: 0 <= i < |items| && (selected == 0 || items[i].category == Categories[selected]) ==> items[i] in r
    ensures IsSubsequence(r, items)
    decreases |items|
  {
    if items == [] then []
    else
      var rest := Visible(items[1..], selected);
      if selected == 0 || items[0].category == Categories[selected] then [items[0]] + rest else rest
  }

  lemma {:induction false} VisibleAppend(a: seq<StoreItem>, b: seq<StoreItem>, selected: nat)
    requires selected < |Categories|
    ensures Visible(a + b, selected) == Visible(a, selected) + Visible(b, selected)
    decreases |a|
  {
    if a == [] {
      assert a + b == b;
    } else {
      assert (a + b)[0] == a[0] && (a + b)[1..] == a[1..] + b;
      VisibleAppend(a[1..], b, selected);
    }
  }

  lemma {:induction false} VisibleUniform(items: seq<StoreItem>, category: string, selected: nat)
    requires selected < |Categories|
    requires forall i :: 0 <= i < |items| ==> items[i].category == category
    ensures selected == 0 || Categories[selected] == category ==> Visible(items, selected) == items
    ensures selected != 0 && Categories[selected] != category ==> Visible(items, selected) == []
    decreases |items|
  {
    if items != [] {
      VisibleUniform(items[1..], category, selected);
    }
  }

  /** Whether tab `selected` shows `item`. */
  predicate Shown(item: StoreItem, selected: nat)
    requires selected < |Categories|
  {
    selected == 0 || item.category == Categories[selected]
  }

  /** The grid keeps every shown item exactly as often as the catalogue
      lists it, and no other item. */
  lemma {:induction false} VisibleMultiplicity(items: seq<StoreItem>, selected: nat, x: StoreItem)
    requires selected < |Categories|
    ensures multiset(Visible(items, selected))[x] == if Shown(x, selected) then multiset(items)[x] else 0
    decreases |items|
  {
    if items != [] {
      VisibleMultiplicity(items[1..], selected, x);
      assert items == [items[0]] + items[1..];
      assert multiset(items) == multiset{items[0]} + multiset(items[1..]);
    }
  }

  /** The grid of tab `k` is the concatenation of the groups it accepts. */
  lemma StoreTab(k: nat)
    requires k < |Categories|
    ensures Visible(StoreItems, k) == Visible(SkinItems, k) + Visible(PropItems, k)
      + Visible(EffectItems, k) + Visible(RareItems, k)
  {
    VisibleAppend(SkinItems, PropItems, k);
    VisibleAppend(SkinItems + PropItems, EffectItems, k);
    VisibleAppend(SkinItems + PropItems + EffectItems, RareItems, k);
  }

  /** The four category names are pairwise different. */
  lemma CategoriesDistinct(j: nat, k: nat)
    requires 1 <= j < |Categories| && 1 <= k < |Categories| && j != k
    ensures Categories[j] != Categories[k]
  {
    var firsts := [Categories[1][0], Categories[2][0], Categories[3][0], Categories[4][0]];
    assert firsts == ['泡', '游', '特', '稀'];
    assert Categories[j][0] == firsts[j - 1] && Categories[k][0] == firsts[k - 1];
  }

  /** A group whose items all belong to category `j` is shown by the
      recommended tab and by tab `j`, and by no other tab. */
  lemma GroupTab(items: seq<StoreItem>, j: nat, k: nat)
    requires 1 <= j < |Categories| && k < |Categories|
    requires forall i :: 0 <= i < |items| ==> items[i].category == Categories[j]
    ensures Visible(items, k) == if k == 0 || k == j then items else []
  {
    VisibleUniform(items, Categories[j], k);
    if k != 0 && k != j {
      CategoriesDistinct(j, k);
    }
  }

  /** Each group of the shipped catalogue is shown by the recommended tab
      and by its own tab only. */
  lemma GroupTabs(k: nat)
    requires k < |Categories|
    ensures Visible(SkinItems, k) == if k == 0 || k == 1 then SkinItems else []
    ensures Visible(PropItems, k) == if k == 0 || k == 2 then PropItems else []
    ensures Visible(EffectItems, k) == if k == 0 || k == 3 then EffectItems else []
    ensures Visible(RareItems, k) == if k == 0 || k == 4 then RareItems else []
  {
    GroupTab(SkinItems, 1, k);
    GroupTab(PropItems, 2, k);
    GroupTab(EffectItems, 3, k);
    GroupTab(RareItems, 4, k);
  }

  /** The items that belong under tab `k`: the whole catalogue for the
      recommended tab, otherwise the group of that category. */
  function TabGroup(k: nat): seq<StoreItem>
  {
    if k == 1 then SkinItems
    else if k == 2 then PropItems
    else if k == 3 then EffectItems
    else if k == 4 then RareItems
    else StoreItems
  }

  /** A category tab shows its own group: the other three groups contribute
      nothing to the concatenation. */
  lemma CategoryTab(k: nat, own: seq<StoreItem>)
    requires 1 <= k < |Categories|
    requires Visible(StoreItems, k) == Visible(SkinItems, k) + Visible(PropItems, k)
      + Visible(EffectItems, k) + Visible(RareItems, k)
    requires Visible(SkinItems, k) == (if k == 1 then own else [])
    requires Visible(PropItems, k) == (if k == 2 then own else [])
    requires Visible(EffectItems, k) == (if k == 3 then own else [])
    requires Visible(RareItems, k) == (if k == 4 then own else [])
    ensures Visible(StoreItems, k) == own
  {
    var e: seq<StoreItem> := [];
    if k == 1 {
      assert own + e + e + e == own;
    } else if k == 2 {
      assert e + own + e + e == own;
    } else if k == 3 {
      assert e + e + own + e == own;
    } else {
      assert e + e + e + own == own;
    }
  }

  /** Each tab of the shipped store shows exactly its group of items; the
      recommended tab shows the whole catalogue, which the four other tabs
      split between them. */
  lemma StoreTabs(k: nat)
    requires k < |Categories|
    ensures Visible(StoreItems, k) == TabGroup(k)
  {
    if k != 0 {
      GroupTabs(k);
      StoreTab(k);
      CategoryTab(k, TabGroup(k));
    }
  }

  class StoreState {
    var selectedCategory: nat
    var showItemDetail: Option<StoreItem>
    var playerCoins: int
    var playerDiamonds: int

    /** The selected tab is always one of the category tabs. */
    ghost predicate Valid()
      reads this
    {
      selectedCategory < |Categories|
    }

    constructor ()
      ensures Valid()
      ensures selectedCategory == 0 && showItemDetail == None
      ensures playerCoins == 1250 && playerDiamonds == 35
    {
      selectedCategory := 0;
      showItemDetail := None;
      playerCoins := 1250;
      playerDiamonds := 35;
    }

    /** The grid shown for the selected tab. */
    function Grid(): (r: seq<StoreItem>)
      reads this
      requires Valid()
      ensures IsSubsequence(r, StoreItems)
      ensures selectedCategory == 0 ==> r == StoreItems
    {
      Visible(StoreItems, selectedCategory)
    }

    /** A tap on category button `index` of `0..<categories.count`. */
    method SelectCategory(index: nat)
      requires Valid() && index < |Categories|
      modifies this`selectedCategory
      ensures Valid()
      ensures selectedCategory == index
    {
      selectedCategory := index;
    }

    /** A tap on an item card opens its detail sheet. */
    method ShowDetail(item: StoreItem)
      requires Valid()
      modifies this`showItemDetail
      ensures Valid()
      ensures showItemDetail == Some(item)
    {
      showItemDetail := Some(item);
    }
  }

  /** With the starting wallet (1250 coins, 35 diamonds) the time capsule can
      be bought with coins, the double-score card too, and the ocean
      background with neither currency. */
  method WalletScenario() returns (capsule: bool, doubleScore: bool, ocean: bool)
    ensures capsule && doubleScore && !ocean
  {
    var s := new StoreState();
    s.ShowDetail(PropItems[0]);
    capsule := !PurchaseButton(PropItems[0], s.playerCoins, s.playerDiamonds).1;
    doubleScore := CanAfford(PropItems[1], s.playerCoins, s.playerDiamonds);
    ocean := CanAfford(RareItems[0], s.playerCoins, s.playerDiamonds);
  }
}

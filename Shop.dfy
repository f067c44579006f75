/** `ShopView` of `PageTabDemo`: a shop for a bubble game whose catalogue is
    shown one category at a time, bought with the player's credits, and the
    `BubbleBonusGame` overlay that adds credits for tapped bubbles. The bonus
    game's `credits` is a binding to the shop's `playerCredits`, so both live
    in one state here. Random values (bubble positions, bonus amounts) are
    parameters. */
module Shop {
  import opened Options
  import opened Sequences

  datatype Category = Basic | Skins | Effects | Themes

  /** `ShopItem.Category.rawValue`: the label of the category button. */
  function CategoryName(c: Category): string
  {
    match c
    case Basic => "基础道具"
    case Skins => "泡泡外观"
    case Effects => "特效皮肤"
    case Themes => "背景主题"
  }

  /** Distinct categories have distinct button labels. */
  lemma {:induction false} CategoryNamesDistinct(a: Category, b: Category)
    requires a != b
    ensures CategoryName(a) != CategoryName(b)
  {
    var first := map[Basic := '基', Skins := '泡', Effects := '特', Themes := '背'];
    assert CategoryName(a)[0] == first[a] && CategoryName(b)[0] == first[b];
  }

  /** The haptic feedback the shop plays: an error notification for a refused
      purchase, a medium impact for a completed one, a light impact for a
      tapped bubble. */
  datatype Feedback = ErrorNotification | MediumImpact | LightImpact

  /** `ShopItem`, without its presentation fields (description, colour). */
  datatype ShopItem = ShopItem(name: string, price: int, icon: string, category: Category)

  /** The shop's `items`, in the order listed: three of each category. */
  const BasicItems: seq<ShopItem> := [
    ShopItem("时间延长卡", 300, "hourglass", Basic),
    ShopItem("双倍积分券", 500, "2.circle", Basic),
    ShopItem("连击保护罩", 600, "shield", Basic)
  ]
  const SkinItems: seq<ShopItem> := [
    ShopItem("动物系列", 600, "pawprint", Skins),
    ShopItem("节日限定", 800, "gift", Skins),
    ShopItem("镭射幻彩", 1000, "sparkles", Skins)
  ]
  const EffectItems: seq<ShopItem> := [
    ShopItem("星云爆破", 900, "star", Effects),
    ShopItem("烟花庆典", 1200, "fireworks", Effects),
    ShopItem("彩虹粒子", 700, "rainbow", Effects)
  ]
  const ThemeItems: seq<ShopItem> := [
    ShopItem("海底世界", 700, "water.waves", Themes),
    ShopItem("宇宙星空", 950, "moon.stars", Themes),
    ShopItem("童话森林", 550, "tree", Themes)
  ]
  const Catalogue: seq<ShopItem> := BasicItems + SkinItems + EffectItems + ThemeItems

  /** `items.filter { $0.category == category }`. */
  function FilteredItems(items: seq<ShopItem>, category: Category): (r: seq<ShopItem>)
    ensures forall i :: 0 <= i < |r| ==> r[i].category == category
    ensures forall i :: 0 <= i < |items| && items[i].category == category ==> items[i] in r
    ensures forall x :: x in r ==> x in items
    ensures IsSubsequence(r, items)
    decreases |items|
  {
    if items == [] then []
    else
      var rest := FilteredItems(items[1..], category);
      if items[0].category == category then [items[0]] + rest else rest
  }

  /** Number of items in `items` of category `c`, counted independently. */
  function CountOf(items: seq<ShopItem>, c: Category): nat
    decreases |items|
  {
    if items == [] then 0
    else (if items[0].category == c then 1 else 0) + CountOf(items[1..], c)
  }

  /** Each category's view holds exactly the items of that category, and the
      four views together hold every item exactly once. */
  lemma {:induction false} FilteredItemsPartition(items: seq<ShopItem>)
    ensures forall c :: |FilteredItems(items, c)| == CountOf(items, c)
    ensures |FilteredItems(items, Basic)| + |FilteredItems(items, Skins)|
      + |FilteredItems(items, Effects)| + |FilteredItems(items, Themes)| == |items|
    decreases |items|
  {
    if items != [] {
      FilteredItemsPartition(items[1..]);
    }
  }

  lemma {:induction false} CountOfAppend(a: seq<ShopItem>, b: seq<ShopItem>, c: Category)
    ensures CountOf(a + b, c) == CountOf(a, c) + CountOf(b, c)
    decreases |a|
  {
    if a != [] {
      assert (a + b)[0] == a[0] && (a + b)[1..] == a[1..] + b;
      CountOfAppend(a[1..], b, c);
    } else {
      assert a + b == b;
    }
  }

  lemma {:induction false} CountOfUniform(items: seq<ShopItem>, d: Category, c: Category)
    requires forall i :: 0 <= i < |items| ==> items[i].category == d
    ensures CountOf(items, c) == if c == d then |items| else 0
    decreases |items|
  {
    if items != [] {
      CountOfUniform(items[1..], d, c);
    }
  }

  lemma CatalogueCount(c: Category)
    ensures CountOf(Catalogue, c) == 3
  {
    var a, b, e, t := BasicItems, SkinItems, EffectItems, ThemeItems;
    CountOfUniform(a, Basic, c);
    CountOfUniform(b, Skins, c);
    CountOfUniform(e, Effects, c);
    CountOfUniform(t, Themes, c);
    CountOfAppend(a, b, c);
    CountOfAppend(a + b, e, c);
    CountOfAppend(a + b + e, t, c);
  }

  /** The shipped catalogue offers three items per category. */
  lemma CatalogueShape()
    ensures forall c :: |FilteredItems(Catalogue, c)| == 3
  {
    FilteredItemsPartition(Catalogue);
    forall c
      ensures CountOf(Catalogue, c) == 3
    {
      CatalogueCount(c);
    }
  }

  /** `.disabled(credits < item.price)`: the buy button is enabled exactly
      when the credits cover the price. */
  predicate BuyEnabled(credits: int, item: ShopItem)
  {
    !(credits < item.price)
  }

  /** A bubble's position in the 150 by 150 point game area. */
  datatype Point = Point(x: real, y: real)

  predicate InGameArea(p: Point)
  {
    0.0 <= p.x <= 150.0 && 0.0 <= p.y <= 150.0
  }

  class ShopState {
    var selectedCategory: Category
    var playerCredits: int
    var showSuccessAnimation: bool
    var purchasedItem: Option<ShopItem>
    var bubbles: seq<Point>
    var showPreview: bool
    var previewItem: Option<ShopItem>
    /** The haptic feedback played so far, oldest first. */
    ghost var feedback: seq<Feedback>

    /** Credits are never negative, and at most three bubbles, all inside the
        game area, are on screen. */
    ghost predicate Valid()
      reads this
    {
      && playerCredits >= 0
      && |bubbles| <= 3
      && forall i :: 0 <= i < |bubbles| ==> InGameArea(bubbles[i])
    }

    constructor ()
      ensures Valid()
      ensures selectedCategory == Basic && playerCredits == 3500
      ensures !showSuccessAnimation && purchasedItem == None && bubbles == []
      ensures !showPreview && previewItem == None && feedback == []
    {
      selectedCategory := Basic;
      playerCredits := 3500;
      showSuccessAnimation := false;
      purchasedItem := None;
      bubbles := [];
      showPreview := false;
      previewItem := None;
      feedback := [];
    }

    /** The grid's contents: the catalogue filtered to the selected category. */
    function Visible(): (r: seq<ShopItem>)
      reads this
      ensures |r| == 3
      ensures forall i :: 0 <= i < |r| ==> r[i].category == selectedCategory && r[i] in Catalogue
    {
      CatalogueShape();
      FilteredItems(Catalogue, selectedCategory)
    }

    /** A category button. */
    method SelectCategory(category: Category)
      requires Valid()
      modifies this`selectedCategory
      ensures Valid()
      ensures selectedCategory == category
    {
      selectedCategory := category;
    }

    /** `purchaseItem`: refused with an error notification and no other change
        when the credits do not cover the price; otherwise the price is paid,
        the item recorded, a medium impact played and the success animation
        shown. */
    method PurchaseItem(item: ShopItem)
      requires Valid()
      modifies this
      ensures Valid()
      ensures !BuyEnabled(old(playerCredits), item) ==>
        playerCredits == old(playerCredits) && purchasedItem == old(purchasedItem)
        && showSuccessAnimation == old(showSuccessAnimation)
        && feedback == old(feedback) + [ErrorNotification]
      ensures BuyEnabled(old(playerCredits), item) ==>
        playerCredits == old(playerCredits) - item.price && purchasedItem == Some(item) && showSuccessAnimation
        && feedback == old(feedback) + [MediumImpact]
      ensures selectedCategory == old(selectedCategory) && bubbles == old(bubbles)
      ensures showPreview == old(showPreview) && previewItem == old(previewItem)
    {
      if !(playerCredits >= item.price) {
        feedback := feedback + [ErrorNotification];
        return;
      }
      playerCredits := playerCredits - item.price;
      purchasedItem := Some(item);
      feedback := feedback + [MediumImpact];
      showSuccessAnimation := true;
    }

    /** The preview button of an item card: the item is remembered and the
        preview sheet presented. */
    method PreviewRequested(item: ShopItem)
      requires Valid()
      modifies this`showPreview, this`previewItem
      ensures Valid()
      ensures showPreview && previewItem == Some(item)
      ensures PreviewSheet() == Some(item)
    {
      previewItem := Some(item);
      showPreview := true;
    }

    /** Dismissing the sheet clears its binding; the item stays remembered. */
    method PreviewDismissed()
      requires Valid()
      modifies this`showPreview
      ensures Valid()
      ensures !showPreview
      ensures PreviewSheet() == None
      ensures previewItem == old(previewItem)
    {
      showPreview := false;
    }

    /** The preview sheet's content: the remembered item while the sheet is
        presented, and nothing otherwise. */
    function PreviewSheet(): (shown: Option<ShopItem>)
      reads this
      ensures shown.Some? ==> showPreview && shown == previewItem
      ensures showPreview && previewItem.Some? ==> shown.Some?
    {
      if showPreview then previewItem else None
    }

    /** The end of the success animation hides it. */
    method SuccessAnimationFinished()
      requires Valid()
      modifies this`showSuccessAnimation
      ensures Valid()
      ensures !showSuccessAnimation
    {
      showSuccessAnimation := false;
    }

    /** One tick of the bonus game's timer, with the random position it drew:
        a new bubble appears only while fewer than three are shown. */
    method SpawnTick(position: Point)
      requires Valid() && InGameArea(position)
      modifies this`bubbles
      ensures Valid()
      ensures |old(bubbles)| < 3 ==> bubbles == old(bubbles) + [position]
      ensures |old(bubbles)| >= 3 ==> bubbles == old(bubbles)
    {
      if |bubbles| < 3 {
        bubbles := bubbles + [position];
      }
    }

    /** Tapping bubble `index`, with the random bonus it drew: the bonus is
        credited, exactly that bubble disappears and a light impact is
        played. */
    method TapBubble(index: nat, bonus: int)
      requires Valid() && index < |bubbles| && 5 <= bonus <= 50
      modifies this`playerCredits, this`bubbles, this`feedback
      ensures Valid()
      ensures playerCredits == old(playerCredits) + bonus
      ensures feedback == old(feedback) + [LightImpact]
      ensures bubbles == old(bubbles)[..index] + old(bubbles)[index + 1..]
      ensures |bubbles| == |old(bubbles)| - 1
    {
      playerCredits := playerCredits + bonus;
      bubbles := bubbles[..index] + bubbles[index + 1..];
      feedback := feedback + [LightImpact];
    }
  }

  /** A buy whose button is enabled always goes through, and buying until the
      button is disabled never overdraws: from 3500 credits the 1200-credit
      fireworks can be bought twice, after which the button is disabled and a
      third tap changes nothing. */
  method PurchaseScenario() returns (afterTwo: int, enabledThird: bool, afterThird: int)
    ensures afterTwo == 1100 && !enabledThird && afterThird == 1100
  {
    var s := new ShopState();
    var fireworks := Catalogue[7];
    s.PurchaseItem(fireworks);
    s.PurchaseItem(fireworks);
    afterTwo := s.playerCredits;
    enabledThird := BuyEnabled(s.playerCredits, fireworks);
    s.PurchaseItem(fireworks);
    afterThird := s.playerCredits;
    assert s.feedback == [MediumImpact, MediumImpact, ErrorNotification];
  }
}

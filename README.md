# SwiftUIDemos — verified models of the demo apps' state machines

SwiftUIDemos is a collection of small SwiftUI demo apps. Their logic is
made of small state machines and pure functions inside view callbacks:

- the dynamic-island pull-to-refresh controller;
- a tab bar that pops a navigation stack to its root on double reselection;
- the controls of a video player and its clock formatter;
- a paged view whose pages share one header;
- two tab pagers whose indicator capsule follows the page offset;
- two shop screens;
- a pull-to-search screen;
- the aspect-fit geometry of a document scanner.

Each becomes a Dafny module here. Each platform callback (a scroll-offset
report, a gesture phase, a key-value observation, a timer tick, a button)
is an explicit method call on a class that holds the view's state.

Modelling choices that apply throughout:

- `CGFloat`/`Double` are exact `real`s.
- Swift's `round` (halves away from zero) and `Int(_:)` (truncation toward
  zero) are written out exactly.
- Haptic feedback is ghost state: a counter in the pull-to-refresh controller, a sequence of feedback events in the shop.
- Random values are parameters with the source's ranges as preconditions.

Modules:

- `RealMath`: min, max, absolute value, the reference clamp, and two
  division facts the geometry proofs use.
- `PreferenceKey`: the last-value-wins preference reducer of
  `ScrollOffsetKey` and `PageOffsetKey`.
- `PullRefresh`: `ScrollViewModel`, the offset callbacks of
  `DynamicIslandRefreshView` and `CustomRefreshView`, the completion reset,
  and the indicator values.
- `PopToRoot`: the `tabSelection` setter of the pop-to-root tab bar.
- `PlayerTime`: `CMTime.toTimeString()`, with a clock-string parser as its
  inverse.
- `VideoPlayer`: the seeker drag, periodic tick, play/restart button, tap,
  rotate gesture and thumbnail selection of `PlayerView`.
- `PageView`: the paged header view. Its pages' scroll offsets and
  positions are two arrays, updated by loops.
- `PageTabOffset`: the offset-key tab pager (`indexOf`, `tabOffset`, and
  tap/scroll arbitration through `isTapped`).
- `PageTabObserver`: the collection-view tab pager (`collectionSuperView`
  over an acyclic superview chain, and `PageOffsetObserver`).
- `Options`: Swift's `Optional`, shared by the modules that store or
  return an optional value.
- `Sequences`: `firstIndex(where:)` with its `?? 0` fallback, shared by the
  page view and the tab pager, and order-preserving selection, shared by
  the two shop filters.
- `Shop`: `ShopView` purchases and category filter, and the bubble bonus
  game's spawn and tap rules.
- `Store`: `StoreView2`'s two-currency `canAfford`, purchase button and
  category tabs.
- `PullSearch`: the pull-to-search progress ramp and expand/cancel rules.
- `AspectFit`: `CGSize.aspecFit(_:)`.

## Model

| member | source | states |
|---|---|---|
| Sequences.FirstIndex | PageViewDemo/PageViewDemo/PageView.swift:113 | `firstIndex(where:) ?? 0` returns the first position holding the element, or 0 when it is absent |
| PreferenceKey.FoldKeepsLast | DynamicIslandRefreshView/DynamicIslandRefreshView/DynamicIslandRefreshView.swift:231-237 | folding reports through `reduce` from any start value yields the newest report, or the start value when there is none |
| PreferenceKey.CombinedIsLastOrDefault | PageTabDemo_OffsetKey/PageTabDemo/ContentView.swift:206-211 | the preference value seen for a frame is the last value reported, or the default 0 when nothing was reported |
| PullRefresh.PullProgress | DynamicIslandRefreshView/DynamicIslandRefreshView/DynamicIslandRefreshView.swift:30-33 | the two-step progress computation equals the reference clamp of offset/140 to [0, 1] |
| PullRefresh.PullProgressShape | DynamicIslandRefreshView/DynamicIslandRefreshView/DynamicIslandRefreshView.swift:30-33 | progress lies in [0, 1]; it is 0 at or above rest and 1 from the 140-point threshold on; it never decreases as the pull grows |
| PullRefresh.IndicatorOffset | DynamicIslandRefreshView/DynamicIslandRefreshView/DynamicIslandRefreshView.swift:128-131 | the indicator offset is 0 when nothing is pulled and follows the pull while not eligible; once eligible it is at least 140/2 + 37/2 and at least the content offset, and equals one of them |
| PullRefresh.ScrollViewModel.constructor | DynamicIslandRefreshView/DynamicIslandRefreshView/DynamicIslandRefreshView.swift:155-164 | the controller starts at rest: not eligible, not refreshing, no impact, every offset and the progress 0 |
| PullRefresh.ScrollViewModel.DynamicIslandOffsetChanged | DynamicIslandRefreshView/DynamicIslandRefreshView/DynamicIslandRefreshView.swift:28-41 | the content offset is always recorded; while not eligible the scroll offset and the clamped progress are recorded, otherwise both stay frozen; progress stays in [0, 1]; refreshing becomes true exactly when eligible; the invariant (progress belongs to the scroll offset, eligibility only at or past 140, refreshing only while eligible) is kept |
| PullRefresh.ScrollViewModel.CustomOffsetChanged | DynamicIslandRefreshView/DynamicIslandRefreshView/CustomRefreshView.swift:53-66 | the same bookkeeping as the dynamic-island callback; one haptic is counted exactly when refreshing goes from false to true |
| PullRefresh.ScrollViewModel.GestureChanged | DynamicIslandRefreshView/DynamicIslandRefreshView/DynamicIslandRefreshView.swift:187-193 | a haptic is counted exactly when the pull is at or past 140 and none is armed; afterwards `isImpact` holds exactly when the pull is at or past 140, so no second haptic fires until it drops below |
| PullRefresh.ScrollViewModel.GestureEnded | DynamicIslandRefreshView/DynamicIslandRefreshView/DynamicIslandRefreshView.swift:180-186 | eligibility becomes exactly "scroll offset at or past 140"; an eligible controller stays eligible; `isImpact` is cleared; nothing else changes |
| PullRefresh.ScrollViewModel.CompleteRefresh | DynamicIslandRefreshView/DynamicIslandRefreshView/DynamicIslandRefreshView.swift:91-96 | completion sets progress and scroll offset to 0 and clears eligibility and refreshing |
| PullRefresh.ScrollViewModel.SpacerHeight | DynamicIslandRefreshView/DynamicIslandRefreshView/CustomRefreshView.swift:27 | the spacer height lies in [0, 140] and is 140 exactly at full progress |
| PullRefresh.ScrollViewModel.ArrowRotation | DynamicIslandRefreshView/DynamicIslandRefreshView/CustomRefreshView.swift:36 | the arrow rotation lies in [0, 180] degrees and is 0 exactly when nothing is pulled |
| PullRefresh.ScrollViewModel.IndicatorOpacities | DynamicIslandRefreshView/DynamicIslandRefreshView/CustomRefreshView.swift:37-43 | exactly one of the arrow and the spinner is opaque, and it is the spinner exactly while eligible |
| PullRefresh.ScrollViewModel.IndicatorY | DynamicIslandRefreshView/DynamicIslandRefreshView/DynamicIslandRefreshView.swift:128-131 | for a valid controller the indicator offset is never negative; once eligible it is at or below its rest position; otherwise it follows the positive part of the pull |
| PullRefresh.ScrollViewModel.CircleScale | DynamicIslandRefreshView/DynamicIslandRefreshView/DynamicIslandRefreshView.swift:108-113 | the circle's scale runs from 37/47 at no progress to 1 at full progress and stays between them |
| PullRefresh.PullScenario | DynamicIslandRefreshView/DynamicIslandRefreshView/DynamicIslandRefreshView.swift:179-195 | a pull to 200 points plays one haptic, the release makes the controller eligible, the next offset report starts the refresh, and completion returns it to rest |
| PopToRoot.SymbolImage | PopToRootAppDemo/PopToRootAppDemo/ContentView.swift:85-92 | every tab has a symbol, "house.fill" or "gearshape.fill" |
| PopToRoot.TabLabelsDistinct | PopToRootAppDemo/PopToRootAppDemo/ContentView.swift:81-92 | distinct tabs have distinct symbols and distinct titles |
| PopToRoot.Links | PopToRootAppDemo/PopToRootAppDemo/ContentView.swift:17-42 | the settings tab offers no link; on the home tab the root offers "Detail", the "Detail" screen offers "more", and the "more" screen offers none |
| PopToRoot.TabController.constructor | PopToRootAppDemo/PopToRootAppDemo/ContentView.swift:11-14 | the home tab is active, the counter is 0 and both navigation paths are empty |
| PopToRoot.TabController.Push | PopToRootAppDemo/PopToRootAppDemo/ContentView.swift:17-29 | only a link shown on the active tab's top screen can be tapped; it appends its value to that tab's path and leaves the other path, the active tab and the counter unchanged; both paths stay ones the links can build |
| PopToRoot.TabController.Select | PopToRootAppDemo/PopToRootAppDemo/ContentView.swift:52-73 | the selected tab becomes active; another tab resets the counter and keeps both paths; the first reselection counts; the second empties that tab's path and resets the counter; the other tab's path is never touched; the counter stays 0 or 1 |
| PopToRoot.DoubleTapScenario | PopToRootAppDemo/PopToRootAppDemo/ContentView.swift:55-71 | after following both home links, switching away and back, tapping the home tab twice more pops its stack to the root and leaves the counter at 0 |
| PlayerTime.ClockFields | SwiftUIPlayer/SwiftUIPlayer/Play/Extension/CMTime+Extension.swift:15-17 | minutes and seconds are below 60, hours*3600 + minutes*60 + seconds is the input, and hours are positive exactly from 3600 seconds on |
| PlayerTime.Decimal | SwiftUIPlayer/SwiftUIPlayer/Play/Extension/CMTime+Extension.swift:18-23 | `%d` prints at least one digit and only digits, one digit exactly below 10, and no leading zero |
| PlayerTime.Pad2 | SwiftUIPlayer/SwiftUIPlayer/Play/Extension/CMTime+Extension.swift:18-23 | `%02d` prints at least two digits, no colon, and exactly two below 100 |
| PlayerTime.ParseDecimalOfDecimal | SwiftUIPlayer/SwiftUIPlayer/Play/Extension/CMTime+Extension.swift:18-23 | reading back the digits printed by `%d` gives the number |
| PlayerTime.ParsePad2 | SwiftUIPlayer/SwiftUIPlayer/Play/Extension/CMTime+Extension.swift:18-23 | reading back a `%02d` field gives the number printed |
| PlayerTime.ClockStringFields | SwiftUIPlayer/SwiftUIPlayer/Play/Extension/CMTime+Extension.swift:18-23 | the clock string has three colon-separated fields exactly from one hour on and two below; they are the padded hours, minutes and seconds, each at least two digits |
| PlayerTime.ShortClockShape | SwiftUIPlayer/SwiftUIPlayer/Play/Extension/CMTime+Extension.swift:22 | below one hour the string is five characters with the colon at index 2 |
| PlayerTime.ParseClockRoundTrip | SwiftUIPlayer/SwiftUIPlayer/Play/Extension/CMTime+Extension.swift:13-24 | parsing the clock string back yields the seconds it was made from |
| VideoPlayer.Truncate | SwiftUIPlayer/SwiftUIPlayer/Play/View/PlayerView.swift:234 | `Int(_:)` is the floor for non-negative values and lies within one below them |
| VideoPlayer.DragProgress | SwiftUIPlayer/SwiftUIPlayer/Play/View/PlayerView.swift:230-232 | the drag progress equals the reference clamp of translation/width plus the last committed progress, so it lies in [0, 1] |
| VideoPlayer.ThumbnailIndexRange | SwiftUIPlayer/SwiftUIPlayer/Play/View/PlayerView.swift:234-239 | for a progress in [0, 1] the frame index is in 0..100, is 100 only at the very end, and is the whole part of progress*100 |
| VideoPlayer.PlayerControls.constructor | SwiftUIPlayer/SwiftUIPlayer/Play/View/PlayerView.swift:21-33 | the controls start at progress 0, not seeking, playing, finished or rotated, with no frames and no dragging image |
| VideoPlayer.PlayerControls.DragChanged | SwiftUIPlayer/SwiftUIPlayer/Play/View/PlayerView.swift:225-240 | the progress becomes the clamped drag progress and seeking starts; the dragging image is the frame at the thumbnail index when that index is inside the frames, and is unchanged otherwise |
| VideoPlayer.PlayerControls.DragEnded | SwiftUIPlayer/SwiftUIPlayer/Play/View/PlayerView.swift:241-259 | the progress is committed as the last dragged progress; seeking stops; the finished flag survives only at progress 1 |
| VideoPlayer.PlayerControls.Tick | SwiftUIPlayer/SwiftUIPlayer/Play/View/PlayerView.swift:136-146 | progress and committed progress follow the player only while not seeking; reaching the end sets finished, stops playback and shows the controls; otherwise those flags are kept |
| VideoPlayer.PlayerControls.PlayPressed | SwiftUIPlayer/SwiftUIPlayer/Play/View/PlayerView.swift:285-304 | on a finished video both progress values go back to 0; the finished flag is cleared and playback toggles |
| VideoPlayer.PlayerControls.VideoTapped | SwiftUIPlayer/SwiftUIPlayer/Play/View/PlayerView.swift:63-70 | tapping the video toggles the controls and changes nothing else |
| VideoPlayer.PlayerControls.ControlsTimedOut | SwiftUIPlayer/SwiftUIPlayer/Play/View/PlayerView.swift:338-348 | the controls time-out hides the controls |
| VideoPlayer.PlayerControls.RotateGestureEnded | SwiftUIPlayer/SwiftUIPlayer/Play/View/PlayerView.swift:90-100 | the player is rotated exactly when the upward drag exceeds 100 points; nothing else changes |
| VideoPlayer.PlayerControls.ThumbnailGenerated | SwiftUIPlayer/SwiftUIPlayer/Play/View/PlayerView.swift:368 | a generated frame is appended to the frames; nothing else changes |
| VideoPlayer.RestartScenario | SwiftUIPlayer/SwiftUIPlayer/Play/View/PlayerView.swift:131-149 | playing to the end and pressing play restarts from 0; a tick during a drag does not move the seeker |
| PageView.Round | PageViewDemo/PageViewDemo/PageView.swift:271 | `round` lands within one half of its argument and is non-negative for non-negative arguments |
| PageView.PageIndexAt | PageViewDemo/PageViewDemo/PageView.swift:268-273 | a page index is produced only for positive page width and is in range; it is the page whose start is within half a page of the offset |
| PageView.NearestPage | PageViewDemo/PageViewDemo/PageView.swift:271 | rounding offset/pageWidth gives the page whose start is nearest to the offset |
| PageView.PageIndexCovers | PageViewDemo/PageViewDemo/PageView.swift:268-273 | every offset from the first page's start to the middle of the last page selects a page |
| PageView.CurrentVisibleIndex | PageViewDemo/PageViewDemo/PageView.swift:268-273 | the visible index is the rounded page index whenever that is a valid page, and 0 otherwise (no positive page width, or out of range); so it is always a valid page when there is one |
| PageView.Fade | PageViewDemo/PageViewDemo/PageView.swift:198 | the fade lies in [0, 1]; it is 1 exactly on the label's page and 0 from one page away |
| PageView.LabelOpacity | PageViewDemo/PageViewDemo/PageView.swift:199 | a label's opacity lies in [0.5, 1] and is 1 exactly on its page |
| PageView.RestingPageHighlighted | PageViewDemo/PageViewDemo/PageView.swift:194-199 | resting at the start of page k, the bar's progress is exactly k; label k is fully opaque and every other label half |
| PageView.PageViewState.constructor | PageViewDemo/PageViewDemo/PageView.swift:41-43 | both arrays start with exactly one entry per label |
| PageView.PageViewState.VisiblePage | PageViewDemo/PageViewDemo/PageView.swift:268-273 | the page the header is drawn on is the rounded page index of the main pager's offset when that is valid, else 0; always a valid index into the labels |
| PageView.PageViewState.Appear | PageViewDemo/PageViewDemo/PageView.swift:102-106 | on appearing, the first label becomes active unless a tab already is |
| PageView.PageViewState.HeaderHeightChanged | PageViewDemo/PageViewDemo/PageView.swift:123-127 | the reported header height is stored |
| PageView.PageViewState.MainGeometryChanged | PageViewDemo/PageViewDemo/PageView.swift:93-97 | the main scroll view's offset and content width are stored |
| PageView.PageViewState.MainPhaseChanged | PageViewDemo/PageViewDemo/PageView.swift:79-92 | on becoming idle, the title at an in-range rounded page index becomes active; otherwise the active tab is kept |
| PageView.PageViewState.TabTapped | PageViewDemo/PageViewDemo/PageView.swift:213-217 | tapping a label makes it active |
| PageView.PageViewState.HeaderDrag | PageViewDemo/PageViewDemo/PageView.swift:238-246 | the pager is disabled while the header drag lasts and enabled when it ends |
| PageView.PageViewState.ResetScrollViews | PageViewDemo/PageViewDemo/PageView.swift:248-255 | every page whose title differs from `from` goes to the top; same-titled pages are unchanged |
| PageView.PageViewState.UpdateOtherScrollViews | PageViewDemo/PageViewDemo/PageView.swift:257-266 | page i moves to `to` exactly when its title differs from `from` and (its offset or `to` is below the header height); every other page is unchanged |
| PageView.PageViewState.PageGeometryChanged | PageViewDemo/PageViewDemo/PageView.swift:162-169 | the geometry is stored at the title's first index and nowhere else; a negative offset resets every other page to the top; otherwise no position changes |
| PageView.PageViewState.PagePhaseChanged | PageViewDemo/PageViewDemo/PageView.swift:171-181 | the capped offset never exceeds the header height, so the other pages always follow it; an idle phase re-enables the pager |
| PageTabOffset.IndexOf | PageTabDemo_OffsetKey/PageTabDemo/ContentView.swift:133-138 | `indexOf(t)` is a position in `allCases` that holds `t` |
| PageTabOffset.IndexOfOrder | PageTabDemo_FindCollectionView/PageTabDemo/Tab.swift:10-15 | the four tabs sit at positions 0 to 3 in declaration order, so distinct tabs have distinct positions |
| PageTabOffset.TabOffsetAtPage | PageTabDemo_OffsetKey/PageTabDemo/ContentView.swift:130-132 | with the pager resting on page k and no padding, the capsule is displaced by k*width/tabCount |
| PageTabOffset.TabOffsetInBar | PageTabDemo_OffsetKey/PageTabDemo/ContentView.swift:130-132 | between the first and the last page the capsule stays between the first and the last slot |
| PageTabOffset.TabPager.constructor | PageTabDemo_OffsetKey/PageTabDemo/ContentView.swift:11-13 | the pager starts on the home tab, at offset 0, with no tap in flight |
| PageTabOffset.TabPager.PageOffsetChanged | PageTabDemo_OffsetKey/PageTabDemo/ContentView.swift:24-33 | the offset moves only for a report from the active page with no tap in flight, to value - width*index; a tap ends exactly on a report of 0; the active tab is unchanged |
| PageTabOffset.TabPager.TabTapped | PageTabDemo_OffsetKey/PageTabDemo/ContentView.swift:116-124 | a tap sets `isTapped`, makes the tab active and moves the offset to -width*index |
| PageTabOffset.TabPager.PageSelected | PageTabDemo_OffsetKey/PageTabDemo/ContentView.swift:20 | a swipe that settles on another page makes its tab active and leaves the offset and the tap flag unchanged |
| PageTabOffset.TapScenario | PageTabDemo_OffsetKey/PageTabDemo/ContentView.swift:116-124 | after a tap the capsule is on the tab's slot; reports while the pager moves leave it there; the settling report ends the tap |
| PageTabOffset.SwipeScenario | PageTabDemo_OffsetKey/PageTabDemo/ContentView.swift:20-33 | while swiping from the first page to the second the bar does not jump when the second page becomes active, and it comes to rest on the second slot with no tap in flight |
| PageTabObserver.Ancestors | PageTabDemo_FindCollectionView/PageTabDemo/ContentView.swift:171-178 | the reference superview chain is strictly increasing and lies above the view |
| PageTabObserver.CollectionSuperView | PageTabDemo_FindCollectionView/PageTabDemo/ContentView.swift:171-178 | a result is a collection view strictly above the view, never the view itself |
| PageTabObserver.CollectionSuperViewNearest | PageTabDemo_FindCollectionView/PageTabDemo/ContentView.swift:171-178 | the result is the nearest collection view in the superview chain, and is nil exactly when no ancestor is one |
| PageTabObserver.PageOffsetObserver.constructor | PageTabDemo_FindCollectionView/PageTabDemo/ContentView.swift:127-129 | no collection view, offset 0, not observing, no registration |
| PageTabObserver.PageOffsetObserver.Observe | PageTabDemo_FindCollectionView/PageTabDemo/ContentView.swift:130-134 | a second call registers nothing; the first registers on the collection view if there is one; `isObserving` is true afterwards even without one |
| PageTabObserver.PageOffsetObserver.Remove | PageTabDemo_FindCollectionView/PageTabDemo/ContentView.swift:136-139 | the registration is removed from the collection view if there is one, and `isObserving` is false afterwards |
| PageTabObserver.PageOffsetObserver.ObserveValue | PageTabDemo_FindCollectionView/PageTabDemo/ContentView.swift:141-150 | only a "contentOffset" report from a collection view moves the offset, to its x; every other report leaves it unchanged |
| PageTabObserver.PageOffsetObserver.ProbeAttached | PageTabDemo_FindCollectionView/PageTabDemo/ContentView.swift:49-55 | a probe with a collection view above it stores that view and observes it, registering it only if not already observing; a probe firing while observing adds no registration; without a collection view nothing changes |
| PageTabObserver.PageOffsetObserver.Capsule | PageTabDemo_FindCollectionView/PageTabDemo/ContentView.swift:17-27 | the capsule is drawn exactly when a collection view is known; while the offset is between the first and last page it stays between the first and last slot of the bar |
| PageTabObserver.CapsuleOnPage | PageTabDemo_FindCollectionView/PageTabDemo/ContentView.swift:17-27 | resting on page k the capsule covers the k-th slot, and it moves in the direction of the scroll |
| PageTabObserver.CapsuleInBar | PageTabDemo_FindCollectionView/PageTabDemo/ContentView.swift:17-27 | for an offset between the first and last page, the capsule's displacement lies between 0 and three capsule widths |
| PageTabObserver.ObserveTwiceScenario | PageTabDemo_FindCollectionView/PageTabDemo/ContentView.swift:130-139 | observing twice registers once, and removing afterwards leaves no registration |
| PageTabObserver.TwoProbesScenario | PageTabDemo_FindCollectionView/PageTabDemo/ContentView.swift:49-55 | two page probes finding the same collection view leave exactly one registration |
| Shop.CategoryNamesDistinct | PageTabDemo_OffsetKey/PageTabDemo/ShopView.swift:20-25 | distinct categories have distinct button labels |
| Shop.FilteredItems | PageTabDemo_OffsetKey/PageTabDemo/ShopView.swift:109-111 | the filter keeps every item of the category and only those, in their original order |
| Shop.FilteredItemsPartition | PageTabDemo_OffsetKey/PageTabDemo/ShopView.swift:109-111 | each category's view has as many items as the category has, and the four views together have as many items as the catalogue |
| Shop.CatalogueCount | PageTabDemo_OffsetKey/PageTabDemo/ShopView.swift:74-106 | the shipped catalogue has three items of each category |
| Shop.CatalogueShape | PageTabDemo_OffsetKey/PageTabDemo/ShopView.swift:74-106 | every category's view of the shipped catalogue shows three items |
| Shop.ShopState.constructor | PageTabDemo_OffsetKey/PageTabDemo/ShopView.swift:66-71 | the shop starts on the basic category with 3500 credits, no purchase, no bubbles, no preview and no feedback played |
| Shop.ShopState.Visible | PageTabDemo_OffsetKey/PageTabDemo/ShopView.swift:109-111 | the grid shows three catalogue items, all of the selected category |
| Shop.ShopState.SelectCategory | PageTabDemo_OffsetKey/PageTabDemo/ShopView.swift:118-122 | a category button selects its category |
| Shop.ShopState.PurchaseItem | PageTabDemo_OffsetKey/PageTabDemo/ShopView.swift:230-253 | with too few credits only an error notification is played; otherwise the price is paid exactly, the item is recorded, a medium impact is played and the success animation is shown; credits never go negative |
| Shop.ShopState.SuccessAnimationFinished | PageTabDemo_OffsetKey/PageTabDemo/ShopView.swift:206-212 | the end of the animation hides it |
| Shop.ShopState.PreviewRequested | PageTabDemo_OffsetKey/PageTabDemo/ShopView.swift:188-191 | the preview button remembers its item and presents the sheet, which then shows that item |
| Shop.ShopState.PreviewDismissed | PageTabDemo_OffsetKey/PageTabDemo/ShopView.swift:221-225 | dismissing the sheet clears its binding, so the sheet shows nothing, and the remembered item is kept |
| Shop.ShopState.SpawnTick | PageTabDemo_OffsetKey/PageTabDemo/ShopView.swift:425-436 | a bubble is appended only while fewer than three are shown, so at most three are ever shown, all inside the game area |
| Shop.ShopState.TapBubble | PageTabDemo_OffsetKey/PageTabDemo/ShopView.swift:413-418 | exactly the tapped bubble is removed, its bonus of 5 to 50 is credited and a light impact is played |
| Shop.PurchaseScenario | PageTabDemo_OffsetKey/PageTabDemo/ShopView.swift:230-253 | an enabled buy always goes through: from 3500 credits two 1200-credit purchases leave 1100, after which the button is disabled and a third tap changes nothing |
| Store.CanAffordProperties | PageTabDemo_OffsetKey/PageTabDemo/ShopView2.swift:261-269 | an item with neither price is never affordable, and more money never makes an affordable item unaffordable |
| Store.PurchaseButtonProperties | PageTabDemo_OffsetKey/PageTabDemo/ShopView2.swift:402-411 | an item with neither price always shows a disabled "货币不足" button, and an enabled button stays enabled, titled "立即购买", as the wallet grows |
| Store.Visible | PageTabDemo_OffsetKey/PageTabDemo/ShopView2.swift:148-150 | tab 0 shows every item; any other tab shows exactly the items of its category, in order |
| Store.VisibleMultiplicity | PageTabDemo_OffsetKey/PageTabDemo/ShopView2.swift:148-150 | every item the tab accepts appears in the grid exactly as often as in the catalogue, and no other item appears |
| Store.StoreTab | PageTabDemo_OffsetKey/PageTabDemo/ShopView2.swift:475-580 | a tab's view of the catalogue is the concatenation of its views of the four groups |
| Store.GroupTabs | PageTabDemo_OffsetKey/PageTabDemo/ShopView2.swift:475-580 | each group of the shipped catalogue appears under the recommended tab and under its own tab only |
| Store.StoreTabs | PageTabDemo_OffsetKey/PageTabDemo/ShopView2.swift:475-580 | each tab of the shipped store shows exactly its group; the recommended tab shows the whole catalogue |
| Store.StoreState.constructor | PageTabDemo_OffsetKey/PageTabDemo/ShopView2.swift:12-17 | the store opens on tab 0 with 1250 coins, 35 diamonds and no detail sheet |
| Store.StoreState.Grid | PageTabDemo_OffsetKey/PageTabDemo/ShopView2.swift:148-150 | the grid is an ordered selection of the catalogue, and all of it on tab 0 |
| Store.StoreState.SelectCategory | PageTabDemo_OffsetKey/PageTabDemo/ShopView2.swift:61-64 | the selected tab is set from the category buttons and stays a valid index |
| Store.StoreState.ShowDetail | PageTabDemo_OffsetKey/PageTabDemo/ShopView2.swift:152-156 | tapping an item card opens its detail sheet |
| Store.WalletScenario | PageTabDemo_OffsetKey/PageTabDemo/ShopView2.swift:261-269 | with the starting wallet the time capsule and the double-score card are affordable, and the ocean background is not |
| PullSearch.Progress | PullSearchDemo/PullSearchDemo/ContentView.swift:149-151 | the max/min expression equals the reference clamp of (offsetY - 200)/100 to [0, 1] |
| PullSearch.ProgressRamp | PullSearchDemo/PullSearchDemo/ContentView.swift:150 | progress lies in [0, 1]; it is 0 up to 200, 1 from 300, linear in between, and non-decreasing |
| PullSearch.SearchState.constructor | PullSearchDemo/PullSearchDemo/ContentView.swift:11-12 | the screen starts unpulled and collapsed |
| PullSearch.SearchState.GeometryChanged | PullSearchDemo/PullSearchDemo/ContentView.swift:19 | the reported offset is stored |
| PullSearch.SearchState.ScrollEnded | PullSearchDemo/PullSearchDemo/ContentView.swift:43-45 | the search expands when the scroll ended past 300 or was flung down while pulled; otherwise it stays as it was; it never collapses |
| PullSearch.SearchState.Cancel | PullSearchDemo/PullSearchDemo/ContentView.swift:88-90 | cancel collapses the search |
| PullSearch.SearchState.OverlayOpacity | PullSearchDemo/PullSearchDemo/ContentView.swift:35 | the overlay is fully opaque when expanded and otherwise at the pull progress, so never below the progress and never above 1 |
| PullSearch.SearchState.ResultsShown | PullSearchDemo/PullSearchDemo/ContentView.swift:31-33 | the results are visible and accept touches exactly when expanded, and are never more visible than the overlay, which is opaque whenever they are shown |
| PullSearch.PullScenario | PullSearchDemo/PullSearchDemo/ContentView.swift:41-46 | a slow pull to 250 half-shows the overlay without expanding; a fling expands it; cancel collapses it |
| AspectFit.Fit | DocumentScannerDemo/DocumentScannerDemo/CGSize+Extension.swift:11-18 | both sides are scaled by the same ratio min(widthRatio, heightRatio), so the aspect ratio is kept |
| AspectFit.FitInside | DocumentScannerDemo/DocumentScannerDemo/CGSize+Extension.swift:12-17 | for positive sizes the result fits inside the target, touches it on at least one side, and is positive |
| AspectFit.FitIdempotent | DocumentScannerDemo/DocumentScannerDemo/CGSize+Extension.swift:11-18 | fitting the result again into the same target changes nothing |
| AspectFit.ThumbnailFits | DocumentScannerDemo/DocumentScannerDemo/Views/DocumentCardView.swift:39 | every page thumbnail fits in 150 by 150 points |

## Left out

- View bodies, layout, colours, shadows, transitions and animation curves are declarative UI; only the values they compute from the state are modelled.
- Gesture-recognizer attachment and root-controller lookup (`addGesture`, `removeGesture`, `InteractionManager`) are platform plumbing. Each gesture phase is an explicit method instead.
- Haptic feedback is recorded in ghost state and not played: the counter `impacts` of the pull-to-refresh controller and the event sequence `feedback` of the shop.
- The asynchronous parts are explicit methods called when they would fire: the refresh `Task`, `Task.sleep` and `onRefresh` (`CompleteRefresh`), `DispatchQueue.asyncAfter`, and the `timeoutControls` work item (`ControlsTimedOut`). Cancelling a pending time-out is not modelled.
- The double-tap seek overlay of the video player is animation timing only.
- AVFoundation is out of the model: player creation, `seek`, registering the periodic observer, and generating thumbnails. The player's time/duration ratio is `Tick`'s parameter, and each generated frame is a `ThumbnailGenerated` call.
- VideoPlayer.PlayerControls.Tick: requires the ratio to be in [0, 1]. Before the item has loaded the source can divide by a zero or undefined duration, which gives NaN; that case is not modelled.
- PlayerTime.ClockFields: takes the already rounded whole seconds. `CMTime.seconds.rounded()` and its tie-breaking on fractional times are not modelled.
- Floating point is not modelled: reals are exact, so NaN, infinities and rounding error are out of scope. This includes the `stride` by 0.01 that generates the frames.
- PageTabOffset.TabOffset, PageTabObserver.CapsuleOffset, PageView.TabBarProgress: require a non-zero width. Swift divides by zero into an infinite or NaN offset, which a real cannot represent.
- VideoPlayer.DragProgress: requires a positive view width, for the same reason.
- AspectFit.Fit: requires a positive source size. A zero side divides by zero in the source.
- Random values are parameters: bubble positions and bonuses in the shop's bonus game, and the decorative particles of the second store. `TapBubble` requires the bonus range 5...50 and `SpawnTick` requires a position inside the 150 by 150 game area.
- Platform scroll APIs: `ScrollTargetBehavior` velocity handling is not modelled. `ScrollGeometry` and `ScrollPosition` are reduced to the offsets the logic reads and writes (arrays of reals in `PageView`).
- `@FocusState` changes driven by the system (the keyboard dismissing the search field) are not modelled; `isExpanded` changes only through `ScrollEnded` and `Cancel`.
- PageView.PageViewState.MainPhaseChanged: the source also skips the assignment when the title is already active. That skip cannot be observed in the model, so the ensures states the resulting value only.
- The header visibility conditions of the page view and its drag-gesture translation values are presentation; only the lock and unlock of the horizontal pager is modelled.
- The system back navigation of a navigation stack (popping one screen) is not modelled; a path shrinks only through the pop to root.
- The shop's preview sheet is modelled by its binding and the remembered item; its buttons have empty actions and its content is presentation.
- The second store never deducts a price: its purchase button's action is empty, so only the button's title and disabled state are modelled.
- Key-value-observing lifetime rules (crashes on an unbalanced `removeObserver`) are not modelled. Registrations are a multiset, so a removal without a prior registration changes nothing.
- Document scanning, persistence (SwiftData), PDF export, biometrics and image decoding in `DocumentScannerDemo` are foreign calls; only `aspecFit` and the thumbnail size are modelled.
- The `isDragging` gesture state of the video player's seeker is not modelled; the drag methods stand for its changes.

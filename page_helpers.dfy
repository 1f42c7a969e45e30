/**
 * Small decisions of js/main.js: the theme toggle, the navbar's scroll
 * state, the store-hours badge and the product-tab switcher's slide
 * direction.
 */
module PageHelpers {
  import opened Options

  /** toggleTheme: the new data-theme value from the current one (absent when
      the attribute is not set). Only "dark" turns light; anything else,
      including no attribute at all, turns dark. */
  function NextTheme(current: Option<string>): (next: string)
    ensures next == "light" || next == "dark"
    ensures next == "light" <==> current == Some("dark")
  {
    if current == Some("dark") then "light" else "dark"
  }

  /** On the two themes the page sets, toggling always changes the theme and
      toggling twice restores it. */
  lemma ToggleTwiceRestores(theme: string)
    requires theme == "dark" || theme == "light"
    ensures NextTheme(Some(theme)) != theme
    ensures NextTheme(Some(NextTheme(Some(theme)))) == theme
  {
  }

  /** The scroll offset past which the navbar is styled as scrolled. */
  const ScrolledThreshold: real := 50.0

  /** The navbar's scroll handler: add `scrolled` to the class list past the
      threshold, remove it otherwise; no other class is touched. */
  function NavbarClasses(classes: set<string>, scrollY: real): (r: set<string>)
    ensures "scrolled" in r <==> scrollY > ScrolledThreshold
    ensures r - {"scrolled"} == classes - {"scrolled"}
  {
    if scrollY > ScrolledThreshold then classes + {"scrolled"} else classes - {"scrolled"}
  }

  /** Scroll events only depend on the latest offset: handling a second event
      gives the same classes as handling that event alone. */
  lemma NavbarLatestScrollWins(classes: set<string>, y1: real, y2: real)
    ensures NavbarClasses(NavbarClasses(classes, y1), y2) == NavbarClasses(classes, y2)
  {
  }

  /** updateStoreStatus's test: the shop is open from 9:00 until 20:00, that
      is for the local hours 9 through 19 of the day. */
  function StoreOpen(hour: int): (open: bool)
    ensures open <==> 9 <= hour <= 19
  {
    hour >= 9 && hour < 20
  }

  /** The store-status badge: the dot's class list, the text and its colour. */
  datatype StatusBadge = StatusBadge(dotClasses: set<string>, text: string, color: string)

  /** updateStoreStatus at a given local hour.  The badge is absent (None)
      when the page lacks the dot or the text, and then nothing is written.
      Otherwise the dot ends with exactly one of `open` and `closed`, the
      text and colour say the same as the dot, and no other class changes. */
  function UpdateStoreStatus(hour: int, badge: Option<StatusBadge>): (r: Option<StatusBadge>)
    ensures r.None? <==> badge.None?
    ensures r.Some? ==>
      && ("open" in r.value.dotClasses <==> StoreOpen(hour))
      && ("closed" in r.value.dotClasses <==> !StoreOpen(hour))
      && (r.value.text == "Currently Open" <==> StoreOpen(hour))
      && (r.value.text == "Currently Closed" <==> !StoreOpen(hour))
      && (r.value.color == "#4ade80" <==> StoreOpen(hour))
      && r.value.dotClasses - {"open", "closed"} == badge.value.dotClasses - {"open", "closed"}
  {
    match badge
    case None => None
    case Some(b) =>
      if StoreOpen(hour) then
        Some(StatusBadge(b.dotClasses + {"open"} - {"closed"}, "Currently Open", "#4ade80"))
      else
        Some(StatusBadge(b.dotClasses + {"closed"} - {"open"}, "Currently Closed", "#f87171"))
  }

  /** The minute interval re-runs the update: the badge depends only on the
      latest hour, so a stale earlier update leaves no trace. */
  lemma StoreStatusLatestWins(badge: Option<StatusBadge>, h1: int, h2: int)
    ensures UpdateStoreStatus(h2, UpdateStoreStatus(h1, badge)) == UpdateStoreStatus(h2, badge)
  {
    if badge.Some? {
      var b := badge.value.dotClasses;
      var mid := UpdateStoreStatus(h1, badge).value.dotClasses;
      assert mid - {"open", "closed"} == b - {"open", "closed"};
      var x := UpdateStoreStatus(h2, UpdateStoreStatus(h1, badge)).value.dotClasses;
      var y := UpdateStoreStatus(h2, badge).value.dotClasses;
      forall t ensures t in x <==> t in y {
        if t != "open" && t != "closed" {
          assert t in mid <==> t in b;
        }
      }
      assert x == y;
    }
  }

  /** The order of the product tabs the slide direction is taken from. */
  const TabOrder: seq<string> := ["wires", "lights", "switches", "fans", "plumbing", "conduit", "pumps"]

  /** Array.prototype.indexOf: the first position of x in s, or -1. */
  function IndexOf(s: seq<string>, x: string): (r: int)
    ensures -1 <= r < |s|
    ensures r == -1 <==> x !in s
    ensures r >= 0 ==> s[r] == x && forall k :: 0 <= k < r ==> s[k] != x
  {
    if |s| == 0 then -1
    else if s[0] == x then 0
    else
      var r := IndexOf(s[1..], x);
      if r == -1 then -1 else r + 1
  }

  /** In a sequence without repeats, indexOf finds every element at its own position. */
  lemma IndexOfDistinct(s: seq<string>, k: nat)
    requires forall a, b :: 0 <= a < b < |s| ==> s[a] != s[b]
    requires k < |s|
    ensures IndexOf(s, s[k]) == k
  {
  }

  datatype Direction = Left | Right

  /** The tab switcher's state: the index of the tab it last switched to
      (currentTabIndex) and the tab that carries the `active` class. */
  class ProductTabs {
    var currentTabIndex: int
    var activeTab: Option<string>

    /** The handler starts at index 0, with whichever tab the page marked active. */
    constructor (initiallyActive: Option<string>)
      ensures currentTabIndex == 0 && activeTab == initiallyActive
    {
      currentTabIndex := 0;
      activeTab := initiallyActive;
    }

    /** A click on the tab named `tab`: ignored when that tab is already
        active; otherwise it becomes the only active tab, the panels slide
        right when the target comes later in the tab order than the current
        index and left otherwise, and the current index becomes the target's
        (-1 for a name outside the order). */
    method Click(tab: string) returns (direction: Option<Direction>)
      modifies this
      ensures old(activeTab) == Some(tab) ==> direction.None? && unchanged(this)
      ensures old(activeTab) != Some(tab) ==>
        && activeTab == Some(tab)
        && currentTabIndex == IndexOf(TabOrder, tab)
        && direction == Some(if IndexOf(TabOrder, tab) > old(currentTabIndex) then Right else Left)
    {
      if activeTab == Some(tab) {
        return None;
      }
      var targetIndex := IndexOf(TabOrder, tab);
      direction := Some(if targetIndex > currentTabIndex then Right else Left);
      activeTab := Some(tab);
      currentTabIndex := targetIndex;
    }
  }

  /** Between two tabs of the order, the panels slide right exactly when the
      target tab comes after the current one; an unknown name (index -1) is
      never to the right of anything. */
  lemma SlideDirectionFollowsOrder(current: nat, target: nat)
    requires current < |TabOrder| && target < |TabOrder|
    ensures IndexOf(TabOrder, TabOrder[target]) > IndexOf(TabOrder, TabOrder[current]) <==> target > current
    ensures forall x :: x !in TabOrder ==> IndexOf(TabOrder, x) == -1
    ensures forall x :: x !in TabOrder ==> IndexOf(TabOrder, x) < IndexOf(TabOrder, TabOrder[target])
  {
    assert forall a, b :: 0 <= a < b < |TabOrder| ==> TabOrder[a] != TabOrder[b];
    IndexOfDistinct(TabOrder, current);
    IndexOfDistinct(TabOrder, target);
  }
}

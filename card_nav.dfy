/**
 * The card-style mobile navigation of js/main.js (initCardNav).
 *
 * The closure state of the source (`isExpanded`) and the DOM it writes
 * (the `open` class of the hamburger and of the panel, the `active` class of
 * the backdrop, `document.body.style.overflow`, the panel height and the
 * entrance styles of the cards and of the theme-toggle slot) are the fields
 * of a NavState value.  Timers and the GSAP reverse-complete callback are
 * explicit deferred steps: a pending Timer fires when the host delivers it,
 * in any order, and ReverseComplete stands for `onReverseComplete`.
 *
 * The pure transition functions below are the specification; the class
 * NavMenu at the end is the event-handling object, proved against them.
 */
module CardNav {
  import opened Options

  // Layout constants of calculateHeight, in CSS pixels.
  const TopBarHeight := 60
  const CardHeight := 78
  const CardGap := 8
  const PanelPadding := 16
  const ThemeToggleHeight := 90
  const ViewportMargin := 32
  // The height the panel is collapsed to (the initial gsap.set and the fallback close).
  const CollapsedHeight := 60
  // Fixed-header allowance subtracted from a card target's offsetTop.
  const HeaderOffset := 80

  /** The uncapped height of the open panel: top bar, cards, the gaps between
      them, padding and the optional theme-toggle slot.  There is no guard for
      zero cards: the gap term is then -8. */
  function LayoutSum(cardCount: nat, hasThemeToggle: bool): int
  {
    TopBarHeight + CardHeight * cardCount + CardGap * (cardCount - 1) + PanelPadding
      + (if hasThemeToggle then ThemeToggleHeight else 0)
  }

  /** calculateHeight: the layout sum, capped at the viewport height less the margins. */
  function CalculateHeight(cardCount: nat, hasThemeToggle: bool, innerHeight: int): (h: int)
    ensures h <= innerHeight - ViewportMargin
    ensures h <= LayoutSum(cardCount, hasThemeToggle)
    ensures h == innerHeight - ViewportMargin || h == LayoutSum(cardCount, hasThemeToggle)
  {
    var calculated := LayoutSum(cardCount, hasThemeToggle);
    var maxHeight := innerHeight - ViewportMargin;
    if calculated < maxHeight then calculated else maxHeight
  }

  /** The closed form of the layout sum: 86 pixels per card on top of 68. */
  lemma LayoutSumClosedForm(cardCount: nat, hasThemeToggle: bool)
    ensures LayoutSum(cardCount, hasThemeToggle)
         == 86 * cardCount + 68 + (if hasThemeToggle then ThemeToggleHeight else 0)
  {
  }

  /** More cards never make the panel shorter, and a taller viewport never does either. */
  lemma CalculateHeightMonotone(n1: nat, n2: nat, t: bool, h1: int, h2: int)
    requires n1 <= n2 && h1 <= h2
    ensures CalculateHeight(n1, t, h1) <= CalculateHeight(n2, t, h2)
  {
  }

  /** Below the cap the height grows with the viewport until the layout sum is reached. */
  lemma CalculateHeightUncapped(n: nat, t: bool, h: int)
    requires LayoutSum(n, t) <= h - ViewportMargin
    ensures CalculateHeight(n, t, h) == LayoutSum(n, t)
  {
  }

  /** Worked values: five cards in an 800 px and a 400 px viewport, and zero cards. */
  lemma CalculateHeightExamples()
    ensures CalculateHeight(5, false, 800) == 498
    ensures CalculateHeight(5, false, 400) == 368
    ensures CalculateHeight(0, false, 1000) == 68
    ensures CalculateHeight(0, true, 1000) == 158
  {
  }

  /** A deferred step scheduled by a handler. */
  datatype Timer =
    | RevealCard(card: nat)          // fallback entrance of one card (after card * 60 ms)
    | RevealThemeToggle              // fallback entrance of the theme-toggle slot
    | HidePanel                      // fallback removal of the panel's `open` class (after 300 ms)
    | ScrollToTarget(href: string)   // card activation: scroll to the anchor (after 100 ms)

  /** What the page provides, fixed when initCardNav runs.  With GSAP loaded the
      timeline's height tween is built once, so its end value is the height
      computed from the viewport at that moment. */
  datatype NavConfig = NavConfig(
    cardCount: nat,
    hasBackdrop: bool,
    hasThemeToggle: bool,
    hasGsap: bool,
    initialInnerHeight: int)
  {
    function TimelineHeight(): int
    {
      CalculateHeight(cardCount, hasThemeToggle, initialInnerHeight)
    }
  }

  /** The menu's closure variable and the DOM state it drives.  Animated
      properties hold the end value of their animation; `reversing` is true
      while the GSAP timeline runs backwards and its completion callback is due. */
  datatype NavState = NavState(
    isExpanded: bool,
    hamburgerOpen: bool,
    panelOpen: bool,
    backdropActive: bool,
    scrollLocked: bool,
    panelHeight: int,
    cardVisible: seq<bool>,
    themeToggleVisible: bool,
    reversing: bool,
    pending: seq<Timer>)

  function AllCards(n: nat, visible: bool): (v: seq<bool>)
    ensures |v| == n && forall i :: 0 <= i < n ==> v[i] == visible
  {
    seq(n, _ => visible)
  }

  /** The fallback's staggered entrance timers, one per card in document order. */
  function RevealTimers(n: nat): (ts: seq<Timer>)
    ensures |ts| == n && forall i :: 0 <= i < n ==> ts[i] == RevealCard(i)
  {
    seq(n, i requires 0 <= i < n => RevealCard(i))
  }

  function Initial(c: NavConfig): NavState
  {
    NavState(false, false, false, false, false, CollapsedHeight,
             AllCards(c.cardCount, false), false, false, [])
  }

  /** toggleMenu's opening branch: the flag, both `open` classes, the backdrop
      (when present) and the scroll lock are set; the panel is never taller
      than its layout; timers are only ever added. */
  function Expand(c: NavConfig, s: NavState, innerHeight: int): (r: NavState)
    ensures r.isExpanded && r.hamburgerOpen && r.panelOpen && r.scrollLocked
    ensures r.backdropActive == c.hasBackdrop
    ensures r.panelHeight <= LayoutSum(c.cardCount, c.hasThemeToggle)
    ensures s.pending <= r.pending
  {
    var opening := s.(isExpanded := true, hamburgerOpen := true, panelOpen := true,
                      backdropActive := c.hasBackdrop, scrollLocked := true);
    if c.hasGsap then
      opening.(reversing := false, panelHeight := c.TimelineHeight(),
               cardVisible := AllCards(c.cardCount, true),
               themeToggleVisible := c.hasThemeToggle)
    else
      opening.(panelHeight := CalculateHeight(c.cardCount, c.hasThemeToggle, innerHeight),
               pending := s.pending + RevealTimers(c.cardCount)
                          + (if c.hasThemeToggle then [RevealThemeToggle] else []))
  }

  /** toggleMenu's closing branch: the flag, the hamburger, the backdrop and
      the scroll lock are cleared and the panel collapses, but the panel keeps
      its `open` class; timers are only ever added. */
  function Collapse(c: NavConfig, s: NavState): (r: NavState)
    ensures !r.isExpanded && !r.hamburgerOpen && !r.backdropActive && !r.scrollLocked
    ensures r.panelOpen == s.panelOpen && r.panelHeight == CollapsedHeight
    ensures s.pending <= r.pending
  {
    var closing := s.(isExpanded := false, hamburgerOpen := false, backdropActive := false,
                      scrollLocked := false, panelHeight := CollapsedHeight,
                      cardVisible := AllCards(c.cardCount, false), themeToggleVisible := false);
    if c.hasGsap then closing.(reversing := true)
    else closing.(pending := s.pending + [HidePanel])
  }

  /** toggleMenu: open when collapsed, close when expanded. */
  function Toggle(c: NavConfig, s: NavState, innerHeight: int): (r: NavState)
    ensures r.isExpanded == !s.isExpanded
    ensures r.hamburgerOpen == r.isExpanded && r.scrollLocked == r.isExpanded
    ensures s.pending <= r.pending
  {
    if !s.isExpanded then Expand(c, s, innerHeight) else Collapse(c, s)
  }

  /** The backdrop's click handler, installed only when the backdrop exists. */
  function ClickBackdrop(c: NavConfig, s: NavState, innerHeight: int): (r: NavState)
    ensures r.isExpanded ==> s.isExpanded
    ensures !c.hasBackdrop ==> r == s
  {
    if c.hasBackdrop && s.isExpanded then Toggle(c, s, innerHeight) else s
  }

  /** A `.nav-card-link` click handler. */
  function ClickLink(c: NavConfig, s: NavState, innerHeight: int): (r: NavState)
    ensures !r.isExpanded
    ensures !s.isExpanded ==> r == s
  {
    if s.isExpanded then Toggle(c, s, innerHeight) else s
  }

  /** A `.nav-card` click handler.  `href` is the card's data-href, the empty
      string standing for an absent attribute (both are falsy). */
  function ClickCard(c: NavConfig, s: NavState, insideLink: bool, href: string, innerHeight: int): (r: NavState)
    ensures insideLink || href == "" ==> r == s
    ensures !insideLink && href != "" ==>
      !r.isExpanded && |r.pending| > 0 && r.pending[|r.pending| - 1] == ScrollToTarget(href)
  {
    if insideLink || href == "" then s
    else
      var collapsed := if s.isExpanded then Toggle(c, s, innerHeight) else s;
      collapsed.(pending := collapsed.pending + [ScrollToTarget(href)])
  }

  /** The window resize handler: only an expanded menu on the GSAP path
      re-applies the height, from the new viewport; a fallback or collapsed
      menu ignores the resize. */
  function Resize(c: NavConfig, s: NavState, innerHeight: int): (r: NavState)
    ensures r == s.(panelHeight := r.panelHeight)
    ensures !(c.hasGsap && s.isExpanded) ==> r == s
    ensures c.hasGsap && s.isExpanded ==>
      r.panelHeight == CalculateHeight(c.cardCount, c.hasThemeToggle, innerHeight)
      && r.panelHeight <= innerHeight - ViewportMargin
  {
    if c.hasGsap && s.isExpanded
    then s.(panelHeight := CalculateHeight(c.cardCount, c.hasThemeToggle, innerHeight))
    else s
  }

  function RemoveAt(ts: seq<Timer>, k: nat): (r: seq<Timer>)
    requires k < |ts|
    ensures |r| == |ts| - 1
    ensures forall t :: t in r ==> t in ts
  {
    ts[..k] + ts[k + 1..]
  }

  /** The pending timer at position k fires and leaves the queue.  No timer
      touches the menu flag, the hamburger, the backdrop, the scroll lock or
      the height, and only HidePanel removes the panel's `open` class. */
  function Fire(s: NavState, k: nat): (r: NavState)
    requires k < |s.pending|
    ensures |r.pending| == |s.pending| - 1
    ensures r.isExpanded == s.isExpanded && r.hamburgerOpen == s.hamburgerOpen
    ensures r.backdropActive == s.backdropActive && r.scrollLocked == s.scrollLocked
    ensures r.panelHeight == s.panelHeight
    ensures r.panelOpen != s.panelOpen ==> s.pending[k] == HidePanel
  {
    var rest := RemoveAt(s.pending, k);
    match s.pending[k]
    case RevealCard(i) =>
      s.(pending := rest,
         cardVisible := if i < |s.cardVisible| then s.cardVisible[i := true] else s.cardVisible)
    case RevealThemeToggle => s.(pending := rest, themeToggleVisible := true)
    case HidePanel => s.(pending := rest, panelOpen := false)
    case ScrollToTarget(_) => s.(pending := rest)
  }

  /** The scroll position the timer at k requests: `anchors` maps a selector to the
      offsetTop of the element it finds; a selector it lacks finds nothing. */
  function ScrollRequest(s: NavState, k: nat, anchors: map<string, int>): (r: Option<int>)
    requires k < |s.pending|
    ensures r.Some? <==> s.pending[k].ScrollToTarget? && s.pending[k].href in anchors
  {
    match s.pending[k]
    case ScrollToTarget(href) =>
      if href in anchors then Some(anchors[href] - HeaderOffset) else None
    case _ => None
  }

  /** GSAP's onReverseComplete callback removes the panel's `open` class. */
  function ReverseComplete(s: NavState): (r: NavState)
    ensures !r.reversing && r.isExpanded == s.isExpanded
    ensures r.panelOpen ==> s.panelOpen
  {
    if s.reversing then s.(panelOpen := false, reversing := false) else s
  }

  datatype Event =
    | HamburgerClick(innerHeight: int)
    | HamburgerKey(key: string, innerHeight: int)
    | BackdropClick(innerHeight: int)
    | LinkClick(innerHeight: int)
    | CardClick(insideLink: bool, href: string, innerHeight: int)
    | WindowResize(innerHeight: int)
    | TimerFires(index: nat)
    | ReverseCompletes

  function Step(c: NavConfig, s: NavState, e: Event): NavState
  {
    match e
    case HamburgerClick(h) => Toggle(c, s, h)
    case HamburgerKey(key, h) => if key == "Enter" then Toggle(c, s, h) else s
    case BackdropClick(h) => ClickBackdrop(c, s, h)
    case LinkClick(h) => ClickLink(c, s, h)
    case CardClick(inside, href, h) => ClickCard(c, s, inside, href, h)
    case WindowResize(h) => Resize(c, s, h)
    case TimerFires(k) => if k < |s.pending| then Fire(s, k) else s
    case ReverseCompletes => ReverseComplete(s)
  }

  function Run(c: NavConfig, s: NavState, events: seq<Event>): NavState
    decreases |events|
  {
    if events == [] then s else Run(c, Step(c, s, events[0]), events[1..])
  }

  /** The invariant every reachable state keeps: the hamburger, the backdrop
      and the scroll lock follow `isExpanded`; a collapsed panel keeps its
      `open` class only while a deferred step is due to remove it; with GSAP
      an expanded panel is always `open`. */
  ghost predicate Inv(c: NavConfig, s: NavState)
  {
    && |s.cardVisible| == c.cardCount
    && s.hamburgerOpen == s.isExpanded
    && s.scrollLocked == s.isExpanded
    && s.backdropActive == (c.hasBackdrop && s.isExpanded)
    && (s.isExpanded ==> s.panelHeight <= LayoutSum(c.cardCount, c.hasThemeToggle))
    && (!s.isExpanded ==> s.panelHeight == CollapsedHeight)
    && (forall t :: t in s.pending && t.RevealCard? ==> t.card < c.cardCount)
    && (!c.hasThemeToggle ==> !s.themeToggleVisible && RevealThemeToggle !in s.pending)
    && (c.hasGsap ==>
          && s.panelOpen == (s.isExpanded || s.reversing)
          && (s.reversing ==> !s.isExpanded)
          && s.cardVisible == AllCards(c.cardCount, s.isExpanded)
          && s.themeToggleVisible == (c.hasThemeToggle && s.isExpanded)
          && (forall t :: t in s.pending ==> t.ScrollToTarget?))
    && (!c.hasGsap ==>
          && !s.reversing
          && (!s.isExpanded && s.panelOpen ==> HidePanel in s.pending))
  }

  lemma InitialInv(c: NavConfig)
    ensures Inv(c, Initial(c))
  {
  }

  lemma TogglePreservesInv(c: NavConfig, s: NavState, h: int)
    requires Inv(c, s)
    ensures Inv(c, Toggle(c, s, h))
  {
    var t := Toggle(c, s, h);
    if !s.isExpanded && !c.hasGsap {
      var extra := RevealTimers(c.cardCount) + (if c.hasThemeToggle then [RevealThemeToggle] else []);
      assert t.pending == s.pending + extra;
      forall x | x in t.pending && x.RevealCard?
        ensures x.card < c.cardCount
      {
        if x !in s.pending {
          assert x in extra;
          var i :| 0 <= i < |extra| && extra[i] == x;
          assert i < c.cardCount;
        }
      }
    }
  }

  lemma RemoveAtKeeps(ts: seq<Timer>, k: nat, x: Timer)
    requires k < |ts| && x in ts && ts[k] != x
    ensures x in RemoveAt(ts, k)
  {
    var j :| 0 <= j < |ts| && ts[j] == x;
    if j < k {
      assert RemoveAt(ts, k)[j] == x;
    } else {
      assert RemoveAt(ts, k)[j - 1] == x;
    }
  }

  lemma FirePreservesInv(c: NavConfig, s: NavState, k: nat)
    requires Inv(c, s) && k < |s.pending|
    ensures Inv(c, Fire(s, k))
  {
    var t := Fire(s, k);
    assert s.pending[k] in s.pending;
    if c.hasGsap {
      assert s.pending[k].ScrollToTarget?;
      assert t == s.(pending := RemoveAt(s.pending, k));
    }
    if !c.hasGsap && !t.isExpanded && t.panelOpen {
      assert s.pending[k] != HidePanel;
      RemoveAtKeeps(s.pending, k, HidePanel);
    }
  }

  lemma StepPreservesInv(c: NavConfig, s: NavState, e: Event)
    requires Inv(c, s)
    ensures Inv(c, Step(c, s, e))
  {
    match e
    case HamburgerClick(h) => TogglePreservesInv(c, s, h);
    case HamburgerKey(_, h) => TogglePreservesInv(c, s, h);
    case BackdropClick(h) => TogglePreservesInv(c, s, h);
    case LinkClick(h) => TogglePreservesInv(c, s, h);
    case CardClick(inside, href, h) =>
      TogglePreservesInv(c, s, h);
      var u := if s.isExpanded then Toggle(c, s, h) else s;
      assert Inv(c, u);
      if !inside && href != "" {
        var r := ClickCard(c, s, inside, href, h);
        assert r.pending == u.pending + [ScrollToTarget(href)];
        assert forall x :: x in r.pending ==> x in u.pending || x == ScrollToTarget(href);
      }
    case WindowResize(h) =>
    case TimerFires(k) => if k < |s.pending| { FirePreservesInv(c, s, k); }
    case ReverseCompletes =>
  }

  /** Every state reached from an invariant state by any sequence of events keeps the invariant. */
  lemma {:induction false} RunPreservesInv(c: NavConfig, s: NavState, events: seq<Event>)
    requires Inv(c, s)
    ensures Inv(c, Run(c, s, events))
    decreases |events|
  {
    if events != [] {
      StepPreservesInv(c, s, events[0]);
      RunPreservesInv(c, Step(c, s, events[0]), events[1..]);
    }
  }

  /** The scroll lock can never get stuck: after any sequence of events the body
      scroll is locked exactly when the menu is expanded, and so are the
      hamburger's `open` class and (when present) the backdrop's `active` class. */
  lemma ScrollLockFollowsMenu(c: NavConfig, events: seq<Event>)
    ensures var s := Run(c, Initial(c), events);
      && s.scrollLocked == s.isExpanded
      && s.hamburgerOpen == s.isExpanded
      && s.backdropActive == (c.hasBackdrop && s.isExpanded)
  {
    InitialInv(c);
    RunPreservesInv(c, Initial(c), events);
  }

  /** Opening from collapsed: state flag, both `open` classes, the backdrop if
      present and the scroll lock are set at once; the height is the timeline's
      or calculateHeight() now; the fallback queues one reveal per card in
      document order, then the theme-toggle slot's. */
  lemma ToggleOpens(c: NavConfig, s: NavState, h: int)
    requires !s.isExpanded
    ensures var t := Toggle(c, s, h);
      && t.isExpanded && t.hamburgerOpen && t.panelOpen && t.scrollLocked
      && t.backdropActive == c.hasBackdrop
      && (c.hasGsap ==> t.panelHeight == c.TimelineHeight() && !t.reversing)
      && (!c.hasGsap ==>
            && t.panelHeight == CalculateHeight(c.cardCount, c.hasThemeToggle, h)
            && t.pending == s.pending + RevealTimers(c.cardCount)
                            + (if c.hasThemeToggle then [RevealThemeToggle] else []))
  {
  }

  /** Closing from expanded clears the hamburger, the backdrop and the scroll
      lock at once but leaves the panel's `open` class to a deferred step. */
  lemma ToggleClosesLater(c: NavConfig, s: NavState, h: int)
    requires s.isExpanded
    ensures var t := Toggle(c, s, h);
      && !t.isExpanded && !t.hamburgerOpen && !t.backdropActive && !t.scrollLocked
      && t.panelOpen == s.panelOpen
      && t.panelHeight == CollapsedHeight
      && (c.hasGsap ==> t.reversing && t.pending == s.pending)
      && (!c.hasGsap ==> t.pending == s.pending + [HidePanel])
  {
  }

  /** The panel's `open` class is removed only by a deferred step: a fallback
      HidePanel timer or the GSAP reverse-complete callback. */
  lemma PanelClosedOnlyByDeferredStep(c: NavConfig, s: NavState, e: Event)
    requires s.panelOpen && !Step(c, s, e).panelOpen
    ensures || (e.TimerFires? && e.index < |s.pending| && s.pending[e.index] == HidePanel)
            || (e.ReverseCompletes? && s.reversing)
  {
    match e
    case TimerFires(k) =>
      if k < |s.pending| {
        match s.pending[k]
        case HidePanel =>
        case RevealCard(_) =>
        case RevealThemeToggle =>
        case ScrollToTarget(_) =>
      }
    case ReverseCompletes =>
    case CardClick(inside, href, h) =>
    case _ =>
  }

  /** Two successive toggles restore the flag, the hamburger, the backdrop and the scroll lock. */
  lemma ToggleTwiceRestores(c: NavConfig, s: NavState, h1: int, h2: int)
    requires Inv(c, s)
    ensures var t := Toggle(c, Toggle(c, s, h1), h2);
      && t.isExpanded == s.isExpanded
      && t.hamburgerOpen == s.hamburgerOpen
      && t.backdropActive == s.backdropActive
      && t.scrollLocked == s.scrollLocked
  {
  }

  /** With GSAP, open-close from a settled collapsed state returns to exactly
      that state once the reverse animation completes. */
  lemma GsapOpenCloseRoundTrip(c: NavConfig, s: NavState, h1: int, h2: int)
    requires c.hasGsap && Inv(c, s) && !s.isExpanded && !s.panelOpen
    ensures ReverseComplete(Toggle(c, Toggle(c, s, h1), h2)) == s
  {
    var t := ReverseComplete(Toggle(c, Toggle(c, s, h1), h2));
    assert t.cardVisible == s.cardVisible;
  }

  /** The backdrop and the nav links can never open the menu, and they are
      no-ops while it is collapsed. */
  lemma BackdropAndLinksOnlyClose(c: NavConfig, s: NavState, h: int)
    ensures ClickBackdrop(c, s, h).isExpanded ==> s.isExpanded
    ensures ClickLink(c, s, h).isExpanded ==> s.isExpanded
    ensures !s.isExpanded ==> ClickBackdrop(c, s, h) == s && ClickLink(c, s, h) == s
    ensures s.isExpanded ==> !ClickLink(c, s, h).isExpanded
    ensures s.isExpanded && c.hasBackdrop ==> !ClickBackdrop(c, s, h).isExpanded
  {
  }

  /** A card click: ignored inside a nested link or without data-href;
      otherwise it leaves the menu collapsed and schedules the scroll. */
  lemma CardClickCollapsesThenScrolls(c: NavConfig, s: NavState, inside: bool, href: string, h: int)
    ensures inside || href == "" ==> ClickCard(c, s, inside, href, h) == s
    ensures !inside && href != "" ==>
      var t := ClickCard(c, s, inside, href, h);
      && !t.isExpanded && t.scrollLocked == (!s.isExpanded && s.scrollLocked)
      && |t.pending| > 0 && t.pending[|t.pending| - 1] == ScrollToTarget(href)
      && (!s.isExpanded ==> t.pending == s.pending + [ScrollToTarget(href)])
  {
  }

  /** The scheduled scroll goes to the anchor's offsetTop less the header
      allowance, and is skipped without error when no element matches. */
  lemma ScrollRequestTarget(s: NavState, k: nat, anchors: map<string, int>)
    requires k < |s.pending| && s.pending[k].ScrollToTarget?
    ensures var href := s.pending[k].href;
      && (href !in anchors ==> ScrollRequest(s, k, anchors) == None)
      && (href in anchors ==> ScrollRequest(s, k, anchors) == Some(anchors[href] - 80))
      && Fire(s, k).isExpanded == s.isExpanded
      && Fire(s, k).panelOpen == s.panelOpen
  {
  }

  /** Without GSAP the 300 ms HidePanel timer is never cancelled: from any
      collapsed state, opening, closing and reopening before that timer fires
      leaves an expanded menu whose panel lacks its `open` class once it does.
      The timer sits after the queue the first opening left behind.  (With
      GSAP, Inv rules this out.) */
  lemma FallbackReopenLosesOpenClass(c: NavConfig, s: NavState, h1: int, h2: int, h3: int)
    requires !c.hasGsap && !s.isExpanded
    ensures var k := |s.pending| + c.cardCount + (if c.hasThemeToggle then 1 else 0);
      var t := Run(c, s, [HamburgerClick(h1), HamburgerClick(h2), HamburgerClick(h3), TimerFires(k)]);
      t.isExpanded && !t.panelOpen
  {
    var k := |s.pending| + c.cardCount + (if c.hasThemeToggle then 1 else 0);
    var s1 := Toggle(c, s, h1);
    var s2 := Toggle(c, s1, h2);
    assert s2.pending == s1.pending + [HidePanel] && |s1.pending| == k;
    var s3 := Toggle(c, s2, h3);
    assert s3.pending[k] == HidePanel;
    var s4 := Fire(s3, k);
    assert s4.isExpanded && !s4.panelOpen;
    assert Run(c, s3, [TimerFires(k)]) == Run(c, s4, []);
    assert Run(c, s2, [HamburgerClick(h3), TimerFires(k)]) == Run(c, s3, [TimerFires(k)]);
    assert Run(c, s1, [HamburgerClick(h2), HamburgerClick(h3), TimerFires(k)])
        == Run(c, s2, [HamburgerClick(h3), TimerFires(k)]);
  }

  /** The event-handling object: initCardNav's closure variable and the DOM it writes. */
  class NavMenu {
    const config: NavConfig
    var isExpanded: bool
    var hamburgerOpen: bool
    var panelOpen: bool
    var backdropActive: bool
    var scrollLocked: bool
    var panelHeight: int
    var cardVisible: seq<bool>
    var themeToggleVisible: bool
    var reversing: bool
    var pending: seq<Timer>

    function State(): NavState
      reads this
    {
      NavState(isExpanded, hamburgerOpen, panelOpen, backdropActive, scrollLocked,
               panelHeight, cardVisible, themeToggleVisible, reversing, pending)
    }

    ghost predicate Valid()
      reads this
    {
      Inv(config, State())
    }

    constructor (config: NavConfig)
      ensures this.config == config && State() == Initial(config) && Valid()
    {
      this.config := config;
      isExpanded, hamburgerOpen, panelOpen, backdropActive, scrollLocked := false, false, false, false, false;
      panelHeight := CollapsedHeight;
      cardVisible := AllCards(config.cardCount, false);
      themeToggleVisible, reversing := false, false;
      pending := [];
    }

    method ToggleMenu(innerHeight: int)
      requires Valid()
      modifies this
      ensures Valid()
      ensures State() == Toggle(config, old(State()), innerHeight)
    {
      if !isExpanded {
        Open(innerHeight);
      } else {
        Close();
      }
    }

    method Open(innerHeight: int)
      requires Valid() && !isExpanded
      modifies this
      ensures Valid()
      ensures State() == Expand(config, old(State()), innerHeight)
    {
      TogglePreservesInv(config, State(), innerHeight);
      hamburgerOpen := true;
      panelOpen := true;
      if config.hasBackdrop { backdropActive := true; }
      scrollLocked := true;
      isExpanded := true;
      if config.hasGsap {
        // timeline.play(0): the height, card and theme-toggle tweens run to their end values
        reversing := false;
        panelHeight := config.TimelineHeight();
        cardVisible := AllCards(config.cardCount, true);
        themeToggleVisible := config.hasThemeToggle;
      } else {
        panelHeight := CalculateHeight(config.cardCount, config.hasThemeToggle, innerHeight);
        QueueReveals();
        if config.hasThemeToggle {
          pending := pending + [RevealThemeToggle];
        }
      }
    }

    /** The fallback's navCards.forEach: one entrance timer per card, in document order. */
    method QueueReveals()
      modifies this`pending
      ensures pending == old(pending) + RevealTimers(config.cardCount)
    {
      var i := 0;
      while i < config.cardCount
        invariant 0 <= i <= config.cardCount
        invariant pending == old(pending) + RevealTimers(i)
      {
        assert RevealTimers(i + 1) == RevealTimers(i) + [RevealCard(i)];
        pending := pending + [RevealCard(i)];
        i := i + 1;
      }
    }

    method Close()
      requires Valid() && isExpanded
      modifies this
      ensures Valid()
      ensures State() == Collapse(config, old(State()))
    {
      TogglePreservesInv(config, State(), 0);
      hamburgerOpen := false;
      if config.hasBackdrop { backdropActive := false; }
      scrollLocked := false;
      isExpanded := false;
      panelHeight := CollapsedHeight;
      if config.hasGsap {
        // timeline.reverse(): end values are the timeline's start values
        reversing := true;
        cardVisible := AllCards(config.cardCount, false);
        themeToggleVisible := false;
      } else {
        HideCards();
        if config.hasThemeToggle { themeToggleVisible := false; }
        pending := pending + [HidePanel];
      }
    }

    /** The fallback's navCards.forEach on close: every card back to its hidden style. */
    method HideCards()
      modifies this`cardVisible
      ensures cardVisible == AllCards(|old(cardVisible)|, false)
    {
      var i := 0;
      while i < |cardVisible|
        invariant 0 <= i <= |cardVisible| == |old(cardVisible)|
        invariant forall j :: 0 <= j < i ==> !cardVisible[j]
      {
        cardVisible := cardVisible[i := false];
        i := i + 1;
      }
    }

    method HamburgerKeyPress(key: string, innerHeight: int)
      requires Valid()
      modifies this
      ensures Valid()
      ensures State() == Step(config, old(State()), HamburgerKey(key, innerHeight))
    {
      if key == "Enter" { ToggleMenu(innerHeight); }
    }

    method BackdropClicked(innerHeight: int)
      requires Valid()
      modifies this
      ensures Valid()
      ensures State() == ClickBackdrop(config, old(State()), innerHeight)
    {
      if config.hasBackdrop && isExpanded { ToggleMenu(innerHeight); }
    }

    method LinkClicked(innerHeight: int)
      requires Valid()
      modifies this
      ensures Valid()
      ensures State() == ClickLink(config, old(State()), innerHeight)
    {
      if isExpanded { ToggleMenu(innerHeight); }
    }

    method CardClicked(insideLink: bool, href: string, innerHeight: int)
      requires Valid()
      modifies this
      ensures Valid()
      ensures State() == ClickCard(config, old(State()), insideLink, href, innerHeight)
    {
      StepPreservesInv(config, State(), CardClick(insideLink, href, innerHeight));
      if insideLink { return; }
      if href != "" {
        if isExpanded { ToggleMenu(innerHeight); }
        pending := pending + [ScrollToTarget(href)];
      }
    }

    method WindowResized(innerHeight: int)
      requires Valid()
      modifies this
      ensures Valid()
      ensures State() == Resize(config, old(State()), innerHeight)
    {
      if config.hasGsap && isExpanded {
        panelHeight := CalculateHeight(config.cardCount, config.hasThemeToggle, innerHeight);
      }
    }

    /** The host runs the pending timer at k; a scroll timer reports where it scrolls. */
    method RunTimer(k: nat, anchors: map<string, int>) returns (scrollTop: Option<int>)
      requires Valid() && k < |pending|
      modifies this
      ensures Valid()
      ensures State() == Fire(old(State()), k)
      ensures scrollTop == ScrollRequest(old(State()), k, anchors)
    {
      FirePreservesInv(config, State(), k);
      var timer := pending[k];
      pending := RemoveAt(pending, k);
      scrollTop := None;
      match timer
      case RevealCard(i) =>
        if i < |cardVisible| { cardVisible := cardVisible[i := true]; }
      case RevealThemeToggle =>
        themeToggleVisible := true;
      case HidePanel =>
        panelOpen := false;
      case ScrollToTarget(href) =>
        if href in anchors { scrollTop := Some(anchors[href] - HeaderOffset); }
    }

    /** GSAP calls the registered onReverseComplete callback. */
    method ReverseCompleted()
      requires Valid()
      modifies this
      ensures Valid()
      ensures State() == ReverseComplete(old(State()))
    {
      if reversing {
        panelOpen := false;
        reversing := false;
      }
    }
  }
}

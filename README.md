# Verified model of the interactive pieces of the site script

The repository is the front end of a marketing site. Most of its one script,
`js/main.js`, draws DOM and WebGL effects. A few pieces of it are plain integer
bookkeeping and small state machines, and this Dafny project models those
and proves what they guarantee:

- **`card_nav.dfy` (module `CardNav`): the card-style mobile navigation (`initCardNav`).**
  - `calculateHeight` is a function.
  - `toggleMenu` and its click, keypress and resize handlers are pure transition functions on a `NavState` value.
  - Timers and the GSAP reverse-complete callback are explicit deferred steps that the host may deliver in any order.
  - `Inv` is an invariant preserved by every event.
  - The class `NavMenu` is the event-handling object. Each of its methods is proved against the transition function it implements.
- **`carousel.dfy` (module `ProductCarousel`): the product variations carousel (`initProductCarousels`).**
  - It is a class whose fields are the closure variables plus the DOM state it writes: the dots' `active` class, the buttons' `disabled` class and the translate offset.
  - Its invariant is that the index is in range and that every dot and button agrees with the index.
- **`slideshow.dfy` (module `HoverSlideshow`): the hover slideshow with its trailing clone slide (`initProductImageHoverSlideshow`).**
  - It is a class with `index`, `animating` and the transform.
  - `Shown()` is the picture on screen. The handlers advance it round the cycle of slides, and the snap back from the clone keeps it.
  - A pending double `requestAnimationFrame` is counted and then delivered by the host.
- **`stacked_planes.dfy` (module `StackedPlanes`): the integer bookkeeping of `createStackedPlanesGeometry`.**
  - The three typed arrays are allocated from `n` and `heightSegments`, then filled through `TypedArray.set` at running offsets.
  - Each buffer is proved equal to a recursive specification of its contents.
  - Lemmas state where each quad and each row lands, the exact buffer lengths, and that every index names a vertex.
- **`page_helpers.dfy` (module `PageHelpers`): the theme flip, the navbar `scrolled` class, the store-status badge, and the product tabs' slide direction.**
- **`options.dfy` (module `Options`): the `Option` type shared by the modules.**

The floating-point values written into the geometry buffers are symbolic
constructors (for example `XLeft(i)` or `V(i, j)`), so the model checks where
each value goes, not its numeric value.

## Model

| member | source | states |
|---|---|---|
| CardNav.CalculateHeight | js/main.js:250-260 | the height never exceeds `innerHeight - 32` or the layout sum, and it equals one of the two |
| CardNav.LayoutSumClosedForm | js/main.js:250-260 | the uncapped sum is `86n + 68` plus 90 with the theme toggle, so zero cards give 68 (158), with no guard |
| CardNav.CalculateHeightMonotone | js/main.js:250-260 | more cards or a taller viewport never give a shorter panel |
| CardNav.CalculateHeightUncapped | js/main.js:250-260 | when the layout sum fits in the viewport, it is the height |
| CardNav.CalculateHeightExamples | js/main.js:250-260 | worked values: 5 cards in 800 px give 498, in 400 px give 368; 0 cards give 68 or 158 |
| CardNav.Expand | js/main.js:306-332 | opening sets the flag, both `open` classes, the backdrop if present and the scroll lock; the panel is never taller than its layout sum; timers are only added |
| CardNav.Collapse | js/main.js:334-357 | closing clears the flag, the hamburger, the backdrop and the scroll lock and collapses the panel to 60 px, while the panel keeps its `open` class; timers are only added |
| CardNav.Toggle | js/main.js:305-359 | toggleMenu flips `isExpanded`, and the hamburger and scroll lock follow the new value |
| CardNav.ClickBackdrop | js/main.js:371-375 | a backdrop click never opens the menu, and without a backdrop nothing happens |
| CardNav.ClickLink | js/main.js:377-383 | after a nav-link click the menu is collapsed, and a click while collapsed changes nothing |
| CardNav.ClickCard | js/main.js:386-403 | a click inside a link or on a card without `data-href` changes nothing; otherwise the menu ends collapsed with the scroll to `href` queued last |
| CardNav.Resize | js/main.js:407-411 | a resize changes at most the panel height; only an expanded GSAP menu changes it, to `calculateHeight()` of the new viewport, and a fallback or collapsed menu is left exactly as it was |
| CardNav.Fire | js/main.js:320-356 | a firing timer leaves the queue and never touches the flag, hamburger, backdrop, scroll lock or height; only HidePanel removes `open` |
| CardNav.ScrollRequest | js/main.js:392-401 | a timer requests a scroll exactly when it is a card's scroll and its selector matches an element |
| CardNav.ReverseComplete | js/main.js:342-344 | the reverse-complete callback ends the reverse, keeps `isExpanded` and can only remove `open` |
| CardNav.InitialInv | js/main.js:246-272 | the initial collapsed state (60 px panel, hidden cards, nothing pending) satisfies the invariant |
| CardNav.TogglePreservesInv | js/main.js:305-359 | toggleMenu keeps the invariant: the hamburger, backdrop and scroll lock follow `isExpanded`, fallback timers name real cards, and a GSAP panel is open exactly while expanded or reversing |
| CardNav.FirePreservesInv | js/main.js:318-357 | any pending timer firing keeps the invariant; a collapsed fallback panel stays `open` only while its HidePanel timer is due |
| CardNav.StepPreservesInv | js/main.js:362-411 | every handler event and deferred step keeps the invariant |
| CardNav.RunPreservesInv | js/main.js:362-411 | any sequence of events from an invariant state keeps the invariant |
| CardNav.ScrollLockFollowsMenu | js/main.js:305-359 | after any event sequence from the start, body scroll is locked, the hamburger is `open` and the backdrop (if present) is `active` exactly when the menu is expanded |
| CardNav.ToggleOpens | js/main.js:306-331 | opening sets `isExpanded`, both `open` classes, the backdrop if present and the scroll lock; the height is the timeline's end height with GSAP and `calculateHeight()` of the current viewport without; the fallback appends `RevealCard(0..n-1)` in document order, then the theme-toggle slot's reveal |
| CardNav.ToggleClosesLater | js/main.js:334-358 | closing clears the flag, hamburger, backdrop and lock at once and collapses to 60 px; the panel's `open` class waits for the reverse or the queued 300 ms step |
| CardNav.PanelClosedOnlyByDeferredStep | js/main.js:341-356 | the only events that remove the panel's `open` class are a HidePanel timer and the GSAP reverse-complete |
| CardNav.ToggleTwiceRestores | js/main.js:305-359 | two toggles restore `isExpanded`, the hamburger, the backdrop and the body overflow |
| CardNav.GsapOpenCloseRoundTrip | js/main.js:263-344 | with GSAP, opening, closing and the reverse completing restore a settled collapsed state exactly |
| CardNav.BackdropAndLinksOnlyClose | js/main.js:370-383 | backdrop and link clicks never open the menu, do nothing while collapsed, and close it while expanded |
| CardNav.CardClickCollapsesThenScrolls | js/main.js:386-404 | a click inside a link or on a card without `data-href` is ignored; otherwise the menu ends collapsed and a scroll step is queued |
| CardNav.ScrollRequestTarget | js/main.js:392-402 | the queued scroll goes to `offsetTop - 80` of the matched element, is skipped when nothing matches, and leaves the menu alone |
| CardNav.FallbackReopenLosesOpenClass | js/main.js:319-356 | without GSAP, from any collapsed state and for any card count, opening, closing and reopening before the 300 ms timer fires leaves an expanded menu whose panel lacks `open` once the timer runs |
| CardNav.NavMenu.constructor | js/main.js:246-272 | the object starts in the initial state, which satisfies the invariant |
| CardNav.NavMenu.ToggleMenu | js/main.js:305-359 | the new state is `Toggle` of the old, and the invariant holds |
| CardNav.NavMenu.Open | js/main.js:306-331 | the new state is `Expand` of the old; the fallback loop queues the card reveals in order |
| CardNav.NavMenu.Close | js/main.js:334-358 | the new state is `Collapse` of the old; the fallback loop hides every card |
| CardNav.NavMenu.QueueReveals | js/main.js:319-324 | the fallback queues one entrance timer per card, appended in document order |
| CardNav.NavMenu.HideCards | js/main.js:348-351 | the fallback close hides every card |
| CardNav.NavMenu.HamburgerKeyPress | js/main.js:366-368 | only Enter toggles |
| CardNav.NavMenu.BackdropClicked | js/main.js:371-375 | the new state is `ClickBackdrop` of the old |
| CardNav.NavMenu.LinkClicked | js/main.js:377-383 | the new state is `ClickLink` of the old |
| CardNav.NavMenu.CardClicked | js/main.js:386-404 | the new state is `ClickCard` of the old |
| CardNav.NavMenu.WindowResized | js/main.js:407-411 | the new state is `Resize` of the old: only an expanded GSAP menu re-applies `calculateHeight()`, and anything else is unchanged |
| CardNav.NavMenu.RunTimer | js/main.js:318-402 | the fired timer leaves the queue with its effect applied; a scroll timer reports its target or nothing |
| CardNav.NavMenu.ReverseCompleted | js/main.js:342-344 | the reverse completing removes the panel's `open` class |
| ProductCarousel.CardsPerView | js/main.js:1867-1869 | 1 card per view iff `innerWidth <= 768`, otherwise 2 |
| ProductCarousel.MaxSlides | js/main.js:1872 | `ceil(totalCards / cardsPerView)`: the fewest slides that hold every card; 0 exactly when there are no cards |
| ProductCarousel.ClampIndex | js/main.js:1929-1932 | the result lies in `[0, maxSlides-1]` (0 with no slides) and is the index itself when that is in range |
| ProductCarousel.Forward | js/main.js:1938-1939 | one step towards the end moves by exactly one, and stays put exactly at or past the last slide |
| ProductCarousel.Backward | js/main.js:1940-1941 | one step towards the start moves back by exactly one, and stays put exactly at or before slide 0 |
| ProductCarousel.StepsStayInRange | js/main.js:1935-1957 | next/prev and the arrows stay in range, move by exactly one unless at an end, and undo each other |
| ProductCarousel.SwipeIndex | js/main.js:1971-1980 | a leftward swipe of more than 50 px steps forward, a rightward one steps back, anything shorter keeps the index |
| ProductCarousel.SwipeMovesByOne | js/main.js:1971-1980 | on real `screenX` coordinates, a swipe past the strict 50 px threshold (50.5 px included) moves one step in its direction, shorter swipes change nothing, and the index stays in range |
| ProductCarousel.ButtonDisabled | js/main.js:1917-1924 | with the index in range, the prev button has the `disabled` class exactly when prev would not move, and the next button exactly when next would not move |
| ProductCarousel.Carousel.constructor | js/main.js:1857-1985 | a new carousel is on slide 0 with the cards per view of the viewport and the invariant |
| ProductCarousel.Carousel.CreateIndicators | js/main.js:1875-1887 | with an indicator container, one dot per slide with only the first active; otherwise nothing changes |
| ProductCarousel.Carousel.UpdateCarousel | js/main.js:1903-1926 | the offset is `-currentIndex * containerWidth`, only the dot at the index is active, and each button's `disabled` class matches the index |
| ProductCarousel.Carousel.GoToSlide | js/main.js:1929-1932 | the index becomes the clamped target and the view agrees with it |
| ProductCarousel.Carousel.DotClicked | js/main.js:1883 | dot i's click makes slide i current, dot i the only active one and the offset `-i * containerWidth`; cards per view and touch coordinates are kept |
| ProductCarousel.Carousel.ButtonClicked | js/main.js:1935-1945 | next moves forward, prev moves back, other buttons keep the index; the view agrees with the result |
| ProductCarousel.Carousel.KeyDown | js/main.js:1948-1956 | the arrows step the index and re-derive the view; a key that does not move the index, including an arrow at an end, changes nothing |
| ProductCarousel.Carousel.TouchStart | js/main.js:1962-1964 | the start of the touch (a real `screenX`) is recorded |
| ProductCarousel.Carousel.TouchEnd | js/main.js:1966-1980 | the end of the touch is recorded and the index becomes the swipe's result from the recorded start; a swipe that does not move changes nothing else |
| ProductCarousel.Carousel.Resized | js/main.js:1892-1900 | a changed card count per view rebuilds the dots and returns to slide 0; otherwise nothing changes; touch coordinates are always kept |
| HoverSlideshow.Slideshow.Setup | js/main.js:1346-1357 | no slideshow without a track or with at most one slide; otherwise one on slide 0, idle, with the invariant |
| HoverSlideshow.Slideshow.constructor | js/main.js:1356-1357 | a new slideshow is on slot 0 and idle |
| HoverSlideshow.Slideshow.GoTo | js/main.js:1359-1372 | the index is set and the transform shows it (`index * 100%`) |
| HoverSlideshow.Slideshow.Next | js/main.js:1374-1378 | ignored while animating; otherwise advances one slot and starts animating, never past the clone, and the picture shown becomes the next one round the cycle |
| HoverSlideshow.Slideshow.KeyDown | js/main.js:1399-1421 | ArrowRight advances like next; ArrowLeft at 0 jumps to the last real slide and schedules an advance to the clone, elsewhere steps back; both are ignored while animating; the picture shown moves one forward or one back round the cycle |
| HoverSlideshow.Slideshow.FrameAdvance | js/main.js:1412-1416 | the scheduled frame callback runs next, advancing the picture shown when idle |
| HoverSlideshow.Slideshow.TransitionEnd | js/main.js:1385-1396 | on the clone it snaps to slot 0 with transform 0, without changing the picture shown; it always clears `animating` |
| HoverSlideshow.ShownSlide | js/main.js:1352-1354 | slot `i` shows slide `i mod originalCount`, so the clone slot shows the first slide |
| StackedPlanes.StartsClosedForm | js/main.js:1613-1614 | the running offsets after i planes are `i*(heightSegments+1)*2` vertices and `i*heightSegments*2*3` indices |
| StackedPlanes.StartsMonotone | js/main.js:1625-1650 | later planes start later in both buffers |
| StackedPlanes.PlaneIndices | js/main.js:1639-1646 | a plane writes six indices per row below its top row, none for the top row |
| StackedPlanes.StackedLengths | js/main.js:1625-1650 | the filled buffers end at three floats per vertex, two uv floats per vertex and the index offset |
| StackedPlanes.BufferSizes | js/main.js:1613-1617 | the contents fill exactly `numVertices*3`, `numVertices*2` and `numFaces*3` elements |
| StackedPlanes.PlaneIndicesInRange | js/main.js:1639-1646 | a plane's indices name only that plane's vertices |
| StackedPlanes.IndicesInRange | js/main.js:1625-1650 | every index written names a vertex of a plane written so far |
| StackedPlanes.IndicesBelowVertexCount | js/main.js:1613-1646 | every index in the buffer is below `numVertices` |
| StackedPlanes.QuadInPlane | js/main.js:1639-1646 | quad j of a plane is at offset 6j of the plane's indices |
| StackedPlanes.PlaneInStackedIndices | js/main.js:1625-1650 | plane i's indices start at its running index offset |
| StackedPlanes.QuadAt | js/main.js:1639-1646 | at index offset `IndexStart + 6j` the buffer holds `(a,b,c),(c,b,d)`, with `a` the vertex offset of row j of plane i |
| StackedPlanes.RowInPlane | js/main.js:1631-1634 | row j of a plane is at offset 6j of the plane's positions |
| StackedPlanes.PlaneInStackedPositions | js/main.js:1625-1650 | plane i's positions start at three times its vertex offset |
| StackedPlanes.RowAt | js/main.js:1631-1634 | at `vertexOffset * 3` the buffer holds the left then the right edge of row j, both at depth 0 |
| StackedPlanes.SetAt | js/main.js:1634 | `TypedArray.set` writes the values at the offset and leaves the rest of the array unchanged |
| StackedPlanes.WriteRowPositions | js/main.js:1631-1634 | positions.set of a row extends the plane's written prefix by that row |
| StackedPlanes.WriteRowUvs | js/main.js:1636-1637 | uvs.set of a row extends the plane's uv prefix by that row |
| StackedPlanes.WriteQuad | js/main.js:1639-1646 | indices.set of a quad extends the plane's index prefix by the quad at the current vertex offset |
| StackedPlanes.FillPlanePositions | js/main.js:1630-1649 | the row loop writes a whole plane's positions and advances the vertex offset by `2*(heightSegments+1)` |
| StackedPlanes.FillPlaneUvs | js/main.js:1630-1649 | the row loop writes a whole plane's uvs and advances the uv offset by `4*(heightSegments+1)` |
| StackedPlanes.FillPlaneIndices | js/main.js:1630-1649 | the row loop writes a whole plane's quads and advances the index offset by `6*heightSegments` |
| StackedPlanes.FillPlanes | js/main.js:1625-1650 | the plane loop fills each buffer with exactly its specified contents |
| StackedPlanes.CreateStackedPlanesGeometry | js/main.js:1611-1650 | the buffers have the allocated lengths and exactly the specified contents |
| PageHelpers.NextTheme | js/main.js:45-47 | the new theme is light exactly when the current one is dark; anything else, including no attribute, gives dark |
| PageHelpers.ToggleTwiceRestores | js/main.js:45-47 | for the value flip alone, on dark and light, toggling always changes the theme and toggling twice restores it |
| PageHelpers.NavbarClasses | js/main.js:189-195 | `scrolled` is present exactly when `scrollY > 50`, and no other class changes |
| PageHelpers.NavbarLatestScrollWins | js/main.js:189-195 | the classes depend only on the latest scroll offset |
| PageHelpers.StoreOpen | js/main.js:1004 | the shop counts as open for the hours 9 through 19, closed at every other hour |
| PageHelpers.UpdateStoreStatus | js/main.js:999-1022 | nothing is written without both badge elements; otherwise the dot ends with exactly one of `open` and `closed`, the text and colour agree with it, and no other class changes |
| PageHelpers.StoreStatusLatestWins | js/main.js:1024-1026 | re-running the update each minute leaves the badge that the latest hour alone gives |
| PageHelpers.IndexOf | js/main.js:1270 | `indexOf` returns the first position of the name, or -1 exactly when it is absent |
| PageHelpers.ProductTabs.constructor | js/main.js:1259 | the current tab index starts at 0 |
| PageHelpers.ProductTabs.Click | js/main.js:1261-1328 | a click on the active tab does nothing; otherwise that tab becomes active, the direction is right iff its index exceeds the current one, and the index is updated |
| PageHelpers.SlideDirectionFollowsOrder | js/main.js:1258-1271 | between two tabs in the order, the slide goes right exactly when the target comes later; every name outside the order has index -1, so it is never to the right of a tab |

## Left out

- `checkConnection.js` is not part of this model. It is a MongoDB client doing only network I/O.
- WebGL, THREE.js, shaders and all floating-point animation math are not modelled:
  - geometry values are symbolic constructors;
  - `computeVertexNormals` and the `BufferAttribute` wrapping are not modelled;
  - the random uv offsets are not modelled.
- Wall-clock timing is not modelled: `setTimeout` delays, `requestAnimationFrame`, GSAP durations, staggers and the slideshow's 2.5 s autoplay interval.
  - Deferred steps are events the host may deliver in any order. This is a superset of the orders the delays allow.
  - The autoplay tick is `Next`.
- CardNav card entrance styles keep only visibility. Opacity and transform values are not modelled.
- Element lookups become flags: `hasBackdrop`, `hasThemeToggle`, `hasTrack` and indicator presence.
  - A card's `data-href` is a string, with "" standing for a missing attribute.
  - `document.querySelector(href)` becomes a map from selector to `offsetTop`. An invalid selector, which throws inside the timer, is treated like a missing element.
- The view-all modal's own writes to `body.style.overflow` are not modelled. The card-nav scroll-lock facts hold only for the card nav's writes.
- StackedPlanes.CreateStackedPlanesGeometry: `n` and `heightSegments` are natural numbers. Unsigned 32-bit wrap-around of the index buffer is not modelled; every index is proved below `numVertices`.
- StackedPlanes.FillPlanes: the source fills the three buffers in one loop over rows. The model runs one row loop per buffer for each plane, inside the single plane loop. The arrays are distinct and each write depends only on `i`, `j` and the offsets, so the final contents are the same; only the interleaving of writes across the three buffers differs.
- PageHelpers.ProductTabs.Click: the panel enter/exit classes, the double animation frame, the particle burst and the smooth scroll are not modelled. Tabs are identified by their `data-tab` name.
- PageHelpers.NavbarClasses: `scrollY` is a real number, not a double. The same holds for the carousel's touch `screenX`.
- CardNav.Initial: without GSAP, the script writes no initial panel height or card style. `initGSAP` returns before its `gsap.set` calls. The 60 px panel and hidden cards of the start state then come from the stylesheet, which is not part of this model.
- PageHelpers.ToggleTwiceRestores: `toggleTheme` writes the new theme after a 50 ms timeout. Two clicks within 50 ms both read the old theme, and the theme flips only once. The lemma is about the value flip alone.
- The hamburger, the `.card-nav` panel and the navbar are assumed to exist. The source does not check for them. Without a hamburger, `addEventListener` throws inside `initCardNav`, and the initialisers after it never run, including the slideshow and the carousels. Without a navbar, every scroll event throws. The model does not capture these failures.
- CardNav.Expand: when `innerHeight < 32`, `calculateHeight()` is negative, and the model stores that value as `panelHeight`. In the browser, the fallback's negative `style.height` is an invalid CSS length and is dropped, so the panel keeps its old height. The GSAP tween's clamping of a negative height is not modelled either.
- The preloader, counters, sparkles, grid, parallax, `localStorage` and `matchMedia` are not modelled. They are browser effects with no integer logic.

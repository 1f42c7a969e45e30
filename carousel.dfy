/**
 * The product variations carousel of js/main.js (initProductCarousels).
 *
 * One Carousel object per `[data-carousel]` element.  Its closure variables
 * (`currentIndex`, `cardsPerView`, `maxSlides`, `touchStartX`, `touchEndX`)
 * are fields; the DOM it writes is the `active` class of each indicator dot,
 * the `disabled` class of each navigation button and the track's translateX
 * offset.  Touch coordinates (`screenX`) are real numbers.  The viewport width and the carousel's offsetWidth are read at
 * the moment of each event and are parameters here.
 */
module ProductCarousel {

  // Viewports at most this wide show one card per slide, wider ones two.
  const SingleCardMaxWidth := 768
  // A swipe must travel strictly more than this many pixels.
  const SwipeThreshold: real := 50.0

  /** getCardsPerView. */
  function CardsPerView(innerWidth: int): (k: nat)
    ensures k == 1 || k == 2
    ensures k == 1 <==> innerWidth <= SingleCardMaxWidth
  {
    if innerWidth <= SingleCardMaxWidth then 1 else 2
  }

  /** Math.ceil(totalCards / cardsPerView): the fewest slides that hold every card. */
  function MaxSlides(totalCards: nat, perView: nat): (m: nat)
    requires perView == 1 || perView == 2
    ensures m * perView >= totalCards
    ensures m > 0 ==> (m - 1) * perView < totalCards
    ensures m == 0 <==> totalCards == 0
  {
    (totalCards + perView - 1) / perView
  }

  /** The largest index a slide can have; 0 when there are no slides (maxSlides - 1 is then -1). */
  function LastIndex(maxSlides: int): nat
  {
    if maxSlides > 0 then maxSlides - 1 else 0
  }

  /** goToSlide's clamp: Math.max(0, Math.min(index, maxSlides - 1)). */
  function ClampIndex(index: int, maxSlides: int): (r: int)
    ensures 0 <= r <= LastIndex(maxSlides)
    ensures 0 <= index < maxSlides ==> r == index
    ensures index < 0 ==> r == 0
    ensures index >= maxSlides ==> r == LastIndex(maxSlides)
  {
    var upper := if index < maxSlides - 1 then index else maxSlides - 1;
    if 0 < upper then upper else 0
  }

  /** One step towards the end, as the next button, ArrowRight and a left swipe do. */
  function Forward(index: int, maxSlides: int): (r: int)
    ensures r == index || r == index + 1
    ensures r == index <==> index >= maxSlides - 1
  {
    if index < maxSlides - 1 then index + 1 else index
  }

  /** One step towards the start, as the prev button, ArrowLeft and a right swipe do. */
  function Backward(index: int): (r: int)
    ensures r == index || r == index - 1
    ensures r == index <==> index <= 0
  {
    if index > 0 then index - 1 else index
  }

  /** Forward and Backward keep an index in range, move it by exactly one when
      they can, and undo each other away from the ends. */
  lemma StepsStayInRange(index: int, maxSlides: int)
    requires 0 <= index <= LastIndex(maxSlides)
    ensures 0 <= Forward(index, maxSlides) <= LastIndex(maxSlides)
    ensures 0 <= Backward(index) <= LastIndex(maxSlides)
    ensures Forward(index, maxSlides) == index <==> index == LastIndex(maxSlides)
    ensures Backward(index) == index <==> index == 0
    ensures index < LastIndex(maxSlides) ==> Backward(Forward(index, maxSlides)) == index
    ensures index > 0 ==> Forward(Backward(index), maxSlides) == index
  {
  }

  /** What a touch gesture from startX to endX does to the index (handleSwipe):
      a step forward for a leftward swipe past the threshold, a step back for
      a rightward one, nothing otherwise. */
  function SwipeIndex(startX: real, endX: real, index: int, maxSlides: int): (r: int)
    ensures startX - endX > SwipeThreshold ==> r == Forward(index, maxSlides)
    ensures endX - startX > SwipeThreshold ==> r == Backward(index)
    ensures -SwipeThreshold <= startX - endX <= SwipeThreshold ==> r == index
  {
    if startX - endX > SwipeThreshold && index < maxSlides - 1 then index + 1
    else if endX - startX > SwipeThreshold && index > 0 then index - 1
    else index
  }

  /** A swipe moves by one slide in the direction of travel, only past the
      threshold, and never leaves the range. */
  lemma SwipeMovesByOne(startX: real, endX: real, index: int, maxSlides: int)
    requires 0 <= index <= LastIndex(maxSlides)
    ensures var r := SwipeIndex(startX, endX, index, maxSlides);
      && 0 <= r <= LastIndex(maxSlides)
      && (startX - endX > SwipeThreshold ==> r == Forward(index, maxSlides))
      && (endX - startX > SwipeThreshold ==> r == Backward(index))
      && (-SwipeThreshold <= startX - endX <= SwipeThreshold ==> r == index)
      && (startX - endX == 50.5 && index < LastIndex(maxSlides) ==> r == index + 1)
  {
  }

  datatype NavDirection = Prev | Next | Other

  /** The `disabled` class updateCarousel gives a button: prev buttons at the
      first slide, every other button at the last.  With at least one slide
      and the index in range, a prev or next button is disabled exactly when
      its click would leave the index where it is. */
  function ButtonDisabled(d: NavDirection, index: int, maxSlides: int): (disabled: bool)
    ensures 0 <= index < maxSlides && d == Prev ==> (disabled <==> Backward(index) == index)
    ensures 0 <= index < maxSlides && d == Next ==> (disabled <==> Forward(index, maxSlides) == index)
  {
    if d == Prev then index == 0 else index == maxSlides - 1
  }

  /** The dots after createIndicators: one per slide, the first one active. */
  function FreshDots(count: nat): (dots: seq<bool>)
    ensures |dots| == count
    ensures forall k :: 0 <= k < count ==> dots[k] == (k == 0)
  {
    seq(count, k => k == 0)
  }

  class Carousel {
    const totalCards: nat
    const hasIndicators: bool
    const buttons: seq<NavDirection>
    var cardsPerView: nat
    var maxSlides: int
    var currentIndex: int
    var dots: seq<bool>
    var buttonDisabled: seq<bool>
    var offset: int
    var touchStartX: real
    var touchEndX: real

    /** The carousel's invariant: the slide count matches the cards per view,
        the index is in range, exactly the dot at the index is active and
        every button's flag matches the index. */
    ghost predicate Valid()
      reads this
    {
      && (cardsPerView == 1 || cardsPerView == 2)
      && maxSlides == MaxSlides(totalCards, cardsPerView)
      && 0 <= currentIndex <= LastIndex(maxSlides)
      && |dots| == (if hasIndicators then maxSlides else 0)
      && (forall k :: 0 <= k < |dots| ==> dots[k] == (k == currentIndex))
      && |buttonDisabled| == |buttons|
      && (forall k :: 0 <= k < |buttons| ==>
            buttonDisabled[k] == ButtonDisabled(buttons[k], currentIndex, maxSlides))
    }

    /** The per-carousel part of initProductCarousels: build the dots and run updateCarousel once. */
    constructor (totalCards: nat, hasIndicators: bool, buttons: seq<NavDirection>,
                 innerWidth: int, containerWidth: int)
      ensures Valid()
      ensures this.totalCards == totalCards && this.hasIndicators == hasIndicators
      ensures this.buttons == buttons
      ensures cardsPerView == CardsPerView(innerWidth) && currentIndex == 0
      ensures offset == 0 && touchStartX == 0.0 && touchEndX == 0.0
    {
      this.totalCards := totalCards;
      this.hasIndicators := hasIndicators;
      this.buttons := buttons;
      currentIndex := 0;
      cardsPerView := CardsPerView(innerWidth);
      maxSlides := MaxSlides(totalCards, CardsPerView(innerWidth));
      touchStartX := 0.0;
      touchEndX := 0.0;
      dots := [];
      buttonDisabled := seq(|buttons|, _ => false);
      offset := 0;
      new;
      CreateIndicators();
      UpdateCarousel(containerWidth);
    }

    /** createIndicators: replace the dots by one per slide, the first active. */
    method CreateIndicators()
      requires cardsPerView == 1 || cardsPerView == 2
      modifies this`dots, this`maxSlides
      ensures hasIndicators ==> maxSlides == MaxSlides(totalCards, cardsPerView) && dots == FreshDots(maxSlides)
      ensures !hasIndicators ==> maxSlides == old(maxSlides) && dots == old(dots)
    {
      if hasIndicators {
        maxSlides := MaxSlides(totalCards, cardsPerView);
        var created: seq<bool> := [];
        var i := 0;
        while i < maxSlides
          invariant 0 <= i <= maxSlides
          invariant created == FreshDots(i)
        {
          created := created + [i == 0];
          i := i + 1;
        }
        dots := created;
      }
    }

    /** updateCarousel: derive the offset, the dots, the slide count and the
        button flags from the index. */
    method UpdateCarousel(containerWidth: int)
      requires cardsPerView == 1 || cardsPerView == 2
      requires 0 <= currentIndex <= LastIndex(MaxSlides(totalCards, cardsPerView))
      requires |dots| == (if hasIndicators then MaxSlides(totalCards, cardsPerView) else 0)
      requires |buttonDisabled| == |buttons|
      modifies this`offset, this`dots, this`maxSlides, this`buttonDisabled
      ensures Valid()
      ensures offset == -currentIndex * containerWidth
    {
      offset := -currentIndex * containerWidth;
      var k := 0;
      while k < |dots|
        invariant 0 <= k <= |dots| == old(|dots|)
        invariant forall j :: 0 <= j < k ==> dots[j] == (j == currentIndex)
        modifies this`dots
      {
        dots := dots[k := k == currentIndex];
        k := k + 1;
      }
      maxSlides := MaxSlides(totalCards, cardsPerView);
      var b := 0;
      while b < |buttons|
        invariant 0 <= b <= |buttons| == |buttonDisabled|
        invariant forall j :: 0 <= j < b ==>
          buttonDisabled[j] == ButtonDisabled(buttons[j], currentIndex, maxSlides)
        modifies this`buttonDisabled
      {
        buttonDisabled := buttonDisabled[b := ButtonDisabled(buttons[b], currentIndex, maxSlides)];
        b := b + 1;
      }
    }

    /** goToSlide, as a dot click calls it. */
    method GoToSlide(index: int, containerWidth: int)
      requires Valid()
      modifies this
      ensures Valid()
      ensures currentIndex == ClampIndex(index, maxSlides)
      ensures cardsPerView == old(cardsPerView)
      ensures touchStartX == old(touchStartX) && touchEndX == old(touchEndX)
      ensures offset == -currentIndex * containerWidth
    {
      currentIndex := ClampIndex(index, maxSlides);
      UpdateCarousel(containerWidth);
    }

    /** A dot's click handler: dot i calls goToSlide(i). */
    method DotClicked(dot: nat, containerWidth: int)
      requires Valid() && dot < |dots|
      modifies this
      ensures Valid()
      ensures currentIndex == dot && offset == -currentIndex * containerWidth
      ensures dots[dot] && forall k :: 0 <= k < |dots| && k != dot ==> !dots[k]
      ensures cardsPerView == old(cardsPerView)
      ensures touchStartX == old(touchStartX) && touchEndX == old(touchEndX)
    {
      GoToSlide(dot, containerWidth);
    }

    /** A navigation button's click handler. */
    method ButtonClicked(button: nat, containerWidth: int)
      requires Valid() && button < |buttons|
      modifies this
      ensures Valid()
      ensures buttons[button] == Next ==> currentIndex == Forward(old(currentIndex), maxSlides)
      ensures buttons[button] == Prev ==> currentIndex == Backward(old(currentIndex))
      ensures buttons[button] == Other ==> currentIndex == old(currentIndex)
      ensures cardsPerView == old(cardsPerView)
      ensures touchStartX == old(touchStartX) && touchEndX == old(touchEndX)
      ensures offset == -currentIndex * containerWidth
    {
      var direction := buttons[button];
      if direction == Next && currentIndex < maxSlides - 1 {
        currentIndex := currentIndex + 1;
      } else if direction == Prev && currentIndex > 0 {
        currentIndex := currentIndex - 1;
      }
      UpdateCarousel(containerWidth);
    }

    /** The keydown handler: arrows move by one; other keys leave everything as it is. */
    method KeyDown(key: string, containerWidth: int)
      requires Valid()
      modifies this
      ensures Valid()
      ensures key == "ArrowLeft" ==> currentIndex == Backward(old(currentIndex))
      ensures key == "ArrowRight" ==> currentIndex == Forward(old(currentIndex), maxSlides)
      ensures currentIndex != old(currentIndex) ==> offset == -currentIndex * containerWidth
      ensures currentIndex == old(currentIndex) ==> unchanged(this)
      ensures cardsPerView == old(cardsPerView)
      ensures touchStartX == old(touchStartX) && touchEndX == old(touchEndX)
    {
      if key == "ArrowLeft" && currentIndex > 0 {
        currentIndex := currentIndex - 1;
        UpdateCarousel(containerWidth);
      } else if key == "ArrowRight" && currentIndex < maxSlides - 1 {
        currentIndex := currentIndex + 1;
        UpdateCarousel(containerWidth);
      }
    }

    /** touchstart records where the finger went down. */
    method TouchStart(screenX: real)
      requires Valid()
      modifies this`touchStartX
      ensures Valid() && touchStartX == screenX
    {
      touchStartX := screenX;
    }

    /** touchend records where the finger left and runs handleSwipe against
        the recorded start; a swipe that does not move leaves the view alone. */
    method TouchEnd(screenX: real, containerWidth: int)
      requires Valid()
      modifies this
      ensures Valid()
      ensures touchEndX == screenX
      ensures currentIndex == SwipeIndex(old(touchStartX), screenX, old(currentIndex), maxSlides)
      ensures currentIndex != old(currentIndex) ==> offset == -currentIndex * containerWidth
      ensures currentIndex == old(currentIndex) ==>
        && offset == old(offset) && dots == old(dots)
        && buttonDisabled == old(buttonDisabled) && maxSlides == old(maxSlides)
      ensures cardsPerView == old(cardsPerView) && touchStartX == old(touchStartX)
    {
      touchEndX := screenX;
      if touchStartX - touchEndX > SwipeThreshold && currentIndex < maxSlides - 1 {
        currentIndex := currentIndex + 1;
        UpdateCarousel(containerWidth);
      } else if touchEndX - touchStartX > SwipeThreshold && currentIndex > 0 {
        currentIndex := currentIndex - 1;
        UpdateCarousel(containerWidth);
      }
    }

    /** The resize handler: a change in cards per view rebuilds the dots and
        returns to the first slide; otherwise nothing changes. */
    method Resized(innerWidth: int, containerWidth: int)
      requires Valid()
      modifies this
      ensures Valid()
      ensures cardsPerView == CardsPerView(innerWidth)
      ensures old(cardsPerView) != cardsPerView ==> currentIndex == 0 && offset == 0
      ensures touchStartX == old(touchStartX) && touchEndX == old(touchEndX)
      ensures old(cardsPerView) == cardsPerView ==> unchanged(this)
    {
      var perView := CardsPerView(innerWidth);
      if perView != cardsPerView {
        cardsPerView := perView;
        currentIndex := 0;
        CreateIndicators();
        UpdateCarousel(containerWidth);
      }
    }
  }
}

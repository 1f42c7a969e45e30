/**
 * The product image slideshow of js/main.js (initProductImageHoverSlideshow).
 *
 * The track holds the original slides followed by a clone of the first, so
 * slot `originalCount` shows the same picture as slot 0.  The closure
 * variables `index` and `animating` are fields; the track's transform
 * translateX(-index * 100%) is kept as the percentage `shift`.  The autoplay
 * interval, `transitionend` and the double requestAnimationFrame are events
 * the host delivers: a scheduled frame callback is counted in
 * `pendingAdvances` until it runs.
 */
module HoverSlideshow {
  import opened Options

  class Slideshow {
    const originalCount: nat
    var index: nat
    var animating: bool
    var shift: int
    var pendingAdvances: nat

    /** The slideshow's invariant: the index never passes the clone, it rests
        on the clone only while a transition is running, and the transform
        shows the slide at the index. */
    ghost predicate Valid()
      reads this
    {
      && originalCount >= 2
      && index <= originalCount
      && (index == originalCount ==> animating)
      && shift == index * 100
    }

    /** The picture the track shows: slide `index`, or slide 0 on the clone. */
    function Shown(): nat
      reads this
      requires Valid()
    {
      ShownSlide(index, originalCount)
    }

    /** Setup for one `.product-images[data-slideshow]` element: nothing is
        installed without a track or with fewer than two slides; otherwise the
        clone is appended and the track starts on slide 0. */
    static method Setup(hasTrack: bool, slideCount: nat) returns (r: Option<Slideshow>)
      ensures r.None? <==> !hasTrack || slideCount <= 1
      ensures r.Some? ==> var s := r.value;
        && fresh(s) && s.Valid() && s.originalCount == slideCount
        && s.index == 0 && !s.animating && s.pendingAdvances == 0
    {
      if !hasTrack || slideCount <= 1 {
        return None;
      }
      var s := new Slideshow(slideCount);
      return Some(s);
    }

    constructor (originalCount: nat)
      requires originalCount >= 2
      ensures Valid()
      ensures this.originalCount == originalCount
      ensures index == 0 && !animating && pendingAdvances == 0
    {
      this.originalCount := originalCount;
      index := 0;
      animating := false;
      pendingAdvances := 0;
      shift := 0;
    }

    /** goTo: move the track to slot i (with or without a transition; the
        transition setting is restored either way). */
    method GoTo(i: nat)
      modifies this`index, this`shift
      ensures index == i && shift == i * 100
    {
      index := i;
      shift := index * 100;
    }

    /** next: advance one slot unless a transition is running; the autoplay
        interval and ArrowRight both call it. */
    method Next()
      requires Valid()
      modifies this
      ensures Valid()
      ensures old(animating) ==> unchanged(this)
      ensures !old(animating) ==> index == old(index) + 1 && animating
      ensures !old(animating) ==> Shown() == (old(Shown()) + 1) % originalCount
      ensures pendingAdvances == old(pendingAdvances)
    {
      if animating { return; }
      animating := true;
      GoTo(index + 1);
    }

    /** The keydown handler. */
    method KeyDown(key: string)
      requires Valid()
      modifies this
      ensures Valid()
      ensures key == "ArrowRight" ==>
        if old(animating) then unchanged(this)
        else index == old(index) + 1 && animating && pendingAdvances == old(pendingAdvances)
      ensures key == "ArrowLeft" && old(animating) ==> unchanged(this)
      ensures key == "ArrowLeft" && !old(animating) && old(index) == 0 ==>
        index == originalCount - 1 && !animating && pendingAdvances == old(pendingAdvances) + 1
      ensures key == "ArrowLeft" && !old(animating) && old(index) > 0 ==>
        index == old(index) - 1 && !animating && pendingAdvances == old(pendingAdvances)
      ensures key == "ArrowRight" && !old(animating) ==> Shown() == (old(Shown()) + 1) % originalCount
      ensures key == "ArrowLeft" && !old(animating) ==>
        Shown() == (old(Shown()) + originalCount - 1) % originalCount
      ensures key != "ArrowRight" && key != "ArrowLeft" ==> unchanged(this)
    {
      if key == "ArrowRight" {
        if animating { return; }
        Next();
      } else if key == "ArrowLeft" {
        if animating { return; }
        if index == 0 {
          // jump to the last real slide, then animate onto the clone two frames later
          GoTo(originalCount - 1);
          pendingAdvances := pendingAdvances + 1;
        } else {
          GoTo(index - 1);
        }
      }
    }

    /** The double requestAnimationFrame scheduled by ArrowLeft at slot 0 runs next(). */
    method FrameAdvance()
      requires Valid() && pendingAdvances > 0
      modifies this
      ensures Valid()
      ensures pendingAdvances == old(pendingAdvances) - 1
      ensures old(animating) ==> index == old(index) && animating
      ensures !old(animating) ==> index == old(index) + 1 && animating
      ensures !old(animating) ==> Shown() == (old(Shown()) + 1) % originalCount
    {
      pendingAdvances := pendingAdvances - 1;
      Next();
    }

    /** transitionend: on the clone, snap back to slot 0 without a transition;
        in every case the transition is over. */
    method TransitionEnd()
      requires Valid()
      modifies this
      ensures Valid()
      ensures !animating && pendingAdvances == old(pendingAdvances)
      ensures old(index) == originalCount ==> index == 0 && shift == 0
      ensures old(index) < originalCount ==> index == old(index) && shift == old(shift)
      ensures Shown() == old(Shown())
    {
      if index == originalCount {
        shift := 0;
        index := 0;
      }
      animating := false;
    }
  }

  /** The picture a slot shows: the slots run through the slides round the
      cycle, so the clone slot after the last slide shows the first. */
  function ShownSlide(slot: nat, originalCount: nat): (slide: nat)
    requires originalCount >= 1 && slot <= originalCount
    ensures slide == slot % originalCount
  {
    if slot == originalCount then 0 else slot
  }
}

/**
 * The image slider (`ImageSlider`): three fixed images, the index of the one shown, and a
 * lightbox with its own copy of an index. An interval advances the slide every five
 * seconds (here the event `AutoplayTick`); a horizontal drag flips slides once it is fast
 * or long enough; dots select a slide; clicking the image opens the lightbox.
 * Drag offsets and velocities are floating point in the browser and integers here.
 */
module ImageSlider {
  import Cyclic

  datatype SlideImage = SlideImage(url: string, title: string, description: string)

  const Images: seq<SlideImage> := [
    SlideImage("https://images.pexels.com/photos/8386440/pexels-photo-8386440.jpeg",
      "AI Innovation Lab", "Where future technologies come to life"),
    SlideImage("https://images.pexels.com/photos/8386434/pexels-photo-8386434.jpeg",
      "Digital Transformation", "Reshaping the digital landscape"),
    SlideImage("https://images.pexels.com/photos/8386422/pexels-photo-8386422.jpeg",
      "Future Solutions", "Building tomorrow's technology today")
  ]

  /** A drag flips a slide when its speed exceeds this, in pixels per second... */
  const VelocityThreshold: int := 500
  /** ...or when it travelled further than this, in pixels. */
  const OffsetThreshold: int := 100

  function Abs(x: int): nat {
    if x < 0 then -x else x
  }

  datatype Swipe = Stay | Forward | Back

  /**
   * `handleDragEnd`'s rule: a drag that is neither fast nor long does nothing; a
   * qualifying drag to the left (negative offset) moves forward, any other qualifying drag,
   * including a zero offset, moves back.
   */
  function SwipeOf(offsetX: int, velocityX: int): (s: Swipe)
    ensures s == Stay <==> Abs(velocityX) <= VelocityThreshold && Abs(offsetX) <= OffsetThreshold
    ensures s == Forward <==> (Abs(velocityX) > VelocityThreshold || Abs(offsetX) > OffsetThreshold) && offsetX < 0
    ensures s == Back <==> (Abs(velocityX) > VelocityThreshold || Abs(offsetX) > OffsetThreshold) && offsetX >= 0
  {
    if Abs(velocityX) > VelocityThreshold || Abs(offsetX) > OffsetThreshold then
      if offsetX < 0 then Forward else Back
    else Stay
  }

  /** The slide shown after a swipe. */
  function AfterSwipe(i: nat, s: Swipe): (r: nat)
    requires i < |Images|
    ensures r < |Images|
  {
    match s
    case Stay => i
    case Forward => Cyclic.Next(i, |Images|)
    case Back => Cyclic.Previous(i, |Images|)
  }

  /** A qualifying drag to the left followed by its mirror image to the right shows the original slide again. */
  lemma MirroredSwipesCancel(i: nat, offsetX: int, velocityX: int)
    requires i < |Images| && offsetX < 0
    requires SwipeOf(offsetX, velocityX) != Stay
    ensures SwipeOf(-offsetX, velocityX) == Back
    ensures AfterSwipe(AfterSwipe(i, SwipeOf(offsetX, velocityX)), SwipeOf(-offsetX, velocityX)) == i
  {
    Cyclic.NextPreviousInverse(i, |Images|);
  }

  class Slider {
    var currentIndex: nat
    var showLightbox: bool
    var lightboxIndex: nat

    ghost predicate Valid()
      reads this
    {
      currentIndex < |Images| && lightboxIndex < |Images|
    }

    constructor ()
      ensures Valid() && currentIndex == 0 && !showLightbox && lightboxIndex == 0
    {
      currentIndex := 0;
      showLightbox := false;
      lightboxIndex := 0;
    }

    /** The five-second interval fires: the next slide, wrapping from the last to the first; the lightbox is untouched. */
    method AutoplayTick()
      requires Valid()
      modifies this
      ensures Valid()
      ensures currentIndex == Cyclic.Next(old(currentIndex), |Images|)
      ensures showLightbox == old(showLightbox) && lightboxIndex == old(lightboxIndex)
    {
      currentIndex := (currentIndex + 1) % |Images|;
    }

    /** `handleDragEnd` with the drag's horizontal offset and velocity. */
    method DragEnd(offsetX: int, velocityX: int)
      requires Valid()
      modifies this
      ensures Valid()
      ensures currentIndex == AfterSwipe(old(currentIndex), SwipeOf(offsetX, velocityX))
      ensures showLightbox == old(showLightbox) && lightboxIndex == old(lightboxIndex)
    {
      var swipe := offsetX;
      if Abs(velocityX) > VelocityThreshold || Abs(swipe) > OffsetThreshold {
        if swipe < 0 {
          currentIndex := (currentIndex + 1) % |Images|;
        } else {
          currentIndex := (currentIndex - 1 + |Images|) % |Images|;
        }
      }
    }

    /** Navigation dot `index`. */
    method SelectDot(index: nat)
      requires Valid() && index < |Images|
      modifies this
      ensures Valid()
      ensures currentIndex == index
      ensures showLightbox == old(showLightbox) && lightboxIndex == old(lightboxIndex)
    {
      currentIndex := index;
    }

    /** Clicking the image: the lightbox opens on a copy of the current slide. */
    method OpenLightbox()
      requires Valid()
      modifies this
      ensures Valid()
      ensures showLightbox && lightboxIndex == currentIndex
      ensures currentIndex == old(currentIndex)
    {
      lightboxIndex := currentIndex;
      showLightbox := true;
    }

    /** The lightbox backdrop or its close button: the lightbox hides; both indices stay. */
    method CloseLightbox()
      requires Valid()
      modifies this
      ensures Valid()
      ensures !showLightbox
      ensures currentIndex == old(currentIndex) && lightboxIndex == old(lightboxIndex)
    {
      showLightbox := false;
    }

    /** The dots drawn as current: always exactly the one at `currentIndex`. */
    function ActiveDots(): (s: set<nat>)
      requires Valid()
      reads this
      ensures s == {currentIndex} && |s| == 1
    {
      Cyclic.ExactlyOneHighlighted(currentIndex, |Images|);
      Cyclic.Highlighted(currentIndex, |Images|)
    }
  }
}

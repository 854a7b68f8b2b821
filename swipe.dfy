/** Touch swiping on the carousel (script.js): a touch start records the
    start point, a mostly horizontal move beyond 10 pixels marks the
    gesture as a swipe, and on touch end a swipe longer than 30 pixels
    horizontally and shorter than 100 vertically moves the carousel one
    slide (right = previous, left = next) and is logged. */
module Swipe {
  import opened Numbers
  import opened Analytics
  import opened Wrap
  import opened Carousel

  const MoveThreshold: int := 10
  const SwipeThreshold: int := 30
  const MaxVerticalDistance: int := 100

  /** `deltaX > deltaY && deltaX > 10` in `handleTouchMove`. */
  predicate StartsSwipe(startX: int, startY: int, x: int, y: int)
    ensures StartsSwipe(startX, startY, x, y) <==>
      (x - startX > 10 || startX - x > 10) &&
      (startX - x < y - startY < x - startX || x - startX < y - startY < startX - x)
  {
    Abs(x - startX) > Abs(y - startY) && Abs(x - startX) > MoveThreshold
  }

  datatype SwipeAction = NoSwipe | SwipeRight(distance: nat) | SwipeLeft(distance: nat)

  /** The decision of `handleSwipe`. */
  function ClassifySwipe(startX: int, startY: int, endX: int, endY: int): (r: SwipeAction)
    ensures r != NoSwipe ==> r.distance > SwipeThreshold
  {
    var swipeDistance := endX - startX;
    var verticalDistance := Abs(endY - startY);
    if Abs(swipeDistance) > SwipeThreshold && verticalDistance < MaxVerticalDistance then
      if swipeDistance > 0 then SwipeRight(Abs(swipeDistance)) else SwipeLeft(Abs(swipeDistance))
    else NoSwipe
  }

  /** The gesture acts exactly when it is long enough horizontally and short
      enough vertically; rightward gestures go back, leftward ones forward,
      and the distance logged is the horizontal length. */
  lemma ClassifySwipeSpec(startX: int, startY: int, endX: int, endY: int)
    ensures var r := ClassifySwipe(startX, startY, endX, endY);
      (r != NoSwipe <==> (endX - startX > 30 || startX - endX > 30) && -100 < endY - startY < 100) &&
      (r.SwipeRight? <==> endX - startX > 30 && -100 < endY - startY < 100) &&
      (r.SwipeLeft? <==> startX - endX > 30 && -100 < endY - startY < 100) &&
      (r.SwipeRight? ==> r.distance == endX - startX) &&
      (r.SwipeLeft? ==> r.distance == startX - endX)
  {
  }

  /** Mirroring a gesture left to right swaps the two directions and keeps
      the distance. */
  lemma ClassifySwipeMirror(startX: int, startY: int, endX: int, endY: int)
    ensures var r, m := ClassifySwipe(startX, startY, endX, endY), ClassifySwipe(-startX, startY, -endX, endY);
      (r == NoSwipe <==> m == NoSwipe) &&
      (r.SwipeRight? ==> m == SwipeLeft(r.distance)) &&
      (r.SwipeLeft? ==> m == SwipeRight(r.distance))
  {
  }

  /** Moving the start or end point vertically never turns a swipe into
      the other direction: the direction depends on x alone. */
  lemma ClassifySwipeDirectionFromX(startX: int, startY: int, endX: int, endY: int, y1: int, y2: int)
    requires ClassifySwipe(startX, startY, endX, endY) != NoSwipe
    requires ClassifySwipe(startX, y1, endX, y2) != NoSwipe
    ensures ClassifySwipe(startX, startY, endX, endY) == ClassifySwipe(startX, y1, endX, y2)
  {
  }

  function Direction(a: SwipeAction): string
    requires a != NoSwipe
  {
    if a.SwipeRight? then "right" else "left"
  }

  /** What a classified gesture does: nothing for `NoSwipe`; otherwise
      one carousel step (previous for a rightward swipe, next for a
      leftward one) with its two log records, then carousel_swipe. */
  twostate predicate SwipeApplied(carousel: CarouselState, log: WebsiteAnalytics, action: SwipeAction, at: string)
    requires action != NoSwipe ==> carousel.totalSlides > 0
    reads carousel, log
    ensures SwipeApplied(carousel, log, action, at) && action != NoSwipe && old(carousel.currentSlideIndex) >= -1 ==>
      InRange(carousel.currentSlideIndex, carousel.totalSlides)
  {
    var from := old(carousel.currentSlideIndex);
    match action
    case NoSwipe =>
      carousel.currentSlideIndex == from && log.State() == old(log.State())
    case SwipeRight(d) =>
      carousel.currentSlideIndex == PrevIndex(from, carousel.totalSlides) &&
      log.State() == LoggedAll(old(log.State()),
        [CarouselSlideViewed(carousel.currentSlideIndex, at),
         CarouselPrevClicked(from, carousel.currentSlideIndex, at),
         CarouselSwipe("right", d, at)])
    case SwipeLeft(d) =>
      carousel.currentSlideIndex == NextIndex(from, carousel.totalSlides) &&
      log.State() == LoggedAll(old(log.State()),
        [CarouselSlideViewed(carousel.currentSlideIndex, at),
         CarouselNextClicked(from, carousel.currentSlideIndex, at),
         CarouselSwipe("left", d, at)])
  }

  /** The touch state of script.js (`touchStartX/Y`, `touchEndX/Y`,
      `isSwiping`). Coordinates are whole pixels. */
  class TouchState {
    var touchStartX: int
    var touchStartY: int
    var touchEndX: int
    var touchEndY: int
    var isSwiping: bool

    constructor ()
      ensures touchStartX == 0 && touchStartY == 0 && touchEndX == 0 && touchEndY == 0
      ensures !isSwiping
    {
      touchStartX, touchStartY, touchEndX, touchEndY := 0, 0, 0, 0;
      isSwiping := false;
    }

    /** `handleTouchStart`. */
    method HandleTouchStart(x: int, y: int)
      modifies this
      ensures touchStartX == x && touchStartY == y && !isSwiping
      ensures touchEndX == old(touchEndX) && touchEndY == old(touchEndY)
    {
      touchStartX := x;
      touchStartY := y;
      isSwiping := false;
    }

    /** `handleTouchMove`: mark the gesture as a swipe once it is mostly
        horizontal and longer than 10 pixels; it is never unmarked here. */
    method HandleTouchMove(x: int, y: int)
      modifies this
      ensures isSwiping == (old(isSwiping) || StartsSwipe(touchStartX, touchStartY, x, y))
      ensures touchStartX == old(touchStartX) && touchStartY == old(touchStartY)
      ensures touchEndX == old(touchEndX) && touchEndY == old(touchEndY)
    {
      var deltaX := Abs(x - touchStartX);
      var deltaY := Abs(y - touchStartY);
      if deltaX > deltaY && deltaX > MoveThreshold {
        isSwiping := true;
      }
    }

    /** `handleTouchEnd` with `handleSwipe`: nothing at all unless the
        gesture was marked; otherwise record the end point and, for a
        recognised swipe, move the carousel and log carousel_swipe after
        the slide events. */
    method HandleTouchEnd(x: int, y: int, carousel: CarouselState, log: WebsiteAnalytics, at: string)
      requires isSwiping && ClassifySwipe(touchStartX, touchStartY, x, y) != NoSwipe ==> carousel.totalSlides > 0
      requires log.Valid()
      modifies this, carousel, log
      ensures log.Valid()
      ensures !old(isSwiping) ==> unchanged(this, carousel, log)
      ensures old(isSwiping) ==>
        touchEndX == x && touchEndY == y && isSwiping &&
        touchStartX == old(touchStartX) && touchStartY == old(touchStartY)
      ensures old(isSwiping) ==> SwipeApplied(carousel, log, ClassifySwipe(touchStartX, touchStartY, x, y), at)
    {
      if !isSwiping {
        return;
      }
      touchEndX := x;
      touchEndY := y;
      HandleSwipe(carousel, log, at);
    }

    /** `handleSwipe`. */
    method HandleSwipe(carousel: CarouselState, log: WebsiteAnalytics, at: string)
      requires ClassifySwipe(touchStartX, touchStartY, touchEndX, touchEndY) != NoSwipe ==> carousel.totalSlides > 0
      requires log.Valid()
      modifies carousel, log
      ensures log.Valid()
      ensures SwipeApplied(carousel, log, ClassifySwipe(touchStartX, touchStartY, touchEndX, touchEndY), at)
    {
      var action := ClassifySwipe(touchStartX, touchStartY, touchEndX, touchEndY);
      if action != NoSwipe {
        ghost var before := log.State();
        ghost var from := carousel.currentSlideIndex;
        if action.SwipeRight? {
          carousel.PrevSlide(log, at);
        } else {
          carousel.NextSlide(log, at);
        }
        ghost var moved := if action.SwipeRight?
          then CarouselPrevClicked(from, carousel.currentSlideIndex, at)
          else CarouselNextClicked(from, carousel.currentSlideIndex, at);
        LoggedTwice(before, CarouselSlideViewed(carousel.currentSlideIndex, at), moved);
        log.LogInteraction(CarouselSwipe(Direction(action), action.distance, at));
        LoggedThrice(before, CarouselSlideViewed(carousel.currentSlideIndex, at), moved,
                     CarouselSwipe(Direction(action), action.distance, at));
      }
    }
  }
}

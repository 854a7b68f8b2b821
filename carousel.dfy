/** The image carousel of script.js: one current slide index over a fixed
    number of slides, moved by next / previous with wraparound and set
    directly (without a bounds check) by the indicator dots. Every move
    logs the slide shown and the move itself. */
module Carousel {
  import opened Analytics
  import opened Wrap

  class CarouselState {
    /** `slides.length`, fixed when the script loads. */
    const totalSlides: nat
    var currentSlideIndex: int

    constructor (totalSlides: nat)
      ensures this.totalSlides == totalSlides && currentSlideIndex == 0
    {
      this.totalSlides := totalSlides;
      currentSlideIndex := 0;
    }

    /** `showSlide(index)`: highlight a slide (absent from the model) and
        log carousel_slide_viewed. */
    method ShowSlide(index: int, log: WebsiteAnalytics, at: string)
      requires log.Valid()
      modifies log
      ensures log.Valid()
      ensures log.State() == Logged(old(log.State()), CarouselSlideViewed(index, at))
    {
      log.LogInteraction(CarouselSlideViewed(index, at));
    }

    /** `nextSlide()`. */
    method NextSlide(log: WebsiteAnalytics, at: string)
      requires totalSlides > 0 && log.Valid()
      modifies this, log
      ensures log.Valid()
      ensures currentSlideIndex == NextIndex(old(currentSlideIndex), totalSlides)
      ensures log.State() == LoggedAll(old(log.State()),
        [CarouselSlideViewed(currentSlideIndex, at),
         CarouselNextClicked(old(currentSlideIndex), currentSlideIndex, at)])
    {
      var prevIndex := currentSlideIndex;
      currentSlideIndex := NextIndex(currentSlideIndex, totalSlides);
      ShowSlide(currentSlideIndex, log, at);
      log.LogInteraction(CarouselNextClicked(prevIndex, currentSlideIndex, at));
      LoggedTwice(old(log.State()), CarouselSlideViewed(currentSlideIndex, at),
                  CarouselNextClicked(prevIndex, currentSlideIndex, at));
    }

    /** `prevSlide()`. */
    method PrevSlide(log: WebsiteAnalytics, at: string)
      requires totalSlides > 0 && log.Valid()
      modifies this, log
      ensures log.Valid()
      ensures currentSlideIndex == PrevIndex(old(currentSlideIndex), totalSlides)
      ensures log.State() == LoggedAll(old(log.State()),
        [CarouselSlideViewed(currentSlideIndex, at),
         CarouselPrevClicked(old(currentSlideIndex), currentSlideIndex, at)])
    {
      var prevIndex := currentSlideIndex;
      currentSlideIndex := PrevIndex(currentSlideIndex, totalSlides);
      ShowSlide(currentSlideIndex, log, at);
      log.LogInteraction(CarouselPrevClicked(prevIndex, currentSlideIndex, at));
      LoggedTwice(old(log.State()), CarouselSlideViewed(currentSlideIndex, at),
                  CarouselPrevClicked(prevIndex, currentSlideIndex, at));
    }

    /** `currentSlide(index)`: jump to the 1-based `index`. Nothing checks
        it, so the index can leave 0..totalSlides-1 (see
        `JumpCanLeaveRange`). */
    method CurrentSlide(index: int, log: WebsiteAnalytics, at: string)
      requires log.Valid()
      modifies this, log
      ensures log.Valid()
      ensures currentSlideIndex == index - 1
      ensures log.State() == LoggedAll(old(log.State()),
        [CarouselSlideViewed(currentSlideIndex, at),
         CarouselIndicatorClicked(old(currentSlideIndex), currentSlideIndex, at)])
    {
      var prevIndex := currentSlideIndex;
      currentSlideIndex := index - 1;
      ShowSlide(currentSlideIndex, log, at);
      log.LogInteraction(CarouselIndicatorClicked(prevIndex, currentSlideIndex, at));
      LoggedTwice(old(log.State()), CarouselSlideViewed(currentSlideIndex, at),
                  CarouselIndicatorClicked(prevIndex, currentSlideIndex, at));
    }
  }

  /** The index a jump leaves is in range exactly for the indicator
      numbers 1..totalSlides; 0 or totalSlides + 1 break the range. */
  lemma JumpCanLeaveRange(index: int, totalSlides: nat)
    ensures InRange(index - 1, totalSlides) <==> 1 <= index <= totalSlides
    ensures !InRange(0 - 1, totalSlides) && !InRange(totalSlides + 1 - 1, totalSlides)
  {
  }
}

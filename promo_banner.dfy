/** The promotion strip under the header: the slide shown, moved by the
    arrows, the dots and a 5-second interval, and the horizontal offset of
    the slide track. Time itself is not modelled: a tick is an event. */
module PromoBanner {
  import opened Rotation

  datatype Slide = Slide(id: nat, title: string)

  const Slides: seq<Slide> := [
    Slide(1, "\U{1F525} PRONTA ENTREGA"),
    Slide(2, "\U{26BD} LANÇAMENTOS 24/25"),
    Slide(3, "\U{2708}\U{FE0F} INTERNACIONAL")
  ]

  const SlideCount: nat := |Slides|

  /** `translateX(-${currentSlide * 100}%)`: the track is moved one full
      width per slide. */
  function OffsetPercent(slide: nat): (offset: int)
    ensures offset <= 0 && offset % 100 == 0
    ensures offset / -100 == slide
  {
    -(slide * 100)
  }

  /** Different slides sit at different offsets. */
  lemma OffsetsDistinct(a: nat, b: nat)
    ensures OffsetPercent(a) == OffsetPercent(b) <==> a == b
  {
  }

  class Promo {
    var currentSlide: nat

    ghost predicate Valid()
      reads this
    {
      currentSlide < SlideCount
    }

    constructor ()
      ensures Valid() && currentSlide == 0
    {
      currentSlide := 0;
    }

    /** `goToSlide`, called by the dot of slide `index`. */
    method GoToSlide(index: nat)
      requires index < SlideCount
      modifies this
      ensures Valid() && currentSlide == index
    {
      currentSlide := index;
    }

    method PrevSlide()
      requires Valid()
      modifies this
      ensures Valid() && currentSlide == Prev(old(currentSlide), SlideCount)
    {
      currentSlide := (currentSlide - 1 + SlideCount) % SlideCount;
    }

    method NextSlide()
      requires Valid()
      modifies this
      ensures Valid() && currentSlide == Next(old(currentSlide), SlideCount)
    {
      currentSlide := (currentSlide + 1) % SlideCount;
    }

    /** The interval's callback: the same step as `nextSlide`. */
    method Tick()
      requires Valid()
      modifies this
      ensures Valid() && currentSlide == Next(old(currentSlide), SlideCount)
    {
      NextSlide();
    }

    /** The offset of the track for the slide shown. */
    function Offset(): (offset: int)
      requires Valid()
      reads this
      ensures -200 <= offset <= 0
    {
      OffsetPercent(currentSlide)
    }
  }
}

/** The home page's banner carousel: the shown banner, the auto-play flag,
    and the events that change them (arrows, dots, hovering, the auto-play
    interval and the 10-second resume timer). Time itself is not modelled:
    a timer firing is an event. */
module BannerCarousel {
  import opened Rotation

  datatype Banner = Banner(id: nat, title: string)

  const Banners: seq<Banner> := [
    Banner(1, "\U{26BD} Lançamentos 2024/25"),
    Banner(2, "\U{1F525} Frete Grátis"),
    Banner(3, "\U{1F4B3} Pix com 5% OFF")
  ]

  const BannerCount: nat := |Banners|

  class Carousel {
    var currentIndex: nat
    var isAutoPlaying: bool

    /** The index always names a banner. */
    ghost predicate Valid()
      reads this
    {
      currentIndex < BannerCount
    }

    constructor ()
      ensures Valid() && currentIndex == 0 && isAutoPlaying
    {
      currentIndex := 0;
      isAutoPlaying := true;
    }

    /** The banner on screen. */
    function Current(): (b: Banner)
      requires Valid()
      reads this
      ensures b in Banners
    {
      Banners[currentIndex]
    }

    /** `goToNext`: one banner on, and auto-play paused. */
    method GoToNext()
      requires Valid()
      modifies this
      ensures Valid()
      ensures currentIndex == Next(old(currentIndex), BannerCount) && !isAutoPlaying
    {
      currentIndex := (currentIndex + 1) % BannerCount;
      isAutoPlaying := false;
    }

    /** `goToPrev`: one banner back, and auto-play paused. */
    method GoToPrev()
      requires Valid()
      modifies this
      ensures Valid()
      ensures currentIndex == Prev(old(currentIndex), BannerCount) && !isAutoPlaying
    {
      currentIndex := (currentIndex - 1 + BannerCount) % BannerCount;
      isAutoPlaying := false;
    }

    /** A dot: exactly that banner, and auto-play paused. There is one dot
        per banner. */
    method DotClick(i: nat)
      requires Valid() && i < BannerCount
      modifies this
      ensures Valid()
      ensures currentIndex == i && !isAutoPlaying
    {
      currentIndex := i;
      isAutoPlaying := false;
    }

    /** `onMouseEnter` pauses and `onMouseLeave` resumes; the index stays. */
    method Hover(entering: bool)
      modifies this`isAutoPlaying
      ensures isAutoPlaying == !entering
    {
      isAutoPlaying := !entering;
    }

    /** The 10-second timeout set by each manual navigation. */
    method ResumeTimerFires()
      modifies this`isAutoPlaying
      ensures isAutoPlaying
    {
      isAutoPlaying := true;
    }

    /** The 4-second interval, which only runs while auto-play is on: one
        banner on. */
    method Tick()
      requires Valid()
      modifies this`currentIndex
      ensures Valid()
      ensures currentIndex == if isAutoPlaying then Next(old(currentIndex), BannerCount) else old(currentIndex)
    {
      if isAutoPlaying {
        currentIndex := (currentIndex + 1) % BannerCount;
      }
    }
  }

  /** Three banners; forward from the last shows the first, back from the
      first shows the last. */
  lemma WrapsAround()
    ensures BannerCount == 3
    ensures Next(2, BannerCount) == 0 && Prev(0, BannerCount) == 2
  {
    PrevCases(0, 3);
  }
}

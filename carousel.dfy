/**
 * The hero carousel: a window of `visibleItems` slides over the twelve fixed items,
 * moved cyclically by the arrows, directly by the indicator dots, and by a timer
 * while auto-play is on.
 */
module Carousel {

  /** The component's fixed item list has twelve entries. */
  const ItemCount: int := 12

  /** One slide visible on a phone-sized viewport, four otherwise. */
  function VisibleItems(isMobile: bool): int
  {
    if isMobile then 1 else 4
  }

  /** `items.length - visibleItems`: the last index the window can start at. */
  function MaxIndex(isMobile: bool): (m: int)
    ensures isMobile ==> m == 11
    ensures !isMobile ==> m == 8
    ensures 0 <= m < ItemCount
  {
    ItemCount - VisibleItems(isMobile)
  }

  /** The index updater of the next arrow and of the timer. */
  function NextIndex(i: int, maxIndex: int): (r: int)
    ensures 0 <= i && 0 <= maxIndex ==> 0 <= r <= maxIndex
    ensures 0 <= i < maxIndex ==> r == i + 1
    ensures maxIndex <= i ==> r == 0
  {
    if i >= maxIndex then 0 else i + 1
  }

  /** The index updater of the previous arrow. */
  function PrevIndex(i: int, maxIndex: int): (r: int)
    ensures 0 <= i <= maxIndex ==> 0 <= r <= maxIndex
    ensures 0 <= i ==> 0 <= r || maxIndex < 0
    ensures i <= 0 ==> r == maxIndex
    ensures 0 < i ==> r == i - 1
  {
    if i <= 0 then maxIndex else i - 1
  }

  /** Previous undoes next on every in-range index. */
  lemma PrevUndoesNext(i: int, maxIndex: int)
    requires 0 <= i <= maxIndex
    ensures PrevIndex(NextIndex(i, maxIndex), maxIndex) == i
  {
  }

  /** Next undoes previous on every in-range index. */
  lemma NextUndoesPrev(i: int, maxIndex: int)
    requires 0 <= i <= maxIndex
    ensures NextIndex(PrevIndex(i, maxIndex), maxIndex) == i
  {
  }

  /** The index after n next steps from i. */
  function Advance(n: nat, i: int, maxIndex: int): int
  {
    if n == 0 then i else NextIndex(Advance(n - 1, i, maxIndex), maxIndex)
  }

  /** From 0, the first maxIndex steps visit 1, 2, ..., maxIndex in order. */
  lemma {:induction false} AdvanceFromStart(n: nat, maxIndex: int)
    requires n <= maxIndex
    ensures Advance(n, 0, maxIndex) == n
  {
    if n > 0 {
      AdvanceFromStart(n - 1, maxIndex);
    }
  }

  /** maxIndex + 1 steps from 0 come back to 0, and no index repeats on the way. */
  lemma FullCycle(maxIndex: int)
    requires 0 <= maxIndex
    ensures Advance(maxIndex + 1, 0, maxIndex) == 0
    ensures forall j, k :: 0 <= j < k <= maxIndex ==> Advance(j, 0, maxIndex) != Advance(k, 0, maxIndex)
  {
    AdvanceFromStart(maxIndex, maxIndex);
    forall j, k | 0 <= j < k <= maxIndex
      ensures Advance(j, 0, maxIndex) != Advance(k, 0, maxIndex)
    {
      AdvanceFromStart(j, maxIndex);
      AdvanceFromStart(k, maxIndex);
    }
  }

  /** Any number of steps from an index >= 0 stays within [0, maxIndex]. */
  lemma {:induction false} AdvanceStaysInRange(n: nat, i: int, maxIndex: int)
    requires 0 <= i <= maxIndex
    ensures 0 <= Advance(n, i, maxIndex) <= maxIndex
  {
    if n > 0 {
      AdvanceStaysInRange(n - 1, i, maxIndex);
    }
  }

  /** `Array.from({ length: maxIndex + 1 }).map((_, index) => index)`: one dot per start index. */
  function Indicators(isMobile: bool): (r: seq<int>)
    ensures |r| == MaxIndex(isMobile) + 1
    ensures forall i :: i in r ==> 0 <= i <= MaxIndex(isMobile)
    ensures forall i :: 0 <= i <= MaxIndex(isMobile) ==> i in r
  {
    var dots := seq(MaxIndex(isMobile) + 1, k => k);
    assert forall k :: 0 <= k < |dots| ==> dots[k] == k;
    EveryIndexIsListed(dots);
    dots
  }

  lemma EveryIndexIsListed(dots: seq<int>)
    requires forall k :: 0 <= k < |dots| ==> dots[k] == k
    ensures forall i :: 0 <= i < |dots| ==> i in dots
  {
    forall i | 0 <= i < |dots|
      ensures i in dots
    {
      assert dots[i] == i;
    }
  }

  /** The component state. isMobile is the viewport the component is rendered on. */
  class HeroCarousel {
    var currentIndex: int
    var isAutoPlaying: bool
    var isMobile: bool

    function Max(): int
      reads this
    {
      MaxIndex(isMobile)
    }

    /** The window starts on a slide that exists. */
    predicate InRange()
      reads this
    {
      0 <= currentIndex <= Max()
    }

    /** What every operation keeps, including a viewport change. */
    ghost predicate Valid()
      reads this
    {
      0 <= currentIndex
    }

    /** Mount: index 0 with auto-play on. */
    constructor (mobile: bool)
      ensures currentIndex == 0 && isAutoPlaying && isMobile == mobile
      ensures Valid() && InRange()
    {
      currentIndex := 0;
      isAutoPlaying := true;
      isMobile := mobile;
    }

    /** `nextSlide`: cyclic step forward; user navigation stops auto-play. */
    method NextSlide()
      requires Valid()
      modifies this`currentIndex, this`isAutoPlaying
      ensures currentIndex == NextIndex(old(currentIndex), Max())
      ensures !isAutoPlaying
      ensures Valid() && InRange()
    {
      currentIndex := NextIndex(currentIndex, Max());
      isAutoPlaying := false;
    }

    /** `prevSlide`: cyclic step back; user navigation stops auto-play. */
    method PrevSlide()
      requires Valid()
      modifies this`currentIndex, this`isAutoPlaying
      ensures currentIndex == PrevIndex(old(currentIndex), Max())
      ensures !isAutoPlaying
      ensures Valid()
      ensures old(InRange()) ==> InRange()
    {
      currentIndex := PrevIndex(currentIndex, Max());
      isAutoPlaying := false;
    }

    /** `goToSlide`, called only from an indicator dot with that dot's index. */
    method GoToSlide(index: int)
      requires index in Indicators(isMobile)
      modifies this`currentIndex, this`isAutoPlaying
      ensures currentIndex == index
      ensures !isAutoPlaying
      ensures Valid() && InRange()
    {
      currentIndex := index;
      isAutoPlaying := false;
    }

    /** One firing of the interval: exists only while auto-play is on, and leaves it on. */
    method Tick()
      requires Valid()
      modifies this`currentIndex
      ensures currentIndex == if isAutoPlaying then NextIndex(old(currentIndex), Max()) else old(currentIndex)
      ensures Valid()
      ensures isAutoPlaying ==> InRange()
      ensures old(InRange()) ==> InRange()
    {
      if isAutoPlaying {
        currentIndex := NextIndex(currentIndex, Max());
      }
    }

    /** The play/pause button: flips auto-play, the index stays. */
    method ToggleAutoPlay()
      modifies this`isAutoPlaying
      ensures isAutoPlaying == !old(isAutoPlaying)
      ensures currentIndex == old(currentIndex)
    {
      isAutoPlaying := !isAutoPlaying;
    }

    /** The viewport crosses the mobile breakpoint: maxIndex changes, the index is not re-clamped. */
    method SetViewport(mobile: bool)
      modifies this`isMobile
      ensures isMobile == mobile
      ensures currentIndex == old(currentIndex) && isAutoPlaying == old(isAutoPlaying)
    {
      isMobile := mobile;
    }
  }

  /** A phone showing the last slide is widened to a desktop: the index is left past maxIndex. */
  method ResizeAfterLastSlide()
  {
    var c := new HeroCarousel(true);
    c.GoToSlide(11);
    c.SetViewport(false);
    assert c.currentIndex == 11 && !c.InRange();
    c.NextSlide();
    assert c.currentIndex == 0;
  }
}

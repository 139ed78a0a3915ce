/**
 * The voting-day carousel: a current card index with the direction of the
 * last move, moved by the previous/next buttons, the dots, horizontal swipes
 * and the left/right arrow keys, with left and right swapped for Arabic
 * (right-to-left) pages.
 */
module Carousel {

  /** Where a gesture or key sends the carousel. */
  datatype Move = Next | Prev | Stay

  /** The arrow keys the carousel listens to; every other key is `OtherKey`. */
  datatype Key = ArrowRight | ArrowLeft | OtherKey

  /** Swipes shorter than this many pixels, either way, are ignored. */
  const SwipeThreshold := 50

  /** The opposite move. */
  function Mirror(m: Move): (r: Move)
    ensures m == Stay <==> r == Stay
  {
    match m
    case Next => Prev
    case Prev => Next
    case Stay => Stay
  }

  /**
   * `handleTouchEnd` with `diff = start - end`: a swipe to the left (positive
   * diff) beyond the threshold goes to the next card, one to the right to the
   * previous card; on a right-to-left page the two are swapped.
   */
  function SwipeMove(diff: int, rtl: bool): (m: Move)
    ensures m == Stay <==> -SwipeThreshold <= diff <= SwipeThreshold
    ensures !rtl ==> (m == Next <==> diff > SwipeThreshold)
  {
    if rtl then
      (if diff < -SwipeThreshold then Next else if diff > SwipeThreshold then Prev else Stay)
    else
      (if diff > SwipeThreshold then Next else if diff < -SwipeThreshold then Prev else Stay)
  }

  /** A right-to-left swipe is the mirror of the same swipe left-to-right, and of the opposite swipe. */
  lemma {:induction false} SwipeRtlMirrors(diff: int)
    ensures SwipeMove(diff, true) == Mirror(SwipeMove(diff, false))
    ensures SwipeMove(diff, true) == SwipeMove(-diff, false)
  {
  }

  /** ArrowRight goes to the next card left-to-right and to the previous one right-to-left; ArrowLeft the reverse. */
  function KeyMove(k: Key, rtl: bool): (m: Move)
    ensures m == Stay <==> k == OtherKey
  {
    match k
    case ArrowRight => if rtl then Prev else Next
    case ArrowLeft => if rtl then Next else Prev
    case OtherKey => Stay
  }

  /** Switching the page direction mirrors every key. */
  lemma {:induction false} KeyMoveRtlMirrors(k: Key, rtl: bool)
    ensures KeyMove(k, !rtl) == Mirror(KeyMove(k, rtl))
    ensures Mirror(Mirror(KeyMove(k, rtl))) == KeyMove(k, rtl)
  {
  }

  /** ArrowLeft does what ArrowRight does on a page of the other direction. */
  lemma {:induction false} ArrowsAreMirrors(rtl: bool)
    ensures KeyMove(ArrowLeft, rtl) == Mirror(KeyMove(ArrowRight, rtl))
    ensures KeyMove(ArrowLeft, rtl) == KeyMove(ArrowRight, !rtl)
  {
  }

  /** The carousel's visible state: the card shown and the direction of the last move (0 before any). */
  datatype View = View(index: int, direction: int)

  /** The index names a card (or is 0 for an empty deck) and the direction is -1, 0 or 1. */
  predicate InRange(v: View, total: int) {
    (if total >= 1 then 0 <= v.index < total else v.index == 0) && -1 <= v.direction <= 1
  }

  /** `goToNext`: forward one card unless on the last, leaving everything, direction included, unchanged there. */
  function GoToNext(v: View, total: int): (r: View)
    ensures InRange(v, total) ==> InRange(r, total)
    ensures v.index >= total - 1 ==> r == v
    ensures v.index < total - 1 ==> r.index == v.index + 1 && r.direction == 1
  {
    if v.index < total - 1 then View(v.index + 1, 1) else v
  }

  /** `goToPrev`: back one card unless on the first, leaving everything unchanged there. */
  function GoToPrev(v: View): (r: View)
    ensures v.index <= 0 ==> r == v
    ensures v.index > 0 ==> r.index == v.index - 1 && r.direction == -1
  {
    if v.index > 0 then View(v.index - 1, -1) else v
  }

  /** Back after forward returns to the same card, and forward after back, whenever the first move moved. */
  lemma {:induction false} PrevUndoesNext(v: View, total: int)
    requires InRange(v, total)
    ensures v.index < total - 1 ==> GoToPrev(GoToNext(v, total)).index == v.index
    ensures v.index > 0 ==> GoToNext(GoToPrev(v), total).index == v.index
  {
  }

  /** Going back keeps a carousel in range. */
  lemma {:induction false} GoToPrevInRange(v: View, total: int)
    requires InRange(v, total)
    ensures InRange(GoToPrev(v), total)
  {
  }

  /** `goToIndex`: jump to a dot's card; the direction is +1 only for a later card, -1 otherwise (the same card included). */
  function GoToIndex(v: View, index: int): (r: View)
    ensures r.index == index
    ensures r.direction == 1 <==> index > v.index
    ensures r.direction == -1 <==> index <= v.index
  {
    View(index, if index > v.index then 1 else -1)
  }

  /** A move applied to the carousel. */
  function Apply(v: View, total: int, m: Move): (r: View)
    ensures m == Stay ==> r == v
    ensures InRange(v, total) ==> InRange(r, total)
  {
    match m
    case Next => GoToNext(v, total)
    case Prev => GoToPrev(v)
    case Stay => v
  }

  /** The previous button is disabled exactly on the first card, the next button exactly on the last. */
  predicate PrevDisabled(v: View) { v.index == 0 }
  predicate NextDisabled(v: View, total: int) { v.index == total - 1 }

  /** A disabled button is exactly one whose move would change nothing. */
  lemma {:induction false} DisabledIffNoMove(v: View, total: int)
    requires total >= 1 && InRange(v, total)
    ensures PrevDisabled(v) <==> GoToPrev(v) == v
    ensures NextDisabled(v, total) <==> GoToNext(v, total) == v
  {
  }

  class Deck {
    const total: int
    const rtl: bool
    var currentIndex: int
    var direction: int
    var touchStartX: int
    var touchEndX: int

    /** The current view. */
    function Current(): View
      reads this
    {
      View(currentIndex, direction)
    }

    ghost predicate Valid()
      reads this
    {
      InRange(Current(), total)
    }

    constructor (total: int, rtl: bool)
      ensures Valid()
      ensures this.total == total && this.rtl == rtl
      ensures currentIndex == 0 && direction == 0 && touchStartX == 0 && touchEndX == 0
    {
      this.total := total;
      this.rtl := rtl;
      currentIndex, direction := 0, 0;
      touchStartX, touchEndX := 0, 0;
    }

    method Go(m: Move)
      requires Valid()
      modifies this
      ensures Valid()
      ensures Current() == Apply(old(Current()), total, m)
      ensures touchStartX == old(touchStartX) && touchEndX == old(touchEndX)
    {
      var v := Apply(Current(), total, m);
      currentIndex, direction := v.index, v.direction;
    }

    /** A click on dot `index`. */
    method ClickDot(index: int)
      requires Valid() && 0 <= index < total
      modifies this
      ensures Valid()
      ensures Current() == GoToIndex(old(Current()), index)
      ensures touchStartX == old(touchStartX) && touchEndX == old(touchEndX)
    {
      var v := GoToIndex(Current(), index);
      currentIndex, direction := v.index, v.direction;
    }

    method TouchStart(x: int)
      modifies this
      ensures touchStartX == x
      ensures touchEndX == old(touchEndX) && Current() == old(Current())
    {
      touchStartX := x;
    }

    method TouchMove(x: int)
      modifies this
      ensures touchEndX == x
      ensures touchStartX == old(touchStartX) && Current() == old(Current())
    {
      touchEndX := x;
    }

    /** The end of a swipe moves by `SwipeMove` of the distance between the recorded start and end. */
    method TouchEnd()
      requires Valid()
      modifies this
      ensures Valid()
      ensures Current() == Apply(old(Current()), total, SwipeMove(old(touchStartX) - old(touchEndX), rtl))
      ensures touchStartX == old(touchStartX) && touchEndX == old(touchEndX)
    {
      Go(SwipeMove(touchStartX - touchEndX, rtl));
    }

    method KeyDown(k: Key)
      requires Valid()
      modifies this
      ensures Valid()
      ensures Current() == Apply(old(Current()), total, KeyMove(k, rtl))
      ensures touchStartX == old(touchStartX) && touchEndX == old(touchEndX)
    {
      Go(KeyMove(k, rtl));
    }
  }
}

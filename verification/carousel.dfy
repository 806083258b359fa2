/** The landing page's feature carousel: a slide index moved forwards by
    the arrow and a four-second interval, and backwards by the other arrow,
    wrapping around at both ends. */
module Carousel {

  /** The number of slides the carousel shows. */
  const SlideCount := 4

  /** JavaScript's `%`: the remainder takes the sign of the dividend. */
  function JsRem(a: int, n: int): (r: int)
    requires n > 0
    ensures a >= 0 ==> 0 <= r < n && r == a % n
    ensures a < 0 ==> -n < r <= 0
  {
    if a >= 0 then a % n else -((-a) % n)
  }

  /** `nextSlide`. */
  function Next(i: int): (j: int)
    ensures 0 <= i < SlideCount ==> 0 <= j < SlideCount && j == (if i == SlideCount - 1 then 0 else i + 1)
  {
    JsRem(i + 1, SlideCount)
  }

  /** `prevSlide`. */
  function Prev(i: int): (j: int)
    ensures 0 <= i < SlideCount ==> 0 <= j < SlideCount && j == (if i == 0 then SlideCount - 1 else i - 1)
  {
    JsRem(i - 1 + SlideCount, SlideCount)
  }

  /** The carousel starts on the first slide. */
  const Start := 0

  /** Stepping back undoes stepping forward, and the other way round. */
  lemma NextPrevInverse(i: int)
    requires 0 <= i < SlideCount
    ensures Next(Prev(i)) == i
    ensures Prev(Next(i)) == i
  {
  }

  /** `k` forward steps from slide `i`. */
  function Advance(i: int, k: nat): int {
    if k == 0 then i else Next(Advance(i, k - 1))
  }

  /** `k` forward steps land `k` places further on, modulo the slide count. */
  lemma {:induction false} AdvanceIsShift(i: int, k: nat)
    requires 0 <= i < SlideCount
    ensures Advance(i, k) == (i + k) % SlideCount
  {
    if k > 0 {
      AdvanceIsShift(i, k - 1);
    }
  }

  /** A full round of forward steps returns to the starting slide, and no
      shorter one does. */
  lemma FullRoundReturns(i: int)
    requires 0 <= i < SlideCount
    ensures Advance(i, SlideCount) == i
    ensures forall k: nat :: 0 < k < SlideCount ==> Advance(i, k) != i
  {
    AdvanceIsShift(i, SlideCount);
    forall k: nat | 0 < k < SlideCount ensures Advance(i, k) != i {
      AdvanceIsShift(i, k);
      assert k == 1 || k == 2 || k == 3;
    }
  }
}

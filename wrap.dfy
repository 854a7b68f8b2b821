/** The next/previous index arithmetic shared by the carousel
    (`nextSlide`, `prevSlide`) and the lightbox (`nextLightboxImage`,
    `prevLightboxImage`): `(i + 1) % n` and `(i - 1 + n) % n` with
    JavaScript's truncating `%`. */
module Wrap {
  import opened Numbers

  predicate InRange(i: int, n: int)
  {
    0 <= i < n
  }

  /** `(i + 1) % n`: in range from any index of -1 or more, otherwise in
      (-n, 0]. */
  function NextIndex(i: int, n: int): (r: int)
    requires n > 0
    ensures i >= -1 ==> InRange(r, n)
    ensures i < -1 ==> -n < r <= 0
  {
    JsRem(i + 1, n)
  }

  /** `(i - 1 + n) % n`: in range from any index of 1 - n or more,
      otherwise in (-n, 0]. */
  function PrevIndex(i: int, n: int): (r: int)
    requires n > 0
    ensures i >= 1 - n ==> InRange(r, n)
    ensures i < 1 - n ==> -n < r <= 0
  {
    JsRem(i - 1 + n, n)
  }

  /** Next and previous keep an index in range; they also bring back any
      index from -1 upward (the value an unmatched `findIndex` or an
      indicator jump to 0 leaves), and any index at or above n. */
  lemma StepsLandInRange(i: int, n: int)
    requires n > 0 && i >= -1
    ensures InRange(NextIndex(i, n), n)
    ensures InRange(PrevIndex(i, n), n)
  {
  }

  /** Both ends wrap around. */
  lemma WrapsAtEnds(n: int)
    requires n > 0
    ensures NextIndex(n - 1, n) == 0
    ensures PrevIndex(0, n) == n - 1
  {
  }

  /** On an index in range, next is +1 except at the end. */
  lemma NextInRangeIs(i: int, n: int)
    requires InRange(i, n)
    ensures NextIndex(i, n) == if i == n - 1 then 0 else i + 1
  {
    if i == n - 1 { ModAbove(i + 1, n); } else { ModBelow(i + 1, n); }
  }

  /** On an index in range, previous is -1 except at the start. */
  lemma PrevInRangeIs(i: int, n: int)
    requires InRange(i, n)
    ensures PrevIndex(i, n) == if i == 0 then n - 1 else i - 1
  {
    if i == 0 { ModBelow(n - 1, n); } else { ModAbove(i - 1 + n, n); }
  }

  /** Previous undoes next and next undoes previous. */
  lemma PrevUndoesNext(i: int, n: int)
    requires InRange(i, n)
    ensures PrevIndex(NextIndex(i, n), n) == i
    ensures NextIndex(PrevIndex(i, n), n) == i
  {
    NextInRangeIs(i, n);
    PrevInRangeIs(i, n);
    NextInRangeIs(PrevIndex(i, n), n);
    PrevInRangeIs(NextIndex(i, n), n);
  }

  /** k presses of next from i. */
  function NextTimes(i: int, n: int, k: nat): int
    requires n > 0
  {
    if k == 0 then i else NextIndex(NextTimes(i, n, k - 1), n)
  }

  /** Up to n presses: i + k, wrapped once past the end. */
  lemma {:induction false} NextTimesIsOffset(i: int, n: int, k: nat)
    requires InRange(i, n) && k <= n
    ensures NextTimes(i, n, k) == if i + k < n then i + k else i + k - n
  {
    if k > 0 {
      NextTimesIsOffset(i, n, k - 1);
      NextInRangeIs(NextTimes(i, n, k - 1), n);
    }
  }

  /** n presses of next, from any index in range, come back to it. */
  lemma FullCycle(i: int, n: int)
    requires InRange(i, n)
    ensures NextTimes(i, n, n) == i
  {
    NextTimesIsOffset(i, n, n);
  }

  /** a presses and then b presses are a + b presses. */
  lemma {:induction false} NextTimesAdd(i: int, n: int, a: nat, b: nat)
    requires n > 0
    ensures NextTimes(NextTimes(i, n, a), n, b) == NextTimes(i, n, a + b)
  {
    if b > 0 {
      NextTimesAdd(i, n, a, b - 1);
    }
  }

  /** Pressing next is periodic with period n. */
  lemma NextTimesPeriodic(i: int, n: int, k: nat)
    requires InRange(i, n)
    ensures NextTimes(i, n, k + n) == NextTimes(i, n, k)
    ensures InRange(NextTimes(i, n, k), n)
  {
    NextTimesStaysInRange(i, n, k);
    NextTimesAdd(i, n, k, n);
    FullCycle(NextTimes(i, n, k), n);
  }

  lemma {:induction false} NextTimesStaysInRange(i: int, n: int, k: nat)
    requires InRange(i, n)
    ensures InRange(NextTimes(i, n, k), n)
  {
    if k > 0 {
      NextTimesStaysInRange(i, n, k - 1);
      StepsLandInRange(NextTimes(i, n, k - 1), n);
    }
  }

  /** Four slides from the first: three presses of next reach the last,
      a fourth wraps to the first. */
  lemma FourSlidesScenario()
    ensures NextTimes(0, 4, 3) == 3
    ensures NextTimes(0, 4, 4) == 0
  {
    NextTimesIsOffset(0, 4, 3);
    NextTimesIsOffset(0, 4, 4);
  }

  /** Below -1 the truncating `%` can leave the index negative: with four
      slides, next from -3 gives -2 and previous from -8 gives -1. */
  lemma NegativeIndexCanPersist()
    ensures NextIndex(-3, 4) == -2
    ensures PrevIndex(-3, 4) == 0
    ensures PrevIndex(-8, 4) == -1
  {
  }
}

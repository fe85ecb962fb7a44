/**
 * The font-size scan shared by the two layout engines: sizes 10, 11, ...,
 * 299 are tried in turn, the scan stops at the first size whose wrapped
 * text is too tall, and the last size that passed is kept, or 10 when
 * even size 10 fails. Each engine supplies its own test of a size.
 */
module FontFit {
  import opened Texty

  /** The size the scan settles on when it reaches size holding best. */
  function ScanFrom(fits: nat -> bool, size: nat, best: nat): nat
    decreases MaxFontSize + 1 - size
  {
    if size > MaxFontSize || !fits(size) then best else ScanFrom(fits, size + 1, size)
  }

  /** The size the whole scan picks. */
  function FitSize(fits: nat -> bool): nat {
    ScanFrom(fits, MinFontSize, MinFontSize)
  }

  /** What the rest of the scan guarantees once it has reached size. */
  lemma {:induction false} ScanFromFacts(fits: nat -> bool, size: nat, best: nat)
    requires MinFontSize <= size <= MaxFontSize + 1
    requires MinFontSize <= best <= MaxFontSize
    requires size > MinFontSize ==> best == size - 1
    requires size == MinFontSize ==> best == MinFontSize
    ensures best <= ScanFrom(fits, size, best) <= MaxFontSize
    ensures size > MinFontSize || fits(MinFontSize) ==>
      forall s :: size <= s <= ScanFrom(fits, size, best) ==> fits(s)
    ensures (size > MinFontSize || fits(MinFontSize)) && ScanFrom(fits, size, best) < MaxFontSize ==>
      !fits(ScanFrom(fits, size, best) + 1)
    decreases MaxFontSize + 1 - size
  {
    if size <= MaxFontSize && fits(size) {
      ScanFromFacts(fits, size + 1, size);
    }
  }

  /** The chosen size lies in 10..299. */
  lemma FitSizeRange(fits: nat -> bool)
    ensures MinFontSize <= FitSize(fits) <= MaxFontSize
  {
    ScanFromFacts(fits, MinFontSize, MinFontSize);
  }

  /** When size 10 is already too tall, the result is 10. */
  lemma FitSizeFallback(fits: nat -> bool)
    requires !fits(MinFontSize)
    ensures FitSize(fits) == MinFontSize
  {
  }

  /** Otherwise every size from 10 up to the result passes, and the next size fails. */
  lemma FitSizeMaximal(fits: nat -> bool)
    requires fits(MinFontSize)
    ensures forall s :: MinFontSize <= s <= FitSize(fits) ==> fits(s)
    ensures FitSize(fits) < MaxFontSize ==> !fits(FitSize(fits) + 1)
  {
    ScanFromFacts(fits, MinFontSize, MinFontSize);
  }

  /**
   * The result is the only size with those properties: the end of the run of
   * passing sizes that starts at 10.
   */
  lemma FitSizeUnique(fits: nat -> bool, r: nat)
    requires MinFontSize <= r <= MaxFontSize
    requires forall s :: MinFontSize <= s <= r ==> fits(s)
    requires r < MaxFontSize ==> !fits(r + 1)
    ensures FitSize(fits) == r
  {
    FitSizeMaximal(fits);
    FitSizeRange(fits);
  }

  /** A test that passes wherever another passes (a larger height budget, say) never yields a smaller size. */
  lemma FitSizeMonotone(f1: nat -> bool, f2: nat -> bool)
    requires forall s :: f1(s) ==> f2(s)
    ensures FitSize(f1) <= FitSize(f2)
  {
    FitSizeRange(f1);
    FitSizeRange(f2);
    if f1(MinFontSize) {
      FitSizeMaximal(f1);
      FitSizeMaximal(f2);
    }
  }
}

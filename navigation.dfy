/**
 * The page index of the flip book: normalizeIndex, canGoNext, canGoPrev,
 * goNextIndex and goPrevIndex over state.index, state.mode and the number of
 * pages. In "spread" mode the cover (index 0) stands alone and every other
 * view starts at an odd index, showing that page and the next.
 */
module Navigation {

  datatype Mode = Single | Spread

  /** What normalizeIndex leaves in state.index: clamped to 0 .. count - 1, then moved back to an odd index in spread mode. */
  function NormalizedIndex(index: int, count: nat, mode: Mode): int {
    var maxIndex := count - 1;
    var i := if index < 0 then 0 else index;
    var j := if i > maxIndex then maxIndex else i;
    if mode == Spread && j > 0 && j % 2 == 0 then j - 1 else j
  }

  /** An index normalizeIndex leaves alone: a page, and in spread mode the cover or an odd index. */
  predicate ValidIndex(index: int, count: nat, mode: Mode) {
    0 <= index < count && (mode == Spread ==> index == 0 || index % 2 == 1)
  }

  /** canGoNext. */
  function CanGoNext(index: int, count: nat, mode: Mode): bool {
    var maxIndex := count - 1;
    if mode == Single then index < maxIndex
    else if index == 0 then maxIndex >= 1
    else index + 2 <= maxIndex
  }

  /** canGoPrev. */
  function CanGoPrev(index: int): bool {
    index > 0
  }

  /** state.index after goNextIndex. */
  function NextIndex(index: int, count: nat, mode: Mode): int {
    var maxIndex := count - 1;
    var raw := if mode == Single then Min(maxIndex, index + 1)
               else if index == 0 then 1
               else Min(maxIndex, index + 2);
    NormalizedIndex(raw, count, mode)
  }

  /** state.index after goPrevIndex. */
  function PrevIndex(index: int, count: nat, mode: Mode): int {
    var raw := if mode == Single then index - 1
               else if index == 1 then 0
               else index - 2;
    NormalizedIndex(raw, count, mode)
  }

  function Min(a: int, b: int): int {
    if a < b then a else b
  }

  /** The index state of the book; `count` is state.pages.length. */
  class Navigator {
    var count: nat
    var index: int
    var mode: Mode

    /** normalizeIndex. */
    method NormalizeIndex()
      modifies this
      ensures index == NormalizedIndex(old(index), count, mode)
      ensures count == old(count) && mode == old(mode)
      ensures count >= 1 ==> ValidIndex(index, count, mode)
    {
      var maxIndex := count - 1;
      if index < 0 {
        index := 0;
      }
      if index > maxIndex {
        index := maxIndex;
      }
      if mode == Spread && index > 0 && index % 2 == 0 {
        index := index - 1;
      }
    }

    /** goNextIndex. */
    method GoNextIndex()
      modifies this
      ensures index == NextIndex(old(index), count, mode)
      ensures count == old(count) && mode == old(mode)
      ensures count >= 1 ==> ValidIndex(index, count, mode)
    {
      var maxIndex := count - 1;
      if mode == Single {
        index := Min(maxIndex, index + 1);
      } else if index == 0 {
        index := 1;
      } else {
        index := Min(maxIndex, index + 2);
      }
      NormalizeIndex();
    }

    /** goPrevIndex. */
    method GoPrevIndex()
      modifies this
      ensures index == PrevIndex(old(index), count, mode)
      ensures count == old(count) && mode == old(mode)
      ensures count >= 1 ==> ValidIndex(index, count, mode)
    {
      if mode == Single {
        index := index - 1;
      } else if index == 1 {
        index := 0;
      } else {
        index := index - 2;
      }
      NormalizeIndex();
    }
  }

  /* ---------- properties ---------- */

  /** With at least one page, normalizeIndex yields a page index, in spread mode the cover or an odd one. */
  lemma NormalizedIsValid(index: int, count: nat, mode: Mode)
    requires count >= 1
    ensures ValidIndex(NormalizedIndex(index, count, mode), count, mode)
  {
  }

  /** normalizeIndex leaves a valid index alone, so normalising twice is normalising once. */
  lemma NormalizeKeepsValid(index: int, count: nat, mode: Mode)
    ensures ValidIndex(index, count, mode) ==> NormalizedIndex(index, count, mode) == index
    ensures count >= 1 ==>
              NormalizedIndex(NormalizedIndex(index, count, mode), count, mode) == NormalizedIndex(index, count, mode)
  {
    if count >= 1 {
      NormalizedIsValid(index, count, mode);
    }
  }

  /** From a valid index, goNextIndex moves forward exactly when canGoNext holds, and otherwise stays put. */
  lemma NextIffCanGoNext(index: int, count: nat, mode: Mode)
    requires ValidIndex(index, count, mode)
    ensures var n := NextIndex(index, count, mode);
            ValidIndex(n, count, mode)
            && (CanGoNext(index, count, mode) <==> n > index)
            && (!CanGoNext(index, count, mode) ==> n == index)
  {
  }

  /** From a valid index, goPrevIndex moves back exactly when canGoPrev holds, and otherwise stays put. */
  lemma PrevIffCanGoPrev(index: int, count: nat, mode: Mode)
    requires ValidIndex(index, count, mode)
    ensures var p := PrevIndex(index, count, mode);
            ValidIndex(p, count, mode)
            && (CanGoPrev(index) <==> p < index)
            && (!CanGoPrev(index) ==> p == index)
  {
  }

  /** One step forward and back returns to the same view. */
  lemma NextThenPrev(index: int, count: nat, mode: Mode)
    requires ValidIndex(index, count, mode) && CanGoNext(index, count, mode)
    ensures PrevIndex(NextIndex(index, count, mode), count, mode) == index
  {
  }

  /** A forward step moves one page in single mode and one spread (two pages, or cover to page 1) in spread mode. */
  lemma NextStep(index: int, count: nat, mode: Mode)
    requires ValidIndex(index, count, mode) && CanGoNext(index, count, mode)
    ensures NextIndex(index, count, mode) == index + (if mode == Single || index == 0 then 1 else 2)
  {
  }
}

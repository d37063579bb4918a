/** The board layout the Capital contracts look at (utils/dartboard.ts). Only the
    sector order is modelled; hit resolution from screen coordinates is not. */
module Dartboard {
  import opened DartsTypes

  /** Sectors clockwise, starting from the 20 at the top. */
  const StandardSectors: seq<int> :=
    [20, 1, 18, 4, 13, 6, 10, 15, 2, 17, 3, 19, 7, 16, 8, 11, 14, 9, 12, 5]

  /** `Array.prototype.indexOf`: the first position of `x` in `s`, if any. */
  function IndexOf(s: seq<int>, x: int): (r: Option<nat>)
    ensures r.Some? ==> r.value < |s| && s[r.value] == x && x !in s[..r.value]
    ensures r.None? <==> x !in s
  {
    if |s| == 0 then None
    else if s[0] == x then Some(0)
    else match IndexOf(s[1..], x)
      case None => None
      case Some(i) =>
        assert s[..i + 1] == [s[0]] + s[1..][..i];
        Some(i + 1)
  }

  /** The board holds each of the numbers 1..20 exactly once. */
  lemma SectorsAreOneToTwenty()
    ensures |StandardSectors| == 20
    ensures forall q :: 0 <= q < 20 ==> 1 <= StandardSectors[q] <= 20
    ensures forall n :: 1 <= n <= 20 ==> n in StandardSectors
    ensures forall p, q :: 0 <= p < q < 20 ==> StandardSectors[p] != StandardSectors[q]
  {
  }

  /** The number printed on sector `q` is one of 1..20. */
  lemma SectorNumber(q: int)
    requires 0 <= q < 20
    ensures 1 <= StandardSectors[q] <= 20
  {
  }

  /** Looking up the number printed on sector `q` gives back `q`. */
  lemma IndexOfSector(q: int)
    requires 0 <= q < 20
    ensures IndexOf(StandardSectors, StandardSectors[q]) == Some(q)
  {
    SectorsAreOneToTwenty();
    assert StandardSectors[q] in StandardSectors;
  }

  /** Different sectors carry different numbers. */
  lemma SectorsDiffer(p: int, q: int)
    requires 0 <= p < 20 && 0 <= q < 20 && p != q
    ensures StandardSectors[p] != StandardSectors[q]
  {
    IndexOfSector(p);
    IndexOfSector(q);
  }
}

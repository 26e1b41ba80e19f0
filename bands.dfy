/**
 * Band selection in `calculateCompatibility` (App.tsx): the first band, in
 * list order, whose inclusive bounds contain the total; the first band
 * when none does.
 */
module Bands {
  import opened Wrappers
  import opened Types
  import opened Find

  /** The `find` predicate: `total >= r.min && total <= r.max`. */
  predicate Contains(r: ScoreRange, total: int) {
    total >= r.min && total <= r.max
  }

  /**
   * `find(...) || SCORE_RANGES[0]`, as an index: the first containing band,
   * or 0 when no band contains the total. It never fails on a non-empty list.
   */
  function SelectedIndex(ranges: seq<ScoreRange>, total: int): (i: nat)
    requires |ranges| > 0
    ensures i < |ranges|
    ensures forall j :: 0 <= j < i ==> !Contains(ranges[j], total)
    ensures Contains(ranges[i], total) || (i == 0 && forall j :: 0 <= j < |ranges| ==> !Contains(ranges[j], total))
  {
    match FindIndex(ranges, r => Contains(r, total), 0)
    case Some(i) => i
    case None => 0
  }

  /** The selected band. */
  function SelectRange(ranges: seq<ScoreRange>, total: int): (r: ScoreRange)
    requires |ranges| > 0
    ensures r in ranges
  {
    ranges[SelectedIndex(ranges, total)]
  }

  /**
   * The contract of SelectedIndex pins the index down: any index with the
   * first-match-or-fallback property is the one selected.
   */
  lemma SelectedIndexUnique(ranges: seq<ScoreRange>, total: int, i: nat)
    requires i < |ranges|
    requires forall j :: 0 <= j < i ==> !Contains(ranges[j], total)
    requires Contains(ranges[i], total) || (i == 0 && forall j :: 0 <= j < |ranges| ==> !Contains(ranges[j], total))
    ensures i == SelectedIndex(ranges, total)
  {
  }
}

/**
 * The scoring loop of `calculateCompatibility` (App.tsx): for each category
 * matrix in order, read the cell for the pair of ids; a defined cell adds
 * its score to the running total and appends a labelled entry to the
 * breakdown, a missing row or an undefined cell contributes nothing.
 */
module Scoring {
  import opened Wrappers
  import opened Types

  /** The ceiling written into every breakdown entry. */
  const CategoryMax := 5

  /**
   * `matrix[mId][pId]` as JavaScript reads it: undefined when the row is
   * absent (out of range or missing) or when the cell is.
   */
  function Cell(matrix: Matrix, mId: int, pId: int): Option<int> {
    if 0 <= mId < |matrix| && matrix[mId].Some? && 0 <= pId < |matrix[mId].value|
    then matrix[mId].value[pId]
    else None
  }

  /** The breakdown after the first `n` matrices have been visited. */
  function Breakdown(matrices: seq<Matrix>, categories: seq<string>, mId: int, pId: int, n: nat): seq<CategoryScore>
    requires n <= |matrices| && n <= |categories|
  {
    if n == 0 then []
    else
      var earlier := Breakdown(matrices, categories, mId, pId, n - 1);
      match Cell(matrices[n - 1], mId, pId)
      case Some(score) => earlier + [CategoryScore(categories[n - 1], score, CategoryMax)]
      case None => earlier
  }

  /** The sum of the `score` fields of a breakdown. */
  function Total(scores: seq<CategoryScore>): int {
    if scores == [] then 0 else Total(scores[..|scores| - 1]) + scores[|scores| - 1].score
  }

  lemma TotalAppend(scores: seq<CategoryScore>, c: CategoryScore)
    ensures Total(scores + [c]) == Total(scores) + c.score
  {
    assert (scores + [c])[..|scores|] == scores;
  }

  /** The indices, in increasing order, of the first `n` matrices whose cell for the pair is defined. */
  function DefinedIndices(matrices: seq<Matrix>, mId: int, pId: int, n: nat): seq<nat>
    requires n <= |matrices|
  {
    if n == 0 then []
    else
      DefinedIndices(matrices, mId, pId, n - 1)
      + (if Cell(matrices[n - 1], mId, pId).Some? then [n - 1] else [])
  }

  /**
   * The defined indices are strictly increasing, below `n`, and a matrix is
   * listed exactly when its cell is defined (a zero score is defined too).
   */
  lemma {:induction false} DefinedIndicesSpec(matrices: seq<Matrix>, mId: int, pId: int, n: nat)
    requires n <= |matrices|
    ensures forall j :: 0 <= j < |DefinedIndices(matrices, mId, pId, n)| ==> DefinedIndices(matrices, mId, pId, n)[j] < n
    ensures forall j, k :: 0 <= j < k < |DefinedIndices(matrices, mId, pId, n)| ==>
      DefinedIndices(matrices, mId, pId, n)[j] < DefinedIndices(matrices, mId, pId, n)[k]
    ensures forall i :: 0 <= i < n ==> (i in DefinedIndices(matrices, mId, pId, n) <==> Cell(matrices[i], mId, pId).Some?)
  {
    if n > 0 {
      DefinedIndicesSpec(matrices, mId, pId, n - 1);
      var earlier := DefinedIndices(matrices, mId, pId, n - 1);
      var added: seq<nat> := if Cell(matrices[n - 1], mId, pId).Some? then [n - 1] else [];
      assert DefinedIndices(matrices, mId, pId, n) == earlier + added;
      assert n - 1 !in earlier;
    }
  }

  /**
   * The breakdown is the defined indices, in order, each turned into an
   * entry labelled with its own category, carrying its cell's score and the
   * ceiling 5.
   */
  lemma {:induction false} BreakdownFollowsMatrices(matrices: seq<Matrix>, categories: seq<string>, mId: int, pId: int, n: nat)
    requires n <= |matrices| && n <= |categories|
    ensures |Breakdown(matrices, categories, mId, pId, n)| == |DefinedIndices(matrices, mId, pId, n)|
    ensures forall j :: 0 <= j < |Breakdown(matrices, categories, mId, pId, n)| ==>
      var i := DefinedIndices(matrices, mId, pId, n)[j];
      && i < n
      && Cell(matrices[i], mId, pId).Some?
      && Breakdown(matrices, categories, mId, pId, n)[j] == CategoryScore(categories[i], Cell(matrices[i], mId, pId).value, CategoryMax)
  {
    if n > 0 {
      BreakdownFollowsMatrices(matrices, categories, mId, pId, n - 1);
    }
  }

  /**
   * The `forEach` body run over every matrix: `total` accumulates the
   * defined cells and `categoryScores` receives one entry per defined cell.
   */
  method ScoreCategories(matrices: seq<Matrix>, categories: seq<string>, mId: int, pId: int)
    returns (total: int, categoryScores: seq<CategoryScore>)
    requires |matrices| <= |categories|
    ensures categoryScores == Breakdown(matrices, categories, mId, pId, |matrices|)
    ensures total == Total(categoryScores)
  {
    total := 0;
    categoryScores := [];
    for index := 0 to |matrices|
      invariant categoryScores == Breakdown(matrices, categories, mId, pId, index)
      invariant total == Total(categoryScores)
    {
      var matrix := matrices[index];
      if 0 <= mId < |matrix| && matrix[mId].Some? && 0 <= pId < |matrix[mId].value| && matrix[mId].value[pId].Some? {
        var score := matrix[mId].value[pId].value;
        TotalAppend(categoryScores, CategoryScore(categories[index], score, CategoryMax));
        total := total + score;
        categoryScores := categoryScores + [CategoryScore(categories[index], score, CategoryMax)];
      }
    }
  }
}

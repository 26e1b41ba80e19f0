/**
 * The records of types.ts, and the static tables that App.tsx imports from
 * its `constants` module (sign list, one score matrix per category, the
 * category names and the score bands). The tables are values handed in
 * from outside; their literal contents are not part of this model.
 */
module Types {
  import opened Wrappers

  /** A selectable sign: its numeric id, display name and icon glyph. */
  datatype ZodiacSign = ZodiacSign(id: int, name: string, icon: string)

  /** One line of the per-category breakdown: label, score and the per-category ceiling. */
  datatype CategoryScore = CategoryScore(category: string, score: int, max: int)

  /** A score band: inclusive bounds, its label (`label` in types.ts, a reserved word here), its star count and its candidate texts. */
  datatype ScoreRange = ScoreRange(min: int, max: int, bandLabel: string, stars: int, predictions: seq<string>)

  /** What one evaluation produces and the page keeps in its `result` state. */
  datatype PredictionResult = PredictionResult(
    totalScore: int,
    maxScore: int,
    percentage: int,
    stars: int,
    scoreLabel: string,
    predictionText: string,
    categoryScores: seq<CategoryScore>)

  /** A matrix row indexed by the partner's id; a cell may be undefined. */
  type Row = seq<Option<int>>

  /** A category matrix indexed by the user's id; a row may be missing. */
  type Matrix = seq<Option<Row>>

  /** The static data the page is built on. */
  datatype Tables = Tables(
    signs: seq<ZodiacSign>,
    matrices: seq<Matrix>,
    categories: seq<string>,
    ranges: seq<ScoreRange>)
  {
    /**
     * What the data is built to satisfy: one category name per matrix, at
     * least one band (the fallback reads the first one), and no band
     * without a prediction text.
     */
    predicate Valid() {
      && |categories| == |matrices|
      && |ranges| > 0
      && forall i :: 0 <= i < |ranges| ==> |ranges[i].predictions| > 0
    }
  }
}

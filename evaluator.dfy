/**
 * The body of the timer in `calculateCompatibility` (App.tsx): score the
 * pair, select the band, draw one of its prediction texts and compute the
 * percentage against the fixed maximum of 35.
 */
module Evaluator {
  import opened Types
  import opened Scoring
  import opened Bands

  /** `maxPossible`: the percentage denominator, fixed however many categories were scored. */
  const MaxPossible := 35

  /**
   * `Math.round((total / 35) * 100)`. Math.round(x) is the integer p with
   * p - 1/2 <= x < p + 1/2 (halves round up).
   */
  function Percentage(total: int): (p: int)
    ensures (p as real) - 0.5 <= (total as real) / (MaxPossible as real) * 100.0 < (p as real) + 0.5
  {
    (40 * total + 7) / 14
  }

  /** Full marks give 100, nothing gives 0, and 30 of 35 (85.7...) rounds to 86. */
  lemma PercentageExamples()
    ensures Percentage(35) == 100 && Percentage(0) == 0 && Percentage(30) == 86
  {
  }

  /** Totals within 0..35 give percentages within 0..100. */
  lemma PercentageBounds(total: int)
    requires 0 <= total <= MaxPossible
    ensures 0 <= Percentage(total) <= 100
  {
  }

  /**
   * `Math.floor(Math.random() * len)` with the random number in [0, 1)
   * given as the fraction `rollNum / rollDen`: the floor of the scaled
   * fraction, which is always a valid index.
   */
  function DrawIndex(rollNum: nat, rollDen: nat, len: nat): (k: nat)
    requires rollNum < rollDen && len > 0
    ensures k * rollDen <= rollNum * len < (k + 1) * rollDen
    ensures k < len
  {
    var k := (rollNum * len) / rollDen;
    FloorDivBounds(rollNum * len, rollDen);
    ScaleBelow(rollNum, rollDen, len);
    CancelFactor(k, len, rollDen);
    k
  }

  lemma FloorDivBounds(x: nat, d: nat)
    requires d > 0
    ensures (x / d) * d <= x < (x / d + 1) * d
  {
    assert x == (x / d) * d + x % d;
  }

  lemma ScaleBelow(a: nat, b: nat, c: nat)
    requires a < b && c > 0
    ensures a * c < b * c
  {
    assert b * c - a * c == (b - a) * c;
  }

  lemma CancelFactor(k: nat, n: nat, d: nat)
    requires d > 0 && k * d < n * d
    ensures k < n
  {
    assert n * d - k * d == (n - k) * d;
  }

  /** The result one evaluation of the pair `(mId, pId)` produces for the given draw. */
  function Predict(tables: Tables, mId: int, pId: int, rollNum: nat, rollDen: nat): PredictionResult
    requires tables.Valid() && rollNum < rollDen
  {
    var scores := Breakdown(tables.matrices, tables.categories, mId, pId, |tables.matrices|);
    var total := Total(scores);
    var band := SelectRange(tables.ranges, total);
    PredictionResult(
      total,
      MaxPossible,
      Percentage(total),
      band.stars,
      band.bandLabel,
      band.predictions[DrawIndex(rollNum, rollDen, |band.predictions|)],
      scores)
  }

  /**
   * What every evaluation guarantees: the total is the sum of the
   * breakdown; the breakdown is the defined cells in matrix order; the
   * maximum is 35 whatever was skipped; the percentage is the rounded ratio;
   * stars and label come from the selected band, and the text is one of
   * that band's predictions.
   */
  lemma PredictSpec(tables: Tables, mId: int, pId: int, rollNum: nat, rollDen: nat)
    requires tables.Valid() && rollNum < rollDen
    ensures var r := Predict(tables, mId, pId, rollNum, rollDen);
      var band := tables.ranges[SelectedIndex(tables.ranges, r.totalScore)];
      && r.totalScore == Total(r.categoryScores)
      && r.categoryScores == Breakdown(tables.matrices, tables.categories, mId, pId, |tables.matrices|)
      && (forall j :: 0 <= j < |r.categoryScores| ==> r.categoryScores[j].max == CategoryMax)
      && r.maxScore == 35
      && (r.percentage as real) - 0.5 <= (r.totalScore as real) / 35.0 * 100.0 < (r.percentage as real) + 0.5
      && r.stars == band.stars
      && r.scoreLabel == band.bandLabel
      && r.predictionText in band.predictions
  {
    var n := |tables.matrices|;
    BreakdownFollowsMatrices(tables.matrices, tables.categories, mId, pId, n);
  }

  /**
   * Two evaluations of the same pair differ at most in the prediction text,
   * and only through the random draw.
   */
  lemma PredictOnlyTextVaries(tables: Tables, mId: int, pId: int, num1: nat, den1: nat, num2: nat, den2: nat)
    requires tables.Valid() && num1 < den1 && num2 < den2
    ensures var r1, r2 := Predict(tables, mId, pId, num1, den1), Predict(tables, mId, pId, num2, den2);
      r1.(predictionText := r2.predictionText) == r2
  {
  }

  /** The timer body: the scoring loop followed by the band, the draw and the percentage. */
  method Evaluate(tables: Tables, mId: int, pId: int, rollNum: nat, rollDen: nat) returns (r: PredictionResult)
    requires tables.Valid() && rollNum < rollDen
    ensures r == Predict(tables, mId, pId, rollNum, rollDen)
  {
    var total, categoryScores := ScoreCategories(tables.matrices, tables.categories, mId, pId);
    var range := SelectRange(tables.ranges, total);
    var randomPrediction := range.predictions[DrawIndex(rollNum, rollDen, |range.predictions|)];
    var maxPossible := MaxPossible;
    var percentage := Percentage(total);
    r := PredictionResult(total, maxPossible, percentage, range.stars, range.bandLabel, randomPrediction, categoryScores);
  }
}

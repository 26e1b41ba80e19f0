/**
 * The state of the `App` component (App.tsx): the two selections, the
 * current result and the loading flag, with the handlers that change them.
 * A selection is None while the `<select>` still shows its empty
 * placeholder, and otherwise the chosen sign's id.
 */
module Ui {
  import opened Wrappers
  import opened Types
  import opened Evaluator
  import opened Share
  import opened Lines

  /** `Number(selection)`: the empty selection converts to 0. */
  function SelectionNumber(selection: Option<int>): int {
    match selection
    case Some(id) => id
    case None => 0
  }

  class App {
    const tables: Tables
    var mySignId: Option<int>
    var partnerSignId: Option<int>
    var result: Option<PredictionResult>
    var loading: bool

    /** The static tables keep the shape they are built with. */
    predicate Valid()
      reads this
    {
      tables.Valid()
    }

    /** The initial state: nothing selected, no result, not loading. */
    constructor (tables: Tables)
      requires tables.Valid()
      ensures this.tables == tables && Valid()
      ensures mySignId == None && partnerSignId == None && result == None && !loading
    {
      this.tables := tables;
      mySignId := None;
      partnerSignId := None;
      result := None;
      loading := false;
    }

    /** The `onChange` of the first selector. */
    method SelectMySign(id: int)
      modifies this
      ensures mySignId == Some(id)
      ensures partnerSignId == old(partnerSignId) && result == old(result) && loading == old(loading)
    {
      mySignId := Some(id);
    }

    /** The `onChange` of the second selector. */
    method SelectPartnerSign(id: int)
      modifies this
      ensures partnerSignId == Some(id)
      ensures mySignId == old(mySignId) && result == old(result) && loading == old(loading)
    {
      partnerSignId := Some(id);
    }

    /** Whether the calculate button is enabled: both signs chosen and no calculation pending. */
    predicate CanCalculate()
      reads this
    {
      mySignId.Some? && partnerSignId.Some? && !loading
    }

    /**
     * The synchronous part of `calculateCompatibility`: with an empty
     * selection it does nothing; otherwise it clears the result, sets the
     * loading flag and hands back the ids the pending timer captured.
     */
    method StartCalculation() returns (pending: Option<(int, int)>)
      modifies this
      ensures pending.None? <==> old(mySignId).None? || old(partnerSignId).None?
      ensures pending.None? ==> unchanged(this)
      ensures pending.Some? ==> pending.value == (old(mySignId).value, old(partnerSignId).value)
      ensures pending.Some? ==> loading && result == None
      ensures mySignId == old(mySignId) && partnerSignId == old(partnerSignId)
    {
      if mySignId == None || partnerSignId == None {
        return None;
      }
      loading := true;
      result := None;
      pending := Some((mySignId.value, partnerSignId.value));
    }

    /**
     * The timer body: evaluates the captured pair with the random draw
     * `rollNum / rollDen`, stores the result and clears the loading flag.
     */
    method CompleteCalculation(mId: int, pId: int, rollNum: nat, rollDen: nat)
      requires Valid() && rollNum < rollDen
      modifies this
      ensures result == Some(Predict(tables, mId, pId, rollNum, rollDen))
      ensures !loading
      ensures mySignId == old(mySignId) && partnerSignId == old(partnerSignId)
    {
      var r := Evaluate(tables, mId, pId, rollNum, rollDen);
      result := Some(r);
      loading := false;
    }

    /** The "start again" button: clears both selections and the result, and nothing else. */
    method Reset()
      modifies this
      ensures mySignId == None && partnerSignId == None && result == None
      ensures loading == old(loading)
    {
      mySignId := None;
      partnerSignId := None;
      result := None;
    }

    /**
     * The text `handleShare` hands to the share sheet or the clipboard:
     * nothing without a result, otherwise the share template filled with the
     * names of the currently selected signs.
     */
    function ShareText(): (text: Option<string>)
      reads this
      ensures text.None? <==> result.None?
      ensures text.Some? ==> SplitLines(text.value)[0] == Header
    {
      match result
      case None => None
      case Some(r) =>
        var myName := SignName(tables.signs, SelectionNumber(mySignId));
        var partnerName := SignName(tables.signs, SelectionNumber(partnerSignId));
        var message := ShareMessage(myName, partnerName, r);
        HeaderFirstLine(myName, partnerName, r);
        Some(message)
    }

    /** `isHighScore`: a result with four stars or more. */
    predicate IsHighScore()
      reads this
    {
      result.Some? && result.value.stars >= 4
    }

    /** `isLowScore`: a result with two stars or fewer. */
    predicate IsLowScore()
      reads this
    {
      result.Some? && result.value.stars <= 2
    }

    /** A result is never styled both as a high and as a low score. */
    lemma HighAndLowExclusive()
      ensures !(IsHighScore() && IsLowScore())
    {
    }
  }
}

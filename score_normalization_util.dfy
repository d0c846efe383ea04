/**
 * Helpers shared by the score combination techniques: checking the technique's parameters
 * against the ones it supports, and setting one normalized score of a document, one slot per
 * sub-query.
 */
module ScoreNormalizationUtil {
  import opened Wrappers
  import opened JsonTree
  import opened JavaExceptions
  import DottedPaths

  const PARAM_NAME_WEIGHTS: string := "weights"

  // ---------------------------------------------------------------------------------------------
  // Parameter validation
  // ---------------------------------------------------------------------------------------------

  /** `Character.toLowerCase` on the ASCII letters; every other character is left as it is. */
  function AsciiLower(c: char): (r: char)
    ensures 'A' <= c <= 'Z' ==> 'a' <= r <= 'z' && r as int - c as int == 32
    ensures !('A' <= c <= 'Z') ==> r == c
  {
    if 'A' <= c <= 'Z' then (c as int + 32) as char else c
  }

  /** `String.equalsIgnoreCase`, for strings whose case pairs are ASCII letters. */
  predicate EqualsIgnoreCase(a: string, b: string) {
    |a| == |b| && forall i :: 0 <= i < |a| ==> AsciiLower(a[i]) == AsciiLower(b[i])
  }

  const UNSUPPORTED_PARAM_PREFIX: string :=
    "provided parameter for combination technique is not supported. supported parameters are ["

  function UnsupportedParamMessage(supportedParams: seq<string>): string {
    UNSUPPORTED_PARAM_PREFIX + DottedPaths.Join(",", supportedParams) + "]"
  }

  const WEIGHTS_NOT_A_LIST_MESSAGE: string := "parameter [" + PARAM_NAME_WEIGHTS + "] must be a collection of numbers"

  /** Some key of the parameters is not among the supported ones (an exact, case-sensitive test). */
  predicate HasUnsupportedParam(actualParams: map<string, Json>, supportedParams: seq<string>) {
    exists name :: name in actualParams && name !in supportedParams
  }

  /** Some key of the parameters is "weights" in any letter case. */
  predicate NamesWeights(actualParams: map<string, Json>) {
    exists name :: name in actualParams && EqualsIgnoreCase(PARAM_NAME_WEIGHTS, name)
  }

  /**
   * `validateParams`. `supportedParams` is the supported set, listed in the order the message joins
   * it. Null or empty parameters are fine; otherwise an unsupported key throws, and then a key that
   * names "weights" in any case requires the value under the exact key "weights" to be a list.
   */
  function ValidateParams(actualParams: Option<map<string, Json>>, supportedParams: seq<string>): (r: Result<(), Exception>)
    ensures actualParams.None? || actualParams.value == map[] ==> r.Ok?
    ensures actualParams.Some? && HasUnsupportedParam(actualParams.value, supportedParams) ==>
              r == Err(IllegalArgument(UnsupportedParamMessage(supportedParams)))
    ensures actualParams.Some? && !HasUnsupportedParam(actualParams.value, supportedParams) ==>
              (r.Ok? <==> !NamesWeights(actualParams.value) || Get(actualParams.value, PARAM_NAME_WEIGHTS).JList?)
    ensures r.Err? ==> r.error.IllegalArgument?
  {
    if actualParams.None? || actualParams.value == map[] then Ok(())
    else
      var params := actualParams.value;
      if HasUnsupportedParam(params, supportedParams) then
        Err(IllegalArgument(UnsupportedParamMessage(supportedParams)))
      else if NamesWeights(params) && !Get(params, PARAM_NAME_WEIGHTS).JList? then
        Err(IllegalArgument(WEIGHTS_NOT_A_LIST_MESSAGE))
      else Ok(())
  }

  /**
   * When "weights" is the only supported spelling of the weights parameter, validation accepts
   * exactly the supported keys with, if "weights" is given, a list under it.
   */
  lemma ExactWeightsKeyDecides(actualParams: map<string, Json>, supportedParams: seq<string>)
    requires actualParams != map[]
    requires forall s :: s in supportedParams && EqualsIgnoreCase(PARAM_NAME_WEIGHTS, s) ==> s == PARAM_NAME_WEIGHTS
    ensures ValidateParams(Some(actualParams), supportedParams).Ok?
            <==> (forall name :: name in actualParams ==> name in supportedParams)
                 && (PARAM_NAME_WEIGHTS in actualParams ==> actualParams[PARAM_NAME_WEIGHTS].JList?)
  {
    if !HasUnsupportedParam(actualParams, supportedParams) && NamesWeights(actualParams) {
      var name :| name in actualParams && EqualsIgnoreCase(PARAM_NAME_WEIGHTS, name);
      assert name in supportedParams;
    }
  }

  /**
   * The weights test looks the value up under the exact key "weights": a supported case variant
   * of it is refused even though it holds a list.
   */
  lemma CaseVariantOfWeightsIsRefused()
    ensures ValidateParams(Some(map["Weights" := JList([])]), ["weights", "Weights"])
            == Err(IllegalArgument(WEIGHTS_NOT_A_LIST_MESSAGE))
  {
    var params := map["Weights" := JList([])];
    assert "Weights" in params;
    assert "Weights"[0] == 'W' && "Weights"[1..] == PARAM_NAME_WEIGHTS[1..];
    assert EqualsIgnoreCase(PARAM_NAME_WEIGHTS, "Weights");
    assert NamesWeights(params);
    assert !HasUnsupportedParam(params, ["weights", "Weights"]);
  }

  // ---------------------------------------------------------------------------------------------
  // One normalized score per document and sub-query
  // ---------------------------------------------------------------------------------------------

  /** A fresh score list of `n` slots, all zero. */
  function Zeros(n: nat): (r: seq<real>)
    ensures |r| == n
    ensures forall i :: 0 <= i < n ==> r[i] == 0.0
  {
    seq(n, _ => 0.0)
  }

  /** `new ArrayList<>(n)` rejects a negative capacity with this message. */
  function IllegalCapacityMessage(n: int): string {
    "Illegal Capacity: " + DottedPaths.IntToString(n)
  }

  /**
   * The outcome of `setNormalizedScore` and the score map afterwards: an absent document first gets
   * `numberOfSubQueries` zeros (which stay even when the slot then turns out to be out of range),
   * and the slot is set in the document's list, which keeps its length.
   */
  function ScoresAfterSet<D>(normalizedScores: map<D, seq<real>>, doc: D, subQueryIndex: int, numberOfSubQueries: int,
                             normalizedScore: real): (r: (Result<(), Exception>, map<D, seq<real>>))
    ensures doc !in normalizedScores && numberOfSubQueries < 0 ==>
              r == (Err(IllegalArgument(IllegalCapacityMessage(numberOfSubQueries))), normalizedScores)
    ensures r.0.Err? ==> r.0.error == IndexOutOfBounds || (doc !in normalizedScores && numberOfSubQueries < 0)
    ensures r.0.Ok? <==> 0 <= subQueryIndex
                         && (if doc in normalizedScores then subQueryIndex < |normalizedScores[doc]|
                             else subQueryIndex < numberOfSubQueries)
    ensures r.0.Ok? ==> doc in r.1 && subQueryIndex < |r.1[doc]| && r.1[doc][subQueryIndex] == normalizedScore
    ensures r.1.Keys == normalizedScores.Keys + (if doc !in normalizedScores && numberOfSubQueries < 0 then {} else {doc})
    ensures forall d :: d in r.1 && d != doc ==> d in normalizedScores && r.1[d] == normalizedScores[d]
    ensures doc in normalizedScores ==> doc in r.1 && |r.1[doc]| == |normalizedScores[doc]|
    ensures doc in normalizedScores ==>
              forall j :: 0 <= j < |normalizedScores[doc]| && j != subQueryIndex ==> r.1[doc][j] == normalizedScores[doc][j]
    ensures doc !in normalizedScores && numberOfSubQueries >= 0 ==>
              doc in r.1 && |r.1[doc]| == numberOfSubQueries
              && forall j :: 0 <= j < numberOfSubQueries && j != subQueryIndex ==> r.1[doc][j] == 0.0
  {
    if doc !in normalizedScores && numberOfSubQueries < 0 then
      (Err(IllegalArgument(IllegalCapacityMessage(numberOfSubQueries))), normalizedScores)
    else
      var scores := if doc in normalizedScores then normalizedScores[doc] else Zeros(numberOfSubQueries);
      var padded := normalizedScores[doc := scores];
      if 0 <= subQueryIndex < |scores| then (Ok(()), padded[doc := scores[subQueryIndex := normalizedScore]])
      else (Err(IndexOutOfBounds), padded)
  }

  /** Setting a slot twice keeps the second score and nothing of the first. */
  lemma SecondSetWins<D>(normalizedScores: map<D, seq<real>>, doc: D, subQueryIndex: int, numberOfSubQueries: int,
                         first: real, second: real)
    requires ScoresAfterSet(normalizedScores, doc, subQueryIndex, numberOfSubQueries, first).0.Ok?
    ensures var once := ScoresAfterSet(normalizedScores, doc, subQueryIndex, numberOfSubQueries, first).1;
      ScoresAfterSet(once, doc, subQueryIndex, numberOfSubQueries, second)
      == ScoresAfterSet(normalizedScores, doc, subQueryIndex, numberOfSubQueries, second)
  {
    var once := ScoresAfterSet(normalizedScores, doc, subQueryIndex, numberOfSubQueries, first).1;
    var scores := if doc in normalizedScores then normalizedScores[doc] else Zeros(numberOfSubQueries);
    assert once == normalizedScores[doc := scores[subQueryIndex := first]];
    assert scores[subQueryIndex := first][subQueryIndex := second] == scores[subQueryIndex := second];
    assert once[doc := once[doc]][doc := once[doc][subQueryIndex := second]]
           == normalizedScores[doc := scores][doc := scores[subQueryIndex := second]];
  }

  /** The map from each document to its normalized scores, one per sub-query. */
  class NormalizedScores<D(==)> {
    var normalizedScores: map<D, seq<real>>

    constructor(initial: map<D, seq<real>>)
      ensures normalizedScores == initial
    {
      normalizedScores := initial;
    }

    /** `setNormalizedScore`, with `normalizedScores` as the map it is given. */
    method SetNormalizedScore(doc: D, subQueryIndex: int, numberOfSubQueries: int, normalizedScore: real)
      returns (r: Result<(), Exception>)
      modifies this
      ensures (r, normalizedScores)
              == ScoresAfterSet(old(normalizedScores), doc, subQueryIndex, numberOfSubQueries, normalizedScore)
    {
      var scores: seq<real>;
      if doc in normalizedScores {
        scores := normalizedScores[doc];
        assert normalizedScores[doc := scores] == normalizedScores;
      } else {
        if numberOfSubQueries < 0 {
          return Err(IllegalArgument(IllegalCapacityMessage(numberOfSubQueries)));
        }
        scores := [];
        var i := 0;
        while i < numberOfSubQueries
          invariant 0 <= i <= numberOfSubQueries
          invariant scores == Zeros(i)
        {
          scores := scores + [0.0];
          i := i + 1;
        }
        normalizedScores := normalizedScores[doc := scores];
      }
      if !(0 <= subQueryIndex < |scores|) {
        return Err(IndexOutOfBounds);
      }
      scores := scores[subQueryIndex := normalizedScore];
      normalizedScores := normalizedScores[doc := scores];
      r := Ok(());
    }
  }
}

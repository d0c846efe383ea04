/**
 * The weight of a hybrid query: one Lucene weight per sub-query, and the three
 * policies the hybrid weight adds on top of them (caching, explanation, scorer supplier).
 * The sub-weights themselves are Lucene objects; for the leaf and document at hand the
 * model records what each of them answers.
 */
module HybridQueryWeight {
  import opened Wrappers
  import opened JavaExceptions

  /** Lucene's `Explanation`: whether it matches, its value, description and details. */
  datatype Explanation = Explanation(isMatch: bool, value: real, description: string, details: seq<Explanation>)

  /** An opaque identity for a sub-weight's `ScorerSupplier`. */
  datatype ScorerSupplierRef = ScorerSupplierRef(id: nat)

  /** What one sub-query weight's `isCacheable` answers for the leaf reader context at hand. */
  datatype SubWeight = SubWeight(cacheable: bool)

  const COMBINED_DESCRIPTION := "combined score of:"
  const NO_MATCH_DESCRIPTION := "no matching clause"

  /**
   * What the constructor's lambda makes of one `createWeight` outcome: an IOException is rethrown
   * wrapped in a RuntimeException, any other exception passes through.
   */
  function CatchIO(e: Exception): Exception {
    if e.IO? then RuntimeCause(e) else e
  }

  /**
   * The constructor's `subQueries.stream().map(q -> searcher.createWeight(...))`:
   * `createWeight` stands for the searcher's rewrite-and-create call, which may throw. The stream
   * creates the weights in sub-query order and stops at the first exception.
   */
  function CreateWeights<Q, W>(subQueries: seq<Q>, createWeight: Q -> Result<W, Exception>): (r: Result<seq<W>, Exception>)
    ensures r.Ok? <==> forall i :: 0 <= i < |subQueries| ==> createWeight(subQueries[i]).Ok?
    ensures r.Ok? ==> |r.value| == |subQueries|
    ensures r.Ok? ==> forall i :: 0 <= i < |subQueries| ==> r.value[i] == createWeight(subQueries[i]).value
    ensures r.Err? ==> exists i :: 0 <= i < |subQueries| && FirstFailure(subQueries, createWeight, i)
                                   && r.error == CatchIO(createWeight(subQueries[i]).error)
  {
    if |subQueries| == 0 then Ok([])
    else
      match createWeight(subQueries[0])
      case Err(e) =>
        assert FirstFailure(subQueries, createWeight, 0);
        Err(CatchIO(e))
      case Ok(w) =>
        match CreateWeights(subQueries[1..], createWeight)
        case Err(e) =>
          var i :| 0 <= i < |subQueries[1..]| && FirstFailure(subQueries[1..], createWeight, i)
                   && e == CatchIO(createWeight(subQueries[1..][i]).error);
          assert FirstFailure(subQueries, createWeight, i + 1) by {
            forall j | 0 <= j < i + 1 ensures createWeight(subQueries[j]).Ok? {
              if j > 0 { assert subQueries[j] == subQueries[1..][j - 1]; }
            }
          }
          Err(e)
        case Ok(ws) => Ok([w] + ws)
  }

  /** Sub-query `i` is the first whose weight cannot be created. */
  predicate FirstFailure<Q, W>(subQueries: seq<Q>, createWeight: Q -> Result<W, Exception>, i: int)
    requires 0 <= i < |subQueries|
  {
    createWeight(subQueries[i]).Err? && forall j :: 0 <= j < i ==> createWeight(subQueries[j]).Ok?
  }

  /** `weights.stream().allMatch(w -> w.isCacheable(ctx))`. */
  function AllCacheable(weights: seq<SubWeight>): (r: bool)
    ensures r <==> forall i :: 0 <= i < |weights| ==> weights[i].cacheable
  {
    if |weights| == 0 then true else weights[0].cacheable && AllCacheable(weights[1..])
  }

  /**
   * `isCacheable(ctx)`: never cacheable with more sub-queries than the hybrid query
   * allows, whatever the sub-weights say; otherwise cacheable iff every sub-weight is.
   */
  function IsCacheable(weights: seq<SubWeight>, maxNumberOfSubQueries: nat): (r: bool)
    ensures |weights| > maxNumberOfSubQueries ==> !r
    ensures |weights| <= maxNumberOfSubQueries ==> (r <==> forall i :: 0 <= i < |weights| ==> weights[i].cacheable)
  {
    if |weights| > maxNumberOfSubQueries then false else AllCacheable(weights)
  }

  /** `scorerSuppliers.stream().allMatch(Objects::isNull)`. */
  function AllNull(suppliers: seq<Option<ScorerSupplierRef>>): (r: bool)
    ensures r <==> forall i :: 0 <= i < |suppliers| ==> suppliers[i].None?
  {
    if |suppliers| == 0 then true else suppliers[0].None? && AllNull(suppliers[1..])
  }

  /**
   * The decision at the end of `scorerSupplier`: given the merged per-sub-query suppliers,
   * null when there are none or all are null, otherwise a hybrid supplier over all of them.
   */
  function ScorerSupplier(merged: seq<Option<ScorerSupplierRef>>): (r: Option<seq<Option<ScorerSupplierRef>>>)
    ensures r.None? <==> (|merged| == 0 || forall i :: 0 <= i < |merged| ==> merged[i].None?)
    ensures r.Some? ==> r.value == merged && exists i :: 0 <= i < |merged| && merged[i].Some?
  {
    if |merged| == 0 || AllNull(merged) then None else Some(merged)
  }

  function Max(a: real, b: real): real {
    if a >= b then a else b
  }

  /** The value `explain` reports on a match: the running `max`, which starts at 0. */
  function MaxMatchingScore(subs: seq<Explanation>): real {
    if |subs| == 0 then 0.0
    else
      var last := subs[|subs| - 1];
      var m := MaxMatchingScore(subs[..|subs| - 1]);
      if last.isMatch then Max(m, last.value) else m
  }

  /** The reported value is max(0, the largest matching value): at least each, and one of them or 0. */
  lemma {:induction false} MaxMatchingScoreIsMaximum(subs: seq<Explanation>)
    ensures MaxMatchingScore(subs) >= 0.0
    ensures forall i :: 0 <= i < |subs| && subs[i].isMatch ==> subs[i].value <= MaxMatchingScore(subs)
    ensures MaxMatchingScore(subs) == 0.0
            || exists i :: 0 <= i < |subs| && subs[i].isMatch && subs[i].value == MaxMatchingScore(subs)
  {
    if |subs| > 0 {
      var init := subs[..|subs| - 1];
      MaxMatchingScoreIsMaximum(init);
      assert forall i :: 0 <= i < |init| ==> init[i] == subs[i];
    }
  }

  /**
   * `explain(context, doc)`, given what each sub-weight's `explain` returns, in weight order. The match
   * case keeps every sub-explanation, matching or not, as the source's else branch does.
   */
  method Explain(subs: seq<Explanation>) returns (r: Explanation)
    ensures r.isMatch <==> exists i :: 0 <= i < |subs| && subs[i].isMatch
    ensures r.details == subs
    ensures r.isMatch ==> r.description == COMBINED_DESCRIPTION && r.value == MaxMatchingScore(subs)
    ensures !r.isMatch ==> r.description == NO_MATCH_DESCRIPTION && r.value == 0.0
  {
    var matched := false;
    var max := 0.0;
    var subsOnNoMatch: seq<Explanation> := [];
    var subsOnMatch: seq<Explanation> := [];
    var i := 0;
    while i < |subs|
      invariant 0 <= i <= |subs|
      invariant matched <==> exists j :: 0 <= j < i && subs[j].isMatch
      invariant max == MaxMatchingScore(subs[..i])
      invariant subsOnMatch == subs[..i]
      invariant !matched ==> subsOnNoMatch == subs[..i]
    {
      var e := subs[i];
      assert subs[..i + 1][..i] == subs[..i];
      if e.isMatch {
        matched := true;
        max := Max(max, e.value);
        subsOnMatch := subsOnMatch + [e];
      } else {
        if !matched {
          subsOnNoMatch := subsOnNoMatch + [e];
        }
        subsOnMatch := subsOnMatch + [e];
      }
      i := i + 1;
    }
    assert subs[..i] == subs;
    if matched {
      r := Explanation(true, max, COMBINED_DESCRIPTION, subsOnMatch);
    } else {
      r := Explanation(false, 0.0, NO_MATCH_DESCRIPTION, subsOnNoMatch);
    }
  }
}

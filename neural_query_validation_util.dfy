/**
 * The checks a neural query must pass before it is accepted, one validator per
 * kind of target field: a plain k-NN field, a semantic field with a dense model,
 * and a semantic field with a sparse model. Each returns the list of error texts.
 */
module NeuralQueryValidationUtil {
  import opened Wrappers
  import opened NeuralQueryTypes
  import opened JavaCollections
  import DottedPaths

  const ERR_TEXT_OR_IMAGE := "Either query_text or query_image must be provided."
  const ERR_ONE_KNN_TYPE := "Only one of k, max_distance, or min_score can be provided"
  const ERR_EMPTY_MODEL_ID := "model_id field can not be empty"
  const ERR_MODEL_ID_REQUIRED := "model_id must be provided."
  const ERR_DENSE_QUERY_TOKENS :=
    "Target field is a semantic field using a dense model. query_tokens is not supported since it is for the sparse model."
  const ERR_TEXT_OR_TOKENS := "Either query_text or query_tokens must be provided"
  const ERR_EMPTY_QUERY_TEXT := "query_text field can not be empty"

  const DENSE_ONLY_FIELDS_PREFIX: string := "Target field is a semantic field using a sparse model. ["
  const DENSE_ONLY_FIELDS_SUFFIX: string := "] are not supported since they are for the dense model."

  function DenseOnlyFieldsMessage(joinedNames: string): string {
    DENSE_ONLY_FIELDS_PREFIX + joinedNames + DENSE_ONLY_FIELDS_SUFFIX
  }

  /** `Character.isWhitespace`: Unicode space separators except the no-break ones, and the ASCII controls. */
  predicate IsJavaWhitespace(c: char) {
    c == ' ' || c == '\t' || c == '\n' || c == '\U{000B}' || c == '\U{000C}' || c == '\r'
    || ('\U{001C}' <= c <= '\U{001F}') || c == '\U{1680}' || ('\U{2000}' <= c <= '\U{2006}')
    || ('\U{2008}' <= c <= '\U{200A}') || c == '\U{2028}' || c == '\U{2029}' || c == '\U{205F}' || c == '\U{3000}'
  }

  /** `StringUtils.isBlank`: null, empty, or whitespace only. */
  predicate IsBlank(s: Option<string>) {
    s.None? || forall i :: 0 <= i < |s.value| ==> IsJavaWhitespace(s.value[i])
  }

  /** The parameters a sparse model rejects, each standing for its preferred name. */
  datatype DenseOnlyParam =
    | QueryImageParam | KParam | MaxDistanceParam | MinScoreParam
    | ExpandNestedParam | FilterParam | MethodParametersParam | RescoreParam

  function PreferredName(p: DenseOnlyParam): string {
    match p
    case QueryImageParam => QUERY_IMAGE
    case KParam => K
    case MaxDistanceParam => MAX_DISTANCE
    case MinScoreParam => MIN_SCORE
    case ExpandNestedParam => EXPAND_NESTED
    case FilterParam => FILTER
    case MethodParametersParam => METHOD_PARAMETERS
    case RescoreParam => RESCORE
  }

  /** The parameters `getFieldsOnlySupportedByDenseModel` tests. */
  const DENSE_ONLY_PARAMS: set<DenseOnlyParam> :=
    {QueryImageParam, KParam, MaxDistanceParam, MinScoreParam, ExpandNestedParam, FilterParam, MethodParametersParam,
     RescoreParam}

  /** Whether the query sets parameter `p`. */
  predicate Gives(f: NeuralQueryFields, p: DenseOnlyParam) {
    match p
    case QueryImageParam => f.queryImage.Some?
    case KParam => f.k.Some?
    case MaxDistanceParam => f.maxDistance.Some?
    case MinScoreParam => f.minScore.Some?
    case ExpandNestedParam => f.expandNested.Some?
    case FilterParam => f.filter.Some?
    case MethodParametersParam => f.methodParameters.Some?
    case RescoreParam => f.rescoreContext.Some?
  }

  /**
   * `getFieldsOnlySupportedByDenseModel`: the dense-only parameters the query sets (the Java set
   * holds their preferred names, which are distinct).
   */
  function DenseOnlyParamsGiven(f: NeuralQueryFields): set<DenseOnlyParam> {
    set p | p in DENSE_ONLY_PARAMS && Gives(f, p)
  }

  /** The dense-only parameters the query sets are exactly those it gives. */
  lemma DenseOnlyParamsGivenExactly(f: NeuralQueryFields)
    ensures forall p :: p in DenseOnlyParamsGiven(f) <==> Gives(f, p)
  {
    forall p
      ensures p in DenseOnlyParamsGiven(f) <==> Gives(f, p)
    {
      match p
      case QueryImageParam =>
      case KParam =>
      case MaxDistanceParam =>
      case MinScoreParam =>
      case ExpandNestedParam =>
      case FilterParam =>
      case MethodParametersParam =>
      case RescoreParam =>
    }
  }

  /** The three kNN query types. */
  predicate IsKnnQueryType(p: DenseOnlyParam) {
    p.KParam? || p.MaxDistanceParam? || p.MinScoreParam?
  }

  /** The kNN query types the query sets. */
  function KnnQueryTypesGiven(f: NeuralQueryFields): (r: set<DenseOnlyParam>)
    ensures forall p :: p in r <==> IsKnnQueryType(p) && Gives(f, p)
  {
    (if f.k.Some? then {KParam} else {})
    + (if f.maxDistance.Some? then {MaxDistanceParam} else {})
    + (if f.minScore.Some? then {MinScoreParam} else {})
  }

  /** `countKnnQueryTypes`: one increment per kNN type that is set. */
  method CountKnnQueryTypes(qb: NeuralQueryBuilder) returns (counter: nat)
    ensures counter == |KnnQueryTypesGiven(qb.Fields())|
    ensures counter == 0 <==> qb.k.None? && qb.maxDistance.None? && qb.minScore.None?
  {
    ghost var f := qb.Fields();
    counter := 0;
    if qb.k.Some? {
      counter := counter + 1;
    }
    ghost var given: set<DenseOnlyParam> := if f.k.Some? then {KParam} else {};
    assert counter == |given|;
    if qb.maxDistance.Some? {
      counter := counter + 1;
    }
    ghost var more: set<DenseOnlyParam> := if f.maxDistance.Some? then {MaxDistanceParam} else {};
    assert given * more == {};
    given := given + more;
    assert counter == |given|;
    if qb.minScore.Some? {
      counter := counter + 1;
    }
    more := if f.minScore.Some? then {MinScoreParam} else {};
    assert given * more == {};
    given := given + more;
    assert counter == |given|;
    assert given == KnnQueryTypesGiven(f);
  }

  /** The errors of the rules shared by the two dense validators, in the order they are added. */
  function DenseCommonErrors(f: NeuralQueryFields): seq<string> {
    (if IsBlank(f.queryText) && IsBlank(f.queryImage) then [ERR_TEXT_OR_IMAGE] else [])
    + (if |KnnQueryTypesGiven(f)| > 1 then [ERR_ONE_KNN_TYPE] else [])
    + (if f.modelId == Some("") then [ERR_EMPTY_MODEL_ID] else [])
  }

  /**
   * `validateNeuralQueryForDenseCommonRules`: reports the shared dense errors and, when no kNN
   * type is set, sets `k` to DEFAULT_K on the builder; no other field changes. Unless it reports
   * the "only one" error, exactly one kNN type is set afterwards.
   */
  method ValidateNeuralQueryForDenseCommonRules(qb: NeuralQueryBuilder) returns (errors: seq<string>)
    modifies qb`k
    ensures errors == DenseCommonErrors(old(qb.Fields()))
    ensures qb.k == if old(qb.k.None? && qb.maxDistance.None? && qb.minScore.None?) then Some(DEFAULT_K) else old(qb.k)
    ensures ERR_ONE_KNN_TYPE !in errors ==> |KnnQueryTypesGiven(qb.Fields())| == 1
  {
    errors := [];
    if IsBlank(qb.queryText) && IsBlank(qb.queryImage) {
      errors := errors + [ERR_TEXT_OR_IMAGE];
    }
    var knnQueryTypes := CountKnnQueryTypes(qb);
    if knnQueryTypes > 1 {
      errors := errors + [ERR_ONE_KNN_TYPE];
    } else if knnQueryTypes == 0 {
      qb.k := Some(DEFAULT_K);
      assert KnnQueryTypesGiven(qb.Fields()) == {KParam};
    }
    if qb.modelId == Some("") {
      errors := errors + [ERR_EMPTY_MODEL_ID];
    }
  }

  /**
   * `validateNeuralQueryForKnn`: the dense rules, plus "model_id must be provided." for a missing
   * model id when the cluster is older than the version that supports a default dense model id.
   */
  function KnnErrors(f: NeuralQueryFields, defaultModelIdSupported: bool): seq<string> {
    DenseCommonErrors(f) + (if !defaultModelIdSupported && f.modelId.None? then [ERR_MODEL_ID_REQUIRED] else [])
  }

  method ValidateNeuralQueryForKnn(qb: NeuralQueryBuilder, defaultModelIdSupported: bool) returns (errors: seq<string>)
    modifies qb`k
    ensures errors == KnnErrors(old(qb.Fields()), defaultModelIdSupported)
    ensures qb.k == if old(qb.k.None? && qb.maxDistance.None? && qb.minScore.None?) then Some(DEFAULT_K) else old(qb.k)
  {
    errors := ValidateNeuralQueryForDenseCommonRules(qb);
    if !defaultModelIdSupported {
      if qb.modelId.None? {
        errors := errors + [ERR_MODEL_ID_REQUIRED];
      }
    }
  }

  /** `validateNeuralQueryForSemanticDense`: the dense rules, plus one error when query tokens are given. */
  function SemanticDenseErrors(f: NeuralQueryFields): seq<string> {
    DenseCommonErrors(f) + (if f.queryTokensMapSupplier.Some? then [ERR_DENSE_QUERY_TOKENS] else [])
  }

  method ValidateNeuralQueryForSemanticDense(qb: NeuralQueryBuilder) returns (errors: seq<string>)
    modifies qb`k
    ensures errors == SemanticDenseErrors(old(qb.Fields()))
    ensures qb.k == if old(qb.k.None? && qb.maxDistance.None? && qb.minScore.None?) then Some(DEFAULT_K) else old(qb.k)
  {
    errors := ValidateNeuralQueryForDenseCommonRules(qb);
    if qb.queryTokensMapSupplier.Some? {
      errors := errors + [ERR_DENSE_QUERY_TOKENS];
    }
  }

  function PreferredNames(ps: seq<DenseOnlyParam>): (r: seq<string>)
    ensures |r| == |ps|
  {
    if |ps| == 0 then [] else [PreferredName(ps[0])] + PreferredNames(ps[1..])
  }

  /** The sparse validator's errors other than the dense-only-parameter one, in order. */
  function SparseQueryTextAndModelIdErrors(f: NeuralQueryFields): seq<string> {
    (if f.queryTokensMapSupplier.None? && f.queryText.None? then [ERR_TEXT_OR_TOKENS]
     else if f.queryTokensMapSupplier.None? && f.queryText == Some("") then [ERR_EMPTY_QUERY_TEXT]
     else [])
    + (if f.modelId == Some("") then [ERR_EMPTY_MODEL_ID] else [])
  }

  /**
   * `validateNeuralQueryForSemanticSparse`: the query-text and model-id errors, then a single error
   * naming the dense-only parameters that are set (listed in hash-set order). It changes nothing.
   */
  method ValidateNeuralQueryForSemanticSparse(qb: NeuralQueryBuilder) returns (errors: seq<string>)
    ensures var base := SparseQueryTextAndModelIdErrors(qb.Fields());
      var given := DenseOnlyParamsGiven(qb.Fields());
      && (given == {} ==> errors == base)
      && (given != {} ==>
            exists order :: Enumerates(order, given)
                            && errors == base + [DenseOnlyFieldsMessage(DottedPaths.Join(", ", PreferredNames(order)))])
  {
    errors := [];
    if qb.queryTokensMapSupplier.None? && qb.queryText.None? {
      errors := errors + [ERR_TEXT_OR_TOKENS];
    } else if qb.queryTokensMapSupplier.None? && qb.queryText == Some("") {
      errors := errors + [ERR_EMPTY_QUERY_TEXT];
    }
    if qb.modelId == Some("") {
      errors := errors + [ERR_EMPTY_MODEL_ID];
    }
    assert errors == SparseQueryTextAndModelIdErrors(qb.Fields());
    var denseOnly := DenseOnlyParamsGiven(qb.Fields());
    if denseOnly != {} {
      var order := IterationOrder(denseOnly);
      errors := errors + [DenseOnlyFieldsMessage(DottedPaths.Join(", ", PreferredNames(order)))];
    }
  }
}

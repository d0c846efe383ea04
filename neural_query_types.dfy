/**
 * The state of a neural query: the fields of `NeuralQueryBuilder`, the per-index
 * target field configuration, and the suppliers holding inference results.
 */
module NeuralQueryTypes {
  import opened Wrappers
  import opened JsonTree

  /** A `float[]` query vector; its contents are an opaque payload. */
  type Vector = seq<real>

  /** A sparse query: token to weight. */
  type TokenWeights = map<string, real>

  /** A non-null `Supplier<T>`, recorded by what its `get()` currently returns (null while inference runs). */
  datatype Supplier<T> = Supplier(get: Option<T>)

  /** A supplier that is non-null and whose value is present. */
  predicate Available<T>(s: Option<Supplier<T>>) {
    s.Some? && s.value.get.Some?
  }

  /** The value of an available supplier. */
  function Supplied<T>(s: Option<Supplier<T>>): T
    requires Available(s)
  {
    s.value.get.value
  }

  /** `NeuralQueryTargetFieldConfig`: what the coordinator learned about the field in one target index. */
  datatype TargetFieldConfig = TargetFieldConfig(
    isSemanticField: Option<bool>,
    isUnmappedField: Option<bool>,
    searchModelId: Option<string>,
    embeddingFieldType: Option<string>)

  /** A host object (a filter query, a rescore context) whose contents the core never inspects. */
  datatype HostObject = HostObject(id: nat)

  /** Preferred names of the query's parameters. */
  const QUERY_TEXT := "query_text"
  const MODEL_ID := "model_id"
  const QUERY_IMAGE := "query_image"
  const QUERY_TOKENS := "query_tokens"
  /** Parameter names declared by the k-NN plugin's KNNQueryBuilder. */
  const K := "k"
  const MAX_DISTANCE := "max_distance"
  const MIN_SCORE := "min_score"
  const EXPAND_NESTED := "expand_nested_docs"
  const FILTER := "filter"
  const METHOD_PARAMETERS := "method_parameters"
  const RESCORE := "rescore"

  /** `NeuralQueryBuilder.DEFAULT_K`. */
  const DEFAULT_K := 10

  /** Content types of the k-NN vector mapper and OpenSearch's rank_features mapper. */
  const KNN_VECTOR := "knn_vector"
  const RANK_FEATURES := "rank_features"

  /** Every field of the builder, as one value, e.g. what `NeuralQueryBuilder.Builder` has collected. */
  datatype NeuralQueryFields = NeuralQueryFields(
    fieldName: Option<string>,
    queryText: Option<string>,
    modelId: Option<string>,
    embeddingFieldType: Option<string>,
    queryImage: Option<string>,
    k: Option<int>,
    maxDistance: Option<real>,
    minScore: Option<real>,
    expandNested: Option<bool>,
    vectorSupplier: Option<Supplier<Vector>>,
    filter: Option<HostObject>,
    methodParameters: Option<Object>,
    rescoreContext: Option<HostObject>,
    modelIdToVectorSupplierMap: Option<map<string, Option<Supplier<Vector>>>>,
    queryTokensMapSupplier: Option<Supplier<TokenWeights>>,
    modelIdToQueryTokensSupplierMap: Option<map<string, Option<Supplier<TokenWeights>>>>,
    indexToTargetFieldConfig: Option<map<string, TargetFieldConfig>>,
    boost: real,
    queryName: Option<string>)

  /** `NeuralQueryBuilder`: its fields are set through fluent setters and updated during validation and rewrite. */
  class NeuralQueryBuilder {
    var fieldName: Option<string>
    var queryText: Option<string>
    var modelId: Option<string>
    var embeddingFieldType: Option<string>
    var queryImage: Option<string>
    var k: Option<int>
    var maxDistance: Option<real>
    var minScore: Option<real>
    var expandNested: Option<bool>
    var vectorSupplier: Option<Supplier<Vector>>
    var filter: Option<HostObject>
    var methodParameters: Option<Object>
    var rescoreContext: Option<HostObject>
    var modelIdToVectorSupplierMap: Option<map<string, Option<Supplier<Vector>>>>
    var queryTokensMapSupplier: Option<Supplier<TokenWeights>>
    var modelIdToQueryTokensSupplierMap: Option<map<string, Option<Supplier<TokenWeights>>>>
    var indexToTargetFieldConfig: Option<map<string, TargetFieldConfig>>
    var boost: real
    var queryName: Option<string>

    /** All fields at once. */
    function Fields(): NeuralQueryFields
      reads this
    {
      NeuralQueryFields(fieldName, queryText, modelId, embeddingFieldType, queryImage, k, maxDistance,
                        minScore, expandNested, vectorSupplier, filter, methodParameters, rescoreContext,
                        modelIdToVectorSupplierMap, queryTokensMapSupplier, modelIdToQueryTokensSupplierMap,
                        indexToTargetFieldConfig, boost, queryName)
    }

    /** The all-arguments constructor followed by `.boost(boost).queryName(queryName)`. */
    constructor(f: NeuralQueryFields)
      ensures Fields() == f
    {
      fieldName := f.fieldName;
      queryText := f.queryText;
      modelId := f.modelId;
      embeddingFieldType := f.embeddingFieldType;
      queryImage := f.queryImage;
      k := f.k;
      maxDistance := f.maxDistance;
      minScore := f.minScore;
      expandNested := f.expandNested;
      vectorSupplier := f.vectorSupplier;
      filter := f.filter;
      methodParameters := f.methodParameters;
      rescoreContext := f.rescoreContext;
      modelIdToVectorSupplierMap := f.modelIdToVectorSupplierMap;
      queryTokensMapSupplier := f.queryTokensMapSupplier;
      modelIdToQueryTokensSupplierMap := f.modelIdToQueryTokensSupplierMap;
      indexToTargetFieldConfig := f.indexToTargetFieldConfig;
      boost := f.boost;
      queryName := f.queryName;
    }
  }
}

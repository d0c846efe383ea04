/**
 * The decisions `NeuralQueryBuilder` takes before it becomes a k-NN or a semantic query:
 * building and validating it, defaulting `k`, locating the embedding field of a semantic
 * field, collecting and checking the target field in every target index, and routing the rewrite.
 */
module NeuralQueryBuilderRules {
  import opened Wrappers
  import opened JsonTree
  import opened NeuralQueryTypes
  import opened NeuralQueryValidationUtil
  import opened JavaCollections
  import opened JavaExceptions
  import opened MappingConstants
  import DottedPaths
  import Info = SemanticInfoFieldConstants

  // ---------------------------------------------------------------------------------------------
  // Builder.build

  const BUILD_FAILED := "Failed to build the NeuralQueryBuilder: "

  const UNSUPPORTED_EMBEDDING_TYPE_PREFIX: string := "Unsupported embedding field type: "

  function UnsupportedEmbeddingFieldTypeMessage(t: string): string {
    UNSUPPORTED_EMBEDDING_TYPE_PREFIX + t
  }

  /** The fields once a dense validator has run: `k` defaults to DEFAULT_K when no kNN type is given. */
  function KDefaulted(f: NeuralQueryFields): NeuralQueryFields {
    if f.k.None? && f.maxDistance.None? && f.minScore.None? then f.(k := Some(DEFAULT_K)) else f
  }

  /** Once the dense rules accept the kNN types, the defaulted query has exactly one of them. */
  lemma KDefaultedHasOneKnnType(f: NeuralQueryFields)
    requires ERR_ONE_KNN_TYPE !in DenseCommonErrors(f)
    ensures |KnnQueryTypesGiven(KDefaulted(f))| == 1
  {
    var g := KDefaulted(f);
    assert |KnnQueryTypesGiven(f)| <= 1;
    if f.k.None? && f.maxDistance.None? && f.minScore.None? {
      assert KnnQueryTypesGiven(g) == {KParam};
    } else {
      assert KnnQueryTypesGiven(f) != {};
    }
  }

  /**
   * `Builder.build`: the validator is chosen by the embedding field type (none: k-NN, knn_vector:
   * semantic dense, rank_features: semantic sparse, anything else is rejected), and any
   * validation error rejects the query with all errors joined by "; ".
   */
  method Build(f: NeuralQueryFields, defaultModelIdSupported: bool) returns (r: Result<NeuralQueryBuilder, Exception>)
    ensures f.embeddingFieldType.Some? && f.embeddingFieldType.value != KNN_VECTOR && f.embeddingFieldType.value != RANK_FEATURES
            ==> r == Err(IllegalArgument(UnsupportedEmbeddingFieldTypeMessage(f.embeddingFieldType.value)))
    ensures f.embeddingFieldType.None? ==>
              && (r.Ok? <==> KnnErrors(f, defaultModelIdSupported) == [])
              && (r.Ok? ==> r.value.Fields() == KDefaulted(f))
              && (r.Err? ==> r.error == IllegalArgument(BUILD_FAILED + DottedPaths.Join("; ", KnnErrors(f, defaultModelIdSupported))))
    ensures f.embeddingFieldType == Some(KNN_VECTOR) ==>
              && (r.Ok? <==> SemanticDenseErrors(f) == [])
              && (r.Ok? ==> r.value.Fields() == KDefaulted(f))
              && (r.Err? ==> r.error == IllegalArgument(BUILD_FAILED + DottedPaths.Join("; ", SemanticDenseErrors(f))))
    ensures f.embeddingFieldType == Some(RANK_FEATURES) ==>
              && (r.Ok? <==> SparseQueryTextAndModelIdErrors(f) == [] && DenseOnlyParamsGiven(f) == {})
              && (r.Ok? ==> r.value.Fields() == f)
              && (r.Err? && DenseOnlyParamsGiven(f) == {} ==>
                    r.error == IllegalArgument(BUILD_FAILED + DottedPaths.Join("; ", SparseQueryTextAndModelIdErrors(f))))
              && (r.Err? && DenseOnlyParamsGiven(f) != {} ==>
                    exists order :: Enumerates(order, DenseOnlyParamsGiven(f))
                      && r.error == IllegalArgument(BUILD_FAILED + DottedPaths.Join("; ", SparseQueryTextAndModelIdErrors(f)
                                      + [DenseOnlyFieldsMessage(DottedPaths.Join(", ", PreferredNames(order)))])))
    ensures r.Ok? && f.embeddingFieldType != Some(RANK_FEATURES) ==> |KnnQueryTypesGiven(r.value.Fields())| == 1
    ensures r.Ok? ==> fresh(r.value)
  {
    var qb := new NeuralQueryBuilder(f);
    var errors: seq<string>;
    if f.embeddingFieldType.None? {
      errors := ValidateNeuralQueryForKnn(qb, defaultModelIdSupported);
    } else if f.embeddingFieldType.value == KNN_VECTOR {
      errors := ValidateNeuralQueryForSemanticDense(qb);
    } else if f.embeddingFieldType.value == RANK_FEATURES {
      errors := ValidateNeuralQueryForSemanticSparse(qb);
    } else {
      return Err(IllegalArgument(UnsupportedEmbeddingFieldTypeMessage(f.embeddingFieldType.value)));
    }
    if errors != [] {
      return Err(IllegalArgument(BUILD_FAILED + DottedPaths.Join("; ", errors)));
    }
    if f.embeddingFieldType != Some(RANK_FEATURES) {
      assert ERR_ONE_KNN_TYPE !in DenseCommonErrors(f);
      KDefaultedHasOneKnnType(f);
    }
    r := Ok(qb);
  }

  // ---------------------------------------------------------------------------------------------
  // fromXContent, after the parameters are parsed

  const ERR_FIELD_NAME_REQUIRED := "Field name must be provided for neural query"
  const ERR_QUERY_TEXT_OR_IMAGE := "Either query text or image text must be provided for neural query"
  const ERR_MODEL_ID_FOR_QUERY := "Model ID must be provided for neural query"

  /** At most one of the three kNN query types is set. */
  predicate AtMostOneKnnType(k: Option<int>, maxDistance: Option<real>, minScore: Option<real>) {
    !((k.Some? && maxDistance.Some?) || (k.Some? && minScore.Some?) || (maxDistance.Some? && minScore.Some?))
  }

  /**
   * `validateKNNQueryType`: rejects two or more kNN query types, and otherwise tells whether
   * one was given.
   */
  method ValidateKnnQueryType(k: Option<int>, maxDistance: Option<real>, minScore: Option<real>) returns (r: Result<bool, Exception>)
    ensures r.Err? <==> !AtMostOneKnnType(k, maxDistance, minScore)
    ensures r.Err? ==> r.error == IllegalArgument(ERR_ONE_KNN_TYPE)
    ensures r.Ok? ==> (r.value <==> k.Some? || maxDistance.Some? || minScore.Some?)
  {
    var queryCount := 0;
    if k.Some? {
      queryCount := queryCount + 1;
    }
    if maxDistance.Some? {
      queryCount := queryCount + 1;
    }
    if minScore.Some? {
      queryCount := queryCount + 1;
    }
    if queryCount > 1 {
      return Err(IllegalArgument(ERR_ONE_KNN_TYPE));
    }
    r := Ok(queryCount == 1);
  }

  /** What `fromXContent` decides once the parameters are parsed. */
  function FromXContentOutcome(f: NeuralQueryFields, semanticFieldEnabled: bool, defaultModelIdSupported: bool): Result<(), Exception> {
    if f.fieldName.None? then Err(IllegalArgument(ERR_FIELD_NAME_REQUIRED))
    else if semanticFieldEnabled then Ok(())
    else if IsBlank(f.queryText) && IsBlank(f.queryImage) then Err(IllegalArgument(ERR_QUERY_TEXT_OR_IMAGE))
    else if !defaultModelIdSupported && f.modelId.None? then Err(IllegalArgument(ERR_MODEL_ID_FOR_QUERY))
    else if !AtMostOneKnnType(f.k, f.maxDistance, f.minScore) then Err(IllegalArgument(ERR_ONE_KNN_TYPE))
    else Ok(())
  }

  /**
   * The checks at the end of `fromXContent`. With the semantic field feature off they run at
   * parse time and give `k` its default; with it on they wait for the rewrite.
   */
  method FromXContentChecks(qb: NeuralQueryBuilder, semanticFieldEnabled: bool, defaultModelIdSupported: bool)
    returns (r: Result<(), Exception>)
    modifies qb`k
    ensures r == FromXContentOutcome(old(qb.Fields()), semanticFieldEnabled, defaultModelIdSupported)
    ensures qb.k == if r.Ok? && !semanticFieldEnabled then KDefaulted(old(qb.Fields())).k else old(qb.k)
    ensures r.Ok? && !semanticFieldEnabled ==> |KnnQueryTypesGiven(qb.Fields())| == 1
  {
    if qb.fieldName.None? {
      return Err(IllegalArgument(ERR_FIELD_NAME_REQUIRED));
    }
    if !semanticFieldEnabled {
      if IsBlank(qb.queryText) && IsBlank(qb.queryImage) {
        return Err(IllegalArgument(ERR_QUERY_TEXT_OR_IMAGE));
      }
      if !defaultModelIdSupported && qb.modelId.None? {
        return Err(IllegalArgument(ERR_MODEL_ID_FOR_QUERY));
      }
      var queryTypeIsProvided := ValidateKnnQueryType(qb.k, qb.maxDistance, qb.minScore);
      if queryTypeIsProvided.Err? {
        return Err(queryTypeIsProvided.error);
      }
      if !queryTypeIsProvided.value {
        qb.k := Some(DEFAULT_K);
        assert KnnQueryTypesGiven(qb.Fields()) == {KParam};
      } else {
        assert KnnQueryTypesGiven(qb.Fields()) != {};
      }
    }
    r := Ok(());
  }

  // ---------------------------------------------------------------------------------------------
  // Paths of the semantic info object

  /** The parameters of a semantic field type that the query reads. */
  datatype SemanticParameters = SemanticParameters(
    modelId: Option<string>, searchModelId: Option<string>, semanticInfoFieldName: Option<string>)

  /** A mapped field of type `semantic`: its full dotted name and its parameters. */
  datatype SemanticFieldTypeRef = SemanticFieldTypeRef(name: string, parameters: SemanticParameters)

  /** `getSearchModelId`: the query's model id, else the field's search model id, else its model id. */
  function GetSearchModelId(queryModelId: Option<string>, p: SemanticParameters): (r: Option<string>)
    ensures queryModelId.Some? ==> r == queryModelId
    ensures queryModelId.None? && p.searchModelId.Some? ==> r == p.searchModelId
    ensures queryModelId.None? && p.searchModelId.None? ==> r == p.modelId
    ensures r.None? <==> queryModelId.None? && p.searchModelId.None? && p.modelId.None?
  {
    if queryModelId.Some? then queryModelId
    else if p.searchModelId.Some? then p.searchModelId
    else p.modelId
  }

  /** The last path segment of the semantic info object: the configured name, or the field's own plus the suffix. */
  function SemanticInfoSegment(lastSegment: string, semanticInfoFieldName: Option<string>): string {
    if semanticInfoFieldName.None? then lastSegment + DEFAULT_SEMANTIC_INFO_FIELD_NAME_SUFFIX
    else semanticInfoFieldName.value
  }

  /**
   * `getNestedQueryPath`: the field's path with its last segment replaced by the semantic info
   * object's name, followed by ".chunks"; a name `split` turns into no segments at all fails.
   */
  function GetNestedQueryPath(t: SemanticFieldTypeRef): (r: Result<string, Exception>)
    ensures r.Err? <==> |DottedPaths.Split(t.name)| == 0
    ensures r.Err? ==> r.error == IndexOutOfBounds
  {
    var paths := DottedPaths.Split(t.name);
    if |paths| == 0 then Err(IndexOutOfBounds)
    else
      var replaced := DottedPaths.ReplaceLast(paths, SemanticInfoSegment(paths[|paths| - 1], t.parameters.semanticInfoFieldName));
      Ok(DottedPaths.Join(PATH_SEPARATOR, replaced.value) + PATH_SEPARATOR + Info.CHUNKS_FIELD_NAME)
  }

  /** A name that splits into `segments` keeps all but the last of them in the nested path. */
  lemma NestedQueryPathOfSplit(segments: seq<string>, p: SemanticParameters)
    requires |segments| > 0 && DottedPaths.Split(DottedPaths.Join(".", segments)) == segments
    ensures GetNestedQueryPath(SemanticFieldTypeRef(DottedPaths.Join(".", segments), p))
            == Ok(DottedPaths.Join(".", segments[..|segments| - 1]
                    + [SemanticInfoSegment(segments[|segments| - 1], p.semanticInfoFieldName)]) + PATH_SEPARATOR + Info.CHUNKS_FIELD_NAME)
  {
  }

  /** For a path of well-formed segments, only the last segment changes, and ".chunks" follows. */
  lemma NestedQueryPathOfSegments(segments: seq<string>, p: SemanticParameters)
    requires DottedPaths.WellFormedSegments(segments)
    ensures GetNestedQueryPath(SemanticFieldTypeRef(DottedPaths.Join(".", segments), p))
            == Ok(DottedPaths.Join(".", segments[..|segments| - 1]
                    + [SemanticInfoSegment(segments[|segments| - 1], p.semanticInfoFieldName)]) + ".chunks")
  {
    DottedPaths.SplitJoin(segments);
    NestedQueryPathOfSplit(segments, p);
    ChunksSuffix(DottedPaths.Join(".", segments[..|segments| - 1] + [SemanticInfoSegment(segments[|segments| - 1], p.semanticInfoFieldName)]));
  }

  lemma ChunksSuffix(prefix: string)
    ensures prefix + PATH_SEPARATOR + Info.CHUNKS_FIELD_NAME == prefix + ".chunks"
  {
  }

  /**
   * The path `getSemanticEmbeddingFieldConfig` looks up: `<field>_semantic_info`, with the last
   * segment replaced by the mapping's `semantic_info_field_name` when that key is present, then
   * ".chunks.embedding". A non-string name fails the cast; a null one prints as "null".
   */
  function SemanticEmbeddingFieldPath(fieldName: Option<string>, targetFieldConfig: Object): (r: Result<string, Exception>)
    ensures SEMANTIC_INFO_FIELD_NAME !in targetFieldConfig ==>
              r == Ok(JavaString(fieldName) + DEFAULT_SEMANTIC_INFO_FIELD_NAME_SUFFIX + ".chunks.embedding")
    ensures SEMANTIC_INFO_FIELD_NAME in targetFieldConfig && AsString(targetFieldConfig[SEMANTIC_INFO_FIELD_NAME]).NotAString?
            ==> r == Err(ClassCast)
  {
    var embeddingFieldPath := JavaString(fieldName) + DEFAULT_SEMANTIC_INFO_FIELD_NAME_SUFFIX;
    var suffix := PATH_SEPARATOR + Info.CHUNKS_FIELD_NAME + PATH_SEPARATOR + Info.CHUNKS_EMBEDDING_FIELD_NAME;
    assert suffix == ".chunks.embedding";
    if SEMANTIC_INFO_FIELD_NAME !in targetFieldConfig then Ok(embeddingFieldPath + suffix)
    else
      var paths := DottedPaths.Split(embeddingFieldPath);
      match AsString(targetFieldConfig[SEMANTIC_INFO_FIELD_NAME])
      case NotAString => Err(ClassCast)
      case NullString =>
        if |paths| == 0 then Err(IndexOutOfBounds)
        else Ok(DottedPaths.Join(PATH_SEPARATOR, DottedPaths.ReplaceLast(paths, "null").value) + suffix)
      case CastString(name) =>
        if |paths| == 0 then Err(IndexOutOfBounds)
        else Ok(DottedPaths.Join(PATH_SEPARATOR, DottedPaths.ReplaceLast(paths, name).value) + suffix)
  }

  /** Appending to the last segment appends to the joined path. */
  lemma JoinExtendLast(segments: seq<string>, suffix: string)
    requires |segments| > 0
    ensures DottedPaths.Join(".", segments[..|segments| - 1] + [segments[|segments| - 1] + suffix])
            == DottedPaths.Join(".", segments) + suffix
  {
    var n := |segments|;
    if n > 1 {
      var init := segments[..n - 1];
      DottedPaths.InitThenLast(segments);
      DottedPaths.JoinSnoc(init, segments[n - 1] + suffix);
      DottedPaths.JoinSnoc(init, segments[n - 1]);
    }
  }

  /**
   * The coordinator and the shards agree on where the embeddings live: the field path the
   * coordinator reads the embedding type from is the shard's nested query path plus ".embedding",
   * whenever the mapping's `semantic_info_field_name` is the one the shard's field type carries.
   */
  lemma {:induction false} EmbeddingPathIsNestedPathPlusEmbedding(segments: seq<string>, targetFieldConfig: Object, p: SemanticParameters)
    requires DottedPaths.WellFormedSegments(segments)
    requires p.semanticInfoFieldName.None? <==> SEMANTIC_INFO_FIELD_NAME !in targetFieldConfig
    requires p.semanticInfoFieldName.Some? ==> targetFieldConfig[SEMANTIC_INFO_FIELD_NAME] == JStr(p.semanticInfoFieldName.value)
    ensures var nested := GetNestedQueryPath(SemanticFieldTypeRef(DottedPaths.Join(".", segments), p));
            nested.Ok? && SemanticEmbeddingFieldPath(Some(DottedPaths.Join(".", segments)), targetFieldConfig) == Ok(nested.value + ".embedding")
  {
    var name := DottedPaths.Join(".", segments);
    var n := |segments|;
    var last := segments[n - 1];
    var suffix := DEFAULT_SEMANTIC_INFO_FIELD_NAME_SUFFIX;
    NestedQueryPathOfSegments(segments, p);
    var infoPath := DottedPaths.Join(".", segments[..n - 1] + [SemanticInfoSegment(last, p.semanticInfoFieldName)]);
    EmbeddingSuffix(infoPath);
    var extended := segments[..n - 1] + [last + suffix];
    JoinExtendLast(segments, suffix);
    if p.semanticInfoFieldName.Some? {
      var given := p.semanticInfoFieldName.value;
      ExtendLastWellFormed(segments, suffix);
      DottedPaths.SplitJoin(extended);
      assert extended[..n - 1] == segments[..n - 1];
      EmbeddingPathRenamed(name, targetFieldConfig, given);
    }
  }

  /** The embedding path when the mapping renames the semantic info object. */
  lemma EmbeddingPathRenamed(fieldName: string, targetFieldConfig: Object, given: string)
    requires SEMANTIC_INFO_FIELD_NAME in targetFieldConfig && targetFieldConfig[SEMANTIC_INFO_FIELD_NAME] == JStr(given)
    requires |DottedPaths.Split(fieldName + DEFAULT_SEMANTIC_INFO_FIELD_NAME_SUFFIX)| > 0
    ensures SemanticEmbeddingFieldPath(Some(fieldName), targetFieldConfig)
            == Ok(DottedPaths.Join(".", DottedPaths.ReplaceLast(DottedPaths.Split(fieldName + DEFAULT_SEMANTIC_INFO_FIELD_NAME_SUFFIX), given).value)
                  + ".chunks.embedding")
  {
    assert JavaString(Some(fieldName)) == fieldName;
    assert AsString(targetFieldConfig[SEMANTIC_INFO_FIELD_NAME]) == CastString(given);
    assert PATH_SEPARATOR + Info.CHUNKS_FIELD_NAME + PATH_SEPARATOR + Info.CHUNKS_EMBEDDING_FIELD_NAME == ".chunks.embedding";
  }

  /** A dot-free, non-empty suffix on the last segment keeps the segments well formed. */
  lemma ExtendLastWellFormed(segments: seq<string>, suffix: string)
    requires DottedPaths.WellFormedSegments(segments) && DottedPaths.NoDot(suffix)
    ensures DottedPaths.WellFormedSegments(segments[..|segments| - 1] + [segments[|segments| - 1] + suffix])
  {
    var n := |segments|;
    var last := segments[n - 1];
    var extended := segments[..n - 1] + [last + suffix];
    assert forall i :: 0 <= i < n - 1 ==> extended[i] == segments[i];
    assert forall i :: 0 <= i < |last| ==> (last + suffix)[i] == last[i];
    assert forall i :: |last| <= i < |last + suffix| ==> (last + suffix)[i] == suffix[i - |last|];
  }

  lemma EmbeddingSuffix(prefix: string)
    ensures prefix + ".chunks" + ".embedding" == prefix + ".chunks.embedding"
  {
  }

  // ---------------------------------------------------------------------------------------------
  // extractTargetFieldConfig

  /** A target index: its name and, when it has one, its mapping source. */
  datatype IndexMetadata = IndexMetadata(index: string, mapping: Option<Object>)

  /**
   * `SemanticMappingUtils.getFieldConfigByPath` (not part of this model): the configuration of the
   * field at a dotted path of a mapping, or null.
   */
  type FieldConfigLookup = (Object, Option<string>) -> Option<Object>

  /** The configuration recorded for an index whose mapping lacks the field. */
  const UNMAPPED_TARGET := TargetFieldConfig(None, Some(true), None, None)

  const OBJECT_FIELD_PREFIX: string := "Failed to process the neural query against the field ["
  const OBJECT_FIELD_SUFFIX: string := "] because it is an object field."

  function ObjectFieldMessage(fieldName: Option<string>): string {
    OBJECT_FIELD_PREFIX + JavaString(fieldName) + OBJECT_FIELD_SUFFIX
  }

  /** `(String) config.get(key)`: null stays null, a string is kept, anything else fails the cast. */
  function CastStringField(config: Object, key: string): Result<Option<string>, Exception> {
    match AsString(Get(config, key))
    case NullString => Ok(None)
    case CastString(s) => Ok(Some(s))
    case NotAString => Err(ClassCast)
  }

  /** The embedding field's configuration and its type, for a semantic target field. */
  function SemanticEmbeddingFieldType(fieldName: Option<string>, targetFieldConfig: Object, mappings: Object, lookup: FieldConfigLookup)
    : (r: Result<Option<string>, Exception>)
    ensures SemanticEmbeddingFieldPath(fieldName, targetFieldConfig).Err? ==> r == Err(SemanticEmbeddingFieldPath(fieldName, targetFieldConfig).error)
    ensures SemanticEmbeddingFieldPath(fieldName, targetFieldConfig).Ok? ==>
              var embeddingField := lookup(mappings, Some(SemanticEmbeddingFieldPath(fieldName, targetFieldConfig).value));
              && (embeddingField.None? ==> r == Err(NullPointer))
              && (embeddingField.Some? ==>
                    && (r.Err? <==> !(Get(embeddingField.value, TYPE).JStr? || Get(embeddingField.value, TYPE).JNull?))
                    && (r.Err? ==> r.error == ClassCast)
                    && (r.Ok? && r.value.Some? <==> Get(embeddingField.value, TYPE).JStr?)
                    && (r.Ok? && r.value.Some? ==> r.value.value == Get(embeddingField.value, TYPE).str))
  {
    match SemanticEmbeddingFieldPath(fieldName, targetFieldConfig)
    case Err(e) => Err(e)
    case Ok(path) =>
      match lookup(mappings, Some(path))
      case None => Err(NullPointer)
      case Some(embeddingFieldConfig) => CastStringField(embeddingFieldConfig, TYPE)
  }

  /** The search model id recorded for a semantic field: `search_model_id` when the key is present, else `model_id`. */
  function SearchModelIdOf(targetFieldConfig: Object): Result<Option<string>, Exception> {
    match CastStringField(targetFieldConfig, MappingConstants.MODEL_ID)
    case Err(e) => Err(e)
    case Ok(modelId) =>
      if SEARCH_MODEL_ID in targetFieldConfig then CastStringField(targetFieldConfig, SEARCH_MODEL_ID) else Ok(modelId)
  }

  /** One iteration of `extractTargetFieldConfig`: what is learned about the field in one index. */
  function TargetFieldConfigOf(fieldName: Option<string>, mapping: Option<Object>, lookup: FieldConfigLookup)
    : (r: Result<TargetFieldConfig, Exception>)
    ensures mapping.None? ==> r == Ok(UNMAPPED_TARGET)
    ensures mapping.Some? && lookup(mapping.value, fieldName).None? ==> r == Ok(UNMAPPED_TARGET)
    ensures mapping.Some? && lookup(mapping.value, fieldName).Some? ==>
              var config := lookup(mapping.value, fieldName).value;
              && (!Get(config, TYPE).JStr? ==> r == Err(IllegalArgument(ObjectFieldMessage(fieldName))))
              && (r.Ok? ==> r.value.isUnmappedField == Some(false))
              && (r.Ok? ==> (r.value.isSemanticField == Some(true) <==> Get(config, TYPE) == JStr(SEMANTIC)))
              && (r.Ok? && Get(config, TYPE) == JStr(SEMANTIC) && SEARCH_MODEL_ID in config
                  ==> CastStringField(config, SEARCH_MODEL_ID) == Ok(r.value.searchModelId))
              && (r.Ok? && Get(config, TYPE) == JStr(SEMANTIC) && SEARCH_MODEL_ID !in config
                  ==> CastStringField(config, MappingConstants.MODEL_ID) == Ok(r.value.searchModelId))
              && (r.Ok? && Get(config, TYPE) != JStr(SEMANTIC) ==> r.value == TargetFieldConfig(Some(false), Some(false), None, None))
              && (Get(config, TYPE) == JStr(SEMANTIC) ==>
                    var embeddingType := SemanticEmbeddingFieldType(fieldName, config, mapping.value, lookup);
                    && (embeddingType.Err? ==> r == Err(embeddingType.error))
                    && (embeddingType.Ok? && SearchModelIdOf(config).Err? ==> r == Err(SearchModelIdOf(config).error))
                    && (r.Ok? ==> embeddingType == Ok(r.value.embeddingFieldType)))
    ensures r.Ok? ==> r.value.isUnmappedField.Some? && (r.value.isUnmappedField == Some(false) ==> r.value.isSemanticField.Some?)
  {
    if mapping.None? then Ok(UNMAPPED_TARGET)
    else
      match lookup(mapping.value, fieldName)
      case None => Ok(UNMAPPED_TARGET)
      case Some(config) =>
        if !Get(config, TYPE).JStr? then Err(IllegalArgument(ObjectFieldMessage(fieldName)))
        else if Get(config, TYPE).str != SEMANTIC then Ok(TargetFieldConfig(Some(false), Some(false), None, None))
        else
          match SemanticEmbeddingFieldType(fieldName, config, mapping.value, lookup)
          case Err(e) => Err(e)
          case Ok(embeddingFieldType) =>
            match SearchModelIdOf(config)
            case Err(e) => Err(e)
            case Ok(searchModelId) => Ok(TargetFieldConfig(Some(true), Some(false), searchModelId, embeddingFieldType))
  }

  /** The map as far as the loop got, and the exception that stopped it, if any. */
  datatype Extraction = Extraction(configs: map<string, TargetFieldConfig>, failure: Option<Exception>)

  /** The loop of `extractTargetFieldConfig` over the target indices, putting into `acc`. */
  function ExtractConfigs(acc: map<string, TargetFieldConfig>, indices: seq<IndexMetadata>, fieldName: Option<string>, lookup: FieldConfigLookup)
    : Extraction
    decreases |indices|
  {
    if |indices| == 0 then Extraction(acc, None)
    else
      match TargetFieldConfigOf(fieldName, indices[0].mapping, lookup)
      case Err(e) => Extraction(acc, Some(e))
      case Ok(c) => ExtractConfigs(acc[indices[0].index := c], indices[1..], fieldName, lookup)
  }

  /** `indices` has an entry of this name whose configuration is `c`. */
  predicate LearnedFrom(indices: seq<IndexMetadata>, name: string, c: TargetFieldConfig, fieldName: Option<string>, lookup: FieldConfigLookup) {
    exists i :: 0 <= i < |indices| && indices[i].index == name && TargetFieldConfigOf(fieldName, indices[i].mapping, lookup) == Ok(c)
  }

  /**
   * Without a failure every target index gets an entry; every entry is one that was already
   * there or the configuration learned from some index of that name; entries are only added.
   */
  lemma {:induction false} ExtractedConfigsCoverIndices(
    acc: map<string, TargetFieldConfig>, indices: seq<IndexMetadata>, fieldName: Option<string>, lookup: FieldConfigLookup)
    ensures var ex := ExtractConfigs(acc, indices, fieldName, lookup);
      && acc.Keys <= ex.configs.Keys
      && (ex.failure.None? ==> forall i :: 0 <= i < |indices| ==> indices[i].index in ex.configs)
      && (forall name :: name in ex.configs ==>
            (name in acc && ex.configs[name] == acc[name]) || LearnedFrom(indices, name, ex.configs[name], fieldName, lookup))
    decreases |indices|
  {
    if |indices| > 0 {
      var r := TargetFieldConfigOf(fieldName, indices[0].mapping, lookup);
      if r.Ok? {
        var acc' := acc[indices[0].index := r.value];
        var rest := indices[1..];
        ExtractedConfigsCoverIndices(acc', rest, fieldName, lookup);
        var ex := ExtractConfigs(acc, indices, fieldName, lookup);
        assert ex == ExtractConfigs(acc', rest, fieldName, lookup);
        forall name | name in ex.configs
          ensures (name in acc && ex.configs[name] == acc[name]) || LearnedFrom(indices, name, ex.configs[name], fieldName, lookup)
        {
          if LearnedFrom(rest, name, ex.configs[name], fieldName, lookup) {
            var j :| 0 <= j < |rest| && rest[j].index == name
                      && TargetFieldConfigOf(fieldName, rest[j].mapping, lookup) == Ok(ex.configs[name]);
            assert indices[j + 1] == rest[j];
          } else if name == indices[0].index {
            assert ex.configs[name] == r.value;
            assert LearnedFrom(indices, name, ex.configs[name], fieldName, lookup) by {
              assert indices[0].index == name;
            }
          }
        }
        if ex.failure.None? {
          forall i | 0 <= i < |indices|
            ensures indices[i].index in ex.configs
          {
            if i > 0 {
              assert indices[i] == rest[i - 1];
            }
          }
        }
      }
    }
  }

  /**
   * `extractTargetFieldConfig`: one entry per target index put into `indexToTargetFieldConfig`; an
   * exception stops the loop with the entries put so far.
   */
  method ExtractTargetFieldConfig(qb: NeuralQueryBuilder, indices: seq<IndexMetadata>, lookup: FieldConfigLookup)
    returns (r: Result<(), Exception>)
    requires qb.indexToTargetFieldConfig.Some?
    modifies qb`indexToTargetFieldConfig
    ensures var ex := ExtractConfigs(old(qb.indexToTargetFieldConfig.value), indices, qb.fieldName, lookup);
      && qb.indexToTargetFieldConfig == Some(ex.configs)
      && r == (if ex.failure.None? then Ok(()) else Err(ex.failure.value))
  {
    ghost var expected := ExtractConfigs(qb.indexToTargetFieldConfig.value, indices, qb.fieldName, lookup);
    var i := 0;
    while i < |indices|
      invariant 0 <= i <= |indices|
      invariant qb.indexToTargetFieldConfig.Some?
      invariant expected == ExtractConfigs(qb.indexToTargetFieldConfig.value, indices[i..], qb.fieldName, lookup)
    {
      assert indices[i..][1..] == indices[i + 1..];
      var config := TargetFieldConfigOf(qb.fieldName, indices[i].mapping, lookup);
      if config.Err? {
        return Err(config.error);
      }
      qb.indexToTargetFieldConfig := Some(qb.indexToTargetFieldConfig.value[indices[i].index := config.value]);
      i := i + 1;
    }
    r := Ok(());
  }

  // ---------------------------------------------------------------------------------------------
  // validateTargetFieldConfig

  /** The four index lists the validation fills, and the errors it has collected so far. */
  datatype TargetGroups = TargetGroups(
    semantic: seq<string>, nonSemantic: seq<string>, dense: seq<string>, sparse: seq<string>, errors: seq<string>)

  const NO_GROUPS := TargetGroups([], [], [], [], [])

  const UNSUPPORTED_TARGET_TYPE_PREFIX: string := "Unsupported embedding field type ["
  const UNSUPPORTED_TARGET_TYPE_MIDDLE: string := "] in the target index ["

  function UnsupportedTargetTypeMessage(t: string, index: string): string {
    UNSUPPORTED_TARGET_TYPE_PREFIX + t + UNSUPPORTED_TARGET_TYPE_MIDDLE + index + "]"
  }

  /** The loop body for one entry; unboxing a null flag or switching on a null type throws. */
  function ClassifyTarget(g: TargetGroups, index: string, c: TargetFieldConfig): Result<TargetGroups, Exception> {
    if c.isUnmappedField.None? then Err(NullPointer)
    else if c.isUnmappedField.value then Ok(g)
    else if c.isSemanticField.None? then Err(NullPointer)
    else if !c.isSemanticField.value then Ok(g.(nonSemantic := g.nonSemantic + [index]))
    else if c.embeddingFieldType.None? then Err(NullPointer)
    else
      var g1 := g.(semantic := g.semantic + [index]);
      var t := c.embeddingFieldType.value;
      if t == KNN_VECTOR then Ok(g1.(dense := g1.dense + [index]))
      else if t == RANK_FEATURES then Ok(g1.(sparse := g1.sparse + [index]))
      else Ok(g1.(errors := g1.errors + [UnsupportedTargetTypeMessage(t, index)]))
  }

  /** The loop over the entries in `order` (HashMap order, which the code does not control). */
  function ClassifyTargets(configs: map<string, TargetFieldConfig>, order: seq<string>): Result<TargetGroups, Exception>
    decreases |order|
  {
    if |order| == 0 then Ok(NO_GROUPS)
    else
      var index := order[|order| - 1];
      match ClassifyTargets(configs, order[..|order| - 1])
      case Err(e) => Err(e)
      case Ok(g) => if index in configs then ClassifyTarget(g, index, configs[index]) else Ok(g)
  }

  predicate Mapped(c: TargetFieldConfig) { c.isUnmappedField.Some? && !c.isUnmappedField.value }
  predicate SemanticTarget(c: TargetFieldConfig) { Mapped(c) && c.isSemanticField.Some? && c.isSemanticField.value }
  predicate NonSemanticTarget(c: TargetFieldConfig) { Mapped(c) && c.isSemanticField.Some? && !c.isSemanticField.value }
  predicate DenseTarget(c: TargetFieldConfig) { SemanticTarget(c) && c.embeddingFieldType == Some(KNN_VECTOR) }
  predicate SparseTarget(c: TargetFieldConfig) { SemanticTarget(c) && c.embeddingFieldType == Some(RANK_FEATURES) }
  predicate UnsupportedTarget(c: TargetFieldConfig) {
    SemanticTarget(c) && c.embeddingFieldType.Some? && !DenseTarget(c) && !SparseTarget(c)
  }
  /** A flag or type the loop unboxes or switches on is null. */
  predicate HasNullFlag(c: TargetFieldConfig) {
    c.isUnmappedField.None? || (Mapped(c) && (c.isSemanticField.None? || (c.isSemanticField.value && c.embeddingFieldType.None?)))
  }

  /** The indices of `order`, in that order, whose configuration is of the kind `p`. */
  function KindIndices(configs: map<string, TargetFieldConfig>, order: seq<string>, p: TargetFieldConfig -> bool): seq<string>
    decreases |order|
  {
    if |order| == 0 then []
    else
      var index := order[|order| - 1];
      KindIndices(configs, order[..|order| - 1], p) + (if index in configs && p(configs[index]) then [index] else [])
  }

  lemma {:induction false} KindIndicesMembers(configs: map<string, TargetFieldConfig>, order: seq<string>, p: TargetFieldConfig -> bool)
    ensures forall x :: x in KindIndices(configs, order, p) <==> x in order && x in configs && p(configs[x])
    decreases |order|
  {
    if |order| > 0 {
      var init := order[..|order| - 1];
      KindIndicesMembers(configs, init, p);
      assert order == init + [order[|order| - 1]];
    }
  }

  /** Over an enumeration of all entries, a kind's list is non-empty iff some entry is of that kind. */
  lemma KindIndicesNonEmpty(configs: map<string, TargetFieldConfig>, order: seq<string>, p: TargetFieldConfig -> bool)
    requires Enumerates(order, configs.Keys)
    ensures KindIndices(configs, order, p) != [] <==> SomeTarget(configs, p)
  {
    KindIndicesMembers(configs, order, p);
    var l := KindIndices(configs, order, p);
    if l != [] {
      assert l[0] in l;
    }
    if SomeTarget(configs, p) {
      var x :| x in configs && p(configs[x]);
      assert x in l;
    }
  }

  /** One entry: a null flag fails; otherwise the entry joins the lists of its kinds. */
  lemma ClassifyTargetStep(g: TargetGroups, index: string, c: TargetFieldConfig)
    ensures ClassifyTarget(g, index, c).Err? <==> HasNullFlag(c)
    ensures ClassifyTarget(g, index, c).Ok? ==>
      var g' := ClassifyTarget(g, index, c).value;
      && g'.semantic == g.semantic + (if SemanticTarget(c) then [index] else [])
      && g'.nonSemantic == g.nonSemantic + (if NonSemanticTarget(c) then [index] else [])
      && g'.dense == g.dense + (if DenseTarget(c) then [index] else [])
      && g'.sparse == g.sparse + (if SparseTarget(c) then [index] else [])
      && (g'.errors == [] <==> g.errors == [] && !UnsupportedTarget(c))
  {
  }

  /** The loop fails iff some visited entry has a null flag. */
  lemma {:induction false} ClassifyTargetsFails(configs: map<string, TargetFieldConfig>, order: seq<string>)
    ensures ClassifyTargets(configs, order).Err? <==>
            exists i :: 0 <= i < |order| && order[i] in configs && HasNullFlag(configs[order[i]])
    decreases |order|
  {
    if |order| > 0 {
      var init := order[..|order| - 1];
      var last := |order| - 1;
      ClassifyTargetsFails(configs, init);
      var prev := ClassifyTargets(configs, init);
      if prev.Err? {
        var i :| 0 <= i < |init| && init[i] in configs && HasNullFlag(configs[init[i]]);
        assert order[i] == init[i];
      } else {
        if order[last] in configs {
          ClassifyTargetStep(prev.value, order[last], configs[order[last]]);
        }
        assert forall i :: 0 <= i < last ==> order[i] == init[i];
      }
    }
  }

  /**
   * The loop's lists are exactly the indices of each kind, in visiting order, and it records an
   * error iff some entry has an unsupported embedding type.
   */
  lemma {:induction false} ClassifyTargetsLists(configs: map<string, TargetFieldConfig>, order: seq<string>)
    ensures ClassifyTargets(configs, order).Ok? ==>
      var g := ClassifyTargets(configs, order).value;
      && g.semantic == KindIndices(configs, order, SemanticTarget)
      && g.nonSemantic == KindIndices(configs, order, NonSemanticTarget)
      && g.dense == KindIndices(configs, order, DenseTarget)
      && g.sparse == KindIndices(configs, order, SparseTarget)
      && (g.errors == [] <==> KindIndices(configs, order, UnsupportedTarget) == [])
    decreases |order|
  {
    if |order| > 0 {
      var init := order[..|order| - 1];
      var index := order[|order| - 1];
      ClassifyTargetsLists(configs, init);
      var prev := ClassifyTargets(configs, init);
      if prev.Ok? && index in configs {
        ClassifyTargetStep(prev.value, index, configs[index]);
      }
    }
  }

  const MIXED_SEMANTIC_PREFIX: string :=
    "The target field should be either a semantic field or a non-semantic field in all the target indices. "
    + "It is a semantic field in indices: "
  const MIXED_SEMANTIC_MIDDLE: string := " while not a semantic field in indices "

  function MixedSemanticMessage(g: TargetGroups): string {
    MIXED_SEMANTIC_PREFIX + DottedPaths.Join(", ", g.semantic) + MIXED_SEMANTIC_MIDDLE + DottedPaths.Join(", ", g.nonSemantic)
  }

  const MIXED_MODEL_PREFIX: string :=
    "The target semantic field should be either use a dense model or a sparse model in all the target indices. "
    + "It is a dense model in indices: "
  const MIXED_MODEL_MIDDLE: string := " while a sparse model in indices "

  function MixedModelMessage(g: TargetGroups): string {
    MIXED_MODEL_PREFIX + DottedPaths.Join(", ", g.dense) + MIXED_MODEL_MIDDLE + DottedPaths.Join(", ", g.sparse)
  }

  /**
   * The list of errors after the loop. The semantic dense and sparse validators run in their
   * branches, but what they return is dropped; only the k-NN validator's errors are kept.
   */
  function TargetValidationErrors(g: TargetGroups, f: NeuralQueryFields, defaultModelIdSupported: bool): seq<string> {
    if g.semantic != [] && g.nonSemantic != [] then g.errors + [MixedSemanticMessage(g)]
    else if g.semantic != [] then
      (if g.dense != [] && g.sparse != [] then g.errors + [MixedModelMessage(g)] else g.errors)
    else if g.nonSemantic != [] then g.errors + KnnErrors(f, defaultModelIdSupported)
    else g.errors
  }

  /** The branches that run a dense validator, which defaults `k` on the builder. */
  predicate RunsDenseRules(g: TargetGroups) {
    (g.semantic != [] && g.nonSemantic == [] && !(g.dense != [] && g.sparse != []) && g.dense != [])
    || (g.semantic == [] && g.nonSemantic != [])
  }

  const INVALID_TARGET_PREFIX: string := "Invalid neural query against field "

  function InvalidTargetMessage(fieldName: Option<string>, errors: seq<string>): string {
    INVALID_TARGET_PREFIX + JavaString(fieldName) + ". Errors: " + DottedPaths.Join("; ", errors)
  }

  /** Outcome and new `k` of `validateTargetFieldConfig` when the entries are visited in `order`. */
  function TargetValidation(configs: Option<map<string, TargetFieldConfig>>, order: seq<string>, f: NeuralQueryFields, defaultModelIdSupported: bool)
    : (Result<(), Exception>, Option<int>)
  {
    if configs.None? then (Err(NullPointer), f.k)
    else
      match ClassifyTargets(configs.value, order)
      case Err(e) => (Err(e), f.k)
      case Ok(g) =>
        var errors := TargetValidationErrors(g, f, defaultModelIdSupported);
        var k := if RunsDenseRules(g) then KDefaulted(f).k else f.k;
        (if errors == [] then Ok(()) else Err(IllegalArgument(InvalidTargetMessage(f.fieldName, errors))), k)
  }

  predicate SomeTarget(configs: map<string, TargetFieldConfig>, p: TargetFieldConfig -> bool) {
    exists index :: index in configs && p(configs[index])
  }

  /**
   * The verdict does not depend on the visiting order, and unmapped indices play no part: with
   * no null flag, the target fields are accepted iff no semantic field has an unsupported
   * embedding type, semantic and non-semantic fields are not mixed, dense and sparse models are
   * not mixed, and, when all fields are non-semantic, the k-NN validator finds nothing.
   */
  /** When the errors after the loop are empty. */
  lemma TargetValidationErrorsEmpty(g: TargetGroups, f: NeuralQueryFields, defaultModelIdSupported: bool)
    ensures TargetValidationErrors(g, f, defaultModelIdSupported) == [] <==>
      && g.errors == []
      && !(g.semantic != [] && g.nonSemantic != [])
      && !(g.semantic != [] && g.dense != [] && g.sparse != [])
      && (g.semantic == [] && g.nonSemantic != [] ==> KnnErrors(f, defaultModelIdSupported) == [])
  {
  }

  lemma TargetValidationVerdict(configs: map<string, TargetFieldConfig>, order: seq<string>, f: NeuralQueryFields, defaultModelIdSupported: bool)
    requires Enumerates(order, configs.Keys)
    requires forall index :: index in configs ==> !HasNullFlag(configs[index])
    ensures TargetValidation(Some(configs), order, f, defaultModelIdSupported).0.Ok? <==>
      && !SomeTarget(configs, UnsupportedTarget)
      && !(SomeTarget(configs, SemanticTarget) && SomeTarget(configs, NonSemanticTarget))
      && !(SomeTarget(configs, DenseTarget) && SomeTarget(configs, SparseTarget))
      && (!SomeTarget(configs, SemanticTarget) && SomeTarget(configs, NonSemanticTarget) ==> KnnErrors(f, defaultModelIdSupported) == [])
  {
    ClassifyTargetsLists(configs, order);
    ClassifyTargetsNoNull(configs, order);
    var g := ClassifyTargets(configs, order).value;
    TargetValidationErrorsEmpty(g, f, defaultModelIdSupported);
    KindIndicesNonEmpty(configs, order, SemanticTarget);
    KindIndicesNonEmpty(configs, order, NonSemanticTarget);
    KindIndicesNonEmpty(configs, order, DenseTarget);
    KindIndicesNonEmpty(configs, order, SparseTarget);
    KindIndicesNonEmpty(configs, order, UnsupportedTarget);
    assert SomeTarget(configs, UnsupportedTarget) ==> SomeTarget(configs, SemanticTarget) by {
      if SomeTarget(configs, UnsupportedTarget) {
        var x :| x in configs && UnsupportedTarget(configs[x]);
        assert SemanticTarget(configs[x]);
      }
    }
  }

  lemma ClassifyTargetsNoNull(configs: map<string, TargetFieldConfig>, order: seq<string>)
    requires forall index :: index in configs ==> !HasNullFlag(configs[index])
    ensures ClassifyTargets(configs, order).Ok?
  {
    ClassifyTargetsFails(configs, order);
  }

  /** A validation over an enumeration of the entries fails with a null pointer iff some entry has a null flag. */
  lemma TargetValidationNullFlags(configs: map<string, TargetFieldConfig>, order: seq<string>, f: NeuralQueryFields, defaultModelIdSupported: bool)
    requires Enumerates(order, configs.Keys)
    ensures (exists index :: index in configs && HasNullFlag(configs[index]))
            <==> TargetValidation(Some(configs), order, f, defaultModelIdSupported).0 == Err(NullPointer)
  {
    ClassifyTargetsFails(configs, order);
    ClassifyErrIsNull(configs, order);
    if exists index :: index in configs && HasNullFlag(configs[index]) {
      var x :| x in configs && HasNullFlag(configs[x]);
      var i :| 0 <= i < |order| && order[i] == x;
    }
  }

  /**
   * `validateTargetFieldConfig`: sorts the mapped target indices into semantic and non-semantic,
   * dense and sparse, then checks the mix; the dense validators run on this builder and default `k`.
   */
  method ValidateTargetFieldConfig(qb: NeuralQueryBuilder, defaultModelIdSupported: bool)
    returns (r: Result<(), Exception>, ghost order: seq<string>)
    modifies qb`k
    ensures qb.indexToTargetFieldConfig.Some? ==> Enumerates(order, qb.indexToTargetFieldConfig.value.Keys)
    ensures (r, qb.k) == TargetValidation(qb.indexToTargetFieldConfig, order, old(qb.Fields()), defaultModelIdSupported)
  {
    order := [];
    if qb.indexToTargetFieldConfig.None? {
      return Err(NullPointer), order;
    }
    var configs := qb.indexToTargetFieldConfig.value;
    var keys := IterationOrder(configs.Keys);
    order := keys;
    ghost var f := qb.Fields();
    assert f == old(qb.Fields());
    var groups := CollectTargetGroups(configs, keys);
    if groups.Err? {
      return Err(groups.error), order;
    }
    ghost var expected := TargetValidation(qb.indexToTargetFieldConfig, order, f, defaultModelIdSupported);
    var validationErrors := ValidateTargetGroups(qb, groups.value, defaultModelIdSupported);
    assert qb.fieldName == f.fieldName;
    assert expected.1 == qb.k;
    if validationErrors != [] {
      r := Err(IllegalArgument(InvalidTargetMessage(qb.fieldName, validationErrors)));
    } else {
      r := Ok(());
    }
  }

  /** The loop of `validateTargetFieldConfig` over the entries, visited in `keys`. */
  method CollectTargetGroups(configs: map<string, TargetFieldConfig>, keys: seq<string>) returns (r: Result<TargetGroups, Exception>)
    requires forall i :: 0 <= i < |keys| ==> keys[i] in configs
    ensures r == ClassifyTargets(configs, keys)
  {
    var g := NO_GROUPS;
    var i := 0;
    while i < |keys|
      invariant 0 <= i <= |keys|
      invariant ClassifyTargets(configs, keys[..i]) == Ok(g)
    {
      assert keys[..i + 1][..i] == keys[..i];
      var next := ClassifyTarget(g, keys[i], configs[keys[i]]);
      if next.Err? {
        assert keys[..i + 1][i] == keys[i];
        ClassifyStopsAtNull(configs, keys, i + 1);
        return Err(NullPointer);
      }
      g := next.value;
      i := i + 1;
    }
    assert keys[..i] == keys;
    r := Ok(g);
  }

  /** The checks after the loop; the dense validators run on this builder and default `k`. */
  method ValidateTargetGroups(qb: NeuralQueryBuilder, g: TargetGroups, defaultModelIdSupported: bool) returns (validationErrors: seq<string>)
    modifies qb`k
    ensures validationErrors == TargetValidationErrors(g, old(qb.Fields()), defaultModelIdSupported)
    ensures qb.k == if RunsDenseRules(g) then KDefaulted(old(qb.Fields())).k else old(qb.k)
  {
    validationErrors := g.errors;
    if g.semantic != [] && g.nonSemantic != [] {
      validationErrors := validationErrors + [MixedSemanticMessage(g)];
    } else if g.semantic != [] {
      if g.dense != [] && g.sparse != [] {
        validationErrors := validationErrors + [MixedModelMessage(g)];
      } else if g.dense != [] {
        var ignored := ValidateNeuralQueryForSemanticDense(qb);
      } else if g.sparse != [] {
        var ignored := ValidateNeuralQueryForSemanticSparse(qb);
      }
    } else if g.nonSemantic != [] {
      var knnErrors := ValidateNeuralQueryForKnn(qb, defaultModelIdSupported);
      validationErrors := validationErrors + knnErrors;
    }
  }

  /** The only failures of one iteration are null pointers, and a failure ends the loop for good. */
  lemma {:induction false} ClassifyStopsAtNull(configs: map<string, TargetFieldConfig>, order: seq<string>, n: nat)
    requires 0 < n <= |order|
    requires ClassifyTargets(configs, order[..n]).Err?
    ensures ClassifyTargets(configs, order) == Err(NullPointer)
    decreases |order|
  {
    ClassifyErrIsNull(configs, order[..n]);
    if n < |order| {
      assert order[..|order| - 1][..n] == order[..n];
      ClassifyStopsAtNull(configs, order[..|order| - 1], n);
    } else {
      assert order[..n] == order;
    }
  }

  lemma {:induction false} ClassifyErrIsNull(configs: map<string, TargetFieldConfig>, order: seq<string>)
    ensures ClassifyTargets(configs, order).Err? ==> ClassifyTargets(configs, order) == Err(NullPointer)
    decreases |order|
  {
    if |order| > 0 {
      ClassifyErrIsNull(configs, order[..|order| - 1]);
    }
  }

  // ---------------------------------------------------------------------------------------------
  // prepareRewriteForTargetIndices and doRewrite

  /** What the coordinator's rewrite preparation leaves behind. */
  datatype Prepared = Prepared(result: Result<(), Exception>, configs: Option<map<string, TargetFieldConfig>>, k: Option<int>)

  /**
   * `prepareRewriteForTargetIndices`: nothing happens when the configuration map exists; otherwise
   * it starts empty, is filled from the target indices, and is validated (entries in `order`).
   */
  function PrepareRewriteSpec(f: NeuralQueryFields, targetIndices: Option<seq<IndexMetadata>>, lookup: FieldConfigLookup,
                              defaultModelIdSupported: bool, order: seq<string>): Prepared
  {
    if f.indexToTargetFieldConfig.Some? then Prepared(Ok(()), f.indexToTargetFieldConfig, f.k)
    else if targetIndices.None? then Prepared(Ok(()), Some(map[]), f.k)
    else
      var ex := ExtractConfigs(map[], targetIndices.value, f.fieldName, lookup);
      if ex.failure.Some? then Prepared(Err(ex.failure.value), Some(ex.configs), f.k)
      else
        var (result, k) := TargetValidation(Some(ex.configs), order, f.(indexToTargetFieldConfig := Some(ex.configs)), defaultModelIdSupported);
        Prepared(result, Some(ex.configs), k)
  }

  method PrepareRewriteForTargetIndices(qb: NeuralQueryBuilder, targetIndices: Option<seq<IndexMetadata>>,
                                        lookup: FieldConfigLookup, defaultModelIdSupported: bool)
    returns (r: Result<(), Exception>, ghost order: seq<string>)
    modifies qb`indexToTargetFieldConfig, qb`k
    ensures var p := PrepareRewriteSpec(old(qb.Fields()), targetIndices, lookup, defaultModelIdSupported, order);
      r == p.result && qb.indexToTargetFieldConfig == p.configs && qb.k == p.k
    ensures old(qb.indexToTargetFieldConfig).None? && targetIndices.Some?
            && ExtractConfigs(map[], targetIndices.value, old(qb.fieldName), lookup).failure.None?
            ==> Enumerates(order, qb.indexToTargetFieldConfig.value.Keys)
  {
    order := [];
    if qb.indexToTargetFieldConfig.Some? {
      return Ok(()), order;
    }
    qb.indexToTargetFieldConfig := Some(map[]);
    if targetIndices.None? {
      return Ok(()), order;
    }
    ghost var f := old(qb.Fields());
    ghost var ex := ExtractConfigs(map[], targetIndices.value, f.fieldName, lookup);
    r := ExtractTargetFieldConfig(qb, targetIndices.value, lookup);
    if r.Err? {
      return;
    }
    assert qb.Fields() == f.(indexToTargetFieldConfig := Some(ex.configs));
    r, order := ValidateTargetFieldConfig(qb, defaultModelIdSupported);
  }

  /** The two rewrites a neural query can take. */
  datatype Route = RewriteAgainstKnnField | RewriteAgainstSemanticField

  /**
   * `doRewrite` as written: the first entry of the configuration map decides; only an explicit
   * "not semantic" routes to the k-NN rewrite, so an unmapped entry (null semantic flag) that
   * happens to come first routes to the semantic rewrite.
   */
  function RouteAsWritten(configs: map<string, TargetFieldConfig>, order: seq<string>): Route {
    if |order| == 0 || order[0] !in configs || ExplicitlyNotSemantic(configs[order[0]]) then RewriteAgainstKnnField
    else RewriteAgainstSemanticField
  }

  /** `Boolean.FALSE.equals(isSemanticField)`: false for a null flag. */
  predicate ExplicitlyNotSemantic(c: TargetFieldConfig) {
    c.isSemanticField.Some? && !c.isSemanticField.value
  }

  /** Not recorded as unmapped (a null flag included). */
  predicate NotUnmapped(c: TargetFieldConfig) {
    !(c.isUnmappedField.Some? && c.isUnmappedField.value)
  }

  /** The first entry in `order` whose field the index maps. */
  function FirstMappedTarget(configs: map<string, TargetFieldConfig>, order: seq<string>): Option<TargetFieldConfig> {
    if |order| == 0 then None
    else if order[0] in configs && NotUnmapped(configs[order[0]]) then Some(configs[order[0]])
    else FirstMappedTarget(configs, order[1..])
  }

  /** The route with unmapped entries skipped, as the validation skips them. */
  function ChosenRoute(configs: map<string, TargetFieldConfig>, order: seq<string>): Route {
    var c := FirstMappedTarget(configs, order);
    if c.None? || ExplicitlyNotSemantic(c.value) then RewriteAgainstKnnField else RewriteAgainstSemanticField
  }

  lemma {:induction false} FirstMappedTargetIsMapped(configs: map<string, TargetFieldConfig>, order: seq<string>)
    requires forall i :: 0 <= i < |order| ==> order[i] in configs
    ensures var c := FirstMappedTarget(configs, order);
      && (c.Some? ==> exists i :: 0 <= i < |order| && configs[order[i]] == c.value && NotUnmapped(c.value))
      && (c.None? ==> forall i :: 0 <= i < |order| ==> !NotUnmapped(configs[order[i]]))
  {
    if |order| > 0 && !NotUnmapped(configs[order[0]]) {
      FirstMappedTargetIsMapped(configs, order[1..]);
      var c := FirstMappedTarget(configs, order);
      if c.Some? {
        var i :| 0 <= i < |order[1..]| && configs[order[1..][i]] == c.value && NotUnmapped(c.value);
        assert order[i + 1] == order[1..][i];
      }
      forall i | 1 <= i < |order| ensures !NotUnmapped(configs[order[i]]) || c.Some? {
        assert order[i] == order[1..][i - 1];
      }
    }
  }

  /**
   * For configurations the validation accepts the mix of, the route is the kind of the mapped
   * fields, whatever the order: semantic iff some index maps the field as a semantic field.
   */
  lemma RouteFollowsFieldKind(configs: map<string, TargetFieldConfig>, order: seq<string>)
    requires Enumerates(order, configs.Keys)
    requires forall index :: index in configs ==> !HasNullFlag(configs[index])
    requires !(SomeTarget(configs, SemanticTarget) && SomeTarget(configs, NonSemanticTarget))
    ensures ChosenRoute(configs, order) == if SomeTarget(configs, SemanticTarget) then RewriteAgainstSemanticField else RewriteAgainstKnnField
  {
    FirstMappedTargetIsMapped(configs, order);
    var c := FirstMappedTarget(configs, order);
    if SomeTarget(configs, SemanticTarget) {
      var x :| x in configs && SemanticTarget(configs[x]);
      var i :| 0 <= i < |order| && order[i] == x;
      assert c.Some?;
      var j :| 0 <= j < |order| && configs[order[j]] == c.value && NotUnmapped(c.value);
      assert order[j] in configs && !HasNullFlag(c.value);
      assert !NonSemanticTarget(c.value);
    } else if c.Some? {
      var i :| 0 <= i < |order| && configs[order[i]] == c.value && NotUnmapped(c.value);
      assert order[i] in configs;
      assert !HasNullFlag(c.value) && !SemanticTarget(c.value);

    }
  }

  /**
   * As written, the route depends on the map's order: a non-semantic field in index "a" and an
   * index "b" that lacks the field are accepted by the validation, yet with "b" first the query
   * takes the semantic rewrite.
   */
  lemma RouteAsWrittenDependsOnOrder()
    ensures var configs := map["a" := TargetFieldConfig(Some(false), Some(false), None, None), "b" := UNMAPPED_TARGET];
      && Enumerates(["b", "a"], configs.Keys) && Enumerates(["a", "b"], configs.Keys)
      && RouteAsWritten(configs, ["b", "a"]) == RewriteAgainstSemanticField
      && RouteAsWritten(configs, ["a", "b"]) == RewriteAgainstKnnField
      && ChosenRoute(configs, ["b", "a"]) == RewriteAgainstKnnField
      && (forall d: bool :: TargetValidation(Some(configs), ["b", "a"], NeuralQueryFields(
            Some("f"), Some("q"), Some("m"), None, None, Some(5), None, None, None, None, None, None, None,
            None, None, None, Some(configs), 1.0, None), d).0.Ok?)
  {
    var configs := map["a" := TargetFieldConfig(Some(false), Some(false), None, None), "b" := UNMAPPED_TARGET];
    assert ["b", "a"][1..] == ["a"];
    var f := NeuralQueryFields(
      Some("f"), Some("q"), Some("m"), None, None, Some(5), None, None, None, None, None, None, None,
      None, None, None, Some(configs), 1.0, None);
    assert !IsBlank(Some("q")) by {
      assert "q"[0] == 'q';
      assert !IsJavaWhitespace('q');
    }
    assert FirstMappedTarget(configs, ["b", "a"]) == FirstMappedTarget(configs, ["a"]);
    assert FirstMappedTarget(configs, ["a"]) == Some(configs["a"]);
    assert KnnQueryTypesGiven(f) == {KParam};
    assert ["b", "a"][..1] == ["b"];
    assert ["b", "a"][..1][..0] == [];
  }

  /** Where a coordinator rewrite runs: the target indices it knows of, possibly none. */
  datatype CoordinatorContext = CoordinatorContext(targetIndices: Option<seq<IndexMetadata>>)

  /**
   * `doRewrite`: on the coordinator, prepare the target field configurations, then route by the
   * first entry of the configuration map (`getFirstTargetFieldConfig`), mapped or not; with no
   * configuration map at all the lookup of the first entry throws.
   */
  method DoRewrite(qb: NeuralQueryBuilder, coordinator: Option<CoordinatorContext>, lookup: FieldConfigLookup, defaultModelIdSupported: bool)
    returns (r: Result<Route, Exception>, ghost validationOrder: seq<string>, ghost routeOrder: seq<string>)
    modifies qb`indexToTargetFieldConfig, qb`k
    ensures var p := if coordinator.None? then Prepared(Ok(()), old(qb.indexToTargetFieldConfig), old(qb.k))
                     else PrepareRewriteSpec(old(qb.Fields()), coordinator.value.targetIndices, lookup, defaultModelIdSupported, validationOrder);
      && qb.indexToTargetFieldConfig == p.configs && qb.k == p.k
      && (p.result.Err? ==> r == Err(p.result.error))
      && (p.result.Ok? && p.configs.None? ==> r == Err(NullPointer))
      && (p.result.Ok? && p.configs.Some? ==> Enumerates(routeOrder, p.configs.value.Keys) && r == Ok(RouteAsWritten(p.configs.value, routeOrder)))
  {
    validationOrder, routeOrder := [], [];
    if coordinator.Some? {
      var prepared;
      prepared, validationOrder := PrepareRewriteForTargetIndices(qb, coordinator.value.targetIndices, lookup, defaultModelIdSupported);
      if prepared.Err? {
        return Err(prepared.error), validationOrder, routeOrder;
      }
    }
    if qb.indexToTargetFieldConfig.None? {
      return Err(NullPointer), validationOrder, routeOrder;
    }
    var configs := qb.indexToTargetFieldConfig.value;
    var keys := IterationOrder(configs.Keys);
    routeOrder := keys;
    var first: Option<TargetFieldConfig> := if |keys| == 0 then None else Some(configs[keys[0]]);
    if first.None? || ExplicitlyNotSemantic(first.value) {
      r := Ok(RewriteAgainstKnnField);
    } else {
      r := Ok(RewriteAgainstSemanticField);
    }
  }

  /**
   * When no index lacks the field, routing by the first entry agrees with the corrected route, so
   * for configurations the validation accepts it follows the field kind whatever the order.
   */
  lemma RouteAsWrittenWhenAllMapped(configs: map<string, TargetFieldConfig>, order: seq<string>)
    requires Enumerates(order, configs.Keys)
    requires forall index :: index in configs ==> !HasNullFlag(configs[index]) && NotUnmapped(configs[index])
    requires !(SomeTarget(configs, SemanticTarget) && SomeTarget(configs, NonSemanticTarget))
    ensures RouteAsWritten(configs, order) == ChosenRoute(configs, order)
    ensures RouteAsWritten(configs, order) == if SomeTarget(configs, SemanticTarget) then RewriteAgainstSemanticField else RewriteAgainstKnnField
  {
    RouteFollowsFieldKind(configs, order);
    if |order| > 0 {
      assert order[0] in configs;
      assert FirstMappedTarget(configs, order) == Some(configs[order[0]]);
    }
  }
}

/**
 * The mapping transformer that adds a semantic info field next to every semantic field of an
 * index mapping: it collects and validates the semantic fields, groups them by model id and,
 * once a model's description is known, builds the info field's configuration and inserts it.
 */
module SemanticMappingTransformer {
  import opened Wrappers
  import opened JsonTree
  import opened JavaCollections
  import opened JavaExceptions
  import opened MappingConstants
  import opened MlCommonsModel
  import DottedPaths
  import MappingTree
  import Info = SemanticInfoFieldConstants
  import Utils = SemanticMappingUtils

  const FIELD_NAME_MAX_LENGTH: nat := 512

  /** `SUPPORTED_MODEL_ALGORITHM`. */
  const SUPPORTED_MODEL_ALGORITHM: set<string> :=
    {Name(TextEmbedding), Name(Remote), Name(SparseEncoding), Name(SparseTokenize)}

  /** `SUPPORTED_REMOTE_MODEL_TYPES`. */
  const SUPPORTED_REMOTE_MODEL_TYPES: set<string> := {Name(TextEmbedding), Name(SparseEncoding), Name(SparseTokenize)}

  // ---------------------------------------------------------------------------------------------
  // Validation of the collected semantic fields

  const MODEL_ID_REQUIRED_PREFIX: string := MODEL_ID + " is required for the semantic field at "
  const MODEL_ID_NOT_STRING_PREFIX: string := MODEL_ID + " should be a non-empty string for the semantic field at "
  const INFO_FIELD_NAME_EMPTY_PREFIX: string :=
    SEMANTIC_INFO_FIELD_NAME + " cannot be an empty string for the semantic field at "
  const INFO_FIELD_NAME_TOO_LONG_PREFIX: string :=
    SEMANTIC_INFO_FIELD_NAME + " should not be longer than " + DottedPaths.NatToString(FIELD_NAME_MAX_LENGTH)
    + " characters for the semantic field at "
  const INFO_FIELD_NAME_NOT_STRING_PREFIX: string :=
    SEMANTIC_INFO_FIELD_NAME + " should be a non-empty string for the semantic field at "

  function ModelIdRequiredMessage(path: string): string {
    MODEL_ID_REQUIRED_PREFIX + path
  }

  function ModelIdNotStringMessage(path: string): string {
    MODEL_ID_NOT_STRING_PREFIX + path
  }

  function InfoFieldNameEmptyMessage(path: string): string {
    INFO_FIELD_NAME_EMPTY_PREFIX + path
  }

  function InfoFieldNameTooLongMessage(path: string): string {
    INFO_FIELD_NAME_TOO_LONG_PREFIX + path
  }

  function InfoFieldNameNotStringMessage(path: string): string {
    INFO_FIELD_NAME_NOT_STRING_PREFIX + path
  }

  /** The field names its model by a non-empty string. */
  predicate ValidModelId(fieldConfig: Object) {
    MODEL_ID in fieldConfig && fieldConfig[MODEL_ID].JStr? && |fieldConfig[MODEL_ID].str| > 0
  }

  /** A user-defined info field name, when given, is a string of 1 to 512 characters. */
  predicate ValidInfoFieldName(fieldConfig: Object) {
    SEMANTIC_INFO_FIELD_NAME in fieldConfig ==>
      fieldConfig[SEMANTIC_INFO_FIELD_NAME].JStr?
      && 0 < |fieldConfig[SEMANTIC_INFO_FIELD_NAME].str| <= FIELD_NAME_MAX_LENGTH
  }

  predicate ValidSemanticField(fieldConfig: Object) {
    ValidModelId(fieldConfig) && ValidInfoFieldName(fieldConfig)
  }

  /**
   * `validateModelId`: no error for a non-empty string; "is required" when the key is absent;
   * "should be a non-empty string" for any other value, null included.
   */
  function ValidateModelId(path: string, fieldConfig: Object): (errors: seq<string>)
    ensures errors == [] <==> ValidModelId(fieldConfig)
    ensures MODEL_ID !in fieldConfig ==> errors == [ModelIdRequiredMessage(path)]
    ensures MODEL_ID in fieldConfig && !ValidModelId(fieldConfig) ==> errors == [ModelIdNotStringMessage(path)]
  {
    if MODEL_ID !in fieldConfig then [ModelIdRequiredMessage(path)]
    else
      var modelId := fieldConfig[MODEL_ID];
      if !(modelId.JStr? && modelId.str != "") then [ModelIdNotStringMessage(path)] else []
  }

  /**
   * `validateSemanticInfoFieldName`: an absent name is fine; a non-string (null included), an
   * empty string or a string longer than 512 characters gives one error naming the field.
   */
  function ValidateSemanticInfoFieldName(path: string, fieldConfig: Object): (errors: seq<string>)
    ensures errors == [] <==> ValidInfoFieldName(fieldConfig)
    ensures SEMANTIC_INFO_FIELD_NAME in fieldConfig ==> match fieldConfig[SEMANTIC_INFO_FIELD_NAME]
      case JStr(s) =>
        && (s == "" ==> errors == [InfoFieldNameEmptyMessage(path)])
        && (|s| > FIELD_NAME_MAX_LENGTH ==> errors == [InfoFieldNameTooLongMessage(path)])
      case _ => errors == [InfoFieldNameNotStringMessage(path)]
  {
    if SEMANTIC_INFO_FIELD_NAME !in fieldConfig then []
    else
      match fieldConfig[SEMANTIC_INFO_FIELD_NAME]
      case JStr(name) =>
        if name == "" then [InfoFieldNameEmptyMessage(path)]
        else if |name| > FIELD_NAME_MAX_LENGTH then [InfoFieldNameTooLongMessage(path)]
        else []
      case _ => [InfoFieldNameNotStringMessage(path)]
  }

  /** The errors of the fields listed in `order`, field by field, model id first. */
  function ValidationErrors(semanticFields: map<string, Object>, order: seq<string>): seq<string>
    requires forall i :: 0 <= i < |order| ==> order[i] in semanticFields
  {
    if |order| == 0 then []
    else
      var path := order[|order| - 1];
      ValidationErrors(semanticFields, order[..|order| - 1])
      + ValidateModelId(path, semanticFields[path]) + ValidateSemanticInfoFieldName(path, semanticFields[path])
  }

  /** One field has no error exactly when it is valid. */
  lemma FieldErrorsEmpty(path: string, fieldConfig: Object)
    ensures ValidateModelId(path, fieldConfig) == [] && ValidateSemanticInfoFieldName(path, fieldConfig) == []
            <==> ValidSemanticField(fieldConfig)
  {
  }

  /** Every listed field is valid exactly when all but the last are and the last one is. */
  lemma AllValidSnoc(semanticFields: map<string, Object>, order: seq<string>)
    requires |order| > 0
    requires forall i :: 0 <= i < |order| ==> order[i] in semanticFields
    ensures var init := order[..|order| - 1];
      (forall i :: 0 <= i < |order| ==> ValidSemanticField(semanticFields[order[i]]))
      <==> (forall i :: 0 <= i < |init| ==> ValidSemanticField(semanticFields[init[i]]))
           && ValidSemanticField(semanticFields[order[|order| - 1]])
  {
    var init := order[..|order| - 1];
    if (forall i :: 0 <= i < |init| ==> ValidSemanticField(semanticFields[init[i]]))
       && ValidSemanticField(semanticFields[order[|order| - 1]]) {
      forall i | 0 <= i < |order|
        ensures ValidSemanticField(semanticFields[order[i]])
      {
        if i < |init| {
          assert order[i] == init[i];
        }
      }
    }
    if forall i :: 0 <= i < |order| ==> ValidSemanticField(semanticFields[order[i]]) {
      forall i | 0 <= i < |init|
        ensures ValidSemanticField(semanticFields[init[i]])
      {
        assert init[i] == order[i];
      }
    }
  }

  /** There is no error exactly when every listed field is valid, whatever the order. */
  lemma {:induction false} ValidationErrorsEmpty(semanticFields: map<string, Object>, order: seq<string>)
    requires forall i :: 0 <= i < |order| ==> order[i] in semanticFields
    ensures ValidationErrors(semanticFields, order) == [] <==>
            forall i :: 0 <= i < |order| ==> ValidSemanticField(semanticFields[order[i]])
  {
    if |order| > 0 {
      var init := order[..|order| - 1];
      var path := order[|order| - 1];
      ValidationErrorsEmpty(semanticFields, init);
      var before := ValidationErrors(semanticFields, init);
      var idErrors := ValidateModelId(path, semanticFields[path]);
      var nameErrors := ValidateSemanticInfoFieldName(path, semanticFields[path]);
      FieldErrorsEmpty(path, semanticFields[path]);
      assert ValidationErrors(semanticFields, order) == before + idErrors + nameErrors;
      assert |before + idErrors + nameErrors| == |before| + |idErrors| + |nameErrors|;
      AllValidSnoc(semanticFields, order);
    }
  }

  /** Checking the fields in an iteration order checks every field. */
  lemma AllValidInAnyOrder(semanticFields: map<string, Object>, order: seq<string>)
    requires Enumerates(order, semanticFields.Keys)
    ensures (forall i :: 0 <= i < |order| ==> ValidSemanticField(semanticFields[order[i]]))
            <==> forall p :: p in semanticFields ==> ValidSemanticField(semanticFields[p])
  {
    if forall i :: 0 <= i < |order| ==> ValidSemanticField(semanticFields[order[i]]) {
      forall p | p in semanticFields
        ensures ValidSemanticField(semanticFields[p])
      {
        var i :| 0 <= i < |order| && order[i] == p;
      }
    }
  }

  /**
   * `validateSemanticFields`: all errors of all fields, in map order, thrown once as an
   * IllegalArgumentException joined by "; "; no error when every field is valid.
   */
  method ValidateSemanticFields(semanticFields: map<string, Object>) returns (r: Result<(), Exception>, ghost order: seq<string>)
    ensures Enumerates(order, semanticFields.Keys)
    ensures r.Ok? <==> forall p :: p in semanticFields ==> ValidSemanticField(semanticFields[p])
    ensures r.Err? ==> r.error == IllegalArgument(DottedPaths.Join("; ", ValidationErrors(semanticFields, order)))
  {
    var keys := IterationOrder(semanticFields.Keys);
    order := keys;
    var errors: seq<string> := [];
    var i := 0;
    while i < |keys|
      invariant 0 <= i <= |keys|
      invariant errors == ValidationErrors(semanticFields, keys[..i])
    {
      var path := keys[i];
      assert keys[..i + 1][..i] == keys[..i];
      errors := errors + ValidateModelId(path, semanticFields[path]);
      errors := errors + ValidateSemanticInfoFieldName(path, semanticFields[path]);
      i := i + 1;
    }
    assert keys[..i] == keys;
    ValidationErrorsEmpty(semanticFields, order);
    AllValidInAnyOrder(semanticFields, order);
    if errors != [] {
      return Err(IllegalArgument(DottedPaths.Join("; ", errors))), order;
    }
    r := Ok(());
  }

  /** Validated fields all carry a string model id, so grouping them by model id cannot fail. */
  lemma ValidFieldsHaveModelIds(semanticFields: map<string, Object>)
    requires forall p :: p in semanticFields ==> ValidSemanticField(semanticFields[p])
    ensures Utils.AllHaveModelIds(semanticFields)
  {
    forall p | p in semanticFields
      ensures Utils.HasModelId(semanticFields[p])
    {
      assert Get(semanticFields[p], MODEL_ID) == semanticFields[p][MODEL_ID];
    }
  }

  // ---------------------------------------------------------------------------------------------
  // transform, up to the model fetches

  /** What the synchronous part of `transform` ends with. */
  datatype TransformOutcome =
    | Done                    // listener.onResponse(null) with no model fetched and the mapping untouched
    | Failed(error: Exception)  // listener.onFailure(error)
    | FetchModels(semanticFields: map<string, Object>, modelIdToFieldPaths: map<string, seq<string>>)
                              // one model fetch per model id; each answer runs ModifyMappings

  /**
   * The synchronous part of `transform` on the result of `getProperties(mapping)`: nothing happens
   * without valid properties or without semantic fields; a failing walk or invalid fields fail the
   * listener before any model is fetched; otherwise one fetch per distinct model id follows.
   */
  method Transform(properties: Option<Object>) returns (r: TransformOutcome, ghost order: seq<string>)
    ensures properties.None? ==> r == Done
    ensures properties.Some? && !Utils.Traversable(JMap(properties.value)) ==>
              r.Failed? && (r.error == NullPointer || r.error == ClassCast)
    ensures r.FetchModels? ==>
              && properties.Some?
              && Utils.CollectedFrom(r.semanticFields, properties.value)
              && r.semanticFields != map[]
              && (forall p :: p in r.semanticFields ==> ValidSemanticField(r.semanticFields[p]))
              && Utils.AllHaveModelIds(r.semanticFields)
              && Utils.GroupsByModelId(r.semanticFields, r.semanticFields.Keys, r.modelIdToFieldPaths)
    ensures r.Failed? && properties.Some? && Utils.Traversable(JMap(properties.value)) ==>
              exists semanticFields ::
                && Utils.CollectedFrom(semanticFields, properties.value)
                && Enumerates(order, semanticFields.Keys)
                && (exists p :: p in semanticFields && !ValidSemanticField(semanticFields[p]))
                && r.error == IllegalArgument(DottedPaths.Join("; ", ValidationErrors(semanticFields, order)))
    ensures r == Done <==> properties.None? || (Utils.Traversable(JMap(properties.value))
                                                && Utils.SemanticEntries(JMap(properties.value), "") == {})
  {
    order := [];
    if properties.None? {
      return Done, order;
    }
    var acc := new Utils.SemanticFieldPathToConfigMap();
    var collected := Utils.CollectSemanticField(properties.value, "", acc);
    if collected.Err? {
      return Failed(collected.error), order;
    }
    var semanticFields := acc.entries;
    assert Utils.CollectedFrom(semanticFields, properties.value);
    var validated;
    validated, order := ValidateSemanticFields(semanticFields);
    if validated.Err? {
      assert Utils.SemanticEntries(JMap(properties.value), "") != {} by {
        var p :| p in semanticFields && !ValidSemanticField(semanticFields[p]);
      }
      return Failed(validated.error), order;
    }
    ValidFieldsHaveModelIds(semanticFields);
    var grouped := Utils.ExtractModelIdToFieldPathMap(semanticFields);
    var groups := grouped.value;
    Utils.GroupKeysAreUniqueModelIds(semanticFields, groups);
    Utils.NoGroupsExactlyWhenNoFields(semanticFields, groups);
    if groups == map[] {
      assert forall e :: e in Utils.SemanticEntries(JMap(properties.value), "") ==> e.0 in semanticFields;
      return Done, order;
    }
    assert semanticFields != map[] by {
      var id :| id in groups;
      assert groups[id][0] in semanticFields;
    }
    assert Utils.SemanticEntries(JMap(properties.value), "") != {} by {
      var p :| p in semanticFields;
    }
    r := FetchModels(semanticFields, groups);
  }

  // ---------------------------------------------------------------------------------------------
  // The semantic info field of one model

  /**
   * What the host provides: `FunctionName.from`, `MapperService.parseMapping` on a model's
   * `all_config` text, and the iteration orders of the two `Set.of` constants in the messages.
   */
  datatype Host = Host(
    functionNameFrom: Option<string> -> Result<FunctionName, Exception>,
    parseMapping: Option<string> -> Result<Object, Exception>,
    supportedAlgorithmOrder: seq<string>,
    supportedRemoteTypeOrder: seq<string>)

  const UNSUPPORTED_ALGORITHM_MIDDLE: string := " is not supported. The algorithm should be one of "

  function UnsupportedAlgorithmMessage(algorithm: FunctionName, host: Host): string {
    Name(algorithm) + UNSUPPORTED_ALGORITHM_MIDDLE + DottedPaths.Join(", ", host.supportedAlgorithmOrder)
  }

  const UNSUPPORTED_REMOTE_MODEL_PREFIX: string := "remote model type is not supported. It should be one of ["

  function UnsupportedRemoteModelMessage(host: Host): string {
    UNSUPPORTED_REMOTE_MODEL_PREFIX + DottedPaths.Join(", ", host.supportedRemoteTypeOrder) + "]."
  }

  const NOT_TEXT_EMBEDDING_CONFIG := "remote model is text embedding but model config is not a text embedding config."
  const NO_EMBEDDING_DIMENSION := "remote model is text embedding but embedding dimension is not defined in the model config."
  const NO_SPACE_TYPE := "space_type is not defined or not a string in the all config of the model."

  /** The configuration is a `TextEmbeddingModelConfig` with an embedding dimension. */
  predicate HasDenseSettings(model: MLModel) {
    model.modelConfig.Some? && model.modelConfig.value.TextEmbeddingModelConfig?
    && model.modelConfig.value.embeddingDimension.Some?
  }

  /** The base knn_vector configuration with the model's dimension and space type filled in. */
  function DenseConfig(dimension: int, spaceType: string): Object {
    var base := Info.GetBaseTextEmbeddingConfig();
    var methodConfig := base[Info.KNN_VECTOR_METHOD_FIELD_NAME].fields;
    base[Info.KNN_VECTOR_DIMENSION_FIELD_NAME := JInt(dimension)]
        [Info.KNN_VECTOR_METHOD_FIELD_NAME := JMap(methodConfig[Info.KNN_VECTOR_METHOD_SPACE_TYPE_FIELD_NAME := JStr(spaceType)])]
  }

  /**
   * `createEmbeddingConfigForTextEmbeddingModel`: needs a text embedding configuration with a
   * dimension and an `all_config` whose `space_type` is a string; the result is the base knn_vector
   * configuration with that dimension and that method space type.
   */
  function TextEmbeddingConfig(model: MLModel, host: Host): (r: Result<Object, Exception>)
    ensures !(model.modelConfig.Some? && model.modelConfig.value.TextEmbeddingModelConfig?) ==>
              r == Err(IllegalArgument(NOT_TEXT_EMBEDDING_CONFIG))
    ensures (model.modelConfig.Some? && model.modelConfig.value.TextEmbeddingModelConfig?
             && model.modelConfig.value.embeddingDimension.None?) ==> r == Err(IllegalArgument(NO_EMBEDDING_DIMENSION))
    ensures r.Ok? <==> HasDenseSettings(model)
                       && host.parseMapping(model.modelConfig.value.allConfig).Ok?
                       && Get(host.parseMapping(model.modelConfig.value.allConfig).value,
                              Info.KNN_VECTOR_METHOD_SPACE_TYPE_FIELD_NAME).JStr?
    ensures r.Ok? ==> r.value == DenseConfig(model.modelConfig.value.embeddingDimension.value,
                                 Get(host.parseMapping(model.modelConfig.value.allConfig).value,
                                     Info.KNN_VECTOR_METHOD_SPACE_TYPE_FIELD_NAME).str)
  {
    if !(model.modelConfig.Some? && model.modelConfig.value.TextEmbeddingModelConfig?) then
      Err(IllegalArgument(NOT_TEXT_EMBEDDING_CONFIG))
    else
      var config := model.modelConfig.value;
      if config.embeddingDimension.None? then Err(IllegalArgument(NO_EMBEDDING_DIMENSION))
      else
        match host.parseMapping(config.allConfig)
        case Err(e) => Err(e)
        case Ok(allConfig) =>
          match Get(allConfig, Info.KNN_VECTOR_METHOD_SPACE_TYPE_FIELD_NAME)
          case JStr(spaceType) => Ok(DenseConfig(config.embeddingDimension.value, spaceType))
          case _ => Err(IllegalArgument(NO_SPACE_TYPE))
  }

  /** The dense configuration is a faiss/hnsw knn_vector carrying exactly the given dimension and space type. */
  lemma DenseConfigShape(dimension: int, spaceType: string)
    ensures var c := DenseConfig(dimension, spaceType);
      && c.Keys == {TYPE, Info.KNN_VECTOR_METHOD_FIELD_NAME, Info.KNN_VECTOR_DIMENSION_FIELD_NAME}
      && c[TYPE] == JStr(Info.KNN_VECTOR_CONTENT_TYPE)
      && c[Info.KNN_VECTOR_DIMENSION_FIELD_NAME] == JInt(dimension)
      && c[Info.KNN_VECTOR_METHOD_FIELD_NAME] == JMap(map[
           Info.KNN_VECTOR_METHOD_ENGINE_FIELD_NAME := JStr(Info.KNN_VECTOR_METHOD_DEFAULT_ENGINE),
           Info.KNN_VECTOR_METHOD_NAME_FIELD_NAME := JStr(Info.KNN_VECTOR_METHOD_DEFAULT_NAME),
           Info.KNN_VECTOR_METHOD_SPACE_TYPE_FIELD_NAME := JStr(spaceType)])
  {
    var base := Info.GetBaseTextEmbeddingConfig();
    assert Info.KNN_VECTOR_DIMENSION_FIELD_NAME != TYPE && Info.KNN_VECTOR_DIMENSION_FIELD_NAME != Info.KNN_VECTOR_METHOD_FIELD_NAME;
  }

  /**
   * `createEmbeddingConfigForRemoteModel`: the model type must parse (a parse failure becomes the
   * "remote model type is not supported" error) and be a text embedding or sparse type.
   */
  function RemoteEmbeddingConfig(model: MLModel, host: Host): (r: Result<Object, Exception>)
    ensures model.modelConfig.None? ==> r == Err(NullPointer)
    ensures model.modelConfig.Some? ==>
      match host.functionNameFrom(model.modelConfig.value.modelType)
      case Err(e) => r == Err(if e.IllegalArgument? then IllegalArgument(UnsupportedRemoteModelMessage(host)) else e)
      case Ok(TextEmbedding) => r == TextEmbeddingConfig(model, host)
      case Ok(SparseEncoding) => r == Ok(Info.GetBaseSparseEmbeddingConfig())
      case Ok(SparseTokenize) => r == Ok(Info.GetBaseSparseEmbeddingConfig())
      case Ok(_) => r == Err(IllegalArgument(UnsupportedRemoteModelMessage(host)))
  {
    if model.modelConfig.None? then Err(NullPointer)
    else
      match host.functionNameFrom(model.modelConfig.value.modelType)
      case Err(e) => if e.IllegalArgument? then Err(IllegalArgument(UnsupportedRemoteModelMessage(host))) else Err(e)
      case Ok(modelType) =>
        match modelType
        case TextEmbedding => TextEmbeddingConfig(model, host)
        case SparseEncoding => Ok(Info.GetBaseSparseEmbeddingConfig())
        case SparseTokenize => Ok(Info.GetBaseSparseEmbeddingConfig())
        case _ => Err(IllegalArgument(UnsupportedRemoteModelMessage(host)))
  }

  /** The kind of model an embedding configuration is made for: the algorithm, or for a remote model its parsed type. */
  function EffectiveType(model: MLModel, host: Host): Option<FunctionName> {
    if model.algorithm.Remote? then
      if model.modelConfig.None? then None
      else match host.functionNameFrom(model.modelConfig.value.modelType)
        case Err(_) => None
        case Ok(t) => Some(t)
    else Some(model.algorithm)
  }

  /** The switch of `createSemanticInfoField` on the model's algorithm (the embedding part only). */
  function EmbeddingConfig(model: MLModel, host: Host): (r: Result<Object, Exception>)
    ensures model.algorithm.OtherFunction? ==> r == Err(IllegalArgument(UnsupportedAlgorithmMessage(model.algorithm, host)))
  {
    match model.algorithm
    case TextEmbedding => TextEmbeddingConfig(model, host)
    case SparseEncoding => Ok(Info.GetBaseSparseEmbeddingConfig())
    case SparseTokenize => Ok(Info.GetBaseSparseEmbeddingConfig())
    case Remote => RemoteEmbeddingConfig(model, host)
    case OtherFunction(_) => Err(IllegalArgument(UnsupportedAlgorithmMessage(model.algorithm, host)))
  }

  /**
   * A text embedding model, local or remote, gets a knn_vector embedding and a sparse one a
   * rank_feature embedding; a remote model of any other type is refused.
   */
  lemma EmbeddingFollowsModelType(model: MLModel, host: Host)
    ensures var r := EmbeddingConfig(model, host);
      && (r.Ok? ==> EffectiveType(model, host).Some? && TYPE in r.value)
      && (r.Ok? && EffectiveType(model, host) == Some(TextEmbedding) ==> r.value[TYPE] == JStr(Info.KNN_VECTOR_CONTENT_TYPE))
      && (r.Ok? && EffectiveType(model, host) != Some(TextEmbedding) ==> r.value[TYPE] == JStr(Info.RANK_FEATURE_CONTENT_TYPE))
      && (EffectiveType(model, host).Some? && EffectiveType(model, host).value.SparseEncoding? ==> r == Ok(Info.GetBaseSparseEmbeddingConfig()))
      && (EffectiveType(model, host).Some? && EffectiveType(model, host).value.SparseTokenize? ==> r == Ok(Info.GetBaseSparseEmbeddingConfig()))
      && (model.algorithm.Remote? && EffectiveType(model, host).Some? && EffectiveType(model, host).value.Remote? ==>
            r == Err(IllegalArgument(UnsupportedRemoteModelMessage(host))))
  {
    var r := EmbeddingConfig(model, host);
    if r.Ok? && (model.algorithm.TextEmbedding? || (model.algorithm.Remote? && EffectiveType(model, host) == Some(TextEmbedding))) {
      var config := model.modelConfig.value;
      DenseConfigShape(config.embeddingDimension.value,
                       Get(host.parseMapping(config.allConfig).value, Info.KNN_VECTOR_METHOD_SPACE_TYPE_FIELD_NAME).str);
    }
  }

  /** `createSemanticInfoField`: the base semantic info configuration around the model's embedding configuration. */
  function CreateSemanticInfoField(model: MLModel, host: Host): (r: Result<Object, Exception>)
    ensures r.Ok? <==> EmbeddingConfig(model, host).Ok?
    ensures r.Ok? ==> r.value == Info.GetBaseSemanticInfoConfig(EmbeddingConfig(model, host).value)
  {
    match EmbeddingConfig(model, host)
    case Err(e) => Err(e)
    case Ok(embeddingConfig) => Ok(Info.GetBaseSemanticInfoConfig(embeddingConfig))
  }

  // ---------------------------------------------------------------------------------------------
  // Inserting the semantic info fields

  /**
   * `setSemanticInfoField` of the transformer: the user's name (cast to String) or the default
   * name, the walk to the semantic field's level, and the insertion there. An existing key of that
   * name is overwritten: there is no conflict check.
   */
  function SemanticInfoFieldUpdate(mappings: Object, fullPath: string, userName: Json, semanticInfoConfig: Object): Result<Object, Exception> {
    match AsString(userName)
    case NotAString => Err(ClassCast)
    case _ =>
      var name := if userName.JStr? then Some(userName.str) else None;
      match MappingTree.InfoFieldTarget(fullPath, name)
      case Err(e) => Err(e)
      case Ok(target) =>
        if MappingTree.Descend(mappings, target.parents).Err? then Err(MappingTree.Descend(mappings, target.parents).error)
        else Ok(MappingTree.PutAt(mappings, target.parents, target.name, JMap(semanticInfoConfig)))
  }

  method SetSemanticInfoField(mappings: Object, fullPath: string, userName: Json, semanticInfoConfig: Object)
    returns (r: Result<Object, Exception>)
    ensures r == SemanticInfoFieldUpdate(mappings, fullPath, userName, semanticInfoConfig)
  {
    var cast := AsString(userName);
    if cast.NotAString? && DottedPaths.Split(fullPath) != [] {
      return Err(ClassCast);
    }
    var paths := DottedPaths.Split(fullPath);
    if |paths| == 0 {
      if cast.NotAString? {
        return Err(ClassCast);
      }
      return Err(IndexOutOfBounds);
    }
    var semanticInfoFieldName := if userName.JNull? then paths[|paths| - 1] + DEFAULT_SEMANTIC_INFO_FIELD_NAME_SUFFIX else userName.str;
    paths := paths[|paths| - 1 := semanticInfoFieldName];
    var parents := paths[..|paths| - 1];
    assert MappingTree.InfoFieldTarget(fullPath, if userName.JStr? then Some(userName.str) else None)
           == Ok(MappingTree.InfoTarget(parents, semanticInfoFieldName));
    var current := MappingTree.WalkToParent(mappings, parents);
    if current.Err? {
      return Err(current.error);
    }
    r := Ok(MappingTree.PutAt(mappings, parents, semanticInfoFieldName, JMap(semanticInfoConfig)));
  }

  /**
   * Next to a semantic field at a path of proper segments whose parents are object fields, the info
   * field is inserted with the given configuration, under the user's name or the default name,
   * replacing any entry of that name; nothing else at that level changes.
   */
  lemma InfoFieldInsertedBesideField(mappings: Object, segments: seq<string>, userName: Json, semanticInfoConfig: Object)
    requires DottedPaths.WellFormedSegments(segments)
    requires userName.JNull? || userName.JStr?
    requires MappingTree.Descend(mappings, segments[..|segments| - 1]).Ok?
    ensures var r := SemanticInfoFieldUpdate(mappings, DottedPaths.Join(".", segments), userName, semanticInfoConfig);
      var name := if userName.JStr? then userName.str else segments[|segments| - 1] + DEFAULT_SEMANTIC_INFO_FIELD_NAME_SUFFIX;
      var parents := segments[..|segments| - 1];
      && r.Ok?
      && MappingTree.Descend(r.value, parents)
         == Ok(MappingTree.Descend(mappings, parents).value[name := JMap(semanticInfoConfig)])
  {
    var name := if userName.JStr? then Some(userName.str) else None;
    MappingTree.InfoFieldBesideSemanticField(segments, name);
    var fullName := if userName.JStr? then userName.str else segments[|segments| - 1] + DEFAULT_SEMANTIC_INFO_FIELD_NAME_SUFFIX;
    MappingTree.PutAtReadsBack(mappings, segments[..|segments| - 1], fullName, JMap(semanticInfoConfig));
  }

  /** The prefix of every error `modifyMappings` rethrows. */
  const BASE_ERROR_PREFIX: string := "Failed to transform the mapping for the semantic field with model id "

  function BaseErrorMessage(modelId: string, fieldPath: string): string {
    BASE_ERROR_PREFIX + modelId + " at path " + fieldPath + ". "
  }

  /**
   * The two catch clauses of `modifyMappings`: an IllegalArgumentException is rethrown as one
   * with the prefix added to its message, any other exception as a RuntimeException around it.
   */
  function WrapError(base: string, e: Exception): (r: Exception)
    ensures r.IllegalArgument? <==> e.IllegalArgument?
    ensures e.IllegalArgument? ==> r.message == base + e.message
    ensures !e.IllegalArgument? ==> r == RuntimeWrapping(base, e)
  {
    if e.IllegalArgument? then IllegalArgument(base + e.message) else RuntimeWrapping(base, e)
  }

  /** One turn of `modifyMappings`: the info configuration of the model, inserted for `fieldPath`. */
  function ModifyOne(mappings: Object, model: MLModel, fieldPath: string, semanticFields: map<string, Object>,
                     modelId: string, host: Host): Result<Object, Exception>
  {
    var base := BaseErrorMessage(modelId, fieldPath);
    match CreateSemanticInfoField(model, host)
    case Err(e) => Err(WrapError(base, e))
    case Ok(semanticInfoConfig) =>
      if fieldPath !in semanticFields then Err(WrapError(base, NullPointer))
      else
        match SemanticInfoFieldUpdate(mappings, fieldPath, Get(semanticFields[fieldPath], SEMANTIC_INFO_FIELD_NAME), semanticInfoConfig)
        case Err(e) => Err(WrapError(base, e))
        case Ok(updated) => Ok(updated)
  }

  /** The fields in order, the first failure stopping the loop. */
  function ModifyAll(mappings: Object, model: MLModel, fieldPaths: seq<string>, semanticFields: map<string, Object>,
                     modelId: string, host: Host): Result<Object, Exception>
    decreases |fieldPaths|
  {
    if |fieldPaths| == 0 then Ok(mappings)
    else
      match ModifyOne(mappings, model, fieldPaths[0], semanticFields, modelId, host)
      case Err(e) => Err(e)
      case Ok(updated) => ModifyAll(updated, model, fieldPaths[1..], semanticFields, modelId, host)
  }

  /**
   * `modifyMappings`: inserts the model's semantic info field for every path of the model's group,
   * in list order; the first failure is rethrown with the model id and the path in its message.
   */
  method ModifyMappings(mappings: Object, model: MLModel, fieldPaths: seq<string>, semanticFields: map<string, Object>,
                        modelId: string, host: Host) returns (r: Result<Object, Exception>)
    ensures r == ModifyAll(mappings, model, fieldPaths, semanticFields, modelId, host)
  {
    var current := mappings;
    var i := 0;
    while i < |fieldPaths|
      invariant 0 <= i <= |fieldPaths|
      invariant ModifyAll(mappings, model, fieldPaths, semanticFields, modelId, host)
                == ModifyAll(current, model, fieldPaths[i..], semanticFields, modelId, host)
    {
      assert fieldPaths[i..][1..] == fieldPaths[i + 1..];
      var fieldPath := fieldPaths[i];
      var baseErrorMessage := BaseErrorMessage(modelId, fieldPath);
      var semanticInfoConfig := CreateSemanticInfoField(model, host);
      if semanticInfoConfig.Err? {
        return Err(WrapError(baseErrorMessage, semanticInfoConfig.error));
      }
      if fieldPath !in semanticFields {
        return Err(WrapError(baseErrorMessage, NullPointer));
      }
      var updated := SetSemanticInfoField(current, fieldPath, Get(semanticFields[fieldPath], SEMANTIC_INFO_FIELD_NAME),
                                          semanticInfoConfig.value);
      if updated.Err? {
        return Err(WrapError(baseErrorMessage, updated.error));
      }
      current := updated.value;
      i := i + 1;
    }
    r := Ok(current);
  }

  /**
   * A model whose semantic info configuration cannot be built fails on the first path of its group,
   * with that path in the message, and no insertion happens.
   */
  lemma UnusableModelFailsFirstPath(mappings: Object, model: MLModel, fieldPaths: seq<string>,
                                    semanticFields: map<string, Object>, modelId: string, host: Host)
    requires |fieldPaths| > 0
    requires CreateSemanticInfoField(model, host).Err?
    ensures ModifyAll(mappings, model, fieldPaths, semanticFields, modelId, host)
            == Err(WrapError(BaseErrorMessage(modelId, fieldPaths[0]), EmbeddingConfig(model, host).error))
  {
  }

  /**
   * For distinct sibling semantic fields with default names, the first insertion does not disturb
   * the walk of the second: the two fields' info fields end up side by side at the same level.
   */
  lemma {:induction false} TwoSiblingsBothInserted(mappings: Object, parents: seq<string>, a: string, b: string,
                                                   semanticInfoConfig: Object)
    requires DottedPaths.WellFormedSegments(parents + [a]) && DottedPaths.WellFormedSegments(parents + [b])
    requires MappingTree.Descend(mappings, parents).Ok?
    requires a != b
    ensures var first := SemanticInfoFieldUpdate(mappings, DottedPaths.Join(".", parents + [a]), JNull, semanticInfoConfig);
      && first.Ok?
      && var second := SemanticInfoFieldUpdate(first.value, DottedPaths.Join(".", parents + [b]), JNull, semanticInfoConfig);
      && second.Ok?
      && MappingTree.Descend(second.value, parents)
         == Ok(MappingTree.Descend(mappings, parents).value
                 [a + DEFAULT_SEMANTIC_INFO_FIELD_NAME_SUFFIX := JMap(semanticInfoConfig)]
                 [b + DEFAULT_SEMANTIC_INFO_FIELD_NAME_SUFFIX := JMap(semanticInfoConfig)])
  {
    assert (parents + [a])[..|parents + [a]| - 1] == parents;
    assert (parents + [b])[..|parents + [b]| - 1] == parents;
    InfoFieldInsertedBesideField(mappings, parents + [a], JNull, semanticInfoConfig);
    var first := SemanticInfoFieldUpdate(mappings, DottedPaths.Join(".", parents + [a]), JNull, semanticInfoConfig);
    InfoFieldInsertedBesideField(first.value, parents + [b], JNull, semanticInfoConfig);
  }
}

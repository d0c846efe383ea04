/**
 * The action filter that rewrites the mapping of a create-index request: every semantic field
 * gets a generated semantic info field next to it, built from its model's description, and a
 * field of that name already present is an error.
 */
module SemanticFieldFilter {
  import opened Wrappers
  import opened JsonTree
  import opened JavaExceptions
  import opened MappingConstants
  import opened MlCommonsModel
  import DottedPaths
  import MappingTree
  import Utils = SemanticMappingUtils

  /** `MapperService.SINGLE_MAPPING_NAME`. */
  const SINGLE_MAPPING_NAME := "_doc"

  /** The requests the filter tells apart; only a create-index request carries a mapping it reads. */
  datatype Request =
    | CreateIndexRequest(mappings: Option<string>)  // the mapping source, as the request holds it
    | OtherRequest

  /** The converted mapping has a `_doc` map whose `properties` is a map. */
  predicate HasDocProperties(mapping: Object) {
    && SINGLE_MAPPING_NAME in mapping && mapping[SINGLE_MAPPING_NAME].JMap?
    && PROPERTIES in mapping[SINGLE_MAPPING_NAME].fields
    && mapping[SINGLE_MAPPING_NAME].fields[PROPERTIES].JMap?
  }

  /** `parseMappings` on the already converted mapping: `_doc.properties` when it is a map, otherwise an empty map. */
  function PropertiesOf(mapping: Object): (r: Object)
    ensures HasDocProperties(mapping) ==> r == mapping[SINGLE_MAPPING_NAME].fields[PROPERTIES].fields
    ensures !HasDocProperties(mapping) ==> r == map[]
  {
    match Get(mapping, SINGLE_MAPPING_NAME)
    case JMap(mappingDoc) =>
      (match Get(mappingDoc, PROPERTIES)
       case JMap(properties) => properties
       case _ => map[])
    case _ => map[]
  }

  /**
   * `parseMappings`: a request without a mapping reads as an empty map; otherwise the host's JSON
   * conversion (`XContentHelper.convertToMap`), whose failure is passed on.
   */
  function ParseMappings(mappings: Option<string>, convertToMap: string -> Result<Object, Exception>): (r: Result<Object, Exception>)
    ensures mappings.None? ==> r == Ok(map[])
    ensures mappings.Some? && convertToMap(mappings.value).Ok? ==> r == Ok(PropertiesOf(convertToMap(mappings.value).value))
    ensures mappings.Some? && convertToMap(mappings.value).Err? ==> r == Err(convertToMap(mappings.value).error)
  {
    if mappings.None? then Ok(PropertiesOf(map[]))
    else
      match convertToMap(mappings.value)
      case Err(e) => Err(e)
      case Ok(mapping) => Ok(PropertiesOf(mapping))
  }

  /** What `apply` does with a request, up to the model fetches. */
  datatype FilterOutcome =
    | Proceed                  // chain.proceed with the request unchanged
    | FailListener(error: Exception)  // listener.onFailure
    | Throws(error: Exception)        // an exception leaves apply
    | FetchModels(mappings: Object, semanticFields: map<string, Object>, idToFieldPaths: map<string, seq<string>>)
                               // one model fetch per model id; each answer runs ModifyMappings on `mappings`

  const PROCESS_MAPPING_FAILED := "Failed to process index mapping"

  /**
   * `apply` with `processCreateIndexRequest`: a request that does not create an index, or one
   * whose mapping has no semantic field, goes on unchanged; an IOException of the conversion fails
   * the listener; other exceptions of the conversion, the walk or the grouping leave the filter.
   */
  method Apply(request: Request, convertToMap: string -> Result<Object, Exception>) returns (r: FilterOutcome)
    ensures request.OtherRequest? ==> r == Proceed
    ensures request.CreateIndexRequest? ==>
      match ParseMappings(request.mappings, convertToMap)
      case Err(e) => r == (if e.IO? then FailListener(Runtime(PROCESS_MAPPING_FAILED)) else Throws(e))
      case Ok(properties) =>
        && (!Utils.Traversable(JMap(properties)) ==> r.Throws? && (r.error == NullPointer || r.error == ClassCast))
        && (r == Proceed <==> Utils.Traversable(JMap(properties)) && Utils.SemanticEntries(JMap(properties), "") == {})
        && (r.FetchModels? ==>
              && r.mappings == properties
              && Utils.CollectedFrom(r.semanticFields, properties)
              && Utils.AllHaveModelIds(r.semanticFields)
              && Utils.GroupsByModelId(r.semanticFields, r.semanticFields.Keys, r.idToFieldPaths))
        && (r.Throws? && Utils.Traversable(JMap(properties)) ==>
              exists semanticFields :: Utils.CollectedFrom(semanticFields, properties)
                                       && Utils.MissingModelIdError(semanticFields, r.error))
        && !r.FailListener?
  {
    if request.OtherRequest? {
      return Proceed;
    }
    var parsed := ParseMappings(request.mappings, convertToMap);
    if parsed.Err? {
      if parsed.error.IO? {
        return FailListener(Runtime(PROCESS_MAPPING_FAILED));
      }
      return Throws(parsed.error);
    }
    var mappings := parsed.value;
    var acc := new Utils.SemanticFieldPathToConfigMap();
    var collected := Utils.CollectSemanticField(mappings, "", acc);
    if collected.Err? {
      return Throws(collected.error);
    }
    var semanticFields := acc.entries;
    assert Utils.CollectedFrom(semanticFields, mappings);
    if semanticFields == map[] {
      return Proceed;
    }
    assert Utils.SemanticEntries(JMap(mappings), "") != {} by {
      var p :| p in semanticFields;
    }
    var grouped := Utils.ExtractModelIdToFieldPathMap(semanticFields);
    if grouped.Err? {
      return Throws(grouped.error);
    }
    r := FetchModels(mappings, semanticFields, grouped.value);
  }

  // ---------------------------------------------------------------------------------------------
  // The semantic info field of one model

  /** A text field that is not indexed, with the flag written as the string "false". */
  const ModelInfoField: Json := JMap(map["type" := JStr("text"), "index" := JStr("false")])

  /** The knn_vector configuration of a text embedding model: its dimension, faiss, hnsw and l2. */
  function KnnVectorConfig(dimension: int): Object {
    map["type" := JStr("knn_vector"), "dimension" := JInt(dimension),
        "method" := JMap(map["engine" := JStr("faiss"), "name" := JStr("hnsw"), "space_type" := JStr("l2")])]
  }

  /**
   * The embedding part of `createSemanticInfoField`: a knn_vector for a text embedding model, an
   * empty map for any other algorithm. A text embedding model needs a text embedding configuration
   * (the cast of another one fails; a null one is dereferenced) with a dimension (`Map.of` refuses
   * a null value).
   */
  function EmbeddingConfig(model: MLModel): (r: Result<Object, Exception>)
    ensures !model.algorithm.TextEmbedding? ==> r == Ok(map[])
    ensures model.algorithm.TextEmbedding? ==>
      match model.modelConfig
      case None => r == Err(NullPointer)
      case Some(OtherModelConfig(_)) => r == Err(ClassCast)
      case Some(TextEmbeddingModelConfig(_, dimension, _)) =>
        r == (if dimension.None? then Err(NullPointer) else Ok(KnnVectorConfig(dimension.value)))
  {
    if !model.algorithm.TextEmbedding? then Ok(map[])
    else
      match model.modelConfig
      case None => Err(NullPointer)
      case Some(config) =>
        if !config.TextEmbeddingModelConfig? then Err(ClassCast)
        else if config.embeddingDimension.None? then Err(NullPointer)
        else Ok(KnnVectorConfig(config.embeddingDimension.value))
  }

  /**
   * `createSemanticInfoField`: a nested `chunks` object with the chunk text and the model's embedding
   * configuration, and a `model` object whose id, type and name are non-indexed text fields.
   */
  function CreateSemanticInfoField(model: MLModel): (r: Result<Object, Exception>)
    ensures r.Ok? <==> EmbeddingConfig(model).Ok?
    ensures r.Ok? ==>
      && r.value.Keys == {"properties"} && r.value["properties"].JMap?
      && var properties := r.value["properties"].fields;
      && properties.Keys == {"chunks", "model"}
      && properties["chunks"] == JMap(map["type" := JStr("nested"), "properties" := JMap(map[
           "text" := JMap(map["type" := JStr("text")]),
           "embedding" := JMap(EmbeddingConfig(model).value)])])
      && properties["model"].JMap? && properties["model"].fields.Keys == {"properties"}
      && properties["model"].fields["properties"].JMap?
      && properties["model"].fields["properties"].fields.Keys == {"id", "type", "name"}
      && forall k :: k in properties["model"].fields["properties"].fields ==>
           properties["model"].fields["properties"].fields[k] == ModelInfoField
  {
    match EmbeddingConfig(model)
    case Err(e) => Err(e)
    case Ok(embeddingConfig) =>
      Ok(map["properties" := JMap(map[
        "chunks" := JMap(map["type" := JStr("nested"), "properties" := JMap(map[
          "text" := JMap(map["type" := JStr("text")]),
          "embedding" := JMap(embeddingConfig)])]),
        "model" := JMap(map["properties" := JMap(map[
          "id" := ModelInfoField, "type" := ModelInfoField, "name" := ModelInfoField])])])])
  }

  /** Only a text embedding model gets a knn_vector embedding, and it carries the model's dimension. */
  lemma OnlyTextEmbeddingGetsVectors(model: MLModel)
    requires CreateSemanticInfoField(model).Ok?
    ensures var embedding := CreateSemanticInfoField(model).value["properties"].fields["chunks"].fields["properties"].fields["embedding"];
      && embedding.JMap?
      && ("type" in embedding.fields && embedding.fields["type"] == JStr("knn_vector") <==> model.algorithm.TextEmbedding?)
      && (model.algorithm.TextEmbedding? ==>
            embedding.fields["dimension"] == JInt(model.modelConfig.value.embeddingDimension.value))
      && (!model.algorithm.TextEmbedding? ==> embedding.fields == map[])
  {
  }

  // ---------------------------------------------------------------------------------------------
  // Inserting the semantic info fields

  const NOT_A_STRING_PREFIX: string := SEMANTIC_INFO_FIELD_NAME + " should be a string semantic field at: "

  function NotAStringMessage(fullPath: string): string {
    NOT_A_STRING_PREFIX + fullPath
  }

  const CONFLICT_SUFFIX: string :=
    ". Semantic field cannot auto generate semantic info field. Please rename it or define a custom "
    + "semantic_info_field_name to avoid the conflict."

  function ConflictMessage(name: string, renamedPath: string): string {
    "Field " + name + " already exists in path " + renamedPath + CONFLICT_SUFFIX
  }

  /**
   * `setSemanticInfoField` of the filter: a non-null user name must be a string; the name is the
   * user's or the default one; after the walk, a key of that name already at the level is an error
   * and otherwise that key is inserted.
   */
  function InfoFieldUpdate(mappings: Object, fullPath: string, userName: Json, semanticInfoConfig: Object): Result<Object, Exception> {
    if !(userName.JNull? || userName.JStr?) then Err(IllegalArgument(NotAStringMessage(fullPath)))
    else
      match MappingTree.InfoFieldTarget(fullPath, if userName.JStr? then Some(userName.str) else None)
      case Err(e) => Err(e)
      case Ok(target) =>
        match MappingTree.Descend(mappings, target.parents)
        case Err(e) => Err(e)
        case Ok(parent) =>
          if target.name in parent then
            Err(IllegalArgument(ConflictMessage(target.name, DottedPaths.Join(".", target.parents + [target.name]))))
          else Ok(MappingTree.PutAt(mappings, target.parents, target.name, JMap(semanticInfoConfig)))
  }

  method SetSemanticInfoField(mappings: Object, fullPath: string, userName: Json, semanticInfoConfig: Object)
    returns (r: Result<Object, Exception>)
    ensures r == InfoFieldUpdate(mappings, fullPath, userName, semanticInfoConfig)
  {
    if !userName.JNull? && !userName.JStr? {
      return Err(IllegalArgument(NotAStringMessage(fullPath)));
    }
    var paths := DottedPaths.Split(fullPath);
    if |paths| == 0 {
      return Err(IndexOutOfBounds);
    }
    var semanticInfoFieldName := if userName.JNull? then paths[|paths| - 1] + DEFAULT_SEMANTIC_INFO_FIELD_NAME_SUFFIX else userName.str;
    paths := paths[|paths| - 1 := semanticInfoFieldName];
    var parents := paths[..|paths| - 1];
    assert paths == parents + [semanticInfoFieldName];
    assert MappingTree.InfoFieldTarget(fullPath, if userName.JStr? then Some(userName.str) else None)
           == Ok(MappingTree.InfoTarget(parents, semanticInfoFieldName));
    var current := MappingTree.WalkToParent(mappings, parents);
    if current.Err? {
      return Err(current.error);
    }
    if semanticInfoFieldName in current.value {
      return Err(IllegalArgument(ConflictMessage(semanticInfoFieldName, DottedPaths.Join(".", paths))));
    }
    r := Ok(MappingTree.PutAt(mappings, parents, semanticInfoFieldName, JMap(semanticInfoConfig)));
  }

  /**
   * When the walk succeeds, the filter either refuses because the key is already there, or adds
   * exactly that one key at the semantic field's level and changes nothing else there.
   */
  lemma {:induction false} InsertsOneKeyOrRefuses(mappings: Object, fullPath: string, userName: Json, semanticInfoConfig: Object)
    requires userName.JNull? || userName.JStr?
    requires MappingTree.InfoFieldTarget(fullPath, if userName.JStr? then Some(userName.str) else None).Ok?
    requires MappingTree.Descend(mappings, MappingTree.InfoFieldTarget(fullPath, if userName.JStr? then Some(userName.str) else None).value.parents).Ok?
    ensures var target := MappingTree.InfoFieldTarget(fullPath, if userName.JStr? then Some(userName.str) else None).value;
      var parent := MappingTree.Descend(mappings, target.parents).value;
      var r := InfoFieldUpdate(mappings, fullPath, userName, semanticInfoConfig);
      && (r.Err? <==> target.name in parent)
      && (r.Err? ==> r.error.IllegalArgument?)
      && (r.Ok? ==> && MappingTree.Descend(r.value, target.parents) == Ok(parent[target.name := JMap(semanticInfoConfig)])
                    && parent[target.name := JMap(semanticInfoConfig)].Keys == parent.Keys + {target.name})
  {
    var target := MappingTree.InfoFieldTarget(fullPath, if userName.JStr? then Some(userName.str) else None).value;
    MappingTree.PutAtReadsBack(mappings, target.parents, target.name, JMap(semanticInfoConfig));
  }

  /** One turn of `modifyMappings`: build the model's info field and insert it for `fieldPath`. */
  function ModifyOne(mappings: Object, model: MLModel, fieldPath: string, semanticFields: map<string, Object>): Result<Object, Exception> {
    match CreateSemanticInfoField(model)
    case Err(e) => Err(e)
    case Ok(semanticInfoConfig) =>
      if fieldPath !in semanticFields then Err(NullPointer)
      else InfoFieldUpdate(mappings, fieldPath, Get(semanticFields[fieldPath], SEMANTIC_INFO_FIELD_NAME), semanticInfoConfig)
  }

  function ModifyAll(mappings: Object, model: MLModel, fieldPaths: seq<string>, semanticFields: map<string, Object>): Result<Object, Exception>
    decreases |fieldPaths|
  {
    if |fieldPaths| == 0 then Ok(mappings)
    else
      match ModifyOne(mappings, model, fieldPaths[0], semanticFields)
      case Err(e) => Err(e)
      case Ok(updated) => ModifyAll(updated, model, fieldPaths[1..], semanticFields)
  }

  /** `modifyMappings`: the info field of every path of the model's group, in list order; any exception propagates. */
  method ModifyMappings(mappings: Object, model: MLModel, fieldPaths: seq<string>, semanticFields: map<string, Object>)
    returns (r: Result<Object, Exception>)
    ensures r == ModifyAll(mappings, model, fieldPaths, semanticFields)
  {
    var current := mappings;
    var i := 0;
    while i < |fieldPaths|
      invariant 0 <= i <= |fieldPaths|
      invariant ModifyAll(mappings, model, fieldPaths, semanticFields) == ModifyAll(current, model, fieldPaths[i..], semanticFields)
    {
      assert fieldPaths[i..][1..] == fieldPaths[i + 1..];
      var fieldPath := fieldPaths[i];
      var semanticInfoConfig := CreateSemanticInfoField(model);
      if semanticInfoConfig.Err? {
        return Err(semanticInfoConfig.error);
      }
      if fieldPath !in semanticFields {
        return Err(NullPointer);
      }
      var updated := SetSemanticInfoField(current, fieldPath, Get(semanticFields[fieldPath], SEMANTIC_INFO_FIELD_NAME),
                                          semanticInfoConfig.value);
      if updated.Err? {
        return Err(updated.error);
      }
      current := updated.value;
      i := i + 1;
    }
    r := Ok(current);
  }

  /**
   * The semantic info field chosen for `fieldPath` already names a key beside the field in
   * `mappings`: the name is a string or absent, its parents are reached, and the key is taken.
   */
  predicate InfoFieldConflict(mappings: Object, fieldPath: string, semanticFields: map<string, Object>) {
    && fieldPath in semanticFields
    && var userName := Get(semanticFields[fieldPath], SEMANTIC_INFO_FIELD_NAME);
    && (userName.JNull? || userName.JStr?)
    && var target := MappingTree.InfoFieldTarget(fieldPath, if userName.JStr? then Some(userName.str) else None);
    && target.Ok?
    && MappingTree.Descend(mappings, target.value.parents).Ok?
    && target.value.name in MappingTree.Descend(mappings, target.value.parents).value
  }

  /** Once the first `k` paths went through, the rest of the loop runs on the tree they left. */
  lemma {:induction false} ModifyAllSplit(mappings: Object, model: MLModel, fieldPaths: seq<string>, semanticFields: map<string, Object>, k: nat)
    requires k <= |fieldPaths|
    requires ModifyAll(mappings, model, fieldPaths[..k], semanticFields).Ok?
    ensures ModifyAll(mappings, model, fieldPaths, semanticFields)
            == ModifyAll(ModifyAll(mappings, model, fieldPaths[..k], semanticFields).value, model, fieldPaths[k..], semanticFields)
    decreases k
  {
    if k == 0 {
      assert fieldPaths[..0] == [];
      assert fieldPaths[0..] == fieldPaths;
    } else {
      assert fieldPaths[..k][0] == fieldPaths[0];
      assert fieldPaths[..k][1..] == fieldPaths[1..][..k - 1];
      var updated := ModifyOne(mappings, model, fieldPaths[0], semanticFields);
      ModifyAllSplit(updated.value, model, fieldPaths[1..], semanticFields, k - 1);
      assert fieldPaths[1..][k - 1..] == fieldPaths[k..];
    }
  }

  /**
   * A conflicting key stops the loop at that path, wherever it is in the list: when the paths
   * before it went through and the key is taken in the tree they left, the rewrite fails with an
   * IllegalArgumentException and nothing is inserted for the later paths.
   */
  lemma ConflictStopsRewrite(mappings: Object, model: MLModel, fieldPaths: seq<string>, semanticFields: map<string, Object>, k: nat)
    requires k < |fieldPaths|
    requires CreateSemanticInfoField(model).Ok?
    requires ModifyAll(mappings, model, fieldPaths[..k], semanticFields).Ok?
    requires InfoFieldConflict(ModifyAll(mappings, model, fieldPaths[..k], semanticFields).value, fieldPaths[k], semanticFields)
    ensures ModifyAll(mappings, model, fieldPaths, semanticFields).Err?
    ensures ModifyAll(mappings, model, fieldPaths, semanticFields).error.IllegalArgument?
  {
    var before := ModifyAll(mappings, model, fieldPaths[..k], semanticFields).value;
    ModifyAllSplit(mappings, model, fieldPaths, semanticFields, k);
    assert fieldPaths[k..][0] == fieldPaths[k];
    var userName := Get(semanticFields[fieldPaths[k]], SEMANTIC_INFO_FIELD_NAME);
    InsertsOneKeyOrRefuses(before, fieldPaths[k], userName, CreateSemanticInfoField(model).value);
  }
}

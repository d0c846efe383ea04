/**
 * The mapping fragments a semantic info object is built from: the nested chunks with their
 * text and embedding, and the non-indexed model information.
 */
module SemanticInfoFieldConstants {
  import opened JsonTree
  import opened MappingConstants

  const KNN_VECTOR_DIMENSION_FIELD_NAME := "dimension"
  const KNN_VECTOR_METHOD_FIELD_NAME := "method"
  const KNN_VECTOR_METHOD_ENGINE_FIELD_NAME := "engine"
  const KNN_VECTOR_METHOD_DEFAULT_ENGINE := "faiss"
  const KNN_VECTOR_METHOD_NAME_FIELD_NAME := "name"
  const KNN_VECTOR_METHOD_DEFAULT_NAME := "hnsw"
  const KNN_VECTOR_METHOD_SPACE_TYPE_FIELD_NAME := "space_type"

  const CHUNKS_FIELD_NAME := "chunks"
  const CHUNKS_TEXT_FIELD_NAME := "text"
  const CHUNKS_EMBEDDING_FIELD_NAME := "embedding"

  const MODEL_FIELD_NAME := "model"
  const MODEL_ID_FIELD_NAME := "id"
  const MODEL_NAME_FIELD_NAME := "name"
  const MODEL_TYPE_FIELD_NAME := "type"

  const INDEX_FIELD_NAME := "index"

  /** Content types of the mappers the fragments use. */
  const TEXT_CONTENT_TYPE := "text"
  const NESTED_CONTENT_TYPE := "nested"
  const KNN_VECTOR_CONTENT_TYPE := "knn_vector"
  const RANK_FEATURE_CONTENT_TYPE := "rank_feature"

  /** A text field that is stored but not indexed. */
  const ModelInfoFieldConfig: Object := map[TYPE := JStr(TEXT_CONTENT_TYPE), INDEX_FIELD_NAME := JBool(false)]

  /** The model sub-object: id, name and type, each a non-indexed text field. */
  const ModelConfig: Object := map[PROPERTIES := JMap(map[
    MODEL_ID_FIELD_NAME := JMap(ModelInfoFieldConfig),
    MODEL_NAME_FIELD_NAME := JMap(ModelInfoFieldConfig),
    MODEL_TYPE_FIELD_NAME := JMap(ModelInfoFieldConfig)])]

  /** The model sub-object describes exactly the three model attributes, none of them indexed. */
  lemma ModelConfigShape()
    ensures ModelConfig.Keys == {PROPERTIES} && ModelConfig[PROPERTIES].JMap?
    ensures ModelConfig[PROPERTIES].fields.Keys == {MODEL_ID_FIELD_NAME, MODEL_NAME_FIELD_NAME, MODEL_TYPE_FIELD_NAME}
    ensures forall key :: key in ModelConfig[PROPERTIES].fields ==>
              ModelConfig[PROPERTIES].fields[key] == JMap(map[TYPE := JStr(TEXT_CONTENT_TYPE), INDEX_FIELD_NAME := JBool(false)])
  {
  }

  /**
   * `getBaseSemanticInfoConfig`: a `chunks` nested object holding the chunk text and the given
   * embedding configuration, next to the model sub-object.
   */
  function GetBaseSemanticInfoConfig(embeddingConfig: Object): (r: Object)
    ensures r.Keys == {PROPERTIES} && r[PROPERTIES].JMap?
    ensures r[PROPERTIES].fields.Keys == {CHUNKS_FIELD_NAME, MODEL_FIELD_NAME}
    ensures r[PROPERTIES].fields[MODEL_FIELD_NAME] == JMap(ModelConfig)
    ensures var chunks := r[PROPERTIES].fields[CHUNKS_FIELD_NAME];
      && chunks.JMap? && chunks.fields.Keys == {TYPE, PROPERTIES}
      && chunks.fields[TYPE] == JStr(NESTED_CONTENT_TYPE)
      && chunks.fields[PROPERTIES] == JMap(map[
           CHUNKS_TEXT_FIELD_NAME := JMap(map[TYPE := JStr(TEXT_CONTENT_TYPE)]),
           CHUNKS_EMBEDDING_FIELD_NAME := JMap(embeddingConfig)])
  {
    var chunksConfig := map[
      TYPE := JStr(NESTED_CONTENT_TYPE),
      PROPERTIES := JMap(map[
        CHUNKS_TEXT_FIELD_NAME := JMap(map[TYPE := JStr(TEXT_CONTENT_TYPE)]),
        CHUNKS_EMBEDDING_FIELD_NAME := JMap(embeddingConfig)])];
    map[PROPERTIES := JMap(map[CHUNKS_FIELD_NAME := JMap(chunksConfig), MODEL_FIELD_NAME := JMap(ModelConfig)])]
  }

  /** `getBaseTextEmbeddingConfig`: a knn_vector with the faiss/hnsw method, and no dimension or space type yet. */
  function GetBaseTextEmbeddingConfig(): (r: Object)
    ensures r.Keys == {TYPE, KNN_VECTOR_METHOD_FIELD_NAME}
    ensures r[TYPE] == JStr(KNN_VECTOR_CONTENT_TYPE)
    ensures r[KNN_VECTOR_METHOD_FIELD_NAME] == JMap(map[
              KNN_VECTOR_METHOD_ENGINE_FIELD_NAME := JStr(KNN_VECTOR_METHOD_DEFAULT_ENGINE),
              KNN_VECTOR_METHOD_NAME_FIELD_NAME := JStr(KNN_VECTOR_METHOD_DEFAULT_NAME)])
    ensures KNN_VECTOR_DIMENSION_FIELD_NAME !in r
  {
    map[TYPE := JStr(KNN_VECTOR_CONTENT_TYPE),
        KNN_VECTOR_METHOD_FIELD_NAME := JMap(map[
          KNN_VECTOR_METHOD_ENGINE_FIELD_NAME := JStr(KNN_VECTOR_METHOD_DEFAULT_ENGINE),
          KNN_VECTOR_METHOD_NAME_FIELD_NAME := JStr(KNN_VECTOR_METHOD_DEFAULT_NAME)])]
  }

  /** `getBaseSparseEmbeddingConfig`: only the rank_feature type. */
  function GetBaseSparseEmbeddingConfig(): (r: Object)
    ensures r.Keys == {TYPE} && r[TYPE] == JStr(RANK_FEATURE_CONTENT_TYPE)
  {
    map[TYPE := JStr(RANK_FEATURE_CONTENT_TYPE)]
  }
}

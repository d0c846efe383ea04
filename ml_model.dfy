/**
 * The parts of an ML Commons model description (`MLModel`) that the semantic-field code reads:
 * its algorithm, its name and its model configuration.
 */
module MlCommonsModel {
  import opened Wrappers

  /** `FunctionName`: the algorithms the semantic-field code tells apart; any other one by its enum name. */
  datatype FunctionName =
    | TextEmbedding
    | SparseEncoding
    | SparseTokenize
    | Remote
    | OtherFunction(enumName: string)

  /** `FunctionName.name()`. */
  function Name(f: FunctionName): string {
    match f
    case TextEmbedding => "TEXT_EMBEDDING"
    case SparseEncoding => "SPARSE_ENCODING"
    case SparseTokenize => "SPARSE_TOKENIZE"
    case Remote => "REMOTE"
    case OtherFunction(n) => n
  }

  /**
   * `MLModel.getModelConfig()`: a `TextEmbeddingModelConfig` (model type, embedding dimension and
   * the raw `all_config` JSON text), or a model configuration of any other class.
   */
  datatype ModelConfig =
    | TextEmbeddingModelConfig(modelType: Option<string>, embeddingDimension: Option<int>, allConfig: Option<string>)
    | OtherModelConfig(modelType: Option<string>)

  /** An `MLModel` as the semantic-field code sees it; `None` stands for Java null. */
  datatype MLModel = MLModel(name: Option<string>, algorithm: FunctionName, modelConfig: Option<ModelConfig>)
}

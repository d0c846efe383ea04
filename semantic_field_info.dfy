/**
 * The record the semantic field ingest processor keeps for each semantic value it finds in a
 * document, and the paths of the generated fields under that value's semantic info field:
 * the chunk list, the embedding of each chunk, and the model description.
 */
module SemanticFieldInfoPaths {
  import opened MappingConstants
  import Info = SemanticInfoFieldConstants
  import DottedPaths

  /**
   * One semantic value of a document: its text, the model that embeds it, where it was found,
   * where its semantic info field goes, and its chunks once the document has been chunked.
   */
  datatype SemanticFieldInfo = SemanticFieldInfo(
    value: string,
    modelId: string,
    fullPath: string,
    semanticInfoFullPath: string,
    chunks: seq<string>)

  /** `getFullPathForChunks`. */
  function FullPathForChunks(info: SemanticFieldInfo): string {
    info.semanticInfoFullPath + PATH_SEPARATOR + Info.CHUNKS_FIELD_NAME
  }

  /** `getFullPathForEmbedding`: the embedding of the chunk at `index`, printed as Java prints an `int`. */
  function FullPathForEmbedding(info: SemanticFieldInfo, index: int): string {
    info.semanticInfoFullPath + PATH_SEPARATOR + Info.CHUNKS_FIELD_NAME + PATH_SEPARATOR
    + DottedPaths.IntToString(index) + PATH_SEPARATOR + Info.CHUNKS_EMBEDDING_FIELD_NAME
  }

  /** `getFullPathForModelInfo`. */
  function FullPathForModelInfo(info: SemanticFieldInfo): string {
    info.semanticInfoFullPath + PATH_SEPARATOR + Info.MODEL_FIELD_NAME
  }

  /** The three kinds of generated path all lie under the semantic info field. */
  lemma PathsLieUnderInfoField(info: SemanticFieldInfo, index: int)
    ensures var under := info.semanticInfoFullPath + ".";
      && FullPathForChunks(info) == under + "chunks"
      && FullPathForModelInfo(info) == under + "model"
      && FullPathForEmbedding(info, index) == under + "chunks." + DottedPaths.IntToString(index) + ".embedding"
  {
  }

  /** The chunk list's path is a strict prefix of every embedding path, followed by a separator. */
  lemma ChunksPathPrefixesEmbeddingPath(info: SemanticFieldInfo, index: int)
    ensures var chunks := FullPathForChunks(info);
      var embedding := FullPathForEmbedding(info, index);
      && |chunks| < |embedding|
      && embedding[..|chunks|] == chunks
      && embedding[|chunks|] == '.'
  {
    var chunks := FullPathForChunks(info);
    var rest := "." + DottedPaths.IntToString(index) + ".embedding";
    assert FullPathForEmbedding(info, index) == chunks + rest;
  }

  /** A string followed by the same suffix determines the string. */
  lemma CancelSuffix(a: string, b: string, suffix: string)
    requires a + suffix == b + suffix
    ensures a == b
  {
    assert |a| == |b|;
    assert a == (a + suffix)[..|a|];
    assert b == (b + suffix)[..|b|];
  }

  /** A string preceded by the same prefix determines the string. */
  lemma CancelPrefix(prefix: string, a: string, b: string)
    requires prefix + a == prefix + b
    ensures a == b
  {
    assert a == (prefix + a)[|prefix|..];
    assert b == (prefix + b)[|prefix|..];
  }

  /** The embedding path, split after the `chunks.` that precedes the position. */
  lemma EmbeddingPathParts(info: SemanticFieldInfo, index: int)
    ensures FullPathForEmbedding(info, index)
            == (info.semanticInfoFullPath + ".chunks.") + (DottedPaths.IntToString(index) + ".embedding")
  {
  }

  /** Different chunks have different embedding paths. */
  lemma EmbeddingPathsAreDistinct(info: SemanticFieldInfo, i: int, j: int)
    requires FullPathForEmbedding(info, i) == FullPathForEmbedding(info, j)
    ensures i == j
  {
    EmbeddingPathParts(info, i);
    EmbeddingPathParts(info, j);
    CancelPrefix(info.semanticInfoFullPath + ".chunks.", DottedPaths.IntToString(i) + ".embedding",
                 DottedPaths.IntToString(j) + ".embedding");
    CancelSuffix(DottedPaths.IntToString(i), DottedPaths.IntToString(j), ".embedding");
    DottedPaths.IntToStringInjective(i, j);
  }

  /** The model description never lands on the chunk list or on an embedding. */
  lemma ModelPathIsApart(info: SemanticFieldInfo, index: int)
    ensures FullPathForModelInfo(info) != FullPathForChunks(info)
    ensures FullPathForModelInfo(info) != FullPathForEmbedding(info, index)
  {
    var n := |info.semanticInfoFullPath| + 1;
    PathsLieUnderInfoField(info, index);
    assert FullPathForModelInfo(info)[n] == 'm';
    assert FullPathForChunks(info)[n] == 'c';
    assert FullPathForEmbedding(info, index)[n] == 'c';
  }

  /** The names of the generated fields are single path segments. */
  lemma GeneratedNamesAreSegments()
    ensures DottedPaths.NoDot("chunks") && DottedPaths.NoDot("model") && DottedPaths.NoDot("embedding")
  {
  }

  /**
   * Read as dotted segments, the embedding path of chunk `index` is the info field, then `chunks`,
   * then the chunk's position, then `embedding`: it addresses the object at that position of the
   * chunk list.
   */
  lemma EmbeddingPathSegments(info: SemanticFieldInfo, segments: seq<string>, index: int)
    requires DottedPaths.WellFormedSegments(segments)
    requires info.semanticInfoFullPath == DottedPaths.Join(".", segments)
    ensures DottedPaths.Split(FullPathForChunks(info)) == segments + ["chunks"]
    ensures DottedPaths.Split(FullPathForModelInfo(info)) == segments + ["model"]
    ensures DottedPaths.Split(FullPathForEmbedding(info, index))
            == segments + ["chunks"] + [DottedPaths.IntToString(index)] + ["embedding"]
  {
    var position := DottedPaths.IntToString(index);
    var withChunks := segments + ["chunks"];
    var withPosition := withChunks + [position];
    GeneratedNamesAreSegments();
    DottedPaths.SplitJoinSnoc(segments, "model");
    DottedPaths.SplitJoinSnoc(segments, "chunks");
    DottedPaths.JoinSnoc(segments, "chunks");
    DottedPaths.SplitJoinSnoc(withChunks, position);
    DottedPaths.JoinSnoc(withChunks, position);
    DottedPaths.SplitJoinSnoc(withPosition, "embedding");
  }
}

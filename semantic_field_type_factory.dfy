/**
 * Which semantic field type wraps the delegate mapper of a semantic field, chosen by
 * the field's raw field type.
 */
module SemanticFieldTypeFactory {
  import opened Wrappers

  /** `SemanticFieldType`, `SemanticStringFieldType` and `SemanticNumberFieldType`. */
  datatype SemanticFieldType = GenericSemantic | StringSemantic | NumberSemantic

  /** Content types of the OpenSearch mappers the factory compares against. */
  const BINARY := "binary"
  const TEXT := "text"
  const MATCH_ONLY_TEXT := "match_only_text"
  const KEYWORD := "keyword"
  const WILDCARD := "wildcard"
  const TOKEN_COUNT := "token_count"

  const StringFieldTypes: set<string> := {TEXT, MATCH_ONLY_TEXT, KEYWORD, WILDCARD}

  /** The raw field types the factory accepts. */
  const SupportedRawFieldTypes: set<string> := {BINARY, TOKEN_COUNT} + StringFieldTypes

  const UNSUPPORTED_PREFIX: string := "Failed to create delegate field type for semantic field ["
  const UNSUPPORTED_MIDDLE: string := "]. Unsupported raw field type: "

  function UnsupportedMessage(fieldName: string, rawFieldType: string): string {
    UNSUPPORTED_PREFIX + fieldName + UNSUPPORTED_MIDDLE + rawFieldType
  }

  /** `createSemanticFieldType`: binary, then the string types, then token_count, else an error. */
  function CreateSemanticFieldType(fieldName: string, rawFieldType: string): (r: Result<SemanticFieldType, string>)
    ensures r == Ok(GenericSemantic) <==> rawFieldType == BINARY
    ensures r == Ok(StringSemantic) <==> rawFieldType in StringFieldTypes
    ensures r == Ok(NumberSemantic) <==> rawFieldType == TOKEN_COUNT
    ensures r.Err? <==> rawFieldType !in SupportedRawFieldTypes
    ensures r.Err? ==> r.error == UnsupportedMessage(fieldName, rawFieldType)
  {
    if rawFieldType == BINARY then Ok(GenericSemantic)
    else if rawFieldType in StringFieldTypes then Ok(StringSemantic)
    else if rawFieldType == TOKEN_COUNT then Ok(NumberSemantic)
    else Err(UnsupportedMessage(fieldName, rawFieldType))
  }
}

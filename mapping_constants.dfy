/**
 * Key names of index mappings and of semantic field definitions, shared by the query,
 * mapping and ingest code.
 */
module MappingConstants {
  const TYPE := "type"
  const PROPERTIES := "properties"
  const PATH_SEPARATOR := "."

  /** Parameters of a field of type `semantic`. */
  const SEMANTIC := "semantic"
  const MODEL_ID := "model_id"
  const SEARCH_MODEL_ID := "search_model_id"
  const RAW_FIELD_TYPE := "raw_field_type"
  const SEMANTIC_INFO_FIELD_NAME := "semantic_info_field_name"
  const SEMANTIC_INFO_GENERATION_MODE := "semantic_info_generation_mode"

  /** The semantic info object of field `f` is named `f_semantic_info` unless the field names it. */
  const DEFAULT_SEMANTIC_INFO_FIELD_NAME_SUFFIX := "_semantic_info"
}

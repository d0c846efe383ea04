# Neural search plugin: a verified model of its semantic-field and neural-query core

This project models, in Dafny, the decision logic of the OpenSearch neural-search plugin:

- the weight of a hybrid query: its sub-weights, the cacheability rule, the null rule for scorer suppliers, and how explanations are combined;
- the neural query:
  - the validators behind its builder;
  - the defaulting of `k` to 10;
  - search-model-id precedence;
  - the nested path of the embedding field;
  - the collection and cross-index validation of per-index target-field configurations;
  - the routing of its rewrite;
  - the stream encoders and decoders that carry its inference results and configurations between nodes;
- the semantic-field mapping side:
  - the collection of `semantic` fields from a mapping tree and their grouping by model id;
  - the validation of their parameters (model id, the 512-character limit on `semantic_info_field_name`);
  - the choice of embedding configuration by model algorithm;
  - the insertion of the sibling `<name>_semantic_info` object by the mapping transformer and by the create-index filter;
  - the constant shapes of the semantic info field;
  - the semantic field type factory;
  - the semantic info generation mode;
- the ingest side:
  - the walk of a document that finds semantic values at their indexed paths;
  - the paths of chunks, embeddings and model information;
  - the writes of chunks, model information and embeddings into the document;
  - the factory that decides whether a semantic-field processor is built;
- the score-normalization helpers that validate parameters and set one slot of a document's score vector.

JSON mappings and documents are values of a recursive datatype (`JsonTree.Json`).

Methods and fields follow the source's form where it changes state. The neural query builder, the semantic-field processor, the ingest document, the normalized-score map and the stream endpoints are classes whose methods update their fields. Loops become `while` loops proved against specification functions.

Java's `HashMap` iteration order is unspecified. Methods that iterate a map take their order from `JavaCollections.IterationOrder`, which promises only that every key is visited once. The contracts say which results do not depend on that order, and the `## Findings` table shows one result that does.

Thrown exceptions become the `JavaExceptions.Exception` datatype, carried in a `Result`. An `IllegalArgument` keeps its message; null dereferences, failed casts and array indexing out of bounds are constructors of their own.

The mapping transformer writes `index: false` as `Boolean.FALSE` in the model-information configuration. The create-index filter writes the string `"false"`. The model keeps each as written.

## Model

| member | source | states |
|---|---|---|
| HybridQueryWeight.CreateWeights | src/main/java/org/opensearch/neuralsearch/query/HybridQueryWeight.java:43-52 | one weight per sub-query, in sub-query order, each created from its own sub-query. The first sub-query whose weight cannot be created stops the stream; an IOException is rethrown inside a RuntimeException and any other exception passes through |
| HybridQueryWeight.AllCacheable | src/main/java/org/opensearch/neuralsearch/query/HybridQueryWeight.java:121 | true iff every sub-weight is cacheable; an empty list is cacheable |
| HybridQueryWeight.IsCacheable | src/main/java/org/opensearch/neuralsearch/query/HybridQueryWeight.java:116-122 | never cacheable with more weights than the sub-query bound; otherwise cacheable iff every sub-weight is |
| HybridQueryWeight.AllNull | src/main/java/org/opensearch/neuralsearch/query/HybridQueryWeight.java:92 | true iff no entry of the merged supplier list is present |
| HybridQueryWeight.ScorerSupplier | src/main/java/org/opensearch/neuralsearch/query/HybridQueryWeight.java:91-95 | null iff the merged list is empty or all its entries are null; otherwise the whole list is kept and has a present entry |
| HybridQueryWeight.MaxMatchingScoreIsMaximum | src/main/java/org/opensearch/neuralsearch/query/HybridQueryWeight.java:133-143 | the combined score is at least 0 and at least every matching sub-value, and it is either 0 or one of the matching values |
| HybridQueryWeight.Explain | src/main/java/org/opensearch/neuralsearch/query/HybridQueryWeight.java:132-157 | matches iff some sub-explanation matches. The detail list is every sub-explanation in order, as written. A match gets the combined description and the maximum matching score; no match gets "no matching clause" and 0 |
| NeuralQueryValidationUtil.DenseOnlyParamsGivenExactly | src/main/java/org/opensearch/neuralsearch/util/NeuralQueryValidationUtil.java:143-177 | a dense-only parameter is reported iff the query sets it (image, k, max_distance, min_score, expand_nested, filter, method_parameters, rescore) |
| NeuralQueryValidationUtil.KnnQueryTypesGiven | src/main/java/org/opensearch/neuralsearch/util/NeuralQueryValidationUtil.java:43-55 | the set of kNN query types (k, max_distance, min_score) the query sets |
| NeuralQueryValidationUtil.CountKnnQueryTypes | src/main/java/org/opensearch/neuralsearch/util/NeuralQueryValidationUtil.java:43-55 | the counter equals the number of kNN types set, and is 0 iff none of k, max_distance, min_score is set |
| NeuralQueryValidationUtil.ValidateNeuralQueryForDenseCommonRules | src/main/java/org/opensearch/neuralsearch/util/NeuralQueryValidationUtil.java:73-106 | returns the shared dense errors: blank text and image, more than one kNN type, model id "". It sets k to 10 iff no kNN type was set. Without the "only one" error, exactly one kNN type is set afterwards |
| NeuralQueryValidationUtil.ValidateNeuralQueryForKnn | src/main/java/org/opensearch/neuralsearch/util/NeuralQueryValidationUtil.java:31-41 | the dense rules, plus the missing-model-id error only when the cluster does not support a default model id; the same k defaulting |
| NeuralQueryValidationUtil.ValidateNeuralQueryForSemanticDense | src/main/java/org/opensearch/neuralsearch/util/NeuralQueryValidationUtil.java:57-71 | the dense rules, plus exactly one extra error iff query tokens are given; the same k defaulting |
| NeuralQueryValidationUtil.ValidateNeuralQueryForSemanticSparse | src/main/java/org/opensearch/neuralsearch/util/NeuralQueryValidationUtil.java:108-141 | query-text and model-id errors ("" exactly, whitespace passes), then a single error iff some dense-only parameter is set; the builder is unchanged |
| NeuralQueryTypes.NeuralQueryBuilder.constructor | src/main/java/org/opensearch/neuralsearch/query/NeuralQueryBuilder.java:293-311 | the builder holds exactly the given fields |
| NeuralQueryBuilderRules.KDefaultedHasOneKnnType | src/main/java/org/opensearch/neuralsearch/util/NeuralQueryValidationUtil.java:98-99 | unless more than one kNN type was given, defaulting k leaves exactly one kNN type set |
| NeuralQueryBuilderRules.Build | src/main/java/org/opensearch/neuralsearch/query/NeuralQueryBuilder.java:292-329 | dispatch by embedding type: null to the kNN validator, knn_vector to semantic dense, rank_features to semantic sparse, any other type to an IllegalArgumentException. Validator errors fail the build joined with "; "; for rank_features that is the text and model-id errors, then one error naming the dense-only parameters in some hash-set order. A built dense query has exactly one kNN type |
| NeuralQueryBuilderRules.ValidateKnnQueryType | src/main/java/org/opensearch/neuralsearch/query/NeuralQueryBuilder.java:1115-1130 | throws exactly when more than one of k, max_distance, min_score is set; otherwise returns true iff one of them is set |
| NeuralQueryBuilderRules.FromXContentChecks | src/main/java/org/opensearch/neuralsearch/query/NeuralQueryBuilder.java:517-535 | the parse checks' outcome; with the semantic flag off and no kNN type, k becomes 10 and exactly one kNN type is then set |
| NeuralQueryBuilderRules.GetSearchModelId | src/main/java/org/opensearch/neuralsearch/query/NeuralQueryBuilder.java:914-922 | the query's model id, else the field's search model id, else the field's model id; null only when all three are |
| NeuralQueryBuilderRules.GetNestedQueryPath | src/main/java/org/opensearch/neuralsearch/query/NeuralQueryBuilder.java:928-935 | fails (index out of bounds) iff the field name splits into no segment; otherwise the last segment is replaced and ".chunks" is appended |
| NeuralQueryBuilderRules.NestedQueryPathOfSegments | src/main/java/org/opensearch/neuralsearch/query/NeuralQueryBuilder.java:928-935 | for a well-formed dotted name, the last segment becomes the user's info-field name or `last + "_semantic_info"`, then ".chunks" |
| NeuralQueryBuilderRules.SemanticEmbeddingFieldPath | src/main/java/org/opensearch/neuralsearch/query/NeuralQueryBuilder.java:685-697 | the embedding path for the default and for a renamed info field; a non-string name fails with a class cast |
| NeuralQueryBuilderRules.EmbeddingPathIsNestedPathPlusEmbedding | src/main/java/org/opensearch/neuralsearch/query/NeuralQueryBuilder.java:685-697 | the coordinator's embedding-field path equals the shard's nested query path plus ".embedding" when both use the same info-field name |
| NeuralQueryBuilderRules.EmbeddingPathRenamed | src/main/java/org/opensearch/neuralsearch/query/NeuralQueryBuilder.java:689-695 | with a user info-field name, the path is the field's segments with the last replaced, then ".chunks.embedding" |
| NeuralQueryBuilderRules.TargetFieldConfigOf | src/main/java/org/opensearch/neuralsearch/query/NeuralQueryBuilder.java:650-678 | a missing mapping or field is unmapped. A non-string type throws the object-field error. A semantic field gets the type of its embedding field, and that lookup's failures propagate; search_model_id overrides model_id; any other field is mapped and non-semantic |
| NeuralQueryBuilderRules.SemanticEmbeddingFieldType | src/main/java/org/opensearch/neuralsearch/query/NeuralQueryBuilder.java:685-697 | the embedding field's path failure propagates. A missing embedding field is a null dereference and a non-string type a failed cast. A null type stays null, and a string type is returned |
| NeuralQueryBuilderRules.ExtractedConfigsCoverIndices | src/main/java/org/opensearch/neuralsearch/query/NeuralQueryBuilder.java:645-683 | entries are only added. Without a failure every target index has an entry, and each entry was learned from an index of that name |
| NeuralQueryBuilderRules.ExtractTargetFieldConfig | src/main/java/org/opensearch/neuralsearch/query/NeuralQueryBuilder.java:645-683 | the builder's map becomes the loop's result; an exception stops the loop with the entries put so far |
| NeuralQueryBuilderRules.ClassifyTargetStep | src/main/java/org/opensearch/neuralsearch/query/NeuralQueryBuilder.java:707-726 | one entry fails iff a flag it unboxes is null; otherwise it joins exactly the lists of its kinds, and an error is recorded iff its type is unsupported |
| NeuralQueryBuilderRules.ClassifyTargetsFails | src/main/java/org/opensearch/neuralsearch/query/NeuralQueryBuilder.java:706-729 | the loop fails iff some visited entry has a null flag |
| NeuralQueryBuilderRules.ClassifyTargetsLists | src/main/java/org/opensearch/neuralsearch/query/NeuralQueryBuilder.java:706-729 | the semantic, non-semantic, dense and sparse lists are exactly the indices of each kind in visiting order; an error is recorded iff some type is unsupported |
| NeuralQueryBuilderRules.KindIndicesNonEmpty | src/main/java/org/opensearch/neuralsearch/query/NeuralQueryBuilder.java:706-729 | over an enumeration of all entries, a kind's list is non-empty iff some entry is of that kind |
| NeuralQueryBuilderRules.TargetValidationErrorsEmpty | src/main/java/org/opensearch/neuralsearch/query/NeuralQueryBuilder.java:731-762 | no errors after the loop iff: none recorded; semantic and non-semantic not mixed; dense and sparse not mixed; the kNN validator's errors empty when all are non-semantic |
| NeuralQueryBuilderRules.TargetValidationVerdict | src/main/java/org/opensearch/neuralsearch/query/NeuralQueryBuilder.java:699-763 | with no null flags, in any visiting order, the configurations are accepted iff: no unsupported embedding type; no semantic/non-semantic mix; no dense/sparse mix; no kNN errors when all are non-semantic. Unmapped indices play no part |
| NeuralQueryBuilderRules.TargetValidationNullFlags | src/main/java/org/opensearch/neuralsearch/query/NeuralQueryBuilder.java:706-729 | the validation fails with a null pointer iff some configuration has a null flag |
| NeuralQueryBuilderRules.ValidateTargetFieldConfig | src/main/java/org/opensearch/neuralsearch/query/NeuralQueryBuilder.java:699-763 | outcome and new k are those `TargetValidation` computes for the visiting order. The dense and sparse validators' errors are discarded, as written. A null map throws |
| NeuralQueryBuilderRules.CollectTargetGroups | src/main/java/org/opensearch/neuralsearch/query/NeuralQueryBuilder.java:706-729 | the loop computes exactly the classification over its visiting order |
| NeuralQueryBuilderRules.ValidateTargetGroups | src/main/java/org/opensearch/neuralsearch/query/NeuralQueryBuilder.java:731-756 | the errors after the loop, and k defaulted exactly in the branches that run a dense validator |
| NeuralQueryBuilderRules.ClassifyStopsAtNull | src/main/java/org/opensearch/neuralsearch/query/NeuralQueryBuilder.java:706-729 | once a prefix of the loop fails, the whole loop fails with a null pointer |
| NeuralQueryBuilderRules.ClassifyErrIsNull | src/main/java/org/opensearch/neuralsearch/query/NeuralQueryBuilder.java:706-729 | the only failure of the loop is a null pointer |
| NeuralQueryBuilderRules.PrepareRewriteForTargetIndices | src/main/java/org/opensearch/neuralsearch/query/NeuralQueryBuilder.java:627-643 | nothing happens when the map exists. Otherwise it starts empty, is filled from the target indices and is validated; the map then lists every key once |
| NeuralQueryBuilderRules.FirstMappedTargetIsMapped | src/main/java/org/opensearch/neuralsearch/query/NeuralQueryBuilder.java:619-625 | the first mapped target is a mapped entry of the order; none is found only when every entry is unmapped |
| NeuralQueryBuilderRules.RouteFollowsFieldKind | src/main/java/org/opensearch/neuralsearch/query/NeuralQueryBuilder.java:605-625 | for accepted configurations the corrected route is semantic iff some index maps the field as semantic, whatever the order |
| NeuralQueryBuilderRules.RouteAsWrittenDependsOnOrder | src/main/java/org/opensearch/neuralsearch/query/NeuralQueryBuilder.java:605-625 | as written, two orders of the same accepted configurations take different rewrites |
| NeuralQueryBuilderRules.DoRewrite | src/main/java/org/opensearch/neuralsearch/query/NeuralQueryBuilder.java:598-625 | on the coordinator, prepare first and propagate its failure. A missing map throws. Otherwise the first entry of the map in hash order decides, mapped or not: k-NN for no entry or an explicit non-semantic flag, the semantic rewrite for anything else, a null flag included |
| NeuralQueryBuilderRules.RouteAsWrittenWhenAllMapped | src/main/java/org/opensearch/neuralsearch/query/NeuralQueryBuilder.java:605-625 | when every target index maps the field and the validation accepts the mix, routing by the first entry agrees with the corrected route and follows the field kind in any order |
| NeuralQueryParser.StreamOutput.Write | src/main/java/org/opensearch/neuralsearch/query/parser/NeuralQueryParser.java:41-44 | a write appends exactly one token to the stream |
| NeuralQueryParser.StreamInput.Read | src/main/java/org/opensearch/neuralsearch/query/parser/NeuralQueryParser.java:24-27 | a read consumes exactly the next token, if any |
| NeuralQueryParser.VectorSupplierRoundTrip | src/main/java/org/opensearch/neuralsearch/query/parser/NeuralQueryParser.java:23-46 | an available vector is read back as the same vector; a null supplier or an empty one is read back as null; the reader stops right after it |
| NeuralQueryParser.VectorSupplierStreamOutput | src/main/java/org/opensearch/neuralsearch/query/parser/NeuralQueryParser.java:38-46 | writes false, or true and the array |
| NeuralQueryParser.VectorSupplierStreamInput | src/main/java/org/opensearch/neuralsearch/query/parser/NeuralQueryParser.java:23-30 | reads the flag and, when true, the array, as the decoder |
| NeuralQueryParser.QueryTokensSupplierRoundTrip | src/main/java/org/opensearch/neuralsearch/query/parser/NeuralQueryParser.java:111-135 | an available token map is read back unchanged, otherwise as null |
| NeuralQueryParser.QueryTokensMapSupplierStreamOutput | src/main/java/org/opensearch/neuralsearch/query/parser/NeuralQueryParser.java:125-135 | writes false, or true and the map |
| NeuralQueryParser.QueryTokensMapSupplierStreamInput | src/main/java/org/opensearch/neuralsearch/query/parser/NeuralQueryParser.java:111-117 | reads the flag and, when true, the map, as the decoder |
| NeuralQueryParser.VectorEntries | src/main/java/org/opensearch/neuralsearch/query/parser/NeuralQueryParser.java:100-103 | two tokens per entry, model id then vector |
| NeuralQueryParser.VectorEntriesRoundTrip | src/main/java/org/opensearch/neuralsearch/query/parser/NeuralQueryParser.java:59-64 | the read loop over the written entries puts back exactly the written entries (with lines 100-103 of the same file) |
| NeuralQueryParser.VectorEntriesReadWhole | src/main/java/org/opensearch/neuralsearch/query/parser/NeuralQueryParser.java:57-64 | starting from an empty map, the entries of a whole enumeration read back as the map itself |
| NeuralQueryParser.VectorMapPresentRoundTrip | src/main/java/org/opensearch/neuralsearch/query/parser/NeuralQueryParser.java:53-67 | a present map preceded by true and its VInt size is read back unchanged |
| NeuralQueryParser.VectorMapRoundTrip | src/main/java/org/opensearch/neuralsearch/query/parser/NeuralQueryParser.java:53-67 | with the corrected writer, every null, pending or available model-id to vector map is read back as the writer meant (null, null, the map) |
| NeuralQueryParser.VectorMapAsWrittenIsMisread | src/main/java/org/opensearch/neuralsearch/query/parser/NeuralQueryParser.java:97-98 | as written, a present, available map is not read back as the written map: in the call stream the reader's boolean read meets the size int (with line 54 of the same file) |
| NeuralQueryParser.VectorMapAsWrittenNullCases | src/main/java/org/opensearch/neuralsearch/query/parser/NeuralQueryParser.java:82-95 | as written, a null map and a map with a pending supplier both arrive as null, one token consumed |
| NeuralQueryParser.AllSuppliersAvailable | src/main/java/org/opensearch/neuralsearch/query/parser/NeuralQueryParser.java:86-91 | the flag loop's result is true iff every supplier is present with a value |
| NeuralQueryParser.WriteVectorEntry | src/main/java/org/opensearch/neuralsearch/query/parser/NeuralQueryParser.java:101-102 | one entry: the model id, then the supplied vector |
| NeuralQueryParser.ModelIdToVectorSupplierMapStreamOutput | src/main/java/org/opensearch/neuralsearch/query/parser/NeuralQueryParser.java:78-104 | writes exactly the as-written encoding in some enumeration of the keys |
| NeuralQueryParser.ModelIdToVectorSupplierMapStreamInput | src/main/java/org/opensearch/neuralsearch/query/parser/NeuralQueryParser.java:53-67 | reads exactly what the decoder reads |
| NeuralQueryParser.TokenMapEntries | src/main/java/org/opensearch/neuralsearch/query/parser/NeuralQueryParser.java:185-188 | two tokens per entry, model id then token map |
| NeuralQueryParser.TokenMapEntriesRoundTrip | src/main/java/org/opensearch/neuralsearch/query/parser/NeuralQueryParser.java:144-149 | the read loop over the written entries puts back exactly the written entries (with lines 185-188 of the same file) |
| NeuralQueryParser.TokenMapEntriesReadWhole | src/main/java/org/opensearch/neuralsearch/query/parser/NeuralQueryParser.java:142-149 | starting from an empty map, a whole enumeration reads back as the map |
| NeuralQueryParser.TokenMapMapPresentRoundTrip | src/main/java/org/opensearch/neuralsearch/query/parser/NeuralQueryParser.java:137-152 | a present map preceded by true and its VInt size is read back unchanged |
| NeuralQueryParser.TokenMapMapRoundTrip | src/main/java/org/opensearch/neuralsearch/query/parser/NeuralQueryParser.java:137-152 | with the corrected writer, every model-id to token-map map is read back as the writer meant |
| NeuralQueryParser.TokenMapMapAsWrittenIsMisread | src/main/java/org/opensearch/neuralsearch/query/parser/NeuralQueryParser.java:182-183 | as written, a present, available map is not read back as the written map: the reader's boolean read meets the size int (with line 139 of the same file) |
| NeuralQueryParser.WriteTokenMapEntry | src/main/java/org/opensearch/neuralsearch/query/parser/NeuralQueryParser.java:186-187 | one entry: the model id, then the supplied token map |
| NeuralQueryParser.ModelIdToQueryTokensSupplierMapStreamOutput | src/main/java/org/opensearch/neuralsearch/query/parser/NeuralQueryParser.java:163-189 | writes exactly the as-written encoding in some enumeration of the keys |
| NeuralQueryParser.ModelIdToQueryTokensSupplierMapStreamInput | src/main/java/org/opensearch/neuralsearch/query/parser/NeuralQueryParser.java:137-152 | reads exactly what the decoder reads |
| NeuralQueryParser.ConfigEntries | src/main/java/org/opensearch/neuralsearch/query/parser/NeuralQueryParser.java:221-229 | five tokens per entry |
| NeuralQueryParser.ConfigEntryRoundTrip | src/main/java/org/opensearch/neuralsearch/query/parser/NeuralQueryParser.java:199-205 | each entry's name and four optional fields are read back in the order they are written: isSemanticField, isUnmappedField, searchModelId, embeddingFieldType (with lines 224-228 of the same file) |
| NeuralQueryParser.ConfigEntriesRoundTrip | src/main/java/org/opensearch/neuralsearch/query/parser/NeuralQueryParser.java:198-206 | the read loop over the written entries puts back exactly the written entries (with lines 221-229 of the same file) |
| NeuralQueryParser.ConfigEntriesReadWhole | src/main/java/org/opensearch/neuralsearch/query/parser/NeuralQueryParser.java:196-206 | starting from an empty map, a whole enumeration reads back as the map |
| NeuralQueryParser.IndexConfigPresentRoundTrip | src/main/java/org/opensearch/neuralsearch/query/parser/NeuralQueryParser.java:191-209 | a present map preceded by true and its VInt size is read back unchanged |
| NeuralQueryParser.IndexConfigRoundTrip | src/main/java/org/opensearch/neuralsearch/query/parser/NeuralQueryParser.java:191-209 | with the corrected writer, a null or present configuration map is read back unchanged |
| NeuralQueryParser.IndexConfigAsWrittenIsMisread | src/main/java/org/opensearch/neuralsearch/query/parser/NeuralQueryParser.java:218-219 | as written, any present configuration map, even an empty one, is not read back as the written map: the reader's boolean read meets the size int (with line 193 of the same file) |
| NeuralQueryParser.WriteConfigEntry | src/main/java/org/opensearch/neuralsearch/query/parser/NeuralQueryParser.java:222-228 | one entry: the index name and its four optional fields |
| NeuralQueryParser.IndexToTargetFieldConfigStreamOutput | src/main/java/org/opensearch/neuralsearch/query/parser/NeuralQueryParser.java:211-231 | writes exactly the as-written encoding in some enumeration of the keys |
| NeuralQueryParser.IndexToTargetFieldConfigStreamInput | src/main/java/org/opensearch/neuralsearch/query/parser/NeuralQueryParser.java:191-209 | reads exactly what the decoder reads |
| DottedPaths.DropTrailingEmpty | src/main/java/org/opensearch/neuralsearch/query/NeuralQueryBuilder.java:929 | Java's split drops exactly the trailing empty pieces, and no non-empty piece ends the result |
| DottedPaths.SplitJoin | src/main/java/org/opensearch/neuralsearch/query/NeuralQueryBuilder.java:929-934 | splitting a join of well-formed segments gives back the segments |
| DottedPaths.IntToStringInjective | src/main/java/org/opensearch/neuralsearch/processor/dto/SemanticFieldInfo.java:53-56 | distinct positions print differently |
| MappingTree.Step | src/main/java/org/opensearch/neuralsearch/mappingtransformer/SemanticMappingTransformer.java:357-358 | one step down a segment succeeds iff the segment holds a map; the result is its properties; the failures are a null pointer or a class cast |
| MappingTree.WalkToParent | src/main/java/org/opensearch/neuralsearch/mappingtransformer/SemanticMappingTransformer.java:350-359 | the loop reaches exactly the object the segment-by-segment walk reaches |
| MappingTree.PutAtReadsBack | src/main/java/org/opensearch/neuralsearch/mappingtransformer/SemanticMappingTransformer.java:356-364 | after a put at the parent, walking there again finds the parent with that one key replaced |
| MappingTree.PutAtKeepsOtherEntries | src/main/java/org/opensearch/neuralsearch/mappingtransformer/SemanticMappingTransformer.java:364 | a put at the parent leaves the root's other entries and the path's keys unchanged |
| MappingTree.InfoFieldTarget | src/main/java/org/opensearch/neuralsearch/mappingtransformer/SemanticMappingTransformer.java:351-355 | fails with index out of bounds iff the path splits into no segment; otherwise the parents are all segments but the last |
| MappingTree.InfoFieldBesideSemanticField | src/main/java/org/opensearch/neuralsearch/mappingtransformer/SemanticMappingTransformer.java:351-355 | for a well-formed path, the info field sits beside the field, named by the user or `last + "_semantic_info"` |
| SemanticMappingUtils.CollectSemanticField | src/main/java/org/opensearch/neuralsearch/mappingtransformer/SemanticMappingUtils.java:28-57 | succeeds iff the tree can be walked; failures are null pointers or class casts. The accumulator keeps its entries or gains semantic ones. On success every map-valued field of type "semantic", at any depth under "properties", is recorded at its dotted path, and each such path holds the configuration of a semantic field of this mapping at that path, overwriting an earlier entry |
| SemanticMappingUtils.CollectField | src/main/java/org/opensearch/neuralsearch/mappingtransformer/SemanticMappingUtils.java:34-55 | one field: records it when it is a semantic map and recurses into its properties. It keeps or adds entries only, and on success every path below the field holds a configuration found there |
| SemanticMappingUtils.PathsHoldFoundKept | src/main/java/org/opensearch/neuralsearch/mappingtransformer/SemanticMappingUtils.java:42-43 | later puts from the same fields keep each path on one of their configurations |
| SemanticMappingUtils.GetModelId | src/main/java/org/opensearch/neuralsearch/util/SemanticMappingUtils.java:68-74 | succeeds iff model_id is a string, giving that string; otherwise an IllegalArgumentException naming the path |
| SemanticMappingUtils.GetUniqueModelIds | src/main/java/org/opensearch/neuralsearch/util/SemanticMappingUtils.java:59-66 | the set of model ids of all fields, failing iff some model id is not a string |
| SemanticMappingUtils.ExtractModelIdToFieldPathMap | src/main/java/org/opensearch/neuralsearch/util/SemanticMappingUtils.java:97-111 | failing iff some model id is not a string; otherwise the paths grouped by their model id, each list duplicate-free |
| SemanticMappingUtils.FileNextPath | src/main/java/org/opensearch/neuralsearch/util/SemanticMappingUtils.java:99-108 | filing the next path keeps the grouping correct for the paths seen so far |
| SemanticMappingUtils.GroupsAddPath | src/main/java/org/opensearch/neuralsearch/util/SemanticMappingUtils.java:103-108 | appending a path under its own model id extends a correct grouping by that path |
| SemanticMappingUtils.GroupsArePartition | src/main/java/org/opensearch/neuralsearch/mappingtransformer/SemanticMappingUtils.java:64-87 | a path is listed under a model id iff that is its own model id, so each path is in exactly one list |
| SemanticMappingUtils.NoGroupsExactlyWhenNoFields | src/main/java/org/opensearch/neuralsearch/mappingtransformer/SemanticMappingUtils.java:71-87 | the grouping is empty iff there are no semantic fields |
| SemanticMappingUtils.GroupKeysAreUniqueModelIds | src/main/java/org/opensearch/neuralsearch/util/SemanticMappingUtils.java:97-111 | the grouping's keys are exactly the unique model ids, and no list is empty (with lines 59-66 of the same file) |
| SemanticMappingUtils.GetSemanticInfoGenerationMode | src/main/java/org/opensearch/neuralsearch/util/SemanticMappingUtils.java:76-94 | ALWAYS when the key is absent or null; otherwise the mode of that exact name; a non-string or unknown name throws an IllegalArgumentException naming the path |
| SemanticMappingUtils.GenerationModeByName | src/main/java/org/opensearch/neuralsearch/util/SemanticMappingUtils.java:89-93 | each mode's own name selects that mode |
| SemanticMappingTransformer.ValidateModelId | src/main/java/org/opensearch/neuralsearch/mappingtransformer/SemanticMappingTransformer.java:170-181 | no errors iff model_id is a non-empty string; "is required" when absent, "should be a non-empty string" otherwise |
| SemanticMappingTransformer.ValidateSemanticInfoFieldName | src/main/java/org/opensearch/neuralsearch/mappingtransformer/SemanticMappingTransformer.java:183-207 | no errors iff the name is absent or a string of 1 to 512 characters; one error for a non-string, "" or a name over 512 characters (with line 53 of the same file) |
| SemanticMappingTransformer.FieldErrorsEmpty | src/main/java/org/opensearch/neuralsearch/mappingtransformer/SemanticMappingTransformer.java:170-207 | a field has no errors iff both its model id and its info-field name are valid (with lines 162-163 of the same file) |
| SemanticMappingTransformer.ValidationErrorsEmpty | src/main/java/org/opensearch/neuralsearch/mappingtransformer/SemanticMappingTransformer.java:157-168 | the collected error list is empty iff every visited field is valid |
| SemanticMappingTransformer.AllValidInAnyOrder | src/main/java/org/opensearch/neuralsearch/mappingtransformer/SemanticMappingTransformer.java:159-164 | over an enumeration of the fields, all visited fields are valid iff all fields are |
| SemanticMappingTransformer.ValidateSemanticFields | src/main/java/org/opensearch/neuralsearch/mappingtransformer/SemanticMappingTransformer.java:157-168 | succeeds iff every semantic field is valid; otherwise one IllegalArgumentException with all errors joined by "; " |
| SemanticMappingTransformer.ValidFieldsHaveModelIds | src/main/java/org/opensearch/neuralsearch/mappingtransformer/SemanticMappingTransformer.java:148-150 | fields that pass validation all have a string model id, so the grouping after it cannot fail |
| SemanticMappingTransformer.Transform | src/main/java/org/opensearch/neuralsearch/mappingtransformer/SemanticMappingTransformer.java:134-155 | no properties, or no semantic field, leaves the mapping unchanged. Invalid fields fail before any model fetch. Otherwise it fetches one model per unique model id, grouped by model id |
| SemanticMappingTransformer.TextEmbeddingConfig | src/main/java/org/opensearch/neuralsearch/mappingtransformer/SemanticMappingTransformer.java:318-341 | succeeds iff the model has a text-embedding config with a dimension and a string space type; the result carries both over the base engine and method |
| SemanticMappingTransformer.DenseConfigShape | src/main/java/org/opensearch/neuralsearch/mappingtransformer/SemanticMappingTransformer.java:330-340 | the dense config is knn_vector with the dimension and method {engine, name, space_type} |
| SemanticMappingTransformer.RemoteEmbeddingConfig | src/main/java/org/opensearch/neuralsearch/mappingtransformer/SemanticMappingTransformer.java:293-311 | a remote model needs a config whose model type parses to TEXT_EMBEDDING, SPARSE_ENCODING or SPARSE_TOKENIZE; anything else throws |
| SemanticMappingTransformer.EmbeddingConfig | src/main/java/org/opensearch/neuralsearch/mappingtransformer/SemanticMappingTransformer.java:279-288 | dispatch by algorithm; an unsupported algorithm throws an IllegalArgumentException |
| SemanticMappingTransformer.EmbeddingFollowsModelType | src/main/java/org/opensearch/neuralsearch/mappingtransformer/SemanticMappingTransformer.java:279-311 | TEXT_EMBEDDING, direct or remote, gives the dense config; SPARSE_ENCODING or SPARSE_TOKENIZE gives the sparse config |
| SemanticMappingTransformer.CreateSemanticInfoField | src/main/java/org/opensearch/neuralsearch/mappingtransformer/SemanticMappingTransformer.java:278-291 | succeeds iff the embedding config does, wrapping it in the base semantic info config |
| SemanticMappingTransformer.SetSemanticInfoField | src/main/java/org/opensearch/neuralsearch/mappingtransformer/SemanticMappingTransformer.java:344-365 | the loop walk and put compute exactly the tree update |
| SemanticMappingTransformer.InfoFieldInsertedBesideField | src/main/java/org/opensearch/neuralsearch/mappingtransformer/SemanticMappingTransformer.java:344-365 | for a walkable well-formed path, the info config is put under the user's name or `last + "_semantic_info"` beside the field, overwriting without a conflict check; fails exactly when the walk does |
| SemanticMappingTransformer.WrapError | src/main/java/org/opensearch/neuralsearch/mappingtransformer/SemanticMappingTransformer.java:266-273 | an IllegalArgumentException keeps its kind with the base message prepended; any other exception is wrapped |
| SemanticMappingTransformer.ModifyMappings | src/main/java/org/opensearch/neuralsearch/mappingtransformer/SemanticMappingTransformer.java:252-275 | the loop over the model's field paths computes exactly the sequential updates, stopping at the first failure |
| SemanticMappingTransformer.UnusableModelFailsFirstPath | src/main/java/org/opensearch/neuralsearch/mappingtransformer/SemanticMappingTransformer.java:259-273 | a model with no usable embedding config fails at the first path with the wrapped error |
| SemanticMappingTransformer.TwoSiblingsBothInserted | src/main/java/org/opensearch/neuralsearch/mappingtransformer/SemanticMappingTransformer.java:344-365 | two sibling semantic fields both get their info fields beside them (with lines 259-274 of the same file) |
| SemanticFieldFilter.PropertiesOf | src/main/java/org/opensearch/neuralsearch/actionfilter/SemanticFieldFilter.java:87-95 | `_doc.properties` when it is a map, an empty map otherwise |
| SemanticFieldFilter.ParseMappings | src/main/java/org/opensearch/neuralsearch/actionfilter/SemanticFieldFilter.java:83-96 | no mappings give an empty map; a parse failure propagates; otherwise the `_doc` properties |
| SemanticFieldFilter.Apply | src/main/java/org/opensearch/neuralsearch/actionfilter/SemanticFieldFilter.java:42-81 | requests other than create-index proceed unchanged; a mapping without semantic fields proceeds unmodified; otherwise the models of the semantic fields are fetched |
| SemanticFieldFilter.EmbeddingConfig | src/main/java/org/opensearch/neuralsearch/actionfilter/SemanticFieldFilter.java:158-169 | a knn_vector with the model's dimension and faiss/hnsw/l2 only for TEXT_EMBEDDING; an empty map for other algorithms |
| SemanticFieldFilter.CreateSemanticInfoField | src/main/java/org/opensearch/neuralsearch/actionfilter/SemanticFieldFilter.java:156-193 | the chunks (text, embedding) and the non-indexed model id, type and name |
| SemanticFieldFilter.OnlyTextEmbeddingGetsVectors | src/main/java/org/opensearch/neuralsearch/actionfilter/SemanticFieldFilter.java:159-169 | the embedding is a knn_vector iff the algorithm is TEXT_EMBEDDING |
| SemanticFieldFilter.SetSemanticInfoField | src/main/java/org/opensearch/neuralsearch/actionfilter/SemanticFieldFilter.java:195-227 | the loop walk and put compute exactly the tree update (a non-string user name throws) |
| SemanticFieldFilter.InsertsOneKeyOrRefuses | src/main/java/org/opensearch/neuralsearch/actionfilter/SemanticFieldFilter.java:207-226 | an existing key at the sibling level throws and writes nothing; otherwise exactly that one key is inserted and nothing else changes |
| SemanticFieldFilter.ModifyMappings | src/main/java/org/opensearch/neuralsearch/actionfilter/SemanticFieldFilter.java:141-153 | the loop over field paths computes exactly the sequential updates, stopping at the first failure |
| SemanticFieldFilter.ConflictStopsRewrite | src/main/java/org/opensearch/neuralsearch/actionfilter/SemanticFieldFilter.java:217-225 | a conflict at path k, checked against the tree the first k paths left, fails the whole rewrite with an IllegalArgumentException, so no later path is inserted (with lines 147-152 of the same file) |
| SemanticFieldFilter.ModifyAllSplit | src/main/java/org/opensearch/neuralsearch/actionfilter/SemanticFieldFilter.java:147-152 | when the first k paths succeed, the loop goes on over the rest from the tree they left |
| SemanticInfoFieldConstants.ModelConfigShape | src/main/java/org/opensearch/neuralsearch/constants/SemanticInfoFieldConstants.java:43-60 | the model config has exactly id, name and type, each non-indexed text |
| SemanticInfoFieldConstants.GetBaseSemanticInfoConfig | src/main/java/org/opensearch/neuralsearch/constants/SemanticInfoFieldConstants.java:62-70 | properties with exactly chunks (nested, with text and the given embedding) and model |
| SemanticInfoFieldConstants.GetBaseTextEmbeddingConfig | src/main/java/org/opensearch/neuralsearch/constants/SemanticInfoFieldConstants.java:75-83 | exactly type knn_vector and method {engine faiss, name hnsw}; no dimension and no space type |
| SemanticInfoFieldConstants.GetBaseSparseEmbeddingConfig | src/main/java/org/opensearch/neuralsearch/constants/SemanticInfoFieldConstants.java:88-92 | only the type key, rank_feature |
| SemanticFieldTypeFactory.CreateSemanticFieldType | src/main/java/org/opensearch/neuralsearch/mapper/semanticfieldtypes/SemanticFieldTypeFactory.java:28-60 | binary gives the generic type; text, match_only_text, keyword and wildcard the string type; token_count the number type. Every other raw type throws an error naming the field and the type |
| SemanticInfoGenerationMode.Names | src/main/java/org/opensearch/neuralsearch/mapper/SemanticInfoGenerationMode.java:32-34 | the names of the modes, in order |
| SemanticInfoGenerationMode.FindByName | src/main/java/org/opensearch/neuralsearch/mapper/SemanticInfoGenerationMode.java:21-26 | a mode of the list with exactly that name, or none when no mode has it |
| SemanticInfoGenerationMode.FromName | src/main/java/org/opensearch/neuralsearch/mapper/SemanticInfoGenerationMode.java:20-27 | an exact, case-sensitive match, null for any other string |
| SemanticInfoGenerationMode.FromNameOfName | src/main/java/org/opensearch/neuralsearch/mapper/SemanticInfoGenerationMode.java:11-27 | `fromName(m.getName()) == m` for each mode |
| SemanticInfoGenerationMode.AvailableNamesAreAccepted | src/main/java/org/opensearch/neuralsearch/mapper/SemanticInfoGenerationMode.java:20-38 | a name is accepted iff it is among the available names |
| SemanticInfoGenerationMode.AvailableValues | src/main/java/org/opensearch/neuralsearch/mapper/SemanticInfoGenerationMode.java:29-38 | "[" + the names joined by "," + "]", without a trailing comma |
| SemanticFieldInfoPaths.PathsLieUnderInfoField | src/main/java/org/opensearch/neuralsearch/processor/dto/SemanticFieldInfo.java:45-63 | the chunks, model and embedding paths are the info path, ".", then "chunks", "model" and "chunks.<i>.embedding" |
| SemanticFieldInfoPaths.ChunksPathPrefixesEmbeddingPath | src/main/java/org/opensearch/neuralsearch/processor/dto/SemanticFieldInfo.java:45-56 | the chunks path is a strict prefix of every embedding path, followed by a separator |
| SemanticFieldInfoPaths.EmbeddingPathsAreDistinct | src/main/java/org/opensearch/neuralsearch/processor/dto/SemanticFieldInfo.java:53-56 | different chunk positions give different embedding paths |
| SemanticFieldInfoPaths.ModelPathIsApart | src/main/java/org/opensearch/neuralsearch/processor/dto/SemanticFieldInfo.java:45-63 | the model path is neither the chunks path nor any embedding path |
| SemanticFieldInfoPaths.EmbeddingPathSegments | src/main/java/org/opensearch/neuralsearch/processor/dto/SemanticFieldInfo.java:45-63 | read as dotted segments, the paths are the info field's segments then chunks, the position and embedding |
| SemanticFieldProcessing.SemanticInfoFullPath | src/main/java/org/opensearch/neuralsearch/processor/semantic/SemanticFieldProcessor.java:303-309 | `path + "_semantic_info"` without a user name; with one, the last segment replaced, failing iff the path has no segment |
| SemanticFieldProcessing.LeafInfo | src/main/java/org/opensearch/neuralsearch/processor/semantic/SemanticFieldProcessor.java:294-317 | a record with the value's text, the configured model id and the current path. A null model id always throws the IllegalArgument naming the joined path, before the user name is cast or the path split; a non-string model id fails its cast; other failures are a user-name cast or an empty split |
| SemanticFieldProcessing.NodeInfos | src/main/java/org/opensearch/neuralsearch/processor/semantic/SemanticFieldProcessor.java:270-319 | every record is well built from the config, every error is a config error, and a usable config never fails |
| SemanticFieldProcessing.ListInfos | src/main/java/org/opensearch/neuralsearch/processor/semantic/SemanticFieldProcessor.java:288-293 | the same for the elements of a list, visited in order at the same level |
| SemanticFieldProcessing.NothingOffThePath | src/main/java/org/opensearch/neuralsearch/processor/semantic/SemanticFieldProcessor.java:278-294 | a null node, a level past the path, or a scalar before the end collects nothing |
| SemanticFieldProcessing.ValueAlongPathGivesOneRecord | src/main/java/org/opensearch/neuralsearch/processor/semantic/SemanticFieldProcessor.java:284-318 | maps along the path ending in a scalar give exactly one record, at the dot-joined path |
| SemanticFieldProcessing.RootPathIsFieldPath | src/main/java/org/opensearch/neuralsearch/processor/semantic/SemanticFieldProcessor.java:286 | from the root, the path built while descending is the field's dotted path |
| SemanticFieldProcessing.DocumentValueAtFieldPath | src/main/java/org/opensearch/neuralsearch/processor/semantic/SemanticFieldProcessor.java:270-318 | a scalar at a field's path in the document gives one record at that path (with lines 221-230 of the same file) |
| SemanticFieldProcessing.ArrayOfValuesGivesRecordEach | src/main/java/org/opensearch/neuralsearch/processor/semantic/SemanticFieldProcessor.java:288-293 | a list of scalars at the end of the path gives one record per element, at `path + "." + index`, in order |
| SemanticFieldProcessing.CollectSemanticFieldInfo | src/main/java/org/opensearch/neuralsearch/processor/semantic/SemanticFieldProcessor.java:270-319 | the recursive collector appends exactly the records `NodeInfos` gives, or fails with its error |
| SemanticFieldProcessing.CollectListItems | src/main/java/org/opensearch/neuralsearch/processor/semantic/SemanticFieldProcessor.java:288-293 | the list loop appends exactly the records of the elements in order |
| SemanticFieldProcessing.DocumentInfosAreWellBuilt | src/main/java/org/opensearch/neuralsearch/processor/semantic/SemanticFieldProcessor.java:221-230 | every record of a document is well built from some field's config |
| SemanticFieldProcessing.GetSemanticFieldInfo | src/main/java/org/opensearch/neuralsearch/processor/semantic/SemanticFieldProcessor.java:221-230 | the records of all configured fields, in some enumeration of the fields |
| SemanticFieldProcessing.NoFieldsNoRecords | src/main/java/org/opensearch/neuralsearch/processor/semantic/SemanticFieldProcessor.java:221-230 | no configured field gives no record |
| SemanticFieldProcessing.SemanticFieldProcessor.constructor | src/main/java/org/opensearch/neuralsearch/processor/semantic/SemanticFieldProcessor.java:63-80 | the processor keeps its tag, description, batch size and field configs, with no models yet |
| SemanticFieldProcessing.SemanticFieldProcessor.Execute | src/main/java/org/opensearch/neuralsearch/processor/semantic/SemanticFieldProcessor.java:102-121 | the walk starts from the document as `preprocessIngestDocument` (line 105) leaves it. A document without semantic values is handed back with no write of its own, and a collection error goes to the handler. Otherwise, with the models known, the records go on to `process`. Without them the model map is set up empty and the unique model ids are fetched, an id missing from some field failing instead (with lines 140-142 of the same file) |
| SemanticFieldProcessing.SemanticFieldProcessor.Process | src/main/java/org/opensearch/neuralsearch/processor/semantic/SemanticFieldProcessor.java:123-133 | with the models fetched: the model descriptions of all records are written first, then their chunk lists, and the chunked records are grouped by model id so that every chunk goes to its record's model. Without a model map the first loop of `setModelInfo` throws a null dereference and nothing is written |
| SemanticFieldProcessing.SemanticFieldProcessor.OnModelResponse | src/main/java/org/opensearch/neuralsearch/processor/semantic/SemanticFieldProcessor.java:144-145 | records the model under its id |
| SemanticFieldProcessing.BuildModelInfoMap | src/main/java/org/opensearch/neuralsearch/processor/semantic/SemanticFieldProcessor.java:154-165 | one model-info object per model id: id, name and type |
| SemanticFieldProcessing.ModelInfoPathIsGetterPath | src/main/java/org/opensearch/neuralsearch/processor/semantic/SemanticFieldProcessor.java:168 | the write path is the record's model-info path |
| SemanticFieldProcessing.SetModelInfo | src/main/java/org/opensearch/neuralsearch/processor/semantic/SemanticFieldProcessor.java:153-171 | one write per record at its model-info path with its model's info, in order, after the earlier writes |
| SemanticFieldProcessing.ChunkObjects | src/main/java/org/opensearch/neuralsearch/processor/semantic/SemanticFieldProcessor.java:244-250 | one `{"text": s}` per chunk, in chunk order |
| SemanticFieldProcessing.Chunk | src/main/java/org/opensearch/neuralsearch/processor/semantic/SemanticFieldProcessor.java:232-254 | each record's chunk list is written at its chunks path, in order |
| SemanticFieldProcessing.GroupsAreUnions | src/main/java/org/opensearch/neuralsearch/processor/semantic/SemanticFieldProcessor.java:178-185 | a model id is grouped iff some record has it, and its values are the union of those records' chunks |
| SemanticFieldProcessing.GroupChunksByModelId | src/main/java/org/opensearch/neuralsearch/processor/semantic/SemanticFieldProcessor.java:178-185 | the map has exactly the records' model ids, each with the union of its chunks |
| SemanticFieldProcessing.EveryChunkIsGrouped | src/main/java/org/opensearch/neuralsearch/processor/semantic/SemanticFieldProcessor.java:178-185 | every record's model id is a key, and each of its chunks is among the values sent to that model |
| SemanticFieldProcessing.AbsentModelHasNoChunks | src/main/java/org/opensearch/neuralsearch/processor/semantic/SemanticFieldProcessor.java:178-185 | a model id no record has gets no chunk |
| SemanticFieldProcessing.PutEmbeddingsKeys | src/main/java/org/opensearch/neuralsearch/processor/semantic/SemanticFieldProcessor.java:193-195 | every key after the loop was already there, or is this model with one of the values |
| SemanticFieldProcessing.PutEmbeddingsKeepsOthers | src/main/java/org/opensearch/neuralsearch/processor/semantic/SemanticFieldProcessor.java:193-195 | keys of other models or other values are unchanged |
| SemanticFieldProcessing.PutEmbeddingsLastPositionWins | src/main/java/org/opensearch/neuralsearch/processor/semantic/SemanticFieldProcessor.java:193-195 | a value that occurs last at position i gets the i-th vector |
| SemanticFieldProcessing.CollectEmbeddings | src/main/java/org/opensearch/neuralsearch/processor/semantic/SemanticFieldProcessor.java:192-195 | fails with index out of bounds iff there are fewer vectors than values; otherwise exactly the loop's puts |
| SemanticFieldProcessing.DistinctValuesGetTheirVectors | src/main/java/org/opensearch/neuralsearch/processor/semantic/SemanticFieldProcessor.java:189-195 | distinct values each get the vector at their own position |
| SemanticFieldProcessing.EmbeddingWritesAtGetterPaths | src/main/java/org/opensearch/neuralsearch/processor/semantic/SemanticFieldProcessor.java:212-216 | one write per chunk, at that chunk's embedding path |
| SemanticFieldProcessing.SetRecordEmbeddings | src/main/java/org/opensearch/neuralsearch/processor/semantic/SemanticFieldProcessor.java:212-217 | appends exactly the record's embedding writes |
| SemanticFieldProcessing.SetInference | src/main/java/org/opensearch/neuralsearch/processor/semantic/SemanticFieldProcessor.java:204-219 | appends exactly the embedding writes of every record, in order |
| SemanticFieldProcessing.EveryChunkGetsItsEmbedding | src/main/java/org/opensearch/neuralsearch/processor/semantic/SemanticFieldProcessor.java:178-219 | every chunk of every record has an embedding under its model id, written at its embedding path |
| SemanticFieldProcessorFactory.GatheredMappings | src/main/java/org/opensearch/neuralsearch/processor/factory/SemanticFieldProcessorFactory.java:63-71 | the template mappings (when a list) come before the index mapping (when a map) |
| SemanticFieldProcessorFactory.AllEntriesHoldEachMapping | src/main/java/org/opensearch/neuralsearch/processor/factory/SemanticFieldProcessorFactory.java:85-93 | every mapping's semantic fields are among the collected ones |
| SemanticFieldProcessorFactory.AllEntriesComeFromAMapping | src/main/java/org/opensearch/neuralsearch/processor/factory/SemanticFieldProcessorFactory.java:85-93 | every collected field comes from some mapping |
| SemanticFieldProcessorFactory.MappingsWithoutSemanticFieldsAddNothing | src/main/java/org/opensearch/neuralsearch/processor/factory/SemanticFieldProcessorFactory.java:86-90 | a mapping without semantic fields adds nothing |
| SemanticFieldProcessorFactory.WinnersComeFromLastDeclaring | src/main/java/org/opensearch/neuralsearch/processor/factory/SemanticFieldProcessorFactory.java:85-93 | a surviving field belongs to some mapping, and no later mapping declares its path |
| SemanticFieldProcessorFactory.WinnersAreEntries | src/main/java/org/opensearch/neuralsearch/processor/factory/SemanticFieldProcessorFactory.java:85-93 | every surviving field is a semantic field of some mapping |
| SemanticFieldProcessorFactory.IndexMappingWins | src/main/java/org/opensearch/neuralsearch/processor/factory/SemanticFieldProcessorFactory.java:68-93 | when the map reaches every declared path with survivors only, each path of the last mapping (the index mapping) holds that mapping's configuration |
| SemanticFieldProcessorFactory.GatheredFieldsWin | src/main/java/org/opensearch/neuralsearch/processor/factory/SemanticFieldProcessorFactory.java:68-99 | for the gathered template and index mappings, the collected fields are semantic fields of those mappings, the map is empty exactly when no mapping declares a semantic field, and every path of the index mapping keeps the index mapping's configuration |
| SemanticFieldProcessorFactory.CollectMappings | src/main/java/org/opensearch/neuralsearch/processor/factory/SemanticFieldProcessorFactory.java:83-93 | succeeds iff every mapping can be walked. Every declared path is then in the map, and each holds the configuration of the last mapping declaring it, as the later `put` overwrites |
| SemanticFieldProcessorFactory.NewProcessor | src/main/java/org/opensearch/neuralsearch/processor/factory/SemanticFieldProcessorFactory.java:62-110 | no mappings or no semantic fields give no processor; an unwalkable mapping throws. Otherwise a fresh processor with the collected fields, the given or default description and batch size 10. A path declared in a template and in the index mapping keeps the index mapping's configuration |
| ScoreNormalizationUtil.AsciiLower | src/main/java/org/opensearch/neuralsearch/processor/normalization/ScoreNormalizationUtil.java:51 | upper-case ASCII letters are lowered, every other character is kept |
| ScoreNormalizationUtil.ValidateParams | src/main/java/org/opensearch/neuralsearch/processor/normalization/ScoreNormalizationUtil.java:31-58 | null or empty params pass. A key outside the supported list (case-sensitive) throws. A key equal to "weights" ignoring case needs a list under the exact key "weights". Every failure is an IllegalArgumentException |
| ScoreNormalizationUtil.ExactWeightsKeyDecides | src/main/java/org/opensearch/neuralsearch/processor/normalization/ScoreNormalizationUtil.java:36-57 | with only supported keys, the params pass iff a weights key is absent or "weights" holds a list |
| ScoreNormalizationUtil.CaseVariantOfWeightsIsRefused | src/main/java/org/opensearch/neuralsearch/processor/normalization/ScoreNormalizationUtil.java:51-52 | a supported key "Weights" holding a list is still refused, because the list is looked up under "weights" |
| ScoreNormalizationUtil.Zeros | src/main/java/org/opensearch/neuralsearch/processor/normalization/ScoreNormalizationUtil.java:77-80 | n zeros |
| ScoreNormalizationUtil.ScoresAfterSet | src/main/java/org/opensearch/neuralsearch/processor/normalization/ScoreNormalizationUtil.java:68-84 | an absent document first gets n zeros (a negative n throws); the slot then holds the score (a bad index throws); other slots and other documents are unchanged, and an existing list keeps its length |
| ScoreNormalizationUtil.SecondSetWins | src/main/java/org/opensearch/neuralsearch/processor/normalization/ScoreNormalizationUtil.java:75-83 | setting the same slot twice leaves the second score |
| ScoreNormalizationUtil.NormalizedScores.SetNormalizedScore | src/main/java/org/opensearch/neuralsearch/processor/normalization/ScoreNormalizationUtil.java:68-84 | the result and the new map are exactly those `ScoresAfterSet` gives |

## Left out

- Concurrency and asynchronous callbacks are not modelled. This covers the executor's `invokeAll` in the hybrid weight's scorer supplier and the counters that gather callbacks in the transformer, the filter and the processor. It also covers `registerAsyncAction` and the ML-client inference calls of the neural query builder. The model keeps only the synchronous bodies the callbacks run.
- `HybridQueryWeight.matches`, the hybrid scorer supplier's merge of sub-scorers and the collector manager belong to code this model does not include.
- MAX_NUMBER_OF_SUB_QUERIES is defined outside the modelled files, so `IsCacheable` takes it as a parameter.
- Host helpers with no source here are parameters or already-resolved inputs of the operations that call them:
  - `getProperties` and `getFieldConfigByPath`;
  - the chunker and its token limit;
  - `FunctionName.from`;
  - `MapperService.parseMapping`, `XContentHelper.convertToMap` and `ProcessorDocumentUtils.unflattenJson`.
- The values of `MappingConstants` (type, properties, the path separator) and of the `search_model_id` and `embedding` names come from files outside the model; the model uses their OpenSearch values.
- Java `HashMap` order: contracts are stated for some enumeration of the keys, never a particular one.
- Mutable mapping trees and documents are modelled as values. Tree updates are functions returning the new tree, and `IngestDocument` keeps an append-only log of `setFieldValue` writes. Aliasing between the maps handed around, and `setFieldValue`'s own effect on nested lists, are not modelled.
- `SemanticFieldInfo.setChunks` is modelled by building records with their chunks.
- Vectors and token weights are opaque payloads, and scores are `real`. Floating-point rounding is not modelled.
- String lengths count characters, not UTF-16 units. `equalsIgnoreCase` is modelled on ASCII letters only.
- ScoreNormalizationUtil.ScoresAfterSet: the map holds no null lists, so the source's null-value case of `get` does not arise.
- The JNI layer and the native VSAG services are not part of this model.
- The delegating field types (generic, string, number) and the host mapper glue (SemanticTextFieldMapper, SemanticFieldMapper, SemanticFieldTypeParameters) only forward to OpenSearch, so the factory returns which of the three types it builds.
- NeuralQueryBuilder's stream constructor, `doWriteTo`, `doXContent`, `doEquals`/`doHashCode` and `doToQuery` are not modelled. Neither are the k-NN and nested query builders, nor the bodies of `rewriteQueryAgainstKnnField`, `rewriteQueryAgainstSemanticField` and inference. `DoRewrite` returns which rewrite is taken.
- StreamOutput and StreamInput are modelled as the sequence of primitive calls, one typed token per call, and a read of a token of another kind fails. Bytes are not modelled. On real bytes the three as-written writers do not make the reader fail: `writeInt(size)` starts with a zero byte for any size below 2^24, `readBoolean` takes that byte as false, so the reader returns null and reads every later field of the query from misaligned bytes. `VectorMapAsWrittenIsMisread`, `TokenMapMapAsWrittenIsMisread` and `IndexConfigAsWrittenIsMisread` show the mismatch as a failed read instead.
- SemanticFieldProcessing.SemanticFieldProcessor.Execute: `preprocessIngestDocument` (SemanticFieldProcessor.java:322-328) is not modelled, because it rests on `unflattenJson`, whose source is not part of this model. `Execute` starts from the already preprocessed source, so a value under a flat dotted key such as "a.b" is found only once it has been unflattened, and the `setFieldValue` writes and dotted-key removals of that step are not logged.
- NeuralQueryBuilderRules.ValidateTargetFieldConfig: the dense and sparse validators run on the builder (only their `k` defaulting is kept), and their error lists are dropped as the source drops them.

## Findings

| source | as written | input that shows it | evidently intended | confidence | as-written member | corrected member |
|---|---|---|---|---|---|---|
| src/main/java/org/opensearch/neuralsearch/query/parser/NeuralQueryParser.java:97-98 | an available model-id to vector map is written as `writeInt(size)` and its entries, with no leading `true`, while the reader reads a boolean and then `readVInt` | the map {"m": [1.0]} with a present vector is not read back as the written map: the reader's boolean read meets the size int | write `true`, then `writeVInt(size)`, then the entries | high; proved in the model, not executed | NeuralQueryParser.VectorMapAsWrittenIsMisread | NeuralQueryParser.VectorMapRoundTrip |
| src/main/java/org/opensearch/neuralsearch/query/parser/NeuralQueryParser.java:182-183 | the model-id to token-map writer has the same shape: no `true`, `writeInt` size | any present map whose token maps are all available is not read back as the written map | write `true`, then `writeVInt(size)`, then the entries | high; proved in the model, not executed | NeuralQueryParser.TokenMapMapAsWrittenIsMisread | NeuralQueryParser.TokenMapMapRoundTrip |
| src/main/java/org/opensearch/neuralsearch/query/parser/NeuralQueryParser.java:218-219 | the index-config writer writes `writeInt(size)` for a present map, with no leading `true`, while the reader reads a boolean first | any non-null configuration map, even an empty one, is not read back as the written map | write `true`, then `writeVInt(size)`, then the entries | high; proved in the model, not executed | NeuralQueryParser.IndexConfigAsWrittenIsMisread | NeuralQueryParser.IndexConfigRoundTrip |
| src/main/java/org/opensearch/neuralsearch/query/NeuralQueryBuilder.java:605-625 | `doRewrite` routes by the first entry of the configuration map in hash order; an unmapped entry (null semantic flag) that comes first takes the semantic rewrite | index "a" maps the field as non-semantic and index "b" lacks it: validation accepts, and with "b" first the query takes the semantic rewrite | route by the first mapped entry (`ChosenRoute`), as the validation ignores unmapped ones | medium; depends on hash order, not executed | NeuralQueryBuilderRules.RouteAsWrittenDependsOnOrder | NeuralQueryBuilderRules.RouteFollowsFieldKind |

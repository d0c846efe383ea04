/**
 * Finding the semantic fields of an index mapping and grouping them by model id. The mapping
 * is a tree of field configurations: each field's configuration may hold a `properties` map
 * of sub-fields, and a field is semantic when its `type` is "semantic".
 */
module SemanticMappingUtils {
  import opened Wrappers
  import opened JsonTree
  import opened JavaCollections
  import opened JavaExceptions
  import opened MappingConstants
  import DottedPaths
  import SemanticInfoGenerationMode

  /** The `type` of the configuration is the string "semantic". */
  predicate IsSemanticField(fieldConfig: Object) {
    TYPE in fieldConfig && fieldConfig[TYPE] == JStr(SEMANTIC)
  }

  /** A path together with the configuration of the semantic field found there. */
  type SemanticEntry = (string, Object)

  /** The semantic fields below (and including) the field `name`, whose configuration is `fieldConfig`. */
  function FieldSemanticEntries(parentPath: string, name: string, fieldConfig: Json): set<SemanticEntry>
    decreases fieldConfig, 0
  {
    if !fieldConfig.JMap? then {}
    else
      var fullPath := DottedPaths.ChildPath(parentPath, name);
      var config := fieldConfig.fields;
      (if IsSemanticField(config) then {(fullPath, config)} else {})
      + (if PROPERTIES in config then SemanticEntries(config[PROPERTIES], fullPath) else {})
  }

  /** The semantic fields of a `properties` map whose fields sit below `parentPath`. */
  function SemanticEntries(properties: Json, parentPath: string): set<SemanticEntry>
    decreases properties, 1
  {
    if !properties.JMap? then {}
    else set name, e | name in properties.fields && e in FieldSemanticEntries(parentPath, name, properties.fields[name]) :: e
  }

  /** Every `properties` the walk descends into is a map (a null one or any other value throws). */
  predicate FieldTraversable(fieldConfig: Json)
    decreases fieldConfig, 0
  {
    fieldConfig.JMap? && PROPERTIES in fieldConfig.fields ==> Traversable(fieldConfig.fields[PROPERTIES])
  }

  predicate Traversable(properties: Json)
    decreases properties, 1
  {
    properties.JMap? && forall name :: name in properties.fields ==> FieldTraversable(properties.fields[name])
  }

  /** The caller-owned map from semantic field path to field configuration that the walk fills. */
  class SemanticFieldPathToConfigMap {
    var entries: map<string, Object>

    constructor()
      ensures entries == map[]
    {
      entries := map[];
    }
  }

  /**
   * `after` is `before` with some entries of `found` put in: every earlier path is still there,
   * and every path either keeps its earlier configuration or holds one found for it.
   */
  predicate KeepsOrAdds(before: map<string, Object>, after: map<string, Object>, found: set<SemanticEntry>) {
    && before.Keys <= after.Keys
    && forall p :: p in after ==> (p in before && after[p] == before[p]) || (p, after[p]) in found
  }

  /**
   * Every semantic field of `part` has its path in `entries`, and what that path holds is a
   * configuration `found` has for it: the put of a later field of the same path has won.
   */
  predicate PathsHoldFound(entries: map<string, Object>, part: set<SemanticEntry>, found: set<SemanticEntry>) {
    forall e :: e in part ==> e.0 in entries && (e.0, entries[e.0]) in found
  }

  /** Later puts taken from `found` keep a path holding one of `found`'s configurations. */
  lemma PathsHoldFoundKept(b: map<string, Object>, c: map<string, Object>, part: set<SemanticEntry>,
                           found: set<SemanticEntry>, more: set<SemanticEntry>)
    requires PathsHoldFound(b, part, found) && KeepsOrAdds(b, c, more) && more <= found
    ensures PathsHoldFound(c, part, found)
  {
  }

  /** Two rounds of puts, the second from a part of what the first may put, are one round. */
  lemma KeepsOrAddsTwice(a: map<string, Object>, b: map<string, Object>, c: map<string, Object>,
                         found: set<SemanticEntry>, more: set<SemanticEntry>)
    requires KeepsOrAdds(a, b, found) && KeepsOrAdds(b, c, more) && more <= found
    ensures KeepsOrAdds(a, c, found)
  {
  }

  /**
   * `collectSemanticField`: puts every semantic field below `currentMapping` into the accumulator
   * under its full dotted path. Entries already there are kept unless a field of this mapping has
   * the same path, which then holds a configuration of this mapping; a `properties` that is not a
   * map stops the walk with an exception.
   */
  method CollectSemanticField(currentMapping: Object, parentPath: string, acc: SemanticFieldPathToConfigMap)
    returns (r: Result<(), Exception>)
    modifies acc
    decreases JMap(currentMapping), 1
    ensures r.Ok? <==> Traversable(JMap(currentMapping))
    ensures r.Err? ==> r.error == NullPointer || r.error == ClassCast
    ensures KeepsOrAdds(old(acc.entries), acc.entries, SemanticEntries(JMap(currentMapping), parentPath))
    ensures r.Ok? ==> PathsHoldFound(acc.entries, SemanticEntries(JMap(currentMapping), parentPath),
                                     SemanticEntries(JMap(currentMapping), parentPath))
  {
    ghost var start := acc.entries;
    ghost var all := SemanticEntries(JMap(currentMapping), parentPath);
    var keys := IterationOrder(currentMapping.Keys);
    var i := 0;
    while i < |keys|
      invariant 0 <= i <= |keys|
      invariant start == old(acc.entries)
      invariant KeepsOrAdds(start, acc.entries, all)
      invariant forall j :: 0 <= j < i ==> FieldTraversable(currentMapping[keys[j]])
      invariant forall j :: 0 <= j < i ==> PathsHoldFound(acc.entries, FieldSemanticEntries(parentPath, keys[j], currentMapping[keys[j]]), all)
    {
      FieldEntriesAreEntries(currentMapping, parentPath, keys[i]);
      ghost var before := acc.entries;
      ghost var fieldEntries := FieldSemanticEntries(parentPath, keys[i], currentMapping[keys[i]]);
      var r' := CollectField(currentMapping, parentPath, keys[i], acc);
      KeepsOrAddsTwice(start, before, acc.entries, all, fieldEntries);
      if r'.Err? {
        return r';
      }
      forall j | 0 <= j < i
        ensures PathsHoldFound(acc.entries, FieldSemanticEntries(parentPath, keys[j], currentMapping[keys[j]]), all)
      {
        PathsHoldFoundKept(before, acc.entries, FieldSemanticEntries(parentPath, keys[j], currentMapping[keys[j]]), all, fieldEntries);
      }
      i := i + 1;
    }
    FieldsCoverEntries(currentMapping, parentPath, keys, acc.entries);
    r := Ok(());
  }

  /** When the walk has reached the semantic fields below every field, it has reached all of them. */
  lemma FieldsCoverEntries(currentMapping: Object, parentPath: string, keys: seq<string>, entries: map<string, Object>)
    requires Enumerates(keys, currentMapping.Keys)
    requires forall j :: 0 <= j < |keys| ==>
               PathsHoldFound(entries, FieldSemanticEntries(parentPath, keys[j], currentMapping[keys[j]]),
                              SemanticEntries(JMap(currentMapping), parentPath))
    ensures PathsHoldFound(entries, SemanticEntries(JMap(currentMapping), parentPath), SemanticEntries(JMap(currentMapping), parentPath))
  {
    forall e | e in SemanticEntries(JMap(currentMapping), parentPath)
      ensures e.0 in entries && (e.0, entries[e.0]) in SemanticEntries(JMap(currentMapping), parentPath)
    {
      var name := EntryComesFromField(currentMapping, parentPath, e);
      var j :| 0 <= j < |keys| && keys[j] == name;
    }
  }

  /** The semantic fields below one field of a mapping are semantic fields of the mapping. */
  lemma FieldEntriesAreEntries(currentMapping: Object, parentPath: string, name: string)
    requires name in currentMapping
    ensures FieldSemanticEntries(parentPath, name, currentMapping[name]) <= SemanticEntries(JMap(currentMapping), parentPath)
  {
  }

  /** ... and each semantic field of a mapping lies below one of its fields. */
  lemma EntryComesFromField(currentMapping: Object, parentPath: string, e: SemanticEntry) returns (name: string)
    requires e in SemanticEntries(JMap(currentMapping), parentPath)
    ensures name in currentMapping && e in FieldSemanticEntries(parentPath, name, currentMapping[name])
  {
    name :| name in currentMapping && e in FieldSemanticEntries(parentPath, name, currentMapping[name]);
  }

  /** One iteration of the walk: the field `fieldName` of `currentMapping`. */
  method CollectField(currentMapping: Object, parentPath: string, fieldName: string, acc: SemanticFieldPathToConfigMap)
    returns (r: Result<(), Exception>)
    requires fieldName in currentMapping
    modifies acc
    decreases JMap(currentMapping), 0
    ensures r.Ok? <==> FieldTraversable(currentMapping[fieldName])
    ensures r.Err? ==> r.error == NullPointer || r.error == ClassCast
    ensures KeepsOrAdds(old(acc.entries), acc.entries, FieldSemanticEntries(parentPath, fieldName, currentMapping[fieldName]))
    ensures r.Ok? ==> PathsHoldFound(acc.entries, FieldSemanticEntries(parentPath, fieldName, currentMapping[fieldName]),
                                     FieldSemanticEntries(parentPath, fieldName, currentMapping[fieldName]))
  {
    var fieldConfig := currentMapping[fieldName];
    var fullPath := if parentPath == "" then fieldName else parentPath + "." + fieldName;
    assert fullPath == DottedPaths.ChildPath(parentPath, fieldName);
    if fieldConfig.JMap? {
      var fieldConfigMap := fieldConfig.fields;
      if TYPE in fieldConfigMap && fieldConfigMap[TYPE] == JStr(SEMANTIC) {
        acc.entries := acc.entries[fullPath := fieldConfigMap];
      }
      if PROPERTIES in fieldConfigMap {
        var properties := fieldConfigMap[PROPERTIES];
        if properties.JNull? {
          return Err(NullPointer);
        } else if !properties.JMap? {
          return Err(ClassCast);
        }
        assert JMap(properties.fields) == properties;
        ghost var mid := acc.entries;
        ghost var found := FieldSemanticEntries(parentPath, fieldName, fieldConfig);
        ghost var own: set<SemanticEntry> := if IsSemanticField(fieldConfigMap) then {(fullPath, fieldConfigMap)} else {};
        assert found == own + SemanticEntries(properties, fullPath);
        r := CollectSemanticField(properties.fields, fullPath, acc);
        KeepsOrAddsTwice(old(acc.entries), mid, acc.entries, found, SemanticEntries(properties, fullPath));
        PathsHoldFoundKept(mid, acc.entries, own, found, SemanticEntries(properties, fullPath));
        return;
      }
    }
    r := Ok(());
  }

  /**
   * What a walk into an empty accumulator leaves: every semantic field path of the mapping, each
   * with the configuration of a semantic field found at that path.
   */
  predicate CollectedFrom(semanticFields: map<string, Object>, properties: Object) {
    && (forall p :: p in semanticFields ==> (p, semanticFields[p]) in SemanticEntries(JMap(properties), ""))
    && (forall e :: e in SemanticEntries(JMap(properties), "") ==> e.0 in semanticFields)
  }

  // ---------------------------------------------------------------------------------------------
  // Model ids and generation modes of semantic fields

  const MODEL_ID_MESSAGE_PREFIX: string := "Model ID is a required string value for semantic field: "

  function ModelIdMessage(fullPath: string): string {
    MODEL_ID_MESSAGE_PREFIX + fullPath
  }

  /** The configuration's `model_id` is a string. */
  predicate HasModelId(fieldConfig: Object) {
    Get(fieldConfig, MODEL_ID).JStr?
  }

  function ModelIdOf(fieldConfig: Object): string
    requires HasModelId(fieldConfig)
  {
    Get(fieldConfig, MODEL_ID).str
  }

  /** `getModelId`: the string `model_id` of a semantic field; anything else names the field in the error. */
  function GetModelId(fieldConfig: Object, fullPath: string): (r: Result<string, Exception>)
    ensures r.Ok? <==> HasModelId(fieldConfig)
    ensures r.Ok? ==> MODEL_ID in fieldConfig && fieldConfig[MODEL_ID] == JStr(r.value)
    ensures r.Err? ==> r.error == IllegalArgument(ModelIdMessage(fullPath))
  {
    match Get(fieldConfig, MODEL_ID)
    case JStr(modelId) => Ok(modelId)
    case _ => Err(IllegalArgument(ModelIdMessage(fullPath)))
  }

  /** Every collected field has a string model id. */
  predicate AllHaveModelIds(semanticFields: map<string, Object>) {
    forall p :: p in semanticFields ==> HasModelId(semanticFields[p])
  }

  /** The model ids of the fields in `paths`. */
  function ModelIdsOf(semanticFields: map<string, Object>, paths: set<string>): set<string> {
    set p | p in paths && p in semanticFields && HasModelId(semanticFields[p]) :: ModelIdOf(semanticFields[p])
  }

  /** One more field with a model id adds its id to the ids of the others. */
  lemma ModelIdsOfAdd(semanticFields: map<string, Object>, paths: set<string>, p: string)
    requires p in semanticFields && HasModelId(semanticFields[p])
    ensures ModelIdsOf(semanticFields, paths + {p}) == ModelIdsOf(semanticFields, paths) + {ModelIdOf(semanticFields[p])}
  {
  }

  /** The error for a field without a string model id, naming that field. */
  predicate MissingModelIdError(semanticFields: map<string, Object>, e: Exception) {
    exists p :: p in semanticFields && !HasModelId(semanticFields[p]) && e == IllegalArgument(ModelIdMessage(p))
  }

  /**
   * `getUniqueModelIds`: the set of model ids of all collected fields; the first field met without
   * a string model id (in map order) throws.
   */
  method GetUniqueModelIds(semanticFields: map<string, Object>) returns (r: Result<set<string>, Exception>)
    ensures r.Ok? <==> AllHaveModelIds(semanticFields)
    ensures r.Ok? ==> r.value == ModelIdsOf(semanticFields, semanticFields.Keys)
    ensures r.Err? ==> MissingModelIdError(semanticFields, r.error)
  {
    var keys := IterationOrder(semanticFields.Keys);
    var modelIds: set<string> := {};
    var i := 0;
    while i < |keys|
      invariant 0 <= i <= |keys|
      invariant forall j :: 0 <= j < i ==> HasModelId(semanticFields[keys[j]])
      invariant modelIds == ModelIdsOf(semanticFields, set j | 0 <= j < i :: keys[j])
    {
      var modelId := GetModelId(semanticFields[keys[i]], keys[i]);
      if modelId.Err? {
        return Err(modelId.error);
      }
      assert (set j | 0 <= j < i + 1 :: keys[j]) == (set j | 0 <= j < i :: keys[j]) + {keys[i]};
      modelIds := modelIds + {modelId.value};
      i := i + 1;
    }
    EnumerationCovers(keys, semanticFields.Keys);
    r := Ok(modelIds);
  }

  /** `groups` files each field of `done` under its own model id, once, and nothing else. */
  predicate GroupsByModelId(semanticFields: map<string, Object>, done: set<string>, groups: map<string, seq<string>>)
    requires done <= semanticFields.Keys
    requires forall p :: p in done ==> HasModelId(semanticFields[p])
  {
    && groups.Keys == ModelIdsOf(semanticFields, done)
    && (forall id, i :: id in groups && 0 <= i < |groups[id]| ==>
          groups[id][i] in done && ModelIdOf(semanticFields[groups[id][i]]) == id)
    && (forall p :: p in done ==> p in groups[ModelIdOf(semanticFields[p])])
    && (forall id, i, j :: id in groups && 0 <= i < j < |groups[id]| ==> groups[id][i] != groups[id][j])
  }

  /**
   * `extractModelIdToFieldPathMap`: the paths of the collected fields grouped by model id, each
   * path once and under its own id; the first field met without a string model id throws.
   */
  method ExtractModelIdToFieldPathMap(semanticFields: map<string, Object>) returns (r: Result<map<string, seq<string>>, Exception>)
    ensures r.Ok? <==> AllHaveModelIds(semanticFields)
    ensures r.Ok? ==> GroupsByModelId(semanticFields, semanticFields.Keys, r.value)
    ensures r.Err? ==> MissingModelIdError(semanticFields, r.error)
  {
    var keys := IterationOrder(semanticFields.Keys);
    var idToFieldPathMap: map<string, seq<string>> := map[];
    var i := 0;
    ghost var done: set<string> := {};
    while i < |keys|
      invariant 0 <= i <= |keys|
      invariant done == set j | 0 <= j < i :: keys[j]
      invariant done <= semanticFields.Keys
      invariant forall p :: p in done ==> HasModelId(semanticFields[p])
      invariant GroupsByModelId(semanticFields, done, idToFieldPathMap)
    {
      var fullPath := keys[i];
      var modelIdStr := GetModelId(semanticFields[fullPath], fullPath);
      if modelIdStr.Err? {
        assert !HasModelId(semanticFields[fullPath]);
        return Err(modelIdStr.error);
      }
      var id := modelIdStr.value;
      FileNextPath(semanticFields, keys, i, done, idToFieldPathMap);
      ghost var filed := AddPath(idToFieldPathMap, id, fullPath);
      if id in idToFieldPathMap {
        assert filed == idToFieldPathMap[id := idToFieldPathMap[id] + [fullPath]];
        idToFieldPathMap := idToFieldPathMap[id := idToFieldPathMap[id] + [fullPath]];
      } else {
        assert filed == idToFieldPathMap[id := [] + [fullPath]];
        idToFieldPathMap := idToFieldPathMap[id := [] + [fullPath]];
      }
      done := done + {fullPath};
      i := i + 1;
    }
    EnumerationCovers(keys, semanticFields.Keys);
    r := Ok(idToFieldPathMap);
  }

  /** One iteration of `extractModelIdToFieldPathMap`: the next path in map order is filed. */
  lemma FileNextPath(semanticFields: map<string, Object>, keys: seq<string>, i: nat, done: set<string>,
                     groups: map<string, seq<string>>)
    requires Enumerates(keys, semanticFields.Keys) && i < |keys|
    requires done == set j | 0 <= j < i :: keys[j]
    requires done <= semanticFields.Keys
    requires forall p :: p in done ==> HasModelId(semanticFields[p])
    requires HasModelId(semanticFields[keys[i]])
    requires GroupsByModelId(semanticFields, done, groups)
    ensures (set j | 0 <= j < i + 1 :: keys[j]) == done + {keys[i]}
    ensures GroupsByModelId(semanticFields, done + {keys[i]}, AddPath(groups, ModelIdOf(semanticFields[keys[i]]), keys[i]))
  {
    assert keys[i] !in done;
    assert (set j | 0 <= j < i + 1 :: keys[j]) == done + {keys[i]};
    GroupsAddPath(semanticFields, done, groups, keys[i]);
  }

  /** The list of `id` with `p` appended, the list created first when `id` has none. */
  function AddPath(groups: map<string, seq<string>>, id: string, p: string): map<string, seq<string>> {
    if id in groups then groups[id := groups[id] + [p]] else groups[id := [] + [p]]
  }

  /** Filing one more field under its model id keeps the grouping exact. */
  lemma GroupsAddPath(semanticFields: map<string, Object>, done: set<string>, groups: map<string, seq<string>>, p: string)
    requires done <= semanticFields.Keys
    requires forall q :: q in done ==> HasModelId(semanticFields[q])
    requires GroupsByModelId(semanticFields, done, groups)
    requires p in semanticFields && p !in done && HasModelId(semanticFields[p])
    ensures GroupsByModelId(semanticFields, done + {p}, AddPath(groups, ModelIdOf(semanticFields[p]), p))
  {
    var id := ModelIdOf(semanticFields[p]);
    var g := AddPath(groups, id, p);
    ModelIdsOfAdd(semanticFields, done, p);
    AddPathElements(groups, id, p);
    forall q | q in done
      ensures q in g[ModelIdOf(semanticFields[q])]
    {
      assert q in groups[ModelIdOf(semanticFields[q])];
    }
    if id in groups {
      forall i | 0 <= i < |groups[id]|
        ensures groups[id][i] != p
      {
        assert groups[id][i] in done;
      }
    }
    AddPathKeepsListsDistinct(groups, id, p);
  }

  /** Appending to one list keeps every list's paths where they were and puts the new path last. */
  lemma AddPathElements(groups: map<string, seq<string>>, id: string, p: string)
    ensures var g := AddPath(groups, id, p);
      && g.Keys == groups.Keys + {id}
      && p in g[id]
      && (forall k, q :: k in groups && q in groups[k] ==> q in g[k])
      && (forall k, i :: k in g && 0 <= i < |g[k]| ==>
            (k in groups && i < |groups[k]| && g[k][i] == groups[k][i]) || (k == id && g[k][i] == p))
  {
    var g := AddPath(groups, id, p);
    forall k, i | k in g && 0 <= i < |g[k]|
      ensures (k in groups && i < |groups[k]| && g[k][i] == groups[k][i]) || (k == id && g[k][i] == p)
    {
      if k == id && id in groups && i < |groups[id]| {
        assert g[k][i] == groups[id][i];
      }
    }
  }

  /** Appending a path its list does not hold keeps every list free of repeats. */
  lemma AddPathKeepsListsDistinct(groups: map<string, seq<string>>, id: string, p: string)
    requires forall k, i, j :: k in groups && 0 <= i < j < |groups[k]| ==> groups[k][i] != groups[k][j]
    requires id in groups ==> forall i :: 0 <= i < |groups[id]| ==> groups[id][i] != p
    ensures var g := AddPath(groups, id, p);
      forall k, i, j :: k in g && 0 <= i < j < |g[k]| ==> g[k][i] != g[k][j]
  {
    var g := AddPath(groups, id, p);
    forall k, i, j | k in g && 0 <= i < j < |g[k]|
      ensures g[k][i] != g[k][j]
    {
      if k == id && id in groups {
        assert g[k][i] == groups[id][i];
        if j < |groups[id]| {
          assert g[k][j] == groups[id][j];
        }
      }
    }
  }

  /** The grouping is a partition: a path is in the list of an id iff that is the path's own id. */
  lemma GroupsArePartition(semanticFields: map<string, Object>, groups: map<string, seq<string>>, p: string, id: string)
    requires AllHaveModelIds(semanticFields)
    requires GroupsByModelId(semanticFields, semanticFields.Keys, groups)
    requires p in semanticFields
    ensures (id in groups && p in groups[id]) <==> id == ModelIdOf(semanticFields[p])
  {
    if id in groups && p in groups[id] {
      var i :| 0 <= i < |groups[id]| && groups[id][i] == p;
    }
  }

  /** The grouping is empty exactly when there are no semantic fields. */
  lemma NoGroupsExactlyWhenNoFields(semanticFields: map<string, Object>, groups: map<string, seq<string>>)
    requires AllHaveModelIds(semanticFields)
    requires GroupsByModelId(semanticFields, semanticFields.Keys, groups)
    ensures groups == map[] <==> semanticFields == map[]
  {
    GroupKeysAreUniqueModelIds(semanticFields, groups);
    if semanticFields != map[] {
      var p :| p in semanticFields;
      assert ModelIdOf(semanticFields[p]) in ModelIdsOf(semanticFields, semanticFields.Keys);
    }
  }

  /** The grouping's keys are the unique model ids. */
  lemma GroupKeysAreUniqueModelIds(semanticFields: map<string, Object>, groups: map<string, seq<string>>)
    requires AllHaveModelIds(semanticFields)
    requires GroupsByModelId(semanticFields, semanticFields.Keys, groups)
    ensures groups.Keys == ModelIdsOf(semanticFields, semanticFields.Keys)
    ensures forall id :: id in groups ==> |groups[id]| > 0
  {
    forall id | id in groups
      ensures |groups[id]| > 0
    {
      var p :| p in semanticFields && HasModelId(semanticFields[p]) && ModelIdOf(semanticFields[p]) == id;
      assert p in groups[id];
    }
  }

  const GENERATION_MODE_PREFIX: string :=
    "semantic_info_generation_mode should be one of "
    + "[" + DottedPaths.Join(",", SemanticInfoGenerationMode.Names(SemanticInfoGenerationMode.Values)) + "]"
    + " for semantic field "

  function GenerationModeMessage(fullPath: string): string {
    GENERATION_MODE_PREFIX + fullPath + "."
  }

  /**
   * `getSemanticInfoGenerationMode`: "always" when the setting is absent or null, the mode of
   * that exact name otherwise; a non-string or unknown name throws.
   */
  function GetSemanticInfoGenerationMode(fieldConfig: Object, fullPath: string): (r: Result<SemanticInfoGenerationMode.Mode, Exception>)
    ensures Get(fieldConfig, SEMANTIC_INFO_GENERATION_MODE) == JNull ==> r == Ok(SemanticInfoGenerationMode.Always)
    ensures r.Ok? && Get(fieldConfig, SEMANTIC_INFO_GENERATION_MODE) != JNull ==>
              Get(fieldConfig, SEMANTIC_INFO_GENERATION_MODE) == JStr(SemanticInfoGenerationMode.Name(r.value))
    ensures r.Err? ==> r.error == IllegalArgument(GenerationModeMessage(fullPath))
  {
    var modeName := Get(fieldConfig, SEMANTIC_INFO_GENERATION_MODE);
    if modeName.JNull? then Ok(SemanticInfoGenerationMode.Always)
    else if !modeName.JStr? then Err(IllegalArgument(GenerationModeMessage(fullPath)))
    else
      match SemanticInfoGenerationMode.FromName(Some(modeName.str))
      case None => Err(IllegalArgument(GenerationModeMessage(fullPath)))
      case Some(mode) => Ok(mode)
  }

  /** A mode written under its own name is read back as that mode. */
  lemma GenerationModeByName(fieldConfig: Object, fullPath: string, mode: SemanticInfoGenerationMode.Mode)
    requires Get(fieldConfig, SEMANTIC_INFO_GENERATION_MODE) == JStr(SemanticInfoGenerationMode.Name(mode))
    ensures GetSemanticInfoGenerationMode(fieldConfig, fullPath) == Ok(mode)
  {
    SemanticInfoGenerationMode.FromNameOfName(mode);
  }
}

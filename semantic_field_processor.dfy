/**
 * The ingest processor for semantic fields: it finds the values of an index's semantic fields
 * in a document (through nested objects and arrays), writes the model description and the chunk
 * list under each value's semantic info field, groups the chunks per model for inference, and
 * writes each chunk's embedding back.
 */
module SemanticFieldProcessing {
  import opened Wrappers
  import opened JsonTree
  import opened JavaExceptions
  import opened JavaCollections
  import opened MappingConstants
  import opened MlCommonsModel
  import opened SemanticFieldInfoPaths
  import DottedPaths
  import Utils = SemanticMappingUtils

  const PROCESSOR_TYPE := "internal_semantic_field"

  // ---------------------------------------------------------------------------------------------
  // Finding the semantic values of a document

  const MISSING_MODEL_ID_PREFIX: string := "It does not make sense we try to process the semantic field without a model id. The field is at: "

  function MissingModelIdMessage(pathParts: seq<string>): string {
    MISSING_MODEL_ID_PREFIX + DottedPaths.Join(".", pathParts)
  }

  /** A node that is neither an object, nor an array, nor null: a value the processor embeds. */
  predicate IsLeafValue(node: Json) {
    !node.JMap? && !node.JList? && !node.JNull?
  }

  /** `node.toString()` of such a value. */
  function ValueText(node: Json): string
    requires IsLeafValue(node)
  {
    if node.JStr? then node.str
    else if node.JInt? then DottedPaths.IntToString(node.num)
    else if node.JBool? then (if node.flag then "true" else "false")
    else node.text
  }

  /**
   * Where the semantic info field of the value at `currentPath` goes: the path followed by
   * "_semantic_info", or, with a user name, the path with its last segment replaced by that name.
   */
  function SemanticInfoFullPath(currentPath: string, userName: Option<string>): (r: Result<string, Exception>)
    ensures userName.None? ==> r == Ok(currentPath + DEFAULT_SEMANTIC_INFO_FIELD_NAME_SUFFIX)
    ensures userName.Some? ==> (r.Err? <==> DottedPaths.Split(currentPath) == [])
    ensures r.Err? ==> r.error == IndexOutOfBounds
  {
    if userName.None? then Ok(currentPath + DEFAULT_SEMANTIC_INFO_FIELD_NAME_SUFFIX)
    else
      match DottedPaths.ReplaceLast(DottedPaths.Split(currentPath), userName.value)
      case None => Err(IndexOutOfBounds)
      case Some(paths) => Ok(DottedPaths.Join(".", paths))
  }

  /** The user's semantic info field name of a configuration whose name is null or a string. */
  function UserName(fieldConfig: Object): Option<string> {
    if Get(fieldConfig, SEMANTIC_INFO_FIELD_NAME).JStr? then Some(Get(fieldConfig, SEMANTIC_INFO_FIELD_NAME).str) else None
  }

  /** A record built for a value of a field with configuration `fieldConfig`. */
  predicate WellBuilt(info: SemanticFieldInfo, fieldConfig: Object) {
    && Get(fieldConfig, MODEL_ID) == JStr(info.modelId)
    && (Get(fieldConfig, SEMANTIC_INFO_FIELD_NAME).JNull? || Get(fieldConfig, SEMANTIC_INFO_FIELD_NAME).JStr?)
    && SemanticInfoFullPath(info.fullPath, UserName(fieldConfig)) == Ok(info.semanticInfoFullPath)
    && info.chunks == []
  }

  /** The exceptions a configuration can cause: a cast, a missing model id, or an empty split. */
  predicate ConfigError(fieldConfig: Object, pathParts: seq<string>, e: Exception) {
    || (e == ClassCast && (!(Get(fieldConfig, MODEL_ID).JNull? || Get(fieldConfig, MODEL_ID).JStr?)
                           || !(Get(fieldConfig, SEMANTIC_INFO_FIELD_NAME).JNull? || Get(fieldConfig, SEMANTIC_INFO_FIELD_NAME).JStr?)))
    || (e == IllegalArgument(MissingModelIdMessage(pathParts)) && Get(fieldConfig, MODEL_ID).JNull?)
    || (e == IndexOutOfBounds && Get(fieldConfig, SEMANTIC_INFO_FIELD_NAME).JStr?)
  }

  /** A string model id and no user name: nothing in the walk can throw. */
  predicate UsableConfig(fieldConfig: Object) {
    Get(fieldConfig, MODEL_ID).JStr? && Get(fieldConfig, SEMANTIC_INFO_FIELD_NAME).JNull?
  }

  /** The record of one value: the casts of the model id and of the user name, then the info path. */
  function LeafInfo(node: Json, pathParts: seq<string>, fieldConfig: Object, currentPath: string): (r: Result<SemanticFieldInfo, Exception>)
    requires IsLeafValue(node)
    ensures r.Ok? ==> WellBuilt(r.value, fieldConfig) && r.value.fullPath == currentPath && r.value.value == ValueText(node)
    ensures r.Err? ==> ConfigError(fieldConfig, pathParts, r.error)
    ensures UsableConfig(fieldConfig) ==> r.Ok?
    ensures Get(fieldConfig, MODEL_ID).JNull? ==> r == Err(IllegalArgument(MissingModelIdMessage(pathParts)))
    ensures !Get(fieldConfig, MODEL_ID).JNull? && !Get(fieldConfig, MODEL_ID).JStr? ==> r == Err(ClassCast)
  {
    var modelId := Get(fieldConfig, MODEL_ID);
    var userName := Get(fieldConfig, SEMANTIC_INFO_FIELD_NAME);
    if !modelId.JNull? && !modelId.JStr? then Err(ClassCast)
    else if modelId.JNull? then Err(IllegalArgument(MissingModelIdMessage(pathParts)))
    else if !userName.JNull? && !userName.JStr? then Err(ClassCast)
    else
      match SemanticInfoFullPath(currentPath, UserName(fieldConfig))
      case Err(e) => Err(e)
      case Ok(infoPath) => Ok(SemanticFieldInfo(ValueText(node), modelId.str, currentPath, infoPath, []))
  }

  /**
   * `collectSemanticFieldInfo` as a value: the records of the values reached from `node` by the
   * path segments from `level` on, where an array is entered at the same level, in order.
   */
  function NodeInfos(node: Json, pathParts: seq<string>, fieldConfig: Object, level: nat, currentPath: string)
    : (r: Result<seq<SemanticFieldInfo>, Exception>)
    ensures r.Ok? ==> forall k :: 0 <= k < |r.value| ==> WellBuilt(r.value[k], fieldConfig)
    ensures r.Err? ==> ConfigError(fieldConfig, pathParts, r.error)
    ensures UsableConfig(fieldConfig) ==> r.Ok?
    decreases node, 1
  {
    if level > |pathParts| || node.JNull? then Ok([])
    else if node.JMap? then
      // at the end of the path `get(null)` finds nothing, and a missing key is a null node
      if level == |pathParts| || pathParts[level] !in node.fields then Ok([])
      else NodeInfos(node.fields[pathParts[level]], pathParts, fieldConfig, level + 1,
                     DottedPaths.ChildPath(currentPath, pathParts[level]))
    else if node.JList? then ListInfos(node.items, |node.items|, pathParts, fieldConfig, level, currentPath)
    else if level == |pathParts| then
      match LeafInfo(node, pathParts, fieldConfig, currentPath)
      case Err(e) => Err(e)
      case Ok(info) => Ok([info])
    else Ok([])
  }

  /** The records of the first `n` elements of an array at `currentPath`; element `i` is at `currentPath.i`. */
  function ListInfos(items: seq<Json>, n: nat, pathParts: seq<string>, fieldConfig: Object, level: nat, currentPath: string)
    : (r: Result<seq<SemanticFieldInfo>, Exception>)
    requires n <= |items|
    ensures r.Ok? ==> forall k :: 0 <= k < |r.value| ==> WellBuilt(r.value[k], fieldConfig)
    ensures r.Err? ==> ConfigError(fieldConfig, pathParts, r.error)
    ensures UsableConfig(fieldConfig) ==> r.Ok?
    decreases JList(items), 0, n
  {
    if n == 0 then Ok([])
    else
      match ListInfos(items, n - 1, pathParts, fieldConfig, level, currentPath)
      case Err(e) => Err(e)
      case Ok(before) =>
        match NodeInfos(items[n - 1], pathParts, fieldConfig, level, currentPath + "." + DottedPaths.NatToString(n - 1))
        case Err(e) => Err(e)
        case Ok(found) => Ok(before + found)
  }

  /** Nothing is collected off the path: null, past its end, an object at its end, a value before its end. */
  lemma NothingOffThePath(node: Json, pathParts: seq<string>, fieldConfig: Object, level: nat, currentPath: string)
    requires || node.JNull? || level > |pathParts|
             || (node.JMap? && level == |pathParts|)
             || (IsLeafValue(node) && level < |pathParts|)
    ensures NodeInfos(node, pathParts, fieldConfig, level, currentPath) == Ok([])
  {
  }

  /** The value reached from `node` through objects only, by the keys in order. */
  function Lookup(node: Json, keys: seq<string>): Option<Json>
    decreases |keys|
  {
    if |keys| == 0 then Some(node)
    else if node.JMap? && keys[0] in node.fields then Lookup(node.fields[keys[0]], keys[1..])
    else None
  }

  /** The path the walk builds below `path` through the keys: no separator after an empty path. */
  function PathAlong(path: string, keys: seq<string>): string
    decreases |keys|
  {
    if |keys| == 0 then path else PathAlong(DottedPaths.ChildPath(path, keys[0]), keys[1..])
  }

  /** A value that objects lead to along the rest of the path gives exactly its one record. */
  lemma {:induction false} ValueAlongPathGivesOneRecord(node: Json, pathParts: seq<string>, fieldConfig: Object, level: nat, currentPath: string)
    requires level <= |pathParts|
    requires Lookup(node, pathParts[level..]).Some? && IsLeafValue(Lookup(node, pathParts[level..]).value)
    ensures var leaf := Lookup(node, pathParts[level..]).value;
      NodeInfos(node, pathParts, fieldConfig, level, currentPath)
      == match LeafInfo(leaf, pathParts, fieldConfig, PathAlong(currentPath, pathParts[level..]))
         case Err(e) => Err(e)
         case Ok(info) => Ok([info])
    decreases |pathParts| - level
  {
    if level < |pathParts| {
      assert pathParts[level..][1..] == pathParts[level + 1..];
      ValueAlongPathGivesOneRecord(node.fields[pathParts[level]], pathParts, fieldConfig, level + 1,
                                   DottedPaths.ChildPath(currentPath, pathParts[level]));
    }
  }

  /** Below a non-empty path, the walk's path is the keys joined with dots after a separator. */
  lemma {:induction false} PathAlongJoins(path: string, keys: seq<string>)
    requires path != "" && |keys| > 0
    ensures PathAlong(path, keys) == path + "." + DottedPaths.Join(".", keys)
    decreases |keys|
  {
    var next := path + "." + keys[0];
    if |keys| > 1 {
      PathAlongJoins(next, keys[1..]);
      assert next + "." + DottedPaths.Join(".", keys[1..]) == path + "." + (keys[0] + "." + DottedPaths.Join(".", keys[1..]));
    }
  }

  /** From the document root, the walk's path for proper segments is the dotted field path itself. */
  lemma RootPathIsFieldPath(segments: seq<string>)
    requires DottedPaths.WellFormedSegments(segments)
    ensures PathAlong("", segments) == DottedPaths.Join(".", segments)
  {
    if |segments| > 1 {
      PathAlongJoins(segments[0], segments[1..]);
    }
  }

  /**
   * A document whose objects lead to a value at the dotted path of a semantic field gives one
   * record: the value's text, the model id, the field path itself and the info path beside it.
   */
  lemma DocumentValueAtFieldPath(doc: Object, segments: seq<string>, fieldConfig: Object)
    requires DottedPaths.WellFormedSegments(segments)
    requires Lookup(JMap(doc), segments).Some? && IsLeafValue(Lookup(JMap(doc), segments).value)
    requires UsableConfig(fieldConfig)
    ensures var fullPath := DottedPaths.Join(".", segments);
      NodeInfos(JMap(doc), segments, fieldConfig, 0, "")
      == Ok([SemanticFieldInfo(ValueText(Lookup(JMap(doc), segments).value), Get(fieldConfig, MODEL_ID).str,
                               fullPath, fullPath + DEFAULT_SEMANTIC_INFO_FIELD_NAME_SUFFIX, [])])
  {
    assert segments[0..] == segments;
    ValueAlongPathGivesOneRecord(JMap(doc), segments, fieldConfig, 0, "");
    RootPathIsFieldPath(segments);
  }

  /** An array of values at the end of the path gives one record per element, in order, at `path.i`. */
  lemma {:induction false} ArrayOfValuesGivesRecordEach(items: seq<Json>, n: nat, pathParts: seq<string>, fieldConfig: Object, currentPath: string)
    requires n <= |items|
    requires forall i :: 0 <= i < |items| ==> IsLeafValue(items[i])
    requires UsableConfig(fieldConfig)
    ensures var r := ListInfos(items, n, pathParts, fieldConfig, |pathParts|, currentPath);
      && r.Ok? && |r.value| == n
      && forall i :: 0 <= i < n ==>
           && r.value[i].fullPath == currentPath + "." + DottedPaths.NatToString(i)
           && r.value[i].value == ValueText(items[i])
    decreases n
  {
    if n > 0 {
      ArrayOfValuesGivesRecordEach(items, n - 1, pathParts, fieldConfig, currentPath);
      var before := ListInfos(items, n - 1, pathParts, fieldConfig, |pathParts|, currentPath).value;
      var elementPath := currentPath + "." + DottedPaths.NatToString(n - 1);
      var info := LeafInfo(items[n - 1], pathParts, fieldConfig, elementPath).value;
      assert NodeInfos(items[n - 1], pathParts, fieldConfig, |pathParts|, elementPath) == Ok([info]);
      var all := before + [info];
      assert ListInfos(items, n, pathParts, fieldConfig, |pathParts|, currentPath) == Ok(all);
      forall i | 0 <= i < n
        ensures all[i].fullPath == currentPath + "." + DottedPaths.NatToString(i) && all[i].value == ValueText(items[i])
      {
        if i < n - 1 {
          assert all[i] == before[i];
        }
      }
    }
  }

  /** The list of records that `collectSemanticFieldInfo` appends to. */
  class SemanticFieldInfoList {
    var infos: seq<SemanticFieldInfo>

    constructor()
      ensures infos == []
    {
      infos := [];
    }
  }

  /**
   * `collectSemanticFieldInfo`: appends the records of `NodeInfos` to the list; an exception
   * leaves the method (the records appended before it are lost with the list).
   */
  method CollectSemanticFieldInfo(node: Json, pathParts: seq<string>, fieldConfig: Object, level: nat, currentPath: string,
                                  acc: SemanticFieldInfoList)
    returns (r: Result<(), Exception>)
    modifies acc
    ensures r.Ok? <==> NodeInfos(node, pathParts, fieldConfig, level, currentPath).Ok?
    ensures r.Ok? ==> acc.infos == old(acc.infos) + NodeInfos(node, pathParts, fieldConfig, level, currentPath).value
    ensures r.Err? ==> r.error == NodeInfos(node, pathParts, fieldConfig, level, currentPath).error
    decreases node, 1
  {
    if level > |pathParts| || node.JNull? {
      return Ok(());
    }
    if node.JMap? {
      if level == |pathParts| {
        return Ok(());
      }
      var key := pathParts[level];
      if key !in node.fields {
        return Ok(());  // the next node is null
      }
      var nextNode := node.fields[key];
      var newPath := if currentPath == "" then key else currentPath + "." + key;
      r := CollectSemanticFieldInfo(nextNode, pathParts, fieldConfig, level + 1, newPath, acc);
    } else if node.JList? {
      r := CollectListItems(node.items, pathParts, fieldConfig, level, currentPath, acc);
    } else if level == |pathParts| {
      var info := LeafInfo(node, pathParts, fieldConfig, currentPath);
      if info.Err? {
        return Err(info.error);
      }
      acc.infos := acc.infos + [info.value];
      r := Ok(());
    } else {
      r := Ok(());
    }
  }

  /** The array case of `collectSemanticFieldInfo`: every element at the same level, in order. */
  method CollectListItems(listNode: seq<Json>, pathParts: seq<string>, fieldConfig: Object, level: nat, currentPath: string,
                          acc: SemanticFieldInfoList)
    returns (r: Result<(), Exception>)
    modifies acc
    ensures r.Ok? <==> ListInfos(listNode, |listNode|, pathParts, fieldConfig, level, currentPath).Ok?
    ensures r.Ok? ==> acc.infos == old(acc.infos) + ListInfos(listNode, |listNode|, pathParts, fieldConfig, level, currentPath).value
    ensures r.Err? ==> r.error == ListInfos(listNode, |listNode|, pathParts, fieldConfig, level, currentPath).error
    decreases JList(listNode), 0
  {
    var i := 0;
    while i < |listNode|
      invariant 0 <= i <= |listNode|
      invariant ListInfos(listNode, i, pathParts, fieldConfig, level, currentPath).Ok?
      invariant acc.infos == old(acc.infos) + ListInfos(listNode, i, pathParts, fieldConfig, level, currentPath).value
    {
      var indexedPath := currentPath + "." + DottedPaths.NatToString(i);
      ListInfosStep(listNode, i, pathParts, fieldConfig, level, currentPath);
      var r' := CollectSemanticFieldInfo(listNode[i], pathParts, fieldConfig, level, indexedPath, acc);
      if r'.Err? {
        ListErrorStops(listNode, i + 1, |listNode|, pathParts, fieldConfig, level, currentPath);
        return r';
      }
      i := i + 1;
    }
    r := Ok(());
  }

  /** One more element: its records follow those of the elements before it. */
  lemma ListInfosStep(items: seq<Json>, n: nat, pathParts: seq<string>, fieldConfig: Object, level: nat, currentPath: string)
    requires n < |items|
    ensures var before := ListInfos(items, n, pathParts, fieldConfig, level, currentPath);
      var found := NodeInfos(items[n], pathParts, fieldConfig, level, currentPath + "." + DottedPaths.NatToString(n));
      ListInfos(items, n + 1, pathParts, fieldConfig, level, currentPath)
      == if before.Err? then before else if found.Err? then Err(found.error) else Ok(before.value + found.value)
  {
  }

  /** The first failing element fails the whole array. */
  lemma {:induction false} ListErrorStops(items: seq<Json>, n: nat, m: nat, pathParts: seq<string>, fieldConfig: Object, level: nat, currentPath: string)
    requires n <= m <= |items|
    requires ListInfos(items, n, pathParts, fieldConfig, level, currentPath).Err?
    ensures ListInfos(items, m, pathParts, fieldConfig, level, currentPath)
            == ListInfos(items, n, pathParts, fieldConfig, level, currentPath)
    decreases m - n
  {
    if n < m {
      ListErrorStops(items, n, m - 1, pathParts, fieldConfig, level, currentPath);
      ListErrorStep(items, m, pathParts, fieldConfig, level, currentPath);
    }
  }

  lemma ListErrorStep(items: seq<Json>, m: nat, pathParts: seq<string>, fieldConfig: Object, level: nat, currentPath: string)
    requires 0 < m <= |items|
    requires ListInfos(items, m - 1, pathParts, fieldConfig, level, currentPath).Err?
    ensures ListInfos(items, m, pathParts, fieldConfig, level, currentPath)
            == ListInfos(items, m - 1, pathParts, fieldConfig, level, currentPath)
  {
  }

  // ---------------------------------------------------------------------------------------------
  // All semantic values of a document

  /** The records of the document for the semantic field paths in `order`, field after field. */
  function DocumentInfos(doc: Object, pathToFieldConfig: map<string, Object>, order: seq<string>)
    : Result<seq<SemanticFieldInfo>, Exception>
    requires forall i :: 0 <= i < |order| ==> order[i] in pathToFieldConfig
    decreases |order|
  {
    if |order| == 0 then Ok([])
    else
      var last := order[|order| - 1];
      match DocumentInfos(doc, pathToFieldConfig, order[..|order| - 1])
      case Err(e) => Err(e)
      case Ok(before) =>
        match NodeInfos(JMap(doc), DottedPaths.Split(last), pathToFieldConfig[last], 0, "")
        case Err(e) => Err(e)
        case Ok(found) => Ok(before + found)
  }

  /**
   * Every record of the document is well built for the configuration of some semantic field, an
   * exception is one that some configuration can cause, and usable configurations cause none.
   */
  lemma {:induction false} DocumentInfosAreWellBuilt(doc: Object, pathToFieldConfig: map<string, Object>, order: seq<string>)
    requires forall i :: 0 <= i < |order| ==> order[i] in pathToFieldConfig
    ensures var r := DocumentInfos(doc, pathToFieldConfig, order);
      && (r.Ok? ==> forall k :: 0 <= k < |r.value| ==>
            exists p :: p in pathToFieldConfig && WellBuilt(r.value[k], pathToFieldConfig[p]))
      && (r.Err? ==> exists p :: p in pathToFieldConfig && ConfigError(pathToFieldConfig[p], DottedPaths.Split(p), r.error))
      && ((forall p :: p in pathToFieldConfig ==> UsableConfig(pathToFieldConfig[p])) ==> r.Ok?)
    decreases |order|
  {
    if |order| > 0 {
      var last := order[|order| - 1];
      var shorter := order[..|order| - 1];
      DocumentInfosAreWellBuilt(doc, pathToFieldConfig, shorter);
      var before := DocumentInfos(doc, pathToFieldConfig, shorter);
      var found := NodeInfos(JMap(doc), DottedPaths.Split(last), pathToFieldConfig[last], 0, "");
      if before.Ok? && found.Ok? {
        forall k | 0 <= k < |before.value + found.value|
          ensures exists p :: p in pathToFieldConfig && WellBuilt((before.value + found.value)[k], pathToFieldConfig[p])
        {
          if k >= |before.value| {
            assert WellBuilt(found.value[k - |before.value|], pathToFieldConfig[last]);
          }
        }
      }
    }
  }

  /** One more field path: its records follow those of the paths before it. */
  lemma DocumentInfosStep(doc: Object, pathToFieldConfig: map<string, Object>, order: seq<string>, i: nat)
    requires i < |order|
    requires forall j :: 0 <= j < |order| ==> order[j] in pathToFieldConfig
    ensures var before := DocumentInfos(doc, pathToFieldConfig, order[..i]);
      var found := NodeInfos(JMap(doc), DottedPaths.Split(order[i]), pathToFieldConfig[order[i]], 0, "");
      DocumentInfos(doc, pathToFieldConfig, order[..i + 1])
      == if before.Err? then before else if found.Err? then Err(found.error) else Ok(before.value + found.value)
  {
    assert order[..i + 1][..i] == order[..i];
  }

  /** Once a field fails, the later fields are not looked at. */
  lemma {:induction false} DocumentErrorStops(doc: Object, pathToFieldConfig: map<string, Object>, order: seq<string>, n: nat)
    requires n <= |order|
    requires forall i :: 0 <= i < |order| ==> order[i] in pathToFieldConfig
    requires DocumentInfos(doc, pathToFieldConfig, order[..n]).Err?
    ensures DocumentInfos(doc, pathToFieldConfig, order) == DocumentInfos(doc, pathToFieldConfig, order[..n])
    decreases |order|
  {
    if n == |order| {
      assert order[..n] == order;
    } else {
      var init := order[..|order| - 1];
      assert init[..n] == order[..n];
      DocumentErrorStops(doc, pathToFieldConfig, init, n);
      DocumentErrorStep(doc, pathToFieldConfig, order);
    }
  }

  lemma DocumentErrorStep(doc: Object, pathToFieldConfig: map<string, Object>, order: seq<string>)
    requires 0 < |order|
    requires forall i :: 0 <= i < |order| ==> order[i] in pathToFieldConfig
    requires DocumentInfos(doc, pathToFieldConfig, order[..|order| - 1]).Err?
    ensures DocumentInfos(doc, pathToFieldConfig, order) == DocumentInfos(doc, pathToFieldConfig, order[..|order| - 1])
  {
  }

  /**
   * `getSemanticFieldInfo`: the records of every semantic field path of the index, visited in the
   * hash map's order, each path split on dots and walked from the document root.
   */
  method GetSemanticFieldInfo(doc: Object, pathToFieldConfig: map<string, Object>)
    returns (r: Result<seq<SemanticFieldInfo>, Exception>, ghost order: seq<string>)
    ensures Enumerates(order, pathToFieldConfig.Keys)
    ensures r == DocumentInfos(doc, pathToFieldConfig, order)
  {
    var keys := IterationOrder(pathToFieldConfig.Keys);
    order := keys;
    var semanticFieldInfos := new SemanticFieldInfoList();
    var i := 0;
    while i < |keys|
      invariant 0 <= i <= |keys|
      invariant DocumentInfos(doc, pathToFieldConfig, keys[..i]) == Ok(semanticFieldInfos.infos)
    {
      DocumentInfosStep(doc, pathToFieldConfig, keys, i);
      var path := keys[i];
      var collected := CollectSemanticFieldInfo(JMap(doc), DottedPaths.Split(path), pathToFieldConfig[path], 0, "",
                                                semanticFieldInfos);
      if collected.Err? {
        DocumentErrorStops(doc, pathToFieldConfig, keys, i + 1);
        return Err(collected.error), order;
      }
      i := i + 1;
    }
    assert keys[..i] == keys;
    r := Ok(semanticFieldInfos.infos);
  }

  /** An index with no configured semantic field gives no records, whatever the document. */
  lemma NoFieldsNoRecords(doc: Object, pathToFieldConfig: map<string, Object>, order: seq<string>)
    requires pathToFieldConfig == map[]
    requires Enumerates(order, pathToFieldConfig.Keys)
    ensures DocumentInfos(doc, pathToFieldConfig, order) == Ok([])
  {
    EnumerationLength(order, pathToFieldConfig.Keys);
  }

  // ---------------------------------------------------------------------------------------------
  // The document and the processor

  /**
   * An ingest document: the source it is read from, and the `setFieldValue` calls made on it, in
   * order (how a write changes the tree is host code).
   */
  class IngestDocument {
    var sourceAndMetadata: Object
    var writes: seq<(string, Json)>

    constructor(source: Object)
      ensures sourceAndMetadata == source && writes == []
    {
      sourceAndMetadata := source;
      writes := [];
    }

    method SetFieldValue(path: string, value: Json)
      modifies this
      ensures writes == old(writes) + [(path, value)]
      ensures sourceAndMetadata == old(sourceAndMetadata)
    {
      writes := writes + [(path, value)];
    }
  }

  /** What `execute` hands on. */
  datatype ExecuteOutcome =
    | ReturnDocument                                            // handler.accept(ingestDocument, null)
    | Fail(error: Exception)                                    // handler.accept(null, e)
    | FetchModels(modelIds: set<string>, infos: seq<SemanticFieldInfo>)  // fetch each model, then process
    | ProcessRecords(infos: seq<SemanticFieldInfo>)             // the models are known: process now

  /** The processor an index's semantic fields get: their paths and configurations, and the models once fetched. */
  class SemanticFieldProcessor {
    const tag: string
    const description: string
    const batchSize: int
    const pathToFieldConfig: map<string, Object>
    var modelIdToModelMap: Option<map<string, MLModel>>

    constructor(tag: string, description: string, batchSize: int, pathToFieldConfig: map<string, Object>)
      ensures this.tag == tag && this.description == description && this.batchSize == batchSize
      ensures this.pathToFieldConfig == pathToFieldConfig
      ensures modelIdToModelMap == None
    {
      this.tag := tag;
      this.description := description;
      this.batchSize := batchSize;
      this.pathToFieldConfig := pathToFieldConfig;
      modelIdToModelMap := None;
    }

    /**
     * `execute`, from the document as `preprocessIngestDocument` leaves it (its unflattening is
     * not part of this model): a document without semantic values is handed back with no write
     * of its own; otherwise the models
     * are fetched first (every semantic field of the index needs a string model id) unless they
     * are known. Any exception goes to the handler.
     */
    method Execute(doc: IngestDocument) returns (r: ExecuteOutcome, ghost order: seq<string>)
      modifies this
      ensures Enumerates(order, pathToFieldConfig.Keys)
      ensures var found := DocumentInfos(doc.sourceAndMetadata, pathToFieldConfig, order);
        && (found.Err? ==> r == Fail(found.error) && modelIdToModelMap == old(modelIdToModelMap))
        && (found == Ok([]) ==> r == ReturnDocument && modelIdToModelMap == old(modelIdToModelMap))
        && (found.Ok? && found.value != [] && old(modelIdToModelMap).Some? ==>
              r == ProcessRecords(found.value) && modelIdToModelMap == old(modelIdToModelMap))
        && (found.Ok? && found.value != [] && old(modelIdToModelMap).None? && Utils.AllHaveModelIds(pathToFieldConfig) ==>
              r == FetchModels(Utils.ModelIdsOf(pathToFieldConfig, pathToFieldConfig.Keys), found.value)
              && modelIdToModelMap == Some(map[]))
        && (found.Ok? && found.value != [] && old(modelIdToModelMap).None? && !Utils.AllHaveModelIds(pathToFieldConfig) ==>
              r.Fail? && Utils.MissingModelIdError(pathToFieldConfig, r.error) && modelIdToModelMap == None)
    {
      var semanticFieldInfoList;
      semanticFieldInfoList, order := GetSemanticFieldInfo(doc.sourceAndMetadata, pathToFieldConfig);
      if semanticFieldInfoList.Err? {
        return Fail(semanticFieldInfoList.error), order;
      }
      if semanticFieldInfoList.value == [] {
        return ReturnDocument, order;
      }
      if modelIdToModelMap.Some? {
        return ProcessRecords(semanticFieldInfoList.value), order;
      }
      var modelIds := Utils.GetUniqueModelIds(pathToFieldConfig);
      if modelIds.Err? {
        return Fail(modelIds.error), order;
      }
      modelIdToModelMap := Some(map[]);
      r := FetchModels(modelIds.value, semanticFieldInfoList.value);
    }

    /**
     * `process`, up to the inference requests: the records' model descriptions are written, then
     * their chunk lists, and the chunks are grouped by model id, one request per model. Before the
     * models are fetched there is no model map, and the first loop of `setModelInfo` throws.
     */
    method Process(doc: IngestDocument, infos: seq<SemanticFieldInfo>, chunker: (string, ChunkerParameters) -> seq<string>,
                   maxTokenCount: int, defaultMaxChunkLimit: int)
      returns (r: Result<(seq<SemanticFieldInfo>, map<string, set<string>>), Exception>)
      modifies doc
      ensures doc.sourceAndMetadata == old(doc.sourceAndMetadata)
      ensures modelIdToModelMap.None? ==> r == Err(NullPointer) && doc.writes == old(doc.writes)
      ensures modelIdToModelMap.Some? ==>
        var n := |old(doc.writes)|;
        var parameters := ChunkerParameters(maxTokenCount, defaultMaxChunkLimit, |infos|);
        && r.Ok?
        && var chunked, groups := r.value.0, r.value.1;
        && |chunked| == |infos|
        && (forall k :: 0 <= k < |infos| ==> chunked[k] == infos[k].(chunks := chunker(infos[k].value, parameters)))
        && |doc.writes| == n + 2 * |infos|
        && doc.writes[..n] == old(doc.writes)
        && (forall k :: 0 <= k < |infos| ==>
              doc.writes[n + k] == (FullPathForModelInfo(infos[k]), ModelInfoValue(modelIdToModelMap.value, infos[k].modelId)))
        && ChunkListsWritten(doc.writes, n + |infos|, chunked)
        && groups.Keys == ModelIdsOfInfos(chunked)
        && (forall id :: id in groups ==> groups[id] == ChunksOfModel(chunked, id))
        && (forall k :: 0 <= k < |chunked| ==>
              chunked[k].modelId in groups && forall c :: c in chunked[k].chunks ==> c in groups[chunked[k].modelId])
    {
      if modelIdToModelMap.None? {
        return Err(NullPointer);
      }
      ghost var start := doc.writes;
      SetModelInfo(doc, infos, modelIdToModelMap.value);
      ghost var withModels := doc.writes;
      var chunked := Chunk(doc, infos, chunker, maxTokenCount, defaultMaxChunkLimit);
      assert forall j :: 0 <= j < |withModels| ==> doc.writes[j] == withModels[j];
      var groups := GroupChunksByModelId(chunked);
      EveryChunkIsGrouped(chunked, groups);
      r := Ok((chunked, groups));
    }

    /**
     * The answer of one model fetch is kept under its id. The fetches start only after `Execute`
     * has set up the model map, so the null case is defensive: the source never meets it.
     */
    method OnModelResponse(modelId: string, mlModel: MLModel) returns (r: Result<(), Exception>)
      modifies this
      ensures old(modelIdToModelMap).None? ==> r == Err(NullPointer) && modelIdToModelMap == None
      ensures old(modelIdToModelMap).Some? ==>
        r == Ok(()) && modelIdToModelMap == Some(old(modelIdToModelMap).value[modelId := mlModel])
    {
      if modelIdToModelMap.None? {
        return Err(NullPointer);
      }
      modelIdToModelMap := Some(modelIdToModelMap.value[modelId := mlModel]);
      r := Ok(());
    }
  }

  // ---------------------------------------------------------------------------------------------
  // Writing the model description

  /** The description of a model written under each semantic info field: its id, algorithm and name. */
  function ModelInfo(modelId: string, mlModel: MLModel): Object {
    map["id" := JStr(modelId), "type" := JOther(Name(mlModel.algorithm)),
        "name" := if mlModel.name.Some? then JStr(mlModel.name.value) else JNull]
  }

  /** The first loop of `setModelInfo`: one description per fetched model, in any order. */
  method BuildModelInfoMap(modelIdToModelMap: map<string, MLModel>) returns (modelIdToInfoMap: map<string, Object>)
    ensures modelIdToInfoMap.Keys == modelIdToModelMap.Keys
    ensures forall id :: id in modelIdToInfoMap ==> modelIdToInfoMap[id] == ModelInfo(id, modelIdToModelMap[id])
  {
    var keys := IterationOrder(modelIdToModelMap.Keys);
    modelIdToInfoMap := map[];
    var i := 0;
    while i < |keys|
      invariant 0 <= i <= |keys|
      invariant modelIdToInfoMap.Keys == set j | 0 <= j < i :: keys[j]
      invariant forall id :: id in modelIdToInfoMap ==> modelIdToInfoMap[id] == ModelInfo(id, modelIdToModelMap[id])
    {
      var modelId := keys[i];
      var modelInfo := map["id" := JStr(modelId)];
      modelInfo := modelInfo["type" := JOther(Name(modelIdToModelMap[modelId].algorithm))];
      modelInfo := modelInfo["name" := if modelIdToModelMap[modelId].name.Some? then JStr(modelIdToModelMap[modelId].name.value) else JNull];
      modelIdToInfoMap := modelIdToInfoMap[modelId := modelInfo];
      i := i + 1;
    }
  }

  /** What `setModelInfo` writes for a record: its model's description, or null for a model not fetched. */
  function ModelInfoValue(modelIdToModelMap: map<string, MLModel>, modelId: string): Json {
    if modelId in modelIdToModelMap then JMap(ModelInfo(modelId, modelIdToModelMap[modelId])) else JNull
  }

  /** The path `setModelInfo` spells out is the record's model info path. */
  lemma ModelInfoPathIsGetterPath(info: SemanticFieldInfo)
    ensures info.semanticInfoFullPath + ".model" == FullPathForModelInfo(info)
  {
    PathsLieUnderInfoField(info, 0);
    assert (info.semanticInfoFullPath + ".") + "model" == info.semanticInfoFullPath + ".model";
  }

  /** `setModelInfo`: one write per record, in order, at the record's model info path. */
  method SetModelInfo(doc: IngestDocument, infos: seq<SemanticFieldInfo>, modelIdToModelMap: map<string, MLModel>)
    modifies doc
    ensures doc.sourceAndMetadata == old(doc.sourceAndMetadata)
    ensures |doc.writes| == |old(doc.writes)| + |infos|
    ensures doc.writes[..|old(doc.writes)|] == old(doc.writes)
    ensures forall k :: 0 <= k < |infos| ==>
              doc.writes[|old(doc.writes)| + k] == (FullPathForModelInfo(infos[k]), ModelInfoValue(modelIdToModelMap, infos[k].modelId))
  {
    var modelIdToInfoMap := BuildModelInfoMap(modelIdToModelMap);
    ghost var start := doc.writes;
    var k := 0;
    while k < |infos|
      invariant 0 <= k <= |infos|
      invariant doc.sourceAndMetadata == old(doc.sourceAndMetadata)
      invariant |doc.writes| == |start| + k && doc.writes[..|start|] == start
      invariant forall j :: 0 <= j < k ==>
                  doc.writes[|start| + j] == (FullPathForModelInfo(infos[j]), ModelInfoValue(modelIdToModelMap, infos[j].modelId))
    {
      var modelInfoFullPath := infos[k].semanticInfoFullPath + ".model";
      ModelInfoPathIsGetterPath(infos[k]);
      var value := if infos[k].modelId in modelIdToInfoMap then JMap(modelIdToInfoMap[infos[k].modelId]) else JNull;
      assert value == ModelInfoValue(modelIdToModelMap, infos[k].modelId);
      ghost var before := doc.writes;
      doc.SetFieldValue(modelInfoFullPath, value);
      assert forall j :: 0 <= j < |before| ==> doc.writes[j] == before[j];
      k := k + 1;
    }
  }

  // ---------------------------------------------------------------------------------------------
  // Chunking

  /** The runtime parameters of the chunker: the index's token limit, the chunk limit and the number of values. */
  datatype ChunkerParameters = ChunkerParameters(maxTokenCount: int, maxChunkLimit: int, chunkStringCount: int)

  /** The chunk objects written for a value: one `{"text": s}` per chunk, in chunk order. */
  method ChunkObjects(chunkedText: seq<string>) returns (chunks: seq<Json>)
    ensures |chunks| == |chunkedText|
    ensures forall i :: 0 <= i < |chunks| ==> chunks[i] == JMap(map["text" := JStr(chunkedText[i])])
  {
    chunks := [];
    var i := 0;
    while i < |chunkedText|
      invariant 0 <= i <= |chunkedText|
      invariant |chunks| == i
      invariant forall j :: 0 <= j < i ==> chunks[j] == JMap(map["text" := JStr(chunkedText[j])])
    {
      var chunk := map["text" := JStr(chunkedText[i])];
      chunks := chunks + [JMap(chunk)];
      i := i + 1;
    }
  }

  /**
   * From position `from` on, `writes` puts the chunk list of each record, in order, at the record's
   * chunks path: one `{"text": s}` object per chunk.
   */
  predicate ChunkListsWritten(writes: seq<(string, Json)>, from: nat, chunked: seq<SemanticFieldInfo>) {
    && from + |chunked| <= |writes|
    && forall k :: 0 <= k < |chunked| ==>
         && writes[from + k].0 == FullPathForChunks(chunked[k])
         && writes[from + k].1.JList?
         && |writes[from + k].1.items| == |chunked[k].chunks|
         && forall i :: 0 <= i < |chunked[k].chunks| ==>
              writes[from + k].1.items[i] == JMap(map["text" := JStr(chunked[k].chunks[i])])
  }

  /**
   * `chunk`: each value is chunked with the same parameters (the chunker is the host's), the
   * record keeps its chunks, and the chunk list is written at the record's chunks path.
   */
  method Chunk(doc: IngestDocument, infos: seq<SemanticFieldInfo>, chunker: (string, ChunkerParameters) -> seq<string>,
               maxTokenCount: int, defaultMaxChunkLimit: int)
    returns (chunked: seq<SemanticFieldInfo>)
    modifies doc
    ensures var parameters := ChunkerParameters(maxTokenCount, defaultMaxChunkLimit, |infos|);
      && |chunked| == |infos|
      && (forall k :: 0 <= k < |infos| ==> chunked[k] == infos[k].(chunks := chunker(infos[k].value, parameters)))
    ensures doc.sourceAndMetadata == old(doc.sourceAndMetadata)
    ensures |doc.writes| == |old(doc.writes)| + |infos|
    ensures doc.writes[..|old(doc.writes)|] == old(doc.writes)
    ensures ChunkListsWritten(doc.writes, |old(doc.writes)|, chunked)
  {
    var runtimeParameters := ChunkerParameters(maxTokenCount, defaultMaxChunkLimit, |infos|);
    ghost var start := doc.writes;
    chunked := [];
    var k := 0;
    while k < |infos|
      invariant 0 <= k <= |infos|
      invariant |chunked| == k
      invariant forall j :: 0 <= j < k ==> chunked[j] == infos[j].(chunks := chunker(infos[j].value, runtimeParameters))
      invariant start == old(doc.writes)
      invariant doc.sourceAndMetadata == old(doc.sourceAndMetadata)
      invariant |doc.writes| == |start| + k && doc.writes[..|start|] == start
      invariant ChunkListsWritten(doc.writes, |start|, chunked)
    {
      var chunkedText := chunker(infos[k].value, runtimeParameters);
      var fieldInfo := infos[k].(chunks := chunkedText);
      var chunks := ChunkObjects(chunkedText);
      ghost var before := doc.writes;
      doc.SetFieldValue(FullPathForChunks(fieldInfo), JList(chunks));
      assert forall j :: 0 <= j < |before| ==> doc.writes[j] == before[j];
      chunked := chunked + [fieldInfo];
      k := k + 1;
    }
  }

  // ---------------------------------------------------------------------------------------------
  // Inference

  /** The model ids of the records. */
  function ModelIdsOfInfos(infos: seq<SemanticFieldInfo>): set<string>
    decreases |infos|
  {
    if |infos| == 0 then {} else ModelIdsOfInfos(infos[..|infos| - 1]) + {infos[|infos| - 1].modelId}
  }

  /** The chunks of the records that use the model `modelId`, as one set. */
  function ChunksOfModel(infos: seq<SemanticFieldInfo>, modelId: string): set<string>
    decreases |infos|
  {
    if |infos| == 0 then {}
    else
      var last := infos[|infos| - 1];
      ChunksOfModel(infos[..|infos| - 1], modelId)
      + (if last.modelId == modelId then set c | c in last.chunks else {})
  }

  /** A model id belongs to some record, and a chunk is sent to a model iff some record of that model has it. */
  lemma {:induction false} GroupsAreUnions(infos: seq<SemanticFieldInfo>, modelId: string, chunk: string)
    ensures modelId in ModelIdsOfInfos(infos) <==> exists k :: 0 <= k < |infos| && infos[k].modelId == modelId
    ensures chunk in ChunksOfModel(infos, modelId)
            <==> exists k :: 0 <= k < |infos| && infos[k].modelId == modelId && chunk in infos[k].chunks
    decreases |infos|
  {
    if |infos| > 0 {
      var init := infos[..|infos| - 1];
      GroupsAreUnions(init, modelId, chunk);
      assert forall k :: 0 <= k < |init| ==> init[k] == infos[k];
    }
  }

  /** The first loop of `inference`: for each model id, the union of the chunks of its records. */
  method GroupChunksByModelId(infos: seq<SemanticFieldInfo>) returns (modelIdToValuesMap: map<string, set<string>>)
    ensures modelIdToValuesMap.Keys == ModelIdsOfInfos(infos)
    ensures forall id :: id in modelIdToValuesMap ==> modelIdToValuesMap[id] == ChunksOfModel(infos, id)
  {
    modelIdToValuesMap := map[];
    var k := 0;
    while k < |infos|
      invariant 0 <= k <= |infos|
      invariant modelIdToValuesMap.Keys == ModelIdsOfInfos(infos[..k])
      invariant forall id :: id in modelIdToValuesMap ==> modelIdToValuesMap[id] == ChunksOfModel(infos[..k], id)
    {
      assert infos[..k + 1][..k] == infos[..k];
      var modelId := infos[k].modelId;
      if modelId !in modelIdToValuesMap {
        AbsentModelHasNoChunks(infos[..k], modelId);
        modelIdToValuesMap := modelIdToValuesMap[modelId := {}];
      }
      modelIdToValuesMap := modelIdToValuesMap[modelId := modelIdToValuesMap[modelId] + set c | c in infos[k].chunks];
      k := k + 1;
    }
    assert infos[..k] == infos;
  }

  /** Grouped as `inference` groups them, every chunk of every record goes to its record's model. */
  lemma EveryChunkIsGrouped(infos: seq<SemanticFieldInfo>, groups: map<string, set<string>>)
    requires groups.Keys == ModelIdsOfInfos(infos)
    requires forall id :: id in groups ==> groups[id] == ChunksOfModel(infos, id)
    ensures forall k :: 0 <= k < |infos| ==>
              infos[k].modelId in groups && forall c :: c in infos[k].chunks ==> c in groups[infos[k].modelId]
  {
    forall k | 0 <= k < |infos|
      ensures infos[k].modelId in groups && forall c :: c in infos[k].chunks ==> c in groups[infos[k].modelId]
    {
      var id := infos[k].modelId;
      forall c | c in infos[k].chunks
        ensures id in ModelIdsOfInfos(infos) && c in ChunksOfModel(infos, id)
      {
        GroupsAreUnions(infos, id, c);
      }
      GroupsAreUnions(infos, id, "");
    }
  }

  /** A model without records has no chunks. */
  lemma {:induction false} AbsentModelHasNoChunks(infos: seq<SemanticFieldInfo>, modelId: string)
    requires modelId !in ModelIdsOfInfos(infos)
    ensures ChunksOfModel(infos, modelId) == {}
    decreases |infos|
  {
    if |infos| > 0 {
      AbsentModelHasNoChunks(infos[..|infos| - 1], modelId);
    }
  }

  /** The embedding map after the puts for the first `n` values of one model's answer. */
  function PutEmbeddings(modelId: string, values: seq<string>, vectors: seq<Json>, embeddings: map<(string, string), Json>, n: nat)
    : map<(string, string), Json>
    requires n <= |values| && n <= |vectors|
    decreases n
  {
    if n == 0 then embeddings
    else PutEmbeddings(modelId, values, vectors, embeddings, n - 1)[(modelId, values[n - 1]) := vectors[n - 1]]
  }

  /** After the puts, the keys are the old ones and the model's pairs with its values. */
  lemma {:induction false} PutEmbeddingsKeys(modelId: string, values: seq<string>, vectors: seq<Json>,
                                             embeddings: map<(string, string), Json>, n: nat)
    requires n <= |values| && n <= |vectors|
    ensures forall key :: key in PutEmbeddings(modelId, values, vectors, embeddings, n)
              <==> key in embeddings || (key.0 == modelId && key.1 in values[..n])
    decreases n
  {
    if n > 0 {
      PutEmbeddingsKeys(modelId, values, vectors, embeddings, n - 1);
      assert values[..n] == values[..n - 1] + [values[n - 1]];
    }
  }

  /** An entry of another model, or of a text not among the values, is unchanged. */
  lemma {:induction false} PutEmbeddingsKeepsOthers(modelId: string, values: seq<string>, vectors: seq<Json>,
                                                    embeddings: map<(string, string), Json>, n: nat, key: (string, string))
    requires n <= |values| && n <= |vectors|
    requires key in embeddings && (key.0 != modelId || key.1 !in values[..n])
    ensures key in PutEmbeddings(modelId, values, vectors, embeddings, n)
    ensures PutEmbeddings(modelId, values, vectors, embeddings, n)[key] == embeddings[key]
    decreases n
  {
    if n > 0 {
      assert values[..n] == values[..n - 1] + [values[n - 1]];
      PutEmbeddingsKeepsOthers(modelId, values, vectors, embeddings, n - 1, key);
    }
  }

  /** A value carries the vector at its last position among the first `n`. */
  lemma {:induction false} PutEmbeddingsLastPositionWins(modelId: string, values: seq<string>, vectors: seq<Json>,
                                                         embeddings: map<(string, string), Json>, n: nat, i: nat)
    requires n <= |values| && n <= |vectors|
    requires i < n && forall j :: i < j < n ==> values[j] != values[i]
    ensures (modelId, values[i]) in PutEmbeddings(modelId, values, vectors, embeddings, n)
    ensures PutEmbeddings(modelId, values, vectors, embeddings, n)[(modelId, values[i])] == vectors[i]
    decreases n
  {
    if i < n - 1 {
      PutEmbeddingsLastPositionWins(modelId, values, vectors, embeddings, n - 1, i);
    }
  }

  /**
   * The answer of one inference request: the vector at position `i` is put for the value at
   * position `i`; fewer vectors than values is an index error.
   */
  method CollectEmbeddings(modelId: string, values: seq<string>, vectors: seq<Json>, embeddings: map<(string, string), Json>)
    returns (r: Result<map<(string, string), Json>, Exception>)
    ensures r.Err? <==> |vectors| < |values|
    ensures r.Err? ==> r.error == IndexOutOfBounds
    ensures r.Ok? ==> r.value == PutEmbeddings(modelId, values, vectors, embeddings, |values|)
  {
    var modelIdValueToEmbeddingMap := embeddings;
    var i := 0;
    while i < |values|
      invariant 0 <= i <= |values|
      invariant i <= |vectors|
      invariant modelIdValueToEmbeddingMap == PutEmbeddings(modelId, values, vectors, embeddings, i)
    {
      if i >= |vectors| {
        return Err(IndexOutOfBounds);
      }
      modelIdValueToEmbeddingMap := modelIdValueToEmbeddingMap[(modelId, values[i]) := vectors[i]];
      i := i + 1;
    }
    r := Ok(modelIdValueToEmbeddingMap);
  }

  /** With distinct values (they come from a set), every value gets the vector at its own position. */
  lemma DistinctValuesGetTheirVectors(modelId: string, values: seq<string>, vectors: seq<Json>, embeddings: map<(string, string), Json>)
    requires |values| <= |vectors|
    requires forall i, j :: 0 <= i < j < |values| ==> values[i] != values[j]
    ensures forall i :: 0 <= i < |values| ==>
              && (modelId, values[i]) in PutEmbeddings(modelId, values, vectors, embeddings, |values|)
              && PutEmbeddings(modelId, values, vectors, embeddings, |values|)[(modelId, values[i])] == vectors[i]
  {
    forall i | 0 <= i < |values|
      ensures (modelId, values[i]) in PutEmbeddings(modelId, values, vectors, embeddings, |values|)
      ensures PutEmbeddings(modelId, values, vectors, embeddings, |values|)[(modelId, values[i])] == vectors[i]
    {
      PutEmbeddingsLastPositionWins(modelId, values, vectors, embeddings, |values|, i);
    }
  }

  /** `map.get(Pair.of(modelId, chunk))`: null for a chunk without an embedding. */
  function EmbeddingOf(embeddings: map<(string, string), Json>, modelId: string, chunk: string): Json {
    if (modelId, chunk) in embeddings then embeddings[(modelId, chunk)] else JNull
  }

  /** The writes of `setInference` for one record, as the processor spells the paths out. */
  function EmbeddingWrites(info: SemanticFieldInfo, embeddings: map<(string, string), Json>): seq<(string, Json)> {
    seq(|info.chunks|, i requires 0 <= i < |info.chunks| =>
      (info.semanticInfoFullPath + ".chunks." + DottedPaths.IntToString(i) + ".embedding",
       EmbeddingOf(embeddings, info.modelId, info.chunks[i])))
  }

  /** One write per chunk: the chunk at position `i` gets its model's embedding at the getter's path for `i`. */
  lemma EmbeddingWritesAtGetterPaths(info: SemanticFieldInfo, embeddings: map<(string, string), Json>)
    ensures |EmbeddingWrites(info, embeddings)| == |info.chunks|
    ensures forall i :: 0 <= i < |info.chunks| ==>
              EmbeddingWrites(info, embeddings)[i]
              == (FullPathForEmbedding(info, i), EmbeddingOf(embeddings, info.modelId, info.chunks[i]))
  {
    forall i | 0 <= i < |info.chunks|
      ensures EmbeddingWrites(info, embeddings)[i].0 == FullPathForEmbedding(info, i)
    {
      EmbeddingPathParts(info, i);
    }
  }

  /** All writes of `setInference`, record after record. */
  function InferenceWrites(infos: seq<SemanticFieldInfo>, embeddings: map<(string, string), Json>): seq<(string, Json)>
    decreases |infos|
  {
    if |infos| == 0 then []
    else InferenceWrites(infos[..|infos| - 1], embeddings) + EmbeddingWrites(infos[|infos| - 1], embeddings)
  }

  /** The inner loop of `setInference`: every chunk of one record, in order. */
  method SetRecordEmbeddings(doc: IngestDocument, info: SemanticFieldInfo, embeddings: map<(string, string), Json>)
    modifies doc
    ensures doc.sourceAndMetadata == old(doc.sourceAndMetadata)
    ensures doc.writes == old(doc.writes) + EmbeddingWrites(info, embeddings)
  {
    var modelId := info.modelId;
    var chunks := info.chunks;
    var i := 0;
    while i < |chunks|
      invariant 0 <= i <= |chunks|
      invariant doc.sourceAndMetadata == old(doc.sourceAndMetadata)
      invariant doc.writes == old(doc.writes) + EmbeddingWrites(info, embeddings)[..i]
    {
      var chunk := chunks[i];
      var embedding := EmbeddingOf(embeddings, modelId, chunk);
      var embeddingFullPath := info.semanticInfoFullPath + ".chunks." + DottedPaths.IntToString(i) + ".embedding";
      doc.SetFieldValue(embeddingFullPath, embedding);
      assert EmbeddingWrites(info, embeddings)[..i + 1] == EmbeddingWrites(info, embeddings)[..i] + [(embeddingFullPath, embedding)];
      i := i + 1;
    }
    assert EmbeddingWrites(info, embeddings)[..i] == EmbeddingWrites(info, embeddings);
  }

  lemma InferenceWritesStep(infos: seq<SemanticFieldInfo>, k: nat, embeddings: map<(string, string), Json>)
    requires k < |infos|
    ensures InferenceWrites(infos[..k + 1], embeddings) == InferenceWrites(infos[..k], embeddings) + EmbeddingWrites(infos[k], embeddings)
  {
    assert infos[..k + 1][..k] == infos[..k];
  }

  /** `setInference`: for every record and every chunk, in order, the chunk's embedding at its path. */
  method SetInference(doc: IngestDocument, infos: seq<SemanticFieldInfo>, embeddings: map<(string, string), Json>)
    modifies doc
    ensures doc.sourceAndMetadata == old(doc.sourceAndMetadata)
    ensures doc.writes == old(doc.writes) + InferenceWrites(infos, embeddings)
  {
    ghost var start := doc.writes;
    var k := 0;
    while k < |infos|
      invariant 0 <= k <= |infos|
      invariant start == old(doc.writes)
      invariant doc.sourceAndMetadata == old(doc.sourceAndMetadata)
      invariant doc.writes == start + InferenceWrites(infos[..k], embeddings)
    {
      InferenceWritesStep(infos, k, embeddings);
      AppendTwice(start, InferenceWrites(infos[..k], embeddings), EmbeddingWrites(infos[k], embeddings));
      SetRecordEmbeddings(doc, infos[k], embeddings);
      k := k + 1;
    }
    assert infos[..k] == infos;
  }

  /**
   * When every model's answer covers the chunks grouped for it, every chunk of every record is
   * written with its own model's vector for that chunk text, never with null.
   */
  lemma {:induction false} EveryChunkGetsItsEmbedding(infos: seq<SemanticFieldInfo>, embeddings: map<(string, string), Json>)
    requires forall id, c :: id in ModelIdsOfInfos(infos) && c in ChunksOfModel(infos, id) ==> (id, c) in embeddings
    ensures forall k, i :: 0 <= k < |infos| && 0 <= i < |infos[k].chunks| ==>
              && (infos[k].modelId, infos[k].chunks[i]) in embeddings
              && EmbeddingWrites(infos[k], embeddings)[i]
                 == (FullPathForEmbedding(infos[k], i), embeddings[(infos[k].modelId, infos[k].chunks[i])])
  {
    forall k, i | 0 <= k < |infos| && 0 <= i < |infos[k].chunks|
      ensures (infos[k].modelId, infos[k].chunks[i]) in embeddings
    {
      var id, chunk := infos[k].modelId, infos[k].chunks[i];
      GroupsAreUnions(infos, id, chunk);
      assert chunk in infos[k].chunks;
      assert id in ModelIdsOfInfos(infos);
      assert chunk in ChunksOfModel(infos, id);
    }
    forall k | 0 <= k < |infos| {
      EmbeddingWritesAtGetterPaths(infos[k], embeddings);
    }
  }
}

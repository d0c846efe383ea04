/**
 * Placing a generated semantic info field into an index mapping: the walk from the root
 * `properties` map down through the parent object fields, and the insertion at the level of
 * the semantic field. Both mapping rewriters (the mapping transformer and the create-index
 * action filter) use this walk.
 */
module MappingTree {
  import opened Wrappers
  import opened JsonTree
  import opened JavaExceptions
  import opened MappingConstants
  import DottedPaths

  /**
   * One turn of the walk: `(Map) current.get(segment)` and then `(Map) inter.get("properties")`.
   * A missing or null entry is dereferenced (a null `properties` is dereferenced by the next turn
   * or by the final insertion, with no other effect in between); a value that is not a map fails
   * the cast.
   */
  function Step(current: Object, segment: string): (r: Result<Object, Exception>)
    ensures r.Ok? <==> segment in current && current[segment].JMap?
                       && PROPERTIES in current[segment].fields && current[segment].fields[PROPERTIES].JMap?
    ensures r.Ok? ==> r.value == current[segment].fields[PROPERTIES].fields
    ensures r.Err? ==> r.error == NullPointer || r.error == ClassCast
  {
    match Get(current, segment)
    case JNull => Err(NullPointer)
    case JMap(inter) =>
      (match Get(inter, PROPERTIES)
       case JNull => Err(NullPointer)
       case JMap(props) => Ok(props)
       case _ => Err(ClassCast))
    case _ => Err(ClassCast)
  }

  /** The `properties` map reached from `current` through the object fields `parents`, in order. */
  function Descend(current: Object, parents: seq<string>): Result<Object, Exception>
    decreases |parents|
  {
    if |parents| == 0 then Ok(current)
    else
      match Step(current, parents[0])
      case Err(e) => Err(e)
      case Ok(next) => Descend(next, parents[1..])
  }

  /**
   * The mapping after `current.put(key, value)` on the map that `Descend` reaches: every map on
   * the way is rebuilt with only the entry on the way replaced.
   */
  function PutAt(root: Object, parents: seq<string>, key: string, value: Json): Object
    requires Descend(root, parents).Ok?
    decreases |parents|
  {
    if |parents| == 0 then root[key := value]
    else
      var inter := root[parents[0]].fields;
      var props := inter[PROPERTIES].fields;
      root[parents[0] := JMap(inter[PROPERTIES := JMap(PutAt(props, parents[1..], key, value))])]
  }

  /** After the insertion the walk reaches the old map with just `key` set to `value`. */
  lemma {:induction false} PutAtReadsBack(root: Object, parents: seq<string>, key: string, value: Json)
    requires Descend(root, parents).Ok?
    ensures Descend(PutAt(root, parents, key, value), parents) == Ok(Descend(root, parents).value[key := value])
    decreases |parents|
  {
    if |parents| > 0 {
      var next := Step(root, parents[0]).value;
      PutAtReadsBack(next, parents[1..], key, value);
      var r := PutAt(root, parents, key, value);
      assert Step(r, parents[0]) == Ok(PutAt(next, parents[1..], key, value));
    }
  }

  /**
   * Nothing else changes: the other top-level entries are kept and, below the first parent, the
   * parent field keeps all of its settings other than `properties`.
   */
  lemma PutAtKeepsOtherEntries(root: Object, parents: seq<string>, key: string, value: Json)
    requires Descend(root, parents).Ok?
    ensures var r := PutAt(root, parents, key, value);
      && r.Keys == root.Keys + (if |parents| == 0 then {key} else {})
      && (forall k :: k in root && k != (if |parents| == 0 then key else parents[0]) ==> r[k] == root[k])
      && (|parents| > 0 ==>
            && r[parents[0]].JMap?
            && r[parents[0]].fields.Keys == root[parents[0]].fields.Keys
            && forall k :: k in root[parents[0]].fields && k != PROPERTIES ==> r[parents[0]].fields[k] == root[parents[0]].fields[k])
  {
  }

  /** The loop of `setSemanticInfoField` that walks to the `properties` map holding the semantic field. */
  method WalkToParent(mappings: Object, parents: seq<string>) returns (r: Result<Object, Exception>)
    ensures r == Descend(mappings, parents)
  {
    var current := mappings;
    var i := 0;
    while i < |parents|
      invariant 0 <= i <= |parents|
      invariant Descend(mappings, parents) == Descend(current, parents[i..])
    {
      assert parents[i..][1..] == parents[i + 1..];
      var interFieldConfig := Get(current, parents[i]);
      if interFieldConfig.JNull? {
        return Err(NullPointer);
      } else if !interFieldConfig.JMap? {
        return Err(ClassCast);
      }
      var properties := Get(interFieldConfig.fields, PROPERTIES);
      if properties.JNull? {
        return Err(NullPointer);
      } else if !properties.JMap? {
        return Err(ClassCast);
      }
      current := properties.fields;
      i := i + 1;
    }
    r := Ok(current);
  }

  /** Where a semantic info field goes: the parent object fields to walk and the key to insert. */
  datatype InfoTarget = InfoTarget(parents: seq<string>, name: string)

  /**
   * `paths = fullPath.split("\\.")`, the name (the user's name, or the last segment followed by
   * "_semantic_info") and `paths[paths.length - 1] = name`; an empty split has no last element.
   */
  function InfoFieldTarget(fullPath: string, userName: Option<string>): (r: Result<InfoTarget, Exception>)
    ensures r.Err? <==> DottedPaths.Split(fullPath) == []
    ensures r.Err? ==> r.error == IndexOutOfBounds
    ensures r.Ok? ==> |r.value.parents| + 1 == |DottedPaths.Split(fullPath)|
                      && r.value.parents == DottedPaths.Split(fullPath)[..|r.value.parents|]
  {
    var paths := DottedPaths.Split(fullPath);
    if |paths| == 0 then Err(IndexOutOfBounds)
    else
      var name := if userName.Some? then userName.value else paths[|paths| - 1] + DEFAULT_SEMANTIC_INFO_FIELD_NAME_SUFFIX;
      match DottedPaths.ReplaceLast(paths, name)
      case None => Err(IndexOutOfBounds)
      case Some(renamed) => Ok(InfoTarget(renamed[..|renamed| - 1], name))
  }

  /**
   * For the path of a semantic field made of proper segments, the info field is a sibling of the
   * semantic field: same parents, and the default name is the field's own name plus "_semantic_info".
   */
  lemma InfoFieldBesideSemanticField(segments: seq<string>, userName: Option<string>)
    requires DottedPaths.WellFormedSegments(segments)
    ensures InfoFieldTarget(DottedPaths.Join(".", segments), userName)
            == Ok(InfoTarget(segments[..|segments| - 1],
                  if userName.Some? then userName.value
                  else segments[|segments| - 1] + DEFAULT_SEMANTIC_INFO_FIELD_NAME_SUFFIX))
  {
    DottedPaths.SplitJoin(segments);
    var name := if userName.Some? then userName.value else segments[|segments| - 1] + DEFAULT_SEMANTIC_INFO_FIELD_NAME_SUFFIX;
    var renamed := segments[..|segments| - 1] + [name];
    assert renamed[..|renamed| - 1] == segments[..|segments| - 1];
  }
}

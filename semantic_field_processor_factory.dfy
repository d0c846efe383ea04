/**
 * The factory of the system ingest processor for semantic fields: it gathers the index's
 * template mappings and its own mapping, collects every semantic field they declare into one
 * path-to-configuration map, and creates a processor only when there is one.
 */
module SemanticFieldProcessorFactory {
  import opened Wrappers
  import opened JsonTree
  import opened JavaExceptions
  import Utils = SemanticMappingUtils
  import SemanticFieldProcessing

  const PROCESSOR_FACTORY_TYPE: string := "index_based_ingest_processor_semantic_field"

  /** Every processor the factory creates sends documents in batches of ten. */
  const DEFAULT_BATCH_SIZE: int := 10

  const DEFAULT_DESCRIPTION: string :=
    "This is an index based ingest processor for semantic fields. It will do text chunking and "
    + "embedding generation for semantic fields."

  /**
   * The mappings list: the template mappings' elements when they are a list, then the index
   * mapping when it is a map; anything else contributes nothing.
   */
  function GatheredMappings(mappingFromIndex: Json, mappingFromTemplates: Json): (r: seq<Json>)
    ensures var n := if mappingFromTemplates.JList? then |mappingFromTemplates.items| else 0;
      && |r| == n + (if mappingFromIndex.JMap? then 1 else 0)
      && (mappingFromTemplates.JList? ==> r[..n] == mappingFromTemplates.items)
      && (mappingFromIndex.JMap? ==> r[n] == mappingFromIndex)
  {
    (if mappingFromTemplates.JList? then mappingFromTemplates.items else [])
    + (if mappingFromIndex.JMap? then [mappingFromIndex] else [])
  }

  /**
   * A gathered element the loop can use: it passes the cast to a map (null passes it too), and
   * the properties `getProperties` finds in it, if any, can be walked.
   */
  predicate Usable(mapping: Json, getProperties: Json -> Option<Object>) {
    && (mapping.JMap? || mapping.JNull?)
    && (getProperties(mapping).Some? ==> Utils.Traversable(JMap(getProperties(mapping).value)))
  }

  /** The semantic fields one gathered mapping contributes; a mapping without properties contributes none. */
  function MappingEntries(mapping: Json, getProperties: Json -> Option<Object>): set<Utils.SemanticEntry> {
    if (mapping.JMap? || mapping.JNull?) && getProperties(mapping).Some? then
      Utils.SemanticEntries(JMap(getProperties(mapping).value), "")
    else {}
  }

  /** The semantic fields of all the given mappings. */
  function AllEntries(mappings: seq<Json>, getProperties: Json -> Option<Object>): set<Utils.SemanticEntry>
    decreases |mappings|
  {
    if |mappings| == 0 then {}
    else AllEntries(mappings[..|mappings| - 1], getProperties) + MappingEntries(mappings[|mappings| - 1], getProperties)
  }

  /** A semantic field of one of the mappings is among the semantic fields of all of them. */
  lemma {:induction false} AllEntriesHoldEachMapping(mappings: seq<Json>, getProperties: Json -> Option<Object>, i: int)
    requires 0 <= i < |mappings|
    ensures MappingEntries(mappings[i], getProperties) <= AllEntries(mappings, getProperties)
    decreases |mappings|
  {
    if i < |mappings| - 1 {
      var prefix := mappings[..|mappings| - 1];
      AllEntriesHoldEachMapping(prefix, getProperties, i);
      assert prefix[i] == mappings[i];
    }
  }

  /** ... and every semantic field of all of them comes from one of them. */
  lemma {:induction false} AllEntriesComeFromAMapping(mappings: seq<Json>, getProperties: Json -> Option<Object>, e: Utils.SemanticEntry)
    requires e in AllEntries(mappings, getProperties)
    ensures exists i :: 0 <= i < |mappings| && e in MappingEntries(mappings[i], getProperties)
    decreases |mappings|
  {
    var last := |mappings| - 1;
    if e !in MappingEntries(mappings[last], getProperties) {
      var prefix := mappings[..last];
      AllEntriesComeFromAMapping(prefix, getProperties, e);
      var i :| 0 <= i < |prefix| && e in MappingEntries(prefix[i], getProperties);
      assert prefix[i] == mappings[i];
    }
  }

  /** Mappings that declare no semantic field (or no properties) never change the collected fields. */
  lemma {:induction false} MappingsWithoutSemanticFieldsAddNothing(mappings: seq<Json>, extra: Json, getProperties: Json -> Option<Object>)
    requires MappingEntries(extra, getProperties) == {}
    ensures AllEntries(mappings + [extra], getProperties) == AllEntries(mappings, getProperties)
  {
    assert (mappings + [extra])[..|mappings|] == mappings;
  }

  /** The paths that some of `entries` are at. */
  function PathsOf(entries: set<Utils.SemanticEntry>): set<string> {
    set e | e in entries :: e.0
  }

  /**
   * The semantic fields that survive the puts of all the mappings, in order: a later mapping that
   * declares a path replaces what the earlier ones put there.
   */
  function Winners(mappings: seq<Json>, getProperties: Json -> Option<Object>): set<Utils.SemanticEntry>
    decreases |mappings|
  {
    if |mappings| == 0 then {}
    else
      var last := MappingEntries(mappings[|mappings| - 1], getProperties);
      (set e | e in Winners(mappings[..|mappings| - 1], getProperties) && e.0 !in PathsOf(last)) + last
  }

  /**
   * A surviving field comes from the last mapping that declares its path: it is a semantic field of
   * mapping `i`, and no later mapping declares that path.
   */
  lemma {:induction false} WinnersComeFromLastDeclaring(mappings: seq<Json>, getProperties: Json -> Option<Object>, e: Utils.SemanticEntry)
    returns (i: nat)
    requires e in Winners(mappings, getProperties)
    ensures i < |mappings| && e in MappingEntries(mappings[i], getProperties)
    ensures forall j :: i < j < |mappings| ==> e.0 !in PathsOf(MappingEntries(mappings[j], getProperties))
    decreases |mappings|
  {
    var last := |mappings| - 1;
    if e in MappingEntries(mappings[last], getProperties) {
      i := last;
    } else {
      var prefix := mappings[..last];
      i := WinnersComeFromLastDeclaring(prefix, getProperties, e);
      assert prefix[i] == mappings[i];
      forall j | i < j < |mappings|
        ensures e.0 !in PathsOf(MappingEntries(mappings[j], getProperties))
      {
        if j < last {
          assert prefix[j] == mappings[j];
        }
      }
    }
  }

  /** The last mapping's semantic fields all survive. */
  lemma LastMappingWins(mappings: seq<Json>, getProperties: Json -> Option<Object>)
    requires |mappings| > 0
    ensures MappingEntries(mappings[|mappings| - 1], getProperties) <= Winners(mappings, getProperties)
  {
  }

  /** Adding one more mapping to the gathered ones, as the loop does. */
  lemma WinnersSnoc(mappings: seq<Json>, getProperties: Json -> Option<Object>, i: int)
    requires 0 <= i < |mappings|
    ensures var last := MappingEntries(mappings[i], getProperties);
      Winners(mappings[..i + 1], getProperties)
      == (set e | e in Winners(mappings[..i], getProperties) && e.0 !in PathsOf(last)) + last
  {
    assert mappings[..i + 1][..i] == mappings[..i];
  }

  /** The gathered elements, in order: the first failed cast or walk stops the loop of `newProcessor`. */
  predicate AllUsable(mappings: seq<Json>, getProperties: Json -> Option<Object>) {
    forall i :: 0 <= i < |mappings| ==> Usable(mappings[i], getProperties)
  }

  /** Adding one more mapping adds its semantic fields. */
  lemma AllEntriesSnoc(mappings: seq<Json>, getProperties: Json -> Option<Object>, i: int)
    requires 0 <= i < |mappings|
    ensures AllEntries(mappings[..i + 1], getProperties)
            == AllEntries(mappings[..i], getProperties) + MappingEntries(mappings[i], getProperties)
  {
    assert mappings[..i + 1][..i] == mappings[..i];
  }

  /** Every surviving field is a semantic field of some mapping. */
  lemma {:induction false} WinnersAreEntries(mappings: seq<Json>, getProperties: Json -> Option<Object>)
    ensures Winners(mappings, getProperties) <= AllEntries(mappings, getProperties)
    decreases |mappings|
  {
    if |mappings| > 0 {
      WinnersAreEntries(mappings[..|mappings| - 1], getProperties);
    }
  }

  /**
   * When the entries hold only survivors and reach every declared path, a path the last mapping
   * declares holds that mapping's configuration.
   */
  lemma IndexMappingWins(mappings: seq<Json>, getProperties: Json -> Option<Object>, entries: map<string, Object>)
    requires |mappings| > 0
    requires forall p :: p in entries ==> (p, entries[p]) in Winners(mappings, getProperties)
    requires forall e :: e in AllEntries(mappings, getProperties) ==> e.0 in entries
    ensures var last := MappingEntries(mappings[|mappings| - 1], getProperties);
      forall e :: e in last ==> e.0 in entries && (e.0, entries[e.0]) in last
  {
    var last := MappingEntries(mappings[|mappings| - 1], getProperties);
    forall e | e in last
      ensures e.0 in entries && (e.0, entries[e.0]) in last
    {
      AllEntriesHoldEachMapping(mappings, getProperties, |mappings| - 1);
      var w := (e.0, entries[e.0]);
      var i := WinnersComeFromLastDeclaring(mappings, getProperties, w);
      if i < |mappings| - 1 {
        assert e.0 in PathsOf(last);
      }
    }
  }

  /**
   * The loop of `newProcessor`: the semantic fields of every mapping, skipping those without
   * properties, go into one accumulator, started empty.
   */
  method CollectMappings(mappings: seq<Json>, getProperties: Json -> Option<Object>, acc: Utils.SemanticFieldPathToConfigMap)
    returns (r: Result<(), Exception>)
    requires acc.entries == map[]
    modifies acc
    ensures r.Ok? <==> AllUsable(mappings, getProperties)
    ensures r.Err? ==> r.error == ClassCast || r.error == NullPointer
    ensures r.Ok? ==> forall p :: p in acc.entries ==> (p, acc.entries[p]) in Winners(mappings, getProperties)
    ensures r.Ok? ==> forall e :: e in AllEntries(mappings, getProperties) ==> e.0 in acc.entries
  {
    var i := 0;
    while i < |mappings|
      invariant 0 <= i <= |mappings|
      invariant forall j :: 0 <= j < i ==> Usable(mappings[j], getProperties)
      invariant forall p :: p in acc.entries ==> (p, acc.entries[p]) in Winners(mappings[..i], getProperties)
      invariant forall e :: e in AllEntries(mappings[..i], getProperties) ==> e.0 in acc.entries
    {
      AllEntriesSnoc(mappings, getProperties, i);
      WinnersSnoc(mappings, getProperties, i);
      var mapping := mappings[i];
      if !(mapping.JMap? || mapping.JNull?) {
        assert !Usable(mappings[i], getProperties);
        return Err(ClassCast);
      }
      var properties := getProperties(mapping);
      if properties.Some? {
        ghost var before := acc.entries;
        ghost var found := MappingEntries(mapping, getProperties);
        var collected := Utils.CollectSemanticField(properties.value, "", acc);
        if collected.Err? {
          assert !Usable(mappings[i], getProperties);
          return Err(collected.error);
        }
        forall p | p in acc.entries
          ensures (p, acc.entries[p]) in Winners(mappings[..i + 1], getProperties)
        {
          if p in PathsOf(found) {
            var e :| e in found && e.0 == p;
          }
        }
      }
      i := i + 1;
    }
    assert mappings[..i] == mappings;
    r := Ok(());
  }

  /**
   * What the collection loop leaves: every surviving field at its path, and every declared path
   * reached.
   */
  predicate CollectedFields(entries: map<string, Object>, mappings: seq<Json>, getProperties: Json -> Option<Object>) {
    && (forall p :: p in entries ==> (p, entries[p]) in Winners(mappings, getProperties))
    && (forall e :: e in AllEntries(mappings, getProperties) ==> e.0 in entries)
  }

  /**
   * For the gathered mappings, the collected fields are semantic fields of the mappings, there
   * are none exactly when no mapping declares one, and the index mapping, which comes last,
   * wins every path it declares.
   */
  lemma GatheredFieldsWin(mappingFromIndex: Json, mappingFromTemplates: Json, getProperties: Json -> Option<Object>,
                          entries: map<string, Object>)
    requires CollectedFields(entries, GatheredMappings(mappingFromIndex, mappingFromTemplates), getProperties)
    ensures var all := AllEntries(GatheredMappings(mappingFromIndex, mappingFromTemplates), getProperties);
      && (forall p :: p in entries ==> (p, entries[p]) in all)
      && (|entries| == 0 <==> all == {})
    ensures mappingFromIndex.JMap? ==>
              forall e :: e in MappingEntries(mappingFromIndex, getProperties)
                ==> e.0 in entries && (e.0, entries[e.0]) in MappingEntries(mappingFromIndex, getProperties)
  {
    var mappings := GatheredMappings(mappingFromIndex, mappingFromTemplates);
    WinnersAreEntries(mappings, getProperties);
    if |entries| > 0 {
      var p :| p in entries;
      assert (p, entries[p]) in AllEntries(mappings, getProperties);
    }
    if mappingFromIndex.JMap? {
      IndexMappingWins(mappings, getProperties, entries);
    }
  }

  /**
   * `newProcessor`. `mappingFromIndex` and `mappingFromTemplates` are what the configuration holds
   * under the index-mappings and index-template-mappings keys, `description` is null when absent,
   * and `getProperties` stands for the helper that finds a mapping's properties.
   * No mappings, or no semantic field in them, gives no processor; a mapping element that is not a
   * map, or properties the walk cannot descend, make the factory throw; otherwise the processor
   * gets the collected fields, the given or default description and a batch size of ten.
   */
  method NewProcessor(tag: string, description: Option<string>, mappingFromIndex: Json, mappingFromTemplates: Json,
                      getProperties: Json -> Option<Object>)
    returns (r: Result<Option<SemanticFieldProcessing.SemanticFieldProcessor>, Exception>)
    ensures var mappings := GatheredMappings(mappingFromIndex, mappingFromTemplates);
      && (|mappings| == 0 ==> r == Ok(None))
      && (r.Err? <==> |mappings| > 0 && !AllUsable(mappings, getProperties))
      && (r.Err? ==> r.error == ClassCast || r.error == NullPointer)
      && (r.Ok? ==> (r.value.None? <==> AllEntries(mappings, getProperties) == {}))
    ensures r.Ok? && r.value.Some? ==>
              var processor := r.value.value;
              var all := AllEntries(GatheredMappings(mappingFromIndex, mappingFromTemplates), getProperties);
              && fresh(processor)
              && processor.tag == tag
              && processor.description == (if description.Some? then description.value else DEFAULT_DESCRIPTION)
              && processor.batchSize == DEFAULT_BATCH_SIZE
              && processor.modelIdToModelMap.None?
              && CollectedFields(processor.pathToFieldConfig, GatheredMappings(mappingFromIndex, mappingFromTemplates), getProperties)
              && (forall p :: p in processor.pathToFieldConfig ==> (p, processor.pathToFieldConfig[p]) in all)
              && (mappingFromIndex.JMap? ==>
                    forall e :: e in MappingEntries(mappingFromIndex, getProperties)
                      ==> e.0 in processor.pathToFieldConfig
                          && (e.0, processor.pathToFieldConfig[e.0]) in MappingEntries(mappingFromIndex, getProperties))
  {
    var mappings: seq<Json> := [];
    if mappingFromTemplates.JList? {
      mappings := mappings + mappingFromTemplates.items;
    }
    if mappingFromIndex.JMap? {
      mappings := mappings + [mappingFromIndex];
    }
    assert mappings == GatheredMappings(mappingFromIndex, mappingFromTemplates);

    if |mappings| == 0 {
      return Ok(None);
    }

    var processorDescription := if description.Some? then description.value else DEFAULT_DESCRIPTION;

    var semanticFieldPathToConfigMap := new Utils.SemanticFieldPathToConfigMap();
    var collected := CollectMappings(mappings, getProperties, semanticFieldPathToConfigMap);
    if collected.Err? {
      return Err(collected.error);
    }

    if |semanticFieldPathToConfigMap.entries| == 0 {
      GatheredFieldsWin(mappingFromIndex, mappingFromTemplates, getProperties, semanticFieldPathToConfigMap.entries);
      return Ok(None);
    }
    GatheredFieldsWin(mappingFromIndex, mappingFromTemplates, getProperties, semanticFieldPathToConfigMap.entries);

    var processor := new SemanticFieldProcessing.SemanticFieldProcessor(
      tag, processorDescription, DEFAULT_BATCH_SIZE, semanticFieldPathToConfigMap.entries);
    r := Ok(Some(processor));
  }
}

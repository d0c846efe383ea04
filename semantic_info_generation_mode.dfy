/**
 * The `semantic_info_generation_mode` setting of a semantic field: whether the
 * ingest side generates the semantic info (chunks and embeddings) for it.
 */
module SemanticInfoGenerationMode {
  import opened Wrappers
  import DottedPaths

  datatype Mode = Always | Disabled

  /** The name each constant is declared with. */
  function Name(m: Mode): string {
    match m
    case Always => "always"
    case Disabled => "disabled"
  }

  /** `values()`, in declaration order. */
  const Values: seq<Mode> := [Always, Disabled]

  function Names(ms: seq<Mode>): (r: seq<string>)
    ensures |r| == |ms|
    ensures forall i :: 0 <= i < |ms| ==> r[i] == Name(ms[i])
  {
    if |ms| == 0 then [] else [Name(ms[0])] + Names(ms[1..])
  }

  /** The search loop of `fromName` over the constants still to visit. */
  function FindByName(ms: seq<Mode>, name: Option<string>): (r: Option<Mode>)
    ensures r.Some? ==> r.value in ms && name == Some(Name(r.value))
    ensures r.None? ==> forall i :: 0 <= i < |ms| ==> name != Some(Name(ms[i]))
  {
    if |ms| == 0 then None
    else if name == Some(Name(ms[0])) then Some(ms[0])
    else FindByName(ms[1..], name)
  }

  /** `fromName(name)`: the constant with that exact name, or null (also for a null name). */
  function FromName(name: Option<string>): (r: Option<Mode>)
    ensures r.Some? ==> name == Some(Name(r.value))
    ensures r.None? ==> forall m: Mode :: name != Some(Name(m))
  {
    assert Values[0] == Always && Values[1] == Disabled;
    FindByName(Values, name)
  }

  /** Names are distinct, so looking a constant up by its own name finds that constant. */
  lemma FromNameOfName(m: Mode)
    ensures FromName(Some(Name(m))) == Some(m)
  {
    var r := FromName(Some(Name(m)));
    assert r.Some?;
  }

  /** The text of `availableValues()` lists exactly the names `fromName` accepts. */
  lemma {:induction false} AvailableNamesAreAccepted(s: string)
    ensures FromName(Some(s)).Some? <==> s in Names(Values)
  {
    assert Names(Values) == ["always", "disabled"];
    if s in Names(Values) {
      if s == "always" {
        FromNameOfName(Always);
      } else {
        FromNameOfName(Disabled);
      }
    }
  }

  /** The comma-terminated names that the loop of `availableValues` appends. */
  function CommaTerminated(names: seq<string>): string {
    if |names| == 0 then "" else names[0] + "," + CommaTerminated(names[1..])
  }

  lemma {:induction false} CommaTerminatedSnoc(names: seq<string>, n: string)
    ensures CommaTerminated(names + [n]) == CommaTerminated(names) + n + ","
  {
    if |names| == 0 {
      assert names + [n] == [n];
    } else {
      assert (names + [n])[1..] == names[1..] + [n];
      CommaTerminatedSnoc(names[1..], n);
    }
  }

  /** Dropping the last comma of the comma-terminated names leaves them joined by commas. */
  lemma {:induction false} DropLastComma(names: seq<string>)
    requires |names| > 0
    ensures var c := CommaTerminated(names);
      |c| > 0 && c[..|c| - 1] == DottedPaths.Join(",", names)
  {
    if |names| > 1 {
      DropLastComma(names[1..]);
      var rest := CommaTerminated(names[1..]);
      assert CommaTerminated(names) == names[0] + "," + rest;
      assert (names[0] + "," + rest)[..|names[0] + "," + rest| - 1] == names[0] + "," + rest[..|rest| - 1];
    }
  }

  /** `availableValues()`: "[", each name followed by ",", the last "," deleted, then "]". */
  method AvailableValues() returns (r: string)
    ensures r == "[" + DottedPaths.Join(",", Names(Values)) + "]"
  {
    var sb := "[";
    var i := 0;
    while i < |Values|
      invariant 0 <= i <= |Values|
      invariant sb == "[" + CommaTerminated(Names(Values[..i]))
    {
      assert Values[..i + 1] == Values[..i] + [Values[i]];
      assert Names(Values[..i + 1]) == Names(Values[..i]) + [Name(Values[i])];
      CommaTerminatedSnoc(Names(Values[..i]), Name(Values[i]));
      sb := sb + Name(Values[i]) + ",";
      i := i + 1;
    }
    assert Values[..i] == Values;
    DropLastComma(Names(Values));
    sb := sb[..|sb| - 1];
    r := sb + "]";
  }
}

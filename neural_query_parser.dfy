/**
 * How a neural query's inference results and per-index field configurations travel
 * between nodes. A stream is the sequence of primitive StreamOutput calls made on it,
 * one token per call; a read of a token of another kind fails the read (on real bytes it
 * would instead misread the bytes and go on out of alignment).
 */
module NeuralQueryParser {
  import opened Wrappers
  import opened NeuralQueryTypes
  import opened JavaCollections

  /** One primitive StreamOutput call, as the matching StreamInput call reads it back. */
  datatype Token =
    | TBoolean(b: bool)                   // writeBoolean / readBoolean
    | TInt(i: int)                        // writeInt: four fixed bytes
    | TVInt(n: int)                       // writeVInt / readVInt: variable length
    | TString(s: string)                  // writeString / readString
    | TFloatArray(v: Vector)              // writeFloatArray / readFloatArray
    | TTokenMap(m: TokenWeights)          // writeMap(m, writeString, writeFloat) / readMap
    | TOptionalBoolean(ob: Option<bool>)  // writeOptionalBoolean / readOptionalBoolean
    | TOptionalString(os: Option<string>) // writeOptionalString / readOptionalString

  /** An output stream: the calls made on it so far. */
  class StreamOutput {
    var tokens: seq<Token>

    constructor()
      ensures tokens == []
    {
      tokens := [];
    }

    method Write(t: Token)
      modifies this
      ensures tokens == old(tokens) + [t]
    {
      tokens := tokens + [t];
    }
  }

  /** An input stream over the tokens some output stream received, read from position `pos`. */
  class StreamInput {
    const tokens: seq<Token>
    var pos: nat

    constructor(ts: seq<Token>)
      ensures tokens == ts && pos == 0
    {
      tokens := ts;
      pos := 0;
    }

    /** The next token, consumed; `None` at the end of the stream. */
    method Read() returns (t: Option<Token>)
      modifies this`pos
      ensures old(pos) < |tokens| ==> t == Some(tokens[old(pos)]) && pos == old(pos) + 1
      ensures old(pos) >= |tokens| ==> t == None && pos == old(pos)
    {
      if pos < |tokens| {
        t := Some(tokens[pos]);
        pos := pos + 1;
      } else {
        t := None;
      }
    }
  }

  /** The token at `p`, if any. */
  function At(ts: seq<Token>, p: nat): Option<Token> {
    if p < |ts| then Some(ts[p]) else None
  }

  /** A decoded value and the position after it, or a failed read. */
  type Decoded<T> = Result<(T, nat), ()>

  /** What a reader method returns: the decoded value without the position. */
  function ValueOf<T>(d: Decoded<T>): Result<T, ()> {
    if d.Ok? then Ok(d.value.0) else Err(())
  }

  // ---------------------------------------------------------------------------------------------
  // Optional query vector

  /** `vectorSupplierStreamOutput`: false for a null supplier or a null value, else true and the array. */
  function EncodeVectorSupplier(s: Option<Supplier<Vector>>): seq<Token> {
    if Available(s) then [TBoolean(true), TFloatArray(Supplied(s))] else [TBoolean(false)]
  }

  /** `vectorSupplierStreamInput`. */
  function DecodeVectorSupplier(ts: seq<Token>, p: nat): Decoded<Option<Supplier<Vector>>> {
    match At(ts, p)
    case Some(TBoolean(false)) => Ok((None, p + 1))
    case Some(TBoolean(true)) =>
      (match At(ts, p + 1)
       case Some(TFloatArray(v)) => Ok((Some(Supplier(Some(v))), p + 2))
       case _ => Err(()))
    case _ => Err(())
  }

  /** The vector reaches the other node when it is available; otherwise the other node sees null. */
  lemma VectorSupplierRoundTrip(s: Option<Supplier<Vector>>, pre: seq<Token>, rest: seq<Token>)
    ensures DecodeVectorSupplier(pre + EncodeVectorSupplier(s) + rest, |pre|)
            == Ok((if Available(s) then s else None, |pre| + |EncodeVectorSupplier(s)|))
  {
    var ts := pre + EncodeVectorSupplier(s) + rest;
    assert ts[|pre|] == EncodeVectorSupplier(s)[0];
    if Available(s) {
      assert ts[|pre| + 1] == TFloatArray(Supplied(s));
    }
  }

  method VectorSupplierStreamOutput(out: StreamOutput, s: Option<Supplier<Vector>>)
    modifies out
    ensures out.tokens == old(out.tokens) + EncodeVectorSupplier(s)
  {
    if s.None? || s.value.get.None? {
      out.Write(TBoolean(false));
    } else {
      out.Write(TBoolean(true));
      out.Write(TFloatArray(s.value.get.value));
    }
  }

  method VectorSupplierStreamInput(input: StreamInput) returns (r: Result<Option<Supplier<Vector>>, ()>)
    modifies input`pos
    ensures r == ValueOf(DecodeVectorSupplier(input.tokens, old(input.pos)))
    ensures r.Ok? ==> input.pos == DecodeVectorSupplier(input.tokens, old(input.pos)).value.1
  {
    var t := input.Read();
    if t == Some(TBoolean(false)) {
      r := Ok(None);
    } else if t == Some(TBoolean(true)) {
      var a := input.Read();
      if a.Some? && a.value.TFloatArray? {
        r := Ok(Some(Supplier(Some(a.value.v))));
      } else {
        r := Err(());
      }
    } else {
      r := Err(());
    }
  }

  // ---------------------------------------------------------------------------------------------
  // Optional sparse query tokens

  /** `queryTokensMapSupplierStreamOutput`: false for a null supplier or value, else true and the map. */
  function EncodeQueryTokensSupplier(s: Option<Supplier<TokenWeights>>): seq<Token> {
    if Available(s) then [TBoolean(true), TTokenMap(Supplied(s))] else [TBoolean(false)]
  }

  /** `queryTokensMapSupplierStreamInput`. */
  function DecodeQueryTokensSupplier(ts: seq<Token>, p: nat): Decoded<Option<Supplier<TokenWeights>>> {
    match At(ts, p)
    case Some(TBoolean(true)) =>
      (match At(ts, p + 1)
       case Some(TTokenMap(m)) => Ok((Some(Supplier(Some(m))), p + 2))
       case _ => Err(()))
    case Some(TBoolean(false)) => Ok((None, p + 1))
    case _ => Err(())
  }

  /** The token map reaches the other node when it is available; otherwise the other node sees null. */
  lemma QueryTokensSupplierRoundTrip(s: Option<Supplier<TokenWeights>>, pre: seq<Token>, rest: seq<Token>)
    ensures DecodeQueryTokensSupplier(pre + EncodeQueryTokensSupplier(s) + rest, |pre|)
            == Ok((if Available(s) then s else None, |pre| + |EncodeQueryTokensSupplier(s)|))
  {
    var ts := pre + EncodeQueryTokensSupplier(s) + rest;
    assert ts[|pre|] == EncodeQueryTokensSupplier(s)[0];
    if Available(s) {
      assert ts[|pre| + 1] == TTokenMap(Supplied(s));
    }
  }

  method QueryTokensMapSupplierStreamOutput(out: StreamOutput, s: Option<Supplier<TokenWeights>>)
    modifies out
    ensures out.tokens == old(out.tokens) + EncodeQueryTokensSupplier(s)
  {
    if s.None? || s.value.get.None? {
      out.Write(TBoolean(false));
    } else {
      out.Write(TBoolean(true));
      out.Write(TTokenMap(s.value.get.value));
    }
  }

  method QueryTokensMapSupplierStreamInput(input: StreamInput) returns (r: Result<Option<Supplier<TokenWeights>>, ()>)
    modifies input`pos
    ensures r == ValueOf(DecodeQueryTokensSupplier(input.tokens, old(input.pos)))
    ensures r.Ok? ==> input.pos == DecodeQueryTokensSupplier(input.tokens, old(input.pos)).value.1
  {
    var t := input.Read();
    if t == Some(TBoolean(true)) {
      var m := input.Read();
      if m.Some? && m.value.TTokenMap? {
        r := Ok(Some(Supplier(Some(m.value.m))));
      } else {
        r := Err(());
      }
    } else if t == Some(TBoolean(false)) {
      r := Ok(None);
    } else {
      r := Err(());
    }
  }

  // ---------------------------------------------------------------------------------------------
  // Maps keyed by model id or index name

  /** Every supplier of the map is non-null with a value (`availableToWrite`). */
  predicate AllAvailable<T>(m: map<string, Option<Supplier<T>>>) {
    forall key :: key in m ==> Available(m[key])
  }

  /** The entries of `m` whose keys occur in `order`. */
  function Restrict<V>(m: map<string, V>, order: seq<string>): map<string, V> {
    map key | key in m && key in order :: m[key]
  }

  lemma RestrictToEnumeration<V>(m: map<string, V>, order: seq<string>)
    requires Enumerates(order, m.Keys)
    ensures Restrict(m, order) == m
  {
  }

  /** Reading the first key of a duplicate-free order, then the rest, collects the same entries. */
  lemma RestrictCons<V>(m: map<string, V>, order: seq<string>, acc: map<string, V>)
    requires |order| > 0 && order[0] in m
    requires forall j :: 0 < j < |order| ==> order[j] != order[0]
    ensures acc[order[0] := m[order[0]]] + Restrict(m, order[1..]) == acc + Restrict(m, order)
  {
    var key := order[0];
    forall k | k in order
      ensures k == key || k in order[1..]
    {
      var j :| 0 <= j < |order| && order[j] == k;
      if j > 0 {
        assert order[1..][j - 1] == k;
      }
    }
    assert key !in order[1..];
  }

  /** An entry written between `pre` and the entries after it: where its tokens land, and the regrouping. */
  lemma EntryAt<T>(pre: seq<T>, entry: seq<T>, more: seq<T>, rest: seq<T>)
    ensures pre + (entry + more) + rest == (pre + entry) + more + rest
    ensures forall k :: 0 <= k < |entry| ==> (pre + (entry + more) + rest)[|pre| + k] == entry[k]
  {
    assert pre + (entry + more) + rest == (pre + entry) + more + rest;
  }

  // ----- model id to query vector

  /** The entries in `order`: model id, then the vector. */
  function VectorEntries(m: map<string, Option<Supplier<Vector>>>, order: seq<string>): (r: seq<Token>)
    requires AllAvailable(m)
    requires forall i :: 0 <= i < |order| ==> order[i] in m
    ensures |r| == 2 * |order|
  {
    if |order| == 0 then []
    else [TString(order[0]), TFloatArray(Supplied(m[order[0]]))] + VectorEntries(m, order[1..])
  }

  lemma {:induction false} VectorEntriesSnoc(m: map<string, Option<Supplier<Vector>>>, order: seq<string>, key: string)
    requires AllAvailable(m) && key in m
    requires forall i :: 0 <= i < |order| ==> order[i] in m
    ensures VectorEntries(m, order + [key]) == VectorEntries(m, order) + [TString(key), TFloatArray(Supplied(m[key]))]
  {
    if |order| > 0 {
      assert (order + [key])[1..] == order[1..] + [key];
      VectorEntriesSnoc(m, order[1..], key);
    }
  }

  /**
   * `modelIdToVectorSupplierMapStreamOutput` as written: false for a null map or when any supplier
   * is unavailable; otherwise the size through `writeInt`, with no leading true, then the entries.
   */
  function EncodeVectorMapAsWritten(om: Option<map<string, Option<Supplier<Vector>>>>, order: seq<string>): seq<Token>
    requires om.Some? ==> Enumerates(order, om.value.Keys)
  {
    if om.None? || !AllAvailable(om.value) then [TBoolean(false)]
    else [TInt(|om.value|)] + VectorEntries(om.value, order)
  }

  /** The writer the reader expects: true, the size through `writeVInt`, then the entries. */
  function EncodeVectorMap(om: Option<map<string, Option<Supplier<Vector>>>>, order: seq<string>): seq<Token>
    requires om.Some? ==> Enumerates(order, om.value.Keys)
  {
    if om.None? || !AllAvailable(om.value) then [TBoolean(false)]
    else [TBoolean(true), TVInt(|om.value|)] + VectorEntries(om.value, order)
  }

  /** The read loop: `n` more (model id, vector) pairs put into `acc`. */
  function DecodeVectorEntries(ts: seq<Token>, p: nat, n: int, acc: map<string, Option<Supplier<Vector>>>)
    : Decoded<map<string, Option<Supplier<Vector>>>>
    decreases if n <= 0 then 0 else n
  {
    if n <= 0 then Ok((acc, p))
    else
      match (At(ts, p), At(ts, p + 1))
      case (Some(TString(key)), Some(TFloatArray(v))) =>
        DecodeVectorEntries(ts, p + 2, n - 1, acc[key := Some(Supplier(Some(v)))])
      case _ => Err(())
  }

  /** `modelIdToVectorSupplierMapStreamInput`: a boolean, then (when true) a VInt size and the pairs. */
  function DecodeVectorMap(ts: seq<Token>, p: nat): Decoded<Option<map<string, Option<Supplier<Vector>>>>> {
    match At(ts, p)
    case Some(TBoolean(false)) => Ok((None, p + 1))
    case Some(TBoolean(true)) =>
      (match At(ts, p + 1)
       case Some(TVInt(size)) =>
         (match DecodeVectorEntries(ts, p + 2, size, map[])
          case Ok((m, q)) => Ok((Some(m), q))
          case Err(e) => Err(e))
       case _ => Err(()))
    case _ => Err(())
  }

  /** One step of the read loop: a model id and a vector. */
  lemma DecodeVectorEntriesStep(ts: seq<Token>, p: nat, n: int, acc: map<string, Option<Supplier<Vector>>>,
                                 key: string, value: Vector)
    requires n > 0 && p + 1 < |ts| && ts[p] == TString(key) && ts[p + 1] == TFloatArray(value)
    ensures DecodeVectorEntries(ts, p, n, acc) == DecodeVectorEntries(ts, p + 2, n - 1, acc[key := Some(Supplier(Some(value)))])
  {
  }

  lemma {:induction false} VectorEntriesRoundTrip(
    m: map<string, Option<Supplier<Vector>>>, order: seq<string>, pre: seq<Token>, rest: seq<Token>,
    acc: map<string, Option<Supplier<Vector>>>)
    requires AllAvailable(m)
    requires forall i :: 0 <= i < |order| ==> order[i] in m
    requires forall i, j :: 0 <= i < j < |order| ==> order[i] != order[j]
    ensures DecodeVectorEntries(pre + VectorEntries(m, order) + rest, |pre|, |order|, acc)
            == Ok((acc + Restrict(m, order), |pre| + 2 * |order|))
  {
    if |order| == 0 {
      assert Restrict(m, order) == map[];
      assert acc + map[] == acc;
    } else {
      var key := order[0];
      var entry := [TString(key), TFloatArray(Supplied(m[key]))];
      var more := VectorEntries(m, order[1..]);
      var ts := pre + VectorEntries(m, order) + rest;
      assert VectorEntries(m, order) == entry + more;
      EntryAt(pre, entry, more, rest);
      assert ts[|pre|] == entry[0] && ts[|pre| + 1] == entry[1];
      assert Some(Supplier(Some(Supplied(m[key])))) == m[key];
      assert |pre + entry| == |pre| + 2;
      DecodeVectorEntriesStep(ts, |pre|, |order|, acc, key, Supplied(m[key]));
      VectorEntriesRoundTrip(m, order[1..], pre + entry, rest, acc[key := m[key]]);
      RestrictCons(m, order, acc);
    }
  }

  /** Reading a present map: the flag, the VInt size, then the entries. */
  lemma DecodeVectorMapPresent(ts: seq<Token>, p: nat)
    requires p + 1 < |ts| && ts[p] == TBoolean(true) && ts[p + 1].TVInt?
    requires DecodeVectorEntries(ts, p + 2, ts[p + 1].n, map[]).Ok?
    ensures DecodeVectorMap(ts, p) == Ok((Some(DecodeVectorEntries(ts, p + 2, ts[p + 1].n, map[]).value.0),
                                DecodeVectorEntries(ts, p + 2, ts[p + 1].n, map[]).value.1))
  {
  }

  /** Read from an empty map, the entries of a whole enumeration give back the map itself. */
  lemma VectorEntriesReadWhole(m: map<string, Option<Supplier<Vector>>>, order: seq<string>, header: seq<Token>, rest: seq<Token>)
    requires Enumerates(order, m.Keys) && AllAvailable(m)
    ensures DecodeVectorEntries(header + VectorEntries(m, order) + rest, |header|, |m|, map[]) == Ok((m, |header| + 2 * |order|))
  {
    EnumerationLength(order, m.Keys);
    VectorEntriesRoundTrip(m, order, header, rest, map[]);
    RestrictToEnumeration(m, order);
    assert map[] + Restrict(m, order) == m;
  }

  /** A present map, written after the flag and its size, reads back as itself. */
  lemma VectorMapPresentRoundTrip(m: map<string, Option<Supplier<Vector>>>, order: seq<string>, pre: seq<Token>, rest: seq<Token>)
    requires Enumerates(order, m.Keys) && AllAvailable(m)
    ensures DecodeVectorMap(pre + [TBoolean(true), TVInt(|m|)] + VectorEntries(m, order) + rest, |pre|)
            == Ok((Some(m), |pre| + 2 + 2 * |order|))
  {
    var header := pre + [TBoolean(true), TVInt(|m|)];
    var ts := header + VectorEntries(m, order) + rest;
    VectorEntriesReadWhole(m, order, header, rest);
    assert ts[|pre|] == TBoolean(true);
    assert ts[|pre| + 1] == TVInt(|m|);
    DecodeVectorMapPresent(ts, |pre|);
  }

  /** With the presence flag and a VInt size, every available map reaches the other node unchanged. */
  lemma VectorMapRoundTrip(om: Option<map<string, Option<Supplier<Vector>>>>, order: seq<string>, pre: seq<Token>, rest: seq<Token>)
    requires om.Some? ==> Enumerates(order, om.value.Keys)
    ensures DecodeVectorMap(pre + EncodeVectorMap(om, order) + rest, |pre|)
            == Ok((if om.Some? && AllAvailable(om.value) then om else None, |pre| + |EncodeVectorMap(om, order)|))
  {
    if om.Some? && AllAvailable(om.value) {
      var m := om.value;
      EntryAt(pre, [TBoolean(true), TVInt(|m|)], VectorEntries(m, order), rest);
      VectorMapPresentRoundTrip(m, order, pre, rest);
    } else {
      assert (pre + [TBoolean(false)] + rest)[|pre|] == TBoolean(false);
    }
  }

  /** As written, a present, available map is not read back: the reader finds an int where it needs a boolean. */
  lemma VectorMapAsWrittenIsMisread(m: map<string, Option<Supplier<Vector>>>, order: seq<string>, pre: seq<Token>, rest: seq<Token>)
    requires Enumerates(order, m.Keys) && AllAvailable(m)
    ensures DecodeVectorMap(pre + EncodeVectorMapAsWritten(Some(m), order) + rest, |pre|).Err?
  {
    var ts := pre + EncodeVectorMapAsWritten(Some(m), order) + rest;
    assert ts[|pre|] == TInt(|m|);
  }

  /** As written, a null map and a map with a pending supplier both arrive as null. */
  lemma VectorMapAsWrittenNullCases(om: Option<map<string, Option<Supplier<Vector>>>>, order: seq<string>, pre: seq<Token>, rest: seq<Token>)
    requires om.Some? ==> Enumerates(order, om.value.Keys)
    requires om.None? || !AllAvailable(om.value)
    ensures DecodeVectorMap(pre + EncodeVectorMapAsWritten(om, order) + rest, |pre|) == Ok((None, (|pre| + 1) as nat))
  {
    var ts := pre + EncodeVectorMapAsWritten(om, order) + rest;
    assert ts[|pre|] == TBoolean(false);
  }

  /** The availability loop over `values()`; HashMap visits the keys in some order. */
  method AllSuppliersAvailable<T>(m: map<string, Option<Supplier<T>>>) returns (availableToWrite: bool)
    ensures availableToWrite <==> AllAvailable(m)
  {
    var keys := IterationOrder(m.Keys);
    availableToWrite := true;
    var i := 0;
    while i < |keys|
      invariant 0 <= i <= |keys|
      invariant availableToWrite <==> forall j :: 0 <= j < i ==> Available(m[keys[j]])
    {
      var s := m[keys[i]];
      if s.None? || s.value.get.None? {
        availableToWrite := false;
      }
      i := i + 1;
    }
  }

  /** One entry of the map: the model id, then the supplied vector. */
  method WriteVectorEntry(out: StreamOutput, key: string, s: Option<Supplier<Vector>>)
    requires Available(s)
    modifies out
    ensures out.tokens == old(out.tokens) + [TString(key), TFloatArray(Supplied(s))]
  {
    out.Write(TString(key));
    out.Write(TFloatArray(s.value.get.value));
  }

  method ModelIdToVectorSupplierMapStreamOutput(out: StreamOutput, om: Option<map<string, Option<Supplier<Vector>>>>)
    returns (ghost order: seq<string>)
    modifies out
    ensures om.Some? ==> Enumerates(order, om.value.Keys)
    ensures out.tokens == old(out.tokens) + EncodeVectorMapAsWritten(om, order)
  {
    order := [];
    if om.None? {
      out.Write(TBoolean(false));
      return;
    }
    var m := om.value;
    var keys := IterationOrder(m.Keys);
    order := keys;
    var availableToWrite := AllSuppliersAvailable(m);
    if !availableToWrite {
      out.Write(TBoolean(false));
      return;
    }
    out.Write(TInt(|m|));
    ghost var start := out.tokens;
    var i := 0;
    while i < |keys|
      invariant 0 <= i <= |keys|
      invariant out.tokens == start + VectorEntries(m, keys[..i])
    {
      VisitedSnoc(keys, i);
      VectorEntriesSnoc(m, keys[..i], keys[i]);
      AppendTwice(start, VectorEntries(m, keys[..i]), [TString(keys[i]), TFloatArray(Supplied(m[keys[i]]))]);
      WriteVectorEntry(out, keys[i], m[keys[i]]);
      i := i + 1;
    }
    assert keys[..i] == keys;
    AppendTwice(old(out.tokens), [TInt(|m|)], VectorEntries(m, keys));
  }

  method ModelIdToVectorSupplierMapStreamInput(input: StreamInput) returns (r: Result<Option<map<string, Option<Supplier<Vector>>>>, ()>)
    modifies input`pos
    ensures r == ValueOf(DecodeVectorMap(input.tokens, old(input.pos)))
    ensures r.Ok? ==> input.pos == DecodeVectorMap(input.tokens, old(input.pos)).value.1
  {
    ghost var p0 := input.pos;
    var t := input.Read();
    if t == Some(TBoolean(false)) {
      return Ok(None);
    } else if t != Some(TBoolean(true)) {
      return Err(());
    }
    var sizeToken := input.Read();
    if sizeToken.None? || !sizeToken.value.TVInt? {
      return Err(());
    }
    var size := sizeToken.value.n;
    var m: map<string, Option<Supplier<Vector>>> := map[];
    var i := 0;
    while i < size
      invariant i >= 0 && (size >= 0 ==> i <= size)
      invariant DecodeVectorEntries(input.tokens, p0 + 2, size, map[]) == DecodeVectorEntries(input.tokens, input.pos, size - i, m)
      decreases size - i
    {
      var key := input.Read();
      var vector := input.Read();
      if key.None? || !key.value.TString? || vector.None? || !vector.value.TFloatArray? {
        return Err(());
      }
      m := m[key.value.s := Some(Supplier(Some(vector.value.v)))];
      i := i + 1;
    }
    r := Ok(Some(m));
  }

  // ----- model id to sparse query tokens

  function TokenMapEntries(m: map<string, Option<Supplier<TokenWeights>>>, order: seq<string>): (r: seq<Token>)
    requires AllAvailable(m)
    requires forall i :: 0 <= i < |order| ==> order[i] in m
    ensures |r| == 2 * |order|
  {
    if |order| == 0 then []
    else [TString(order[0]), TTokenMap(Supplied(m[order[0]]))] + TokenMapEntries(m, order[1..])
  }

  lemma {:induction false} TokenMapEntriesSnoc(m: map<string, Option<Supplier<TokenWeights>>>, order: seq<string>, key: string)
    requires AllAvailable(m) && key in m
    requires forall i :: 0 <= i < |order| ==> order[i] in m
    ensures TokenMapEntries(m, order + [key]) == TokenMapEntries(m, order) + [TString(key), TTokenMap(Supplied(m[key]))]
  {
    if |order| > 0 {
      assert (order + [key])[1..] == order[1..] + [key];
      TokenMapEntriesSnoc(m, order[1..], key);
    }
  }

  /** `modelIdToQueryTokensSupplierMapStreamOutput` as written: the same shape as the vector map writer. */
  function EncodeTokenMapMapAsWritten(om: Option<map<string, Option<Supplier<TokenWeights>>>>, order: seq<string>): seq<Token>
    requires om.Some? ==> Enumerates(order, om.value.Keys)
  {
    if om.None? || !AllAvailable(om.value) then [TBoolean(false)]
    else [TInt(|om.value|)] + TokenMapEntries(om.value, order)
  }

  /** The writer the reader expects: true, the size through `writeVInt`, then the entries. */
  function EncodeTokenMapMap(om: Option<map<string, Option<Supplier<TokenWeights>>>>, order: seq<string>): seq<Token>
    requires om.Some? ==> Enumerates(order, om.value.Keys)
  {
    if om.None? || !AllAvailable(om.value) then [TBoolean(false)]
    else [TBoolean(true), TVInt(|om.value|)] + TokenMapEntries(om.value, order)
  }

  function DecodeTokenMapEntries(ts: seq<Token>, p: nat, n: int, acc: map<string, Option<Supplier<TokenWeights>>>)
    : Decoded<map<string, Option<Supplier<TokenWeights>>>>
    decreases if n <= 0 then 0 else n
  {
    if n <= 0 then Ok((acc, p))
    else
      match (At(ts, p), At(ts, p + 1))
      case (Some(TString(key)), Some(TTokenMap(w))) =>
        DecodeTokenMapEntries(ts, p + 2, n - 1, acc[key := Some(Supplier(Some(w)))])
      case _ => Err(())
  }

  /** `modelIdToQueryTokensSupplierMapStreamInput`. */
  function DecodeTokenMapMap(ts: seq<Token>, p: nat): Decoded<Option<map<string, Option<Supplier<TokenWeights>>>>> {
    match At(ts, p)
    case Some(TBoolean(false)) => Ok((None, p + 1))
    case Some(TBoolean(true)) =>
      (match At(ts, p + 1)
       case Some(TVInt(size)) =>
         (match DecodeTokenMapEntries(ts, p + 2, size, map[])
          case Ok((m, q)) => Ok((Some(m), q))
          case Err(e) => Err(e))
       case _ => Err(()))
    case _ => Err(())
  }

  /** One step of the read loop: a model id and a token map. */
  lemma DecodeTokenMapEntriesStep(ts: seq<Token>, p: nat, n: int, acc: map<string, Option<Supplier<TokenWeights>>>,
                                 key: string, value: TokenWeights)
    requires n > 0 && p + 1 < |ts| && ts[p] == TString(key) && ts[p + 1] == TTokenMap(value)
    ensures DecodeTokenMapEntries(ts, p, n, acc) == DecodeTokenMapEntries(ts, p + 2, n - 1, acc[key := Some(Supplier(Some(value)))])
  {
  }

  lemma {:induction false} TokenMapEntriesRoundTrip(
    m: map<string, Option<Supplier<TokenWeights>>>, order: seq<string>, pre: seq<Token>, rest: seq<Token>,
    acc: map<string, Option<Supplier<TokenWeights>>>)
    requires AllAvailable(m)
    requires forall i :: 0 <= i < |order| ==> order[i] in m
    requires forall i, j :: 0 <= i < j < |order| ==> order[i] != order[j]
    ensures DecodeTokenMapEntries(pre + TokenMapEntries(m, order) + rest, |pre|, |order|, acc)
            == Ok((acc + Restrict(m, order), |pre| + 2 * |order|))
  {
    if |order| == 0 {
      assert Restrict(m, order) == map[];
      assert acc + map[] == acc;
    } else {
      var key := order[0];
      var entry := [TString(key), TTokenMap(Supplied(m[key]))];
      var more := TokenMapEntries(m, order[1..]);
      var ts := pre + TokenMapEntries(m, order) + rest;
      assert TokenMapEntries(m, order) == entry + more;
      EntryAt(pre, entry, more, rest);
      assert ts[|pre|] == entry[0] && ts[|pre| + 1] == entry[1];
      assert Some(Supplier(Some(Supplied(m[key])))) == m[key];
      assert |pre + entry| == |pre| + 2;
      DecodeTokenMapEntriesStep(ts, |pre|, |order|, acc, key, Supplied(m[key]));
      TokenMapEntriesRoundTrip(m, order[1..], pre + entry, rest, acc[key := m[key]]);
      RestrictCons(m, order, acc);
    }
  }

  /** Reading a present map: the flag, the VInt size, then the entries. */
  lemma DecodeTokenMapMapPresent(ts: seq<Token>, p: nat)
    requires p + 1 < |ts| && ts[p] == TBoolean(true) && ts[p + 1].TVInt?
    requires DecodeTokenMapEntries(ts, p + 2, ts[p + 1].n, map[]).Ok?
    ensures DecodeTokenMapMap(ts, p) == Ok((Some(DecodeTokenMapEntries(ts, p + 2, ts[p + 1].n, map[]).value.0),
                                DecodeTokenMapEntries(ts, p + 2, ts[p + 1].n, map[]).value.1))
  {
  }

  /** Read from an empty map, the entries of a whole enumeration give back the map itself. */
  lemma TokenMapEntriesReadWhole(m: map<string, Option<Supplier<TokenWeights>>>, order: seq<string>, header: seq<Token>, rest: seq<Token>)
    requires Enumerates(order, m.Keys) && AllAvailable(m)
    ensures DecodeTokenMapEntries(header + TokenMapEntries(m, order) + rest, |header|, |m|, map[]) == Ok((m, |header| + 2 * |order|))
  {
    EnumerationLength(order, m.Keys);
    TokenMapEntriesRoundTrip(m, order, header, rest, map[]);
    RestrictToEnumeration(m, order);
    assert map[] + Restrict(m, order) == m;
  }

  /** A present map, written after the flag and its size, reads back as itself. */
  lemma TokenMapMapPresentRoundTrip(m: map<string, Option<Supplier<TokenWeights>>>, order: seq<string>, pre: seq<Token>, rest: seq<Token>)
    requires Enumerates(order, m.Keys) && AllAvailable(m)
    ensures DecodeTokenMapMap(pre + [TBoolean(true), TVInt(|m|)] + TokenMapEntries(m, order) + rest, |pre|)
            == Ok((Some(m), |pre| + 2 + 2 * |order|))
  {
    var header := pre + [TBoolean(true), TVInt(|m|)];
    var ts := header + TokenMapEntries(m, order) + rest;
    TokenMapEntriesReadWhole(m, order, header, rest);
    assert ts[|pre|] == TBoolean(true);
    assert ts[|pre| + 1] == TVInt(|m|);
    DecodeTokenMapMapPresent(ts, |pre|);
  }

  /** With the presence flag and a VInt size, every available map reaches the other node unchanged. */
  lemma TokenMapMapRoundTrip(om: Option<map<string, Option<Supplier<TokenWeights>>>>, order: seq<string>, pre: seq<Token>, rest: seq<Token>)
    requires om.Some? ==> Enumerates(order, om.value.Keys)
    ensures DecodeTokenMapMap(pre + EncodeTokenMapMap(om, order) + rest, |pre|)
            == Ok((if om.Some? && AllAvailable(om.value) then om else None, |pre| + |EncodeTokenMapMap(om, order)|))
  {
    if om.Some? && AllAvailable(om.value) {
      var m := om.value;
      EntryAt(pre, [TBoolean(true), TVInt(|m|)], TokenMapEntries(m, order), rest);
      TokenMapMapPresentRoundTrip(m, order, pre, rest);
    } else {
      assert (pre + [TBoolean(false)] + rest)[|pre|] == TBoolean(false);
    }
  }

  /** As written, a present, available token-map map is not read back. */
  lemma TokenMapMapAsWrittenIsMisread(m: map<string, Option<Supplier<TokenWeights>>>, order: seq<string>, pre: seq<Token>, rest: seq<Token>)
    requires Enumerates(order, m.Keys) && AllAvailable(m)
    ensures DecodeTokenMapMap(pre + EncodeTokenMapMapAsWritten(Some(m), order) + rest, |pre|).Err?
  {
    var ts := pre + EncodeTokenMapMapAsWritten(Some(m), order) + rest;
    assert ts[|pre|] == TInt(|m|);
  }

  /** One entry of the map: the model id, then the supplied token weights. */
  method WriteTokenMapEntry(out: StreamOutput, key: string, s: Option<Supplier<TokenWeights>>)
    requires Available(s)
    modifies out
    ensures out.tokens == old(out.tokens) + [TString(key), TTokenMap(Supplied(s))]
  {
    out.Write(TString(key));
    out.Write(TTokenMap(s.value.get.value));
  }

  method ModelIdToQueryTokensSupplierMapStreamOutput(out: StreamOutput, om: Option<map<string, Option<Supplier<TokenWeights>>>>)
    returns (ghost order: seq<string>)
    modifies out
    ensures om.Some? ==> Enumerates(order, om.value.Keys)
    ensures out.tokens == old(out.tokens) + EncodeTokenMapMapAsWritten(om, order)
  {
    order := [];
    if om.None? {
      out.Write(TBoolean(false));
      return;
    }
    var m := om.value;
    var keys := IterationOrder(m.Keys);
    order := keys;
    var availableToWrite := AllSuppliersAvailable(m);
    if !availableToWrite {
      out.Write(TBoolean(false));
      return;
    }
    out.Write(TInt(|m|));
    ghost var start := out.tokens;
    var i := 0;
    while i < |keys|
      invariant 0 <= i <= |keys|
      invariant out.tokens == start + TokenMapEntries(m, keys[..i])
    {
      VisitedSnoc(keys, i);
      TokenMapEntriesSnoc(m, keys[..i], keys[i]);
      AppendTwice(start, TokenMapEntries(m, keys[..i]), [TString(keys[i]), TTokenMap(Supplied(m[keys[i]]))]);
      WriteTokenMapEntry(out, keys[i], m[keys[i]]);
      i := i + 1;
    }
    assert keys[..i] == keys;
    AppendTwice(old(out.tokens), [TInt(|m|)], TokenMapEntries(m, keys));
  }

  method ModelIdToQueryTokensSupplierMapStreamInput(input: StreamInput)
    returns (r: Result<Option<map<string, Option<Supplier<TokenWeights>>>>, ()>)
    modifies input`pos
    ensures r == ValueOf(DecodeTokenMapMap(input.tokens, old(input.pos)))
    ensures r.Ok? ==> input.pos == DecodeTokenMapMap(input.tokens, old(input.pos)).value.1
  {
    ghost var p0 := input.pos;
    var t := input.Read();
    if t == Some(TBoolean(false)) {
      return Ok(None);
    } else if t != Some(TBoolean(true)) {
      return Err(());
    }
    var sizeToken := input.Read();
    if sizeToken.None? || !sizeToken.value.TVInt? {
      return Err(());
    }
    var size := sizeToken.value.n;
    var m: map<string, Option<Supplier<TokenWeights>>> := map[];
    var i := 0;
    while i < size
      invariant i >= 0 && (size >= 0 ==> i <= size)
      invariant DecodeTokenMapEntries(input.tokens, p0 + 2, size, map[]) == DecodeTokenMapEntries(input.tokens, input.pos, size - i, m)
      decreases size - i
    {
      var key := input.Read();
      var weights := input.Read();
      if key.None? || !key.value.TString? || weights.None? || !weights.value.TTokenMap? {
        return Err(());
      }
      m := m[key.value.s := Some(Supplier(Some(weights.value.m)))];
      i := i + 1;
    }
    r := Ok(Some(m));
  }

  // ----- index name to target field configuration

  /** One entry: the index name, then the four optional fields in declaration order. */
  function ConfigEntry(name: string, c: TargetFieldConfig): seq<Token> {
    [TString(name), TOptionalBoolean(c.isSemanticField), TOptionalBoolean(c.isUnmappedField),
     TOptionalString(c.searchModelId), TOptionalString(c.embeddingFieldType)]
  }

  function ConfigEntries(m: map<string, TargetFieldConfig>, order: seq<string>): (r: seq<Token>)
    requires forall i :: 0 <= i < |order| ==> order[i] in m
    ensures |r| == 5 * |order|
  {
    if |order| == 0 then [] else ConfigEntry(order[0], m[order[0]]) + ConfigEntries(m, order[1..])
  }

  lemma {:induction false} ConfigEntriesSnoc(m: map<string, TargetFieldConfig>, order: seq<string>, key: string)
    requires key in m
    requires forall i :: 0 <= i < |order| ==> order[i] in m
    ensures ConfigEntries(m, order + [key]) == ConfigEntries(m, order) + ConfigEntry(key, m[key])
  {
    if |order| > 0 {
      assert (order + [key])[1..] == order[1..] + [key];
      ConfigEntriesSnoc(m, order[1..], key);
    }
  }

  /** `indexToTargetFieldConfigStreamOutput` as written: false for null, else a `writeInt` size and the entries. */
  function EncodeIndexConfigAsWritten(om: Option<map<string, TargetFieldConfig>>, order: seq<string>): seq<Token>
    requires om.Some? ==> Enumerates(order, om.value.Keys)
  {
    if om.None? then [TBoolean(false)] else [TInt(|om.value|)] + ConfigEntries(om.value, order)
  }

  /** The writer the reader expects: true, a VInt size, then the entries. */
  function EncodeIndexConfig(om: Option<map<string, TargetFieldConfig>>, order: seq<string>): seq<Token>
    requires om.Some? ==> Enumerates(order, om.value.Keys)
  {
    if om.None? then [TBoolean(false)] else [TBoolean(true), TVInt(|om.value|)] + ConfigEntries(om.value, order)
  }

  /** One entry read back: an index name and its four optional fields. */
  function DecodeConfigEntry(ts: seq<Token>, p: nat): Option<(string, TargetFieldConfig)> {
    if p + 4 < |ts| && ts[p].TString? && ts[p + 1].TOptionalBoolean? && ts[p + 2].TOptionalBoolean?
       && ts[p + 3].TOptionalString? && ts[p + 4].TOptionalString?
    then Some((ts[p].s, TargetFieldConfig(ts[p + 1].ob, ts[p + 2].ob, ts[p + 3].os, ts[p + 4].os)))
    else None
  }

  lemma ConfigEntryRoundTrip(name: string, c: TargetFieldConfig, pre: seq<Token>, rest: seq<Token>)
    ensures DecodeConfigEntry(pre + ConfigEntry(name, c) + rest, |pre|) == Some((name, c))
  {
    var ts := pre + ConfigEntry(name, c) + rest;
    assert ts[|pre|] == TString(name);
    assert ts[|pre| + 1] == TOptionalBoolean(c.isSemanticField) && ts[|pre| + 2] == TOptionalBoolean(c.isUnmappedField);
    assert ts[|pre| + 3] == TOptionalString(c.searchModelId) && ts[|pre| + 4] == TOptionalString(c.embeddingFieldType);
  }

  function DecodeConfigEntries(ts: seq<Token>, p: nat, n: int, acc: map<string, TargetFieldConfig>)
    : Decoded<map<string, TargetFieldConfig>>
    decreases if n <= 0 then 0 else n
  {
    if n <= 0 then Ok((acc, p))
    else
      match DecodeConfigEntry(ts, p)
      case Some((name, c)) => DecodeConfigEntries(ts, p + 5, n - 1, acc[name := c])
      case None => Err(())
  }

  /** `indexToTargetFieldConfigStreamInput`: a boolean, then (when true) a VInt size and the entries. */
  function DecodeIndexConfig(ts: seq<Token>, p: nat): Decoded<Option<map<string, TargetFieldConfig>>> {
    match At(ts, p)
    case Some(TBoolean(false)) => Ok((None, p + 1))
    case Some(TBoolean(true)) =>
      (match At(ts, p + 1)
       case Some(TVInt(size)) =>
         (match DecodeConfigEntries(ts, p + 2, size, map[])
          case Ok((m, q)) => Ok((Some(m), q))
          case Err(e) => Err(e))
       case _ => Err(()))
    case _ => Err(())
  }

  lemma {:induction false} ConfigEntriesRoundTrip(
    m: map<string, TargetFieldConfig>, order: seq<string>, pre: seq<Token>, rest: seq<Token>,
    acc: map<string, TargetFieldConfig>)
    requires forall i :: 0 <= i < |order| ==> order[i] in m
    requires forall i, j :: 0 <= i < j < |order| ==> order[i] != order[j]
    ensures DecodeConfigEntries(pre + ConfigEntries(m, order) + rest, |pre|, |order|, acc)
            == Ok((acc + Restrict(m, order), |pre| + 5 * |order|))
  {
    if |order| == 0 {
      assert Restrict(m, order) == map[];
      assert acc + map[] == acc;
    } else {
      var key := order[0];
      var entry := ConfigEntry(key, m[key]);
      var more := ConfigEntries(m, order[1..]);
      assert ConfigEntries(m, order) == entry + more;
      EntryAt(pre, entry, more, rest);
      assert pre + entry + (more + rest) == pre + (entry + more) + rest;
      ConfigEntryRoundTrip(key, m[key], pre, more + rest);
      ConfigEntriesRoundTrip(m, order[1..], pre + entry, rest, acc[key := m[key]]);
      RestrictCons(m, order, acc);
    }
  }

  /** Reading a present map: the flag, the VInt size, then the entries. */
  lemma DecodeIndexConfigPresent(ts: seq<Token>, p: nat)
    requires p + 1 < |ts| && ts[p] == TBoolean(true) && ts[p + 1].TVInt?
    requires DecodeConfigEntries(ts, p + 2, ts[p + 1].n, map[]).Ok?
    ensures DecodeIndexConfig(ts, p) == Ok((Some(DecodeConfigEntries(ts, p + 2, ts[p + 1].n, map[]).value.0),
                                DecodeConfigEntries(ts, p + 2, ts[p + 1].n, map[]).value.1))
  {
  }

  /** Read from an empty map, the entries of a whole enumeration give back the map itself. */
  lemma ConfigEntriesReadWhole(m: map<string, TargetFieldConfig>, order: seq<string>, header: seq<Token>, rest: seq<Token>)
    requires Enumerates(order, m.Keys)
    ensures DecodeConfigEntries(header + ConfigEntries(m, order) + rest, |header|, |m|, map[]) == Ok((m, |header| + 5 * |order|))
  {
    EnumerationLength(order, m.Keys);
    ConfigEntriesRoundTrip(m, order, header, rest, map[]);
    RestrictToEnumeration(m, order);
    assert map[] + Restrict(m, order) == m;
  }

  /** A present map, written after the flag and its size, reads back as itself. */
  lemma IndexConfigPresentRoundTrip(m: map<string, TargetFieldConfig>, order: seq<string>, pre: seq<Token>, rest: seq<Token>)
    requires Enumerates(order, m.Keys)
    ensures DecodeIndexConfig(pre + [TBoolean(true), TVInt(|m|)] + ConfigEntries(m, order) + rest, |pre|)
            == Ok((Some(m), |pre| + 2 + 5 * |order|))
  {
    var header := pre + [TBoolean(true), TVInt(|m|)];
    var ts := header + ConfigEntries(m, order) + rest;
    ConfigEntriesReadWhole(m, order, header, rest);
    assert ts[|pre|] == TBoolean(true);
    assert ts[|pre| + 1] == TVInt(|m|);
    DecodeIndexConfigPresent(ts, |pre|);
  }

  /** With the presence flag and a VInt size, the configuration map reaches the other node unchanged. */
  lemma IndexConfigRoundTrip(om: Option<map<string, TargetFieldConfig>>, order: seq<string>, pre: seq<Token>, rest: seq<Token>)
    requires om.Some? ==> Enumerates(order, om.value.Keys)
    ensures DecodeIndexConfig(pre + EncodeIndexConfig(om, order) + rest, |pre|)
            == Ok((om, |pre| + |EncodeIndexConfig(om, order)|))
  {
    if om.Some? {
      var m := om.value;
      EntryAt(pre, [TBoolean(true), TVInt(|m|)], ConfigEntries(m, order), rest);
      IndexConfigPresentRoundTrip(m, order, pre, rest);
    } else {
      assert (pre + [TBoolean(false)] + rest)[|pre|] == TBoolean(false);
    }
  }

  /** As written, any present configuration map, even an empty one, is not read back. */
  lemma IndexConfigAsWrittenIsMisread(m: map<string, TargetFieldConfig>, order: seq<string>, pre: seq<Token>, rest: seq<Token>)
    requires Enumerates(order, m.Keys)
    ensures DecodeIndexConfig(pre + EncodeIndexConfigAsWritten(Some(m), order) + rest, |pre|).Err?
  {
    var ts := pre + EncodeIndexConfigAsWritten(Some(m), order) + rest;
    assert ts[|pre|] == TInt(|m|);
  }

  /** The body of the writer's entry loop. */
  method WriteConfigEntry(out: StreamOutput, name: string, c: TargetFieldConfig)
    modifies out
    ensures out.tokens == old(out.tokens) + ConfigEntry(name, c)
  {
    out.Write(TString(name));
    out.Write(TOptionalBoolean(c.isSemanticField));
    out.Write(TOptionalBoolean(c.isUnmappedField));
    out.Write(TOptionalString(c.searchModelId));
    out.Write(TOptionalString(c.embeddingFieldType));
  }

  method IndexToTargetFieldConfigStreamOutput(out: StreamOutput, om: Option<map<string, TargetFieldConfig>>)
    returns (ghost order: seq<string>)
    modifies out
    ensures om.Some? ==> Enumerates(order, om.value.Keys)
    ensures out.tokens == old(out.tokens) + EncodeIndexConfigAsWritten(om, order)
  {
    order := [];
    if om.None? {
      out.Write(TBoolean(false));
    } else {
      var m := om.value;
      var keys := IterationOrder(m.Keys);
      order := keys;
      out.Write(TInt(|m|));
      ghost var start := out.tokens;
      var i := 0;
      while i < |keys|
        invariant 0 <= i <= |keys|
        invariant out.tokens == start + ConfigEntries(m, keys[..i])
      {
        VisitedSnoc(keys, i);
        ConfigEntriesSnoc(m, keys[..i], keys[i]);
        AppendTwice(start, ConfigEntries(m, keys[..i]), ConfigEntry(keys[i], m[keys[i]]));
        WriteConfigEntry(out, keys[i], m[keys[i]]);
        i := i + 1;
      }
      assert keys[..i] == keys;
      AppendTwice(old(out.tokens), [TInt(|m|)], ConfigEntries(m, keys));
    }
  }

  method IndexToTargetFieldConfigStreamInput(input: StreamInput) returns (r: Result<Option<map<string, TargetFieldConfig>>, ()>)
    modifies input`pos
    ensures r == ValueOf(DecodeIndexConfig(input.tokens, old(input.pos)))
    ensures r.Ok? ==> input.pos == DecodeIndexConfig(input.tokens, old(input.pos)).value.1
  {
    ghost var p0 := input.pos;
    var t := input.Read();
    if t == Some(TBoolean(false)) {
      return Ok(None);
    } else if t != Some(TBoolean(true)) {
      return Err(());
    }
    var sizeToken := input.Read();
    if sizeToken.None? || !sizeToken.value.TVInt? {
      return Err(());
    }
    var size := sizeToken.value.n;
    var m: map<string, TargetFieldConfig> := map[];
    var i := 0;
    while i < size
      invariant i >= 0 && (size >= 0 ==> i <= size)
      invariant DecodeConfigEntries(input.tokens, p0 + 2, size, map[]) == DecodeConfigEntries(input.tokens, input.pos, size - i, m)
      decreases size - i
    {
      var name := input.Read();
      var semantic := input.Read();
      var unmapped := input.Read();
      var searchModelId := input.Read();
      var embeddingType := input.Read();
      if name.None? || !name.value.TString? || semantic.None? || !semantic.value.TOptionalBoolean?
         || unmapped.None? || !unmapped.value.TOptionalBoolean? || searchModelId.None? || !searchModelId.value.TOptionalString?
         || embeddingType.None? || !embeddingType.value.TOptionalString? {
        return Err(());
      }
      m := m[name.value.s := TargetFieldConfig(semantic.value.ob, unmapped.value.ob, searchModelId.value.os, embeddingType.value.os)];
      i := i + 1;
    }
    r := Ok(Some(m));
  }
}

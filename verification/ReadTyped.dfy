/** Exactly when what the reader returns is a cell of the declared type. */
module ReadTyped {
  // It is one when every key the reader took for a declared map is a string. Whatever an index holds, nothing else
  // can go wrong with the type of a returned value.

  import opened SparkTypes
  import opened ReadBack
  import opened ReadSound

  /** A JSON value that a parser gave: the names of every object in it are distinct. */
  ghost predicate Parsed(j: Json)
    decreases j
  {
    match j
    case JArray(items) => forall i :: 0 <= i < |items| ==> Parsed(items[i])
    case JObject(ms) => DistinctNames(ms) && forall i :: 0 <= i < |ms| ==> Parsed(ms[i].value)
    case _ => true
  }

  /** The elements that the reader takes for a declared array. */
  function ItemsOf(j: Json): seq<Json> {
    if j.JArray? then j.items else [j]
  }

  /** The items that the reader takes for a declared map. */
  function Taken(j: Json): seq<Pair> {
    DictOf(j).GetOr([])
  }

  /** Every key that is taken for a declared map, at any depth, is a string. */
  ghost predicate KeysAreStrings(j: Json, t: SType)
    decreases t
  {
    j.JNull? ||
    match t
    case TArray(e) => forall i :: 0 <= i < |ItemsOf(j)| ==> KeysAreStrings(ItemsOf(j)[i], e)
    case TMap(_, e) =>
      forall i :: 0 <= i < |Taken(j)| ==> Taken(j)[i].key.JString? && KeysAreStrings(Taken(j)[i].value, e)
    case TStruct(fields) =>
      forall i :: 0 <= i < |fields| ==> KeysAreStrings(FieldOf(j, fields[i].name), fields[i].dataType)
    case _ => true
  }

  /* ---- what `dict` takes ---- */

  predicate KeysDiffer(pairs: seq<Pair>) {
    forall i, j :: 0 <= i < j < |pairs| ==> pairs[i].key != pairs[j].key
  }

  ghost predicate ValuesParsed(pairs: seq<Pair>) {
    forall i :: 0 <= i < |pairs| ==> Parsed(pairs[i].value)
  }

  lemma {:induction false} PutKeeps(pairs: seq<Pair>, p: Pair)
    requires KeysDiffer(pairs) && ValuesParsed(pairs) && Parsed(p.value)
    ensures KeysDiffer(Put(pairs, p)) && ValuesParsed(Put(pairs, p))
    ensures forall i :: 0 <= i < |Put(pairs, p)| ==>
              Put(pairs, p)[i].key == p.key || exists k :: 0 <= k < |pairs| && pairs[k].key == Put(pairs, p)[i].key
  {
    hide Parsed;
    if pairs != [] && pairs[0].key != p.key {
      PutKeeps(pairs[1..], p);
    }
  }

  lemma PairParsed(item: Json)
    requires Parsed(item) && PairOf(item).Some?
    ensures Parsed(PairOf(item).value.value)
  {
  }

  lemma {:induction false} PairsTakenWell(items: seq<Json>)
    requires PairsOf(items).Some? && forall i :: 0 <= i < |items| ==> Parsed(items[i])
    ensures KeysDiffer(PairsOf(items).value) && ValuesParsed(PairsOf(items).value)
  {
    if items != [] {
      hide Parsed, Put, PairOf, KeysDiffer, ValuesParsed;
      var k := |items| - 1;
      PairsTakenWell(items[..k]);
      PairParsed(items[k]);
      PutKeeps(PairsOf(items[..k]).value, PairOf(items[k]).value);
    } else {
      hide Parsed;
    }
  }

  /** The keys `dict` gives differ from each other. */
  lemma TakenWell(j: Json)
    requires Parsed(j)
    ensures KeysDiffer(Taken(j)) && ValuesParsed(Taken(j))
  {
    if j.JArray? && DictOf(j).Some? {
      PairsTakenWell(j.items);
    }
  }

  lemma {:induction false} GetParsed(pairs: seq<Pair>, name: string)
    requires ValuesParsed(pairs)
    ensures Parsed(Get(pairs, name))
  {
    if pairs != [] && pairs[0].key != JString(name) {
      GetParsed(pairs[1..], name);
    }
  }

  lemma FieldParsed(j: Json, name: string)
    requires Parsed(j)
    ensures Parsed(FieldOf(j, name))
  {
    TakenWell(j);
    hide ValuesParsed, DictOf;
    GetParsed(Taken(j), name);
  }

  /* ---- the parts of what was read ---- */

  lemma MapTaken(py: Python, j: Json, target: Token, v: Value)
    requires target.MapOf? && !j.JNull? && ReadCoerce(py, j, target) == Got(v)
    ensures v.VMap? && |v.entries| == |Taken(j)|
    ensures forall i :: 0 <= i < |v.entries| ==>
      && v.entries[i].key == KeyValue(Taken(j)[i].key)
      && ReadCoerce(py, Taken(j)[i].value, target.value) == Got(v.entries[i].value)
  {
    hide DictOf, KeyValue, Gather, Get;
    var pairs := DictOf(j).value;
    var rs := seq(|pairs|, i requires 0 <= i < |pairs| => ReadCoerce(py, pairs[i].value, target.value));
    assert Gather(rs).Some?;
    forall i: nat | i < |rs| ensures |Gather(rs).value| == |rs| && rs[i] == Got(Gather(rs).value[i]) {
      Gathered(rs, i);
    }
    GatheredLength(rs);
  }

  /* ---- the exact condition ---- */

  lemma {:induction false} ArrayTyped(py: Python, j: Json, t: SType, v: Value)
    requires t.TArray? && Supported(t) && StringKeyed(t) && DecimalFree(t) && Parsed(j) && !j.JNull?
    requires ReadCoerce(py, j, TokenOf(t)) == Got(v)
    ensures Inhabits(v, t) <==> KeysAreStrings(j, t)
    decreases t, 0
  {
    var items := ItemsOf(j);
    assert TokenOf(t).ArrayOf? && TokenOf(t).element == TokenOf(t.element);
    hide ReadCoerce, TokenOf;
    ArrayParts(py, j, TokenOf(t), v, 0);
    forall i | 0 <= i < |items| ensures Inhabits(v.items[i], t.element) <==> KeysAreStrings(items[i], t.element) {
      ArrayParts(py, j, TokenOf(t), v, i);
      ReadsTypedExactly(py, items[i], t.element, v.items[i]);
    }
  }

  lemma {:induction false} MapTyped(py: Python, j: Json, t: SType, v: Value)
    requires t.TMap? && Supported(t) && StringKeyed(t) && DecimalFree(t) && Parsed(j) && !j.JNull?
    requires ReadCoerce(py, j, TokenOf(t)) == Got(v)
    ensures Inhabits(v, t) <==> KeysAreStrings(j, t)
    decreases t, 0
  {
    var pairs := Taken(j);
    assert TokenOf(t).MapOf? && TokenOf(t).value == TokenOf(t.value);
    TakenWell(j);
    assert t.key == TString && Supported(t.value) && StringKeyed(t.value) && DecimalFree(t.value);
    hide ReadCoerce, TokenOf, Taken, Parsed, Inhabits, KeysAreStrings, Supported, StringKeyed, DecimalFree, KeyValue;
    MapTaken(py, j, TokenOf(t), v);
    forall i | 0 <= i < |pairs|
      ensures Inhabits(v.entries[i].value, t.value) <==> KeysAreStrings(pairs[i].value, t.value)
    {
      ReadsTypedExactly(py, pairs[i].value, t.value, v.entries[i].value);
    }
    EntriesTyped(j, v, t);
  }

  /** A map read from these items is of its type exactly when the keys are strings and the values are of their type. */
  lemma EntriesTyped(j: Json, v: Value, t: SType)
    requires t.TMap? && t.key == TString && !j.JNull? && v.VMap? && |v.entries| == |Taken(j)| && KeysDiffer(Taken(j))
    requires forall i :: 0 <= i < |v.entries| ==> v.entries[i].key == KeyValue(Taken(j)[i].key)
    requires forall i :: 0 <= i < |v.entries| ==>
      (Inhabits(v.entries[i].value, t.value) <==> KeysAreStrings(Taken(j)[i].value, t.value))
    ensures Inhabits(v, t) <==> KeysAreStrings(j, t)
  {
    EntriesDiffer(Taken(j), v.entries);
    hide Taken, KeysDiffer;
    forall i | 0 <= i < |v.entries| ensures Inhabits(v.entries[i].key, TString) <==> Taken(j)[i].key.JString? {
    }
  }

  lemma EntriesDiffer(pairs: seq<Pair>, entries: seq<Entry>)
    requires |entries| == |pairs| && KeysDiffer(pairs)
    requires forall i :: 0 <= i < |entries| ==> entries[i].key == KeyValue(pairs[i].key)
    ensures DistinctKeys(entries)
  {
  }

  lemma {:induction false} StructTyped(py: Python, j: Json, t: SType, v: Value)
    requires t.TStruct? && Supported(t) && StringKeyed(t) && DecimalFree(t) && Parsed(j) && !j.JNull?
    requires ReadCoerce(py, j, TokenOf(t)) == Got(v)
    ensures Inhabits(v, t) <==> KeysAreStrings(j, t)
    decreases t, 0
  {
    hide ReadCoerce, TokenOf, Parsed, FieldOf;
    StructParts(py, j, t, v, 0);
    forall i | 0 <= i < |t.fields| ensures
      Inhabits(v.cells[i], t.fields[i].dataType) <==> KeysAreStrings(FieldOf(j, t.fields[i].name), t.fields[i].dataType)
    {
      StructParts(py, j, t, v, i);
      FieldParsed(j, t.fields[i].name);
      ReadsTypedExactly(py, FieldOf(j, t.fields[i].name), t.fields[i].dataType, v.cells[i]);
    }
  }

  lemma LeafTyped(v: Value, j: Json, t: SType)
    requires !t.TArray? && !t.TMap? && !t.TStruct? && LeafAgrees(v, j, t) && DecimalFree(t)
    ensures Inhabits(v, t) && KeysAreStrings(j, t)
  {
    hide NumberOf;
  }

  /** The exact condition. For every declared type that the guard accepts and that has no decimal, and for every stored
      value that the reader returns something for: what is returned is a cell of the declared type if and only if every
      key that was taken for one of its maps is a string. */
  lemma {:induction false} ReadsTypedExactly(py: Python, j: Json, t: SType, v: Value)
    requires Supported(t) && StringKeyed(t) && DecimalFree(t) && Parsed(j)
    requires ReadCoerce(py, j, TokenOf(t)) == Got(v)
    ensures Inhabits(v, t) <==> KeysAreStrings(j, t)
    decreases t, 1
  {
    hide ReadCoerce, TokenOf, StringKeyed, DecimalFree, Parsed, Inhabits, KeysAreStrings;
    if j.JNull? {
      NullSound(py, t, v);
      NullTyped(t);
    } else if t.TArray? {
      ArrayTyped(py, j, t, v);
    } else if t.TMap? {
      MapTyped(py, j, t, v);
    } else if t.TStruct? {
      StructTyped(py, j, t, v);
    } else {
      ScalarSound(py, j, t, v);
      LeafTyped(v, j, t);
    }
  }

  lemma NullTyped(t: SType)
    ensures Inhabits(VNull, t) && KeysAreStrings(JNull, t)
  {
  }
}

/** What the reader guarantees about anything it returns, whoever wrote the index. */
module ReadSound {
  import opened Wrappers
  import opened SparkTypes
  import opened ReadBack
  import Base64

  /* ---- the guard on map keys ---- */

  /** What `_reject_non_string_map_keys` accepts: every map outside a key is keyed by strings, collated ones too. */
  predicate KeysReadable(t: Token)
    decreases t
  {
    match t
    case Scalar(_) => true
    case ArrayOf(e) => KeysReadable(e)
    case MapOf(k, e) => k.Scalar? && (k.text == "string" || "string collate " <= k.text) && KeysReadable(e)
    case StructOf(fields) => forall i :: 0 <= i < |fields| ==> KeysReadable(fields[i].token)
  }

  /** Types every part of which the coercion has a rule for. */
  ghost predicate Supported(t: SType)
    decreases t
  {
    match t
    case TArray(e) => Supported(e)
    case TMap(k, e) => Supported(k) && Supported(e)
    case TStruct(fields) => forall i :: 0 <= i < |fields| ==> Supported(fields[i].dataType)
    case TOther(_) => false
    case _ => true
  }

  /** The guard accepts a supported type exactly when each of its maps has the string type for its keys. */
  ghost predicate StringKeyed(t: SType)
    decreases t
  {
    match t
    case TArray(e) => StringKeyed(e)
    case TMap(k, e) => k == TString && StringKeyed(e)
    case TStruct(fields) => forall i :: 0 <= i < |fields| ==> StringKeyed(fields[i].dataType)
    case _ => true
  }

  lemma OnlyStringIsString(t: SType)
    requires !t.TArray? && !t.TMap? && !t.TStruct? && !t.TOther?
    ensures (SimpleString(t) == "string" || "string collate " <= SimpleString(t)) <==> t == TString
  {
    var text := SimpleString(t);
    if t.TInt? {
      assert text[0] != 's' || text[1] == 'm';
    } else if t.TInterval? {
      assert text[0] == 'i';
    } else if t.TDecimal? {
      assert text[0] == 'd';
    } else if t.TChar? {
      assert text[0] == 'c';
    } else if t.TVarchar? {
      assert text[0] == 'v';
    } else if t.TString? {
      assert text == "string";
    } else {
      assert text[0] == 'b' || text[0] == 'f' || text[0] == 'd' || text[0] == 't' || text[0] == 'v';
    }
    assert "string"[0] == 's' && "string"[1] == 't';
    assert "string collate "[0] == 's' && "string collate "[1] == 't';
  }

  lemma {:induction false} GuardIsExact(t: SType)
    requires Supported(t)
    ensures KeysReadable(TokenOf(t)) <==> StringKeyed(t)
    decreases t
  {
    hide SimpleString;
    match t
    case TArray(e) => GuardIsExact(e);
    case TMap(k, e) =>
      GuardIsExact(e);
      if !k.TArray? && !k.TMap? && !k.TStruct? {
        OnlyStringIsString(k);
      }
    case TStruct(fields) =>
      forall i | 0 <= i < |fields| ensures KeysReadable(TokenOf(t).fields[i].token) <==> StringKeyed(fields[i].dataType)
      {
        GuardIsExact(fields[i].dataType);
      }
      if KeysReadable(TokenOf(t)) {
        forall i | 0 <= i < |fields| ensures StringKeyed(fields[i].dataType) {
          assert KeysReadable(TokenOf(t).fields[i].token);
        }
      }
    case _ =>
  }

  /* ---- integers ---- */

  /** The number a JSON value is, if it is one. */
  function NumberOf(j: Json): Option<real> {
    match j
    case JInt(i) => Some(i as real)
    case JFloat(f) => if f.Finite? then Some(f.r) else None
    case _ => None
  }

  lemma SameWhole(i: int, k: int)
    ensures i as real == k as real <==> i == k
  {
    assert (i as real).Floor == i;
  }

  lemma TruncatedWhole(r: real, i: int)
    ensures r == r.Floor as real && Truncate(r) == i <==> r == i as real
  {
    if r == i as real {
      assert r.Floor == i && (-r).Floor == -i;
    }
  }

  /** A number is read as an integer of a width exactly when it is that integer and the width holds it: nothing is
      truncated and nothing wraps. */
  lemma WholeExactly(py: Python, j: Json, w: Width, i: int)
    requires j.JInt? || j.JFloat?
    ensures ReadWhole(py, j, w) == Got(VInt(i)) <==> NumberOf(j) == Some(i as real) && Fits(i, w)
  {
    hide Fits;
    if j.JInt? {
      SameWhole(j.i, i);
    } else if j.f.Finite? {
      TruncatedWhole(j.f.r, i);
      hide Truncate;
    }
  }

  /** A timestamp, by contrast, is read from the number with its fraction cut off. */
  lemma StampTruncates(py: Python, j: Json, v: Value)
    requires j.JInt? || j.JFloat?
    ensures ReadScalar(py, j, Stamp) == Got(v) <==>
            && NumberOf(j).Some?
            && FIRST_MILLI <= Truncate(NumberOf(j).value) <= LAST_MILLI
            && v == VTimestamp(1000 * Truncate(NumberOf(j).value))
  {
    if j.JInt? {
      assert (j.i as real).Floor == j.i && (-(j.i as real)).Floor == -j.i;
    }
  }

  /* ---- whole values ---- */

  /** What the reader looks up for a field of a declared struct. */
  function FieldOf(j: Json, name: string): Json {
    if DictOf(j).Some? then Get(DictOf(j).value, name) else JNull
  }

  /** Wherever a map or a struct is declared, an object is stored (or nothing). */
  ghost predicate Fitting(j: Json, t: SType)
    decreases t
  {
    j.JNull? ||
    match t
    case TStruct(fields) =>
      j.JObject? && forall i :: 0 <= i < |fields| ==> Fitting(FieldOf(j, fields[i].name), fields[i].dataType)
    case TMap(_, e) =>
      j.JObject? && DistinctNames(j.members) && forall i :: 0 <= i < |j.members| ==> Fitting(j.members[i].value, e)
    case TArray(e) =>
      if j.JArray? then forall i :: 0 <= i < |j.items| ==> Fitting(j.items[i], e) else Fitting(j, e)
    case _ => true
  }

  /** A scalar that may be returned for `j`: of the declared type, and the same number if `j` is a number and the type
      is an integer type. The precision of decimals is left out. */
  ghost predicate LeafAgrees(v: Value, j: Json, t: SType) {
    match t
    case TInt(w) => v.VInt? && Fits(v.i, w) && (NumberOf(j).Some? ==> v.i as real == NumberOf(j).value)
    case TDecimal(_, _) => v.VDecimal?
    case _ => v != VNull && Inhabits(v, t)
  }

  /** `v` is a faithful reading of `j` at type `t`, part by part. */
  ghost predicate Agrees(v: Value, j: Json, t: SType)
    decreases t
  {
    if j.JNull? then v == VNull else
    match t
    case TStruct(fields) =>
      && v.VStruct? && |v.cells| == |fields|
      && forall i :: 0 <= i < |fields| ==> Agrees(v.cells[i], FieldOf(j, fields[i].name), fields[i].dataType)
    case TMap(_, e) =>
      && j.JObject? && v.VMap? && |v.entries| == |j.members|
      && forall i :: 0 <= i < |v.entries| ==>
           v.entries[i].key == VString(j.members[i].name) && Agrees(v.entries[i].value, j.members[i].value, e)
    case TArray(e) =>
      && v.VArray?
      && if j.JArray? then
           |v.items| == |j.items| && forall i :: 0 <= i < |v.items| ==> Agrees(v.items[i], j.items[i], e)
         else |v.items| == 1 && Agrees(v.items[0], j, e)
    case _ => LeafAgrees(v, j, t)
  }

  lemma TemporalSound(py: Python, j: Json, t: SType, v: Value)
    requires (t.TDate? || t.TTimestamp? || t.TNtz?) && ReadScalar(py, j, Meant(t)) == Got(v)
    ensures LeafAgrees(v, j, t)
  {
  }

  lemma WholeSound(py: Python, j: Json, w: Width, v: Value)
    requires ReadScalar(py, j, Whole(w)) == Got(v)
    ensures LeafAgrees(v, j, TInt(w))
  {
    if j.JInt? || j.JFloat? {
      WholeExactly(py, j, w, v.i);
    }
  }

  lemma PlainSound(py: Python, j: Json, t: SType, v: Value)
    requires !t.TDate? && !t.TTimestamp? && !t.TNtz? && !t.TInt? && !t.TArray? && !t.TMap? && !t.TStruct? && !t.TOther?
    requires ReadScalar(py, j, Meant(t)) == Got(v)
    ensures LeafAgrees(v, j, t)
  {
    hide Base64.Decode;
  }

  lemma NullSound(py: Python, t: SType, v: Value)
    requires ReadCoerce(py, JNull, TokenOf(t)) == Got(v)
    ensures v == VNull
  {
    hide KindOf, SimpleString;
  }

  lemma ScalarRead(py: Python, j: Json, t: SType)
    requires !t.TArray? && !t.TMap? && !t.TStruct? && !t.TOther? && !j.JNull?
    ensures ReadCoerce(py, j, TokenOf(t)).Got? ==> ReadCoerce(py, j, TokenOf(t)) == ReadScalar(py, j, Meant(t))
  {
    Dispatch(t);
    hide KindOf, SimpleString, ReadScalar, Meant;
  }

  lemma ScalarSound(py: Python, j: Json, t: SType, v: Value)
    requires !t.TArray? && !t.TMap? && !t.TStruct? && !t.TOther? && !j.JNull?
    requires ReadCoerce(py, j, TokenOf(t)) == Got(v)
    ensures LeafAgrees(v, j, t)
  {
    hide ReadScalar, LeafAgrees, ReadCoerce, TokenOf;
    ScalarRead(py, j, t);
    if t.TDate? || t.TTimestamp? || t.TNtz? {
      TemporalSound(py, j, t, v);
    } else if t.TInt? {
      WholeSound(py, j, t.width, v);
    } else {
      PlainSound(py, j, t, v);
    }
  }

  lemma Gathered(rs: seq<Result>, i: nat)
    requires Gather(rs).Some? && i < |rs|
    ensures |Gather(rs).value| == |rs| && rs[i] == Got(Gather(rs).value[i])
  {
  }

  lemma ArrayParts(py: Python, j: Json, target: Token, v: Value, i: nat)
    requires target.ArrayOf? && !j.JNull? && ReadCoerce(py, j, target) == Got(v)
    ensures var items := if j.JArray? then j.items else [j];
      && v.VArray? && |v.items| == |items|
      && (i < |items| ==> ReadCoerce(py, items[i], target.element) == Got(v.items[i]))
  {
    var items := if j.JArray? then j.items else [j];
    var rs := seq(|items|, i requires 0 <= i < |items| => ReadCoerce(py, items[i], target.element));
    assert Gather(rs).Some? && v == VArray(Gather(rs).value);
    if i < |items| {
      Gathered(rs, i);
    }
  }

  lemma {:induction false} ArraySound(py: Python, j: Json, t: SType, v: Value)
    requires t.TArray? && Supported(t) && StringKeyed(t) && Fitting(j, t) && !j.JNull?
    requires ReadCoerce(py, j, TokenOf(t)) == Got(v)
    ensures Agrees(v, j, t)
    decreases t, 0
  {
    hide ReadCoerce;
    assert TokenOf(t).ArrayOf? && TokenOf(t).element == TokenOf(t.element);
    var items := if j.JArray? then j.items else [j];
    ArrayParts(py, j, TokenOf(t), v, 0);
    forall i | 0 <= i < |items| ensures Agrees(v.items[i], items[i], t.element) {
      ArrayParts(py, j, TokenOf(t), v, i);
      CellSound(py, items[i], t.element, v.items[i]);
    }
  }

  /** The parts of a map read from an object. */
  lemma MapParts(py: Python, ms: seq<Member>, target: Token, v: Value, i: nat)
    requires target.MapOf? && ReadCoerce(py, JObject(ms), target) == Got(v)
    ensures v.VMap? && |v.entries| == |ms|
    ensures i < |ms| ==>
      v.entries[i].key == VString(ms[i].name) && ReadCoerce(py, ms[i].value, target.value) == Got(v.entries[i].value)
  {
    var pairs := DictOf(JObject(ms)).value;
    var rs := seq(|pairs|, i requires 0 <= i < |pairs| => ReadCoerce(py, pairs[i].value, target.value));
    assert Gather(rs).Some?;
    if i < |ms| {
      Gathered(rs, i);
    }
  }

  lemma {:induction false} MapSound(py: Python, j: Json, t: SType, v: Value)
    requires t.TMap? && Supported(t) && StringKeyed(t) && Fitting(j, t) && !j.JNull?
    requires ReadCoerce(py, j, TokenOf(t)) == Got(v)
    ensures Agrees(v, j, t)
    decreases t, 0
  {
    hide ReadCoerce;
    assert TokenOf(t).MapOf? && TokenOf(t).value == TokenOf(t.value);
    MapParts(py, j.members, TokenOf(t), v, 0);
    forall i | 0 <= i < |j.members| ensures
      v.entries[i].key == VString(j.members[i].name) && Agrees(v.entries[i].value, j.members[i].value, t.value)
    {
      MapParts(py, j.members, TokenOf(t), v, i);
      CellSound(py, j.members[i].value, t.value, v.entries[i].value);
    }
  }

  lemma GatheredLength(rs: seq<Result>)
    requires Gather(rs).Some?
    ensures |Gather(rs).value| == |rs|
  {
  }

  lemma StructParts(py: Python, j: Json, t: SType, v: Value, i: nat)
    requires t.TStruct? && !j.JNull? && ReadCoerce(py, j, TokenOf(t)) == Got(v)
    ensures v.VStruct? && |v.cells| == |t.fields|
    ensures i < |t.fields| ==>
              ReadCoerce(py, FieldOf(j, t.fields[i].name), TokenOf(t.fields[i].dataType)) == Got(v.cells[i])
  {
    hide DictOf, Gather, Get;
    var fields, target := t.fields, TokenOf(t);
    var pairs := DictOf(j).value;
    var rs := seq(|fields|, i requires 0 <= i < |fields| =>
      ReadCoerce(py, Get(pairs, target.fields[i].name), target.fields[i].token));
    assert Gather(rs).Some? && v == VStruct(Gather(rs).value);
    GatheredLength(rs);
    if i < |fields| {
      Gathered(rs, i);
    }
  }

  lemma {:induction false} StructSound(py: Python, j: Json, t: SType, v: Value)
    requires t.TStruct? && Supported(t) && StringKeyed(t) && Fitting(j, t) && !j.JNull?
    requires ReadCoerce(py, j, TokenOf(t)) == Got(v)
    ensures Agrees(v, j, t)
    decreases t, 0
  {
    var fields := t.fields;
    hide ReadCoerce, TokenOf, FieldOf;
    StructParts(py, j, t, v, 0);
    forall i | 0 <= i < |fields|
      ensures Agrees(v.cells[i], FieldOf(j, fields[i].name), fields[i].dataType)
    {
      StructParts(py, j, t, v, i);
      CellSound(py, FieldOf(j, fields[i].name), fields[i].dataType, v.cells[i]);
    }
  }

  /** Soundness of the reader. For every stored value that has an object wherever a map or a struct is declared: what
      the reader returns has the declared type in every part, every integer in it is the stored number, and map keys
      are the stored names. */
  lemma {:induction false} CellSound(py: Python, j: Json, t: SType, v: Value)
    requires Supported(t) && StringKeyed(t) && Fitting(j, t) && ReadCoerce(py, j, TokenOf(t)) == Got(v)
    ensures Agrees(v, j, t)
    decreases t, 1
  {
    hide ReadCoerce, TokenOf, Fitting, StringKeyed, LeafAgrees;
    if j.JNull? {
      NullSound(py, t, v);
    } else if t.TArray? {
      ArraySound(py, j, t, v);
    } else if t.TMap? {
      MapSound(py, j, t, v);
    } else if t.TStruct? {
      StructSound(py, j, t, v);
    } else {
      ScalarSound(py, j, t, v);
    }
  }

  /** No decimal in the type. */
  ghost predicate DecimalFree(t: SType)
    decreases t
  {
    match t
    case TArray(e) => DecimalFree(e)
    case TMap(k, e) => DecimalFree(k) && DecimalFree(e)
    case TStruct(fields) => forall i :: 0 <= i < |fields| ==> DecimalFree(fields[i].dataType)
    case TDecimal(_, _) => false
    case _ => true
  }

  lemma {:induction false} ArrayInhabits(v: Value, j: Json, t: SType)
    requires t.TArray? && v != VNull && Agrees(v, j, t) && Fitting(j, t) && StringKeyed(t) && DecimalFree(t)
    ensures Inhabits(v, t)
    decreases t, 0
  {
    forall i | 0 <= i < |v.items| ensures Inhabits(v.items[i], t.element) {
      AgreesInhabits(v.items[i], if j.JArray? then j.items[i] else j, t.element);
    }
  }

  lemma {:induction false} MapInhabits(v: Value, j: Json, t: SType)
    requires t.TMap? && v != VNull && Agrees(v, j, t) && Fitting(j, t) && StringKeyed(t) && DecimalFree(t)
    ensures Inhabits(v, t)
    decreases t, 0
  {
    var ms := j.members;
    MapAgrees(v, j, t);
    assert t.key == TString && StringKeyed(t.value) && DecimalFree(t.value);
    hide Agrees, Fitting, StringKeyed, DecimalFree, DistinctKeys, Inhabits;
    assert v == VMap(v.entries) && t == TMap(TString, t.value);
    MapCells(v.entries, TString, t.value);
    NamesAreKeys(ms, v.entries);
    forall i | 0 <= i < |ms| ensures Inhabits(v.entries[i].value, t.value) {
      AgreesInhabits(v.entries[i].value, ms[i].value, t.value);
    }
    forall i | 0 <= i < |ms| ensures Inhabits(v.entries[i].key, TString) {
      NameTyped(ms[i].name);
    }
  }

  lemma NameTyped(name: string)
    ensures Inhabits(VString(name), TString)
  {
  }

  lemma MapAgrees(v: Value, j: Json, t: SType)
    requires t.TMap? && v != VNull && Agrees(v, j, t) && Fitting(j, t)
    ensures j.JObject? && v.VMap? && |v.entries| == |j.members| && DistinctNames(j.members)
    ensures forall i :: 0 <= i < |j.members| ==>
      && v.entries[i].key == VString(j.members[i].name)
      && Agrees(v.entries[i].value, j.members[i].value, t.value) && Fitting(j.members[i].value, t.value)
  {
    hide FieldOf, LeafAgrees;
  }

  lemma NamesAreKeys(ms: seq<Member>, entries: seq<Entry>)
    requires |entries| == |ms| && DistinctNames(ms)
    requires forall i :: 0 <= i < |ms| ==> entries[i].key == VString(ms[i].name)
    ensures DistinctKeys(entries)
  {
    forall i, j | 0 <= i < j < |entries| ensures entries[i].key != entries[j].key {
      assert ms[i].name != ms[j].name;
    }
  }

  lemma {:induction false} StructInhabits(v: Value, j: Json, t: SType)
    requires t.TStruct? && v != VNull && Agrees(v, j, t) && Fitting(j, t) && StringKeyed(t) && DecimalFree(t)
    ensures Inhabits(v, t)
    decreases t, 0
  {
    hide FieldOf;
    forall i | 0 <= i < |t.fields| ensures Inhabits(v.cells[i], t.fields[i].dataType) {
      AgreesInhabits(v.cells[i], FieldOf(j, t.fields[i].name), t.fields[i].dataType);
    }
  }

  lemma LeafInhabits(v: Value, j: Json, t: SType)
    requires !t.TArray? && !t.TMap? && !t.TStruct? && Agrees(v, j, t) && DecimalFree(t) && v != VNull
    ensures Inhabits(v, t)
  {
    assert LeafAgrees(v, j, t) by {
      hide LeafAgrees;
    }
    hide NumberOf, Agrees;
  }

  /** A faithful reading is a cell of the declared type. */
  lemma {:induction false} AgreesInhabits(v: Value, j: Json, t: SType)
    requires Agrees(v, j, t) && Fitting(j, t) && StringKeyed(t) && DecimalFree(t)
    ensures Inhabits(v, t)
    decreases t, 1
  {
    hide Agrees, Fitting, StringKeyed, DecimalFree;
    if v != VNull {
      if t.TArray? {
        ArrayInhabits(v, j, t);
      } else if t.TMap? {
        MapInhabits(v, j, t);
      } else if t.TStruct? {
        StructInhabits(v, j, t);
      } else {
        LeafInhabits(v, j, t);
      }
    }
  }

  const LONGS_BY_NAME := TMap(TString, TInt(Big))
  const LIST_OF_PAIRS := JArray([JArray([JInt(1), JInt(2)])])
  const KEYED_BY_ONE := VMap([Entry(VForeign(JInt(1)), VInt(2))])

  lemma PairsTaken()
    ensures DictOf(LIST_OF_PAIRS) == Some([Pair(JInt(1), JInt(2))])
  {
    var item := JArray([JInt(1), JInt(2)]);
    assert [item][..0] == [];
    assert PairsOf([]) == Some([]);
    assert PairOf(item) == Some(Pair(JInt(1), JInt(2)));
  }

  lemma LongRead(py: Python)
    ensures ReadCoerce(py, JInt(2), TokenOf(TInt(Big))) == Got(VInt(2))
  {
    DispatchWidth(Big);
    LongToken();
    hide KindOf, SimpleString, TokenOf;
    assert ReadScalar(py, JInt(2), Whole(Big)) == Got(VInt(2));
    hide ReadScalar;
  }

  lemma LongToken()
    ensures TokenOf(TInt(Big)) == Scalar(SimpleString(TInt(Big)))
  {
  }

  lemma ReadMapOf(py: Python, j: Json, target: Token, pairs: seq<Pair>, vs: seq<Value>)
    requires target.MapOf? && !j.JNull? && DictOf(j) == Some(pairs) && |vs| == |pairs|
    requires Gather(seq(|pairs|, i requires 0 <= i < |pairs| => ReadCoerce(py, pairs[i].value, target.value))) ==
             Some(vs)
    ensures ReadCoerce(py, j, target) ==
            Got(VMap(seq(|pairs|, i requires 0 <= i < |pairs| => Entry(KeyValue(pairs[i].key), vs[i]))))
  {
    assert seq(|pairs|, i requires 0 <= i < |pairs| => Entry(KeyValue(pairs[i].key), vs[i])) ==
           seq(|pairs|, i requires 0 <= i < |pairs| && i < |vs| => Entry(KeyValue(pairs[i].key), vs[i]));
  }

  /** Where no object is stored the guarantee ends: `dict` also takes a list of pairs, and then a key need not even be
      a string. */
  lemma ListReadAsMap(py: Python)
    ensures ReadCoerce(py, LIST_OF_PAIRS, TokenOf(LONGS_BY_NAME)) == Got(KEYED_BY_ONE)
    ensures !Inhabits(KEYED_BY_ONE, LONGS_BY_NAME)
  {
    PairsTaken();
    LongRead(py);
    var pairs := [Pair(JInt(1), JInt(2))];
    var target := TokenOf(LONGS_BY_NAME);
    assert target.MapOf? && target.value == TokenOf(TInt(Big));
    hide DictOf, ReadCoerce, TokenOf, Inhabits;
    var rs := seq(|pairs|, i requires 0 <= i < |pairs| => ReadCoerce(py, pairs[i].value, target.value));
    GatherOne(rs, VInt(2));
    ReadMapOf(py, LIST_OF_PAIRS, target, pairs, [VInt(2)]);
    assert seq(1, i requires 0 <= i < 1 => Entry(KeyValue(pairs[i].key), [VInt(2)][i])) == KEYED_BY_ONE.entries;
    NotKeyed();
  }

  lemma GatherOne(rs: seq<Result>, v: Value)
    requires |rs| == 1 && rs[0] == Got(v)
    ensures Gather(rs) == Some([v])
  {
    assert Gather(rs).value == [v];
  }

  lemma NotKeyed()
    ensures !Inhabits(KEYED_BY_ONE, LONGS_BY_NAME)
  {
    assert !Inhabits(KEYED_BY_ONE.entries[0].key, TString);
  }
}

/** From a Spark cell to the stored JSON value and back. */
module RoundTrip {
  // The serializer's rewrites, `to_json`, and the reader's coercion by the declared type. What happens to a column
  // before its cells get here is in `Sanitized`.

  import opened Wrappers
  import opened SparkTypes
  import opened Rewriting
  import opened ReadBack
  import Base64
  import Calendar

  /* ---- the write side ---- */

  /** The column type after `normalize_timestamps_for_utc`. */
  function Normalized(t: SType): SType {
    if Has(Stamps, t) then BuiltType(Stamps, t) else t
  }

  /** The cell that reaches `to_json`: timestamps first, by the column's type, then dates and zoneless timestamps and
      then floats, by the normalized type. A column whose type has no leaf is not rewritten at all. */
  function Stored(v: Value, t: SType): Value {
    var u := Normalized(t);
    var v1 := if Has(Stamps, t) then Rewrite(Stamps, v, t) else v;
    var v2 := if Has(Dates, u) then Rewrite(Dates, v1, u) else v1;
    if Has(Floats, u) then Rewrite(Floats, v2, u) else v2
  }

  /** How Spark writes a cell that it has to turn into text, such as a temporal cell or a map key. */
  type Printer = Value -> string

  function LeafJson(text: Printer, v: Value): Json {
    match v
    case VNull => JNull
    case VString(s) => JString(s)
    case VBool(b) => JBool(b)
    case VInt(i) => JInt(i)
    case VFloat(f) => if f.Finite? then JFloat(f) else JString(text(v))
    case VDecimal(d) => if d.Finite? && d.r == d.r.Floor as real then JInt(d.r.Floor) else JFloat(d)
    case VBinary(bytes) => JString(Base64.Encode(bytes))
    case _ => JString(text(v))
  }

  function KeyText(text: Printer, key: Value): string {
    if key.VString? then key.s else text(key)
  }

  /** `to_json` of a cell, null fields kept. The type names the fields of structs. */
  function ToJson(text: Printer, v: Value, t: SType): Json
    decreases t
  {
    if t.TStruct? && v.VStruct? && |v.cells| == |t.fields| then
      JObject(seq(|t.fields|, i requires 0 <= i < |t.fields| =>
        Member(t.fields[i].name, ToJson(text, v.cells[i], t.fields[i].dataType))))
    else if t.TArray? && v.VArray? then
      JArray(seq(|v.items|, i requires 0 <= i < |v.items| => ToJson(text, v.items[i], t.element)))
    else if t.TMap? && v.VMap? then
      JObject(seq(|v.entries|, i requires 0 <= i < |v.entries| =>
        Member(KeyText(text, v.entries[i].key), ToJson(text, v.entries[i].value, t.value))))
    else LeafJson(text, v)
  }

  /** The JSON value stored for a cell of a column of type `t` that holds no variant and no interval below its root. */
  function Serialized(text: Printer, v: Value, t: SType): Json {
    ToJson(text, Stored(v, t), Normalized(t))
  }

  /* ---- the three rewrites as one pass ---- */

  function FlatLeaf(v: Value): Value {
    match v
    case VTimestamp(us) => VInt(us / 1000)
    case VNtz(us) => VInt(us / 1000)
    case VDate(days) => VInt(days * Calendar.MILLIS_PER_DAY)
    case VFloat(f) => if f.Finite? then v else VNull
    case _ => v
  }

  /** The cell with every temporal value in epoch milliseconds and every float finite. */
  function Flat(v: Value, t: SType): Value
    decreases t
  {
    if t.TStruct? && v.VStruct? && |v.cells| == |t.fields| then
      VStruct(seq(|t.fields|, i requires 0 <= i < |t.fields| => Flat(v.cells[i], t.fields[i].dataType)))
    else if t.TArray? && v.VArray? then
      VArray(seq(|v.items|, i requires 0 <= i < |v.items| => Flat(v.items[i], t.element)))
    else if t.TMap? && v.VMap? then
      VMap(seq(|v.entries|, i requires 0 <= i < |v.entries| =>
        Entry(v.entries[i].key, Flat(v.entries[i].value, t.value))))
    else FlatLeaf(v)
  }

  lemma {:induction false} BuiltWithoutLeaves(rule: Rule, t: SType)
    requires !Has(rule, t)
    ensures BuiltType(rule, t) == t
    decreases t
  {
    match t
    case TStruct(fields) =>
      forall i | 0 <= i < |fields| ensures BuiltType(rule, t).fields[i] == fields[i] {
        assert !Has(rule, fields[i].dataType);
      }
      assert BuiltType(rule, t).fields == fields;
    case TArray(e) => BuiltWithoutLeaves(rule, e);
    case TMap(k, e) => BuiltWithoutLeaves(rule, e);
    case _ =>
  }

  lemma {:induction false} FloatsKeepTypes(t: SType)
    ensures BuiltType(Floats, t) == t
    decreases t
  {
    match t
    case TStruct(fields) =>
      forall i | 0 <= i < |fields| ensures BuiltType(Floats, t).fields[i] == fields[i] {
        FloatsKeepTypes(fields[i].dataType);
      }
      assert BuiltType(Floats, t).fields == fields;
    case TArray(e) => FloatsKeepTypes(e);
    case TMap(k, e) => FloatsKeepTypes(e);
    case _ =>
  }

  /** Looking for leaves before rewriting a column makes no difference. */
  lemma ColumnIsEverywhere(rule: Rule, v: Value, t: SType)
    requires Inhabits(v, t)
    ensures Rewrite(rule, v, t) == Everywhere(rule, v, t)
    ensures !Has(rule, t) ==> Rewrite(rule, v, t) == v
    ensures Inhabits(Everywhere(rule, v, t), BuiltType(rule, t))
  {
    hide Has, Rewrite, Everywhere, Inhabits, BuiltType;
    PruningIsExact(rule, v, t);
    RewriteTyped(rule, v, t);
    if !Has(rule, t) {
      NothingToRewrite(rule, v, t);
    }
  }

  /** All three rewrites, everywhere, floats before dates. */
  function Thrice(v: Value, t: SType): Value {
    var u := BuiltType(Stamps, t);
    Everywhere(Dates, Everywhere(Floats, Everywhere(Stamps, v, t), u), u)
  }

  lemma StoredIsThrice(v: Value, t: SType)
    requires Inhabits(v, t)
    ensures Stored(v, t) == Thrice(v, t)
  {
    hide Has, Rewrite, Everywhere, Inhabits, BuiltType;
    var u := BuiltType(Stamps, t);
    if !Has(Stamps, t) {
      BuiltWithoutLeaves(Stamps, t);
    }
    ColumnIsEverywhere(Stamps, v, t);
    var v1 := Everywhere(Stamps, v, t);
    FloatsKeepTypes(u);
    ColumnIsEverywhere(Floats, v1, u);
    ColumnIsEverywhere(Dates, v1, u);
    ColumnIsEverywhere(Dates, Everywhere(Floats, v1, u), u);
    FloatsAndDatesCommute(v1, u);
  }

  lemma NullStays(rule: Rule, t: SType)
    ensures Everywhere(rule, VNull, t) == VNull
  {
  }

  lemma EverywhereScalar(rule: Rule, v: Value, t: SType)
    requires !t.TStruct? && !t.TArray? && !t.TMap?
    ensures Everywhere(rule, v, t) == if IsLeaf(rule, t) then Leaf(rule, v) else v
    ensures BuiltType(rule, t) == if IsLeaf(rule, t) && rule != Floats then LONG else t
  {
  }

  function LeafIf(rule: Rule, v: Value, t: SType): Value {
    if IsLeaf(rule, t) then Leaf(rule, v) else v
  }

  lemma LeavesAreFlat(v: Value, t: SType)
    requires !t.TStruct? && !t.TArray? && !t.TMap? && Inhabits(v, t)
    ensures var u := if IsLeaf(Stamps, t) then LONG else t;
      LeafIf(Dates, LeafIf(Floats, LeafIf(Stamps, v, t), u), u) == FlatLeaf(v)
  {
    hide Calendar.NtzMillis, Fits;
    if v.VNtz? {
      Calendar.NtzFloors(v.us);
    }
  }

  lemma ThriceScalar(v: Value, t: SType)
    requires !t.TStruct? && !t.TArray? && !t.TMap? && Inhabits(v, t)
    ensures Thrice(v, t) == FlatLeaf(v)
  {
    LeavesAreFlat(v, t);
    hide Everywhere, BuiltType, Inhabits, FlatLeaf, IsLeaf, Leaf;
    var u := BuiltType(Stamps, t);
    EverywhereScalar(Stamps, v, t);
    var v1 := Everywhere(Stamps, v, t);
    EverywhereScalar(Floats, v1, u);
    EverywhereScalar(Dates, Everywhere(Floats, v1, u), u);
  }

  lemma ThriceNull(t: SType)
    ensures Thrice(VNull, t) == VNull == FlatLeaf(VNull)
  {
    hide Everywhere, BuiltType;
    NullStays(Stamps, t);
    NullStays(Floats, BuiltType(Stamps, t));
    NullStays(Dates, BuiltType(Stamps, t));
  }

  lemma ThriceLeaf(v: Value, t: SType)
    requires !(t.TStruct? && v.VStruct?) && !(t.TArray? && v.VArray?) && !(t.TMap? && v.VMap?) && Inhabits(v, t)
    ensures Thrice(v, t) == Flat(v, t)
  {
    assert Flat(v, t) == FlatLeaf(v);
    assert t.TStruct? || t.TArray? || t.TMap? ==> v == VNull;
    hide *;
    if t.TStruct? || t.TArray? || t.TMap? {
      ThriceNull(t);
    } else {
      ThriceScalar(v, t);
    }
  }

  lemma {:induction false} ThriceIsFlat(v: Value, t: SType)
    requires Inhabits(v, t)
    ensures Thrice(v, t) == Flat(v, t)
    decreases t, 1
  {
    hide Thrice, Flat, Inhabits;
    if t.TStruct? && v.VStruct? {
      ThriceStruct(v, t);
    } else if t.TArray? && v.VArray? {
      ThriceArray(v, t);
    } else if t.TMap? && v.VMap? {
      ThriceMap(v, t);
    } else {
      ThriceLeaf(v, t);
    }
  }

  lemma {:induction false} ThriceStruct(v: Value, t: SType)
    requires t.TStruct? && v.VStruct? && Inhabits(v, t)
    ensures Thrice(v, t) == Flat(v, t)
    decreases t, 0
  {
    var fields := t.fields;
    forall i | 0 <= i < |fields| ensures Thrice(v, t).cells[i] == Flat(v.cells[i], fields[i].dataType) {
      ThriceIsFlat(v.cells[i], fields[i].dataType);
      if !Has(Stamps, fields[i].dataType) {
        BuiltWithoutLeaves(Stamps, fields[i].dataType);
      }
      assert BuiltType(Stamps, t).fields[i].dataType == BuiltType(Stamps, fields[i].dataType);
    }
    assert Thrice(v, t).cells == Flat(v, t).cells;
  }

  lemma {:induction false} ThriceArray(v: Value, t: SType)
    requires t.TArray? && v.VArray? && Inhabits(v, t)
    ensures Thrice(v, t) == Flat(v, t)
    decreases t, 0
  {
    forall i | 0 <= i < |v.items| ensures Thrice(v, t).items[i] == Flat(v.items[i], t.element) {
      ThriceIsFlat(v.items[i], t.element);
    }
    assert Thrice(v, t).items == Flat(v, t).items;
  }

  lemma {:induction false} ThriceMap(v: Value, t: SType)
    requires t.TMap? && v.VMap? && Inhabits(v, t)
    ensures Thrice(v, t) == Flat(v, t)
    decreases t, 0
  {
    forall i | 0 <= i < |v.entries| ensures Thrice(v, t).entries[i].value == Flat(v.entries[i].value, t.value) {
      ThriceIsFlat(v.entries[i].value, t.value);
    }
    assert Thrice(v, t).entries == Flat(v, t).entries;
  }

  /** What reaches `to_json` is the cell rewritten in one pass, whatever the nesting. */
  lemma StoredIsFlat(v: Value, t: SType)
    requires Inhabits(v, t)
    ensures Stored(v, t) == Flat(v, t)
  {
    hide Stored, Thrice, Flat, Inhabits;
    StoredIsThrice(v, t);
    ThriceIsFlat(v, t);
  }

  /* ---- reading it back ---- */

  /** The types that come back: decimals without a fraction, maps with string keys, structs with distinct names. */
  ghost predicate ComesBack(t: SType)
    decreases t
  {
    match t
    case TDecimal(_, scale) => scale == 0
    case TArray(e) => ComesBack(e)
    case TMap(k, e) => k == TString && ComesBack(e)
    case TStruct(fields) =>
      && (forall i :: 0 <= i < |fields| ==> ComesBack(fields[i].dataType))
      && (forall i, j :: 0 <= i < j < |fields| ==> fields[i].name != fields[j].name)
    case TChar(_) => false
    case TVarchar(_) => false
    case TVoid => false
    case TOther(_) => false
    case _ => true
  }

  function CanonLeaf(v: Value): Value {
    match v
    case VTimestamp(us) => VTimestamp(us - us % 1000)
    case VNtz(us) => VNtz(us - us % 1000)
    case VFloat(f) => if f.Finite? then v else VNull
    case _ => v
  }

  /** What a cell has become when it is read back: timestamps floored to the millisecond, floats that are not finite
      null, everything else itself. */
  function Canon(v: Value, t: SType): Value
    decreases t
  {
    if t.TStruct? && v.VStruct? && |v.cells| == |t.fields| then
      VStruct(seq(|t.fields|, i requires 0 <= i < |t.fields| => Canon(v.cells[i], t.fields[i].dataType)))
    else if t.TArray? && v.VArray? then
      VArray(seq(|v.items|, i requires 0 <= i < |v.items| => Canon(v.items[i], t.element)))
    else if t.TMap? && v.VMap? then
      VMap(seq(|v.entries|, i requires 0 <= i < |v.entries| =>
        Entry(v.entries[i].key, Canon(v.entries[i].value, t.value))))
    else CanonLeaf(v)
  }

  predicate LeafInRange(v: Value) {
    match v
    case VTimestamp(us) => FIRST_MILLI <= us / 1000 <= LAST_MILLI
    case VNtz(us) => FIRST_MILLI <= us / 1000 <= LAST_MILLI
    case VDate(days) => FIRST_MILLI <= days * Calendar.MILLIS_PER_DAY <= LAST_MILLI
    case _ => true
  }

  /** Every temporal value in the cell lies in the years 1 to 9999. */
  ghost predicate InRange(v: Value, t: SType)
    decreases t
  {
    if t.TStruct? && v.VStruct? && |v.cells| == |t.fields| then
      forall i :: 0 <= i < |t.fields| ==> InRange(v.cells[i], t.fields[i].dataType)
    else if t.TArray? && v.VArray? then
      forall i :: 0 <= i < |v.items| ==> InRange(v.items[i], t.element)
    else if t.TMap? && v.VMap? then
      forall i :: 0 <= i < |v.entries| ==> InRange(v.entries[i].value, t.value)
    else LeafInRange(v)
  }

  /** The result a round trip is to have. */
  ghost function Back(v: Value, t: SType): Result {
    if InRange(v, t) then Got(Canon(v, t)) else Refused
  }

  function BackLeaf(v: Value): Result {
    if LeafInRange(v) then Got(CanonLeaf(v)) else Refused
  }

  lemma TemporalTrip(py: Python, text: Printer, v: Value, t: SType)
    requires (t.TDate? || t.TTimestamp? || t.TNtz?) && Inhabits(v, t) && v != VNull
    ensures ReadScalar(py, LeafJson(text, FlatLeaf(v)), Meant(t)) == BackLeaf(v)
  {
    hide Fits;
    if v.VDate? {
      Calendar.DateRoundTrip(v.days);
    }
  }

  lemma BinaryTrip(py: Python, text: Printer, v: Value)
    requires v.VBinary?
    ensures ReadScalar(py, LeafJson(text, FlatLeaf(v)), Bytes) == BackLeaf(v)
  {
    hide Base64.Encode, Base64.Decode;
    Base64.DecodeEncode(v.bytes);
  }

  lemma NumberTrip(py: Python, text: Printer, v: Value, t: SType)
    requires (t.TInt? || t.TFloat? || t.TDouble? || t.TDecimal?) && ComesBack(t) && Inhabits(v, t) && v != VNull
    requires FlatLeaf(v) != VNull
    ensures ReadScalar(py, LeafJson(text, FlatLeaf(v)), Meant(t)) == BackLeaf(v)
  {
    hide Fits;
  }

  lemma TextTrip(py: Python, text: Printer, v: Value, t: SType)
    requires (t.TString? || t.TVariant? || t.TInterval? || t.TBool?) && Inhabits(v, t) && v != VNull
    ensures ReadScalar(py, LeafJson(text, FlatLeaf(v)), Meant(t)) == BackLeaf(v)
  {
  }

  lemma NullTrip(text: Printer, v: Value)
    ensures LeafJson(text, FlatLeaf(v)).JNull? <==> FlatLeaf(v) == VNull
    ensures FlatLeaf(v) == VNull ==> BackLeaf(v) == Got(VNull)
    ensures v == VNull ==> FlatLeaf(v) == VNull
  {
  }

  lemma ReadableScalar(t: SType)
    requires !t.TStruct? && !t.TArray? && !t.TMap? && ComesBack(t)
    ensures KindOf(SimpleString(t)) == Meant(t) != Unreadable
    ensures
      || t.TDate? || t.TTimestamp? || t.TNtz? || t.TBinary? || t.TInt? || t.TFloat? || t.TDouble? || t.TDecimal?
      || t.TString? || t.TVariant? || t.TInterval? || t.TBool?
  {
    hide KindOf, SimpleString;
    Dispatch(t);
  }

  lemma ScalarTrip(py: Python, text: Printer, v: Value, t: SType)
    requires !t.TStruct? && !t.TArray? && !t.TMap? && ComesBack(t) && Inhabits(v, t)
    ensures ReadCoerce(py, LeafJson(text, FlatLeaf(v)), Scalar(SimpleString(t))) == BackLeaf(v)
  {
    hide KindOf, SimpleString, ReadScalar, LeafJson, FlatLeaf, BackLeaf, ComesBack;
    ReadableScalar(t);
    NullTrip(text, v);
    if FlatLeaf(v) == VNull {
      return;
    }
    if t.TDate? || t.TTimestamp? || t.TNtz? {
      TemporalTrip(py, text, v, t);
    } else if t.TBinary? {
      BinaryTrip(py, text, v);
    } else if t.TInt? || t.TFloat? || t.TDouble? || t.TDecimal? {
      NumberTrip(py, text, v, t);
    } else {
      TextTrip(py, text, v, t);
    }
  }

  /* ---- containers ---- */

  lemma GatherGot(rs: seq<Result>, vs: seq<Value>)
    requires |rs| == |vs| && forall i :: 0 <= i < |rs| ==> rs[i] == Got(vs[i])
    ensures Gather(rs) == Some(vs)
  {
    assert Gather(rs).value == vs;
  }

  lemma GatherRefused(rs: seq<Result>, i: nat)
    requires i < |rs| && rs[i] == Refused
    ensures Gather(rs) == None
  {
  }

  lemma AllGood(good: seq<bool>)
    ensures false !in good <==> forall i :: 0 <= i < |good| ==> good[i]
  {
    if false !in good {
      forall i | 0 <= i < |good| ensures good[i] {
        assert good[i] in good;
      }
    }
  }

  /** Reading parts that each come back, or are refused for being out of range. */
  lemma GatherBack(rs: seq<Result>, vs: seq<Value>, good: seq<bool>)
    requires |rs| == |vs| == |good|
    requires forall i :: 0 <= i < |rs| ==> rs[i] == if good[i] then Got(vs[i]) else Refused
    ensures Gather(rs) == if false in good then None else Some(vs)
  {
    if false in good {
      var i :| 0 <= i < |good| && !good[i];
      GatherRefused(rs, i);
    } else {
      AllGood(good);
      GatherGot(rs, vs);
    }
  }

  /* ---- arrays ---- */

  lemma ArrayInRange(v: Value, t: SType)
    requires t.TArray? && v.VArray?
    ensures var good := seq(|v.items|, i requires 0 <= i < |v.items| => InRange(v.items[i], t.element));
      InRange(v, t) <==> false !in good
  {
    var good := seq(|v.items|, i requires 0 <= i < |v.items| => InRange(v.items[i], t.element));
    AllGood(good);
    if false !in good {
      forall i | 0 <= i < |v.items| ensures InRange(v.items[i], t.element) {
        assert good[i];
      }
    } else {
      var i :| 0 <= i < |good| && !good[i];
      assert !InRange(v.items[i], t.element);
    }
  }

  lemma {:induction false} ArrayTrip(py: Python, text: Printer, v: Value, t: SType)
    requires t.TArray? && v.VArray? && ComesBack(t) && Inhabits(v, t)
    ensures ReadCoerce(py, ToJson(text, Flat(v, t), t), TokenOf(t)) == Back(v, t)
    decreases t, 0
  {
    var n, e := |v.items|, t.element;
    var items := ToJson(text, Flat(v, t), t).items;
    var rs := seq(n, i requires 0 <= i < n => ReadCoerce(py, items[i], TokenOf(e)));
    var vs := Canon(v, t).items;
    ghost var good := seq(n, i requires 0 <= i < n => InRange(v.items[i], e));
    forall i | 0 <= i < n ensures rs[i] == if good[i] then Got(vs[i]) else Refused {
      CellTrip(py, text, v.items[i], e);
    }
    GatherBack(rs, vs, good);
    ArrayInRange(v, t);
  }

  /* ---- maps ---- */

  lemma MapInRange(v: Value, t: SType)
    requires t.TMap? && v.VMap?
    ensures var good := seq(|v.entries|, i requires 0 <= i < |v.entries| => InRange(v.entries[i].value, t.value));
      InRange(v, t) <==> false !in good
  {
    var good := seq(|v.entries|, i requires 0 <= i < |v.entries| => InRange(v.entries[i].value, t.value));
    AllGood(good);
    if false !in good {
      forall i | 0 <= i < |v.entries| ensures InRange(v.entries[i].value, t.value) {
        assert good[i];
      }
    } else {
      var i :| 0 <= i < |good| && !good[i];
      assert !InRange(v.entries[i].value, t.value);
    }
  }

  /** Reading an object as a map, in terms of the values of its members. */
  lemma MapRead(py: Python, ms: seq<Member>, target: Token, vs: Option<seq<Value>>)
    requires target.MapOf?
    requires Gather(seq(|ms|, i requires 0 <= i < |ms| => ReadCoerce(py, ms[i].value, target.value))) == vs
    ensures ReadCoerce(py, JObject(ms), target) ==
      match vs
      case None => Refused
      case Some(ws) =>
        Got(VMap(seq(|ms|, i requires 0 <= i < |ms| && i < |ws| => Entry(VString(ms[i].name), ws[i]))))
  {
    var pairs := DictOf(JObject(ms)).value;
    var rs := seq(|ms|, i requires 0 <= i < |ms| => ReadCoerce(py, ms[i].value, target.value));
    assert rs == seq(|pairs|, i requires 0 <= i < |pairs| => ReadCoerce(py, pairs[i].value, target.value));
    if vs.Some? {
      var ws := vs.value;
      assert seq(|pairs|, i requires 0 <= i < |pairs| && i < |ws| => Entry(KeyValue(pairs[i].key), ws[i])) ==
             seq(|ms|, i requires 0 <= i < |ms| && i < |ws| => Entry(VString(ms[i].name), ws[i]));
    }
  }

  lemma MapMembers(text: Printer, v: Value, t: SType)
    requires t.TMap? && v.VMap? && ComesBack(t) && Inhabits(v, t)
    ensures var j := ToJson(text, Flat(v, t), t);
      && j.JObject? && |j.members| == |v.entries|
      && forall i :: 0 <= i < |v.entries| ==>
           && VString(j.members[i].name) == v.entries[i].key
           && j.members[i].value == ToJson(text, Flat(v.entries[i].value, t.value), t.value)
  {
    forall i | 0 <= i < |v.entries| ensures v.entries[i].key.VString? {
      assert Inhabits(v.entries[i].key, TString) && v.entries[i].key != VNull;
    }
  }

  /** The canonical values of a map. */
  function CanonValues(v: Value, t: SType): (vs: seq<Value>)
    requires t.TMap? && v.VMap?
    ensures |vs| == |v.entries|
  {
    seq(|v.entries|, i requires 0 <= i < |v.entries| => Canon(v.entries[i].value, t.value))
  }

  lemma MapGathered(py: Python, ms: seq<Member>, v: Value, t: SType)
    requires t.TMap? && v.VMap? && |ms| == |v.entries|
    requires forall i :: 0 <= i < |ms| ==>
      ReadCoerce(py, ms[i].value, TokenOf(t.value)) == Back(v.entries[i].value, t.value)
    ensures Gather(seq(|ms|, i requires 0 <= i < |ms| => ReadCoerce(py, ms[i].value, TokenOf(t.value)))) ==
            if InRange(v, t) then Some(CanonValues(v, t)) else None
  {
    var n, e := |ms|, t.value;
    MapInRange(v, t);
    hide ReadCoerce, InRange, Canon, Gather, TokenOf;
    var rs := seq(n, i requires 0 <= i < n => ReadCoerce(py, ms[i].value, TokenOf(e)));
    ghost var good := seq(n, i requires 0 <= i < n => InRange(v.entries[i].value, e));
    GatherBack(rs, CanonValues(v, t), good);
  }

  lemma MapRebuilt(ms: seq<Member>, v: Value, t: SType)
    requires t.TMap? && v.VMap? && |ms| == |v.entries|
    requires forall i :: 0 <= i < |ms| ==> VString(ms[i].name) == v.entries[i].key
    ensures var vs := CanonValues(v, t);
      VMap(seq(|ms|, i requires 0 <= i < |ms| && i < |vs| => Entry(VString(ms[i].name), vs[i]))) == Canon(v, t)
  {
    hide CanonLeaf;
    var vs := CanonValues(v, t);
    assert seq(|ms|, i requires 0 <= i < |ms| && i < |vs| => Entry(VString(ms[i].name), vs[i])) == Canon(v, t).entries;
  }

  lemma {:induction false} MapTrip(py: Python, text: Printer, v: Value, t: SType)
    requires t.TMap? && v.VMap? && ComesBack(t) && Inhabits(v, t)
    ensures ReadCoerce(py, ToJson(text, Flat(v, t), t), TokenOf(t)) == Back(v, t)
    decreases t, 0
  {
    MapMembers(text, v, t);
    MapCells(v.entries, t.key, t.value);
    assert ComesBack(t.value) && TokenOf(t).MapOf? && TokenOf(t).value == TokenOf(t.value);
    hide ToJson, Flat, Inhabits, ComesBack, TokenOf, DistinctKeys, ReadCoerce, Canon, InRange, Gather, CanonValues;
    var ms := ToJson(text, Flat(v, t), t).members;
    forall i | 0 <= i < |ms|
      ensures ReadCoerce(py, ms[i].value, TokenOf(t.value)) == Back(v.entries[i].value, t.value)
    {
      CellTrip(py, text, v.entries[i].value, t.value);
    }
    MapGathered(py, ms, v, t);
    MapRead(py, ms, TokenOf(t), if InRange(v, t) then Some(CanonValues(v, t)) else None);
    MapRebuilt(ms, v, t);
  }

  /* ---- structs ---- */

  lemma StructInRange(v: Value, t: SType)
    requires t.TStruct? && v.VStruct? && |v.cells| == |t.fields|
    ensures
      var good := seq(|t.fields|, i requires 0 <= i < |t.fields| => InRange(v.cells[i], t.fields[i].dataType));
      InRange(v, t) <==> false !in good
  {
    var good := seq(|t.fields|, i requires 0 <= i < |t.fields| => InRange(v.cells[i], t.fields[i].dataType));
    AllGood(good);
    if false !in good {
      forall i | 0 <= i < |t.fields| ensures InRange(v.cells[i], t.fields[i].dataType) {
        assert good[i];
      }
    } else {
      var i :| 0 <= i < |good| && !good[i];
      assert !InRange(v.cells[i], t.fields[i].dataType);
    }
  }

  /** Looking up a name of an object finds the value of its member. */
  lemma {:induction false} GetMember(pairs: seq<Pair>, i: nat, name: string)
    requires i < |pairs| && pairs[i].key == JString(name)
    requires forall k :: 0 <= k < i ==> pairs[k].key != JString(name)
    ensures Get(pairs, name) == pairs[i].value
  {
    if i > 0 {
      GetMember(pairs[1..], i - 1, name);
    }
  }

  lemma ObjectGet(ms: seq<Member>, i: nat)
    requires i < |ms| && DistinctNames(ms)
    ensures Get(DictOf(JObject(ms)).value, ms[i].name) == ms[i].value
  {
    GetMember(DictOf(JObject(ms)).value, i, ms[i].name);
  }

  lemma StructMembers(text: Printer, v: Value, t: SType)
    requires t.TStruct? && v.VStruct? && ComesBack(t) && Inhabits(v, t)
    ensures var j := ToJson(text, Flat(v, t), t);
      && j.JObject? && |j.members| == |t.fields| && DistinctNames(j.members)
      && forall i :: 0 <= i < |t.fields| ==>
           && j.members[i].name == t.fields[i].name
           && j.members[i].value == ToJson(text, Flat(v.cells[i], t.fields[i].dataType), t.fields[i].dataType)
  {
  }

  lemma {:induction false} StructTrip(py: Python, text: Printer, v: Value, t: SType)
    requires t.TStruct? && v.VStruct? && ComesBack(t) && Inhabits(v, t)
    ensures ReadCoerce(py, ToJson(text, Flat(v, t), t), TokenOf(t)) == Back(v, t)
    decreases t, 0
  {
    var n := |t.fields|;
    StructMembers(text, v, t);
    hide ToJson, Flat;
    var ms := ToJson(text, Flat(v, t), t).members;
    var target := TokenOf(t);
    var pairs := DictOf(JObject(ms)).value;
    var rs := seq(n, i requires 0 <= i < n =>
      ReadCoerce(py, Get(pairs, target.fields[i].name), target.fields[i].token));
    var vs := Canon(v, t).cells;
    ghost var good := seq(n, i requires 0 <= i < n => InRange(v.cells[i], t.fields[i].dataType));
    forall i | 0 <= i < n ensures rs[i] == if good[i] then Got(vs[i]) else Refused {
      CellTrip(py, text, v.cells[i], t.fields[i].dataType);
      ObjectGet(ms, i);
    }
    GatherBack(rs, vs, good);
    StructInRange(v, t);
  }

  lemma NullCell(py: Python, text: Printer, t: SType)
    requires t.TStruct? || t.TArray? || t.TMap?
    ensures ReadCoerce(py, ToJson(text, Flat(VNull, t), t), TokenOf(t)) == Back(VNull, t)
  {
  }

  lemma ScalarJson(text: Printer, v: Value, t: SType)
    requires !t.TStruct? && !t.TArray? && !t.TMap?
    ensures ToJson(text, Flat(v, t), t) == LeafJson(text, FlatLeaf(v))
  {
    hide LeafJson, FlatLeaf;
  }

  lemma ScalarBack(v: Value, t: SType)
    requires !t.TStruct? && !t.TArray? && !t.TMap?
    ensures Back(v, t) == BackLeaf(v)
  {
    hide CanonLeaf, LeafInRange;
  }

  lemma ScalarToken(t: SType)
    requires !t.TStruct? && !t.TArray? && !t.TMap?
    ensures TokenOf(t) == Scalar(SimpleString(t))
  {
    hide SimpleString;
  }

  lemma LeafTrip(py: Python, text: Printer, v: Value, t: SType)
    requires !(t.TStruct? && v.VStruct?) && !(t.TArray? && v.VArray?) && !(t.TMap? && v.VMap?)
    requires ComesBack(t) && Inhabits(v, t)
    ensures ReadCoerce(py, ToJson(text, Flat(v, t), t), TokenOf(t)) == Back(v, t)
  {
    hide ToJson, Flat, TokenOf, ReadCoerce, ComesBack, Back, SimpleString;
    if t.TStruct? || t.TArray? || t.TMap? {
      NullCell(py, text, t);
    } else {
      ScalarJson(text, v, t);
      ScalarBack(v, t);
      ScalarToken(t);
      ScalarTrip(py, text, v, t);
    }
  }

  /** A rewritten cell, printed and read back under its declared type, is the cell in its canonical form; it is
      refused exactly when it holds a temporal value outside the years Python knows. */
  lemma {:induction false} CellTrip(py: Python, text: Printer, v: Value, t: SType)
    requires ComesBack(t) && Inhabits(v, t)
    ensures ReadCoerce(py, ToJson(text, Flat(v, t), t), TokenOf(t)) == Back(v, t)
    decreases t, 1
  {
    hide ToJson, Flat, TokenOf, ReadCoerce, ComesBack, Inhabits, Back;
    if t.TStruct? && v.VStruct? {
      StructTrip(py, text, v, t);
    } else if t.TArray? && v.VArray? {
      ArrayTrip(py, text, v, t);
    } else if t.TMap? && v.VMap? {
      MapTrip(py, text, v, t);
    } else {
      LeafTrip(py, text, v, t);
    }
  }

  /* ---- the whole way ---- */

  /** `to_json` sees only the shape of the type, which the rewrite of timestamps keeps. */
  lemma {:induction false} JsonByShape(text: Printer, v: Value, t: SType)
    ensures ToJson(text, v, BuiltType(Stamps, t)) == ToJson(text, v, t)
    decreases t, 1
  {
    hide LeafJson, Has;
    if t.TStruct? && v.VStruct? && |v.cells| == |t.fields| {
      StructByShape(text, v, t);
    } else if t.TArray? && v.VArray? {
      var u := BuiltType(Stamps, t);
      forall i | 0 <= i < |v.items| ensures ToJson(text, v, u).items[i] == ToJson(text, v, t).items[i] {
        JsonByShape(text, v.items[i], t.element);
      }
      assert ToJson(text, v, u).items == ToJson(text, v, t).items;
    } else if t.TMap? && v.VMap? {
      var u := BuiltType(Stamps, t);
      forall i | 0 <= i < |v.entries| ensures ToJson(text, v, u).members[i] == ToJson(text, v, t).members[i] {
        JsonByShape(text, v.entries[i].value, t.value);
      }
      assert ToJson(text, v, u).members == ToJson(text, v, t).members;
    }
  }

  lemma {:induction false} StructByShape(text: Printer, v: Value, t: SType)
    requires t.TStruct? && v.VStruct? && |v.cells| == |t.fields|
    ensures ToJson(text, v, BuiltType(Stamps, t)) == ToJson(text, v, t)
    decreases t, 0
  {
    var u := BuiltType(Stamps, t);
    forall i | 0 <= i < |t.fields| ensures ToJson(text, v, u).members[i] == ToJson(text, v, t).members[i] {
      JsonByShape(text, v.cells[i], t.fields[i].dataType);
    }
    assert ToJson(text, v, u).members == ToJson(text, v, t).members;
  }

  /** Serialized, then read: the reader returns the canonical form of the cell that was serialized, or refuses it
      exactly when a temporal value in it is out of Python's range. */
  lemma SerializedThenRead(py: Python, text: Printer, v: Value, t: SType)
    requires ComesBack(t) && Inhabits(v, t)
    ensures ReadCoerce(py, Serialized(text, v, t), TokenOf(t)) == Back(v, t)
  {
    hide ToJson, Flat, Stored, TokenOf, ReadCoerce, ComesBack, Inhabits, Back;
    StoredIsFlat(v, t);
    JsonByShape(text, Flat(v, t), t);
    CellTrip(py, text, v, t);
  }
}

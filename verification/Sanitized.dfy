/** A column on its whole way: sanitized for Arrow, serialized, stored, and read back under its declared type. */
module Sanitized {
  // A column that holds a variant or an interval at any depth becomes text before anything else happens to it. Where
  // the variant or the interval is the column itself, that text is how its cells are written anyway. Where it lies
  // deeper, the whole column is one JSON text, and the structure around the variant or the interval is not read
  // back.

  import opened SparkTypes
  import opened ReadBack
  import opened RoundTrip
  import opened TypeScanner

  /** How Spark turns a cell into text where it has to, and what `to_json` makes of a whole cell. */
  datatype Spark = Spark(cell: Printer, nested: (Value, SType) -> string)

  /** A JSON text is not empty. */
  ghost predicate WritesText(spark: Spark) {
    forall v, t :: spark.nested(v, t) != ""
  }

  /** A variant or an interval below the root of the type. */
  predicate HostileBelow(t: SType) {
    ContainsHostile(t) && !t.TVariant? && !t.TInterval?
  }

  /** The cell of a sanitized column. A null stays null; a variant and an interval are given by their texts. */
  function SanitizedCell(spark: Spark, v: Value, t: SType): Value {
    if v != VNull && HostileBelow(t) then VString(spark.nested(v, t)) else v
  }

  function SanitizedType(t: SType): SType {
    if ContainsHostile(t) then TString else t
  }

  /** The JSON value stored for a cell of a column of type `t`. */
  function Source(spark: Spark, v: Value, t: SType): Json {
    Serialized(spark.cell, SanitizedCell(spark, v, t), SanitizedType(t))
  }

  /** What reading a text makes of it: a list of one for each array of the type, and nothing for a struct or a map. */
  function TextBack(text: string, t: SType): Result
    decreases t
  {
    match t
    case TVariant => Got(VString(text))
    case TInterval(_) => Got(VString(text))
    case TArray(e) => (match TextBack(text, e) case Got(v) => Got(VArray([v])) case Refused => Refused)
    case _ => Refused
  }

  /** The result of writing a cell and reading it back. */
  ghost function ReadResult(spark: Spark, v: Value, t: SType): Result {
    if v != VNull && HostileBelow(t) then TextBack(spark.nested(v, t), t) else Back(v, t)
  }

  lemma TextSerialized(text: Printer, v: Value)
    requires v == VNull || v.VString?
    ensures Serialized(text, v, TString) == if v == VNull then JNull else JString(v.s)
  {
  }

  lemma TextScalar(py: Python, text: string, t: SType)
    requires t.TVariant? || t.TInterval?
    ensures ReadCoerce(py, JString(text), TokenOf(t)) == Got(VString(text))
  {
    hide KindOf, SimpleString;
    Dispatch(t);
  }

  lemma TextElement(py: Python, text: string, element: Token, r: Result)
    requires ReadCoerce(py, JString(text), element) == r
    ensures ReadCoerce(py, JString(text), ArrayOf(element)) ==
            match r case Got(v) => Got(VArray([v])) case Refused => Refused
  {
    hide KindOf, ReadScalar, Gather, DictOf, Get;
    var rs := seq(1, i requires 0 <= i < 1 => ReadCoerce(py, [JString(text)][i], element));
    if r.Got? {
      GatherGot(rs, [r.v]);
    } else {
      GatherRefused(rs, 0);
    }
  }

  lemma {:induction false} TextRead(py: Python, text: string, t: SType)
    requires ContainsHostile(t) && text != ""
    ensures ReadCoerce(py, JString(text), TokenOf(t)) == TextBack(text, t)
    decreases t
  {
    match t
    case TArray(e) =>
      TextRead(py, text, e);
      hide ReadCoerce;
      TextElement(py, text, TokenOf(e), TextBack(text, e));
    case TStruct(_) =>
    case TMap(_, _) =>
    case _ => TextScalar(py, text, t);
  }

  lemma NullRead(py: Python, t: SType)
    requires ComesBack(t)
    ensures ReadCoerce(py, JNull, TokenOf(t)) == Got(VNull)
  {
    hide KindOf, SimpleString, ComesBack;
    if !t.TStruct? && !t.TArray? && !t.TMap? {
      ReadableScalar(t);
    }
  }

  lemma NullBack(t: SType)
    ensures Back(VNull, t) == Got(VNull)
  {
  }

  /** A variant or an interval that is the column itself is stored as its text. */
  lemma RootText(py: Python, text: Printer, v: Value, t: SType)
    requires (t.TVariant? || t.TInterval?) && Inhabits(v, t) && v != VNull
    ensures ReadCoerce(py, Serialized(text, v, TString), TokenOf(t)) == Back(v, t)
  {
    TextSerialized(text, v);
    TextScalar(py, v.s, t);
    hide ReadCoerce, TokenOf, Serialized;
    ScalarBack(v, t);
  }

  /** Write, then read, for every type that comes back and every cell of it: the reader returns the canonical form of
      the cell, or refuses it exactly when a temporal value in it is out of Python's range, unless a variant or an
      interval lies below the root of the type. Then it returns the text of the cell, as far as the type takes text. */
  lemma WriteThenRead(py: Python, spark: Spark, v: Value, t: SType)
    requires ComesBack(t) && Inhabits(v, t) && WritesText(spark)
    ensures ReadCoerce(py, Source(spark, v, t), TokenOf(t)) == ReadResult(spark, v, t)
  {
    hide Serialized, TokenOf, ReadCoerce, ComesBack, Inhabits, Back, ContainsHostile, TextBack;
    if !ContainsHostile(t) {
      SerializedThenRead(py, spark.cell, v, t);
    } else if v == VNull {
      TextSerialized(spark.cell, v);
      NullRead(py, t);
      NullBack(t);
    } else if HostileBelow(t) {
      TextSerialized(spark.cell, VString(spark.nested(v, t)));
      TextRead(py, spark.nested(v, t), t);
    } else {
      RootText(py, spark.cell, v, t);
    }
  }

  /* ---- exactly which types come back ---- */

  /** A cell of a container type that holds nothing. */
  function Hollow(t: SType): Value {
    match t
    case TArray(_) => VArray([])
    case TMap(_, _) => VMap([])
    case TStruct(fields) => VStruct(seq(|fields|, i => VNull))
    case _ => VNull
  }

  lemma HollowIsLost(spark: Spark, t: SType)
    requires HostileBelow(t)
    ensures Inhabits(Hollow(t), t) && ReadResult(spark, Hollow(t), t) != Back(Hollow(t), t)
  {
    assert t.TArray? || t.TMap? || t.TStruct?;
    hide ContainsHostile;
    var v := Hollow(t);
    if t.TStruct? {
      forall i | 0 <= i < |t.fields| ensures InRange(v.cells[i], t.fields[i].dataType) {
        assert v.cells[i] == VNull;
      }
    }
    assert Back(v, t).Got?;
  }

  /** The exact condition: a column comes back, whatever it holds, if and only if no variant and no interval lies below
      the root of its type. */
  lemma ComesBackExactly(py: Python, spark: Spark, t: SType)
    requires ComesBack(t) && WritesText(spark)
    ensures (forall v :: Inhabits(v, t) ==> ReadCoerce(py, Source(spark, v, t), TokenOf(t)) == Back(v, t)) <==>
            !HostileBelow(t)
  {
    hide Source, TokenOf, ReadCoerce, ComesBack, Inhabits, Back, HostileBelow, WritesText, TextBack, Hollow;
    if HostileBelow(t) {
      HollowIsLost(spark, t);
      WriteThenRead(py, spark, Hollow(t), t);
    } else {
      forall v | Inhabits(v, t) ensures ReadCoerce(py, Source(spark, v, t), TokenOf(t)) == Back(v, t) {
        WriteThenRead(py, spark, v, t);
      }
    }
  }
}

/** A whole row: which of its columns are stored, and what the reader makes of the stored document. */
module Rows {
  import opened Wrappers
  import opened SparkTypes
  import opened ReadBack
  import opened RoundTrip
  import opened Sanitized

  /** The columns that go into the document: all but the dropped ones, in order. */
  function PayloadColumns(columns: seq<string>, drop: set<string>): seq<string> {
    if columns == [] then []
    else
      var last := columns[|columns| - 1];
      PayloadColumns(columns[..|columns| - 1], drop) + if last in drop then [] else [last]
  }

  /** The members of the stored document of a row. */
  function Document(spark: Spark, fields: seq<Field>, cells: seq<Value>, drop: set<string>): seq<Member>
    requires |fields| == |cells|
  {
    if fields == [] then []
    else
      var k := |fields| - 1;
      Document(spark, fields[..k], cells[..k], drop) +
      if fields[k].name in drop then [] else [Member(fields[k].name, Source(spark, cells[k], fields[k].dataType))]
  }

  function Lookup(ms: seq<Member>, name: string): Option<Json> {
    if ms == [] then None
    else if ms[|ms| - 1].name == name then Some(ms[|ms| - 1].value)
    else Lookup(ms[..|ms| - 1], name)
  }

  /** One hit as a row of the declared schema. The document id stands in for an id column that was not stored. */
  function CoerceHit(py: Python, source: seq<Member>, docId: Json, fields: seq<TokenField>, idField: Option<string>,
                     includeId: bool): seq<Result>
  {
    seq(|fields|, i requires 0 <= i < |fields| =>
      if includeId && idField == Some(fields[i].name) && Lookup(source, fields[i].name) == None then
        ReadCoerce(py, docId, fields[i].token)
      else ReadCoerce(py, Lookup(source, fields[i].name).GetOr(JNull), fields[i].token))
  }

  function Declared(fields: seq<Field>): seq<TokenField> {
    seq(|fields|, i requires 0 <= i < |fields| => TokenField(fields[i].name, TokenOf(fields[i].dataType)))
  }

  predicate DistinctColumns(fields: seq<Field>) {
    forall i, j :: 0 <= i < j < |fields| ==> fields[i].name != fields[j].name
  }

  /** The stored document has exactly the payload columns, in the order of the row. */
  lemma {:induction false} DocumentColumns(spark: Spark, fields: seq<Field>, cells: seq<Value>, drop: set<string>)
    requires |fields| == |cells|
    ensures
      var names := seq(|fields|, i requires 0 <= i < |fields| => fields[i].name);
      var ms := Document(spark, fields, cells, drop);
      seq(|ms|, i requires 0 <= i < |ms| => ms[i].name) == PayloadColumns(names, drop)
  {
    if fields != [] {
      var k := |fields| - 1;
      DocumentColumns(spark, fields[..k], cells[..k], drop);
      var names := seq(|fields|, i requires 0 <= i < |fields| => fields[i].name);
      assert names[..k] == seq(k, i requires 0 <= i < k => fields[..k][i].name);
    }
  }

  lemma LookupMore(ms: seq<Member>, m: Member, name: string)
    ensures Lookup(ms + [m], name) == if m.name == name then Some(m.value) else Lookup(ms, name)
    ensures Lookup(ms + [], name) == Lookup(ms, name)
  {
    assert (ms + [m])[..|ms|] == ms;
    assert ms + [] == ms;
  }

  /** Looking a column up either finds the last one or looks among those before it. */
  lemma DocumentLast(spark: Spark, fields: seq<Field>, cells: seq<Value>, drop: set<string>, name: string)
    requires |fields| == |cells| > 0
    ensures var k := |fields| - 1;
      Lookup(Document(spark, fields, cells, drop), name) ==
      if fields[k].name == name && name !in drop then Some(Source(spark, cells[k], fields[k].dataType))
      else Lookup(Document(spark, fields[..k], cells[..k], drop), name)
  {
    var k := |fields| - 1;
    LookupMore(Document(spark, fields[..k], cells[..k], drop),
               Member(fields[k].name, Source(spark, cells[k], fields[k].dataType)), name);
    hide Source, Lookup;
  }

  lemma {:induction false} DocumentLookup(spark: Spark, fields: seq<Field>, cells: seq<Value>, drop: set<string>,
                                          i: nat)
    requires |fields| == |cells| && DistinctColumns(fields) && i < |fields|
    ensures Lookup(Document(spark, fields, cells, drop), fields[i].name) ==
            if fields[i].name in drop then None else Some(Source(spark, cells[i], fields[i].dataType))
  {
    hide Source, Lookup, Document;
    var k := |fields| - 1;
    DocumentLast(spark, fields, cells, drop, fields[i].name);
    if i == k {
      NotYetThere(spark, fields[..k], cells[..k], drop, fields[k].name);
    } else {
      DocumentLookup(spark, fields[..k], cells[..k], drop, i);
    }
  }

  lemma {:induction false} NotYetThere(spark: Spark, fields: seq<Field>, cells: seq<Value>, drop: set<string>,
                                       name: string)
    requires |fields| == |cells| && forall i :: 0 <= i < |fields| ==> fields[i].name != name
    ensures Lookup(Document(spark, fields, cells, drop), name) == None
  {
    if fields != [] {
      hide Source, Lookup, Document;
      var k := |fields| - 1;
      DocumentLast(spark, fields, cells, drop, name);
      NotYetThere(spark, fields[..k], cells[..k], drop, name);
    }
  }

  /** A row written and read back. Every stored column comes back as `ReadResult` says, a dropped column comes back
      null, and a dropped id column is read from the document id. */
  lemma RowTrip(py: Python, spark: Spark, fields: seq<Field>, cells: seq<Value>, drop: set<string>, docId: Json,
                idField: Option<string>, includeId: bool, i: nat)
    requires |fields| == |cells| && DistinctColumns(fields) && i < |fields|
    requires forall k :: 0 <= k < |fields| ==> ComesBack(fields[k].dataType) && Inhabits(cells[k], fields[k].dataType)
    requires WritesText(spark)
    ensures
      var name, t := fields[i].name, fields[i].dataType;
      CoerceHit(py, Document(spark, fields, cells, drop), docId, Declared(fields), idField, includeId)[i] ==
      if name !in drop then ReadResult(spark, cells[i], t)
      else if includeId && idField == Some(name) then ReadCoerce(py, docId, TokenOf(t))
      else Got(VNull)
  {
    hide Document, ReadCoerce, TokenOf, ComesBack, Inhabits, ReadResult, Source, WritesText;
    DocumentLookup(spark, fields, cells, drop, i);
    WriteThenRead(py, spark, cells[i], fields[i].dataType);
    NullRead(py, fields[i].dataType);
  }
}

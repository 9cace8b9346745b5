/** The Spark types a column can have, and the values such a column can hold. Nullability flags are left out: null is a
    value of every type. */
module SparkTypes {
  import Base64

  datatype Width = Tiny | Small | Regular | Big

  /** Scalars print as Spark prints them. `TInterval` keeps what follows the word `interval`; `TOther` stands for every
      type the connector has no rule for, collated strings among them. */
  datatype SType =
    | TString | TBool | TInt(width: Width) | TFloat | TDouble | TDecimal(precision: nat, scale: nat) | TBinary
    | TDate | TTimestamp | TNtz
    | TVariant | TInterval(unit: IntervalUnit) | TChar(length: nat) | TVarchar(length: nat) | TVoid
    | TOther(name: string)
    | TArray(element: SType)
    | TMap(key: SType, value: SType)
    | TStruct(fields: seq<Field>)

  datatype Field = Field(name: string, dataType: SType)

  datatype IntervalUnit = AnyUnit | One(unit: TimeUnit) | Between(first: TimeUnit, last: TimeUnit)

  datatype TimeUnit = Year | Month | Day | Hour | Minute | Second

  /** A floating-point value. Rounding plays no part here: a finite value is a real number. */
  datatype Number = Finite(r: real) | PosInf | NegInf | NaN

  /** A cell. Timestamps count microseconds since 1970-01-01, dates count days; a struct is its fields in order. */
  datatype Value =
    | VNull
    | VString(s: string) | VBool(b: bool) | VInt(i: int) | VFloat(f: Number) | VDecimal(d: Number)
    | VBinary(bytes: seq<Base64.Byte>)
    | VDate(days: int) | VTimestamp(us: int) | VNtz(us: int)
    | VArray(items: seq<Value>) | VMap(entries: seq<Entry>) | VStruct(cells: seq<Value>)
    | VForeign(json: Json)  // a JSON value that the reader hands on as it found it

  datatype Entry = Entry(key: Value, value: Value)

  /** A JSON value as Python's parser gives it. The member names of an object are distinct. */
  datatype Json =
    | JNull | JBool(b: bool) | JInt(i: int) | JFloat(f: Number) | JString(s: string)
    | JArray(items: seq<Json>) | JObject(members: seq<Member>)

  datatype Member = Member(name: string, value: Json)

  predicate DistinctNames(ms: seq<Member>) {
    forall i, j :: 0 <= i < j < |ms| ==> ms[i].name != ms[j].name
  }

  const LONG := TInt(Big)

  function Half(w: Width): int {
    match w
    case Tiny => 0x80
    case Small => 0x8000
    case Regular => 0x8000_0000
    case Big => 0x8000_0000_0000_0000
  }

  predicate Fits(i: int, w: Width) {
    -Half(w) <= i < Half(w)
  }

  /** The keys of a map are not null and pairwise different. */
  ghost predicate DistinctKeys(entries: seq<Entry>) {
    && (forall i :: 0 <= i < |entries| ==> entries[i].key != VNull)
    && (forall i, j :: 0 <= i < j < |entries| ==> entries[i].key != entries[j].key)
  }

  /** `v` is a cell of a column of type `t`. Null is a cell of every type. */
  ghost predicate Inhabits(v: Value, t: SType)
    decreases t
  {
    v == VNull ||
    match t
    case TString => v.VString?
    case TBool => v.VBool?
    case TInt(w) => v.VInt? && Fits(v.i, w)
    case TFloat => v.VFloat?
    case TDouble => v.VFloat?
    case TDecimal(_, scale) => v.VDecimal? && v.d.Finite? && (scale == 0 ==> v.d.r == v.d.r.Floor as real)
    case TBinary => v.VBinary?
    case TDate => v.VDate? && Fits(v.days, Regular)
    case TTimestamp => v.VTimestamp? && Fits(v.us, Big)
    case TNtz => v.VNtz? && Fits(v.us, Big)
    case TVariant => v.VString?
    case TInterval(_) => v.VString?
    case TArray(e) => v.VArray? && forall i :: 0 <= i < |v.items| ==> Inhabits(v.items[i], e)
    case TMap(k, e) =>
      && v.VMap? && DistinctKeys(v.entries)
      && forall i :: 0 <= i < |v.entries| ==> Inhabits(v.entries[i].key, k) && Inhabits(v.entries[i].value, e)
    case TStruct(fields) =>
      && v.VStruct? && |v.cells| == |fields|
      && forall i :: 0 <= i < |fields| ==> Inhabits(v.cells[i], fields[i].dataType)
    case _ => false
  }

  lemma MapCells(entries: seq<Entry>, k: SType, e: SType)
    ensures Inhabits(VMap(entries), TMap(k, e)) <==>
            && DistinctKeys(entries)
            && forall i :: 0 <= i < |entries| ==> Inhabits(entries[i].key, k) && Inhabits(entries[i].value, e)
  {
    hide DistinctKeys, Fits;
  }
}

/** The reader's coercion of a stored JSON value to the declared Spark type, and what it promises. */
module ReadBack {
  import opened Wrappers
  import opened SparkTypes
  import Base64
  import Calendar

  /* ---- type tokens ---- */

  /** A declared type as the reader sees it: the printed name of a scalar, or a container of tokens. */
  datatype Token =
    | Scalar(text: string)
    | ArrayOf(element: Token)
    | MapOf(key: Token, value: Token)
    | StructOf(fields: seq<TokenField>)

  datatype TokenField = TokenField(name: string, token: Token)

  function Digits(n: nat): string {
    var last := ['0' + (n % 10) as char];
    if n < 10 then last else Digits(n / 10) + last
  }

  function UnitName(u: TimeUnit): string {
    match u
    case Year => "year"
    case Month => "month"
    case Day => "day"
    case Hour => "hour"
    case Minute => "minute"
    case Second => "second"
  }

  /** What follows the word `interval`: nothing, one unit or a range of units. */
  function IntervalText(unit: IntervalUnit): string {
    match unit
    case AnyUnit => ""
    case One(u) => " " + UnitName(u)
    case Between(first, last) => " " + UnitName(first) + " to " + UnitName(last)
  }

  /** How Spark prints a type that is not a container. */
  function SimpleString(t: SType): string
    requires !t.TArray? && !t.TMap? && !t.TStruct?
  {
    match t
    case TString => "string"
    case TBool => "boolean"
    case TInt(w) => (match w case Tiny => "tinyint" case Small => "smallint" case Regular => "int" case Big => "bigint")
    case TFloat => "float"
    case TDouble => "double"
    case TDecimal(p, s) => "decimal(" + Digits(p) + "," + Digits(s) + ")"
    case TBinary => "binary"
    case TDate => "date"
    case TTimestamp => "timestamp"
    case TNtz => "timestamp_ntz"
    case TVariant => "variant"
    case TInterval(unit) => "interval" + IntervalText(unit)
    case TChar(n) => "char(" + Digits(n) + ")"
    case TVarchar(n) => "varchar(" + Digits(n) + ")"
    case TVoid => "void"
    case TOther(name) => name
  }

  function TokenOf(t: SType): Token
    decreases t
  {
    match t
    case TStruct(fields) =>
      StructOf(seq(|fields|, i requires 0 <= i < |fields| => TokenField(fields[i].name, TokenOf(fields[i].dataType))))
    case TArray(e) => ArrayOf(TokenOf(e))
    case TMap(k, e) => MapOf(TokenOf(k), TokenOf(e))
    case _ => Scalar(SimpleString(t))
  }

  /** Which branch of the coercion a scalar token takes. */
  datatype Kind =
    | Unreadable | Stamp | Ntz | Dated | Bytes | Exact | Whole(width: Width) | Approximate | Truth | Text | Unknown

  function UpToParen(text: string): string {
    if text == "" || text[0] == '(' then "" else [text[0]] + UpToParen(text[1..])
  }

  /** Tokens reach this point trimmed and in lower case. */
  function KindOf(text: string): Kind {
    if UpToParen(text) == "char" || UpToParen(text) == "varchar" || UpToParen(text) == "void" then Unreadable
    else if text == "timestamp" then Stamp
    else if text == "timestamp_ntz" then Ntz
    else if text == "date" then Dated
    else if text == "binary" then Bytes
    else if "decimal" <= text then Exact
    else if text == "tinyint" || text == "byte" then Whole(Tiny)
    else if text == "smallint" || text == "short" then Whole(Small)
    else if text == "int" || text == "integer" then Whole(Regular)
    else if text == "long" || text == "bigint" then Whole(Big)
    else if text == "float" || text == "double" then Approximate
    else if text == "boolean" then Truth
    else if text == "string" || text == "variant" || "interval" <= text then Text
    else Unknown
  }

  /** The branch each type is meant to take. */
  function Meant(t: SType): Kind {
    match t
    case TString => Text
    case TBool => Truth
    case TInt(w) => Whole(w)
    case TFloat => Approximate
    case TDouble => Approximate
    case TDecimal(_, _) => Exact
    case TBinary => Bytes
    case TDate => Dated
    case TTimestamp => Stamp
    case TNtz => Ntz
    case TVariant => Text
    case TInterval(_) => Text
    case TChar(_) => Unreadable
    case TVarchar(_) => Unreadable
    case TVoid => Unreadable
    case _ => Unknown
  }

  lemma {:induction false} BeforeParen(a: string, b: string)
    requires '(' !in a
    ensures UpToParen(a + "(" + b) == a
  {
    if a != "" {
      assert (a + "(" + b)[1..] == a[1..] + "(" + b;
      BeforeParen(a[1..], b);
    }
  }

  lemma {:induction false} NoParen(a: string)
    requires '(' !in a
    ensures UpToParen(a) == a
  {
    if a != "" {
      NoParen(a[1..]);
    }
  }

  lemma DispatchDecimal(p: nat, s: nat)
    ensures KindOf(SimpleString(TDecimal(p, s))) == Exact
  {
    hide UpToParen, Digits;
    var rest := Digits(p) + "," + Digits(s) + ")";
    var text := SimpleString(TDecimal(p, s));
    assert text == "decimal" + "(" + rest;
    BeforeParen("decimal", rest);
    assert text[0] == 'd' && text[3] == 'i';
    assert "decimal" <= text;
  }

  lemma DispatchChars(n: nat)
    ensures KindOf(SimpleString(TChar(n))) == Unreadable
    ensures KindOf(SimpleString(TVarchar(n))) == Unreadable
  {
    hide UpToParen, Digits;
    assert SimpleString(TChar(n)) == "char" + "(" + (Digits(n) + ")");
    assert SimpleString(TVarchar(n)) == "varchar" + "(" + (Digits(n) + ")");
    BeforeParen("char", Digits(n) + ")");
    BeforeParen("varchar", Digits(n) + ")");
  }

  lemma NotDecimal(text: string)
    requires |text| > 1 && !(text[0] == 'd' && text[1] == 'e')
    ensures !("decimal" <= text)
  {
    assert "decimal"[0] == 'd' && "decimal"[1] == 'e';
  }

  /** A long word that starts with `i` is none of the names the coercion compares with. */
  lemma NotAName(text: string)
    requires |text| >= 8 && text[0] == 'i'
    ensures text != "timestamp" && text != "timestamp_ntz" && text != "date" && text != "binary"
    ensures text != "tinyint" && text != "byte" && text != "smallint" && text != "short"
    ensures text != "int" && text != "integer" && text != "long" && text != "bigint"
    ensures text != "float" && text != "double" && text != "boolean"
    ensures text != "char" && text != "varchar" && text != "void"
  {
    assert "timestamp"[0] == 't' && "timestamp_ntz"[0] == 't' && "smallint"[0] == 's';
  }

  lemma NoParenInInterval(unit: IntervalUnit)
    ensures '(' !in SimpleString(TInterval(unit))
  {
    match unit
    case AnyUnit =>
    case One(u) => assert '(' !in UnitName(u);
    case Between(first, last) =>
      assert '(' !in UnitName(first) && '(' !in UnitName(last);
      hide UnitName;
  }

  lemma DispatchInterval(unit: IntervalUnit)
    ensures KindOf(SimpleString(TInterval(unit))) == Text
  {
    hide UpToParen;
    var text := SimpleString(TInterval(unit));
    NoParenInInterval(unit);
    NoParen(text);
    hide IntervalText;
    assert text[..8] == "interval";
    assert |text| >= 8 && text[0] == 'i' && text[3] == 'e';
    hide SimpleString;
    NotDecimal(text);
    NotAName(text);
    assert "interval" <= text;
  }

  lemma DispatchWidth(w: Width)
    ensures KindOf(SimpleString(TInt(w))) == Whole(w)
  {
    hide UpToParen;
    var text := SimpleString(TInt(w));
    NoParen(text);
    NotDecimal(text);
    match w
    case Tiny => assert text == "tinyint" && text[1] == 'i';
    case Small => assert text == "smallint" && text[1] == 'm';
    case Regular => assert text == "int";
    case Big => assert text == "bigint" && text[2] == 'g' && "binary"[2] == 'n';
  }

  lemma DispatchTemporal(t: SType)
    requires t.TDate? || t.TTimestamp? || t.TNtz? || t.TBinary?
    ensures KindOf(SimpleString(t)) == Meant(t)
  {
    hide UpToParen;
    var text := SimpleString(t);
    NoParen(text);
    match t
    case TDate => assert text == "date";
    case TTimestamp => assert text == "timestamp";
    case TNtz => assert text == "timestamp_ntz" && |text| == 13;
    case TBinary => assert text == "binary";
  }

  lemma DispatchNumeric(t: SType)
    requires t.TFloat? || t.TDouble?
    ensures KindOf(SimpleString(t)) == Meant(t)
  {
    hide UpToParen;
    var text := SimpleString(t);
    NoParen(text);
    NotDecimal(text);
    if t.TFloat? {
      assert text == "float";
    } else {
      assert text == "double" && text[1] == 'o';
    }
  }

  lemma DispatchText(t: SType)
    requires t.TString? || t.TVariant?
    ensures KindOf(SimpleString(t)) == Meant(t)
  {
    hide UpToParen;
    var text := SimpleString(t);
    NoParen(text);
    NotDecimal(text);
    assert text == if t.TString? then "string" else "variant";
  }

  lemma DispatchPlain(t: SType)
    requires t.TBool? || t.TVoid?
    ensures KindOf(SimpleString(t)) == Meant(t)
  {
    hide UpToParen;
    var text := SimpleString(t);
    NoParen(text);
    NotDecimal(text);
    assert text == if t.TBool? then "boolean" else "void";
  }

  /** Every printed scalar takes the branch meant for its type: no width, and no type with a rule, falls through. */
  lemma Dispatch(t: SType)
    requires !t.TArray? && !t.TMap? && !t.TStruct? && !t.TOther?
    ensures KindOf(SimpleString(t)) == Meant(t)
  {
    hide KindOf, SimpleString;
    match t
    case TDecimal(p, s) => DispatchDecimal(p, s);
    case TChar(n) => DispatchChars(n);
    case TVarchar(n) => DispatchChars(n);
    case TInterval(unit) => DispatchInterval(unit);
    case TInt(w) => DispatchWidth(w);
    case TDate => DispatchTemporal(t);
    case TTimestamp => DispatchTemporal(t);
    case TNtz => DispatchTemporal(t);
    case TBinary => DispatchTemporal(t);
    case TFloat => DispatchNumeric(t);
    case TDouble => DispatchNumeric(t);
    case TString => DispatchText(t);
    case TVariant => DispatchText(t);
    case _ => DispatchPlain(t);
  }

  /* ---- the coercion ---- */

  /** What Python's own conversions do with text and with numbers that need rounding. `None` is an exception. */
  datatype Python = Python(
    parseInt: string -> Option<int>, parseFloat: string -> Option<Number>, parseDecimal: string -> Option<Number>,
    floatOfInt: int -> Option<Number>, show: Json -> string, fold: string -> string)

  datatype Result = Got(v: Value) | Refused

  function Truncate(r: real): int {
    if r >= 0.0 then r.Floor else -((-r).Floor)
  }

  predicate IsContainer(j: Json) {
    j.JArray? || j.JObject?
  }

  /** Python's `int(value)`. */
  function AsInt(py: Python, j: Json): Option<int> {
    match j
    case JBool(b) => Some(if b then 1 else 0)
    case JInt(i) => Some(i)
    case JFloat(f) => if f.Finite? then Some(Truncate(f.r)) else None
    case JString(s) => py.parseInt(s)
    case _ => None
  }

  /** The epoch milliseconds of the years 1 to 9999, which is what Python can represent. */
  const FIRST_MILLI := -62_135_596_800_000
  const LAST_MILLI := 253_402_300_799_999

  function AsMillis(py: Python, j: Json): Option<int> {
    match AsInt(py, j)
    case Some(ms) => if FIRST_MILLI <= ms <= LAST_MILLI then Some(ms) else None
    case None => None
  }

  function ReadWhole(py: Python, j: Json, w: Width): Result {
    if j.JFloat? && !(j.f.Finite? && j.f.r == j.f.r.Floor as real) then Refused
    else
      match AsInt(py, j)
      case Some(i) => if Fits(i, w) then Got(VInt(i)) else Refused
      case None => Refused
  }

  function ReadFloat(py: Python, j: Json): Result {
    match j
    case JBool(b) => Got(VFloat(Finite(if b then 1.0 else 0.0)))
    case JInt(i) => (match py.floatOfInt(i) case Some(f) => Got(VFloat(f)) case None => Refused)
    case JFloat(f) => Got(VFloat(f))
    case JString(s) => (match py.parseFloat(s) case Some(f) => Got(VFloat(f)) case None => Refused)
    case _ => Refused
  }

  /** `Decimal(str(value))`. */
  function ReadDecimal(py: Python, j: Json): Result {
    match j
    case JInt(i) => Got(VDecimal(Finite(i as real)))
    case JFloat(_) => (match py.parseDecimal(py.show(j)) case Some(d) => Got(VDecimal(d)) case None => Refused)
    case JString(s) => (match py.parseDecimal(s) case Some(d) => Got(VDecimal(d)) case None => Refused)
    case _ => Refused
  }

  const TRUE_STRINGS := ["true", "t", "1", "yes", "y"]
  const FALSE_STRINGS := ["false", "f", "0", "no", "n"]

  function ReadBool(py: Python, j: Json): Result {
    match j
    case JBool(b) => Got(VBool(b))
    case JInt(i) => Got(VBool(i != 0))
    case JFloat(f) => Got(VBool(f != Finite(0.0)))
    case JString(s) =>
      if py.fold(s) in TRUE_STRINGS then Got(VBool(true))
      else if py.fold(s) in FALSE_STRINGS then Got(VBool(false))
      else Refused
    case _ => Refused
  }

  function ReadScalar(py: Python, j: Json, k: Kind): Result {
    if k == Unknown then Got(VForeign(j))
    else if k == Unreadable || IsContainer(j) then Refused
    else
      match k
      case Stamp => (match AsMillis(py, j)
                     case Some(ms) => Got(VTimestamp(Calendar.MillisToMicros(ms)))
                     case None => Refused)
      case Ntz => (match AsMillis(py, j)
                   case Some(ms) => Got(VNtz(Calendar.MillisToMicros(ms)))
                   case None => Refused)
      case Dated => (match AsMillis(py, j)
                   case Some(ms) => Got(VDate(Calendar.MillisToDay(ms)))
                   case None => Refused)
      case Bytes =>
        if !j.JString? then Refused
        else (match Base64.Decode(j.s) case Some(bytes) => Got(VBinary(bytes)) case None => Refused)
      case Exact => ReadDecimal(py, j)
      case Whole(w) => ReadWhole(py, j, w)
      case Approximate => ReadFloat(py, j)
      case Truth => ReadBool(py, j)
      case Text => Got(VString(if j.JString? then j.s else py.show(j)))
      case _ => Refused
  }

  /** One item of a Python dictionary. Its key need not be a string. */
  datatype Pair = Pair(key: Json, value: Json)

  function Put(pairs: seq<Pair>, p: Pair): seq<Pair> {
    if pairs == [] then [p]
    else if pairs[0].key == p.key then [p] + pairs[1..]
    else [pairs[0]] + Put(pairs[1..], p)
  }

  /** What an element of a list contributes to `dict(list)`: it must come apart into a hashable key and a value. */
  function PairOf(j: Json): Option<Pair> {
    match j
    case JArray(items) =>
      if |items| == 2 && !IsContainer(items[0]) then Some(Pair(items[0], items[1])) else None
    case JString(s) => if |s| == 2 then Some(Pair(JString([s[0]]), JString([s[1]]))) else None
    case JObject(ms) => if |ms| == 2 then Some(Pair(JString(ms[0].name), JString(ms[1].name))) else None
    case _ => None
  }

  function PairsOf(items: seq<Json>): Option<seq<Pair>> {
    if items == [] then Some([])
    else
      match PairsOf(items[..|items| - 1])
      case None => None
      case Some(front) => (match PairOf(items[|items| - 1]) case Some(p) => Some(Put(front, p)) case None => None)
  }

  /** Python's `dict(value)`. */
  function DictOf(j: Json): Option<seq<Pair>> {
    match j
    case JObject(ms) => Some(seq(|ms|, i requires 0 <= i < |ms| => Pair(JString(ms[i].name), ms[i].value)))
    case JArray(items) => PairsOf(items)
    case JString(s) => if s == "" then Some([]) else None
    case _ => None
  }

  /** `dict.get(name)`, absent being null. */
  function Get(pairs: seq<Pair>, name: string): Json {
    if pairs == [] then JNull
    else if pairs[0].key == JString(name) then pairs[0].value
    else Get(pairs[1..], name)
  }

  function KeyValue(j: Json): Value {
    match j
    case JString(s) => VString(s)
    case _ => VForeign(j)
  }

  /** The results of the parts, or a refusal if some part was refused. */
  function Gather(rs: seq<Result>): Option<seq<Value>> {
    if forall i :: 0 <= i < |rs| ==> rs[i].Got? then
      Some(seq(|rs|, i requires 0 <= i < |rs| && rs[i].Got? => rs[i].v))
    else None
  }

  function ReadCoerce(py: Python, j: Json, target: Token): Result
    decreases target
  {
    if target.Scalar? && KindOf(target.text) == Unreadable then Refused
    else if j.JNull? then Got(VNull)
    else
      match target
      case Scalar(text) => ReadScalar(py, j, KindOf(text))
      case ArrayOf(e) =>
        var items := if j.JArray? then j.items else [j];
        (match Gather(seq(|items|, i requires 0 <= i < |items| => ReadCoerce(py, items[i], e)))
         case Some(vs) => Got(VArray(vs))
         case None => Refused)
      case MapOf(_, e) =>
        (match DictOf(j)
         case None => Refused
         case Some(pairs) =>
           match Gather(seq(|pairs|, i requires 0 <= i < |pairs| => ReadCoerce(py, pairs[i].value, e)))
           case Some(vs) =>
             Got(VMap(seq(|pairs|, i requires 0 <= i < |pairs| && i < |vs| => Entry(KeyValue(pairs[i].key), vs[i]))))
           case None => Refused)
      case StructOf(fields) =>
        (match DictOf(j)
         case None => Refused
         case Some(pairs) =>
           match Gather(seq(|fields|, i requires 0 <= i < |fields| =>
             ReadCoerce(py, Get(pairs, fields[i].name), fields[i].token)))
           case Some(vs) => Got(VStruct(vs))
           case None => Refused)
  }
}

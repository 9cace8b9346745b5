/**
 The text of a bulk request: action lines printed row by row, one newline after each, and parsed back by the server.
 JSON strings are escaped as section 7 of RFC 8259 demands, and with that no line can contain a newline of its own.
 */
module Ndjson {
  import opened Wrappers
  import opened SparkTypes
  import ReadBack
  import Rewriting

  const NEWLINE := '\n'

  /* ---- JSON strings ---- */

  predicate IsControl(c: char) {
    c < 32 as char
  }

  function Hex(v: nat): char
    requires v < 16
  {
    if v < 10 then '0' + v as char else 'A' + (v - 10) as char
  }

  function HexValue(c: char): Option<nat> {
    if '0' <= c <= '9' then Some((c - '0') as nat)
    else if 'A' <= c <= 'F' then Some(10 + (c - 'A') as nat)
    else if 'a' <= c <= 'f' then Some(10 + (c - 'a') as nat)
    else None
  }

  function EscapeChar(c: char): string {
    if c == '"' then "\\\""
    else if c == '\\' then "\\\\"
    else if c == '\n' then "\\n"
    else if c == '\r' then "\\r"
    else if c == '\t' then "\\t"
    else if IsControl(c) then "\\u00" + [Hex(c as nat / 16), Hex(c as nat % 16)]
    else [c]
  }

  function Escape(s: string): string {
    if s == "" then "" else EscapeChar(s[0]) + Escape(s[1..])
  }

  function Quote(s: string): string {
    "\"" + Escape(s) + "\""
  }

  function Prepend(c: char, r: Option<(string, string)>): Option<(string, string)> {
    match r
    case Some((s, rest)) => Some(([c] + s, rest))
    case None => None
  }

  /** The character a `\u` escape names. A lone surrogate names none. */
  function CodeUnit(text: string): Option<char> {
    if |text| < 4 then None else
    match (HexValue(text[0]), HexValue(text[1]), HexValue(text[2]), HexValue(text[3]))
    case (Some(a), Some(b), Some(c), Some(d)) =>
      var v := ((a * 16 + b) * 16 + c) * 16 + d;
      if v < 0xD800 || 0xE000 <= v < 0x10000 then Some(v as char) else None
    case _ => None
  }

  function Unescaped(c: char): Option<char> {
    if c == 'n' then Some('\n') else if c == 'r' then Some('\r') else if c == 't' then Some('\t')
    else if c == 'b' then Some(8 as char) else if c == 'f' then Some(12 as char)
    else if c == '"' || c == '\\' || c == '/' then Some(c)
    else None
  }

  /** Reads a string up to its closing quote, and what follows it. */
  function Unquote(text: string): Option<(string, string)>
    decreases |text|
  {
    if text == "" || IsControl(text[0]) then None
    else if text[0] == '"' then Some(("", text[1..]))
    else if text[0] != '\\' then Prepend(text[0], Unquote(text[1..]))
    else if |text| < 2 then None
    else if text[1] == 'u' then
      match CodeUnit(text[2..])
      case Some(c) => if |text| < 6 then None else Prepend(c, Unquote(text[6..]))
      case None => None
    else
      match Unescaped(text[1])
      case Some(c) => Prepend(c, Unquote(text[2..]))
      case None => None
  }

  lemma UnquoteChar(c: char, tail: string)
    ensures Unquote(EscapeChar(c) + tail) == Prepend(c, Unquote(tail))
  {
    var text := EscapeChar(c) + tail;
    if c == '"' || c == '\\' || c == '\n' || c == '\r' || c == '\t' {
      assert text[2..] == tail;
    } else if IsControl(c) {
      assert text[6..] == tail;
      assert text[2..][0] == '0' && text[2..][1] == '0';
      assert CodeUnit(text[2..]) == Some(c);
    } else {
      assert text[1..] == tail;
    }
  }

  /** Reading a quoted string gives the string back and leaves exactly what followed it. */
  lemma {:induction false} UnquoteQuote(s: string, rest: string)
    ensures Unquote(Escape(s) + "\"" + rest) == Some((s, rest))
  {
    if s == "" {
      assert Escape(s) + "\"" + rest == "\"" + rest;
    } else {
      var tail := Escape(s[1..]) + "\"" + rest;
      assert Escape(s) + "\"" + rest == EscapeChar(s[0]) + tail;
      UnquoteChar(s[0], tail);
      UnquoteQuote(s[1..], rest);
      assert [s[0]] + s[1..] == s;
    }
  }

  lemma {:induction false} EscapeHidesNewlines(s: string)
    ensures NEWLINE !in Escape(s)
  {
    if s != "" {
      EscapeHidesNewlines(s[1..]);
      assert NEWLINE !in EscapeChar(s[0]);
    }
  }

  /* ---- documents ---- */

  /** How numbers that are not integers are written. Spark's notation is not modelled; it has no newline in it. */
  type NumberText = Number -> string

  ghost predicate OneLine(number: NumberText) {
    forall f :: NEWLINE !in number(f)
  }

  function IntText(i: int): string {
    if i < 0 then "-" + ReadBack.Digits(-i) else ReadBack.Digits(i)
  }

  /** A JSON value as text, without spaces. */
  function Text(number: NumberText, j: Json): string
    decreases j, 1
  {
    match j
    case JNull => "null"
    case JBool(b) => if b then "true" else "false"
    case JInt(i) => IntText(i)
    case JFloat(f) => number(f)
    case JString(s) => Quote(s)
    case JArray(items) => "[" + ItemsText(number, j, |items|) + "]"
    case JObject(members) => "{" + MembersText(number, j, |members|) + "}"
  }

  function ItemsText(number: NumberText, j: Json, k: nat): string
    requires j.JArray? && k <= |j.items|
    decreases j, 0, k
  {
    if k == 0 then ""
    else ItemsText(number, j, k - 1) + (if k == 1 then "" else ",") + Text(number, j.items[k - 1])
  }

  function MembersText(number: NumberText, j: Json, k: nat): string
    requires j.JObject? && k <= |j.members|
    decreases j, 0, k
  {
    if k == 0 then ""
    else
      var m := j.members[k - 1];
      MembersText(number, j, k - 1) + (if k == 1 then "" else ",") + Quote(m.name) + ":" + Text(number, m.value)
  }

  lemma {:induction false} DigitsOneLine(n: nat)
    ensures NEWLINE !in ReadBack.Digits(n)
  {
    if n >= 10 {
      DigitsOneLine(n / 10);
    }
  }

  lemma QuoteOneLine(s: string)
    ensures NEWLINE !in Quote(s)
  {
    EscapeHidesNewlines(s);
  }

  /** A document is a single line of text, whatever strings it holds. */
  lemma {:induction false} TextOneLine(number: NumberText, j: Json)
    requires OneLine(number)
    ensures NEWLINE !in Text(number, j)
    decreases j, 1
  {
    match j
    case JInt(i) => DigitsOneLine(if i < 0 then -i else i);
    case JFloat(f) =>
    case JString(s) => QuoteOneLine(s);
    case JArray(items) => ItemsOneLine(number, j, |items|);
    case JObject(members) => MembersOneLine(number, j, |members|);
    case _ =>
  }

  lemma {:induction false} ItemsOneLine(number: NumberText, j: Json, k: nat)
    requires OneLine(number) && j.JArray? && k <= |j.items|
    ensures NEWLINE !in ItemsText(number, j, k)
    decreases j, 0, k
  {
    if k > 0 {
      ItemsOneLine(number, j, k - 1);
      TextOneLine(number, j.items[k - 1]);
    }
  }

  lemma {:induction false} MembersOneLine(number: NumberText, j: Json, k: nat)
    requires OneLine(number) && j.JObject? && k <= |j.members|
    ensures NEWLINE !in MembersText(number, j, k)
    decreases j, 0, k
  {
    if k > 0 {
      MembersOneLine(number, j, k - 1);
      QuoteOneLine(j.members[k - 1].name);
      TextOneLine(number, j.members[k - 1].value);
    }
  }

  /* ---- actions ---- */

  datatype Op = IndexOp | CreateOp | DeleteOp

  datatype Header = Header(op: Op, index: string, id: Option<string>)

  /** One bulk action: its header, and the document unless it is a delete. */
  datatype Action = Action(header: Header, source: Option<string>)

  function OpName(op: Op): string {
    match op
    case IndexOp => "index"
    case CreateOp => "create"
    case DeleteOp => "delete"
  }

  const INDEX_KEY := "\":{\"_index\":"
  const ID_KEY := ",\"_id\":"
  const CLOSE := "}}"

  function Opening(op: Op): string {
    "{\"" + OpName(op)
  }

  function IdText(id: Option<string>): string {
    match id
    case Some(i) => ID_KEY + Quote(i)
    case None => ""
  }

  function HeaderText(h: Header): string {
    Opening(h.op) + (INDEX_KEY + Quote(h.index) + IdText(h.id) + CLOSE)
  }

  /** The action line of a row: the header, then the document on a line of its own. No newline at the end. */
  function Element(a: Action): string {
    match a.source
    case Some(source) => HeaderText(a.header) + "\n" + source
    case None => HeaderText(a.header)
  }

  /** The body of a request: every element, and one newline after it. */
  function Body(elements: seq<string>): string {
    if elements == [] then "" else elements[0] + "\n" + Body(elements[1..])
  }

  function Elements(actions: seq<Action>): seq<string> {
    seq(|actions|, i requires 0 <= i < |actions| => Element(actions[i]))
  }

  /** An action the serializer can build: a document, on one line, exactly when the action is not a delete. */
  predicate WellFormed(a: Action) {
    && (a.source.None? <==> a.header.op == DeleteOp)
    && (a.source.Some? ==> NEWLINE !in a.source.value)
  }

  /* ---- the server's reading of the body ---- */

  function Strip(prefix: string, text: string): Option<string> {
    if prefix <= text then Some(text[|prefix|..]) else None
  }

  function ParseTail(op: Op, index: string, text: string): Option<Header> {
    if text == CLOSE then Some(Header(op, index, None))
    else
      match Strip(ID_KEY + "\"", text)
      case None => None
      case Some(rest) =>
        match Unquote(rest)
        case Some((id, end)) => if end == CLOSE then Some(Header(op, index, Some(id))) else None
        case None => None
  }

  function ParseAfterOp(op: Op, text: string): Option<Header> {
    match Strip(INDEX_KEY + "\"", text)
    case None => None
    case Some(rest) =>
      match Unquote(rest)
      case Some((index, tail)) => ParseTail(op, index, tail)
      case None => None
  }

  function ParseHeader(text: string): Option<Header> {
    match Strip(Opening(IndexOp), text)
    case Some(rest) => ParseAfterOp(IndexOp, rest)
    case None =>
      match Strip(Opening(CreateOp), text)
      case Some(rest) => ParseAfterOp(CreateOp, rest)
      case None =>
        match Strip(Opening(DeleteOp), text)
        case Some(rest) => ParseAfterOp(DeleteOp, rest)
        case None => None
  }

  /** The text up to the first newline, and the text after it. */
  function CutLine(text: string): Option<(string, string)>
    ensures CutLine(text).Some? ==> |CutLine(text).value.1| < |text|
  {
    if text == "" then None
    else if text[0] == NEWLINE then Some(("", text[1..]))
    else
      match CutLine(text[1..])
      case Some((line, rest)) => Some(([text[0]] + line, rest))
      case None => None
  }

  /** Action lines and documents in turn; a delete has no document. */
  function ParseBody(text: string): Option<seq<Action>>
    decreases |text|
  {
    if text == "" then Some([]) else
    match CutLine(text)
    case None => None
    case Some((line, rest)) =>
      match ParseHeader(line)
      case None => None
      case Some(h) =>
        if h.op == DeleteOp then Follow(Action(h, None), ParseBody(rest))
        else
          match CutLine(rest)
          case None => None
          case Some((source, more)) => Follow(Action(h, Some(source)), ParseBody(more))
  }

  function Follow(a: Action, actions: Option<seq<Action>>): Option<seq<Action>> {
    match actions
    case Some(more) => Some([a] + more)
    case None => None
  }

  /* ---- parsing undoes printing ---- */

  lemma StripJoin(prefix: string, rest: string)
    ensures Strip(prefix, prefix + rest) == Some(rest)
  {
    assert (prefix + rest)[..|prefix|] == prefix;
  }

  /** A key, a quoted string and what follows, regrouped as the parser meets them. */
  lemma Regroup(key: string, s: string, tail: string)
    ensures key + Quote(s) + tail == (key + "\"") + (Escape(s) + "\"" + tail)
  {
  }

  lemma TailRead(op: Op, index: string, id: Option<string>)
    ensures ParseTail(op, index, IdText(id) + CLOSE) == Some(Header(op, index, id))
  {
    match id
    case None => assert IdText(id) + CLOSE == CLOSE;
    case Some(i) =>
      assert ID_KEY[0] == ',' && CLOSE[0] == '}';
      hide ID_KEY, CLOSE, Escape, Quote;
      Regroup(ID_KEY, i, CLOSE);
      assert (IdText(id) + CLOSE)[0] == ID_KEY[0];
      StripJoin(ID_KEY + "\"", Escape(i) + "\"" + CLOSE);
      UnquoteQuote(i, CLOSE);
  }

  lemma AfterOpRead(h: Header)
    ensures ParseAfterOp(h.op, INDEX_KEY + Quote(h.index) + IdText(h.id) + CLOSE) == Some(h)
  {
    hide INDEX_KEY, CLOSE, IdText, ParseTail, Escape, Quote;
    var tail := IdText(h.id) + CLOSE;
    assert INDEX_KEY + Quote(h.index) + IdText(h.id) + CLOSE == INDEX_KEY + Quote(h.index) + tail;
    Regroup(INDEX_KEY, h.index, tail);
    StripJoin(INDEX_KEY + "\"", Escape(h.index) + "\"" + tail);
    UnquoteQuote(h.index, tail);
    TailRead(h.op, h.index, h.id);
  }

  lemma OpeningsDiffer(text: string, a: Op, b: Op)
    requires a != b && Opening(a) <= text
    ensures Strip(Opening(b), text) == None
  {
    assert Opening(a)[2] == OpName(a)[0] && Opening(b)[2] == OpName(b)[0];
    assert text[2] == Opening(a)[2];
  }

  /** The header line names the operation, the index and the id it was printed with. */
  lemma HeaderRead(h: Header)
    ensures ParseHeader(HeaderText(h)) == Some(h)
  {
    hide INDEX_KEY, CLOSE, IdText, ParseAfterOp, Quote, Opening, Strip;
    AfterOpRead(h);
    var rest := INDEX_KEY + Quote(h.index) + IdText(h.id) + CLOSE;
    StripJoin(Opening(h.op), rest);
    assert Opening(h.op) <= HeaderText(h);
    if h.op != IndexOp {
      OpeningsDiffer(HeaderText(h), h.op, IndexOp);
      if h.op != CreateOp {
        OpeningsDiffer(HeaderText(h), h.op, CreateOp);
      }
    }
  }

  lemma HeaderOneLine(h: Header)
    ensures NEWLINE !in HeaderText(h)
  {
    QuoteOneLine(h.index);
    if h.id.Some? {
      QuoteOneLine(h.id.value);
    }
    assert NEWLINE !in Opening(h.op) && NEWLINE !in INDEX_KEY && NEWLINE !in ID_KEY && NEWLINE !in CLOSE;
    hide Quote, Opening, INDEX_KEY, ID_KEY, CLOSE;
  }

  lemma {:induction false} CutJoin(line: string, rest: string)
    requires NEWLINE !in line
    ensures CutLine(line + "\n" + rest) == Some((line, rest))
  {
    if line == "" {
      assert line + "\n" + rest == "\n" + rest;
    } else {
      assert (line + "\n" + rest)[1..] == line[1..] + "\n" + rest;
      CutJoin(line[1..], rest);
      assert [line[0]] + line[1..] == line;
    }
  }

  lemma ParseOne(a: Action, rest: string)
    requires WellFormed(a)
    ensures ParseBody(Element(a) + "\n" + rest) == Follow(a, ParseBody(rest))
  {
    HeaderOneLine(a.header);
    HeaderRead(a.header);
    hide HeaderText, ParseHeader, CutLine;
    var text := Element(a) + "\n" + rest;
    match a.source
    case None => CutJoin(HeaderText(a.header), rest);
    case Some(source) =>
      var more := source + "\n" + rest;
      assert text == HeaderText(a.header) + "\n" + more;
      CutJoin(HeaderText(a.header), more);
      CutJoin(source, rest);
  }

  /** The framing of a bulk body. For any mix of index, create and delete lines, the server reads exactly one action
      per element, in the order of the elements, with the id and the document it was built from: item k of the reply
      is about element k. */
  lemma {:induction false} BodyRead(actions: seq<Action>)
    requires forall i :: 0 <= i < |actions| ==> WellFormed(actions[i])
    ensures ParseBody(Body(Elements(actions))) == Some(actions)
  {
    if actions == [] {
      assert Body(Elements(actions)) == "";
    } else {
      BodyStep(actions);
      hide Element, Body, ParseBody, WellFormed;
      BodyRead(actions[1..]);
      ParseOne(actions[0], Body(Elements(actions[1..])));
      assert [actions[0]] + actions[1..] == actions;
    }
  }

  lemma BodyStep(actions: seq<Action>)
    requires actions != []
    ensures Body(Elements(actions)) == Element(actions[0]) + "\n" + Body(Elements(actions[1..]))
  {
    hide Element;
    assert Elements(actions)[1..] == Elements(actions[1..]);
  }

  /* ---- the line of a row ---- */

  /** What `build_ndjson` needs to know of the configuration. */
  datatype LineConfig = LineConfig(index: string, op: Op, hasId: bool, hasDeletes: bool)

  /** The id cell as it is checked: a float that is not finite counts as null. */
  function GuardedId(v: Value, t: SType): Value {
    if t.TFloat? || t.TDouble? then Rewriting.Leaf(Rewriting.Floats, v) else v
  }

  /** The action of a row, or `None` for the null line that fails the write. `castId` is Spark's cast to string; a null
      delete flag is not a delete. */
  function RowAction(cfg: LineConfig, castId: Value -> string, id: Value, idType: SType, flag: Value, source: string)
    : Option<Action>
  {
    var guarded := GuardedId(id, idType);
    if cfg.hasId && guarded == VNull then None
    else
      var idText := if cfg.hasId then Some(castId(guarded)) else None;
      if cfg.hasDeletes && flag == VBool(true) then Some(Action(Header(DeleteOp, cfg.index, idText), None))
      else Some(Action(Header(cfg.op, cfg.index, idText), Some(source)))
  }

  /** A line is null exactly when ids are configured and the row's id is null or not finite. */
  lemma NullLineExactly(cfg: LineConfig, castId: Value -> string, id: Value, idType: SType, flag: Value, source: string)
    requires Inhabits(id, idType)
    ensures RowAction(cfg, castId, id, idType, flag, source) == None <==>
            cfg.hasId && (id == VNull || (id.VFloat? && !id.f.Finite?))
  {
  }

  datatype RowCells = RowCells(id: Value, flag: Value, document: Json)

  function ActionOf(cfg: LineConfig, castId: Value -> string, number: NumberText, idType: SType, row: RowCells)
    : Option<Action>
  {
    RowAction(cfg, castId, row.id, idType, row.flag, Text(number, row.document))
  }

  /** From rows to the server: when no line is null, the server reads one action per row, in the order of the rows,
      whatever newlines and quotes the ids and the documents hold; the row is deleted exactly when its flag says so. */
  lemma RowsRead(cfg: LineConfig, castId: Value -> string, number: NumberText, idType: SType, rows: seq<RowCells>,
                 actions: seq<Action>, k: nat)
    requires cfg.op != DeleteOp && OneLine(number) && |actions| == |rows| && k < |rows|
    requires forall i :: 0 <= i < |rows| ==> ActionOf(cfg, castId, number, idType, rows[i]) == Some(actions[i])
    ensures ParseBody(Body(Elements(actions))) == Some(actions)
    ensures actions[k].header.op == DeleteOp <==> cfg.hasDeletes && rows[k].flag == VBool(true)
    ensures actions[k].source == if actions[k].header.op == DeleteOp then None else Some(Text(number, rows[k].document))
  {
    forall i | 0 <= i < |rows| ensures WellFormed(actions[i]) {
      TextOneLine(number, rows[i].document);
    }
    hide Text, Body, ParseBody, Elements;
    BodyRead(actions);
  }
}

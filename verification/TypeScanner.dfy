/**
 Finding the columns that cannot cross Arrow from the printed form of their types.

 `Matches` is what the bounded pattern matches at a position of the text; `Scan` reads the text once, word by word.
 The two agree on every text, and on a printed type they find exactly a variant or an interval somewhere in the tree.
 */
module TypeScanner {
  import opened SparkTypes
  import opened ReadBack

  /* ---- the pattern ---- */

  predicate IdChar(c: char) {
    'a' <= c <= 'z' || '0' <= c <= '9' || c == '_'
  }

  predicate AllId(s: string) {
    forall i :: 0 <= i < |s| ==> IdChar(s[i])
  }

  predicate HostileWord(w: string) {
    w == "variant" || w == "interval"
  }

  /** The word `w` stands at `i`, not inside a longer identifier and not as a field name. */
  predicate WordAt(text: string, i: nat, w: string) {
    && i + |w| <= |text| && text[i..i + |w|] == w
    && (i == 0 || !IdChar(text[i - 1]))
    && (i + |w| == |text| || (!IdChar(text[i + |w|]) && text[i + |w|] != ':'))
  }

  predicate Matches(text: string, i: nat) {
    WordAt(text, i, "variant") || WordAt(text, i, "interval")
  }

  /** `_type_is_arrow_hostile`, as a search over all positions. */
  predicate IsArrowHostile(text: string) {
    exists i :: 0 <= i < |text| && Matches(text, i)
  }

  /* ---- one pass over the text ---- */

  /** `word` holds the identifier characters read since the last other character. */
  predicate Scan(text: string, word: string)
    decreases |text|
  {
    if text == "" then HostileWord(word)
    else if IdChar(text[0]) then Scan(text[1..], word + [text[0]])
    else (HostileWord(word) && text[0] != ':') || Scan(text[1..], "")
  }

  lemma IdWords()
    ensures AllId("variant") && AllId("interval")
  {
    var v, i := "variant", "interval";
    assert IdChar(v[0]) && IdChar(v[1]) && IdChar(v[2]) && IdChar(v[3]) && IdChar(v[4]) && IdChar(v[5]) && IdChar(v[6]);
    assert IdChar(i[0]) && IdChar(i[1]) && IdChar(i[2]) && IdChar(i[3]);
    assert IdChar(i[4]) && IdChar(i[5]) && IdChar(i[6]) && IdChar(i[7]);
  }

  /** A match inside the current word must be the word itself. */
  lemma MatchInWord(pre: string, word: string, text: string, i: nat)
    requires AllId(word) && (pre == "" || !IdChar(pre[|pre| - 1]))
    requires text == "" || !IdChar(text[0])
    requires |pre| <= i <= |pre| + |word| && Matches(pre + word + text, i)
    ensures i == |pre| && HostileWord(word) && (text == "" || text[0] != ':')
  {
    IdWords();
    var full := pre + word + text;
    var w := if WordAt(full, i, "variant") then "variant" else "interval";
    assert WordAt(full, i, w) && AllId(w) && |w| > 0 && HostileWord(w);
    hide Matches, HostileWord;
    NotInside(pre, word, text, i, w);
    EndsWith(pre, word, text, w);
  }

  /** A match longer than the current word takes in the character that ended it. */
  lemma Longer(pre: string, word: string, text: string, w: string)
    requires |w| > |word| && WordAt(pre + word + text, |pre|, w) && (text == "" || !IdChar(text[0]))
    ensures !IdChar(w[|word|])
  {
    var full := pre + word + text;
    assert w[|word|] == full[|pre| + |word|] == text[0];
  }

  /** No word begins inside another one. */
  lemma NotInside(pre: string, word: string, text: string, i: nat, w: string)
    requires AllId(word) && AllId(w) && |w| > 0 && |pre| <= i <= |pre| + |word|
    requires WordAt(pre + word + text, i, w) && (text == "" || !IdChar(text[0]))
    ensures i == |pre|
  {
    if |pre| < i {
      assert false;
    }
  }

  lemma EndsWith(pre: string, word: string, text: string, w: string)
    requires AllId(word) && AllId(w) && |w| > 0 && (text == "" || !IdChar(text[0]))
    requires WordAt(pre + word + text, |pre|, w)
    ensures w == word && (text == "" || text[0] != ':')
  {
    var full := pre + word + text;
    var end := |pre| + |w|;
    if |w| < |word| {
      assert false;
    } else if |w| > |word| {
      Longer(pre, word, text, w);
      assert false;
    } else {
      assert full[|pre|..end] == word;
      if text != "" {
        assert full[end] == text[0];
      }
    }
  }

  lemma WordMatches(pre: string, word: string, text: string)
    requires HostileWord(word) && (pre == "" || !IdChar(pre[|pre| - 1]))
    requires text == "" || (!IdChar(text[0]) && text[0] != ':')
    ensures Matches(pre + word + text, |pre|)
  {
    var full := pre + word + text;
    assert full[|pre|..|pre| + |word|] == word;
    if pre != "" {
      assert full[|pre| - 1] == pre[|pre| - 1];
    }
    if text != "" {
      assert full[|pre| + |word|] == text[0];
    }
  }

  lemma {:induction false} ScanFrom(pre: string, word: string, text: string)
    requires AllId(word) && (pre == "" || !IdChar(pre[|pre| - 1]))
    ensures Scan(text, word) <==> exists i: nat :: |pre| <= i && Matches(pre + word + text, i)
    decreases |text|
  {
    var full := pre + word + text;
    if text != "" && IdChar(text[0]) {
      ScanFrom(pre, word + [text[0]], text[1..]);
      assert pre + (word + [text[0]]) + text[1..] == full;
    } else {
      ScanWord(pre, word, text);
    }
  }

  lemma {:induction false} ScanWord(pre: string, word: string, text: string)
    requires AllId(word) && (pre == "" || !IdChar(pre[|pre| - 1])) && (text == "" || !IdChar(text[0]))
    ensures Scan(text, word) <==> exists i: nat :: |pre| <= i && Matches(pre + word + text, i)
    decreases |text|, 0
  {
    var full := pre + word + text;
    hide Matches;
    if text != "" {
      var pre' := pre + word + [text[0]];
      assert pre' + "" + text[1..] == full;
      ScanFrom(pre', "", text[1..]);
    }
    if HostileWord(word) && (text == "" || text[0] != ':') {
      WordMatches(pre, word, text);
    }
    if i: nat :| |pre| <= i && Matches(full, i) {
      if i <= |pre| + |word| {
        MatchInWord(pre, word, text, i);
      } else {
        MatchEnds(full, i);
      }
    }
  }

  lemma MatchEnds(full: string, i: nat)
    requires Matches(full, i)
    ensures i < |full|
  {
  }

  /** The single pass decides the search. */
  lemma ScanDecides(text: string)
    ensures Scan(text, "") <==> IsArrowHostile(text)
  {
    ScanFrom("", "", text);
    assert "" + "" + text == text;
    if i: nat :| Matches(text, i) {
      MatchEnds(text, i);
    }
  }

  /* ---- the printed form of a type ---- */

  /** A type as DESCRIBE prints it, in lower case. */
  function Print(t: SType): string
    decreases t, 1
  {
    match t
    case TStruct(fields) => "struct<" + PrintFields(t, 0)
    case TArray(e) => "array<" + Print(e) + ">"
    case TMap(k, e) => "map<" + Print(k) + "," + Print(e) + ">"
    case _ => SimpleString(t)
  }

  /** The fields from `i` on, and the closing bracket. */
  function PrintFields(t: SType, i: nat): string
    requires t.TStruct? && i <= |t.fields|
    decreases t, 0, |t.fields| - i
  {
    if i == |t.fields| then ">"
    else
      (if i == 0 then "" else ",") + t.fields[i].name + ":" + Print(t.fields[i].dataType) + PrintFields(t, i + 1)
  }

  /** A variant or an interval at some depth. */
  predicate ContainsHostile(t: SType)
    decreases t
  {
    match t
    case TVariant => true
    case TInterval(_) => true
    case TStruct(fields) => exists i :: 0 <= i < |fields| && ContainsHostile(fields[i].dataType)
    case TArray(e) => ContainsHostile(e)
    case TMap(k, e) => ContainsHostile(k) || ContainsHostile(e)
    case _ => false
  }

  /** Field names are identifiers; so is the name of any other type, and it is neither of the two words. */
  ghost predicate Printable(t: SType)
    decreases t
  {
    match t
    case TStruct(fields) => forall i :: 0 <= i < |fields| ==> AllId(fields[i].name) && Printable(fields[i].dataType)
    case TArray(e) => Printable(e)
    case TMap(k, e) => Printable(k) && Printable(e)
    case TOther(name) => AllId(name) && !("interval" <= name) && name != "variant"
    case _ => true
  }

  /** Text that can follow a type: nothing, or a character that is neither part of an identifier nor a colon. */
  predicate Ends(rest: string) {
    rest == "" || (!IdChar(rest[0]) && rest[0] != ':')
  }

  /** What the pass finds after that character. */
  predicate After(rest: string) {
    rest != "" && Scan(rest[1..], "")
  }

  lemma {:induction false} ScanId(id: string, word: string, rest: string)
    requires AllId(id)
    ensures Scan(id + rest, word) == Scan(rest, word + id)
    decreases |id|
  {
    if id == "" {
      assert id + rest == rest && word + id == word;
    } else {
      assert (id + rest)[0] == id[0] && (id + rest)[1..] == id[1..] + rest;
      ScanId(id[1..], word + [id[0]], rest);
      assert word + [id[0]] + id[1..] == word + id;
    }
  }

  /** A word is found exactly if it is one of the two and what follows may follow a type. */
  lemma ScanTypeWord(id: string, rest: string)
    requires AllId(id) && Ends(rest)
    ensures Scan(id + rest, "") <==> HostileWord(id) || After(rest)
  {
    ScanId(id, "", rest);
    assert "" + id == id;
  }

  /** A word before an opening bracket, a comma or a blank. */
  lemma ScanOpen(id: string, c: char, rest: string)
    requires AllId(id) && !HostileWord(id) && !IdChar(c)
    ensures Scan(id + [c] + rest, "") <==> Scan(rest, "")
  {
    assert id + [c] + rest == id + ([c] + rest);
    ScanId(id, "", [c] + rest);
    assert "" + id == id && ([c] + rest)[1..] == rest;
  }

  lemma ScanAfter(c: char, rest: string)
    requires !IdChar(c)
    ensures Scan([c] + rest, "") <==> Scan(rest, "")
    ensures After([c] + rest) <==> Scan(rest, "")
  {
    assert ([c] + rest)[1..] == rest;
  }

  lemma ScanRest(rest: string)
    requires Ends(rest)
    ensures Scan(rest, "") <==> After(rest)
  {
  }

  lemma {:induction false} DigitsAreId(n: nat)
    ensures AllId(Digits(n)) && Digits(n) != ""
    ensures forall i :: 0 <= i < |Digits(n)| ==> '0' <= Digits(n)[i] <= '9'
  {
    if n >= 10 {
      DigitsAreId(n / 10);
    }
  }

  lemma NumberIsNotHostile(n: nat)
    ensures AllId(Digits(n)) && !HostileWord(Digits(n))
  {
    DigitsAreId(n);
    assert "variant"[0] == 'v' && "interval"[0] == 'i';
  }

  /* ---- the pass over a printed type ---- */

  lemma ScanDecimal(p: nat, q: nat, rest: string)
    requires Ends(rest)
    ensures Scan(SimpleString(TDecimal(p, q)) + rest, "") <==> After(rest)
  {
    var tail := ")" + rest;
    NumberIsNotHostile(p);
    NumberIsNotHostile(q);
    hide Digits;
    assert SimpleString(TDecimal(p, q)) + rest == "decimal" + ['('] + (Digits(p) + [','] + (Digits(q) + [')'] + rest));
    ScanOpen("decimal", '(', Digits(p) + [','] + (Digits(q) + [')'] + rest));
    ScanOpen(Digits(p), ',', Digits(q) + [')'] + rest);
    ScanOpen(Digits(q), ')', rest);
    ScanRest(rest);
  }

  lemma ScanSized(name: string, n: nat, rest: string)
    requires Ends(rest) && AllId(name) && !HostileWord(name)
    ensures Scan(name + "(" + Digits(n) + ")" + rest, "") <==> After(rest)
  {
    NumberIsNotHostile(n);
    hide Digits;
    assert name + "(" + Digits(n) + ")" + rest == name + ['('] + (Digits(n) + [')'] + rest);
    ScanOpen(name, '(', Digits(n) + [')'] + rest);
    ScanOpen(Digits(n), ')', rest);
    ScanRest(rest);
  }

  lemma ScanChar(n: nat, rest: string)
    requires Ends(rest)
    ensures Scan(SimpleString(TChar(n)) + rest, "") <==> After(rest)
  {
    hide Digits, Scan, After;
    assert SimpleString(TChar(n)) + rest == "char" + "(" + Digits(n) + ")" + rest;
    ScanSized("char", n, rest);
  }

  lemma ScanVarchar(n: nat, rest: string)
    requires Ends(rest)
    ensures Scan(SimpleString(TVarchar(n)) + rest, "") <==> After(rest)
  {
    hide Digits, Scan, After;
    assert SimpleString(TVarchar(n)) + rest == "varchar" + "(" + Digits(n) + ")" + rest;
    ScanSized("varchar", n, rest);
  }

  lemma ScanInterval(unit: IntervalUnit, rest: string)
    requires Ends(rest)
    ensures Scan(SimpleString(TInterval(unit)) + rest, "")
  {
    var tail := IntervalText(unit) + rest;
    assert SimpleString(TInterval(unit)) + rest == "interval" + tail;
    IntervalEnds(unit, rest);
    IdWords();
    hide IntervalText, SimpleString, Scan;
    ScanTypeWord("interval", tail);
  }

  lemma IntervalEnds(unit: IntervalUnit, rest: string)
    requires Ends(rest)
    ensures Ends(IntervalText(unit) + rest)
  {
    hide UnitName;
    assert unit.AnyUnit? ==> IntervalText(unit) + rest == rest;
  }

  lemma ScanSimple(t: SType, rest: string)
    requires !t.TArray? && !t.TMap? && !t.TStruct? && !t.TInterval? && !t.TDecimal? && !t.TChar? && !t.TVarchar?
    requires Printable(t) && Ends(rest)
    ensures Scan(SimpleString(t) + rest, "") <==> t.TVariant? || After(rest)
  {
    var word := SimpleString(t);
    assert AllId(word);
    assert HostileWord(word) <==> t.TVariant? by {
      SimpleWords(t);
    }
    ScanTypeWord(word, rest);
  }

  lemma SimpleWords(t: SType)
    requires !t.TArray? && !t.TMap? && !t.TStruct? && !t.TInterval? && !t.TDecimal? && !t.TChar? && !t.TVarchar?
    requires Printable(t)
    ensures AllId(SimpleString(t)) && (HostileWord(SimpleString(t)) <==> t.TVariant?)
  {
    var word := SimpleString(t);
    if t.TInt? {
      assert word[0] != 'v' && word != "interval";
    } else if t.TOther? {
    } else {
      assert word == "variant" || word[0] != 'v' || word == "void";
    }
  }

  lemma ScanScalar(t: SType, rest: string)
    requires !t.TArray? && !t.TMap? && !t.TStruct? && Printable(t) && Ends(rest)
    ensures Scan(SimpleString(t) + rest, "") <==> ContainsHostile(t) || After(rest)
  {
    hide SimpleString, Scan, After;
    match t
    case TInterval(unit) => ScanInterval(unit, rest);
    case TDecimal(p, q) => ScanDecimal(p, q, rest);
    case TChar(n) => ScanChar(n, rest);
    case TVarchar(n) => ScanVarchar(n, rest);
    case _ => ScanSimple(t, rest);
  }

  lemma {:induction false} ScanArray(e: SType, rest: string)
    requires Printable(e) && Ends(rest)
    ensures Scan("array<" + Print(e) + ">" + rest, "") <==> ContainsHostile(e) || After(rest)
    decreases TArray(e), 0
  {
    hide Print, ContainsHostile, Scan, After;
    assert "array<" + Print(e) + ">" + rest == "array" + ['<'] + (Print(e) + (['>'] + rest));
    ScanOpen("array", '<', Print(e) + (['>'] + rest));
    ScanPrinted(e, ['>'] + rest);
    ScanAfter('>', rest);
    ScanRest(rest);
  }

  lemma {:induction false} ScanMap(k: SType, e: SType, rest: string)
    requires Printable(k) && Printable(e) && Ends(rest)
    ensures Scan("map<" + Print(k) + "," + Print(e) + ">" + rest, "") <==>
            ContainsHostile(k) || ContainsHostile(e) || After(rest)
    decreases TMap(k, e), 0
  {
    hide Print, ContainsHostile, Scan, After;
    var tail := Print(e) + (['>'] + rest);
    assert "map<" + Print(k) + "," + Print(e) + ">" + rest == "map" + ['<'] + (Print(k) + ([','] + tail));
    ScanOpen("map", '<', Print(k) + ([','] + tail));
    ScanPrinted(k, [','] + tail);
    ScanAfter(',', tail);
    ScanPrinted(e, ['>'] + rest);
    ScanAfter('>', rest);
    ScanRest(rest);
  }

  /** Some field from `i` on contains a variant or an interval. */
  predicate HostileFrom(t: SType, i: nat)
    requires t.TStruct?
  {
    exists k :: i <= k < |t.fields| && ContainsHostile(t.fields[k].dataType)
  }

  lemma ScanField(name: string, tail: string)
    requires AllId(name)
    ensures Scan(name + ":" + tail, "") <==> Scan(tail, "")
  {
    assert name + ":" + tail == name + ([':'] + tail);
    ScanId(name, "", [':'] + tail);
    assert ([':'] + tail)[1..] == tail;
  }

  /** What the pass finds in the fields from `i` on: after a comma, or at the very beginning. */
  ghost predicate FieldsScanned(t: SType, i: nat, rest: string)
    requires t.TStruct? && i <= |t.fields|
  {
    var text := PrintFields(t, i) + rest;
    && (i > 0 || i == |t.fields| ==> Ends(text) && (After(text) <==> HostileFrom(t, i) || After(rest)))
    && (i == 0 ==> (Scan(text, "") <==> HostileFrom(t, 0) || After(rest)))
  }

  lemma LastField(t: SType, rest: string)
    requires t.TStruct? && Ends(rest)
    ensures FieldsScanned(t, |t.fields|, rest)
  {
    hide Scan;
    assert PrintFields(t, |t.fields|) + rest == ['>'] + rest;
    ScanAfter('>', rest);
    ScanRest(rest);
  }

  lemma OneField(t: SType, i: nat, rest: string)
    requires t.TStruct? && i < |t.fields|
    ensures var f, more := t.fields[i], PrintFields(t, i + 1) + rest;
      PrintFields(t, i) + rest == (if i == 0 then "" else [',']) + (f.name + ":" + (Print(f.dataType) + more))
  {
    hide Print;
    var f := t.fields[i];
    Regroup(if i == 0 then "" else [','], f.name, Print(f.dataType), PrintFields(t, i + 1), rest);
  }

  lemma Regroup(comma: string, name: string, text: string, more: string, rest: string)
    ensures comma + name + ":" + text + more + rest == comma + (name + ":" + (text + (more + rest)))
  {
  }

  lemma HostileStep(t: SType, i: nat)
    requires t.TStruct? && i < |t.fields|
    ensures HostileFrom(t, i) <==> ContainsHostile(t.fields[i].dataType) || HostileFrom(t, i + 1)
  {
    hide ContainsHostile;
  }

  /** One field in front of the others. */
  lemma FieldInFront(t: SType, i: nat, rest: string)
    requires t.TStruct? && i < |t.fields| && AllId(t.fields[i].name) && FieldsScanned(t, i + 1, rest)
    requires var f, more := t.fields[i], PrintFields(t, i + 1) + rest;
      Scan(Print(f.dataType) + more, "") <==> ContainsHostile(f.dataType) || After(more)
    ensures FieldsScanned(t, i, rest)
  {
    var f := t.fields[i];
    var more := PrintFields(t, i + 1) + rest;
    var here := f.name + ":" + (Print(f.dataType) + more);
    OneField(t, i, rest);
    HostileStep(t, i);
    hide Print, PrintFields, Scan, After, ContainsHostile, HostileFrom;
    ScanField(f.name, Print(f.dataType) + more);
    ScanAfter(',', here);
    if i == 0 {
      assert "" + here == here;
    }
  }

  lemma PrintableField(t: SType, i: nat)
    requires t.TStruct? && i < |t.fields| && Printable(t)
    ensures Printable(t.fields[i].dataType) && AllId(t.fields[i].name)
  {
  }

  lemma OthersEnd(t: SType, i: nat, rest: string)
    requires t.TStruct? && i < |t.fields| && FieldsScanned(t, i + 1, rest)
    ensures Ends(PrintFields(t, i + 1) + rest)
  {
    hide PrintFields, Scan, After, HostileFrom;
  }

  lemma {:induction false} ScanFields(t: SType, i: nat, rest: string)
    requires t.TStruct? && i <= |t.fields| && Printable(t) && Ends(rest)
    ensures FieldsScanned(t, i, rest)
    decreases t, 0, |t.fields| - i
  {
    if i == |t.fields| {
      LastField(t, rest);
    } else {
      PrintableField(t, i);
      hide FieldsScanned, Printable, Print, PrintFields, Scan, After, ContainsHostile, Ends, AllId;
      ScanFields(t, i + 1, rest);
      OthersEnd(t, i, rest);
      ScanPrinted(t.fields[i].dataType, PrintFields(t, i + 1) + rest);
      FieldInFront(t, i, rest);
    }
  }

  /** The pass over a printed type, followed by anything that may follow one, finds exactly what the tree contains or
      what comes after. */
  lemma {:induction false} ScanPrinted(t: SType, rest: string)
    requires Printable(t) && Ends(rest)
    ensures Scan(Print(t) + rest, "") <==> ContainsHostile(t) || After(rest)
    decreases t, 1
  {
    hide Scan, After, SimpleString;
    match t
    case TStruct(fields) => ScanStruct(t, rest);
    case TArray(e) => ScanArray(e, rest);
    case TMap(k, e) => ScanMap(k, e, rest);
    case _ => ScanScalar(t, rest);
  }

  lemma {:induction false} ScanStruct(t: SType, rest: string)
    requires t.TStruct? && Printable(t) && Ends(rest)
    ensures Scan(Print(t) + rest, "") <==> ContainsHostile(t) || After(rest)
    decreases t, 0, |t.fields| + 1
  {
    assert Print(t) + rest == "struct" + ['<'] + (PrintFields(t, 0) + rest);
    assert ContainsHostile(t) <==> HostileFrom(t, 0);
    hide Print, Scan, After, ContainsHostile;
    ScanOpen("struct", '<', PrintFields(t, 0) + rest);
    ScanFields(t, 0, rest);
  }

  /** The bounded pattern finds a match in the printed type exactly when the type contains a variant or an interval at
      some depth. No field name can make it match, whatever it is. */
  lemma ScannerAgreesWithTree(t: SType)
    requires Printable(t)
    ensures IsArrowHostile(Print(t)) <==> ContainsHostile(t)
  {
    hide Print, Scan, ContainsHostile, Printable;
    ScanPrinted(t, "");
    assert Print(t) + "" == Print(t);
    ScanDecides(Print(t));
  }

  /* ---- scalar intervals ---- */

  /** `_is_scalar_interval_type` of a trimmed text in lower case. */
  predicate IsScalarInterval(text: string) {
    "interval" <= text
  }

  lemma NotInterval(text: string, k: nat)
    requires k < 8 && (|text| <= k || text[k] != "interval"[k])
    ensures !IsScalarInterval(text)
  {
  }

  /** The test on the beginning of the text holds exactly for intervals at the root. */
  lemma ScalarIntervalIsRoot(t: SType)
    requires Printable(t)
    ensures IsScalarInterval(Print(t)) <==> t.TInterval?
  {
    var text := Print(t);
    if t.TInterval? {
      assert text[..8] == "interval";
    } else if t.TInt? {
      assert |text| <= 3 || text[0] != 'i';
      NotInterval(text, if |text| <= 3 then 3 else 0);
    } else if !t.TOther? {
      assert text[0] != 'i';
      NotInterval(text, 0);
    }
  }

  /* ---- the columns of a table ---- */

  /** A row of DESCRIBE. After the columns come rows with an empty name or one that starts with `#`. */
  datatype DescribeRow = DescribeRow(name: string, dataType: string)

  predicate EndsSection(r: DescribeRow) {
    r.name == "" || r.name[0] == '#'
  }

  datatype Treatment = CastToString | ToJsonText

  /** A column to rewrite, and how. */
  datatype Rewritten = Rewritten(name: string, treatment: Treatment)

  function TreatmentFor(text: string): Treatment {
    if IsScalarInterval(text) then CastToString else ToJsonText
  }

  function HostileRows(rows: seq<DescribeRow>): seq<DescribeRow> {
    if rows == [] then []
    else
      var last := rows[|rows| - 1];
      HostileRows(rows[..|rows| - 1]) + if IsArrowHostile(last.dataType) then [last] else []
  }

  /** How many rows come before the first one that ends the section. */
  function SectionLength(rows: seq<DescribeRow>): (n: nat)
    ensures n <= |rows|
  {
    if rows == [] || EndsSection(rows[0]) then 0 else 1 + SectionLength(rows[1..])
  }

  lemma {:induction false} SectionEnds(rows: seq<DescribeRow>, n: nat)
    requires n <= |rows| && (forall i :: 0 <= i < n ==> !EndsSection(rows[i]))
    requires n == |rows| || EndsSection(rows[n])
    ensures SectionLength(rows) == n
  {
    if n > 0 {
      SectionEnds(rows[1..], n - 1);
    }
  }

  method HostileColumnsFromDescribe(rows: seq<DescribeRow>) returns (hostile: seq<DescribeRow>)
    ensures hostile == HostileRows(rows[..SectionLength(rows)])
  {
    hostile := [];
    for i := 0 to |rows|
      invariant hostile == HostileRows(rows[..i])
      invariant forall k :: 0 <= k < i ==> !EndsSection(rows[k])
    {
      var r := rows[i];
      if EndsSection(r) {
        SectionEnds(rows, i);
        return;
      }
      assert rows[..i + 1][..i] == rows[..i];
      if IsArrowHostile(r.dataType) {
        hostile := hostile + [r];
      }
    }
    SectionEnds(rows, |rows|);
  }

  function Treated(rows: seq<DescribeRow>): seq<Rewritten> {
    seq(|rows|, i requires 0 <= i < |rows| => Rewritten(rows[i].name, TreatmentFor(rows[i].dataType)))
  }

  /** `sanitize_for_arrow`: the rewrites applied to the frame, in order. */
  method SanitizeForArrow(rows: seq<DescribeRow>) returns (out: seq<Rewritten>)
    ensures out == Treated(HostileRows(rows[..SectionLength(rows)]))
  {
    var hostile := HostileColumnsFromDescribe(rows);
    out := [];
    for k := 0 to |hostile|
      invariant out == Treated(hostile[..k])
    {
      if IsScalarInterval(hostile[k].dataType) {
        out := out + [Rewritten(hostile[k].name, CastToString)];
      } else {
        out := out + [Rewritten(hostile[k].name, ToJsonText)];
      }
    }
    assert hostile[..|hostile|] == hostile;
  }

  /* ---- what is done to a table ---- */

  /** The rows DESCRIBE gives for the columns themselves. */
  function ColumnRows(columns: seq<Field>): seq<DescribeRow> {
    seq(|columns|, i requires 0 <= i < |columns| => DescribeRow(columns[i].name, Print(columns[i].dataType)))
  }

  /** What each column needs, by its type: a cast for an interval, JSON text for anything else that contains a variant
      or an interval, nothing for the rest. */
  function Needed(columns: seq<Field>): seq<Rewritten> {
    if columns == [] then []
    else
      var last := columns[|columns| - 1];
      Needed(columns[..|columns| - 1]) +
      if last.dataType.TInterval? then [Rewritten(last.name, CastToString)]
      else if ContainsHostile(last.dataType) then [Rewritten(last.name, ToJsonText)]
      else []
  }

  lemma TreatedMore(rows: seq<DescribeRow>, r: DescribeRow)
    ensures Treated(rows + [r]) == Treated(rows) + [Rewritten(r.name, TreatmentFor(r.dataType))]
    ensures Treated(rows + []) == Treated(rows)
  {
    assert rows + [] == rows;
  }

  lemma {:induction false} TreatedAsNeeded(columns: seq<Field>)
    requires forall i :: 0 <= i < |columns| ==> Printable(columns[i].dataType)
    ensures Treated(HostileRows(ColumnRows(columns))) == Needed(columns)
  {
    if columns == [] {
      assert ColumnRows(columns) == [];
    } else {
      var k := |columns| - 1;
      var t := columns[k].dataType;
      hide Print, ContainsHostile, IsArrowHostile, IsScalarInterval, Printable;
      TreatedAsNeeded(columns[..k]);
      assert ColumnRows(columns)[..k] == ColumnRows(columns[..k]);
      ScannerAgreesWithTree(t);
      ScalarIntervalIsRoot(t);
      IntervalIsHostile(t);
      TreatedMore(HostileRows(ColumnRows(columns[..k])), ColumnRows(columns)[k]);
    }
  }

  lemma IntervalIsHostile(t: SType)
    ensures t.TInterval? ==> ContainsHostile(t)
  {
  }

  /** For every table: exactly the columns whose types contain a variant or an interval are rewritten, an interval by a
      cast and anything else as JSON text, whatever DESCRIBE lists after the columns. */
  lemma SanitizedAsNeeded(columns: seq<Field>, trailer: seq<DescribeRow>)
    requires forall i :: 0 <= i < |columns| ==> columns[i].name != "" && columns[i].name[0] != '#'
    requires forall i :: 0 <= i < |columns| ==> Printable(columns[i].dataType)
    requires trailer == [] || EndsSection(trailer[0])
    ensures var rows := ColumnRows(columns) + trailer;
      Treated(HostileRows(rows[..SectionLength(rows)])) == Needed(columns)
  {
    hide Print, Printable;
    var rows := ColumnRows(columns) + trailer;
    SectionEnds(rows, |columns|);
    assert rows[..|columns|] == ColumnRows(columns);
    hide HostileRows, Needed, Treated;
    TreatedAsNeeded(columns);
  }
}

/**
 Base64 as the serializer writes binary cells and the reader takes them back: the encoding of RFC 4648, section 4,
 and the lenient decoder of Python's `base64.b64decode`, which skips characters outside the alphabet.
 */
module Base64 {
  import opened Wrappers

  const PAD := '='

  /** The 64 characters of the alphabet, in order of their values. */
  function CharOf(v: nat): char
    requires v < 64
  {
    if v < 26 then 'A' + v as char
    else if v < 52 then 'a' + (v - 26) as char
    else if v < 62 then '0' + (v - 52) as char
    else if v == 62 then '+'
    else '/'
  }

  /** The value of a character of the alphabet. */
  function Sextet(c: char): Option<nat> {
    if 'A' <= c <= 'Z' then Some((c - 'A') as nat)
    else if 'a' <= c <= 'z' then Some(26 + (c - 'a') as nat)
    else if '0' <= c <= '9' then Some(52 + (c - '0') as nat)
    else if c == '+' then Some(62)
    else if c == '/' then Some(63)
    else None
  }

  lemma SextetOf(v: nat)
    requires v < 64
    ensures Sextet(CharOf(v)) == Some(v) && CharOf(v) != PAD
  {
  }

  type Byte = b: nat | b < 256

  function Quad(x: Byte, y: Byte, z: Byte): string {
    [CharOf(x / 4), CharOf(x % 4 * 16 + y / 16), CharOf(y % 16 * 4 + z / 64), CharOf(z % 64)]
  }

  /** Three bytes to four characters; one or two left over are padded. */
  function Encode(bytes: seq<Byte>): string {
    if |bytes| == 0 then ""
    else if |bytes| == 1 then
      [CharOf(bytes[0] / 4), CharOf(bytes[0] % 4 * 16), PAD, PAD]
    else if |bytes| == 2 then
      [CharOf(bytes[0] / 4), CharOf(bytes[0] % 4 * 16 + bytes[1] / 16), CharOf(bytes[1] % 16 * 4), PAD]
    else
      Quad(bytes[0], bytes[1], bytes[2]) + Encode(bytes[3..])
  }

  /** The decoder's state: `quad` characters of the current group seen, `left` the bits not yet given out, `pads` the
      padding seen in this group. `Ended` stands for a group closed by padding: whatever follows is ignored. */
  datatype State = Reading(quad: nat, left: nat, pads: nat, out: seq<Byte>) | Ended(out: seq<Byte>)

  const START := Reading(0, 0, 0, [])

  predicate Sane(s: State) {
    s.Reading? ==>
      && s.quad < 4
      && s.left < (if s.quad == 0 then 1 else if s.quad == 1 then 64 else if s.quad == 2 then 16 else 4)
  }

  function Take(s: State, c: char): State
    requires Sane(s)
    ensures Sane(Take(s, c))
  {
    match s
    case Ended(_) => s
    case Reading(quad, left, pads, out) =>
      if c == PAD then
        if quad < 2 then s
        else if quad + pads + 1 >= 4 then Ended(out)
        else s.(pads := pads + 1)
      else
        match Sextet(c)
        case None => s
        case Some(v) =>
          if quad == 0 then Reading(1, v, 0, out)
          else if quad == 1 then Reading(2, v % 16, 0, out + [left * 4 + v / 16])
          else if quad == 2 then Reading(3, v % 4, 0, out + [left * 16 + v / 4])
          else Reading(0, 0, 0, out + [left * 64 + v])
  }

  function TakeAll(s: State, text: string): (r: State)
    requires Sane(s)
    ensures Sane(r)
    decreases |text|
  {
    if text == "" then s else TakeAll(Take(s, text[0]), text[1..])
  }

  /** `None` is the error for a character outside ASCII and for a group that was never completed. */
  function Decode(text: string): Option<seq<Byte>> {
    if exists c :: c in text && c >= 128 as char then None
    else
      var s := TakeAll(START, text);
      if s.Reading? && s.quad != 0 then None else Some(s.out)
  }

  /* ---- decoding undoes encoding ---- */

  lemma {:induction false} TakeJoin(s: State, a: string, b: string)
    requires Sane(s)
    ensures TakeAll(s, a + b) == TakeAll(TakeAll(s, a), b)
    decreases |a|
  {
    if a == "" {
      assert a + b == b;
    } else {
      assert (a + b)[0] == a[0] && (a + b)[1..] == a[1..] + b;
      TakeJoin(Take(s, a[0]), a[1..], b);
    }
  }

  lemma TakeMore(s: State, a: string, c: char)
    requires Sane(s)
    ensures TakeAll(s, a + [c]) == Take(TakeAll(s, a), c)
  {
    hide Take;
    TakeJoin(s, a, [c]);
    assert [c][1..] == "";
  }

  lemma TakeFour(s: State, c0: char, c1: char, c2: char, c3: char)
    requires Sane(s)
    ensures TakeAll(s, [c0, c1, c2, c3]) == Take(Take(Take(Take(s, c0), c1), c2), c3)
  {
    hide Take, TakeAll;
    TakeMore(s, [], c0);
    TakeMore(s, [c0], c1);
    TakeMore(s, [c0, c1], c2);
    TakeMore(s, [c0, c1, c2], c3);
    TakeNone(s);
    assert [] + [c0] == [c0] && [c0] + [c1] == [c0, c1];
    assert [c0, c1] + [c2] == [c0, c1, c2] && [c0, c1, c2] + [c3] == [c0, c1, c2, c3];
  }

  lemma TakeNone(s: State)
    requires Sane(s)
    ensures TakeAll(s, []) == s
  {
  }

  lemma TakeValue(s: State, v: nat)
    requires Sane(s) && s.Reading? && v < 64
    ensures Take(s, CharOf(v)) ==
            if s.quad == 0 then Reading(1, v, 0, s.out)
            else if s.quad == 1 then Reading(2, v % 16, 0, s.out + [s.left * 4 + v / 16])
            else if s.quad == 2 then Reading(3, v % 4, 0, s.out + [s.left * 16 + v / 4])
            else Reading(0, 0, 0, s.out + [s.left * 64 + v])
  {
    hide CharOf;
    SextetOf(v);
  }

  /** A full group gives its three bytes back. */
  lemma Group(out: seq<Byte>, x: Byte, y: Byte, z: Byte)
    ensures TakeAll(Reading(0, 0, 0, out), Quad(x, y, z)) == Reading(0, 0, 0, out + [x, y, z])
  {
    hide CharOf, Take;
    var v0, v1, v2, v3 := x / 4, x % 4 * 16 + y / 16, y % 16 * 4 + z / 64, z % 64;
    TakeFour(Reading(0, 0, 0, out), CharOf(v0), CharOf(v1), CharOf(v2), CharOf(v3));
    TakeValue(Reading(0, 0, 0, out), v0);
    TakeValue(Reading(1, v0, 0, out), v1);
    TakeValue(Reading(2, v1 % 16, 0, out + [x]), v2);
    TakeValue(Reading(3, v2 % 4, 0, out + [x] + [y]), v3);
    assert out + [x] + [y] + [z] == out + [x, y, z];
  }

  lemma LastTwo(out: seq<Byte>, x: Byte, y: Byte)
    ensures TakeAll(Reading(0, 0, 0, out), Encode([x, y])) == Ended(out + [x, y])
  {
    hide CharOf, TakeAll;
    var v0, v1, v2 := x / 4, x % 4 * 16 + y / 16, y % 16 * 4;
    TakeFour(Reading(0, 0, 0, out), CharOf(v0), CharOf(v1), CharOf(v2), PAD);
    TakeValue(Reading(0, 0, 0, out), v0);
    TakeValue(Reading(1, v0, 0, out), v1);
    TakeValue(Reading(2, v1 % 16, 0, out + [x]), v2);
    assert out + [x] + [y] == out + [x, y];
  }

  lemma LastOne(out: seq<Byte>, x: Byte)
    ensures TakeAll(Reading(0, 0, 0, out), Encode([x])) == Ended(out + [x])
  {
    hide CharOf, TakeAll;
    var v0, v1 := x / 4, x % 4 * 16;
    TakeFour(Reading(0, 0, 0, out), CharOf(v0), CharOf(v1), PAD, PAD);
    TakeValue(Reading(0, 0, 0, out), v0);
    TakeValue(Reading(1, v0, 0, out), v1);
  }

  /** The decoder has read exactly `bytes`, and is not in the middle of a group. */
  predicate Gave(s: State, bytes: seq<Byte>) {
    s == Ended(bytes) || s == Reading(0, 0, 0, bytes)
  }

  lemma TakeShort(out: seq<Byte>, bytes: seq<Byte>)
    requires |bytes| < 3
    ensures Gave(TakeAll(Reading(0, 0, 0, out), Encode(bytes)), out + bytes)
  {
    hide Take, TakeAll, Encode;
    if |bytes| == 0 {
      assert bytes == [] && out + bytes == out;
      EncodeNone();
      TakeNone(Reading(0, 0, 0, out));
    } else if |bytes| == 1 {
      LastOne(out, bytes[0]);
      assert [bytes[0]] == bytes;
    } else {
      LastTwo(out, bytes[0], bytes[1]);
      assert [bytes[0], bytes[1]] == bytes;
    }
  }

  lemma EncodeNone()
    ensures Encode([]) == ""
  {
  }

  lemma {:induction false} TakeEncoded(out: seq<Byte>, bytes: seq<Byte>)
    ensures Gave(TakeAll(Reading(0, 0, 0, out), Encode(bytes)), out + bytes)
    decreases |bytes|
  {
    hide TakeAll, Take, Gave, Quad;
    if |bytes| < 3 {
      TakeShort(out, bytes);
    } else {
      var group, rest := bytes[..3], bytes[3..];
      Group(out, bytes[0], bytes[1], bytes[2]);
      TakeJoin(Reading(0, 0, 0, out), Quad(bytes[0], bytes[1], bytes[2]), Encode(rest));
      TakeEncoded(out + group, rest);
      assert group == [bytes[0], bytes[1], bytes[2]];
      assert out + group + rest == out + bytes;
    }
  }

  lemma {:induction false} EncodedAscii(bytes: seq<Byte>, c: char)
    requires c in Encode(bytes)
    ensures c < 128 as char
  {
    if |bytes| > 2 && c !in Encode(bytes)[..4] {
      EncodedAscii(bytes[3..], c);
    }
  }

  /** Decoding undoes encoding, for every byte string. */
  lemma DecodeEncode(bytes: seq<Byte>)
    ensures Decode(Encode(bytes)) == Some(bytes)
  {
    forall c | c in Encode(bytes) ensures c < 128 as char {
      EncodedAscii(bytes, c);
    }
    TakeEncoded([], bytes);
    assert [] + bytes == bytes;
  }
}

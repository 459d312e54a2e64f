/**
 Base64 as in section 4 of RFC 4648, with the strict padding the `STANDARD`
 engine requires. Protocol v1 carries bodies this way.
 */
module Base64 {
  import opened Bytes

  function Symbol(v: nat): char
    requires v < 64
  {
    if v < 26 then 'A' + v as char
    else if v < 52 then 'a' + (v - 26) as char
    else if v < 62 then '0' + (v - 52) as char
    else if v == 62 then '+' else '/'
  }

  function Value(c: char): (v: Option<nat>)
    ensures v.Some? ==> v.value < 64
  {
    if 'A' <= c <= 'Z' then Some((c - 'A') as int)
    else if 'a' <= c <= 'z' then Some((c - 'a') as int + 26)
    else if '0' <= c <= '9' then Some((c - '0') as int + 52)
    else if c == '+' then Some(62)
    else if c == '/' then Some(63)
    else None
  }

  lemma SymbolValue(v: nat)
    requires v < 64
    ensures Value(Symbol(v)) == Some(v) && Symbol(v) != '='
  {
  }

  lemma ValueSymbol(c: char)
    requires Value(c).Some?
    ensures Symbol(Value(c).value) == c && c != '='
  {
  }

  function Quad(a: Byte, b: Byte, c: Byte): string {
    [Symbol(a / 4), Symbol(a % 4 * 16 + b / 16), Symbol(b % 16 * 4 + c / 64), Symbol(c % 64)]
  }

  function Encode(s: seq<Byte>): string {
    if |s| == 0 then ""
    else if |s| == 1 then [Symbol(s[0] / 4), Symbol(s[0] % 4 * 16), '=', '=']
    else if |s| == 2 then
      [Symbol(s[0] / 4), Symbol(s[0] % 4 * 16 + s[1] / 16), Symbol(s[1] % 16 * 4), '=']
    else Quad(s[0], s[1], s[2]) + Encode(s[3..])
  }

  /** A final group: one or two octets with canonical padding and no stray bits. */
  function DecodeTail(t: string): Option<seq<Byte>>
    requires |t| == 4
  {
    var v0, v1, v2 := Value(t[0]), Value(t[1]), Value(t[2]);
    if t[3] != '=' || v0.None? || v1.None? then None
    else if t[2] == '=' then
      (if v1.value % 16 == 0 then Some([v0.value * 4 + v1.value / 16]) else None)
    else if v2.None? || v2.value % 4 != 0 then None
    else Some([v0.value * 4 + v1.value / 16, v1.value % 16 * 16 + v2.value / 4])
  }

  function DecodeQuad(t: string): (r: Option<seq<Byte>>)
    requires |t| == 4
    ensures r.Some? ==> |r.value| == 3
  {
    var v0, v1, v2, v3 := Value(t[0]), Value(t[1]), Value(t[2]), Value(t[3]);
    if v0.None? || v1.None? || v2.None? || v3.None? then None
    else Some([v0.value * 4 + v1.value / 16,
               v1.value % 16 * 16 + v2.value / 4,
               v2.value % 4 * 64 + v3.value])
  }

  function Decode(t: string): Option<seq<Byte>> {
    if |t| == 0 then Some([])
    else if |t| < 4 then None
    else if |t| == 4 && t[3] == '=' then DecodeTail(t)
    else match DecodeQuad(t[..4])
         case None => None
         case Some(head) =>
           match Decode(t[4..])
           case None => None
           case Some(rest) => Some(head + rest)
  }

  /** Three octets as four sextets and back. */
  lemma Regroup(a: Byte, b: Byte, c: Byte)
    ensures a / 4 < 64 && a % 4 * 16 + b / 16 < 64 && b % 16 * 4 + c / 64 < 64 && c % 64 < 64
    ensures a / 4 * 4 + (a % 4 * 16 + b / 16) / 16 == a
    ensures (a % 4 * 16 + b / 16) % 16 * 16 + (b % 16 * 4 + c / 64) / 4 == b
    ensures (b % 16 * 4 + c / 64) % 4 * 64 + c % 64 == c
  {
  }

  /** Four sextets as three octets and back. */
  lemma Ungroup(u: nat, v: nat, w: nat, x: nat)
    requires u < 64 && v < 64 && w < 64 && x < 64
    ensures var a, b, c := u * 4 + v / 16, v % 16 * 16 + w / 4, w % 4 * 64 + x;
            && a < 256 && b < 256 && c < 256
            && a / 4 == u && a % 4 * 16 + b / 16 == v && b % 16 * 4 + c / 64 == w && c % 64 == x
  {
  }

  lemma QuadRoundTrip(a: Byte, b: Byte, c: Byte)
    ensures DecodeQuad(Quad(a, b, c)) == Some([a, b, c])
    ensures Quad(a, b, c)[3] != '='
  {
    Regroup(a, b, c);
    SymbolValue(a / 4);
    SymbolValue(a % 4 * 16 + b / 16);
    SymbolValue(b % 16 * 4 + c / 64);
    SymbolValue(c % 64);
  }

  lemma TailOfOne(a: Byte)
    ensures DecodeTail([Symbol(a / 4), Symbol(a % 4 * 16), '=', '=']) == Some([a])
  {
    SymbolValue(a / 4);
    SymbolValue(a % 4 * 16);
  }

  lemma TailOfTwo(a: Byte, b: Byte)
    ensures DecodeTail([Symbol(a / 4), Symbol(a % 4 * 16 + b / 16), Symbol(b % 16 * 4), '=']) == Some([a, b])
  {
    SymbolValue(a / 4);
    SymbolValue(a % 4 * 16 + b / 16);
    SymbolValue(b % 16 * 4);
  }

  lemma DecodeGroup(q: string, rest: string)
    requires |q| == 4 && q[3] != '=' && DecodeQuad(q).Some? && Decode(rest).Some?
    ensures Decode(q + rest) == Some(DecodeQuad(q).value + Decode(rest).value)
  {
    assert (q + rest)[..4] == q && (q + rest)[4..] == rest;
  }

  /** Decoding inverts encoding. */
  lemma {:induction false} DecodeInvertsEncode(s: seq<Byte>)
    ensures Decode(Encode(s)) == Some(s)
  {
    if |s| == 0 {
    } else if |s| == 1 {
      TailOfOne(s[0]);
      assert s == [s[0]];
    } else if |s| == 2 {
      TailOfTwo(s[0], s[1]);
      assert s == [s[0], s[1]];
    } else {
      DecodeInvertsEncode(s[3..]);
      QuadRoundTrip(s[0], s[1], s[2]);
      DecodeGroup(Quad(s[0], s[1], s[2]), Encode(s[3..]));
      assert s == [s[0], s[1], s[2]] + s[3..];
    }
  }

  /** The length the size guards rely on. */
  lemma {:induction false} EncodedLength(s: seq<Byte>)
    ensures |Encode(s)| == 4 * ((|s| + 2) / 3)
  {
    if |s| >= 3 {
      EncodedLength(s[3..]);
      assert (|s| + 2) / 3 == (|s[3..]| + 2) / 3 + 1;
    }
  }

  lemma TailInverse(t: string)
    requires |t| == 4 && t[3] == '=' && DecodeTail(t).Some?
    ensures Encode(DecodeTail(t).value) == t
  {
    var s := DecodeTail(t).value;
    var u, v := Value(t[0]).value, Value(t[1]).value;
    ValueSymbol(t[0]);
    ValueSymbol(t[1]);
    if t[2] == '=' {
      Ungroup(u, v, 0, 0);
      assert Encode(s) == [Symbol(s[0] / 4), Symbol(s[0] % 4 * 16), '=', '='];
    } else {
      ValueSymbol(t[2]);
      Ungroup(u, v, Value(t[2]).value, 0);
      assert Encode(s) == [Symbol(s[0] / 4), Symbol(s[0] % 4 * 16 + s[1] / 16), Symbol(s[1] % 16 * 4), '='];
    }
  }

  lemma QuadInverse(t: string)
    requires |t| == 4 && DecodeQuad(t).Some?
    ensures var b := DecodeQuad(t).value; Quad(b[0], b[1], b[2]) == t
  {
    Ungroup(Value(t[0]).value, Value(t[1]).value, Value(t[2]).value, Value(t[3]).value);
    ValueSymbol(t[0]);
    ValueSymbol(t[1]);
    ValueSymbol(t[2]);
    ValueSymbol(t[3]);
  }

  /** Strictness: a text that decodes is the one text that encodes those octets. */
  lemma {:induction false} EncodeInvertsDecode(t: string)
    requires Decode(t).Some?
    ensures Encode(Decode(t).value) == t
    decreases |t|
  {
    if |t| == 0 {
    } else if |t| == 4 && t[3] == '=' {
      TailInverse(t);
    } else {
      var head, rest := DecodeQuad(t[..4]).value, Decode(t[4..]).value;
      QuadInverse(t[..4]);
      EncodeInvertsDecode(t[4..]);
      assert (head + rest)[3..] == rest;
      assert t == t[..4] + t[4..];
    }
  }

  /** Vectors of section 10 of RFC 4648, and the two symbols that tell its alphabets apart. */
  lemma KnownVectors()
    ensures Encode([102, 111, 111, 98, 97, 114]) == "Zm9vYmFy"
    ensures Encode([102, 111, 111, 98, 97]) == "Zm9vYmE="
    ensures Encode([102, 111, 111, 98]) == "Zm9vYg=="
    ensures Encode([251, 255]) == "+/8="
  {
    assert [102, 111, 111, 98, 97, 114][3..] == [98, 97, 114] && [98, 97, 114][3..] == [];
    assert Encode([98, 97, 114]) == Quad(98, 97, 114) + Encode([]);
    assert [102, 111, 111, 98, 97][3..] == [98, 97] && [102, 111, 111, 98][3..] == [98];
  }

  const LEGACY_MAX_REQUEST_BYTES := 5 * 1024 * 1024

  /** The v1 guards: the text's length first, then strict decoding, then the octets' length. */
  function Guarded(text: string, max: nat): Option<seq<Byte>> {
    if |text| > max * 4 / 3 + 8 then None
    else match Decode(text)
         case None => None
         case Some(s) => if |s| > max then None else Some(s)
  }

  /** They let through exactly the encodings of bodies within the limit, whatever the limit. */
  lemma GuardsAreExact(text: string, max: nat, s: seq<Byte>)
    ensures Guarded(text, max) == Some(s) <==> |s| <= max && text == Encode(s)
  {
    if text == Encode(s) {
      EncodedLength(s);
      DecodeInvertsEncode(s);
    }
    if Decode(text).Some? {
      EncodeInvertsDecode(text);
    }
  }
}

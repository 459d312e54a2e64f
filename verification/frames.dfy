/**
 Binary frames of the reverse stream: one kind byte, sixteen raw request-id
 bytes, then the body (relay-protocol/src/mcp_stream.rs). A Rust `&str` is seen
 as its UTF-8 bytes, one `char` per byte.
 */
module Frames {
  import opened Bytes

  const MAX_FRAME_BODY := 64 * 1024
  const MAX_REQUEST_BYTES := 64 * 1024 * 1024
  const MAX_RESPONSE_BYTES := 128 * 1024 * 1024
  const MAX_INFLIGHT := 64
  const ID_CHARS := 32
  const HEADER := 17

  datatype Kind = RequestBody | ResponseBody
  datatype Frame = Frame(kind: Kind, id: string, body: seq<Byte>)

  function KindByte(k: Kind): Byte {
    match k case RequestBody => 1 case ResponseBody => 2
  }

  function HexDigit(n: nat): char
    requires n < 16
  {
    if n < 10 then '0' + n as char else 'a' + (n - 10) as char
  }

  function HexValue(c: char): (v: Option<Byte>)
    ensures v.Some? ==> v.value < 16
  {
    if '0' <= c <= '9' then Some((c - '0') as int)
    else if 'a' <= c <= 'f' then Some((c - 'a') as int + 10)
    else if 'A' <= c <= 'F' then Some((c - 'A') as int + 10)
    else None
  }

  /** `u8::from_str_radix(pair, 16)`: Rust accepts a leading plus sign. */
  function PairValue(a: char, b: char): (v: Option<Byte>) {
    match HexValue(b)
    case None => None
    case Some(low) =>
      if a == '+' then Some(low)
      else match HexValue(a)
           case None => None
           case Some(high) => Some(16 * high + low)
  }

  predicate LowerHexChar(c: char) { '0' <= c <= '9' || 'a' <= c <= 'f' }

  /** The ids that `random_hex(16)` produces. */
  predicate LowerHexId(id: string) {
    |id| == ID_CHARS && forall i | 0 <= i < |id| :: LowerHexChar(id[i])
  }

  function PairAt(id: string, k: nat): Option<Byte>
    requires 2 * k + 1 < |id|
  {
    PairValue(id[2 * k], id[2 * k + 1])
  }

  predicate IdParses(id: string) {
    |id| == ID_CHARS && forall k | 0 <= k < 16 :: PairAt(id, k).Some?
  }

  function RawId(id: string): (raw: seq<Byte>)
    requires IdParses(id)
    ensures |raw| == 16
  {
    seq(16, k requires 0 <= k < 16 => PairAt(id, k).value)
  }

  /** What the `{byte:02x}` loop writes. */
  function IdText(raw: seq<Byte>): (id: string)
    ensures |id| == 2 * |raw|
  {
    seq(2 * |raw|, i requires 0 <= i < 2 * |raw| =>
      HexDigit(if i % 2 == 0 then raw[i / 2] / 16 else raw[i / 2] % 16))
  }

  function EncodeFrame(kind: Kind, id: string, body: seq<Byte>): Option<seq<Byte>> {
    if |body| > MAX_FRAME_BODY || !IdParses(id) then None
    else Some([KindByte(kind)] + RawId(id) + body)
  }

  function DecodeFrame(frame: seq<Byte>): Option<Frame> {
    if |frame| < HEADER || |frame| > HEADER + MAX_FRAME_BODY then None
    else if frame[0] == 1 then Some(Frame(RequestBody, IdText(frame[1..17]), frame[17..]))
    else if frame[0] == 2 then Some(Frame(ResponseBody, IdText(frame[1..17]), frame[17..]))
    else None
  }

  lemma DigitValue(n: nat)
    requires n < 16
    ensures HexValue(HexDigit(n)) == Some(n)
    ensures LowerHexChar(HexDigit(n)) && HexDigit(n) != '+'
  {
  }

  lemma ValueDigit(c: char)
    requires LowerHexChar(c)
    ensures HexValue(c).Some? && HexDigit(HexValue(c).value) == c && c != '+'
  {
    if '0' <= c <= '9' {
      assert HexValue(c) == Some((c - '0') as int);
    } else {
      assert HexValue(c) == Some((c - 'a') as int + 10);
    }
  }

  lemma IdTextIsLowerHex(raw: seq<Byte>)
    requires |raw| == 16
    ensures LowerHexId(IdText(raw))
    ensures IdParses(IdText(raw)) && RawId(IdText(raw)) == raw
  {
    var id := IdText(raw);
    forall i | 0 <= i < |id| ensures LowerHexChar(id[i]) {
      DigitValue(if i % 2 == 0 then raw[i / 2] / 16 else raw[i / 2] % 16);
    }
    forall k | 0 <= k < 16 ensures PairAt(id, k) == Some(raw[k]) {
      assert (2 * k) / 2 == k && (2 * k + 1) / 2 == k && (2 * k + 1) % 2 == 1;
      DigitValue(raw[k] / 16);
      DigitValue(raw[k] % 16);
    }
  }

  lemma LowerHexIdParses(id: string)
    requires LowerHexId(id)
    ensures IdParses(id) && IdText(RawId(id)) == id
  {
    forall k | 0 <= k < 16
      ensures PairAt(id, k).Some?
      ensures HexDigit(PairAt(id, k).value / 16) == id[2 * k]
      ensures HexDigit(PairAt(id, k).value % 16) == id[2 * k + 1]
    {
      ValueDigit(id[2 * k]);
      ValueDigit(id[2 * k + 1]);
    }
    var text := IdText(RawId(id));
    forall i | 0 <= i < 32 ensures text[i] == id[i] {
      var k := i / 2;
      assert i == 2 * k || i == 2 * k + 1;
      assert RawId(id)[k] == PairAt(id, k).value;
    }
  }

  /**
   What a frame decodes to, for every input the encoder accepts: kind and body
   survive, the id comes back in lower-case hex. The second clause is the exact
   condition of a full round trip.
   */
  lemma DecodeInvertsEncode(kind: Kind, id: string, body: seq<Byte>)
    ensures EncodeFrame(kind, id, body).Some? ==>
              DecodeFrame(EncodeFrame(kind, id, body).value) == Some(Frame(kind, IdText(RawId(id)), body))
    ensures (EncodeFrame(kind, id, body).Some?
             && DecodeFrame(EncodeFrame(kind, id, body).value) == Some(Frame(kind, id, body)))
            <==> LowerHexId(id) && |body| <= MAX_FRAME_BODY
  {
    if EncodeFrame(kind, id, body).Some? {
      var frame := EncodeFrame(kind, id, body).value;
      assert frame[1..17] == RawId(id);
      assert frame[17..] == body;
      IdTextIsLowerHex(RawId(id));
    }
    if LowerHexId(id) {
      LowerHexIdParses(id);
    }
  }

  /** Every accepted frame is the encoding of what it decodes to: the format has no second spelling. */
  lemma EncodeInvertsDecode(frame: seq<Byte>)
    requires DecodeFrame(frame).Some?
    ensures var f := DecodeFrame(frame).value;
            LowerHexId(f.id) && EncodeFrame(f.kind, f.id, f.body) == Some(frame)
  {
    var raw, body := frame[1..17], frame[17..];
    IdTextIsLowerHex(raw);
    assert frame == [frame[0]] + raw + body;
    assert |body| <= MAX_FRAME_BODY;
  }

  /** The octets on the wire: kind 1 or 2, the sixteen octets that the id spells, the body. */
  lemma FrameLayout(kind: Kind, id: string, body: seq<Byte>, k: nat)
    requires LowerHexId(id) && |body| <= 65536 && k < 16
    ensures EncodeFrame(kind, id, body).Some?
    ensures var frame := EncodeFrame(kind, id, body).value;
      && |frame| == 17 + |body| && frame[0] == (if kind.RequestBody? then 1 else 2) && frame[17..] == body
      && frame[1 + k] == 16 * NibbleOf(id[2 * k]) + NibbleOf(id[2 * k + 1])
  {
    LowerHexIdParses(id);
    assert PairAt(id, k) == Some(RawId(id)[k]);
    ValueDigit(id[2 * k]);
    ValueDigit(id[2 * k + 1]);
  }

  /** A lower-case hexadecimal digit's value. */
  function NibbleOf(c: char): int
    requires LowerHexChar(c)
  {
    if c <= '9' then (c - '0') as int else 10 + (c - 'a') as int
  }

  /** `mcp_stream::encode`: the buffer grows one pushed byte at a time. */
  method Encode(kind: Kind, id: string, body: seq<Byte>) returns (r: Option<seq<Byte>>)
    ensures r == EncodeFrame(kind, id, body)
  {
    if |id| != ID_CHARS || |body| > MAX_FRAME_BODY { return None; }
    var frame: seq<Byte> := [KindByte(kind)];
    var k := 0;
    while k < 16
      invariant 0 <= k <= 16 && |frame| == 1 + k
      invariant frame[0] == KindByte(kind)
      invariant forall j | 0 <= j < k :: PairAt(id, j) == Some(frame[1 + j])
    {
      var byte := PairValue(id[2 * k], id[2 * k + 1]);
      if byte.None? {
        assert PairAt(id, k).None?;
        return None;
      }
      assert PairAt(id, k) == byte;
      frame := frame + [byte.value];
      k := k + 1;
    }
    assert frame == [KindByte(kind)] + RawId(id);
    r := Some(frame + body);
  }

  /** `mcp_stream::decode`: the id text grows two digits a byte. */
  method Decode(frame: seq<Byte>) returns (r: Option<Frame>)
    ensures r == DecodeFrame(frame)
  {
    if |frame| < HEADER || |frame| > HEADER + MAX_FRAME_BODY { return None; }
    var kind;
    if frame[0] == 1 { kind := RequestBody; }
    else if frame[0] == 2 { kind := ResponseBody; }
    else { return None; }
    var raw := frame[1..17];
    var id := "";
    var k := 0;
    while k < 16
      invariant 0 <= k <= 16
      invariant id == IdText(raw[..k])
    {
      ghost var before := id;
      id := id + [HexDigit(raw[k] / 16), HexDigit(raw[k] % 16)];
      IdTextGrows(raw, k);
      k := k + 1;
    }
    assert raw[..16] == raw;
    r := Some(Frame(kind, id, frame[17..]));
  }

  lemma IdTextGrows(raw: seq<Byte>, k: nat)
    requires k < |raw|
    ensures IdText(raw[..k + 1]) == IdText(raw[..k]) + [HexDigit(raw[k] / 16), HexDigit(raw[k] % 16)]
  {
    var more := IdText(raw[..k + 1]);
    var less := IdText(raw[..k]);
    forall i | 0 <= i < 2 * k + 2
      ensures more[i] == (less + [HexDigit(raw[k] / 16), HexDigit(raw[k] % 16)])[i]
    {
      if i < 2 * k {
        assert raw[..k + 1][i / 2] == raw[..k][i / 2];
      } else {
        assert i / 2 == k;
      }
    }
  }
}

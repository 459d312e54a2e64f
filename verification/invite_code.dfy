/**
 The enrolment code that the panel prints and the desktop and the relay read:
 a hexadecimal JSON body (section 8 of RFC 4648) between a prefix and a
 signature. The panel is a Python program and the readers are Rust, so the two
 sides are modelled separately.
 */
module InviteCode {
  import opened Bytes

  const PREFIX := "cxr1"
  const CONTEXT := "chatx-registration-v1:"
  const MAX_CODE: nat := 2048
  const LIFETIME: nat := 600000
  const U64: nat := 0x1_0000_0000_0000_0000

  datatype Invite = Invite(baseUrl: string, expiresAt: nat, nonce: string)

  // ---- Text ----------------------------------------------------------------

  predicate Alnum(c: char) { '0' <= c <= '9' || 'a' <= c <= 'z' || 'A' <= c <= 'Z' }

  predicate HexDigit(c: char) { '0' <= c <= '9' || 'a' <= c <= 'f' || 'A' <= c <= 'F' }

  predicate AllHex(s: string) { forall i :: 0 <= i < |s| ==> HexDigit(s[i]) }

  predicate Blank(c: char) { c in " \t\n\r" }

  function TrimStart(s: string): string {
    if s != "" && Blank(s[0]) then TrimStart(s[1..]) else s
  }

  function TrimEnd(s: string): string
    decreases |s|
  {
    if s != "" && Blank(s[|s| - 1]) then TrimEnd(s[..|s| - 1]) else s
  }

  function Trim(s: string): string { TrimEnd(TrimStart(s)) }

  lemma TrimKeeps(s: string)
    requires s != "" && !Blank(s[0]) && !Blank(s[|s| - 1])
    ensures Trim(s) == s
  {
  }

  function DropSlashes(s: string): string
    decreases |s|
  {
    if s != "" && s[|s| - 1] == '/' then DropSlashes(s[..|s| - 1]) else s
  }

  /** Both languages' split: always at least one part. */
  function Split(s: string, sep: char): (parts: seq<string>)
    ensures parts != []
  {
    if s == "" then [""]
    else
      var rest := Split(s[1..], sep);
      if s[0] == sep then [""] + rest else [[s[0]] + rest[0]] + rest[1..]
  }

  lemma {:induction false} SplitFirst(a: string, sep: char, rest: string)
    requires sep !in a
    ensures Split(a + [sep] + rest, sep) == [a] + Split(rest, sep)
  {
    if a == "" {
      assert a + [sep] + rest == [sep] + rest && ([sep] + rest)[1..] == rest;
    } else {
      assert (a + [sep] + rest)[1..] == a[1..] + [sep] + rest;
      SplitFirst(a[1..], sep, rest);
      assert [a[0]] + a[1..] == a;
    }
  }

  lemma {:induction false} SplitWhole(a: string, sep: char)
    requires sep !in a
    ensures Split(a, sep) == [a]
  {
    if a != "" {
      SplitWhole(a[1..], sep);
      assert [a[0]] + a[1..] == a;
    }
  }

  // ---- Host names, as each side checks them --------------------------------

  /** The panel's pattern: one letter or digit, or up to 63 of them with inner hyphens. */
  predicate PanelLabel(l: string) {
    && 1 <= |l| <= 63 && Alnum(l[0]) && Alnum(l[|l| - 1])
    && forall i :: 1 <= i < |l| - 1 ==> Alnum(l[i]) || l[i] == '-'
  }

  predicate ReaderLabel(l: string) {
    && l != "" && |l| <= 63 && l[0] != '-' && l[|l| - 1] != '-'
    && forall i :: 0 <= i < |l| ==> Alnum(l[i]) || l[i] == '-'
  }

  lemma LabelsAgree(l: string)
    ensures PanelLabel(l) <==> ReaderLabel(l)
  {
  }

  predicate PanelHost(h: string) {
    h != "" && |h| <= 253 && forall i :: 0 <= i < |Split(h, '.')| ==> PanelLabel(Split(h, '.')[i])
  }

  predicate ReaderHost(h: string) {
    h != "" && |h| <= 253 && forall i :: 0 <= i < |Split(h, '.')| ==> ReaderLabel(Split(h, '.')[i])
  }

  lemma HostsAgree(h: string)
    ensures PanelHost(h) <==> ReaderHost(h)
  {
    forall i | 0 <= i < |Split(h, '.')| ensures PanelLabel(Split(h, '.')[i]) <==> ReaderLabel(Split(h, '.')[i]) {
      LabelsAgree(Split(h, '.')[i]);
    }
  }

  const SCHEME := "https://"

  /** `public_url`. */
  function PublicUrl(value: string): Option<string> {
    var v := DropSlashes(Trim(value));
    if SCHEME <= v && PanelHost(v[8..]) then Some(v) else None
  }

  /** An address that is clean already comes back unchanged. */
  lemma PublicUrlKeepsCleanAddresses(url: string)
    requires SCHEME <= url && PanelHost(url[8..])
    ensures PublicUrl(url) == Some(url)
  {
    PanelHostEndsInAlnum(url[8..]);
    assert url[|url| - 1] == url[8..][|url| - 9];
    TrimKeeps(url);
  }

  /** Blanks around an address and slashes after it do not matter. */
  lemma PublicUrlDropsTheRest(before: string, url: string, slashes: string, after: string)
    requires SCHEME <= url && PanelHost(url[8..])
    requires AllBlank(before) && AllBlank(after) && forall i :: 0 <= i < |slashes| ==> slashes[i] == '/'
    ensures PublicUrl(before + url + slashes + after) == Some(url)
  {
    PanelHostEndsInAlnum(url[8..]);
    assert url[|url| - 1] == url[8..][|url| - 9];
    var clean := url + slashes;
    assert !Blank(clean[0]) && !Blank(clean[|clean| - 1]);
    assert before + url + slashes + after == before + (clean + after);
    TrimStartDrops(before, clean + after);
    TrimEndDrops(clean, after);
    DropSlashesDrops(url, slashes);
  }

  /** And nothing else is ever dropped. */
  lemma PublicUrlDropsNothingElse(value: string) returns (before: string, slashes: string, after: string)
    requires PublicUrl(value).Some?
    ensures value == before + PublicUrl(value).value + slashes + after
    ensures AllBlank(before) && AllBlank(after) && forall i :: 0 <= i < |slashes| ==> slashes[i] == '/'
  {
    before := TrimStartLeaves(value);
    after := TrimEndLeaves(TrimStart(value));
    slashes := DropSlashesLeaves(Trim(value));
  }

  lemma {:induction false} TrimStartLeaves(s: string) returns (before: string)
    ensures AllBlank(before) && s == before + TrimStart(s)
  {
    before := "";
    if s != "" && Blank(s[0]) {
      var rest := TrimStartLeaves(s[1..]);
      before := [s[0]] + rest;
    }
  }

  lemma {:induction false} TrimEndLeaves(s: string) returns (after: string)
    ensures AllBlank(after) && s == TrimEnd(s) + after
    decreases |s|
  {
    after := "";
    if s != "" && Blank(s[|s| - 1]) {
      var rest := TrimEndLeaves(s[..|s| - 1]);
      after := rest + [s[|s| - 1]];
    }
  }

  lemma {:induction false} DropSlashesLeaves(s: string) returns (slashes: string)
    ensures s == DropSlashes(s) + slashes && forall i :: 0 <= i < |slashes| ==> slashes[i] == '/'
    decreases |s|
  {
    slashes := "";
    if s != "" && s[|s| - 1] == '/' {
      var rest := DropSlashesLeaves(s[..|s| - 1]);
      slashes := rest + [s[|s| - 1]];
    }
  }

  predicate AllBlank(s: string) { forall i :: 0 <= i < |s| ==> Blank(s[i]) }

  lemma {:induction false} TrimStartDrops(before: string, s: string)
    requires AllBlank(before) && s != "" && !Blank(s[0])
    ensures TrimStart(before + s) == s
  {
    if before == "" {
      assert before + s == s;
    } else {
      assert (before + s)[1..] == before[1..] + s;
      TrimStartDrops(before[1..], s);
    }
  }

  lemma {:induction false} TrimEndDrops(s: string, after: string)
    requires AllBlank(after) && s != "" && !Blank(s[|s| - 1])
    ensures TrimEnd(s + after) == s
    decreases |after|
  {
    if after == "" {
      assert s + after == s;
    } else {
      var n := |after| - 1;
      assert (s + after)[..|s + after| - 1] == s + after[..n];
      TrimEndDrops(s, after[..n]);
    }
  }

  lemma {:induction false} DropSlashesDrops(s: string, slashes: string)
    requires s != "" && s[|s| - 1] != '/' && forall i :: 0 <= i < |slashes| ==> slashes[i] == '/'
    ensures DropSlashes(s + slashes) == s
    decreases |slashes|
  {
    if slashes == "" {
      assert s + slashes == s;
    } else {
      var n := |slashes| - 1;
      assert (s + slashes)[..|s + slashes| - 1] == s + slashes[..n];
      DropSlashesDrops(s, slashes[..n]);
    }
  }

  /** The last label ends the host. */
  lemma {:induction false} SplitEnds(s: string, sep: char)
    requires s != "" && s[|s| - 1] != sep
    ensures var parts := Split(s, sep); var last := parts[|parts| - 1];
      last != "" && last[|last| - 1] == s[|s| - 1]
  {
    if |s| > 1 {
      assert s[1..][|s| - 2] == s[|s| - 1];
      SplitEnds(s[1..], sep);
    } else {
      assert Split(s[1..], sep) == [""];
    }
  }

  lemma {:induction false} SplitEndsEmpty(s: string, sep: char)
    requires s != "" && s[|s| - 1] == sep
    ensures Split(s, sep)[|Split(s, sep)| - 1] == ""
  {
    if |s| > 1 {
      assert s[1..][|s| - 2] == s[|s| - 1];
      SplitEndsEmpty(s[1..], sep);
    }
  }

  lemma PanelHostEndsInAlnum(h: string)
    requires PanelHost(h)
    ensures h != "" && Alnum(h[|h| - 1])
  {
    var parts := Split(h, '.');
    assert PanelLabel(parts[|parts| - 1]);
    if h[|h| - 1] == '.' {
      SplitEndsEmpty(h, '.');
    } else {
      SplitEnds(h, '.');
    }
  }

  predicate ReaderUrl(url: string) { SCHEME <= url && ReaderHost(url[8..]) }

  predicate LabelChars(l: string) { forall i :: 0 <= i < |l| ==> Alnum(l[i]) || l[i] == '-' }

  /** Nothing in a host needs escaping. */
  predicate Quotable(s: string) { forall i :: 0 <= i < |s| ==> s[i] != '"' && s[i] != '\\' && ' ' <= s[i] <= '~' }

  lemma {:induction false} HostIsQuotable(h: string)
    requires forall l :: l in Split(h, '.') ==> LabelChars(l)
    ensures Quotable(h)
  {
    if h != "" {
      var rest, parts := Split(h[1..], '.'), Split(h, '.');
      if h[0] == '.' {
        assert parts == [""] + rest;
      } else {
        assert parts == [[h[0]] + rest[0]] + rest[1..];
        assert LabelChars([h[0]] + rest[0]);
        assert ([h[0]] + rest[0])[0] == h[0];
        forall i | 0 <= i < |rest[0]| ensures Alnum(rest[0][i]) || rest[0][i] == '-' {
          assert rest[0][i] == ([h[0]] + rest[0])[i + 1];
        }
        assert rest == [rest[0]] + rest[1..];
      }
      HostIsQuotable(h[1..]);
    }
  }

  /** Whatever the panel accepts the readers accept, and it prints as it is. */
  lemma PublicUrlIsReadable(value: string)
    requires PublicUrl(value).Some?
    ensures var url := PublicUrl(value).value;
      SCHEME <= url && ReaderUrl(url) && Quotable(url) && |url| <= 261
  {
    var url := PublicUrl(value).value;
    HostsAgree(url[8..]);
    forall l | l in Split(url[8..], '.') ensures LabelChars(l) {
      var i :| 0 <= i < |Split(url[8..], '.')| && Split(url[8..], '.')[i] == l;
      assert ReaderLabel(Split(url[8..], '.')[i]);
    }
    HostIsQuotable(url[8..]);
    assert url == SCHEME + url[8..];
  }

  // ---- Numbers -------------------------------------------------------------

  predicate Digit(c: char) { '0' <= c <= '9' }

  function Digits(n: nat): (s: string)
    ensures s != "" && forall i :: 0 <= i < |s| ==> Digit(s[i])
  {
    var last := [('0' as int + n % 10) as char];
    if n < 10 then last else Digits(n / 10) + last
  }

  function Number(s: string): nat
    requires forall i :: 0 <= i < |s| ==> Digit(s[i])
    decreases |s|
  {
    if s == "" then 0
    else
      var c := s[|s| - 1];
      assert Digit(c);
      Number(s[..|s| - 1]) * 10 + (c as int - '0' as int)
  }

  lemma {:induction false} NumberOfDigits(n: nat)
    ensures Number(Digits(n)) == n
  {
    var s := Digits(n);
    if n >= 10 {
      NumberOfDigits(n / 10);
      assert s[..|s| - 1] == Digits(n / 10);
    }
  }

  function Power10(k: nat): nat { if k == 0 then 1 else 10 * Power10(k - 1) }

  lemma {:induction false} DigitsLength(n: nat, k: nat)
    requires k >= 1 && n < Power10(k)
    ensures |Digits(n)| <= k
  {
    if n >= 10 {
      assert k >= 2;
      DigitsLength(n / 10, k - 1);
    }
  }

  lemma {:induction false} NoLeadingZero(n: nat)
    ensures Digits(n)[0] == '0' ==> n == 0 && |Digits(n)| == 1
    ensures n > 0 ==> Digits(n)[0] != '0'
  {
    if n >= 10 {
      NoLeadingZero(n / 10);
    }
  }

  // ---- The JSON body, in the one shape the panel prints --------------------

  const HEAD := "{\"baseUrl\":\""
  const MIDDLE := "\",\"expiresAt\":"
  const TAIL := ",\"nonce\":\""
  const END := "\"}"

  function Json(x: Invite): string { HEAD + x.baseUrl + MIDDLE + Digits(x.expiresAt) + TAIL + x.nonce + END }

  /** The text up to the next quote, and what follows. */
  function UntilQuote(s: string): (string, string) {
    if s == "" || s[0] == '"' then ("", s)
    else var (a, rest) := UntilQuote(s[1..]); ([s[0]] + a, rest)
  }

  function UntilComma(s: string): (string, string) {
    if s == "" || s[0] == ',' then ("", s)
    else var (a, rest) := UntilComma(s[1..]); ([s[0]] + a, rest)
  }

  lemma {:induction false} UntilQuoteOf(a: string, rest: string)
    requires '"' !in a && rest != "" && rest[0] == '"'
    ensures UntilQuote(a + rest) == (a, rest)
  {
    if a == "" {
      assert a + rest == rest;
    } else {
      assert (a + rest)[1..] == a[1..] + rest;
      UntilQuoteOf(a[1..], rest);
      assert [a[0]] + a[1..] == a;
    }
  }

  lemma {:induction false} UntilCommaOf(a: string, rest: string)
    requires ',' !in a && rest != "" && rest[0] == ','
    ensures UntilComma(a + rest) == (a, rest)
  {
    if a == "" {
      assert a + rest == rest;
    } else {
      assert (a + rest)[1..] == a[1..] + rest;
      UntilCommaOf(a[1..], rest);
      assert [a[0]] + a[1..] == a;
    }
  }

  predicate IsNumber(s: string) {
    s != "" && (s[0] == '0' ==> |s| == 1) && forall i :: 0 <= i < |s| ==> Digit(s[i])
  }

  function ParseNonce(s: string): Option<string> {
    if !(TAIL <= s) then None else
    var (nonce, rest) := UntilQuote(s[|TAIL|..]);
    if Quotable(nonce) && rest == END then Some(nonce) else None
  }

  function ParseExpiry(url: string, s: string): Option<Invite> {
    if !(MIDDLE <= s) then None else
    var (digits, rest) := UntilComma(s[|MIDDLE|..]);
    if !IsNumber(digits) || Number(digits) >= U64 then None else
    var nonce := ParseNonce(rest);
    if nonce.None? then None else Some(Invite(url, Number(digits), nonce.value))
  }

  function ParseJson(s: string): Option<Invite> {
    if !(HEAD <= s) then None else
    var (url, rest) := UntilQuote(s[|HEAD|..]);
    if Quotable(url) then ParseExpiry(url, rest) else None
  }

  lemma NonceRoundTrip(nonce: string)
    requires Quotable(nonce)
    ensures ParseNonce(TAIL + nonce + END) == Some(nonce)
  {
    var s := TAIL + nonce + END;
    assert s[|TAIL|..] == nonce + END;
    UntilQuoteOf(nonce, END);
  }

  lemma ExpiryRoundTrip(x: Invite)
    requires Quotable(x.nonce) && x.expiresAt < U64
    ensures ParseExpiry(x.baseUrl, MIDDLE + Digits(x.expiresAt) + TAIL + x.nonce + END) == Some(x)
  {
    var rest := TAIL + x.nonce + END;
    var s := MIDDLE + Digits(x.expiresAt) + TAIL + x.nonce + END;
    assert s[|MIDDLE|..] == Digits(x.expiresAt) + rest;
    UntilCommaOf(Digits(x.expiresAt), rest);
    NumberOfDigits(x.expiresAt);
    NoLeadingZero(x.expiresAt);
    NonceRoundTrip(x.nonce);
  }

  lemma JsonRoundTrip(x: Invite)
    requires Quotable(x.baseUrl) && Quotable(x.nonce) && x.expiresAt < U64
    ensures ParseJson(Json(x)) == Some(x)
  {
    var rest := MIDDLE + Digits(x.expiresAt) + TAIL + x.nonce + END;
    assert Json(x)[|HEAD|..] == x.baseUrl + rest;
    UntilQuoteOf(x.baseUrl, rest);
    ExpiryRoundTrip(x);
  }

  // ---- Hexadecimal ---------------------------------------------------------

  predicate Octets(s: string) { forall i :: 0 <= i < |s| ==> s[i] as int < 256 }

  function HexChar(n: nat): (c: char)
    requires n < 16
    ensures HexDigit(c) && HexValue(c) == n
  {
    if n < 10 then ('0' as int + n) as char else ('a' as int + n - 10) as char
  }

  function HexValue(c: char): nat
    requires HexDigit(c)
  {
    if c <= '9' then c as int - '0' as int
    else if c <= 'F' then c as int - 'A' as int + 10
    else c as int - 'a' as int + 10
  }

  /** The panel's `bytes.hex`. */
  function HexText(s: string): (t: string)
    requires Octets(s)
    ensures |t| == 2 * |s| && AllHex(t)
  {
    if s == "" then ""
    else
      var n := s[0] as int;
      [HexChar(n / 16), HexChar(n % 16)] + HexText(s[1..])
  }

  /** `decode_hex`: any case, whole octets only. */
  function DecodeHex(t: string): Option<string> {
    if t == "" then Some("")
    else if |t| == 1 || !HexDigit(t[0]) || !HexDigit(t[1]) then None
    else
      var rest := DecodeHex(t[2..]);
      if rest.None? then None else Some([(HexValue(t[0]) * 16 + HexValue(t[1])) as char] + rest.value)
  }

  lemma HexPair(n: nat)
    requires n < 256
    ensures HexValue(HexChar(n / 16)) * 16 + HexValue(HexChar(n % 16)) == n
  {
  }

  lemma DecodePair(a: char, b: char, rest: string)
    requires HexDigit(a) && HexDigit(b) && DecodeHex(rest).Some?
    ensures DecodeHex([a, b] + rest) == Some([(HexValue(a) * 16 + HexValue(b)) as char] + DecodeHex(rest).value)
  {
    assert ([a, b] + rest)[2..] == rest;
  }

  lemma {:induction false} HexRoundTrip(s: string)
    requires Octets(s)
    ensures DecodeHex(HexText(s)) == Some(s)
  {
    if s != "" {
      var n := s[0] as int;
      HexRoundTrip(s[1..]);
      HexPair(n);
      DecodePair(HexChar(n / 16), HexChar(n % 16), HexText(s[1..]));
      assert s == [s[0]] + s[1..];
    }
  }

  lemma {:induction false} DecodesWhenHex(t: string)
    requires |t| % 2 == 0 && AllHex(t)
    ensures DecodeHex(t).Some?
    decreases |t|
  {
    if t != "" {
      DecodesWhenHex(t[2..]);
    }
  }

  // ---- The code ------------------------------------------------------------

  datatype Parsed = Parsed(invite: Invite, signed: string, signature: string)

  /** `make_invite`; `mac` is the keyed hash in hexadecimal. */
  function MakeInvite(value: string, created: nat, nonce: string, mac: string -> string): Option<string>
    requires Quotable(nonce)
  {
    var url := PublicUrl(value);
    if url.None? then None
    else
      PublicUrlIsReadable(value);
      var x := Invite(url.value, created + LIFETIME, nonce);
      JsonIsOctets(x);
      var body := HexText(Json(x));
      Some(PREFIX + "." + body + "." + mac(CONTEXT + body))
  }

  lemma JsonIsOctets(x: Invite)
    requires Quotable(x.baseUrl) && Quotable(x.nonce)
    ensures Octets(Json(x))
  {
    var a := HEAD + x.baseUrl + MIDDLE;
    var b := Digits(x.expiresAt) + TAIL + x.nonce + END;
    assert Octets(a) && Octets(b);
    assert Json(x) == a + b;
  }

  predicate ReaderNonce(nonce: string) { |nonce| == 32 && AllHex(nonce) }

  /** `parse_code`. */
  function ParseCode(raw: string): Option<Parsed> {
    var code := Trim(raw);
    var parts := Split(code, '.');
    if |code| > MAX_CODE || |parts| != 3 || parts[0] != PREFIX || |parts[2]| != 64 then None
    else
      var body := DecodeHex(parts[1]);
      var x := if body.None? then None else ParseJson(body.value);
      var signature := DecodeHex(parts[2]);
      if x.None? || !ReaderUrl(x.value.baseUrl) || !ReaderNonce(x.value.nonce) || signature.None? then None
      else Some(Parsed(x.value, CONTEXT + parts[1], signature.value))
  }

  /** `registration_invite` on a code: parsed, signed by the relay's key, and neither expired nor too far ahead. */
  predicate RelayAccepts(code: string, now: nat, mac: string -> string) {
    var p := ParseCode(code);
    && p.Some?
    && DecodeHex(mac(p.value.signed)) == Some(p.value.signature)
    && now < p.value.invite.expiresAt <= now + LIFETIME
  }

  lemma PartsOfCode(body: string, signature: string)
    requires AllHex(body) && AllHex(signature) && signature != ""
    ensures var code := PREFIX + "." + body + "." + signature;
      Split(code, '.') == [PREFIX, body, signature] && Trim(code) == code
  {
    var code := PREFIX + "." + body + "." + signature;
    assert code == PREFIX + ['.'] + (body + ['.'] + signature);
    SplitFirst(PREFIX, '.', body + ['.'] + signature);
    SplitFirst(body, '.', signature);
    SplitWhole(signature, '.');
    assert [PREFIX] + ([body] + [signature]) == [PREFIX, body, signature];
    assert code[|code| - 1] == signature[|signature| - 1];
    TrimKeeps(code);
  }

  lemma CodeFits(x: Invite)
    requires |x.baseUrl| <= 261 && |x.nonce| == 32 && x.expiresAt < U64
    ensures |Json(x)| <= 351
  {
    assert Power10(20) == 100000000000000000000 by {
      assert Power10(5) == 100000;
      assert Power10(10) == 10000000000;
      assert Power10(15) == 1000000000000000;
    }
    DigitsLength(x.expiresAt, 20);
  }

  /**
   Whatever address the panel accepts, its code is within the length limit, the
   readers get back the same address, expiry and nonce, and the relay takes it
   exactly from its creation until it expires.
   */
  lemma InviteRoundTrip(value: string, created: nat, nonce: string, mac: string -> string)
    requires PublicUrl(value).Some? && ReaderNonce(nonce) && Quotable(nonce) && created + 600000 < U64
    requires forall m :: |mac(m)| == 64 && AllHex(mac(m))
    ensures var x := Invite(PublicUrl(value).value, created + 600000, nonce);
      var code := MakeInvite(value, created, nonce, mac).value;
      && |code| <= 2048
      && ParseCode(code).Some? && ParseCode(code).value.invite == x
      && forall now: nat :: RelayAccepts(code, now, mac) <==> created <= now < created + 600000
  {
    PublicUrlIsReadable(value);
    var x := Invite(PublicUrl(value).value, created + LIFETIME, nonce);
    JsonIsOctets(x);
    var body := HexText(Json(x));
    var signature := mac(CONTEXT + body);
    PartsOfCode(body, signature);
    CodeFits(x);
    HexRoundTrip(Json(x));
    JsonRoundTrip(x);
    DecodesWhenHex(signature);
  }

  /**
   The relay takes only what its own key signed, within 2048 characters: three
   parts under the right prefix, the last of them the keyed hash of the context
   and the body, in hexadecimal.
   */
  lemma AcceptedMeansSigned(code: string, now: nat, mac: string -> string)
    requires RelayAccepts(code, now, mac)
    ensures var parts := Split(Trim(code), '.');
      && |Trim(code)| <= 2048 && |parts| == 3 && parts[0] == "cxr1" && |parts[2]| == 64
      && DecodeHex(parts[2]).Some?
      && DecodeHex(mac("chatx-registration-v1:" + parts[1])) == DecodeHex(parts[2])
  {
  }
}

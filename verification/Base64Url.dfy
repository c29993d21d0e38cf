/** The hand-written base64url encoder and the adoption ticket built on it. The
    decoder here is only a reference: sections 5 and 3.2 of RFC 4648 (the URL
    alphabet, no padding), refusing stray trailing bits as section 3.5 allows. */
module Base64Url {
  import opened StorefrontTypes

  newtype Byte = b: int | 0 <= b < 256

  const UPPER: string := "ABCDEFGHIJKLMNOPQRSTUVWXYZ"
  const LOWER: string := "abcdefghijklmnopqrstuvwxyz"
  const ALPHABET: string := UPPER + LOWER + "0123456789" + "-_"

  // ── digits ────────────────────────────────────────────────────────────────

  /** The alphabet, range by range. */
  function Digit(d: nat): char
    requires d < 64
  {
    if d < 26 then 'A' + d as char
    else if d < 52 then 'a' + (d - 26) as char
    else if d < 62 then '0' + (d - 52) as char
    else if d == 62 then '-' else '_'
  }

  lemma AlphabetIsDigits(d: nat)
    requires d < 64
    ensures |ALPHABET| == 64 && ALPHABET[d] == Digit(d)
  {
    if d < 26 {
      assert UPPER[d] == 'A' + d as char;
    } else if d < 52 {
      assert LOWER[d - 26] == 'a' + (d - 26) as char;
    } else if d < 62 {
      assert "0123456789"[d - 52] == '0' + (d - 52) as char;
    }
  }

  function Value(c: char): (r: Option<nat>)
    ensures r.Some? ==> r.value < 64
  {
    if 'A' <= c <= 'Z' then Some((c - 'A') as nat)
    else if 'a' <= c <= 'z' then Some((c - 'a') as nat + 26)
    else if '0' <= c <= '9' then Some((c - '0') as nat + 52)
    else if c == '-' then Some(62)
    else if c == '_' then Some(63)
    else None
  }

  // ── the encoding ──────────────────────────────────────────────────────────

  /** Three bytes as one number. */
  function Triple(b0: Byte, b1: Byte, b2: Byte): (t: nat)
    ensures t < 0x100_0000
  {
    b0 as int * 0x1_0000 + b1 as int * 0x100 + b2 as int
  }

  /** The k-th six-bit digit of a triple, from the top. */
  function Sextet(t: nat, k: nat): (d: nat)
    requires k < 4
    ensures d < 64
  {
    match k
    case 0 => t / 0x4_0000 % 64
    case 1 => t / 0x1000 % 64
    case 2 => t / 64 % 64
    case 3 => t % 64
  }

  function EncodeChunk(chunk: seq<Byte>): (s: string)
    requires 1 <= |chunk| <= 3
    ensures |s| == |chunk| + 1
  {
    var t := Triple(chunk[0], if |chunk| > 1 then chunk[1] else 0, if |chunk| > 2 then chunk[2] else 0);
    [Digit(Sextet(t, 0)), Digit(Sextet(t, 1))]
    + (if |chunk| > 1 then [Digit(Sextet(t, 2))] else [])
    + (if |chunk| > 2 then [Digit(Sextet(t, 3))] else [])
  }

  function FirstChunk(bytes: seq<Byte>): seq<Byte> {
    if |bytes| <= 3 then bytes else bytes[..3]
  }

  function Encode(bytes: seq<Byte>): string {
    if bytes == [] then "" else EncodeChunk(FirstChunk(bytes)) + Encode(bytes[|FirstChunk(bytes)|..])
  }

  lemma Reassociate(a: string, b: string, c: string)
    ensures a + (b + c) == (a + b) + c
  {}

  lemma EncodeStep(bytes: seq<Byte>, i: nat)
    requires i < |bytes|
    ensures var n := if |bytes| - i < 3 then |bytes| - i else 3;
      Encode(bytes[i..]) == EncodeChunk(bytes[i..i + n]) + Encode(bytes[i + n..])
  {
    var n := if |bytes| - i < 3 then |bytes| - i else 3;
    assert FirstChunk(bytes[i..]) == bytes[i..i + n];
    assert bytes[i..][n..] == bytes[i + n..];
  }

  /** The encoder's loop: one chunk of up to three bytes at a time. */
  method Base64UrlNoPad(bytes: seq<Byte>) returns (out: string)
    ensures out == Encode(bytes)
  {
    out := "";
    var i := 0;
    while i < |bytes|
      invariant 0 <= i <= |bytes|
      invariant out + Encode(bytes[i..]) == Encode(bytes)
    {
      var n := if |bytes| - i < 3 then |bytes| - i else 3;
      var chunk := bytes[i..i + n];
      var digits := PushChunk(chunk);
      EncodeStep(bytes, i);
      Reassociate(out, digits, Encode(bytes[i + n..]));
      out := out + digits;
      i := i + n;
    }
  }

  /** The loop body: two to four characters for one chunk. */
  method PushChunk(chunk: seq<Byte>) returns (out: string)
    requires 1 <= |chunk| <= 3
    ensures out == EncodeChunk(chunk)
  {
    var b1: Byte := if |chunk| > 1 then chunk[1] else 0;
    var b2: Byte := if |chunk| > 2 then chunk[2] else 0;
    var triple := chunk[0] as int * 0x1_0000 + b1 as int * 0x100 + b2 as int;
    assert triple == Triple(chunk[0], b1, b2);
    AlphabetIsDigits(triple / 0x4_0000 % 64);
    AlphabetIsDigits(triple / 0x1000 % 64);
    AlphabetIsDigits(triple / 64 % 64);
    AlphabetIsDigits(triple % 64);
    out := [ALPHABET[triple / 0x4_0000 % 64]];
    out := out + [ALPHABET[triple / 0x1000 % 64]];
    if |chunk| > 1 { out := out + [ALPHABET[triple / 64 % 64]]; }
    if |chunk| > 2 { out := out + [ALPHABET[triple % 64]]; }
  }

  // ── the reference decoder ─────────────────────────────────────────────────

  function Byte0(v0: nat, v1: nat): Byte
    requires v0 < 64 && v1 < 64
  {
    (v0 * 4 + v1 / 16) as Byte
  }

  function Byte1(v1: nat, v2: nat): Byte
    requires v1 < 64 && v2 < 64
  {
    (v1 % 16 * 16 + v2 / 4) as Byte
  }

  function Byte2(v2: nat, v3: nat): Byte
    requires v2 < 64 && v3 < 64
  {
    (v2 % 4 * 64 + v3) as Byte
  }

  /** One group of two to four characters; unused trailing bits must be zero. */
  function DecodeGroup(text: string): Option<seq<Byte>>
    requires 2 <= |text| <= 4
  {
    var v0, v1 := Value(text[0]), Value(text[1]);
    if v0.None? || v1.None? then None
    else if |text| == 2 then
      if v1.value % 16 != 0 then None else Some([Byte0(v0.value, v1.value)])
    else
      var v2 := Value(text[2]);
      if v2.None? then None
      else if |text| == 3 then
        if v2.value % 4 != 0 then None else Some([Byte0(v0.value, v1.value), Byte1(v1.value, v2.value)])
      else
        var v3 := Value(text[3]);
        if v3.None? then None
        else Some([Byte0(v0.value, v1.value), Byte1(v1.value, v2.value), Byte2(v2.value, v3.value)])
  }

  function FirstGroup(text: string): string {
    if |text| <= 4 then text else text[..4]
  }

  /** The unpadded decoder: a lone last character is no group. */
  function Decode(text: string): Option<seq<Byte>> {
    if text == "" then Some([])
    else if |text| == 1 then None
    else
      var head, rest := DecodeGroup(FirstGroup(text)), Decode(text[|FirstGroup(text)|..]);
      if head.None? || rest.None? then None else Some(head.value + rest.value)
  }

  // ── round trips ───────────────────────────────────────────────────────────

  lemma DivMod(t: nat, m: nat, q: nat, r: nat)
    requires m == 64 || m == 0x1000 || m == 0x4_0000
    requires t == q * m + r && r < m
    ensures t / m == q && t % m == r
  {
    if m == 64 {
      assert t == q * 64 + r;
    } else if m == 0x1000 {
      assert t == q * 0x1000 + r;
    } else {
      assert t == q * 0x4_0000 + r;
    }
  }

  /** Four base-64 digits spell one number, and are read back from it. */
  lemma SextetsOfDigits(x0: nat, x1: nat, x2: nat, x3: nat)
    requires x0 < 64 && x1 < 64 && x2 < 64 && x3 < 64
    ensures var t := x0 * 0x4_0000 + x1 * 0x1000 + x2 * 64 + x3;
      Sextet(t, 0) == x0 && Sextet(t, 1) == x1 && Sextet(t, 2) == x2 && Sextet(t, 3) == x3
  {
    var t := x0 * 0x4_0000 + x1 * 0x1000 + x2 * 64 + x3;
    DivMod(t, 64, x0 * 0x1000 + x1 * 64 + x2, x3);
    DivMod(x0 * 0x1000 + x1 * 64 + x2, 64, x0 * 64 + x1, x2);
    DivMod(x0 * 64 + x1, 64, x0, x1);
    DivMod(t, 0x1000, x0 * 64 + x1, x2 * 64 + x3);
    DivMod(t, 0x4_0000, x0, x1 * 0x1000 + x2 * 64 + x3);
  }

  lemma SextetsOfTriple(b0: Byte, b1: Byte, b2: Byte)
    ensures var t := Triple(b0, b1, b2);
      && Sextet(t, 0) == b0 as int / 4
      && Sextet(t, 1) == b0 as int % 4 * 16 + b1 as int / 16
      && Sextet(t, 2) == b1 as int % 16 * 4 + b2 as int / 64
      && Sextet(t, 3) == b2 as int % 64
  {
    SextetsOfDigits(b0 as int / 4, b0 as int % 4 * 16 + b1 as int / 16,
                    b1 as int % 16 * 4 + b2 as int / 64, b2 as int % 64);
  }

  lemma DigitReadsBack(d: nat)
    requires d < 64
    ensures Value(Digit(d)) == Some(d)
  {}

  lemma BytesOfTriple(b0: Byte, b1: Byte, b2: Byte)
    ensures var t := Triple(b0, b1, b2);
      && Byte0(Sextet(t, 0), Sextet(t, 1)) == b0
      && Byte1(Sextet(t, 1), Sextet(t, 2)) == b1
      && Byte2(Sextet(t, 2), Sextet(t, 3)) == b2
      && (b1 == 0 ==> Sextet(t, 1) % 16 == 0) && (b2 == 0 ==> Sextet(t, 2) % 4 == 0)
  {
    SextetsOfTriple(b0, b1, b2);
  }

  /** Reading a group is reading its values. */
  lemma GroupOfDigits(d0: nat, d1: nat, d2: nat, d3: nat)
    requires d0 < 64 && d1 < 64 && d2 < 64 && d3 < 64
    ensures d1 % 16 == 0 ==> DecodeGroup([Digit(d0), Digit(d1)]) == Some([Byte0(d0, d1)])
    ensures d2 % 4 == 0 ==>
      DecodeGroup([Digit(d0), Digit(d1), Digit(d2)]) == Some([Byte0(d0, d1), Byte1(d1, d2)])
    ensures DecodeGroup([Digit(d0), Digit(d1), Digit(d2), Digit(d3)])
            == Some([Byte0(d0, d1), Byte1(d1, d2), Byte2(d2, d3)])
  {
    DigitReadsBack(d0);
    DigitReadsBack(d1);
    DigitReadsBack(d2);
    DigitReadsBack(d3);
  }

  lemma ChunkRoundTrip(chunk: seq<Byte>)
    requires 1 <= |chunk| <= 3
    ensures DecodeGroup(EncodeChunk(chunk)) == Some(chunk)
  {
    var b1: Byte := if |chunk| > 1 then chunk[1] else 0;
    var b2: Byte := if |chunk| > 2 then chunk[2] else 0;
    var t := Triple(chunk[0], b1, b2);
    var d0, d1, d2, d3 := Sextet(t, 0), Sextet(t, 1), Sextet(t, 2), Sextet(t, 3);
    BytesOfTriple(chunk[0], b1, b2);
    GroupOfDigits(d0, d1, d2, d3);
    if |chunk| == 1 {
      assert EncodeChunk(chunk) == [Digit(d0), Digit(d1)];
      assert chunk == [chunk[0]];
    } else if |chunk| == 2 {
      assert EncodeChunk(chunk) == [Digit(d0), Digit(d1), Digit(d2)];
      assert chunk == [chunk[0], chunk[1]];
    } else {
      assert EncodeChunk(chunk) == [Digit(d0), Digit(d1), Digit(d2), Digit(d3)];
      assert chunk == [chunk[0], chunk[1], chunk[2]];
    }
  }

  /** What the encoder writes, the unpadded decoder reads back. */
  lemma {:induction false} DecodeInvertsEncode(bytes: seq<Byte>)
    ensures Decode(Encode(bytes)) == Some(bytes)
  {
    if bytes != [] {
      var chunk, rest := FirstChunk(bytes), bytes[|FirstChunk(bytes)|..];
      ChunkRoundTrip(chunk);
      DecodeInvertsEncode(rest);
      var text := Encode(bytes);
      if rest == [] {
        assert text == EncodeChunk(chunk);
      } else {
        assert FirstGroup(text) == EncodeChunk(chunk);
      }
      assert text[|EncodeChunk(chunk)|..] == Encode(rest);
      assert bytes == chunk + rest;
    }
  }

  /** Four six-bit values make three bytes whose sextets they are. */
  lemma BytesOfSextets(v0: nat, v1: nat, v2: nat, v3: nat)
    requires v0 < 64 && v1 < 64 && v2 < 64 && v3 < 64
    ensures var t := Triple(Byte0(v0, v1), Byte1(v1, v2), Byte2(v2, v3));
      Sextet(t, 0) == v0 && Sextet(t, 1) == v1 && Sextet(t, 2) == v2 && Sextet(t, 3) == v3
  {
    SextetsOfDigits(v0, v1, v2, v3);
    assert Triple(Byte0(v0, v1), Byte1(v1, v2), Byte2(v2, v3)) == v0 * 0x4_0000 + v1 * 0x1000 + v2 * 64 + v3;
  }

  lemma DigitOfValue(c: char)
    requires Value(c).Some?
    ensures Digit(Value(c).value) == c
  {}

  lemma TrailingBytes(v1: nat, v2: nat, v3: nat)
    requires v1 < 64 && v2 < 64 && v3 < 64
    ensures v1 % 16 == 0 && v2 == 0 ==> Byte1(v1, v2) == 0
    ensures v2 % 4 == 0 && v3 == 0 ==> Byte2(v2, v3) == 0
  {}

  lemma GroupRoundTrip(text: string)
    requires 2 <= |text| <= 4 && DecodeGroup(text).Some?
    ensures var chunk := DecodeGroup(text).value; 1 <= |chunk| == |text| - 1 && EncodeChunk(chunk) == text
  {
    var v0, v1 := Value(text[0]).value, Value(text[1]).value;
    var v2 := if |text| > 2 then Value(text[2]).value else 0;
    var v3 := if |text| > 3 then Value(text[3]).value else 0;
    BytesOfSextets(v0, v1, v2, v3);
    TrailingBytes(v1, v2, v3);
    forall k | 0 <= k < |text| ensures Value(text[k]).Some? && Digit(Value(text[k]).value) == text[k] {
      DigitOfValue(text[k]);
    }
    if |text| == 2 {
      assert DecodeGroup(text).value == [Byte0(v0, v1)];
      assert text == [text[0], text[1]];
    } else if |text| == 3 {
      assert DecodeGroup(text).value == [Byte0(v0, v1), Byte1(v1, v2)];
      assert text == [text[0], text[1], text[2]];
    } else {
      assert text == [text[0], text[1], text[2], text[3]];
    }
  }

  /** The decoder accepts nothing but encodings: each text has one spelling. */
  lemma {:induction false} EncodeInvertsDecode(text: string)
    requires Decode(text).Some?
    ensures Encode(Decode(text).value) == text
  {
    if text != "" {
      var group, rest := FirstGroup(text), text[|FirstGroup(text)|..];
      GroupRoundTrip(group);
      EncodeInvertsDecode(rest);
      var head, tail := DecodeGroup(group).value, Decode(rest).value;
      var bytes := head + tail;
      if |text| <= 4 {
        assert rest == "" && tail == [];
        assert bytes == head;
      } else {
        assert FirstChunk(bytes) == head;
      }
      assert bytes[|head|..] == tail;
      assert text == group + rest;
    }
  }

  /** Distinct byte strings have distinct encodings. */
  lemma EncodeIsInjective(a: seq<Byte>, b: seq<Byte>)
    requires Encode(a) == Encode(b)
    ensures a == b
  {
    DecodeInvertsEncode(a);
    DecodeInvertsEncode(b);
  }

  /** Four characters per three bytes, rounded up, all from the alphabet. */
  lemma {:induction false} EncodeShape(bytes: seq<Byte>)
    ensures |Encode(bytes)| == (4 * |bytes| + 2) / 3
    ensures forall k | 0 <= k < |Encode(bytes)| :: Encode(bytes)[k] in ALPHABET
  {
    if bytes != [] {
      var chunk, rest := FirstChunk(bytes), bytes[|FirstChunk(bytes)|..];
      EncodeShape(rest);
      forall k | 0 <= k < |EncodeChunk(chunk)| ensures EncodeChunk(chunk)[k] in ALPHABET { ChunkInAlphabet(chunk, k); }
    }
  }

  lemma ChunkInAlphabet(chunk: seq<Byte>, k: nat)
    requires 1 <= |chunk| <= 3 && k <= |chunk|
    ensures EncodeChunk(chunk)[k] in ALPHABET
  {
    var t := Triple(chunk[0], if |chunk| > 1 then chunk[1] else 0, if |chunk| > 2 then chunk[2] else 0);
    AlphabetIsDigits(Sextet(t, k));
    assert EncodeChunk(chunk)[k] == ALPHABET[Sextet(t, k)];
  }

  /** A byte of the text, zero past its end. */
  function ByteAt(bytes: seq<Byte>, i: nat): nat {
    if i < |bytes| then bytes[i] as nat else 0
  }

  /** The k-th run of six bits of the byte string, zero bits past its end. */
  function SixBits(bytes: seq<Byte>, k: nat): (d: nat)
    ensures d < 64
  {
    var i := k / 4 * 3;
    if k % 4 == 0 then ByteAt(bytes, i) / 4
    else if k % 4 == 1 then ByteAt(bytes, i) % 4 * 16 + ByteAt(bytes, i + 1) / 16
    else if k % 4 == 2 then ByteAt(bytes, i + 1) % 16 * 4 + ByteAt(bytes, i + 2) / 64
    else ByteAt(bytes, i + 2) % 64
  }

  lemma ChunkIsItsBits(chunk: seq<Byte>, k: nat)
    requires 1 <= |chunk| <= 3 && k <= |chunk|
    ensures |ALPHABET| == 64 && EncodeChunk(chunk)[k] == ALPHABET[SixBits(chunk, k)]
  {
    var b1: Byte := if |chunk| > 1 then chunk[1] else 0;
    var b2: Byte := if |chunk| > 2 then chunk[2] else 0;
    SextetIsSixBits(chunk, k);
    AlphabetIsDigits(SixBits(chunk, k));
    assert EncodeChunk(chunk)[k] == Digit(Sextet(Triple(chunk[0], b1, b2), k));
  }

  lemma SextetIsSixBits(chunk: seq<Byte>, k: nat)
    requires 1 <= |chunk| <= 3 && k <= |chunk|
    ensures Sextet(Triple(chunk[0], if |chunk| > 1 then chunk[1] else 0, if |chunk| > 2 then chunk[2] else 0), k)
            == SixBits(chunk, k)
  {
    var b1: Byte := if |chunk| > 1 then chunk[1] else 0;
    var b2: Byte := if |chunk| > 2 then chunk[2] else 0;
    SextetsOfTriple(chunk[0], b1, b2);
    assert ByteAt(chunk, 0) == chunk[0] as int && ByteAt(chunk, 1) == b1 as int && ByteAt(chunk, 2) == b2 as int;
    assert k == 0 || k == 1 || k == 2 || k == 3;
  }

  /** Dropping three bytes drops four runs. */
  lemma BitsAfterThree(bytes: seq<Byte>, k: nat)
    requires |bytes| >= 3 && k >= 4
    ensures SixBits(bytes[3..], k - 4) == SixBits(bytes, k)
  {
    assert (k - 4) / 4 == k / 4 - 1 && (k - 4) % 4 == k % 4;
    forall i: nat ensures ByteAt(bytes[3..], i) == ByteAt(bytes, i + 3) {}
  }

  /** Character k of an encoding is the alphabet's letter for the k-th run of six bits. */
  lemma {:induction false} EncodeSpellsBits(bytes: seq<Byte>, k: nat)
    requires k < |Encode(bytes)|
    ensures |ALPHABET| == 64 && Encode(bytes)[k] == ALPHABET[SixBits(bytes, k)]
  {
    var chunk, rest := FirstChunk(bytes), bytes[|FirstChunk(bytes)|..];
    if k < |EncodeChunk(chunk)| {
      ChunkIsItsBits(chunk, k);
      assert SixBits(chunk, k) == SixBits(bytes, k);
    } else {
      assert |chunk| == 3;
      EncodeSpellsBits(rest, k - 4);
      BitsAfterThree(bytes, k);
    }
  }

  /** The encodings of "foobar" and of its first four and five bytes. */
  lemma KnownVectors()
    ensures Encode([102, 111, 111, 98, 97, 114]) == "Zm9vYmFy"
    ensures Encode([102, 111, 111, 98]) == "Zm9vYg"
    ensures Encode([102, 111, 111, 98, 97]) == "Zm9vYmE"
  {
    KnownChunks();
    AfterFoo([98, 97, 114]);
    AfterFoo([98]);
    AfterFoo([98, 97]);
  }

  lemma KnownChunks()
    ensures Encode([98, 97, 114]) == "YmFy" && Encode([98]) == "Yg" && Encode([98, 97]) == "YmE"
  {
    EncodesBar();
    EncodesB();
    EncodesBa();
  }

  lemma EncodesBar()
    ensures Encode([98, 97, 114]) == "YmFy"
  {
    assert EncodeChunk([98, 97, 114]) == "YmFy";
  }

  lemma EncodesB()
    ensures Encode([98]) == "Yg"
  {
    assert EncodeChunk([98]) == "Yg";
  }

  lemma EncodesBa()
    ensures Encode([98, 97]) == "YmE"
  {
    assert EncodeChunk([98, 97]) == "YmE";
  }

  lemma AfterFoo(rest: seq<Byte>)
    ensures Encode([102, 111, 111] + rest) == "Zm9v" + Encode(rest)
  {
    var bytes := [102, 111, 111] + rest;
    assert EncodeChunk([102, 111, 111]) == "Zm9v";
    assert bytes[..3] == [102, 111, 111] && bytes[3..] == rest;
  }

  // ── the adoption ticket ───────────────────────────────────────────────────

  /** A uuid's sixteen bytes. */
  type Uuid = u: seq<Byte> | |u| == 16 witness seq(16, _ => 0)

  function HexDigit(d: nat): char
    requires d < 16
  {
    if d < 10 then '0' + d as char else 'a' + (d - 10) as char
  }

  function HexByte(b: Byte): string {
    [HexDigit(b as int / 16), HexDigit(b as int % 16)]
  }

  function Hex(bytes: seq<Byte>): (s: string)
    ensures |s| == 2 * |bytes|
  {
    if bytes == [] then "" else HexByte(bytes[0]) + Hex(bytes[1..])
  }

  /** The canonical spelling: lower-case hex in groups of 8-4-4-4-12. */
  function UuidText(u: Uuid): (s: string)
    ensures |s| == 36
  {
    Hex(u[..4]) + "-" + Hex(u[4..6]) + "-" + Hex(u[6..8]) + "-" + Hex(u[8..10]) + "-" + Hex(u[10..])
  }

  const HEX_DIGITS: string := "0123456789abcdef"

  lemma {:induction false} HexReads(bytes: seq<Byte>, i: nat)
    requires i < |bytes|
    ensures Hex(bytes)[2 * i] == HEX_DIGITS[bytes[i] as int / 16]
    ensures Hex(bytes)[2 * i + 1] == HEX_DIGITS[bytes[i] as int % 16]
  {
    if i > 0 { HexReads(bytes[1..], i - 1); }
  }

  /** Where byte i stands in the spelling, two characters a byte and four dashes. */
  function TextAt(i: nat): nat {
    2 * i + (if i < 4 then 0 else if i < 6 then 1 else if i < 8 then 2 else if i < 10 then 3 else 4)
  }

  lemma UuidGroups(u: Uuid)
    ensures var s := UuidText(u);
      && s[0..8] == Hex(u[0..4]) && s[9..13] == Hex(u[4..6]) && s[14..18] == Hex(u[6..8])
      && s[19..23] == Hex(u[8..10]) && s[24..36] == Hex(u[10..16])
      && s[8] == s[13] == s[18] == s[23] == '-'
  {
    var s := UuidText(u);
    UuidTextParts(u);
    assert s[0..8] == s[..8] && u[0..4] == u[..4] && s[24..36] == s[24..] && u[10..16] == u[10..];
  }

  /** Every byte is spelled high digit first, and the dashes stand where they should. */
  lemma UuidTextSpells(u: Uuid, i: nat)
    requires i < 16
    ensures var s := UuidText(u);
      && s[TextAt(i)] == HEX_DIGITS[u[i] as int / 16] && s[TextAt(i) + 1] == HEX_DIGITS[u[i] as int % 16]
      && s[8] == s[13] == s[18] == s[23] == '-'
  {
    UuidGroups(u);
    if i < 4 { GroupReads(u, 0, 4, 0, i); }
    else if i < 6 { GroupReads(u, 4, 6, 9, i); }
    else if i < 8 { GroupReads(u, 6, 8, 14, i); }
    else if i < 10 { GroupReads(u, 8, 10, 19, i); }
    else { GroupReads(u, 10, 16, 24, i); }
  }

  lemma GroupReads(u: Uuid, from: nat, to: nat, at: nat, i: nat)
    requires from <= i < to <= 16 && at + 2 * (to - from) <= 36
    requires UuidText(u)[at..at + 2 * (to - from)] == Hex(u[from..to])
    ensures UuidText(u)[at + 2 * (i - from)] == HEX_DIGITS[u[i] as int / 16]
    ensures UuidText(u)[at + 2 * (i - from) + 1] == HEX_DIGITS[u[i] as int % 16]
  {
    HexReads(u[from..to], i - from);
  }

  predicate Ascii(s: string) {
    forall k | 0 <= k < |s| :: s[k] < '\U{80}'
  }

  function AsBytes(s: string): seq<Byte>
    requires Ascii(s)
  {
    seq(|s|, k requires 0 <= k < |s| => s[k] as Byte)
  }

  lemma {:induction false} HexIsAscii(bytes: seq<Byte>)
    ensures Ascii(Hex(bytes))
  {
    if bytes != [] { HexIsAscii(bytes[1..]); }
  }

  lemma UuidTextIsAscii(u: Uuid)
    ensures Ascii(UuidText(u))
  {
    HexIsAscii(u[..4]);
    HexIsAscii(u[4..6]);
    HexIsAscii(u[6..8]);
    HexIsAscii(u[8..10]);
    HexIsAscii(u[10..]);
  }

  function Claim(cart: Uuid, user: Uuid): (s: string)
    ensures Ascii(s)
  {
    UuidTextIsAscii(cart);
    UuidTextIsAscii(user);
    UuidText(cart) + ":" + UuidText(user)
  }

  method AdoptionTicket(cart: Uuid, user: Uuid) returns (ticket: string)
    ensures ticket == Encode(AsBytes(Claim(cart, user)))
  {
    ticket := Base64UrlNoPad(AsBytes(Claim(cart, user)));
  }

  lemma {:induction false} HexIsInjective(a: seq<Byte>, b: seq<Byte>)
    requires |a| == |b| && Hex(a) == Hex(b)
    ensures a == b
  {
    if a != [] {
      assert HexByte(a[0]) == Hex(a)[..2] == Hex(b)[..2] == HexByte(b[0]);
      assert a[0] == b[0];
      assert Hex(a[1..]) == Hex(a)[2..] == Hex(b)[2..] == Hex(b[1..]);
      HexIsInjective(a[1..], b[1..]);
      assert a == [a[0]] + a[1..] && b == [b[0]] + b[1..];
    }
  }

  lemma UuidTextParts(u: Uuid)
    ensures var s := UuidText(u);
      && s[..8] == Hex(u[..4]) && s[9..13] == Hex(u[4..6]) && s[14..18] == Hex(u[6..8])
      && s[19..23] == Hex(u[8..10]) && s[24..] == Hex(u[10..])
  {}

  lemma UuidTextIsInjective(u: Uuid, v: Uuid)
    requires UuidText(u) == UuidText(v)
    ensures u == v
  {
    UuidTextParts(u);
    UuidTextParts(v);
    HexIsInjective(u[..4], v[..4]);
    HexIsInjective(u[4..6], v[4..6]);
    HexIsInjective(u[6..8], v[6..8]);
    HexIsInjective(u[8..10], v[8..10]);
    HexIsInjective(u[10..], v[10..]);
    assert u == u[..4] + u[4..6] + u[6..8] + u[8..10] + u[10..];
    assert v == v[..4] + v[4..6] + v[6..8] + v[8..10] + v[10..];
  }

  lemma AsBytesIsInjective(s: string, t: string)
    requires Ascii(s) && Ascii(t) && AsBytes(s) == AsBytes(t)
    ensures s == t
  {
    assert |s| == |AsBytes(s)| == |t|;
    forall k | 0 <= k < |s| ensures s[k] == t[k] {
      assert AsBytes(s)[k] == AsBytes(t)[k];
    }
  }

  /** Reading a ticket back gives the cart's text, a colon and the principal's. */
  lemma TicketReadsBack(cart: Uuid, user: Uuid)
    ensures Ascii(UuidText(cart)) && Ascii(UuidText(user))
    ensures Decode(Encode(AsBytes(Claim(cart, user))))
            == Some(AsBytes(UuidText(cart)) + [':' as Byte] + AsBytes(UuidText(user)))
  {
    UuidTextIsAscii(cart);
    UuidTextIsAscii(user);
    DecodeInvertsEncode(AsBytes(Claim(cart, user)));
    assert AsBytes(Claim(cart, user)) == AsBytes(UuidText(cart)) + [':' as Byte] + AsBytes(UuidText(user));
  }

  /** A ticket names one cart and one principal: 98 characters, all from the
      alphabet, and no two (cart, principal) pairs share one. */
  lemma TicketNamesCartAndPrincipal(c1: Uuid, u1: Uuid, c2: Uuid, u2: Uuid)
    ensures |Encode(AsBytes(Claim(c1, u1)))| == 98
    ensures Encode(AsBytes(Claim(c1, u1))) == Encode(AsBytes(Claim(c2, u2))) <==> c1 == c2 && u1 == u2
  {
    EncodeShape(AsBytes(Claim(c1, u1)));
    if Encode(AsBytes(Claim(c1, u1))) == Encode(AsBytes(Claim(c2, u2))) {
      EncodeIsInjective(AsBytes(Claim(c1, u1)), AsBytes(Claim(c2, u2)));
      AsBytesIsInjective(Claim(c1, u1), Claim(c2, u2));
      assert Claim(c1, u1)[..36] == UuidText(c1) && Claim(c2, u2)[..36] == UuidText(c2);
      assert Claim(c1, u1)[37..] == UuidText(u1) && Claim(c2, u2)[37..] == UuidText(u2);
      UuidTextIsInjective(c1, c2);
      UuidTextIsInjective(u1, u2);
    }
  }
}

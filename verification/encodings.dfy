/** Hex and base64 as the Go proxy uses them (RFC 4648, sections 8 and 4). */
module Encodings {
  import opened Wrappers

  type Byte = x: int | 0 <= x < 256

  // --- Hex ---

  function HexDigit(n: int): char
    requires 0 <= n < 16
  {
    if n < 10 then ('0' as int + n) as char else ('a' as int + n - 10) as char
  }

  /** The value of a hex digit in either case, or -1. */
  function HexValue(c: char): (n: int)
    ensures -1 <= n < 16
  {
    if '0' <= c <= '9' then c as int - '0' as int
    else if 'a' <= c <= 'f' then c as int - 'a' as int + 10
    else if 'A' <= c <= 'F' then c as int - 'A' as int + 10
    else -1
  }

  /** hex.EncodeToString. */
  function HexEncode(b: seq<Byte>): string {
    if b == [] then [] else [HexDigit(b[0] / 16), HexDigit(b[0] % 16)] + HexEncode(b[1..])
  }

  /** hex.DecodeString. */
  function HexDecode(s: string): Result<seq<Byte>> {
    if s == [] then Ok([])
    else if |s| == 1 then Err
    else
      var hi, lo := HexValue(s[0]), HexValue(s[1]);
      if hi < 0 || lo < 0 then Err
      else match HexDecode(s[2..])
        case Err => Err
        case Ok(rest) => Ok([hi * 16 + lo] + rest)
  }

  /** The digits that are printed, and the digits that are read. */
  lemma HexAlphabet(n: int)
    requires 0 <= n < 16
    ensures HexDigit(n) == "0123456789abcdef"[n]
    ensures HexValue("0123456789abcdef"[n]) == n && HexValue("0123456789ABCDEF"[n]) == n
  {
  }

  predicate IsHex(c: char) {
    '0' <= c <= '9' || 'a' <= c <= 'f' || 'A' <= c <= 'F'
  }

  /** Exactly the strings of an even number of digits, in either case, decode. */
  lemma {:induction false} HexDecodesIff(s: string)
    ensures HexDecode(s).Ok? <==> |s| % 2 == 0 && forall c :: c in s ==> IsHex(c)
    ensures HexDecode(s).Ok? ==> 2 * |HexDecode(s).value| == |s|
    decreases |s|
  {
    if |s| >= 2 {
      HexDecodesIff(s[2..]);
      assert s == [s[0], s[1]] + s[2..];
      assert (forall c :: c in s ==> IsHex(c)) <==> IsHex(s[0]) && IsHex(s[1]) && forall c :: c in s[2..] ==> IsHex(c);
    }
  }

  /** Case makes no difference to what is decoded. */
  lemma {:induction false} HexIgnoresCase(s: string)
    ensures HexDecode(Lower(s)) == HexDecode(s)
    decreases |s|
  {
    if |s| >= 2 {
      HexIgnoresCase(s[2..]);
      assert Lower(s)[2..] == Lower(s[2..]);
    }
  }

  /** strings.ToLower on ASCII. */
  function LowerChar(c: char): char {
    if 'A' <= c <= 'Z' then (c as int + 32) as char else c
  }

  function Lower(s: string): string {
    seq(|s|, i requires 0 <= i < |s| => LowerChar(s[i]))
  }

  lemma HexValueOfDigit(n: int)
    requires 0 <= n < 16
    ensures HexValue(HexDigit(n)) == n
  {
  }

  lemma HexPairRoundTrip(x: Byte, rest: string)
    ensures HexDecode([HexDigit(x / 16), HexDigit(x % 16)] + rest) ==
            match HexDecode(rest) case Err => Err case Ok(r) => Ok([x] + r)
  {
    hide HexDigit, HexValue;
    HexValueOfDigit(x / 16);
    HexValueOfDigit(x % 16);
    var s := [HexDigit(x / 16), HexDigit(x % 16)] + rest;
    assert s[2..] == rest;
  }

  lemma {:induction false} HexRoundTrip(b: seq<Byte>)
    ensures HexDecode(HexEncode(b)) == Ok(b)
    ensures |HexEncode(b)| == 2 * |b|
  {
    hide HexDecode, HexDigit, HexValue;
    if b == [] {
      NoHexDecodes();
    } else {
      HexRoundTrip(b[1..]);
      HexPairRoundTrip(b[0], HexEncode(b[1..]));
      assert b == [b[0]] + b[1..];
    }
  }

  lemma NoHexDecodes()
    ensures HexDecode([]) == Ok([])
  {
  }

  /** Decoding forgets the case of the digits and nothing else. */
  lemma {:induction false} HexReencodes(s: string)
    requires HexDecode(s).Ok?
    ensures HexEncode(HexDecode(s).value) == Lower(s)
  {
    if s == [] {
    } else {
      HexReencodes(s[2..]);
      var b := HexDecode(s).value;
      assert b[1..] == HexDecode(s[2..]).value;
      assert b[0] / 16 == HexValue(s[0]) && b[0] % 16 == HexValue(s[1]);
      assert Lower(s) == [LowerChar(s[0]), LowerChar(s[1])] + Lower(s[2..]);
    }
  }

  // --- Base64 ---

  function Base64Char(n: int): char
    requires 0 <= n < 64
  {
    if n < 26 then ('A' as int + n) as char
    else if n < 52 then ('a' as int + n - 26) as char
    else if n < 62 then ('0' as int + n - 52) as char
    else if n == 62 then '+'
    else '/'
  }

  /** The index of a base64 character, or -1. */
  function Base64Value(c: char): (n: int)
    ensures -1 <= n < 64
    ensures n >= 0 ==> Base64Char(n) == c
  {
    if 'A' <= c <= 'Z' then c as int - 'A' as int
    else if 'a' <= c <= 'z' then c as int - 'a' as int + 26
    else if '0' <= c <= '9' then c as int - '0' as int + 52
    else if c == '+' then 62
    else if c == '/' then 63
    else -1
  }

  /** Table 1 of RFC 4648. */
  lemma Base64Alphabet(n: int)
    requires 0 <= n < 64
    ensures n < 26 ==> Base64Char(n) == "ABCDEFGHIJKLMNOPQRSTUVWXYZ"[n]
    ensures 26 <= n < 52 ==> Base64Char(n) == "abcdefghijklmnopqrstuvwxyz"[n - 26]
    ensures 52 <= n ==> Base64Char(n) == "0123456789+/"[n - 52]
  {
    if n < 26 {
      UpperAlphabet(n);
    } else if n < 52 {
      LowerAlphabet(n - 26);
    }
  }

  lemma UpperAlphabet(n: int)
    requires 0 <= n < 26
    ensures "ABCDEFGHIJKLMNOPQRSTUVWXYZ"[n] == ('A' as int + n) as char
  {
  }

  lemma LowerAlphabet(n: int)
    requires 0 <= n < 26
    ensures "abcdefghijklmnopqrstuvwxyz"[n] == ('a' as int + n) as char
  {
  }

  lemma Base64ValueOfChar(n: int)
    requires 0 <= n < 64
    ensures Base64Value(Base64Char(n)) == n
  {
  }

  /** base64.StdEncoding.EncodeToString. */
  function Base64Encode(b: seq<Byte>): string {
    if b == [] then []
    else if |b| == 1 then
      [Base64Char(b[0] / 4), Base64Char(b[0] % 4 * 16), '=', '=']
    else if |b| == 2 then
      [Base64Char(b[0] / 4), Base64Char(b[0] % 4 * 16 + b[1] / 16), Base64Char(b[1] % 16 * 4), '=']
    else
      [Base64Char(b[0] / 4), Base64Char(b[0] % 4 * 16 + b[1] / 16),
       Base64Char(b[1] % 16 * 4 + b[2] / 64), Base64Char(b[2] % 64)] + Base64Encode(b[3..])
  }

  /** Go's decoder skips line breaks wherever they are. */
  function WithoutLineBreaks(s: string): string {
    if s == [] then []
    else (if s[0] == '\r' || s[0] == '\n' then [] else [s[0]]) + WithoutLineBreaks(s[1..])
  }

  /** base64.StdEncoding.DecodeString; the bits behind the last byte are not checked. */
  function Base64Decode(s: string): Result<seq<Byte>> {
    DecodeQuanta(WithoutLineBreaks(s))
  }

  function DecodeQuanta(s: string): Result<seq<Byte>> {
    if s == [] then Ok([])
    else if |s| < 4 then Err
    else
      var i0, i1, i2, i3 := Base64Value(s[0]), Base64Value(s[1]), Base64Value(s[2]), Base64Value(s[3]);
      if i0 < 0 || i1 < 0 then Err
      else if s[2] == '=' && s[3] == '=' && |s| == 4 then Ok([i0 * 4 + i1 / 16])
      else if i2 < 0 then Err
      else if s[3] == '=' && |s| == 4 then Ok([i0 * 4 + i1 / 16, i1 % 16 * 16 + i2 / 4])
      else if i3 < 0 then Err
      else match DecodeQuanta(s[4..])
        case Err => Err
        case Ok(rest) => Ok([i0 * 4 + i1 / 16, i1 % 16 * 16 + i2 / 4, i2 % 4 * 64 + i3] + rest)
  }

  /** Sextets of three bytes, and back. */
  lemma SextetsOfBytes(x: Byte, y: Byte, z: Byte)
    ensures 0 <= x / 4 < 64 && 0 <= x % 4 * 16 + y / 16 < 64 && 0 <= y % 16 * 4 + z / 64 < 64 && 0 <= z % 64 < 64
    ensures x / 4 * 4 + (x % 4 * 16 + y / 16) / 16 == x
    ensures (x % 4 * 16 + y / 16) % 16 * 16 + (y % 16 * 4 + z / 64) / 4 == y
    ensures (y % 16 * 4 + z / 64) % 4 * 64 + z % 64 == z
  {
    assert (x % 4 * 16 + y / 16) / 16 == x % 4 && (x % 4 * 16 + y / 16) % 16 == y / 16;
    assert (y % 16 * 4 + z / 64) / 4 == y % 16 && (y % 16 * 4 + z / 64) % 4 == z / 64;
  }

  lemma {:induction false} QuantaRoundTrip(b: seq<Byte>)
    ensures DecodeQuanta(Base64Encode(b)) == Ok(b)
  {
    hide DecodeQuanta, Base64Char, Base64Value;
    if b == [] {
      NothingDecodes();
    } else if |b| == 1 {
      TwoPadsRoundTrip(b[0]);
      assert b == [b[0]];
    } else if |b| == 2 {
      OnePadRoundTrip(b[0], b[1]);
      assert b == [b[0], b[1]];
    } else {
      QuantumRoundTrip(b[0], b[1], b[2], Base64Encode(b[3..]));
      QuantaRoundTrip(b[3..]);
      assert b == [b[0], b[1], b[2]] + b[3..];
    }
  }

  lemma NothingDecodes()
    ensures DecodeQuanta([]) == Ok([])
  {
  }

  lemma PadHasNoValue()
    ensures Base64Value('=') == -1
  {
  }

  lemma TwoPadsRoundTrip(x: Byte)
    ensures DecodeQuanta([Base64Char(x / 4), Base64Char(x % 4 * 16), '=', '=']) == Ok([x])
  {
    SextetsOfBytes(x, 0, 0);
    Base64ValueOfChar(x / 4);
    Base64ValueOfChar(x % 4 * 16);
  }

  lemma OnePadRoundTrip(x: Byte, y: Byte)
    ensures 0 <= x % 4 * 16 + y / 16 < 64
    ensures DecodeQuanta([Base64Char(x / 4), Base64Char(x % 4 * 16 + y / 16), Base64Char(y % 16 * 4), '=']) ==
            Ok([x, y])
  {
    SextetsOfBytes(x, y, 0);
    Base64ValueOfChar(x / 4);
    Base64ValueOfChar(x % 4 * 16 + y / 16);
    Base64ValueOfChar(y % 16 * 4);
  }

  lemma QuantumRoundTrip(x: Byte, y: Byte, z: Byte, rest: string)
    ensures var s := [Base64Char(x / 4), Base64Char(x % 4 * 16 + y / 16),
                      Base64Char(y % 16 * 4 + z / 64), Base64Char(z % 64)] + rest;
            DecodeQuanta(s) == match DecodeQuanta(rest) case Err => Err case Ok(r) => Ok([x, y, z] + r)
  {
    hide Base64Char, Base64Value;
    PadHasNoValue();
    SextetsOfBytes(x, y, z);
    Base64ValueOfChar(x / 4);
    Base64ValueOfChar(x % 4 * 16 + y / 16);
    Base64ValueOfChar(y % 16 * 4 + z / 64);
    Base64ValueOfChar(z % 64);
    var s := [Base64Char(x / 4), Base64Char(x % 4 * 16 + y / 16),
              Base64Char(y % 16 * 4 + z / 64), Base64Char(z % 64)] + rest;
    assert s[4..] == rest;
  }

  predicate IsBase64(c: char) {
    Base64Value(c) >= 0 || c == '='
  }

  lemma {:induction false} Base64IsBase64(b: seq<Byte>)
    ensures forall i :: 0 <= i < |Base64Encode(b)| ==> IsBase64(Base64Encode(b)[i])
    ensures b == [] <==> Base64Encode(b) == []
  {
    if |b| > 2 {
      Base64IsBase64(b[3..]);
    }
    forall n | 0 <= n < 64 ensures IsBase64(Base64Char(n)) { Base64ValueOfChar(n); }
  }

  lemma {:induction false} NoLineBreaks(s: string)
    requires forall i :: 0 <= i < |s| ==> s[i] != '\r' && s[i] != '\n'
    ensures WithoutLineBreaks(s) == s
  {
    if s == [] {
    } else {
      NoLineBreaks(s[1..]);
    }
  }

  lemma Base64RoundTrip(b: seq<Byte>)
    ensures Base64Decode(Base64Encode(b)) == Ok(b)
  {
    Base64IsBase64(b);
    NoLineBreaks(Base64Encode(b));
    QuantaRoundTrip(b);
  }

  /** Line breaks make no difference, wherever they are. */
  lemma {:induction false} BreaksAreSkipped(a: string, b: string)
    ensures Base64Decode(a + "\r\n" + b) == Base64Decode(a + b)
  {
    WithoutBreaksConcat(a, "\r\n" + b);
    WithoutBreaksConcat("\r\n", b);
    WithoutBreaksConcat(a, b);
    assert a + ("\r\n" + b) == a + "\r\n" + b;
    assert WithoutLineBreaks("\r\n") == [] by { assert "\r\n"[1..] == "\n" && "\n"[1..] == []; }
    assert [] + WithoutLineBreaks(b) == WithoutLineBreaks(b);
  }

  lemma {:induction false} WithoutBreaksConcat(a: string, b: string)
    ensures WithoutLineBreaks(a + b) == WithoutLineBreaks(a) + WithoutLineBreaks(b)
  {
    if a == [] {
      assert a + b == b;
    } else {
      assert (a + b)[1..] == a[1..] + b;
      WithoutBreaksConcat(a[1..], b);
    }
  }

  /** What decodes is whole groups of four, with two pads at most, and those at the end. */
  lemma {:induction false} DecodedIsBase64(s: string)
    requires DecodeQuanta(s).Ok?
    ensures |s| % 4 == 0
    ensures forall i :: 0 <= i < |s| ==> Base64Value(s[i]) >= 0 || (s[i] == '=' && i >= |s| - 2)
  {
    hide Base64Char, Base64Value;
    if |s| > 4 {
      QuantumDecodes(s);
      DecodedIsBase64(s[4..]);
      forall i | 4 <= i < |s| ensures Base64Value(s[i]) >= 0 || (s[i] == '=' && i >= |s| - 2) {
        assert s[i] == s[4..][i - 4];
      }
    }
  }

  lemma QuantumDecodes(s: string)
    requires DecodeQuanta(s).Ok? && |s| > 4
    ensures forall i :: 0 <= i < 4 ==> Base64Value(s[i]) >= 0
    ensures DecodeQuanta(s[4..]).Ok?
  {
    hide Base64Char, Base64Value;
  }

  /** Zero pad bits (section 3.5): the index of the character before a '=' is divisible by 4. */
  lemma {:induction false} ZeroPadBits(b: seq<Byte>, i: nat)
    requires var s := Base64Encode(b); i + 1 < |s| && s[i] != '=' && s[i + 1] == '='
    ensures Base64Value(Base64Encode(b)[i]) % 4 == 0
  {
    if |b| == 1 {
      Base64ValueOfChar(b[0] / 4);
      Base64ValueOfChar(b[0] % 4 * 16);
    } else if |b| == 2 {
      Base64ValueOfChar(b[0] / 4);
      Base64ValueOfChar(b[0] % 4 * 16 + b[1] / 16);
      Base64ValueOfChar(b[1] % 16 * 4);
    } else if |b| > 2 {
      var s, rest := Base64Encode(b), Base64Encode(b[3..]);
      forall n | 0 <= n < 64 ensures Base64Char(n) != '=' { Base64ValueOfChar(n); }
      assert s[4..] == rest;
      if i < 4 {
        FirstIsNotPad(b[3..]);
      } else {
        assert s[i] == rest[i - 4] && s[i + 1] == rest[i - 3];
        ZeroPadBits(b[3..], i - 4);
      }
    }
  }

  lemma FirstIsNotPad(b: seq<Byte>)
    ensures b != [] ==> Base64Encode(b)[0] != '='
  {
    if b != [] { Base64ValueOfChar(b[0] / 4); }
  }
}

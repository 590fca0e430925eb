/** The URL- and filename-safe base64 alphabet of section 5 of RFC 4648,
    written without padding (Go's `base64.RawURLEncoding`), together with a
    strict decoder that is its exact inverse. */
module Base64Url {

  import opened Wrappers

  type byte = x: int | 0 <= x < 256

  /** A value a single base64 digit carries. */
  type sextet = x: int | 0 <= x < 64

  /** Characters of the URL-safe alphabet: letters, digits, `-` and `_`. */
  predicate IsUrlSafe(c: char) {
    ('A' <= c <= 'Z') || ('a' <= c <= 'z') || ('0' <= c <= '9') || c == '-' || c == '_'
  }

  predicate AllUrlSafe(s: string) {
    forall k :: 0 <= k < |s| ==> IsUrlSafe(s[k])
  }

  /** Table 2 of RFC 4648: 0-25 upper case, 26-51 lower case, 52-61 digits,
      62 `-`, 63 `_`. */
  function Digit(v: sextet): (c: char)
    ensures IsUrlSafe(c)
  {
    if v < 26 then ('A' as int + v) as char
    else if v < 52 then ('a' as int + (v - 26)) as char
    else if v < 62 then ('0' as int + (v - 52)) as char
    else if v == 62 then '-'
    else '_'
  }

  /** The value of a URL-safe character; `Digit`'s inverse. */
  function ValueOf(c: char): (v: sextet)
    requires IsUrlSafe(c)
    ensures Digit(v) == c
  {
    if 'A' <= c <= 'Z' then c as int - 'A' as int
    else if 'a' <= c <= 'z' then c as int - 'a' as int + 26
    else if '0' <= c <= '9' then c as int - '0' as int + 52
    else if c == '-' then 62
    else 63
  }

  lemma ValueOfDigit(v: sextet)
    ensures ValueOf(Digit(v)) == v
  {
  }

  /** Three bytes become four digits, most significant bits first. */
  function EncodeGroup(a: byte, b: byte, c: byte): string {
    [Digit(a / 4), Digit(a % 4 * 16 + b / 16), Digit(b % 16 * 4 + c / 64), Digit(c % 64)]
  }

  /** The digits a trailing pair of bytes becomes. */
  function EncodePair(a: byte, b: byte): string {
    [Digit(a / 4), Digit(a % 4 * 16 + b / 16), Digit(b % 16 * 4)]
  }

  /** The digits a trailing single byte becomes. */
  function EncodeSingle(a: byte): string {
    [Digit(a / 4), Digit(a % 4 * 16)]
  }

  /** Encoding of `bytes` without padding: each full group of three bytes
      gives four digits, a trailing pair gives three and a trailing single
      byte gives two, so the text is `ceil(4n / 3)` characters long and
      never contains `=`. */
  function Encode(bytes: seq<byte>): (s: string)
    ensures |s| == (4 * |bytes| + 2) / 3
    ensures AllUrlSafe(s)
    decreases |bytes|
  {
    if |bytes| == 0 then ""
    else if |bytes| == 1 then EncodeSingle(bytes[0])
    else if |bytes| == 2 then EncodePair(bytes[0], bytes[1])
    else EncodeGroup(bytes[0], bytes[1], bytes[2]) + Encode(bytes[3..])
  }

  /** The first byte a run of digits starting `w x` carries. */
  function HighByte(w: sextet, x: sextet): byte {
    w * 4 + x / 16
  }

  /** The second byte a run of digits `x y` carries. */
  function MiddleByte(x: sextet, y: sextet): byte {
    x % 16 * 16 + y / 4
  }

  /** The third byte a run of digits `y z` carries. */
  function LowByte(y: sextet, z: sextet): byte {
    y % 4 * 64 + z
  }

  /** Strict decoding: rejects characters outside the alphabet, a length of
      one modulo four, and a final digit whose unused low bits are not zero
      (the bits an encoder never sets). */
  function Decode(s: string): (r: Option<seq<byte>>)
    ensures r.Some? ==> AllUrlSafe(s)
    decreases |s|
  {
    if |s| == 0 then Some([])
    else if |s| == 1 || !IsUrlSafe(s[0]) || !IsUrlSafe(s[1]) then None
    else if |s| == 2 then
      var w, x := ValueOf(s[0]), ValueOf(s[1]);
      if x % 16 != 0 then None else Some([HighByte(w, x)])
    else if !IsUrlSafe(s[2]) then None
    else if |s| == 3 then
      var w, x, y := ValueOf(s[0]), ValueOf(s[1]), ValueOf(s[2]);
      if y % 4 != 0 then None else Some([HighByte(w, x), MiddleByte(x, y)])
    else if !IsUrlSafe(s[3]) then None
    else
      var w, x, y, z := ValueOf(s[0]), ValueOf(s[1]), ValueOf(s[2]), ValueOf(s[3]);
      match Decode(s[4..])
      case None => None
      case Some(rest) =>
        assert AllUrlSafe(s) by { assert forall k :: 4 <= k < |s| ==> s[k] == s[4..][k - 4]; }
        Some([HighByte(w, x), MiddleByte(x, y), LowByte(y, z)] + rest)
  }

  /** Splitting a byte's bits over two digits and joining them again gives
      the byte back, for each of the three positions in a group. */
  lemma BytesOfDigits(a: byte, b: byte, c: byte)
    ensures HighByte(a / 4, a % 4 * 16 + b / 16) == a
    ensures MiddleByte(a % 4 * 16 + b / 16, b % 16 * 4 + c / 64) == b
    ensures LowByte(b % 16 * 4 + c / 64, c % 64) == c
  {
  }

  /** Conversely, the digits of the bytes that four digits carry are those
      digits. */
  lemma DigitsOfBytes(w: sextet, x: sextet, y: sextet, z: sextet)
    ensures HighByte(w, x) / 4 == w
    ensures HighByte(w, x) % 4 * 16 + MiddleByte(x, y) / 16 == x
    ensures MiddleByte(x, y) % 16 * 4 + LowByte(y, z) / 64 == y
    ensures LowByte(y, z) % 64 == z
  {
  }

  lemma DecodeSingle(a: byte)
    ensures Decode(EncodeSingle(a)) == Some([a])
  {
    var s := EncodeSingle(a);
    BytesOfDigits(a, 0, 0);
    ValueOfDigit(a / 4);
    ValueOfDigit(a % 4 * 16);
    assert ValueOf(s[1]) % 16 == 0;
  }

  lemma DecodePair(a: byte, b: byte)
    ensures Decode(EncodePair(a, b)) == Some([a, b])
  {
    var s := EncodePair(a, b);
    BytesOfDigits(a, b, 0);
    ValueOfDigit(a / 4);
    ValueOfDigit(a % 4 * 16 + b / 16);
    ValueOfDigit(b % 16 * 4);
    assert ValueOf(s[2]) % 4 == 0;
    assert MiddleByte(ValueOf(s[1]), ValueOf(s[2])) == b;
  }

  lemma DecodeGroupThen(a: byte, b: byte, c: byte, rest: string)
    requires Decode(rest).Some?
    ensures Decode(EncodeGroup(a, b, c) + rest) == Some([a, b, c] + Decode(rest).value)
  {
    var w, x, y, z := a / 4, a % 4 * 16 + b / 16, b % 16 * 4 + c / 64, c % 64;
    var s := EncodeGroup(a, b, c) + rest;
    BytesOfDigits(a, b, c);
    ValueOfDigit(w);
    ValueOfDigit(x);
    ValueOfDigit(y);
    ValueOfDigit(z);
    assert s[0] == Digit(w) && s[1] == Digit(x) && s[2] == Digit(y) && s[3] == Digit(z);
    assert s[4..] == rest;
    assert Decode(s) == Some([HighByte(w, x), MiddleByte(x, y), LowByte(y, z)] + Decode(rest).value);
  }

  /** Decoding undoes encoding, so the encoding is injective. */
  lemma {:induction false} DecodeEncode(bytes: seq<byte>)
    ensures Decode(Encode(bytes)) == Some(bytes)
    decreases |bytes|
  {
    if 1 <= |bytes| <= 2 {
      DecodeEncodeShort(bytes);
    } else if |bytes| >= 3 {
      DecodeEncode(bytes[3..]);
      DecodeEncodeGroup(bytes);
    }
  }

  lemma ShortSeq<T>(s: seq<T>)
    requires 1 <= |s| <= 2
    ensures |s| == 1 ==> s == [s[0]]
    ensures |s| == 2 ==> s == [s[0], s[1]]
  {
  }

  lemma GroupSeq<T>(s: seq<T>)
    requires |s| >= 3
    ensures s == [s[0], s[1], s[2]] + s[3..]
  {
  }

  lemma DecodeEncodeShort(bytes: seq<byte>)
    requires 1 <= |bytes| <= 2
    ensures Decode(Encode(bytes)) == Some(bytes)
  {
    ShortSeq(bytes);
    if |bytes| == 1 {
      DecodeSingle(bytes[0]);
    } else {
      DecodePair(bytes[0], bytes[1]);
    }
  }

  lemma DecodeEncodeGroup(bytes: seq<byte>)
    requires |bytes| >= 3 && Decode(Encode(bytes[3..])) == Some(bytes[3..])
    ensures Decode(Encode(bytes)) == Some(bytes)
  {
    GroupSeq(bytes);
    assert Encode(bytes) == EncodeGroup(bytes[0], bytes[1], bytes[2]) + Encode(bytes[3..]);
    DecodeGroupThen(bytes[0], bytes[1], bytes[2], Encode(bytes[3..]));
  }

  lemma EncodeInjective(b1: seq<byte>, b2: seq<byte>)
    requires Encode(b1) == Encode(b2)
    ensures b1 == b2
  {
    DecodeEncode(b1);
    DecodeEncode(b2);
  }

  lemma EncodeDecodeShort(s: string)
    requires 2 <= |s| <= 3 && Decode(s).Some?
    ensures Encode(Decode(s).value) == s
  {
    var w, x := ValueOf(s[0]), ValueOf(s[1]);
    if |s| == 2 {
      DigitsOfBytes(w, x, 0, 0);
      assert Encode(Decode(s).value) == EncodeSingle(HighByte(w, x));
    } else {
      var y := ValueOf(s[2]);
      DigitsOfBytes(w, x, y, 0);
      assert Encode(Decode(s).value) == EncodePair(HighByte(w, x), MiddleByte(x, y));
    }
  }

  lemma EncodeDecodeGroup(s: string)
    requires |s| >= 4 && Decode(s).Some?
    ensures Decode(s[4..]).Some?
    ensures Encode(Decode(s).value) == s[..4] + Encode(Decode(s[4..]).value)
  {
    var w, x, y, z := ValueOf(s[0]), ValueOf(s[1]), ValueOf(s[2]), ValueOf(s[3]);
    var a, b, c := HighByte(w, x), MiddleByte(x, y), LowByte(y, z);
    GroupOfDigits(s[..4]);
    var rest := Decode(s[4..]).value;
    assert Decode(s).value == [a, b, c] + rest;
    EncodeThen(a, b, c, rest);
  }

  /** Four digits are the encoding of the three bytes they carry. */
  lemma GroupOfDigits(g: string)
    requires |g| == 4 && AllUrlSafe(g)
    ensures var w, x, y, z := ValueOf(g[0]), ValueOf(g[1]), ValueOf(g[2]), ValueOf(g[3]);
      EncodeGroup(HighByte(w, x), MiddleByte(x, y), LowByte(y, z)) == g
  {
    var w, x, y, z := ValueOf(g[0]), ValueOf(g[1]), ValueOf(g[2]), ValueOf(g[3]);
    DigitsOfBytes(w, x, y, z);
    assert g == [Digit(w), Digit(x), Digit(y), Digit(z)];
  }

  /** Encoding a group followed by more bytes. */
  lemma EncodeThen(a: byte, b: byte, c: byte, rest: seq<byte>)
    ensures Encode([a, b, c] + rest) == EncodeGroup(a, b, c) + Encode(rest)
  {
    assert ([a, b, c] + rest)[3..] == rest;
  }

  /** Every string the strict decoder accepts is the encoding of what it
      decodes to: the two functions are inverse bijections. */
  lemma {:induction false} EncodeDecode(s: string)
    requires Decode(s).Some?
    ensures Encode(Decode(s).value) == s
    decreases |s|
  {
    if 2 <= |s| <= 3 {
      EncodeDecodeShort(s);
    } else if |s| >= 4 {
      EncodeDecodeGroup(s);
      EncodeDecode(s[4..]);
      assert s == s[..4] + s[4..];
    }
  }

  /** The name the handlers draw: 32 random bytes encode to 43 URL-safe
      characters, none of them padding or a separator the object key,
      the locator or the file name uses. */
  lemma RandomNameShape(bytes: seq<byte>)
    requires |bytes| == 32
    ensures |Encode(bytes)| == 43
    ensures AllUrlSafe(Encode(bytes))
    ensures '=' !in Encode(bytes) && ',' !in Encode(bytes)
    ensures '/' !in Encode(bytes) && '.' !in Encode(bytes)
  {
  }
}

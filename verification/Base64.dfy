/** Base64 as section 4 of RFC 4648 defines it, with padding. */
module Base64 {
  import opened Objects

  type Byte = b: int | 0 <= b < 256

  type Sextet = v: int | 0 <= v < 64

  function Digit(v: Sextet): char {
    if v < 26 then 'A' + v as char
    else if v < 52 then 'a' + (v - 26) as char
    else if v < 62 then '0' + (v - 52) as char
    else if v == 62 then '+'
    else '/'
  }

  function Value(c: char): Option<Sextet> {
    if 'A' <= c <= 'Z' then Some((c - 'A') as int)
    else if 'a' <= c <= 'z' then Some(26 + (c - 'a') as int)
    else if '0' <= c <= '9' then Some(52 + (c - '0') as int)
    else if c == '+' then Some(62)
    else if c == '/' then Some(63)
    else None
  }

  /** One, two or three bytes as four characters. */
  function EncodeLast(data: seq<Byte>): (q: string)
    requires 1 <= |data| <= 3
    ensures |q| == 4
  {
    if |data| == 1 then [Digit(data[0] / 4), Digit(data[0] % 4 * 16), '=', '=']
    else if |data| == 2 then
      [Digit(data[0] / 4), Digit(data[0] % 4 * 16 + data[1] / 16), Digit(data[1] % 16 * 4), '=']
    else
      [Digit(data[0] / 4), Digit(data[0] % 4 * 16 + data[1] / 16), Digit(data[1] % 16 * 4 + data[2] / 64), Digit(data[2] % 64)]
  }

  function Encode(data: seq<Byte>): string
    decreases |data|
  {
    if |data| == 0 then ""
    else if |data| <= 3 then EncodeLast(data)
    else EncodeLast(data[..3]) + Encode(data[3..])
  }

  /** Four digits as three bytes. */
  function Triple(a: Sextet, b: Sextet, c: Sextet, d: Sextet): seq<Byte> {
    [a * 4 + b / 16, b % 16 * 16 + c / 4, c % 4 * 64 + d]
  }

  /** The last four characters: two, one or no pad characters, unused bits zero. */
  function DecodeLast(q: string): Option<seq<Byte>>
    requires |q| == 4
  {
    var a, b, c, d := Value(q[0]), Value(q[1]), Value(q[2]), Value(q[3]);
    if a.None? || b.None? then None
    else if c.Some? && d.Some? then Some(Triple(a.value, b.value, c.value, d.value))
    else if c.Some? && q[3] == '=' && c.value % 4 == 0 then Some(Triple(a.value, b.value, c.value, 0)[..2])
    else if q[2] == '=' && q[3] == '=' && b.value % 16 == 0 then Some(Triple(a.value, b.value, 0, 0)[..1])
    else None
  }

  function Decode(text: string): Option<seq<Byte>>
    decreases |text|
  {
    if text == "" then Some([])
    else if |text| < 4 then None
    else if |text| == 4 then DecodeLast(text)
    else
      match DecodeLast(text[..4])
      case None => None
      case Some(first) =>
        if |first| < 3 then None
        else
          match Decode(text[4..])
          case None => None
          case Some(rest) => Some(first + rest)
  }

  lemma {:induction false} DigitValue(v: Sextet)
    ensures Value(Digit(v)) == Some(v) && Digit(v) != '='
  {
  }

  lemma {:induction false} ValueDigit(c: char)
    ensures Value(c).Some? ==> Digit(Value(c).value) == c
  {
  }

  /** The alphabet of section 4: A to Z, a to z, 0 to 9, plus and slash. */
  lemma {:induction false} AlphabetIsStandard(v: nat)
    ensures Digit(0) == 'A' && Digit(25) == 'Z' && Digit(26) == 'a' && Digit(51) == 'z'
    ensures Digit(52) == '0' && Digit(61) == '9' && Digit(62) == '+' && Digit(63) == '/'
    ensures v < 61 && v != 25 && v != 51 ==> Digit(v + 1) as int == Digit(v) as int + 1
  {
  }

  /** Three bytes are one 24-bit number, and so are their four digits. */
  lemma {:induction false} ThreeAreOneNumber(x: Byte, y: Byte, z: Byte)
    ensures
      var q := EncodeLast([x, y, z]);
      && Value(q[0]).Some? && Value(q[1]).Some? && Value(q[2]).Some? && Value(q[3]).Some?
      && Value(q[0]).value * 262144 + Value(q[1]).value * 4096 + Value(q[2]).value * 64 + Value(q[3]).value
         == x * 65536 + y * 256 + z
  {
    DigitValue(x / 4);
    DigitValue(x % 4 * 16 + y / 16);
    DigitValue(y % 16 * 4 + z / 64);
    DigitValue(z % 64);
  }

  /** Two bytes are filled up with two zero bits and one pad character. */
  lemma {:induction false} TwoAreOneNumber(x: Byte, y: Byte)
    ensures
      var q := EncodeLast([x, y]);
      && Value(q[0]).Some? && Value(q[1]).Some? && Value(q[2]).Some? && q[3] == '='
      && Value(q[0]).value * 4096 + Value(q[1]).value * 64 + Value(q[2]).value == (x * 256 + y) * 4
  {
    DigitValue(x / 4);
    DigitValue(x % 4 * 16 + y / 16);
    DigitValue(y % 16 * 4);
  }

  /** One byte is filled up with four zero bits and two pad characters. */
  lemma {:induction false} OneIsOneNumber(x: Byte)
    ensures
      var q := EncodeLast([x]);
      && Value(q[0]).Some? && Value(q[1]).Some? && q[2] == '=' && q[3] == '='
      && Value(q[0]).value * 64 + Value(q[1]).value == x * 16
  {
    DigitValue(x / 4);
    DigitValue(x % 4 * 16);
  }

  /** One full group, both ways. */
  lemma {:induction false} GroupRoundTrip(x: Byte, y: Byte, z: Byte)
    ensures Triple(x / 4, x % 4 * 16 + y / 16, y % 16 * 4 + z / 64, z % 64) == [x, y, z]
  {
  }

  lemma {:induction false} GroupBack(a: Sextet, b: Sextet, c: Sextet, d: Sextet)
    ensures
      var t := Triple(a, b, c, d);
      t[0] / 4 == a && t[0] % 4 * 16 + t[1] / 16 == b && t[1] % 16 * 4 + t[2] / 64 == c && t[2] % 64 == d
  {
  }

  lemma {:induction false} ThreeBytes(x: Byte, y: Byte, z: Byte)
    ensures DecodeLast(EncodeLast([x, y, z])) == Some([x, y, z])
  {
    DigitValue(x / 4);
    DigitValue(x % 4 * 16 + y / 16);
    DigitValue(y % 16 * 4 + z / 64);
    DigitValue(z % 64);
    GroupRoundTrip(x, y, z);
  }

  lemma {:induction false} TwoBytes(x: Byte, y: Byte)
    ensures DecodeLast(EncodeLast([x, y])) == Some([x, y])
  {
    DigitValue(x / 4);
    DigitValue(x % 4 * 16 + y / 16);
    DigitValue(y % 16 * 4);
    GroupRoundTrip(x, y, 0);
    assert [x, y, 0][..2] == [x, y];
  }

  lemma {:induction false} OneByte(x: Byte)
    ensures DecodeLast(EncodeLast([x])) == Some([x])
  {
    DigitValue(x / 4);
    DigitValue(x % 4 * 16);
    GroupRoundTrip(x, 0, 0);
    assert [x, 0, 0][..1] == [x];
  }

  lemma {:induction false} LastRoundTrip(data: seq<Byte>)
    requires 1 <= |data| <= 3
    ensures DecodeLast(EncodeLast(data)) == Some(data)
  {
    if |data| == 1 {
      OneByte(data[0]);
      assert data == [data[0]];
    } else if |data| == 2 {
      TwoBytes(data[0], data[1]);
      assert data == [data[0], data[1]];
    } else {
      ThreeBytes(data[0], data[1], data[2]);
      assert data == [data[0], data[1], data[2]];
    }
  }

  /** Decoding an encoding gives the bytes back. */
  lemma {:induction false} RoundTrip(data: seq<Byte>)
    ensures Decode(Encode(data)) == Some(data)
    decreases |data|
  {
    if 1 <= |data| <= 3 {
      LastRoundTrip(data);
    } else if |data| > 3 {
      LastRoundTrip(data[..3]);
      RoundTrip(data[3..]);
      assert Encode(data)[..4] == EncodeLast(data[..3]) && Encode(data)[4..] == Encode(data[3..]);
      assert data == data[..3] + data[3..];
    }
  }

  lemma {:induction false} LastBack(q: string)
    requires |q| == 4 && DecodeLast(q).Some?
    ensures EncodeLast(DecodeLast(q).value) == q
  {
    var a, b, c, d := Value(q[0]), Value(q[1]), Value(q[2]), Value(q[3]);
    ValueDigit(q[0]);
    ValueDigit(q[1]);
    ValueDigit(q[2]);
    ValueDigit(q[3]);
    GroupBack(a.value, b.value, if c.Some? then c.value else 0, if d.Some? then d.value else 0);
  }

  /** Only the encoding of some bytes decodes to them. */
  lemma {:induction false} OnlyEncodingsDecode(text: string)
    requires Decode(text).Some?
    ensures Encode(Decode(text).value) == text
    decreases |text|
  {
    if |text| == 4 {
      LastBack(text);
    } else if |text| > 4 {
      var first, rest := DecodeLast(text[..4]).value, Decode(text[4..]).value;
      LastBack(text[..4]);
      OnlyEncodingsDecode(text[4..]);
      assert (first + rest)[..3] == first && (first + rest)[3..] == rest;
      assert text == text[..4] + text[4..];
    }
  }

  /** Decode is the exact inverse of Encode: nothing else is accepted. */
  lemma {:induction false} DecodesIffEncoded(text: string, data: seq<Byte>)
    ensures Decode(text) == Some(data) <==> text == Encode(data)
  {
    RoundTrip(data);
    if Decode(text) == Some(data) { OnlyEncodingsDecode(text); }
  }

  predicate IsDigit(c: char) {
    Value(c).Some? || c == '='
  }

  lemma {:induction false} LastIsDigits(data: seq<Byte>, i: nat)
    requires 1 <= |data| <= 3 && i < 4
    ensures IsDigit(EncodeLast(data)[i])
  {
    forall v: Sextet ensures IsDigit(Digit(v)) { DigitValue(v); }
  }

  lemma {:induction false} EncodedIsDigits(data: seq<Byte>, i: nat)
    requires i < |Encode(data)|
    ensures IsDigit(Encode(data)[i])
    decreases |data|
  {
    if |data| <= 3 {
      LastIsDigits(data, i);
    } else if i < 4 {
      LastIsDigits(data[..3], i);
    } else {
      EncodedIsDigits(data[3..], i - 4);
    }
  }
}

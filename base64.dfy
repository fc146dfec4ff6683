/** Base64 as section 4 of RFC 4648 defines it (PHP's `base64_encode`), and the lenient
    decoder PHP's `base64_decode` uses when not asked to be strict. */
module Base64 {
  import opened Wrappers

  /** One byte of a PHP string. */
  type Byte = b: int | 0 <= b < 256

  /** The character of a 6-bit value in the RFC 4648 alphabet. */
  function SextetChar(v: int): (c: char)
    requires 0 <= v < 64
  {
    if v < 26 then ('A' as int + v) as char
    else if v < 52 then ('a' as int + (v - 26)) as char
    else if v < 62 then ('0' as int + (v - 52)) as char
    else if v == 62 then '+'
    else '/'
  }

  /** The 6-bit value of an alphabet character; None for any other character, '=' included. */
  function SextetValue(c: char): (r: Option<int>)
    ensures r.Some? ==> 0 <= r.value < 64
  {
    if 'A' <= c <= 'Z' then Some(c as int - 'A' as int)
    else if 'a' <= c <= 'z' then Some(c as int - 'a' as int + 26)
    else if '0' <= c <= '9' then Some(c as int - '0' as int + 52)
    else if c == '+' then Some(62)
    else if c == '/' then Some(63)
    else None
  }

  lemma {:induction false} SextetRoundTrip(v: int)
    requires 0 <= v < 64
    ensures SextetValue(SextetChar(v)) == Some(v)
  {
  }

  /** The 6-bit values of the alphabet characters of s, in order; the lenient decoder skips
      every other character, the padding included. */
  function Sextets(s: string): (vs: seq<int>)
    ensures |vs| <= |s|
    ensures forall i :: 0 <= i < |vs| ==> 0 <= vs[i] < 64
  {
    if s == [] then []
    else
      match SextetValue(s[0])
      case Some(v) => [v] + Sextets(s[1..])
      case None => Sextets(s[1..])
  }

  /** Packs 6-bit values into bytes; bits that do not fill a whole byte are dropped. */
  function Pack(vs: seq<int>): (b: seq<Byte>)
    requires forall i :: 0 <= i < |vs| ==> 0 <= vs[i] < 64
  {
    if |vs| >= 4 then
      [vs[0] * 4 + vs[1] / 16, (vs[1] % 16) * 16 + vs[2] / 4, (vs[2] % 4) * 64 + vs[3]] + Pack(vs[4..])
    else if |vs| == 3 then [vs[0] * 4 + vs[1] / 16, (vs[1] % 16) * 16 + vs[2] / 4]
    else if |vs| == 2 then [vs[0] * 4 + vs[1] / 16]
    else []
  }

  /** `base64_decode($s)` without the strict flag. It never fails. */
  function PhpDecode(s: string): seq<Byte>
  {
    Pack(Sextets(s))
  }

  /** The alphabet characters of some 6-bit values. */
  function Chars(vs: seq<int>): (s: string)
    requires forall i :: 0 <= i < |vs| ==> 0 <= vs[i] < 64
    ensures |s| == |vs|
  {
    seq(|vs|, i requires 0 <= i < |vs| => SextetChar(vs[i]))
  }

  /** The values the encoding of b carries, before the padding. */
  function EncodedSextets(b: seq<Byte>): (vs: seq<int>)
    ensures forall i :: 0 <= i < |vs| ==> 0 <= vs[i] < 64
    decreases |b|
  {
    if |b| == 0 then []
    else if |b| == 1 then [b[0] / 4, (b[0] % 4) * 16]
    else if |b| == 2 then [b[0] / 4, (b[0] % 4) * 16 + b[1] / 16, (b[1] % 16) * 4]
    else [b[0] / 4, (b[0] % 4) * 16 + b[1] / 16, (b[1] % 16) * 4 + b[2] / 64, b[2] % 64] + EncodedSextets(b[3..])
  }

  /** `base64_encode`: every three bytes become four characters; a final one or two bytes
      become two or three characters, padded with '=' to four. */
  function Encode(b: seq<Byte>): (s: string)
  {
    Chars(EncodedSextets(b)) + (if |b| % 3 == 1 then "==" else if |b| % 3 == 2 then "=" else "")
  }

  lemma {:induction false} EncodedSextetsLength(b: seq<Byte>)
    ensures |EncodedSextets(b)| == |b| / 3 * 4 + (if |b| % 3 == 0 then 0 else |b| % 3 + 1)
    decreases |b|
  {
    if |b| >= 3 {
      EncodedSextetsLength(b[3..]);
    }
  }

  /** Every started group of three bytes takes four characters. */
  lemma {:induction false} EncodeLength(b: seq<Byte>)
    ensures |Encode(b)| == 4 * ((|b| + 2) / 3)
    ensures forall i :: 0 <= i < |Encode(b)| ==> Encode(b)[i] == '=' || SextetValue(Encode(b)[i]).Some?
  {
    EncodedSextetsLength(b);
    var vs := EncodedSextets(b);
    forall i | 0 <= i < |vs|
      ensures SextetValue(Encode(b)[i]).Some?
    {
      SextetRoundTrip(vs[i]);
    }
  }

  lemma {:induction false} SextetsOfChars(vs: seq<int>, rest: string)
    requires forall i :: 0 <= i < |vs| ==> 0 <= vs[i] < 64
    ensures Sextets(Chars(vs) + rest) == vs + Sextets(rest)
  {
    if vs != [] {
      var s := Chars(vs) + rest;
      SextetRoundTrip(vs[0]);
      assert s[0] == SextetChar(vs[0]);
      assert s[1..] == Chars(vs[1..]) + rest;
      SextetsOfChars(vs[1..], rest);
      assert vs == [vs[0]] + vs[1..];
    } else {
      assert Chars(vs) + rest == rest;
    }
  }

  lemma {:induction false} SextetsOfPadding(s: string)
    requires forall i :: 0 <= i < |s| ==> s[i] == '='
    ensures Sextets(s) == []
  {
    if s != [] {
      SextetsOfPadding(s[1..]);
    }
  }

  /** The alphabet characters of an encoding carry exactly the encoded values: the padding
      carries none. */
  lemma {:induction false} SextetsOfEncode(b: seq<Byte>)
    ensures Sextets(Encode(b)) == EncodedSextets(b)
  {
    var pad := Encode(b)[|EncodedSextets(b)|..];
    assert Encode(b) == Chars(EncodedSextets(b)) + pad;
    SextetsOfPadding(pad);
    SextetsOfChars(EncodedSextets(b), pad);
    assert EncodedSextets(b) + [] == EncodedSextets(b);
  }

  /** Packing the values of three bytes gives the bytes back. */
  lemma {:induction false} PackThree(x: Byte, y: Byte, z: Byte)
    ensures x / 4 * 4 + ((x % 4) * 16 + y / 16) / 16 == x
    ensures (((x % 4) * 16 + y / 16) % 16) * 16 + ((y % 16) * 4 + z / 64) / 4 == y
    ensures (((y % 16) * 4 + z / 64) % 4) * 64 + z % 64 == z
  {
  }

  lemma {:induction false} PackEncodedSextets(b: seq<Byte>)
    ensures Pack(EncodedSextets(b)) == b
    decreases |b|
  {
    if |b| >= 3 {
      PackThree(b[0], b[1], b[2]);
      var vs := EncodedSextets(b);
      assert vs[4..] == EncodedSextets(b[3..]);
      PackEncodedSextets(b[3..]);
      assert b == b[..3] + b[3..];
    } else if |b| == 2 {
      PackThree(b[0], b[1], 0);
    } else if |b| == 1 {
      PackThree(b[0], 0, 0);
    }
  }

  /** The lenient decoder undoes the encoder. */
  lemma {:induction false} DecodeEncode(b: seq<Byte>)
    ensures PhpDecode(Encode(b)) == b
  {
    SextetsOfEncode(b);
    PackEncodedSextets(b);
  }

  /** PHP's `strrev`. */
  function Reverse<T>(s: seq<T>): (r: seq<T>)
    ensures |r| == |s|
    ensures forall i :: 0 <= i < |s| ==> r[i] == s[|s| - 1 - i]
  {
    seq(|s|, i requires 0 <= i < |s| => s[|s| - 1 - i])
  }

  lemma {:induction false} ReverseReverse<T>(s: seq<T>)
    ensures Reverse(Reverse(s)) == s
  {
  }
}

/**
 UTF-8 as section 3 of RFC 3629 defines it, and Python's `decode(..., "replace")`:
 each longest prefix of a well-formed character that is cut short reads as one U+FFFD.
 */
module Utf8 {
  import opened Sequences

  newtype byte = x: int | 0 <= x < 256

  type Bytes = seq<byte>

  const REPLACEMENT: char := '\U{FFFD}'

  predicate IsAscii(c: char) {
    c as int < 0x80
  }

  function Ascii(c: char): byte
    requires IsAscii(c)
  {
    c as int as byte
  }

  function EncodeChar(c: char): (r: Bytes)
    ensures 1 <= |r| <= 4
  {
    var v := c as int;
    if v < 0x80 then [v as byte]
    else if v < 0x800 then [(0xC0 + v / 0x40) as byte, Trail(v)]
    else if v < 0x1_0000 then [(0xE0 + v / 0x1000) as byte, Trail(v / 0x40), Trail(v)]
    else [(0xF0 + v / 0x4_0000) as byte, Trail(v / 0x1000), Trail(v / 0x40), Trail(v)]
  }

  function Trail(v: nat): byte {
    (0x80 + v % 0x40) as byte
  }

  function Encode(s: string): Bytes {
    if |s| == 0 then [] else EncodeChar(s[0]) + Encode(s[1..])
  }

  predicate IsTrail(b: byte) {
    0x80 <= b <= 0xBF
  }

  /** Second bytes of three-byte characters: no overlong form and no surrogate. */
  predicate IsSecondOfThree(lead: byte, b: byte) {
    (if lead == 0xE0 then 0xA0 else 0x80) <= b <= (if lead == 0xED then 0x9F else 0xBF)
  }

  /** Second bytes of four-byte characters: no overlong form and nothing above U+10FFFF. */
  predicate IsSecondOfFour(lead: byte, b: byte) {
    (if lead == 0xF0 then 0x90 else 0x80) <= b <= (if lead == 0xF4 then 0x8F else 0xBF)
  }

  /** One decoded character: how many bytes it took, and whether they were well formed. */
  datatype Decoded = Decoded(c: char, length: nat, wellFormed: bool)

  function Malformed(length: nat): Decoded {
    Decoded(REPLACEMENT, length, false)
  }

  function DecodeFirst(b: Bytes): (r: Decoded)
    requires |b| > 0
    ensures 1 <= r.length <= |b|
  {
    var lead := b[0];
    if lead < 0x80 then Decoded(lead as int as char, 1, true)
    else if 0xC2 <= lead <= 0xDF then
      if |b| >= 2 && IsTrail(b[1])
      then Decoded(((lead as int - 0xC0) * 0x40 + Payload(b[1])) as char, 2, true)
      else Malformed(1)
    else if 0xE0 <= lead <= 0xEF then
      if |b| < 2 || !IsSecondOfThree(lead, b[1]) then Malformed(1)
      else if |b| < 3 || !IsTrail(b[2]) then Malformed(2)
      else Decoded(((lead as int - 0xE0) * 0x1000 + Payload(b[1]) * 0x40 + Payload(b[2])) as char, 3, true)
    else if 0xF0 <= lead <= 0xF4 then
      if |b| < 2 || !IsSecondOfFour(lead, b[1]) then Malformed(1)
      else if |b| < 3 || !IsTrail(b[2]) then Malformed(2)
      else if |b| < 4 || !IsTrail(b[3]) then Malformed(3)
      else Decoded(((lead as int - 0xF0) * 0x4_0000 + Payload(b[1]) * 0x1000
                    + Payload(b[2]) * 0x40 + Payload(b[3])) as char, 4, true)
    else Malformed(1)
  }

  function Payload(b: byte): nat
    requires b >= 0x80
  {
    b as int - 0x80
  }

  function Decode(b: Bytes): string {
    if |b| == 0 then "" else [DecodeFirst(b).c] + Decode(b[DecodeFirst(b).length..])
  }

  predicate WellFormed(b: Bytes) {
    |b| == 0 || (DecodeFirst(b).wellFormed && WellFormed(b[DecodeFirst(b).length..]))
  }

  function DecodeEach(pieces: seq<Bytes>): (r: seq<string>)
    ensures |r| == |pieces|
  {
    if |pieces| == 0 then [] else [Decode(pieces[0])] + DecodeEach(pieces[1..])
  }

  /** Base-64 digits, least significant first: what the trailing bytes carry. */
  lemma {:induction false} Digits(hi: nat, d1: nat, d0: nat)
    requires d1 < 0x40 && d0 < 0x40
    ensures (hi * 0x40 + d0) / 0x40 == hi && (hi * 0x40 + d0) % 0x40 == d0
    ensures (hi * 0x1000 + d1 * 0x40 + d0) / 0x40 == hi * 0x40 + d1
    ensures (hi * 0x1000 + d1 * 0x40 + d0) / 0x1000 == hi
    ensures (hi * 0x1000 + d1 * 0x40 + d0) % 0x40 == d0
  {
  }

  lemma {:induction false} DecodeFirstOfEncoded(c: char, rest: Bytes)
    ensures DecodeFirst(EncodeChar(c) + rest) == Decoded(c, |EncodeChar(c)|, true)
  {
    var v := c as int;
    var e := EncodeChar(c);
    var b := e + rest;
    assert forall i :: 0 <= i < |e| ==> b[i] == e[i];
    if v < 0x800 {
    } else if v < 0x1_0000 {
      DecodeThree(c, rest);
    } else {
      DecodeFour(c, rest);
    }
  }

  lemma {:induction false} DecodeThree(c: char, rest: Bytes)
    requires 0x800 <= c as int < 0x1_0000
    ensures DecodeFirst(EncodeChar(c) + rest) == Decoded(c, 3, true)
  {
  }

  lemma {:induction false} DecodeFour(c: char, rest: Bytes)
    requires c as int >= 0x1_0000
    ensures DecodeFirst(EncodeChar(c) + rest) == Decoded(c, 4, true)
  {
    var v := c as int;
    var q1 := v / 0x40;
    var q2 := q1 / 0x40;
    var top, hi, mid, lo := q2 / 0x40, q2 % 0x40, q1 % 0x40, v % 0x40;
    assert v / 0x1000 == q2 && v / 0x4_0000 == top;
    assert v == top * 0x4_0000 + hi * 0x1000 + mid * 0x40 + lo;
    var b := EncodeChar(c) + rest;
    assert b[0] as int == 0xF0 + top && b[1] as int == 0x80 + hi;
    assert b[2] as int == 0x80 + mid && b[3] as int == 0x80 + lo;
    FourByteRange(b[0], b[1], top, hi);
  }

  lemma {:induction false} FourByteRange(lead: byte, second: byte, top: nat, hi: nat)
    requires lead as int == 0xF0 + top && second as int == 0x80 + hi && hi < 0x40
    requires 0x10 <= top * 0x40 + hi < 0x110
    ensures 0xF0 <= lead <= 0xF4 && IsSecondOfFour(lead, second)
  {
  }

  lemma {:induction false} EncodedTwo(c: char, top: nat, lo: nat)
    requires c as int == top * 0x40 + lo && 2 <= top < 0x20 && lo < 0x40
    ensures EncodeChar(c) == [(0xC0 + top) as byte, (0x80 + lo) as byte]
  {
  }

  lemma {:induction false} EncodedThree(c: char, hi: nat, mid: nat, lo: nat)
    requires c as int == hi * 0x1000 + mid * 0x40 + lo && 0x800 <= c as int < 0x1_0000
    requires mid < 0x40 && lo < 0x40
    ensures hi < 0x10
    ensures EncodeChar(c) == [(0xE0 + hi) as byte, (0x80 + mid) as byte, (0x80 + lo) as byte]
  {
  }

  lemma {:induction false} EncodedFour(c: char, top: nat, hi: nat, mid: nat, lo: nat)
    requires c as int == (top * 0x40 + hi) * 0x1000 + mid * 0x40 + lo && c as int >= 0x1_0000
    requires hi < 0x40 && mid < 0x40 && lo < 0x40 && top < 8
    ensures EncodeChar(c) == [(0xF0 + top) as byte, (0x80 + hi) as byte, (0x80 + mid) as byte, (0x80 + lo) as byte]
  {
    Digits(top * 0x40 + hi, mid, lo);
    Digits(top * 0x40 + hi, 0, mid);
    Digits(top, 0, hi);
    assert c as int / 0x4_0000 == top;
  }

  lemma {:induction false} EncodedOfDecodeFirst(b: Bytes)
    requires |b| > 0 && DecodeFirst(b).wellFormed
    ensures EncodeChar(DecodeFirst(b).c) == b[..DecodeFirst(b).length]
  {
    var d := DecodeFirst(b);
    if d.length == 2 {
      EncodedTwo(d.c, b[0] as int - 0xC0, Payload(b[1]));
    } else if d.length == 3 {
      EncodedThree(d.c, b[0] as int - 0xE0, Payload(b[1]), Payload(b[2]));
    } else if d.length == 4 {
      EncodedFour(d.c, b[0] as int - 0xF0, Payload(b[1]), Payload(b[2]), Payload(b[3]));
    }
  }

  /** Every text survives encoding. */
  lemma {:induction false} DecodeInvertsEncode(s: string)
    ensures Decode(Encode(s)) == s && WellFormed(Encode(s))
  {
    if |s| == 0 {
    } else {
      var head, tail := EncodeChar(s[0]), Encode(s[1..]);
      DecodeFirstOfEncoded(s[0], tail);
      DecodeInvertsEncode(s[1..]);
      assert (head + tail)[|head|..] == tail;
    }
  }

  /** The bytes that decoding keeps are exactly the well-formed ones. */
  lemma {:induction false} EncodeInvertsDecode(b: Bytes)
    ensures Encode(Decode(b)) == b <==> WellFormed(b)
  {
    if Encode(Decode(b)) == b {
      DecodeInvertsEncode(Decode(b));
    }
    if WellFormed(b) {
      EncodeOfDecoded(b);
    }
  }

  lemma {:induction false} EncodeOfDecoded(b: Bytes)
    requires WellFormed(b)
    ensures Encode(Decode(b)) == b
  {
    if |b| == 0 {
    } else {
      var n := DecodeFirst(b).length;
      EncodedOfDecodeFirst(b);
      EncodeOfDecoded(b[n..]);
      EncodeHead(b, n, DecodeFirst(b).c, Decode(b[n..]));
    }
  }

  lemma {:induction false} EncodeHead(b: Bytes, n: nat, c: char, s: string)
    requires n <= |b| && EncodeChar(c) == b[..n] && Encode(s) == b[n..]
    ensures Encode([c] + s) == b
  {
  }

  /** An ASCII byte is never inside a longer character, well formed or cut short. */
  lemma {:induction false} DecodeFirstStopsAtAscii(a: Bytes, x: char, b: Bytes)
    requires IsAscii(x) && |a| > 0
    ensures DecodeFirst(a + [Ascii(x)] + b) == DecodeFirst(a)
  {
  }

  lemma {:induction false} DecodeAroundAscii(a: Bytes, x: char, b: Bytes)
    requires IsAscii(x)
    ensures Decode(a + [Ascii(x)] + b) == Decode(a) + [x] + Decode(b)
    decreases |a|
  {
    var whole := a + [Ascii(x)] + b;
    if |a| == 0 {
      assert whole[1..] == b;
    } else {
      var n := DecodeFirst(a).length;
      DecodeFirstStopsAtAscii(a, x, b);
      DecodeAroundAscii(a[n..], x, b);
      assert whole[n..] == a[n..] + [Ascii(x)] + b;
      Regroup(Decode(a[n..]), [x], Decode(b));
      Regroup([DecodeFirst(a).c], Decode(a[n..]), [x] + Decode(b));
      Regroup(Decode(a), [x], Decode(b));
    }
  }

  lemma {:induction false} DecodeKeepsAsciiOut(b: Bytes, x: char)
    requires IsAscii(x) && Ascii(x) !in b
    ensures x !in Decode(b)
    decreases |b|
  {
    if |b| == 0 {
    } else {
      var n := DecodeFirst(b).length;
      DecodeKeepsAsciiOut(b[n..], x);
      assert DecodeFirst(b).c != x by {
        assert b[0] in b;
      }
    }
  }

  /** Cutting the bytes at an ASCII separator and then decoding is decoding and then cutting, for all bytes. */
  lemma {:induction false} DecodeCommutesWithSplit(b: Bytes, x: char)
    requires IsAscii(x)
    ensures DecodeEach(Split(b, Ascii(x))) == Split(Decode(b), x)
    decreases |b|
  {
    if Ascii(x) !in b {
      SplitWithoutSeparator(b, Ascii(x));
      DecodeKeepsAsciiOut(b, x);
      SplitWithoutSeparator(Decode(b), x);
    } else {
      var i :| 0 <= i < |b| && b[i] == Ascii(x);
      var left, right := b[..i], b[i + 1..];
      assert b == left + [Ascii(x)] + right;
      SplitConcat(left, Ascii(x), right);
      DecodeEachConcat(Split(left, Ascii(x)), Split(right, Ascii(x)));
      DecodeAroundAscii(left, x, right);
      SplitConcat(Decode(left), x, Decode(right));
      DecodeCommutesWithSplit(left, x);
      DecodeCommutesWithSplit(right, x);
    }
  }

  lemma {:induction false} DecodeEachConcat(a: seq<Bytes>, b: seq<Bytes>)
    ensures DecodeEach(a + b) == DecodeEach(a) + DecodeEach(b)
  {
    if |a| == 0 {
      assert a + b == b;
    } else {
      DecodeEachConcat(a[1..], b);
      TailOfConcat(a, b);
      Regroup([Decode(a[0])], DecodeEach(a[1..]), DecodeEach(b));
    }
  }

  /** An ASCII character that is not in the text has no byte in its encoding. */
  lemma {:induction false} EncodeKeepsAsciiOut(s: string, x: char)
    requires IsAscii(x) && x !in s
    ensures Ascii(x) !in Encode(s)
  {
    if |s| == 0 {
    } else {
      EncodeKeepsAsciiOut(s[1..], x);
      assert s[0] != x;
    }
  }

  lemma {:induction false} EncodeConcat(a: string, b: string)
    ensures Encode(a + b) == Encode(a) + Encode(b)
  {
    if |a| == 0 {
      assert a + b == b;
    } else {
      EncodeConcat(a[1..], b);
      TailOfConcat(a, b);
      Regroup(EncodeChar(a[0]), Encode(a[1..]), Encode(b));
    }
  }

  // ----- The tables of section 3 of RFC 3629 -----

  /** The leading bits say how many bytes follow, each of those begins with the bits 10, and the rest is the number. */
  lemma {:induction false} EncodedBits(c: char)
    ensures var v, b := c as int, EncodeChar(c);
            && |b| == (if v < 0x80 then 1 else if v < 0x800 then 2 else if v < 0x1_0000 then 3 else 4)
            && (forall i :: 0 < i < |b| ==> b[i] as int / 0x40 == 2)
            && (|b| == 1 ==> b[0] as int == v)
            && (|b| == 2 ==> b[0] as int / 0x20 == 6 && v == b[0] as int % 0x20 * 0x40 + b[1] as int % 0x40)
            && (|b| == 3 ==>
                  && b[0] as int / 0x10 == 14
                  && v == b[0] as int % 0x10 * 0x1000 + b[1] as int % 0x40 * 0x40 + b[2] as int % 0x40)
            && (|b| == 4 ==>
                  && b[0] as int / 8 == 30
                  && v == b[0] as int % 8 * 0x4_0000 + b[1] as int % 0x40 * 0x1000
                          + b[2] as int % 0x40 * 0x40 + b[3] as int % 0x40)
  {
    var v := c as int;
    if v < 0x80 {
    } else if v < 0x800 {
      TwoBits(v);
    } else if v < 0x1_0000 {
      ThreeBits(v);
    } else {
      FourBits(v);
    }
  }

  lemma {:induction false} TwoBits(v: int)
    requires 0x80 <= v < 0x800
    ensures var lead, last := 0xC0 + v / 0x40, 0x80 + v % 0x40;
            lead / 0x20 == 6 && last / 0x40 == 2 && v == lead % 0x20 * 0x40 + last % 0x40
  {
  }

  lemma {:induction false} ThreeBits(v: int)
    requires 0x800 <= v < 0x1_0000
    ensures var lead, mid, last := 0xE0 + v / 0x1000, 0x80 + v / 0x40 % 0x40, 0x80 + v % 0x40;
            && lead / 0x10 == 14 && mid / 0x40 == 2 && last / 0x40 == 2
            && v == lead % 0x10 * 0x1000 + mid % 0x40 * 0x40 + last % 0x40
  {
    var q := v / 0x40;
    assert v / 0x1000 == q / 0x40;
  }

  lemma {:induction false} FourBits(v: int)
    requires 0x1_0000 <= v < 0x11_0000
    ensures var lead, high, mid, last :=
              0xF0 + v / 0x4_0000, 0x80 + v / 0x1000 % 0x40, 0x80 + v / 0x40 % 0x40, 0x80 + v % 0x40;
            && lead / 8 == 30 && high / 0x40 == 2 && mid / 0x40 == 2 && last / 0x40 == 2
            && v == lead % 8 * 0x4_0000 + high % 0x40 * 0x1000 + mid % 0x40 * 0x40 + last % 0x40
  {
    var q1 := v / 0x40;
    var q2 := q1 / 0x40;
    assert v / 0x1000 == q2 && v / 0x4_0000 == q2 / 0x40;
  }

  /** Bytes that decode without a replacement character are well formed. */
  lemma {:induction false} NoReplacementIsWellFormed(b: Bytes)
    requires '\U{FFFD}' !in Decode(b)
    ensures WellFormed(b)
    decreases |b|
  {
    if |b| == 0 {
    } else {
      assert Decode(b)[0] == DecodeFirst(b).c;
      assert Decode(b)[1..] == Decode(b[DecodeFirst(b).length..]);
      NoReplacementIsWellFormed(b[DecodeFirst(b).length..]);
    }
  }

  /** So a word without one is read from its own encoding only. */
  lemma {:induction false} WordIsEncoded(b: Bytes, word: string)
    requires '\U{FFFD}' !in word
    ensures Decode(b) == word <==> b == Encode(word)
  {
    DecodeInvertsEncode(word);
    if Decode(b) == word {
      NoReplacementIsWellFormed(b);
      EncodeInvertsDecode(b);
    }
  }

  lemma {:induction false} DecodeStep(b: Bytes, first: Decoded, rest: Bytes)
    requires |b| > 0 && DecodeFirst(b) == first && b[first.length..] == rest
    ensures Decode(b) == [first.c] + Decode(rest)
  {
  }

  /** A byte that can begin no character is replaced by itself. */
  lemma {:induction false} StrayByteRead(x: byte, rest: Bytes)
    requires 0x80 <= x < 0xC2 || 0xF5 <= x
    ensures Decode([x] + rest) == "\U{FFFD}" + Decode(rest)
  {
    DecodeStep([x] + rest, Malformed(1), rest);
  }

  /** A character that is cut short is replaced as a whole, and what cuts it is read on its own. */
  lemma {:induction false} CutShortRead(rest: Bytes)
    requires |rest| > 0 ==> !IsTrail(rest[0])
    ensures Decode([0xC3] + rest) == "\U{FFFD}" + Decode(rest)
    ensures Decode([0xE2] + rest) == "\U{FFFD}" + Decode(rest)
    ensures Decode([0xE2, 0x82] + rest) == "\U{FFFD}" + Decode(rest)
    ensures Decode([0xF0] + rest) == "\U{FFFD}" + Decode(rest)
    ensures Decode([0xF0, 0x9F] + rest) == "\U{FFFD}" + Decode(rest)
    ensures Decode([0xF0, 0x9F, 0x98] + rest) == "\U{FFFD}" + Decode(rest)
  {
    DecodeStep([0xC3] + rest, Malformed(1), rest);
    DecodeStep([0xE2] + rest, Malformed(1), rest);
    DecodeStep([0xE2, 0x82] + rest, Malformed(2), rest);
    DecodeStep([0xF0] + rest, Malformed(1), rest);
    DecodeStep([0xF0, 0x9F] + rest, Malformed(2), rest);
    DecodeStep([0xF0, 0x9F, 0x98] + rest, Malformed(3), rest);
  }

  /** Overlong forms, surrogates and numbers above U+10FFFF are not read: their first byte stands alone. */
  lemma {:induction false} ImpossibleRead(x: byte, rest: Bytes)
    ensures 0x80 <= x < 0xA0 ==> Decode([0xE0, x] + rest) == "\U{FFFD}" + Decode([x] + rest)
    ensures 0xA0 <= x < 0xC0 ==> Decode([0xED, x] + rest) == "\U{FFFD}" + Decode([x] + rest)
    ensures 0x80 <= x < 0x90 ==> Decode([0xF0, x] + rest) == "\U{FFFD}" + Decode([x] + rest)
    ensures 0x90 <= x < 0xC0 ==> Decode([0xF4, x] + rest) == "\U{FFFD}" + Decode([x] + rest)
  {
    assert ([0xE0, x] + rest)[1..] == [x] + rest && ([0xED, x] + rest)[1..] == [x] + rest;
    assert ([0xF0, x] + rest)[1..] == [x] + rest && ([0xF4, x] + rest)[1..] == [x] + rest;
  }
}

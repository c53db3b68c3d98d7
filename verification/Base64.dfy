/** Base64 of components/kvs_utils/src/base64.c: encoding and decoding against the 24-bit groups of
    section 4 of RFC 4648. In the encoder the shifts and masks of bytes are divisions and remainders; the
    decoder's shifts and ors are those of bit vectors. */
module Base64 {
  import opened Common

  datatype Status = Success | NullArg | InvalidArgLen | BufferTooSmall | InvalidEncoding

  const TWO_TO_THE_32 := 0x1_0000_0000
  const PAD: Byte := 0x3D

  // ---------------------------------------------------------------- the tables

  /** Sixteen characters of BASE64_ENCODE_ALPHA. */
  function EncodeRow(r: nat): (row: string)
    ensures |row| == 16
  {
    match r
    case 0 => "ABCDEFGHIJKLMNOP"
    case 1 => "QRSTUVWXYZabcdef"
    case 2 => "ghijklmnopqrstuv"
    case _ => "wxyz0123456789+/"
  }

  /** Ten entries of BASE64_DECODE_ALPHA. */
  function DecodeRow(r: nat): (row: seq<Byte>)
    ensures |row| == 10
  {
    match r
    case 4 => [0, 0, 0, 62, 0, 0, 0, 63, 52, 53]
    case 5 => [54, 55, 56, 57, 58, 59, 60, 61, 0, 0]
    case 6 => [0, 0, 0, 0, 0, 0, 1, 2, 3, 4]
    case 7 => [5, 6, 7, 8, 9, 10, 11, 12, 13, 14]
    case 8 => [15, 16, 17, 18, 19, 20, 21, 22, 23, 24]
    case 9 => [25, 0, 0, 0, 0, 0, 0, 26, 27, 28]
    case 10 => [29, 30, 31, 32, 33, 34, 35, 36, 37, 38]
    case 11 => [39, 40, 41, 42, 43, 44, 45, 46, 47, 48]
    case 12 => [49, 50, 51, 0, 0, 0, 0, 0, 0, 0]
    case _ => [0, 0, 0, 0, 0, 0, 0, 0, 0, 0]
  }

  function DecodeAlpha(c: Byte): Byte { DecodeRow(c / 10)[c % 10] }

  /** The digit of value v (table 1 of RFC 4648). */
  function Digit(v: nat): Byte
    requires v < 64
  {
    if v < 26 then 0x41 + v else if v < 52 then 0x61 + v - 26 else if v < 62 then 0x30 + v - 52
    else if v == 62 then 0x2B else 0x2F
  }

  function EncodeAlpha(v: nat): (c: Byte)
    requires v < 64
    ensures c == Digit(v)
  {
    AlphabetIsDigits(v);
    EncodeRow(v / 16)[v % 16] as int
  }

  lemma AlphabetIsDigits(v: nat)
    requires v < 64
    ensures EncodeRow(v / 16)[v % 16] as int == Digit(v)
  {
    var row := EncodeRow(v / 16);
    match v % 16
    case 0 => assert row[0] == row[v % 16];
    case 1 => assert row[1] == row[v % 16];
    case 2 => assert row[2] == row[v % 16];
    case 3 => assert row[3] == row[v % 16];
    case 4 => assert row[4] == row[v % 16];
    case 5 => assert row[5] == row[v % 16];
    case 6 => assert row[6] == row[v % 16];
    case 7 => assert row[7] == row[v % 16];
    case 8 => assert row[8] == row[v % 16];
    case 9 => assert row[9] == row[v % 16];
    case 10 => assert row[10] == row[v % 16];
    case 11 => assert row[11] == row[v % 16];
    case 12 => assert row[12] == row[v % 16];
    case 13 => assert row[13] == row[v % 16];
    case 14 => assert row[14] == row[v % 16];
    case 15 => assert row[15] == row[v % 16];
  }

  lemma DecodeDigit(v: nat)
    requires v < 64
    ensures DecodeAlpha(Digit(v)) == v && Digit(v) != PAD && Digit(v) != 0
  {}

  lemma DecodeSmall(c: Byte)
    ensures DecodeAlpha(c) < 64
  {}

  // ---------------------------------------------------------------- section 4 of RFC 4648

  /** The 24 bits of three bytes. */
  function Bits(a: Byte, b: Byte, c: Byte): (v: nat)
    ensures v < 0x100_0000
  {
    a * 0x1_0000 + b * 0x100 + c
  }

  /** Sextet i of 24 bits, from the left. */
  function Sextet(v: nat, i: nat): (x: nat)
    requires v < 0x100_0000 && i < 4
    ensures x < 64
  {
    (if i == 0 then v / 0x4_0000 else if i == 1 then v / 0x1000 else if i == 2 then v / 0x40 else v) % 64
  }

  /** The digits of the first n sextets of a group, padded to four. */
  function Quad(v: nat, n: nat): (q: seq<Byte>)
    requires v < 0x100_0000 && 2 <= n <= 4
    ensures |q| == 4
  {
    [Digit(Sextet(v, 0)), Digit(Sextet(v, 1)), if n > 2 then Digit(Sextet(v, 2)) else PAD,
     if n > 3 then Digit(Sextet(v, 3)) else PAD]
  }

  /** Four digits for each group of three bytes, the last one of one to three. */
  function EncodedLength(n: nat): nat { if n == 0 then 0 else if n <= 3 then 4 else 4 + EncodedLength(n - 3) }

  lemma {:induction false} EncodedLengthIs(n: nat)
    ensures EncodedLength(n) == (n + 2) / 3 * 4
  {
    if n > 3 { EncodedLengthIs(n - 3); }
  }

  /** The encoding: full groups of three bytes, the last one filled with zero bits. */
  function Encoded(s: seq<Byte>): (e: seq<Byte>)
    ensures |e| == EncodedLength(|s|)
  {
    hide Quad, Bits;
    if s == [] then []
    else if |s| == 1 then Quad(Bits(s[0], 0, 0), 2)
    else if |s| == 2 then Quad(Bits(s[0], s[1], 0), 3)
    else Quad(Bits(s[0], s[1], s[2]), 4) + Encoded(s[3..])
  }

  /** The 24 bits of four digits; what is not a digit counts as zero. */
  function Joined(a: Byte, b: Byte, c: Byte, d: Byte): nat {
    DecodeAlpha(a) * 0x4_0000 + DecodeAlpha(b) * 0x1000 + DecodeAlpha(c) * 0x40 + DecodeAlpha(d)
  }

  /** Byte i of 24 bits, from the left. */
  function Octet(v: nat, i: nat): Byte
    requires i < 3
  {
    (if i == 0 then v / 0x1_0000 else if i == 1 then v / 0x100 else v) % 256
  }

  /** Three bytes for each four digits, and one or two for two or three. */
  function DecodedLength(n: nat): nat { if n < 2 then 0 else if n < 5 then n - 1 else 3 + DecodedLength(n - 4) }

  lemma {:induction false} DecodedLengthIs(n: nat)
    ensures DecodedLength(n) == 3 * n / 4
  {
    if n >= 5 { DecodedLengthIs(n - 4); }
  }

  /** What a string of digits without padding stands for. */
  function Decoded(t: seq<Byte>): (s: seq<Byte>)
    ensures |s| == DecodedLength(|t|)
  {
    hide Octet, Joined;
    if |t| < 2 then []
    else if |t| == 2 then [Octet(Joined(t[0], t[1], 0, 0), 0)]
    else if |t| == 3 then
      var v := Joined(t[0], t[1], t[2], 0);
      [Octet(v, 0), Octet(v, 1)]
    else
      var v := Joined(t[0], t[1], t[2], t[3]);
      [Octet(v, 0), Octet(v, 1), Octet(v, 2)] + Decoded(t[4..])
  }

  /** t without one '=' at its end, and then without another. */
  function Stripped(t: seq<Byte>): (r: seq<Byte>)
    requires |t| >= 2
  {
    var t1 := if t[|t| - 1] == PAD then t[..|t| - 1] else t;
    if t1[|t1| - 1] == PAD then t1[..|t1| - 1] else t1
  }

  // ---------------------------------------------------------------- the shifts

  lemma Quotient(v: nat, d: nat, q: nat, r: nat)
    requires d > 0 && v == q * d + r && r < d
    ensures v / d == q
  {
    if v / d < q { Ordered(v / d + 1, q, d); } else if v / d > q { Ordered(q + 1, v / d, d); }
  }

  lemma Ordered(a: nat, b: nat, d: nat)
    requires a <= b
    ensures a * d <= b * d
  {}

  /** The shifts and masks of the encoder pick the sextets. */
  lemma EncodeShifts(a: Byte, b: Byte, c: Byte)
    ensures var v := Bits(a, b, c);
      && Sextet(v, 0) == a / 4
      && Sextet(v, 1) == (a % 4) * 16 + b / 16
      && Sextet(v, 2) == (b % 16) * 4 + c / 64
      && Sextet(v, 3) == c % 64
  {
    var v := Bits(a, b, c);
    Quotient(v, 0x4_0000, a / 4, (a % 4) * 0x1_0000 + b * 0x100 + c);
    Quotient(v, 0x1000, a * 16 + b / 16, (b % 16) * 0x100 + c);
    Quotient(v, 0x40, a * 1024 + b * 4 + c / 64, c % 64);
    Remainders(a, b, c);
  }

  lemma Remainders(a: Byte, b: Byte, c: Byte)
    ensures (a / 4) % 64 == a / 4
    ensures (a * 16 + b / 16) % 64 == (a % 4) * 16 + b / 16
    ensures (a * 1024 + b * 4 + c / 64) % 64 == (b % 16) * 4 + c / 64
    ensures Bits(a, b, c) % 64 == c % 64
  {}

  /** What the shifts of the decoder leave in a byte adds up to the octets. */
  lemma DecodeShifts(a: nat, b: nat, c: nat, d: nat)
    requires a < 64 && b < 64 && c < 64 && d < 64
    ensures var v := a * 0x4_0000 + b * 0x1000 + c * 0x40 + d;
      && Octet(v, 0) == (a * 4) % 256 + b / 16
      && Octet(v, 1) == (b * 16) % 256 + c / 4
      && Octet(v, 2) == (c * 64) % 256 + d
  {
    var v := a * 0x4_0000 + b * 0x1000 + c * 0x40 + d;
    Quotient(v, 0x1_0000, a * 4 + b / 16, (b % 16) * 0x1000 + c * 0x40 + d);
    Quotient(v, 0x100, a * 0x400 + b * 16 + c / 4, (c % 4) * 0x40 + d);
    Shifted(a, 4, b / 16, 0);
    Shifted(b, 16, c / 4, a * 4);
    Shifted(c, 64, d, a * 0x400 + b * 16);
  }

  /** What a byte keeps of a sum of parts that do not overlap. */
  lemma Shifted(x: nat, unit: nat, low: nat, above: nat)
    requires x < 64 && (unit == 4 || unit == 16 || unit == 64) && low < unit
    ensures (above * 256 + x * unit + low) % 256 == (x * unit) % 256 + low
  {}

  // ---------------------------------------------------------------- base64Encode

  function Padding(n: nat): nat { if n % 3 == 0 then 0 else if n % 3 == 1 then 2 else 1 }

  /** A 32-bit unsigned value. */
  function U32(x: nat): nat { x % TWO_TO_THE_32 }

  lemma SizeIs(n: nat)
    requires 4 * (n + 2) < TWO_TO_THE_32
    ensures U32(4 * (n + Padding(n))) / 3 + 1 == (n + 2) / 3 * 4 + 1
  {}

  /** Writes the digits of the first n sextets of a group at position o, with shifts and masks. */
  method WriteQuad(output: array<Byte>, o: nat, b0: Byte, b1: Byte, b2: Byte, n: nat)
    requires o + 4 <= output.Length && 2 <= n <= 4 && (n < 4 ==> b2 == 0) && (n < 3 ==> b1 == 0)
    modifies output
    ensures output[o..o + 4] == Quad(Bits(b0, b1, b2), n)
    ensures output[..o] == old(output[..o]) && output[o + 4..] == old(output[o + 4..])
  {
    EncodeShifts(b0, b1, b2);
    hide Bits, Sextet, Digit, EncodeAlpha;
    output[o] := EncodeAlpha(b0 / 4);
    output[o + 1] := EncodeAlpha((b0 % 4) * 16 + b1 / 16);
    output[o + 2] := if n > 2 then EncodeAlpha((b1 % 16) * 4 + b2 / 64) else PAD;
    output[o + 3] := if n > 3 then EncodeAlpha(b2 % 64) else PAD;
  }

  /** base64Encode. Without an output it reports the size, the terminator included. */
  method Encode(input: array?<Byte>, inputLength: nat, output: array?<Byte>, room: nat) returns (status: Status, outputLength: nat)
    requires input != null ==> inputLength <= input.Length && 4 * (inputLength + 2) < TWO_TO_THE_32
    requires output != null ==> room <= output.Length && output != input
    modifies output
    ensures status ==
      if input == null then NullArg
      else if inputLength == 0 then InvalidArgLen
      else if output != null && room < |Encoded(input[..inputLength])| + 1 then BufferTooSmall
      else Success
    ensures status == Success ==> outputLength == |Encoded(input[..inputLength])| + 1
    ensures status == Success && output != null ==>
      output[..outputLength] == Encoded(input[..inputLength]) + [0] && output[outputLength..] == old(output[outputLength..])
    ensures status != Success && output != null ==> output[..] == old(output[..])
  {
    outputLength := 0;
    if input == null { return NullArg, 0; }
    if inputLength == 0 { return InvalidArgLen, 0; }
    var padding := Padding(inputLength);
    outputLength := U32(4 * (inputLength + padding)) / 3 + 1;
    SizeIs(inputLength);
    EncodedLengthIs(inputLength);
    if output == null { return Success, outputLength; }
    if room < outputLength { return BufferTooSmall, outputLength; }
    EncodeInto(input, inputLength, output);
    output[outputLength - 1] := 0;
    status := Success;
  }

  /** The loop over full groups, and the padded last one. */
  method EncodeInto(input: array<Byte>, inputLength: nat, output: array<Byte>)
    requires inputLength <= input.Length && output != input && |Encoded(input[..inputLength])| <= output.Length
    modifies output
    ensures var e := Encoded(input[..inputLength]);
      output[..|e|] == e && output[|e|..] == old(output[|e|..])
  {
    hide Encoded, Quad, Bits;
    ghost var s := input[..inputLength];
    ghost var done: seq<Byte> := [];
    var i, o := 0, 0;
    assert s[0..] == s && [] + Encoded(s) == Encoded(s);
    while inputLength >= 3 && i <= inputLength - 3
      invariant i <= inputLength == |s| && s == input[..inputLength]
      invariant o == |done| && done + Encoded(s[i..]) == Encoded(s)
      invariant output[..o] == done && output[|Encoded(s)|..] == old(output[|Encoded(s)|..])
    {
      EncodedStep(s[i..]);
      assert s[i..][3..] == s[i + 3..];
      ghost var q := Quad(Bits(s[i], s[i + 1], s[i + 2]), 4);
      assert (done + q) + Encoded(s[i + 3..]) == done + (q + Encoded(s[i + 3..]));
      WriteGroup(output, o, input[i], input[i + 1], input[i + 2], done, |Encoded(s)|);
      done := done + q;
      i, o := i + 3, o + 4;
    }
    EncodeRest(input, i, inputLength, output, o);
    Assembled(output[..], done, Encoded(s[i..]));
    assert s[i..] == input[i..inputLength];
  }

  /** One full group, which continues what is done. */
  method WriteGroup(output: array<Byte>, o: nat, b0: Byte, b1: Byte, b2: Byte, ghost done: seq<Byte>, ghost size: nat)
    requires o + 4 <= size <= output.Length && output[..o] == done
    modifies output
    ensures output[..o + 4] == done + Quad(Bits(b0, b1, b2), 4)
    ensures output[size..] == old(output[size..])
  {
    hide Quad, Bits;
    ghost var rest := output[o + 4..][size - o - 4..];
    assert rest == output[size..];
    WriteQuad(output, o, b0, b1, b2, 4);
    assert output[size..] == output[o + 4..][size - o - 4..];
    assert output[..o + 4] == output[..o] + output[o..o + 4];
  }

  lemma Assembled(output: seq<Byte>, done: seq<Byte>, last: seq<Byte>)
    requires |done| + |last| <= |output| && output[..|done|] == done && output[|done|..][..|last|] == last
    ensures output[..|done| + |last|] == done + last
  {}

  /** The one or two bytes behind the last full group. */
  method EncodeRest(input: array<Byte>, i: nat, inputLength: nat, output: array<Byte>, o: nat)
    requires i <= inputLength <= i + 2 && inputLength <= input.Length && output != input
    requires o + |Encoded(input[i..inputLength])| <= output.Length
    modifies output
    ensures var e := Encoded(input[i..inputLength]);
      output[..o] == old(output[..o]) && output[o..][..|e|] == e && output[o + |e|..] == old(output[o + |e|..])
  {
    EncodedStep(input[i..inputLength]);
    hide Encoded, Quad, Bits;
    if i + 2 == inputLength {
      WriteQuad(output, o, input[i], input[i + 1], 0, 3);
      assert output[o..][..4] == output[o..o + 4];
    } else if i + 1 == inputLength {
      WriteQuad(output, o, input[i], 0, 0, 2);
      assert output[o..][..4] == output[o..o + 4];
    }
  }

  lemma EncodedStep(s: seq<Byte>)
    ensures s == [] ==> Encoded(s) == []
    ensures |s| == 1 ==> Encoded(s) == Quad(Bits(s[0], 0, 0), 2)
    ensures |s| == 2 ==> Encoded(s) == Quad(Bits(s[0], s[1], 0), 3)
    ensures |s| >= 3 ==> Encoded(s) == Quad(Bits(s[0], s[1], s[2]), 4) + Encoded(s[3..])
  {}

  // ---------------------------------------------------------------- base64Decode

  /** hi shifted left in a byte, or-ed with lo shifted right. */
  function Or(hi: Byte, left: nat, lo: Byte, right: nat): Byte
    requires left < 8 && right < 8
  {
    (((hi as bv8) << left) | ((lo as bv8) >> right)) as Byte
  }

  /** Numbers and bit vectors: the shifts, and an or of what has no bits in common. */
  lemma Sextets(x: Byte)
    requires x < 64
    ensures (x as bv8) as int == x
  {}

  lemma LeftIs(x: bv8)
    ensures (x << 2) as int == (x as int * 4) % 256
    ensures (x << 4) as int == (x as int * 16) % 256
    ensures (x << 6) as int == (x as int * 64) % 256
  {}

  lemma RightIs(x: bv8)
    ensures (x >> 4) as int == x as int / 16
    ensures (x >> 2) as int == x as int / 4
    ensures (x >> 0) as int == x as int
  {}

  lemma DisjointOr(a: bv8, b: bv8)
    requires a & b == 0
    ensures (a | b) as int == a as int + b as int
  {}

  /** For sextets the or is a sum, because what the shifts leave does not overlap. */
  lemma OrIsSum(hi: Byte, lo: Byte)
    requires hi < 64 && lo < 64
    ensures Or(hi, 2, lo, 4) == (hi * 4) % 256 + lo / 16
    ensures Or(hi, 4, lo, 2) == (hi * 16) % 256 + lo / 4
    ensures Or(hi, 6, lo, 0) == (hi * 64) % 256 + lo
  {
    var h, l := hi as bv8, lo as bv8;
    Sextets(hi);
    Sextets(lo);
    LeftIs(h);
    RightIs(l);
    SextetsDisjoint(h, l);
    DisjointOr(h << 2, l >> 4);
    DisjointOr(h << 4, l >> 2);
    DisjointOr(h << 6, l >> 0);
  }

  lemma SextetsDisjoint(h: bv8, l: bv8)
    requires l < 64
    ensures (h << 2) & (l >> 4) == 0 && (h << 4) & (l >> 2) == 0 && (h << 6) & (l >> 0) == 0
  {}

  /** The bytes of one group of n digits, at position o. */
  method WriteOctets(output: array<Byte>, o: nat, c0: Byte, c1: Byte, c2: Byte, c3: Byte, n: nat)
    requires 2 <= n <= 4 && o + n - 1 <= output.Length && (n < 4 ==> c3 == 0) && (n < 3 ==> c2 == 0)
    modifies output
    ensures var v := Joined(c0, c1, c2, c3);
      output[o..o + n - 1] == [Octet(v, 0), Octet(v, 1), Octet(v, 2)][..n - 1]
    ensures output[..o] == old(output[..o]) && output[o + n - 1..] == old(output[o + n - 1..])
  {
    DecodeSmall(c0);
    DecodeSmall(c1);
    DecodeSmall(c2);
    DecodeSmall(c3);
    var b0, b1, b2, b3 := DecodeAlpha(c0), DecodeAlpha(c1), DecodeAlpha(c2), DecodeAlpha(c3);
    OctetsAreOrs(c0, c1, c2, c3);
    hide DecodeAlpha, Octet, Joined, Or;
    output[o] := Or(b0, 2, b1, 4);
    if n > 2 { output[o + 1] := Or(b1, 4, b2, 2); }
    if n > 3 { output[o + 2] := Or(b2, 6, b3, 0); }
  }

  lemma OctetsAreOrs(c0: Byte, c1: Byte, c2: Byte, c3: Byte)
    requires DecodeAlpha(c0) < 64 && DecodeAlpha(c1) < 64 && DecodeAlpha(c2) < 64 && DecodeAlpha(c3) < 64
    ensures var v := Joined(c0, c1, c2, c3);
      && Octet(v, 0) == Or(DecodeAlpha(c0), 2, DecodeAlpha(c1), 4)
      && Octet(v, 1) == Or(DecodeAlpha(c1), 4, DecodeAlpha(c2), 2)
      && Octet(v, 2) == Or(DecodeAlpha(c2), 6, DecodeAlpha(c3), 0)
  {
    hide DecodeAlpha, Octet, Or;
    OrIsSum(DecodeAlpha(c0), DecodeAlpha(c1));
    OrIsSum(DecodeAlpha(c1), DecodeAlpha(c2));
    OrIsSum(DecodeAlpha(c2), DecodeAlpha(c3));
    DecodeShifts(DecodeAlpha(c0), DecodeAlpha(c1), DecodeAlpha(c2), DecodeAlpha(c3));
  }

  /** base64Decode of a NUL-terminated string; a length of 0 asks for strlen. Without an output it
      reports the size. */
  method Decode(input: seq<Byte>, inputLength: nat, output: array?<Byte>, room: nat) returns (status: Status, outputLength: nat)
    requires inputLength <= |input| && 3 * |input| < TWO_TO_THE_32 && forall k | 0 <= k < |input| :: input[k] != 0
    requires output != null ==> room <= output.Length
    modifies output
    ensures var t := if inputLength != 0 then input[..inputLength] else input;
      if |t| < 2 then status == InvalidArgLen
      else if |Stripped(t)| % 4 == 1 then status == InvalidEncoding
      else if output != null && room < |Decoded(Stripped(t))| then status == BufferTooSmall
      else status == Success && outputLength == |Decoded(Stripped(t))|
    ensures status == Success && output != null ==>
      var t := if inputLength != 0 then input[..inputLength] else input;
      output[..outputLength] == Decoded(Stripped(t)) && output[outputLength..] == old(output[outputLength..])
    ensures status != Success && output != null ==> output[..] == old(output[..])
  {
    hide Decoded, DecodedLength;
    ghost var t := if inputLength != 0 then input[..inputLength] else input;
    var n := if inputLength != 0 then inputLength else |input|;
    outputLength := 0;
    if n < 2 { return InvalidArgLen, 0; }
    if input[n - 1] == PAD { n := n - 1; }
    if input[n - 1] == PAD { n := n - 1; }
    assert input[..n] == Stripped(t);
    hide Stripped;
    if n % 4 == 1 { return InvalidEncoding, 0; }
    outputLength := U32(3 * n) / 4;
    DecodedLengthIs(n);
    if output == null { return Success, outputLength; }
    if room < outputLength { return BufferTooSmall, outputLength; }
    DecodeInto(input[..n], output);
    status := Success;
  }

  /** The loop over full groups, and what is left of the last one. */
  method DecodeInto(t: seq<Byte>, output: array<Byte>)
    requires |Decoded(t)| <= output.Length && |t| % 4 != 1
    modifies output
    ensures var d := Decoded(t);
      output[..|d|] == d && output[|d|..] == old(output[|d|..])
  {
    hide Decoded, Joined, Octet;
    var i, o, n := 0, 0, |t|;
    ghost var done: seq<Byte> := [];
    assert t[0..] == t && [] + Decoded(t) == Decoded(t);
    while n >= 4 && i <= n - 4
      invariant i <= n && (n - i) % 4 != 1
      invariant o == |done| && done + Decoded(t[i..]) == Decoded(t)
      invariant output[..o] == done && output[|Decoded(t)|..] == old(output[|Decoded(t)|..])
    {
      DecodedStep(t[i..]);
      assert t[i..][4..] == t[i + 4..];
      ghost var v := Joined(t[i], t[i + 1], t[i + 2], t[i + 3]);
      ghost var q := [Octet(v, 0), Octet(v, 1), Octet(v, 2)];
      assert (done + q) + Decoded(t[i + 4..]) == done + (q + Decoded(t[i + 4..]));
      WriteThree(output, o, t[i], t[i + 1], t[i + 2], t[i + 3], done, |Decoded(t)|);
      done := done + q;
      i, o := i + 4, o + 3;
    }
    DecodeRest(t, i, output, o);
    Assembled(output[..], done, Decoded(t[i..]));
  }

  /** One full group, which continues what is done. */
  method WriteThree(output: array<Byte>, o: nat, c0: Byte, c1: Byte, c2: Byte, c3: Byte, ghost done: seq<Byte>, ghost size: nat)
    requires o + 3 <= size <= output.Length && output[..o] == done
    modifies output
    ensures var v := Joined(c0, c1, c2, c3);
      output[..o + 3] == done + [Octet(v, 0), Octet(v, 1), Octet(v, 2)]
    ensures output[size..] == old(output[size..])
  {
    hide Joined, Octet;
    ghost var rest := output[o + 3..][size - o - 3..];
    assert rest == output[size..];
    WriteOctets(output, o, c0, c1, c2, c3, 4);
    assert output[size..] == output[o + 3..][size - o - 3..];
    assert output[..o + 3] == output[..o] + output[o..o + 3];
  }

  /** The two or three digits behind the last full group. */
  method DecodeRest(t: seq<Byte>, i: nat, output: array<Byte>, o: nat)
    requires i <= |t| <= i + 3 && |t| != i + 1 && o + |Decoded(t[i..])| <= output.Length
    modifies output
    ensures var d := Decoded(t[i..]);
      output[..o] == old(output[..o]) && output[o..][..|d|] == d && output[o + |d|..] == old(output[o + |d|..])
  {
    DecodedStep(t[i..]);
    hide Decoded, Joined, Octet;
    if i + 3 == |t| {
      WriteOctets(output, o, t[i], t[i + 1], t[i + 2], 0, 3);
      assert output[o..][..2] == output[o..o + 2];
    } else if i + 2 == |t| {
      WriteOctets(output, o, t[i], t[i + 1], 0, 0, 2);
      assert output[o..][..1] == output[o..o + 1];
    }
  }

  lemma DecodedStep(t: seq<Byte>)
    ensures |t| < 2 ==> Decoded(t) == []
    ensures |t| == 2 ==> Decoded(t) == [Octet(Joined(t[0], t[1], 0, 0), 0)]
    ensures |t| == 3 ==> Decoded(t) == [Octet(Joined(t[0], t[1], t[2], 0), 0), Octet(Joined(t[0], t[1], t[2], 0), 1)]
    ensures |t| >= 4 ==> var v := Joined(t[0], t[1], t[2], t[3]);
      Decoded(t) == [Octet(v, 0), Octet(v, 1), Octet(v, 2)] + Decoded(t[4..])
  {}

  // ---------------------------------------------------------------- the round trip

  /** The encoding without its padding. */
  function Unpadded(s: seq<Byte>): seq<Byte> {
    if s == [] then []
    else if |s| == 1 then Quad(Bits(s[0], 0, 0), 2)[..2]
    else if |s| == 2 then Quad(Bits(s[0], s[1], 0), 3)[..3]
    else Quad(Bits(s[0], s[1], s[2]), 4) + Unpadded(s[3..])
  }

  function Pads(n: nat): seq<Byte> { if Padding(n) == 0 then [] else if Padding(n) == 1 then [PAD] else [PAD, PAD] }

  lemma QuadIs(v: nat, n: nat)
    requires v < 0x100_0000 && 2 <= n <= 4
    ensures Quad(v, n) == Quad(v, n)[..n] + (if n == 2 then [PAD, PAD] else if n == 3 then [PAD] else [])
    ensures forall i | 0 <= i < n :: Quad(v, n)[i] == Digit(Sextet(v, i)) && Quad(v, n)[i] != PAD && Quad(v, n)[i] != 0
  {}

  /** The encoding is digits and then the padding. */
  lemma {:induction false} EncodedIsPadded(s: seq<Byte>)
    ensures Encoded(s) == Unpadded(s) + Pads(|s|)
    ensures s != [] ==> Unpadded(s) != [] && forall c | c in Unpadded(s) :: c != PAD && c != 0
  {
    hide Encoded, Unpadded, Quad, Bits, Padding, Pads;
    EncodedStep(s);
    UnpaddedIs(s);
    NothingUnpadded();
    ShortPads();
    if |s| == 1 {
      QuadIs(Bits(s[0], 0, 0), 2);
    } else if |s| == 2 {
      QuadIs(Bits(s[0], s[1], 0), 3);
    } else if |s| >= 3 {
      var q, rest := Quad(Bits(s[0], s[1], s[2]), 4), s[3..];
      QuadIs(Bits(s[0], s[1], s[2]), 4);
      EncodedIsPadded(rest);
      PadsStep(|s|);
      assert q + (Unpadded(rest) + Pads(|s|)) == (q + Unpadded(rest)) + Pads(|s|);
      forall c | c in Unpadded(s) ensures c != PAD && c != 0 {
        assert c in q || c in Unpadded(rest);
      }
    }
  }

  lemma ShortPads()
    ensures Pads(0) == [] && Pads(1) == [PAD, PAD] && Pads(2) == [PAD]
  {}

  lemma PadsStep(n: nat)
    requires n >= 3
    ensures Pads(n - 3) == Pads(n)
  {}

  lemma NothingUnpadded()
    ensures Unpadded([]) == []
  {}

  /** Three bytes come back from the sextets of their bits. */
  lemma BitsComeBack(a: Byte, b: Byte, c: Byte)
    ensures var v := Bits(a, b, c);
      && v == Sextet(v, 0) * 0x4_0000 + Sextet(v, 1) * 0x1000 + Sextet(v, 2) * 0x40 + Sextet(v, 3)
      && Octet(v, 0) == a && Octet(v, 1) == b && Octet(v, 2) == c
  {
    EncodeShifts(a, b, c);
    hide Sextet;
    Quotient(Bits(a, b, c), 0x1_0000, a, b * 0x100 + c);
    Quotient(Bits(a, b, c), 0x100, a * 0x100 + b, c);
  }

  lemma JoinedDigits(v: nat, x0: nat, x1: nat, x2: nat, x3: nat)
    requires x0 < 64 && x1 < 64 && x2 < 64 && x3 < 64
    ensures Joined(Digit(x0), Digit(x1), Digit(x2), Digit(x3)) == x0 * 0x4_0000 + x1 * 0x1000 + x2 * 0x40 + x3
    ensures Joined(Digit(x0), Digit(x1), Digit(x2), 0) == x0 * 0x4_0000 + x1 * 0x1000 + x2 * 0x40
    ensures Joined(Digit(x0), Digit(x1), 0, 0) == x0 * 0x4_0000 + x1 * 0x1000
  {
    DecodeDigit(x0);
    DecodeDigit(x1);
    DecodeDigit(x2);
    DecodeDigit(x3);
    assert DecodeAlpha(0) == 0;
    hide DecodeAlpha, Digit;
  }

  /** The sextets a short group leaves out are zero. */
  lemma ShortGroups(a: Byte, b: Byte)
    ensures Sextet(Bits(a, b, 0), 3) == 0
    ensures Sextet(Bits(a, 0, 0), 2) == 0 && Sextet(Bits(a, 0, 0), 3) == 0
  {}

  /** The digits of a group decode to its bytes. */
  lemma QuadDecodes(a: Byte, b: Byte, c: Byte, n: nat)
    requires 2 <= n <= 4 && (n < 4 ==> c == 0) && (n < 3 ==> b == 0)
    ensures var q := Quad(Bits(a, b, c), n);
      Joined(q[0], q[1], if n > 2 then q[2] else 0, if n > 3 then q[3] else 0) == Bits(a, b, c)
  {
    var v := Bits(a, b, c);
    BitsComeBack(a, b, c);
    JoinedDigits(v, Sextet(v, 0), Sextet(v, 1), Sextet(v, 2), Sextet(v, 3));
    ShortGroups(a, b);
    hide Sextet, Joined, Digit, Bits;
  }

  lemma OneByteDecodes(a: Byte)
    ensures Decoded(Quad(Bits(a, 0, 0), 2)[..2]) == [a]
  {
    QuadDecodes(a, 0, 0, 2);
    BitsComeBack(a, 0, 0);
    DecodedStep(Quad(Bits(a, 0, 0), 2)[..2]);
    hide Decoded, Quad, Bits, Joined, Octet;
  }

  lemma TwoBytesDecode(a: Byte, b: Byte)
    ensures Decoded(Quad(Bits(a, b, 0), 3)[..3]) == [a, b]
  {
    QuadDecodes(a, b, 0, 3);
    BitsComeBack(a, b, 0);
    DecodedStep(Quad(Bits(a, b, 0), 3)[..3]);
    hide Decoded, Quad, Bits, Joined, Octet;
  }

  lemma GroupDecodes(a: Byte, b: Byte, c: Byte, rest: seq<Byte>)
    ensures Decoded(Quad(Bits(a, b, c), 4) + rest) == [a, b, c] + Decoded(rest)
  {
    QuadDecodes(a, b, c, 4);
    BitsComeBack(a, b, c);
    var t := Quad(Bits(a, b, c), 4) + rest;
    DecodedStep(t);
    hide Decoded, Quad, Bits, Joined, Octet;
    assert t[4..] == rest;
  }

  lemma {:induction false} UnpaddedDecodes(s: seq<Byte>)
    ensures Decoded(Unpadded(s)) == s
  {
    UnpaddedIs(s);
    if s == [] {
      NothingUnpadded();
      DecodedStep([]);
    } else if |s| == 1 {
      OneByteDecodes(s[0]);
    } else if |s| == 2 {
      TwoBytesDecode(s[0], s[1]);
    } else {
      UnpaddedDecodes(s[3..]);
      GroupDecodes(s[0], s[1], s[2], Unpadded(s[3..]));
      hide Unpadded, Decoded, Quad, Bits;
      assert s == [s[0], s[1], s[2]] + s[3..];
    }
    hide Unpadded, Decoded, Quad, Bits;
  }

  lemma UnpaddedIs(s: seq<Byte>)
    ensures |s| == 1 ==> Unpadded(s) == Quad(Bits(s[0], 0, 0), 2)[..2]
    ensures |s| == 2 ==> Unpadded(s) == Quad(Bits(s[0], s[1], 0), 3)[..3]
    ensures |s| >= 3 ==> Unpadded(s) == Quad(Bits(s[0], s[1], s[2]), 4) + Unpadded(s[3..])
  {}

  lemma StrippedIs(u: seq<Byte>, n: nat)
    requires u != [] && u[|u| - 1] != PAD && |u + Pads(n)| >= 2
    ensures Stripped(u + Pads(n)) == u
  {}

  lemma UnpaddedLength(n: nat, u: nat)
    requires u + Padding(n) == (n + 2) / 3 * 4
    ensures u % 4 != 1
  {}

  /** Decoding the encoding of any non-empty bytes gives exactly them back: it is a string without NUL
      that the decoder accepts. */
  lemma RoundTrip(s: seq<Byte>)
    requires s != []
    ensures |Encoded(s)| >= 2 && Decoded(Stripped(Encoded(s))) == s
    ensures |Stripped(Encoded(s))| % 4 != 1 && forall c | c in Encoded(s) :: c != 0
  {
    EncodedIsPadded(s);
    UnpaddedDecodes(s);
    var u := Unpadded(s);
    hide Encoded, Unpadded, Decoded, Stripped, Padding;
    assert u[|u| - 1] in u;
    EncodedLengthIs(|s|);
    assert |u| + Padding(|s|) == (|s| + 2) / 3 * 4 by { assert |Pads(|s|)| == Padding(|s|) by { PadsLength(|s|); } }
    UnpaddedLength(|s|, |u|);
    hide Pads;
    assert |Encoded(s)| >= 2;
    StrippedIs(u, |s|);
    PadsNoNul(|s|);
  }

  lemma PadsLength(n: nat)
    ensures |Pads(n)| == Padding(n)
  {}

  lemma PadsNoNul(n: nat)
    ensures forall c | c in Pads(n) :: c != 0
  {}

  /** ... so that no two byte strings have the same encoding. */
  lemma EncodedInjective(s: seq<Byte>, t: seq<Byte>)
    requires s != [] && t != [] && Encoded(s) == Encoded(t)
    ensures s == t
  {
    RoundTrip(s);
    RoundTrip(t);
    hide Encoded;
  }
}

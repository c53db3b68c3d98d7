/** The canonical query string of components/credential/src/aws_signer_v4.c: percent-encoding by a size
    pass and a write pass, sorted insertion of the parameters, and the join. */
module AwsSigner {
  import opened Common

  datatype Status = Success | InvalidArg | NotEnoughMemory

  const MAX_URI_CHAR_LEN := 8000
  const AMPERSAND: Byte := 0x26
  const SLASH: Byte := 0x2F
  const EQUALS: Byte := 0x3D
  const QUESTION: Byte := 0x3F
  const PERCENT: Byte := 0x25
  const COLON: Byte := 0x3A

  predicate NoNul(s: seq<Byte>) { forall k | 0 <= k < |s| :: s[k] != 0 }

  // ---------------------------------------------------------------- percent-encoding

  /** Letters, digits and "_-~.", which stand for themselves. */
  predicate Unreserved(ch: Byte) {
    || 0x41 <= ch <= 0x5A || 0x61 <= ch <= 0x7A || 0x30 <= ch <= 0x39
    || ch == 0x5F || ch == 0x2D || ch == 0x7E || ch == 0x2E
  }

  function HexDigit(n: nat): Byte
    requires n < 16
  {
    if n < 10 then 0x30 + n else 0x41 + n - 10
  }

  function EncodeByte(ch: Byte): (e: seq<Byte>)
    ensures |e| == if Unreserved(ch) then 1 else 3
  {
    if Unreserved(ch) then [ch] else [PERCENT, HexDigit(ch / 16), HexDigit(ch % 16)]
  }

  function Encode(s: seq<Byte>): seq<Byte> {
    if s == [] then [] else Encode(s[..|s| - 1]) + EncodeByte(s[|s| - 1])
  }

  lemma {:induction false} EncodeGrows(s: seq<Byte>, i: nat)
    requires i <= |s|
    ensures |Encode(s[..i])| + |s| - i <= |Encode(s)|
  {
    if i < |s| {
      EncodeGrows(s[..|s| - 1], i);
      assert s[..|s| - 1][..i] == s[..i];
    } else {
      assert s[..i] == s;
    }
  }

  lemma {:induction false} EncodeNoNul(s: seq<Byte>)
    requires NoNul(s)
    ensures NoNul(Encode(s))
  {
    if s != [] {
      EncodeNoNul(s[..|s| - 1]);
    }
  }

  /** The value of a hexadecimal digit. */
  function HexValue(d: Byte): Option<nat> {
    if 0x30 <= d <= 0x39 then Some(d - 0x30)
    else if 0x41 <= d <= 0x46 then Some(d - 0x41 + 10)
    else if 0x61 <= d <= 0x66 then Some(d - 0x61 + 10)
    else None
  }

  /** Percent-decoding (section 2.1 of RFC 3986), None for a broken triplet. */
  function Decode(s: seq<Byte>): Option<seq<Byte>> {
    if s == [] then Some([])
    else if s[0] != PERCENT then
      var rest := Decode(s[1..]);
      if rest.None? then None else Some([s[0]] + rest.value)
    else if |s| < 3 || HexValue(s[1]).None? || HexValue(s[2]).None? then None
    else
      var rest := Decode(s[3..]);
      if rest.None? then None
      else Some([16 * HexValue(s[1]).value + HexValue(s[2]).value] + rest.value)
  }

  lemma {:induction false} EncodeFront(s: seq<Byte>)
    requires s != []
    ensures Encode(s) == EncodeByte(s[0]) + Encode(s[1..])
  {
    hide EncodeByte;
    if |s| == 1 {
      assert s[..0] == [] && s[1..] == [] && EncodeByte(s[0]) + [] == EncodeByte(s[0]);
    } else {
      var init, last := s[..|s| - 1], EncodeByte(s[|s| - 1]);
      EncodeFront(init);
      assert s[1..][..|s| - 2] == init[1..] && s[1..][|s| - 2] == s[|s| - 1];
      assert Encode(s) == Encode(init) + last && Encode(s[1..]) == Encode(init[1..]) + last;
      hide Encode;
      assert EncodeByte(s[0]) + Encode(init[1..]) + last == EncodeByte(s[0]) + (Encode(init[1..]) + last);
    }
  }

  /** Decoding undoes encoding: no two strings have the same encoding. */
  lemma {:induction false} EncodeDecodes(s: seq<Byte>)
    ensures Decode(Encode(s)) == Some(s)
  {
    if s != [] {
      EncodeFront(s);
      EncodeDecodes(s[1..]);
      var ch, rest := s[0], Encode(s[1..]);
      hide Encode;
      assert s == [ch] + s[1..];
      DecodeFront(ch, rest);
    }
  }

  lemma DecodeFront(ch: Byte, rest: seq<Byte>)
    requires Decode(rest).Some?
    ensures Decode(EncodeByte(ch) + rest) == Some([ch] + Decode(rest).value)
  {}

  /** The unreserved characters (section 2.3 of RFC 3986), and the digits of a triplet (section 2.1). */
  const UPPER := "ABCDEFGHIJKLMNOPQRSTUVWXYZ"
  const LOWER := "abcdefghijklmnopqrstuvwxyz"
  const UNRESERVED := UPPER + LOWER + "0123456789" + "-._~"
  const UPPER_HEX := "0123456789ABCDEF"

  /** s percent-encoded from the front, as RFC 3986 has it. */
  function PercentEncoded(s: seq<Byte>): seq<Byte> {
    if s == [] then []
    else if s[0] as char in UNRESERVED then [s[0]] + PercentEncoded(s[1..])
    else ['%' as int, UPPER_HEX[s[0] / 16] as int, UPPER_HEX[s[0] % 16] as int] + PercentEncoded(s[1..])
  }

  lemma UnreservedIs(ch: Byte)
    ensures Unreserved(ch) <==> ch as char in UNRESERVED
  {
    UpperIs(ch);
    LowerIs(ch);
    DigitIs(ch);
    MarkIs(ch);
    hide UPPER, LOWER;
    assert ch as char in UNRESERVED <==>
      ch as char in UPPER || ch as char in LOWER || ch as char in "0123456789" || ch as char in "-._~";
  }

  lemma UpperIs(ch: Byte)
    ensures 0x41 <= ch <= 0x5A <==> ch as char in UPPER
  {
    if 0x41 <= ch <= 0x5A { assert UPPER[ch - 0x41] == ch as char; }
  }

  lemma LowerIs(ch: Byte)
    ensures 0x61 <= ch <= 0x7A <==> ch as char in LOWER
  {
    if 0x61 <= ch <= 0x7A { assert LOWER[ch - 0x61] == ch as char; }
  }

  lemma DigitIs(ch: Byte)
    ensures 0x30 <= ch <= 0x39 <==> ch as char in "0123456789"
  {
    if 0x30 <= ch <= 0x39 { assert "0123456789"[ch - 0x30] == ch as char; }
  }

  lemma MarkIs(ch: Byte)
    ensures ch == 0x5F || ch == 0x2D || ch == 0x7E || ch == 0x2E <==> ch as char in "-._~"
  {
    assert "-._~"[0] == '-' && "-._~"[1] == '.' && "-._~"[2] == '_' && "-._~"[3] == '~';
  }

  lemma HexDigitIs(n: nat)
    requires n < 16
    ensures HexDigit(n) == UPPER_HEX[n] as int
  {}

  /** The encoding is that of RFC 3986. */
  lemma {:induction false} EncodeIsPercentEncoded(s: seq<Byte>)
    ensures Encode(s) == PercentEncoded(s)
  {
    if s != [] {
      EncodeFront(s);
      EncodeIsPercentEncoded(s[1..]);
      UnreservedIs(s[0]);
      HexDigitIs(s[0] / 16);
      HexDigitIs(s[0] % 16);
    }
    hide Encode, Unreserved, HexDigit;
  }

  predicate AllUnreserved(s: seq<Byte>) { forall k | 0 <= k < |s| :: s[k] as char in UNRESERVED }

  /** A string of unreserved characters, and no other, is its own encoding. */
  lemma {:induction false} UnreservedStands(s: seq<Byte>)
    ensures Encode(s) == s <==> AllUnreserved(s)
  {
    if s != [] {
      UnreservedStands(s[1..]);
      EncodeFront(s);
      EncodeGrows(s[1..], 0);
      UnreservedIs(s[0]);
      assert s == [s[0]] + s[1..];
      assert AllUnreserved(s) <==> s[0] as char in UNRESERVED && AllUnreserved(s[1..]);
      hide Encode, UNRESERVED, AllUnreserved;
      if Unreserved(s[0]) { assert Encode(s)[1..] == Encode(s[1..]); }
    }
  }

  /** What uriEncodeString encodes: srcLen characters, or up to the terminator if that is 0. */
  function Source(src: seq<Byte>, srcLen: nat): seq<Byte> {
    if srcLen == 0 || srcLen >= |src| then src else src[..srcLen]
  }

  /** uriEncodeString on the string src, NUL-terminated in memory. Without a destination it reports
      the size a destination must have; with one it fails unless there is that much room. */
  method UriEncodeString(src: seq<Byte>, srcLen: nat, dst: array?<Byte>, off: nat, dstLen: nat)
    returns (status: Status, encodedLen: nat)
    requires NoNul(src) && (dst != null ==> off + dstLen <= dst.Length)
    modifies dst
    ensures dst == null ==> status == Success
    ensures dst != null ==> status == if |Encode(Source(src, srcLen))| + 1 <= dstLen then Success else NotEnoughMemory
    ensures status == Success ==> encodedLen == |Encode(Source(src, srcLen))| + 1
    ensures dst != null && status == Success ==> dst[off..off + encodedLen] == Encode(Source(src, srcLen)) + [0]
    ensures dst != null ==> dst[..off] == old(dst[..off]) && dst[off + dstLen..] == old(dst[off + dstLen..])
  {
    hide Encode;
    ghost var text := Source(src, srcLen);
    var i, remaining: int := 0, dstLen;
    encodedLen := 0;
    assert Encode(text[..0]) == [] by { EncodeNone(); }
    while (srcLen == 0 || i < srcLen) && i < |src|
      invariant i <= |text| && encodedLen == |Encode(text[..i])|
      invariant dst != null ==> remaining == dstLen - encodedLen >= 0
      invariant dst != null ==> dst[off..off + encodedLen] == Encode(text[..i])
      invariant dst != null ==> dst[..off] == old(dst[..off]) && dst[off + dstLen..] == old(dst[off + dstLen..])
    {
      var ch := src[i];
      EncodeGrows(text, i + 1);
      EncodeSnoc(text, i);
      i := i + 1;
      var size := if Unreserved(ch) then 1 else 3;
      if dst != null {
        if remaining < size || (size == 3 && remaining == 3) { return NotEnoughMemory, encodedLen; }
        WriteByte(dst, off + encodedLen, ch, remaining);
        assert dst[off..off + encodedLen + size] == dst[..off + encodedLen][off..] + dst[off + encodedLen..off + encodedLen + size];
        remaining := remaining - size;
      }
      encodedLen := encodedLen + size;
    }
    assert text[..i] == text;
    if dst != null {
      if remaining <= 0 { return NotEnoughMemory, encodedLen; }
      dst[off + encodedLen] := 0;
    }
    encodedLen := encodedLen + 1;
    status := Success;
  }

  /** Writes the encoding of one character where there is room for n. */
  method WriteByte(dst: array<Byte>, pos: nat, ch: Byte, n: nat)
    requires pos + n <= dst.Length && |EncodeByte(ch)| <= n && (|EncodeByte(ch)| == 3 ==> n > 3)
    modifies dst
    ensures dst[pos..pos + |EncodeByte(ch)|] == EncodeByte(ch)
    ensures dst[..pos] == old(dst[..pos]) && dst[pos + n..] == old(dst[pos + n..])
  {
    if Unreserved(ch) {
      dst[pos] := ch;
    } else if ch == SLASH {
      CopyPadded(dst, pos, [PERCENT, 0x32, 0x46], n);
    } else {
      dst[pos] := PERCENT;
      dst[pos + 1] := HexDigit(ch / 16);
      dst[pos + 2] := HexDigit(ch % 16);
    }
  }

  lemma EncodeNone()
    ensures Encode([]) == []
  {}

  lemma EncodeSnoc(s: seq<Byte>, i: nat)
    requires i < |s|
    ensures Encode(s[..i + 1]) == Encode(s[..i]) + EncodeByte(s[i])
  {
    assert s[..i + 1][..i] == s[..i];
  }

  /** strncpy of a string shorter than n: the rest becomes NUL. */
  method CopyPadded(dst: array<Byte>, off: nat, s: seq<Byte>, n: nat)
    requires |s| < n && off + n <= dst.Length
    modifies dst
    ensures dst[off..off + |s|] == s
    ensures dst[..off] == old(dst[..off]) && dst[off + n..] == old(dst[off + n..])
  {
    var i := 0;
    while i < n
      invariant i <= n
      invariant forall k | 0 <= k < i && k < |s| :: dst[off + k] == s[k]
      invariant dst[..off] == old(dst[..off]) && dst[off + n..] == old(dst[off + n..])
    {
      dst[off + i] := if i < |s| then s[i] else 0;
      i := i + 1;
    }
  }

  // ---------------------------------------------------------------- finding the query

  /** The first occurrence of c in s at from or later, |s| if there is none. */
  function Find(s: seq<Byte>, from: nat, c: Byte): (i: nat)
    requires from <= |s|
    ensures from <= i <= |s| && (i < |s| ==> s[i] == c)
    ensures forall k | from <= k < i :: s[k] != c
    decreases |s| - from
  {
    if from == |s| || s[from] == c then from else Find(s, from + 1, c)
  }

  /** strnchr, within s[from..to]: to if there is none. */
  method StrNChr(s: seq<Byte>, from: nat, to: nat, c: Byte) returns (i: nat)
    requires from <= to <= |s|
    ensures from <= i <= to && (i < to ==> s[i] == c)
    ensures forall k | from <= k < i :: s[k] != c
  {
    i := from;
    while i < to && s[i] != c
      invariant from <= i <= to && forall k | from <= k < i :: s[k] != c
    {
      i := i + 1;
    }
  }

  /** Where "://" first ends, None if it does not occur. */
  function AfterScheme(url: seq<Byte>, from: nat): (r: Option<nat>)
    requires from <= |url|
    ensures r.Some? ==> from + 3 <= r.value <= |url|
    decreases |url| - from
  {
    if |url| - from < 3 then None
    else if url[from..from + 3] == [COLON, SLASH, SLASH] then Some(from + 3)
    else AfterScheme(url, from + 1)
  }

  predicate DelimiterAt(url: seq<Byte>, k: nat) {
    k + 3 <= |url| && url[k] as char == ':' && url[k + 1] as char == '/' && url[k + 2] as char == '/'
  }

  /** It is the place behind the first "://". */
  lemma {:induction false} AfterSchemeIs(url: seq<Byte>, from: nat)
    requires from <= |url|
    ensures var r := AfterScheme(url, from);
      && (r.Some? ==> DelimiterAt(url, r.value - 3))
      && forall k: nat | from <= k < (if r.Some? then r.value - 3 else |url|) :: !DelimiterAt(url, k)
    decreases |url| - from
  {
    if |url| - from >= 3 {
      DelimiterIs(url, from);
      if url[from..from + 3] != [COLON, SLASH, SLASH] { AfterSchemeIs(url, from + 1); }
    }
  }

  lemma DelimiterIs(url: seq<Byte>, k: nat)
    requires k + 3 <= |url|
    ensures DelimiterAt(url, k) <==> url[k..k + 3] == [COLON, SLASH, SLASH]
  {
    if DelimiterAt(url, k) { assert url[k..k + 3][0] == COLON && url[k..k + 3][1] == SLASH && url[k..k + 3][2] == SLASH; }
    if url[k..k + 3] == [COLON, SLASH, SLASH] {
      assert url[k] == [COLON, SLASH, SLASH][0] && url[k + 1] == [COLON, SLASH, SLASH][1] && url[k + 2] == [COLON, SLASH, SLASH][2];
    }
  }

  /** strstr of the scheme delimiter, advanced past it. */
  method FindScheme(url: seq<Byte>) returns (r: Option<nat>)
    ensures r == AfterScheme(url, 0)
  {
    var i := 0;
    while |url| - i >= 3
      invariant i <= |url| && AfterScheme(url, 0) == AfterScheme(url, i)
    {
      assert url[i..i + 3] == [url[i], url[i + 1], url[i + 2]];
      if url[i] == COLON && url[i + 1] == SLASH && url[i + 2] == SLASH { return Some(i + 3); }
      i := i + 1;
    }
    r := None;
  }

  /** Where the path of a URL ends: at the first '?' behind the scheme. */
  function QueryMark(url: seq<Byte>): Option<nat> {
    var cur := AfterScheme(url, 0);
    if cur.None? || cur.value >= |url| then None else Some(Find(url, cur.value, QUESTION))
  }

  /** getCanonicalUri, for a whole URL: where the path starts, None for a default path or none at all,
      and where it ends. */
  method GetCanonicalUri(url: seq<Byte>) returns (status: Status, start: Option<nat>, end: nat, default: bool)
    requires NoNul(url)
    ensures status == if QueryMark(url).Some? then Success else InvalidArg
    ensures status == Success ==> Some(end) == QueryMark(url)
    ensures status == Success ==> (default <==> end < |url| && start.None?)
    ensures start.Some? ==> status == Success && start.value < end <= |url| && url[start.value] == SLASH
    ensures status == Success && start.None? ==> forall k | AfterScheme(url, 0).value <= k < end :: url[k] != SLASH
    ensures start.Some? ==> forall k | AfterScheme(url, 0).value <= k < start.value :: url[k] != SLASH
  {
    status, start, end, default := Success, None, |url|, false;
    var scheme := FindScheme(url);
    if scheme.None? { return InvalidArg, None, 0, false; }
    var cur := scheme.value;
    if |url| <= cur { return InvalidArg, None, end, false; }
    while cur < |url|
      invariant scheme.value <= cur <= |url|
      invariant forall k | scheme.value <= k < cur :: url[k] != QUESTION && url[k] != SLASH
    {
      if url[cur] == QUESTION {
        return Success, None, cur, true;
      } else if url[cur] == SLASH {
        end := StrNChr(url, cur, |url|, QUESTION);
        return Success, Some(cur), end, false;
      }
      cur := cur + 1;
    }
  }

  // ---------------------------------------------------------------- the parameters

  datatype Params = Params(list: seq<seq<Byte>>) | Fail(status: Status)

  /** name=encode(value) for the parameter in front of position a, where it ends. A value of length 0
      is taken to be everything up to the terminator of the URL. */
  function EncodedOne(q: seq<Byte>, a: nat): Params
    requires a <= |q|
  {
    var e := Find(q[..a], 0, EQUALS);
    if e == a then Fail(InvalidArg)
    else
      var param := q[..e] + [EQUALS] + Encode(if e + 1 == a then q[e + 1..] else q[e + 1..a]);
      if |param| + 2 > MAX_URI_CHAR_LEN then Fail(NotEnoughMemory) else Params([param])
  }

  function Then(done: seq<seq<Byte>>, rest: Params): Params {
    if rest.Fail? then rest else Params(done + rest.list)
  }

  /** The encoded parameters of what is left of the query, in the order of the URL. */
  function Encoded(q: seq<Byte>): Params
    decreases |q|
  {
    var a := Find(q, 0, AMPERSAND);
    var one := EncodedOne(q, a);
    if one.Fail? || a == |q| then one else Then(one.list, Encoded(q[a + 1..]))
  }

  // ---------------------------------------------------------------- the order

  /** strcmp(a, b) <= 0, on unsigned characters. */
  predicate Leq(a: seq<Byte>, b: seq<Byte>) {
    a == [] || (b != [] && (a[0] < b[0] || (a[0] == b[0] && Leq(a[1..], b[1..]))))
  }

  predicate Sorted(l: seq<seq<Byte>>) { forall i, j | 0 <= i < j < |l| :: Leq(l[i], l[j]) }

  /** How many entries at the front of l come strictly before x. */
  function Position(l: seq<seq<Byte>>, x: seq<Byte>): (i: nat)
    ensures i <= |l| && (i < |l| ==> Leq(x, l[i]))
    ensures forall k | 0 <= k < i :: !Leq(x, l[k])
  {
    if l == [] || Leq(x, l[0]) then 0 else 1 + Position(l[1..], x)
  }

  function Insert(l: seq<seq<Byte>>, x: seq<Byte>): seq<seq<Byte>> {
    var i := Position(l, x);
    l[..i] + [x] + l[i..]
  }

  function InsertAll(ps: seq<seq<Byte>>): seq<seq<Byte>> {
    if ps == [] then [] else Insert(InsertAll(ps[..|ps| - 1]), ps[|ps| - 1])
  }

  /** The parameters joined by '&'. */
  function Join(l: seq<seq<Byte>>): seq<Byte> {
    if l == [] then [] else if |l| == 1 then l[0] else Join(l[..|l| - 1]) + [AMPERSAND] + l[|l| - 1]
  }

  lemma {:induction false} LeqTotal(a: seq<Byte>, b: seq<Byte>)
    ensures Leq(a, b) || Leq(b, a)
  {
    if a != [] && b != [] && a[0] == b[0] { LeqTotal(a[1..], b[1..]); }
  }

  lemma {:induction false} LeqTransitive(a: seq<Byte>, b: seq<Byte>, c: seq<Byte>)
    requires Leq(a, b) && Leq(b, c)
    ensures Leq(a, c)
  {
    if a != [] && a[0] == b[0] == c[0] { LeqTransitive(a[1..], b[1..], c[1..]); }
  }

  lemma InsertSorted(l: seq<seq<Byte>>, x: seq<Byte>)
    requires Sorted(l)
    ensures Sorted(Insert(l, x)) && multiset(Insert(l, x)) == multiset(l) + multiset{x}
  {
    var i, r := Position(l, x), Insert(l, x);
    hide Leq, Position;
    assert l == l[..i] + l[i..];
    forall j, k | 0 <= j < k < |r| ensures Leq(r[j], r[k]) {
      if k == i {
        LeqTotal(r[j], x);
      } else if j == i {
        assert r[k] == l[k - 1];
        if k - 1 > i { LeqTransitive(x, l[i], l[k - 1]); }
      }
    }
  }

  /** The list is what was inserted, in order of strcmp. */
  lemma {:induction false} InsertAllSorts(ps: seq<seq<Byte>>)
    ensures Sorted(InsertAll(ps)) && multiset(InsertAll(ps)) == multiset(ps) && |InsertAll(ps)| == |ps|
  {
    if ps != [] {
      var n := |ps| - 1;
      InsertAllSorts(ps[..n]);
      InsertSorted(InsertAll(ps[..n]), ps[n]);
      assert ps == ps[..n] + [ps[n]];
    }
  }

  // ---------------------------------------------------------------- sizes

  /** Two characters more for each parameter than it has. */
  function Weight(l: seq<seq<Byte>>): nat {
    if l == [] then 0 else Weight(l[..|l| - 1]) + |l[|l| - 1]| + 2
  }

  lemma {:induction false} WeightAppend(a: seq<seq<Byte>>, b: seq<seq<Byte>>)
    ensures Weight(a + b) == Weight(a) + Weight(b)
  {
    if b == [] {
      assert a + b == a;
    } else {
      var n := |b| - 1;
      WeightAppend(a, b[..n]);
      assert (a + b)[..|a| + n] == a + b[..n];
    }
  }

  lemma WeightOne(x: seq<Byte>)
    ensures Weight([x]) == |x| + 2
  {}

  lemma {:induction false} InsertAllWeight(ps: seq<seq<Byte>>)
    ensures Weight(InsertAll(ps)) == Weight(ps)
  {
    if ps != [] {
      var n := |ps| - 1;
      InsertAllWeight(ps[..n]);
      InsertWeight(InsertAll(ps[..n]), ps[n]);
    }
  }

  lemma InsertWeight(l: seq<seq<Byte>>, x: seq<Byte>)
    ensures Weight(Insert(l, x)) == Weight(l) + |x| + 2
  {
    var i := Position(l, x);
    WeightAppend(l[..i] + [x], l[i..]);
    WeightAppend(l[..i], [x]);
    WeightAppend(l[..i], l[i..]);
    WeightOne(x);
    assert l == l[..i] + l[i..];
  }

  /** The join has one '&' between parameters: with its terminator it fits the buffer. */
  lemma {:induction false} JoinLength(l: seq<seq<Byte>>)
    requires l != []
    ensures |Join(l)| + |l| + 1 == Weight(l)
  {
    if |l| == 1 { assert l[..0] == []; } else { JoinLength(l[..|l| - 1]); }
  }

  /** No parameter is too long for the check the join makes. */
  lemma {:induction false} WeightBound(l: seq<seq<Byte>>, i: nat)
    requires i < |l|
    ensures |l[i]| + 2 <= Weight(l) && |Join(l[..i + 1])| <= |Join(l)|
  {
    if i < |l| - 1 {
      WeightBound(l[..|l| - 1], i);
      assert l[..|l| - 1][..i + 1] == l[..i + 1];
    } else {
      assert l[..i + 1] == l;
    }
  }

  // ---------------------------------------------------------------- the canonical query

  /** One parameter of the query: its buffer holds the string and its terminator. */
  method EncodeParam(q: seq<Byte>, a: nat) returns (status: Status, param: seq<Byte>)
    requires NoNul(q) && a <= |q| <= MAX_URI_CHAR_LEN - 4
    ensures EncodedOne(q, a) == if status == Success then Params([param]) else Fail(status)
  {
    hide Encode, Find;
    param := [];
    var e := StrNChr(q, 0, a, EQUALS);
    FindIs(q[..a], 0, EQUALS, e);
    if e == a { return InvalidArg, param; }
    var nameLen, valueLen := e, a - (e + 1);
    var requiredSize;
    status, requiredSize := UriEncodeString(q[e + 1..], valueLen, null, 0, 0);
    ghost var value := Source(q[e + 1..], valueLen);
    assert value == if e + 1 == a then q[e + 1..] else q[e + 1..a];
    var maxLen := if nameLen + 1 + requiredSize + 1 < MAX_URI_CHAR_LEN then nameLen + 1 + requiredSize + 1 else MAX_URI_CHAR_LEN;
    var newParam := new Byte[maxLen](_ => 0);
    CopyName(newParam, q, nameLen);
    var remaining := maxLen - nameLen - 1 - 1;
    var written;
    status, written := UriEncodeString(q[e + 1..], valueLen, newParam, nameLen + 1, remaining);
    if status != Success { return; }
    param := newParam[..nameLen + written];
    Assembled(newParam[..], nameLen + 1, written, q[..e] + [EQUALS], Encode(value));
    assert newParam[..][..nameLen + written] == param;
  }

  lemma Assembled(buffer: seq<Byte>, n: nat, w: nat, x: seq<Byte>, y: seq<Byte>)
    requires n + w <= |buffer| && w > 0 && buffer[..n] == x && buffer[n..n + w] == y + [0]
    ensures buffer[..n + w - 1] == x + y
  {}

  /** Copies the name and puts '=' behind it. */
  method CopyName(dst: array<Byte>, q: seq<Byte>, nameLen: nat)
    requires nameLen <= |q| && nameLen < dst.Length
    modifies dst
    ensures dst[..nameLen + 1] == q[..nameLen] + [EQUALS]
  {
    var i := 0;
    while i < nameLen
      invariant i <= nameLen && dst[..i] == q[..i]
    {
      dst[i] := q[i];
      i := i + 1;
    }
    dst[nameLen] := EQUALS;
  }

  lemma {:induction false} FindIs(s: seq<Byte>, from: nat, c: Byte, i: nat)
    requires from <= i <= |s| && (i < |s| ==> s[i] == c) && forall k | from <= k < i :: s[k] != c
    ensures i == Find(s, from, c)
  {}

  /** The scan of the list for the place of a new parameter. */
  method InsertParam(list: seq<seq<Byte>>, param: seq<Byte>) returns (r: seq<seq<Byte>>)
    ensures r == Insert(list, param)
  {
    hide Leq;
    var i := 0;
    while i < |list| && !Leq(param, list[i])
      invariant i <= |list| && i + Position(list[i..], param) == Position(list, param)
    {
      assert list[i..][1..] == list[i + 1..];
      i := i + 1;
    }
    r := list[..i] + [param] + list[i..];
  }

  /** Re-creates the query in a buffer of the computed size. */
  method JoinParams(list: seq<seq<Byte>>, required: nat) returns (status: Status, query: array<Byte>, queryLen: nat)
    requires list != [] && required == Weight(list)
    ensures fresh(query) && status == Success && query.Length == required + 1
    ensures queryLen < query.Length && query[..queryLen + 1] == Join(list) + [0]
  {
    hide Weight, Join;
    query := new Byte[required + 1](_ => 0);
    queryLen := 0;
    var i, cur := 0, 0;
    JoinLength(list);
    assert Join(list[..0]) == [] by { JoinNone(); }
    while i < |list|
      invariant i <= |list| && cur == |Join(list[..i])| && cur < query.Length
      invariant query[..cur] == Join(list[..i])
    {
      var maxLen := |list[i]|;
      WeightBound(list, i);
      JoinNext(list, i);
      if maxLen + 1 >= required {
        status := InvalidArg;
        return;
      }
      if i > 0 {
        query[cur] := AMPERSAND;
        cur := cur + 1;
      }
      ghost var before := query[..cur];
      var k := 0;
      while k < maxLen
        invariant k <= maxLen && cur + maxLen < query.Length
        invariant query[..cur + k] == before + list[i][..k]
      {
        query[cur + k] := list[i][k];
        k := k + 1;
      }
      cur := cur + maxLen;
      assert list[i][..maxLen] == list[i];
      i := i + 1;
    }
    assert list[..i] == list;
    query[cur] := 0;
    status, queryLen := Success, cur;
  }

  lemma JoinNone()
    ensures Join([]) == []
  {}

  lemma JoinNext(l: seq<seq<Byte>>, i: nat)
    requires i < |l|
    ensures Join(l[..i + 1]) == if i == 0 then l[0] else Join(l[..i]) + [AMPERSAND] + l[i]
  {
    assert l[..i + 1][..i] == l[..i];
  }

  /** getCanonicalQueryParams with uriEncode, on a whole URL of at most MAX_URI_CHAR_LEN characters. */
  method GetCanonicalQueryParams(url: seq<Byte>) returns (status: Status, query: array?<Byte>, queryLen: nat)
    requires NoNul(url) && |url| <= MAX_URI_CHAR_LEN
    ensures QueryMark(url).None? ==> status == InvalidArg
    ensures QueryMark(url) == Some(|url|) ==> status == Success && query == null && queryLen == 0
    ensures QueryMark(url).Some? && QueryMark(url).value < |url| ==>
      var ps := Encoded(url[QueryMark(url).value + 1..]);
      && (ps.Fail? ==> status == ps.status)
      && (ps.Params? ==> status == Success && query != null && queryLen < query.Length)
      && (ps.Params? ==> query[..queryLen + 1] == Join(InsertAll(ps.list)) + [0])
  {
    hide QueryMark, Encoded, InsertAll, Join;
    query, queryLen := null, 0;
    var start, end, default;
    status, start, end, default := GetCanonicalUri(url);
    if status != Success { return; }
    if end == |url| { return; }
    QueryIsLate(url);
    var list, required;
    status, list, required := CollectParams(url[end + 1..]);
    if status != Success { return; }
    status, query, queryLen := JoinParams(list, required);
  }

  lemma QueryIsLate(url: seq<Byte>)
    ensures QueryMark(url).Some? ==> 3 <= QueryMark(url).value <= |url|
  {}

  /** The loop over the parameters. */
  method CollectParams(query: seq<Byte>) returns (status: Status, list: seq<seq<Byte>>, required: nat)
    requires NoNul(query) && |query| <= MAX_URI_CHAR_LEN - 4
    ensures var ps := Encoded(query);
      && (ps.Fail? ==> status == ps.status != Success)
      && (ps.Params? ==> status == Success && list == InsertAll(ps.list) != [] && required == Weight(list))
  {
    hide Encode, Find, Weight, Join, Insert, InsertAll, EncodedOne, Encoded, Then;
    var q, iterate := query, true;
    list, required, status := [], 0, Success;
    ghost var done := [];
    EmptyLists();
    while iterate
      invariant NoNul(q) && |q| <= |query| && status == Success
      invariant list == InsertAll(done) && required == Weight(done)
      invariant iterate ==> Encoded(query) == Then(done, Encoded(q))
      invariant !iterate ==> done != [] && Encoded(query) == Params(done)
      decreases iterate, |q|
    {
      var a := StrNChr(q, 0, |q|, AMPERSAND);
      FindIs(q, 0, AMPERSAND, a);
      var param;
      status, param := EncodeParam(q, a);
      EncodedNext(done, q, a);
      if status != Success { return; }
      required := required + |param| + 2;
      list := InsertParam(list, param);
      AddedParam(done, param);
      done := done + [param];
      if a == |q| {
        iterate := false;
      } else {
        q := q[a + 1..];
      }
    }
    InsertAllWeight(done);
    InsertAllSorts(done);
  }

  lemma AddedParam(done: seq<seq<Byte>>, param: seq<Byte>)
    ensures InsertAll(done + [param]) == Insert(InsertAll(done), param)
    ensures Weight(done + [param]) == Weight(done) + |param| + 2
  {}

  lemma EmptyLists()
    ensures InsertAll([]) == [] && Weight([]) == 0
    ensures forall p :: Then([], p) == p
  {}

  lemma EncodedNext(done: seq<seq<Byte>>, q: seq<Byte>, a: nat)
    requires a == Find(q, 0, AMPERSAND)
    ensures var one := EncodedOne(q, a);
      && (one.Fail? ==> Then(done, Encoded(q)) == one)
      && (one.Params? && a == |q| ==> Then(done, Encoded(q)) == Params(done + one.list))
      && (one.Params? && a < |q| ==> Then(done, Encoded(q)) == Then(done + one.list, Encoded(q[a + 1..])))
  {
    hide EncodedOne;
    var one := EncodedOne(q, a);
    if one.Params? && a < |q| && Encoded(q[a + 1..]).Params? {
      assert done + (one.list + Encoded(q[a + 1..]).list) == (done + one.list) + Encoded(q[a + 1..]).list;
    }
  }

  // ---------------------------------------------------------------- what it should be

  /** The query split at each '&'. */
  function Fields(q: seq<Byte>): (fs: seq<seq<Byte>>)
    ensures fs != []
    decreases |q|
  {
    var a := Find(q, 0, AMPERSAND);
    if a == |q| then [q] else [q[..a]] + Fields(q[a + 1..])
  }

  /** The canonical form of a field: its name, '=' and its encoded value. */
  function Canonical(f: seq<Byte>): seq<Byte>
    requires Find(f, 0, EQUALS) < |f|
  {
    f[..Find(f, 0, EQUALS) + 1] + Encode(f[Find(f, 0, EQUALS) + 1..])
  }

  /** The canonical fields, or the error of the first one that has no name or does not fit. */
  function Canonicals(fs: seq<seq<Byte>>): Params {
    if fs == [] then Params([])
    else if Find(fs[0], 0, EQUALS) == |fs[0]| then Fail(InvalidArg)
    else if |Canonical(fs[0])| + 2 > MAX_URI_CHAR_LEN then Fail(NotEnoughMemory)
    else Then([Canonical(fs[0])], Canonicals(fs[1..]))
  }

  /** Every field but the last has a value. */
  predicate ValuesGiven(fs: seq<seq<Byte>>) {
    forall i | 0 <= i < |fs| - 1 :: Find(fs[i], 0, EQUALS) + 1 != |fs[i]|
  }

  function Checked(param: seq<Byte>): Params {
    if |param| + 2 > MAX_URI_CHAR_LEN then Fail(NotEnoughMemory) else Params([param])
  }

  /** For one parameter the code agrees with the canonical form, unless its value is empty with more to
      come: then it is longer. */
  lemma EncodedOneIs(q: seq<Byte>, a: nat)
    requires a <= |q|
    ensures var f := q[..a]; var e := Find(f, 0, EQUALS);
      && (e == |f| ==> EncodedOne(q, a) == Fail(InvalidArg))
      && (e < |f| && (e + 1 != |f| || a == |q|) ==> EncodedOne(q, a) == Checked(Canonical(f)))
      && (e < |f| && e + 1 == |f| && a < |q| && EncodedOne(q, a).Params? ==>
            |EncodedOne(q, a).list[0]| > |Canonical(f)| && |Canonical(f)| + 2 <= MAX_URI_CHAR_LEN)
  {
    hide Encode, Find;
    var f := q[..a];
    var e := Find(f, 0, EQUALS);
    if e < |f| {
      assert f[..e + 1] == q[..e] + [EQUALS];
      assert f[e + 1..] == q[e + 1..a];
      if e + 1 == |f| {
        EncodeNone();
        EncodeGrows(q[e + 1..], 0);
        assert f[e + 1..] == [] && (a == |q| ==> q[e + 1..] == []);
      }
    }
  }

  lemma EncodedStep(q: seq<Byte>)
    ensures var a := Find(q, 0, AMPERSAND); var one := EncodedOne(q, a);
      Encoded(q) == if one.Fail? || a == |q| then one else Then(one.list, Encoded(q[a + 1..]))
  {}

  lemma CanonicalsStep(q: seq<Byte>)
    ensures var a := Find(q, 0, AMPERSAND); var f := q[..a];
      && Fields(q) == (if a == |q| then [f] else [f] + Fields(q[a + 1..]))
      && (Find(f, 0, EQUALS) == |f| ==> Canonicals(Fields(q)) == Fail(InvalidArg))
      && (Find(f, 0, EQUALS) < |f| && |Canonical(f)| + 2 > MAX_URI_CHAR_LEN ==> Canonicals(Fields(q)) == Fail(NotEnoughMemory))
      && (Find(f, 0, EQUALS) < |f| && |Canonical(f)| + 2 <= MAX_URI_CHAR_LEN ==>
            Canonicals(Fields(q)) == if a == |q| then Params([Canonical(f)]) else Then([Canonical(f)], Canonicals(Fields(q[a + 1..]))))
  {
    var a := Find(q, 0, AMPERSAND);
    var f := q[..a];
    hide Find, Canonical;
    if a == |q| {
      var none: seq<seq<Byte>> := [];
      assert f == q && [f][1..] == none;
      if Find(f, 0, EQUALS) < |f| { assert [Canonical(f)] + none == [Canonical(f)]; }
    } else {
      assert ([f] + Fields(q[a + 1..]))[1..] == Fields(q[a + 1..]);
    }
  }

  lemma ValuesGivenStep(f: seq<Byte>, fs: seq<seq<Byte>>)
    requires fs != []
    ensures ValuesGiven([f] + fs) <==> Find(f, 0, EQUALS) + 1 != |f| && ValuesGiven(fs)
  {
    hide Find;
    var all := [f] + fs;
    assert all[0] == f;
    assert forall i | 0 <= i < |fs| :: all[i + 1] == fs[i];
    if ValuesGiven(all) {
      forall i | 0 <= i < |fs| - 1 ensures Find(fs[i], 0, EQUALS) + 1 != |fs[i]| {
        assert all[i + 1] == fs[i];
      }
    }
  }

  /** As many parameters, with fewer characters in all. */
  predicate Shorter(ks: Params, ps: Params) {
    ks.Params? && ps.Params? && |ks.list| == |ps.list| && Weight(ks.list) < Weight(ps.list)
  }

  /** When every field but the last has a value the code computes exactly the canonical fields, with the
      same errors; when one has none but the code succeeds, its parameters are longer. */
  lemma {:induction false} EncodedIsCanonical(q: seq<Byte>)
    ensures ValuesGiven(Fields(q)) ==> Encoded(q) == Canonicals(Fields(q))
    ensures !ValuesGiven(Fields(q)) && Encoded(q).Params? ==> Shorter(Canonicals(Fields(q)), Encoded(q))
    ensures Encoded(q).Params? ==> Encoded(q).list != []
    decreases |q|
  {
    hide Find, Encoded, Canonicals, Fields, Canonical, EncodedOne, ValuesGiven, Encode, Shorter, Then, Weight;
    var a := Find(q, 0, AMPERSAND);
    EncodedStep(q);
    CanonicalsStep(q);
    EncodedOneIs(q, a);
    if a < |q| {
      EncodedIsCanonical(q[a + 1..]);
      ValuesGivenStep(q[..a], Fields(q[a + 1..]));
      var one := EncodedOne(q, a);
      if one.Params? {
        OnlyOne(q, a);
        LongerStep(one.list[0], Canonical(q[..a]), Encoded(q[a + 1..]), Canonicals(Fields(q[a + 1..])));
      }
    } else {
      OneFieldGiven(q[..a]);
    }
  }

  lemma OneFieldGiven(f: seq<Byte>)
    ensures ValuesGiven([f])
  {}

  lemma OnlyOne(q: seq<Byte>, a: nat)
    requires a <= |q| && EncodedOne(q, a).Params?
    ensures EncodedOne(q, a).list == [EncodedOne(q, a).list[0]] && Find(q[..a], 0, EQUALS) < a
  {}

  lemma LongerStep(p: seq<Byte>, k: seq<Byte>, ps: Params, ks: Params)
    ensures ps.Params? && ps.list != [] ==> Then([p], ps).Params? && Then([p], ps).list != []
    ensures ps.Fail? ==> Then([p], ps).Fail?
    ensures |p| == |k| && Shorter(ks, ps) ==> Shorter(Then([k], ks), Then([p], ps))
    ensures |p| > |k| && (Shorter(ks, ps) || (ks == ps && ps.Params?)) ==> Shorter(Then([k], ks), Then([p], ps))
  {
    if ps.Params? && ks.Params? {
      WeightAppend([p], ps.list);
      WeightAppend([k], ks.list);
      WeightOne(p);
      WeightOne(k);
    }
    hide Weight;
  }

  /** The query the code returns is the canonical one, the '&'-join of all canonical fields in order of
      strcmp, if and only if every field but the last has a value. */
  lemma CanonicalIfAndOnlyIf(q: seq<Byte>)
    requires Encoded(q).Params?
    ensures Canonicals(Fields(q)).Params?
    ensures Join(InsertAll(Encoded(q).list)) == Join(InsertAll(Canonicals(Fields(q)).list)) <==> ValuesGiven(Fields(q))
  {
    EncodedIsCanonical(q);
    var ps, ks := Encoded(q).list, Canonicals(Fields(q)).list;
    hide Encoded, Canonicals, Fields, Find, Weight, Join, InsertAll;
    if !ValuesGiven(Fields(q)) {
      InsertAllSorts(ps);
      InsertAllSorts(ks);
      InsertAllWeight(ps);
      InsertAllWeight(ks);
      EmptyLists();
      JoinLength(InsertAll(ps));
      JoinLength(InsertAll(ks));
    }
  }

  /** "a=&b=1": the value of a becomes "&b=1". */
  lemma EmptyValueExample()
    ensures Encoded([0x61, EQUALS, AMPERSAND, 0x62, EQUALS, 0x31]).Params?
    ensures !ValuesGiven(Fields([0x61, EQUALS, AMPERSAND, 0x62, EQUALS, 0x31]))
    ensures Encoded([0x61, EQUALS, AMPERSAND, 0x62, EQUALS, 0x31]).list[0] ==
      [0x61, EQUALS, PERCENT, 0x32, 0x36, 0x62, PERCENT, 0x33, 0x44, 0x31]
  {
    var q: seq<Byte> := [0x61, EQUALS, AMPERSAND, 0x62, EQUALS, 0x31];
    FindIs(q, 0, AMPERSAND, 2);
    ExampleFields();
    ExampleFirst();
    ExampleSecond();
    hide Find, EncodedOne, Encode, ValuesGiven;
    assert q[2 + 1..] == [0x62, EQUALS, 0x31];
  }

  lemma ExampleFirst()
    ensures EncodedOne([0x61, EQUALS, AMPERSAND, 0x62, EQUALS, 0x31], 2) ==
      Params([[0x61, EQUALS, PERCENT, 0x32, 0x36, 0x62, PERCENT, 0x33, 0x44, 0x31]])
  {
    var q: seq<Byte> := [0x61, EQUALS, AMPERSAND, 0x62, EQUALS, 0x31];
    FindIs(q[..2], 0, EQUALS, 1);
    ExampleEncodings();
    hide Find, Encode;
    assert q[2..] == [AMPERSAND, 0x62, EQUALS, 0x31] && q[..1] == [0x61];
    assert q[..1] + [EQUALS] + Encode(q[2..]) == [0x61, EQUALS, PERCENT, 0x32, 0x36, 0x62, PERCENT, 0x33, 0x44, 0x31];
  }

  lemma ExampleSecond()
    ensures Encoded([0x62, EQUALS, 0x31]).Params?
  {
    var q: seq<Byte> := [0x62, EQUALS, 0x31];
    FindIs(q, 0, AMPERSAND, 3);
    FindIs(q[..3], 0, EQUALS, 1);
    ExampleEncodings();
    hide Find, Encode;
    assert q[2..] == [0x31] && q[2..3] == [0x31];
  }

  lemma ExampleFields()
    ensures !ValuesGiven(Fields([0x61, EQUALS, AMPERSAND, 0x62, EQUALS, 0x31]))
  {
    var q: seq<Byte> := [0x61, EQUALS, AMPERSAND, 0x62, EQUALS, 0x31];
    FindIs(q, 0, AMPERSAND, 2);
    FindIs(q[..2], 0, EQUALS, 1);
    hide Find;
    assert Fields(q)[0] == q[..2];
  }

  lemma ExampleEncodings()
    ensures Encode([0x31]) == [0x31]
    ensures Encode([AMPERSAND, 0x62, EQUALS, 0x31]) == [PERCENT, 0x32, 0x36, 0x62, PERCENT, 0x33, 0x44, 0x31]
  {
    EncodeNone();
    EncodeFront([0x31]);
    EncodeFront([EQUALS, 0x31]);
    EncodeFront([0x62, EQUALS, 0x31]);
    EncodeFront([AMPERSAND, 0x62, EQUALS, 0x31]);
    hide Encode;
    assert EncodeByte(AMPERSAND) == [PERCENT, 0x32, 0x36] && EncodeByte(EQUALS) == [PERCENT, 0x33, 0x44];
    hide EncodeByte;
    Tails(AMPERSAND, 0x62, EQUALS, 0x31);
  }

  lemma Tails(a: Byte, b: Byte, c: Byte, d: Byte)
    ensures [a, b, c, d][1..] == [b, c, d] && [b, c, d][1..] == [c, d] && [c, d][1..] == [d] && [d][1..] == []
  {}

  // ---------------------------------------------------------------- the order by names

  /** What is in front of the first '=' of a parameter. */
  function Name(p: seq<Byte>): seq<Byte> { p[..Find(p, 0, EQUALS)] }

  /** Parameters in order of their names, those of one name in order of the rest, as canonical requests of
      AWS Signature Version 4 have them. */
  predicate NamesLeq(p: seq<Byte>, r: seq<Byte>) { if Name(p) == Name(r) then Leq(p, r) else Leq(Name(p), Name(r)) }

  predicate SortedByName(l: seq<seq<Byte>>) { forall i, j | 0 <= i < j < |l| :: NamesLeq(l[i], l[j]) }

  /** Name m is name n with more behind it that begins with a character below '='. */
  predicate Continues(n: seq<Byte>, m: seq<Byte>) { |n| < |m| && m[..|n|] == n && m[|n|] < EQUALS }

  predicate HasName(p: seq<Byte>) { Find(p, 0, EQUALS) < |p| }

  lemma {:induction false} LeqAntisymmetric(a: seq<Byte>, b: seq<Byte>)
    requires Leq(a, b) && Leq(b, a)
    ensures a == b
  {
    if a != [] {
      LeqAntisymmetric(a[1..], b[1..]);
      assert a == [a[0]] + a[1..] && b == [b[0]] + b[1..];
    }
  }

  /** Names n and m with '=' and anything behind them are in order of the names, unless one continues the
      other below '='. */
  lemma {:induction false} NamesDecide(n: seq<Byte>, v: seq<Byte>, m: seq<Byte>, w: seq<Byte>)
    requires EQUALS !in n && EQUALS !in m && n != m
    ensures Leq(n + [EQUALS] + v, m + [EQUALS] + w) <==> (Leq(n, m) && !Continues(n, m)) || Continues(m, n)
  {
    var a, b := n + [EQUALS] + v, m + [EQUALS] + w;
    if n != [] && m != [] && n[0] == m[0] {
      assert a[1..] == n[1..] + [EQUALS] + v && b[1..] == m[1..] + [EQUALS] + w;
      assert n == [n[0]] + n[1..] && m == [m[0]] + m[1..];
      NamesDecide(n[1..], v, m[1..], w);
      ContinuesTail(n, m);
      ContinuesTail(m, n);
    }
  }

  lemma ContinuesTail(n: seq<Byte>, m: seq<Byte>)
    requires n != [] && m != [] && n[0] == m[0]
    ensures Continues(n, m) <==> Continues(n[1..], m[1..])
  {
    if |n| < |m| {
      assert m[..|n|] == [m[0]] + m[1..][..|n| - 1] && n == [n[0]] + n[1..];
    }
  }

  lemma ContinuedGrows(n: seq<Byte>, m: seq<Byte>)
    requires Continues(n, m)
    ensures Leq(n, m) && !Leq(m, n) && !Continues(m, n)
  {
    PrefixLeq(n, m);
    if Leq(m, n) { LeqAntisymmetric(n, m); }
  }

  lemma {:induction false} PrefixLeq(n: seq<Byte>, m: seq<Byte>)
    requires |n| <= |m| && m[..|n|] == n
    ensures Leq(n, m)
  {
    if n != [] {
      assert m[0] == m[..|n|][0] && m[1..][..|n| - 1] == m[..|n|][1..];
      PrefixLeq(n[1..], m[1..]);
    }
  }

  /** strcmp and the order by names agree on two parameters, unless one name continues the other. */
  lemma OrdersOfTwo(p: seq<Byte>, r: seq<Byte>)
    requires HasName(p) && HasName(r)
    ensures Continues(Name(p), Name(r)) ==> !Leq(p, r) && !NamesLeq(r, p)
    ensures !Continues(Name(p), Name(r)) && Leq(p, r) && !Continues(Name(r), Name(p)) ==> NamesLeq(p, r)
  {
    var e, f := Find(p, 0, EQUALS), Find(r, 0, EQUALS);
    assert p == Name(p) + [EQUALS] + p[e + 1..] && r == Name(r) + [EQUALS] + r[f + 1..];
    if Name(p) != Name(r) {
      NamesDecide(Name(p), p[e + 1..], Name(r), r[f + 1..]);
      if Continues(Name(p), Name(r)) { ContinuedGrows(Name(p), Name(r)); }
    }
    hide Find, Leq;
  }

  lemma SameMembers(l: seq<seq<Byte>>, ps: seq<seq<Byte>>, p: seq<Byte>)
    requires multiset(l) == multiset(ps)
    ensures p in l <==> p in ps
  {
    assert p in l <==> p in multiset(l);
  }

  /** Parameters with names, in order of strcmp, are in order of the names if and only if no name is another
      one continued by a character below '='. */
  lemma SortedOrdersAgree(l: seq<seq<Byte>>)
    requires Sorted(l) && forall p | p in l :: HasName(p)
    ensures SortedByName(l) <==> forall p, r | p in l && r in l :: !Continues(Name(p), Name(r))
  {
    hide Leq, NamesLeq, Name, HasName, Continues;
    forall i, j | 0 <= i < |l| && 0 <= j < |l|
      ensures Continues(Name(l[i]), Name(l[j])) ==> !Leq(l[i], l[j]) && !NamesLeq(l[j], l[i])
      ensures !Continues(Name(l[i]), Name(l[j])) && Leq(l[i], l[j]) && !Continues(Name(l[j]), Name(l[i])) ==> NamesLeq(l[i], l[j])
    {
      OrdersOfTwo(l[i], l[j]);
    }
    if p, r :| p in l && r in l && Continues(Name(p), Name(r)) {
      var k :| 0 <= k < |l| && l[k] == p;
      var m :| 0 <= m < |l| && l[m] == r;
      NotContinued(p);
      assert !Leq(l[k], l[m]) && !NamesLeq(l[m], l[k]);
    }
  }

  lemma NotContinued(p: seq<Byte>)
    ensures !Continues(Name(p), Name(p))
  {}

  lemma {:induction false} EncodedHaveNames(q: seq<Byte>)
    requires Encoded(q).Params?
    ensures forall p | p in Encoded(q).list :: HasName(p)
    decreases |q|
  {
    hide EncodedOne, HasName;
    var a := Find(q, 0, AMPERSAND);
    OneHasName(q, a);
    if a < |q| {
      EncodedHaveNames(q[a + 1..]);
      var one, rest := EncodedOne(q, a), Encoded(q[a + 1..]);
      assert Encoded(q) == Then(one.list, rest);
      hide Encoded, Find;
      forall p | p in one.list + rest.list ensures HasName(p) {}
    }
  }

  lemma OneHasName(q: seq<Byte>, a: nat)
    requires a <= |q|
    ensures EncodedOne(q, a).Params? ==> forall p | p in EncodedOne(q, a).list :: HasName(p)
  {
    var e := Find(q[..a], 0, EQUALS);
    if e < a && EncodedOne(q, a).Params? { assert EncodedOne(q, a).list[0][e] == EQUALS; }
    hide Encode;
  }

  /** So the parameters in the code's query, which are in order of strcmp, are in order of their names if and
      only if no name among them is so continued. */
  lemma OrdersAgree(q: seq<Byte>)
    requires Encoded(q).Params?
    ensures var ps := Encoded(q).list;
      SortedByName(InsertAll(ps)) <==> forall p, r | p in ps && r in ps :: !Continues(Name(p), Name(r))
  {
    var ps := Encoded(q).list;
    hide Encoded, InsertAll, Sorted, SortedByName, HasName, Continues, Name;
    EncodedHaveNames(q);
    InsertAllSorts(ps);
    forall p ensures p in InsertAll(ps) <==> p in ps { SameMembers(InsertAll(ps), ps, p); }
    SortedOrdersAgree(InsertAll(ps));
  }

  /** "a=2&a1=1" comes out as "a1=1&a=2". */
  lemma ContinuedNameExample()
    ensures InsertAll([[0x61, EQUALS, 0x32], [0x61, 0x31, EQUALS, 0x31]]) == [[0x61, 0x31, EQUALS, 0x31], [0x61, EQUALS, 0x32]]
  {
    var p, r: seq<Byte> := [0x61, EQUALS, 0x32], [0x61, 0x31, EQUALS, 0x31];
    assert [p, r][..1] == [p];
    assert InsertAll([p]) == [p];
    assert !Leq(p, r) by { assert p[1..][0] == EQUALS && r[1..][0] == 0x31; }
    LeqTotal(p, r);
    assert Position([p], r) == 0;
  }
}

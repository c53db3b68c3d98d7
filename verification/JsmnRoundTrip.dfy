/** Printing a JSON value, with any white space between its tokens, and tokenising the text gives back the
    value's tokens, in preorder, with their extents and child counts
    (components/kvs_utils/include/jsmn.h). */
module JsmnRoundTrip {
  import opened Jsmn

  /** A value and the white space in it: gap stands behind an opening bracket, before and after stand
      around an item or a member, colon and space around the colon of a member. */
  datatype Json =
    | Text(s: string)
    | Bare(s: string)
    | List(gap: string, items: Items)
    | Record(gap: string, members: Members)

  datatype Items = NoItems | Item(before: string, head: Json, after: string, tail: Items)

  datatype Members =
    | NoMembers
    | Member(before: string, key: string, colon: string, space: string, value: Json, after: string, rest: Members)

  predicate Blank(w: string) {
    forall i | 0 <= i < |w| :: w[i] == '\t' || w[i] == '\r' || w[i] == '\n' || w[i] == ' '
  }

  /** A piece of a string literal (section 7 of RFC 8259): a character that stands for itself, an escape of two
      characters, or a code unit in four hexadecimal digits. The parser takes control characters as they are,
      which RFC 8259 does not allow; it stops at a NUL. */
  datatype Piece = Plain(c: char) | Escape(c: char) | Unit(a: char, b: char, c: char, d: char)

  const HEX_DIGITS := "0123456789ABCDEFabcdef"

  predicate IsPiece(x: Piece) {
    match x
    case Plain(c) => c !in "\"\\\0"
    case Escape(c) => c in "\"\\/bfnrt"
    case Unit(a, b, c, d) => a in HEX_DIGITS && b in HEX_DIGITS && c in HEX_DIGITS && d in HEX_DIGITS
  }

  function Spell(x: Piece): string {
    match x
    case Plain(c) => [c]
    case Escape(c) => ['\\', c]
    case Unit(a, b, c, d) => ['\\', 'u', a, b, c, d]
  }

  predicate ArePieces(xs: seq<Piece>) { forall k | 0 <= k < |xs| :: IsPiece(xs[k]) }

  function SpellAll(xs: seq<Piece>): string {
    if xs == [] then "" else Spell(xs[0]) + SpellAll(xs[1..])
  }

  /** The contents of a string literal, escapes included. */
  ghost predicate Quotable(s: string) { exists xs :: ArePieces(xs) && SpellAll(xs) == s }

  /** An unquoted value as the parser takes it: any visible ASCII characters that end none, and that do not begin
      another kind of value. */
  predicate IsBare(s: string) {
    && s != ""
    && s[0] !in "{[\""
    && forall i | 0 <= i < |s| :: '!' <= s[i] <= '~' && s[i] !in ":,]}"
  }

  ghost predicate Valid(v: Json) {
    match v
    case Text(s) => Quotable(s)
    case Bare(s) => IsBare(s)
    case List(gap, items) => Blank(gap) && ValidItems(items)
    case Record(gap, members) => Blank(gap) && ValidMembers(members)
  }

  ghost predicate ValidItems(l: Items) {
    l.Item? ==> Blank(l.before) && Valid(l.head) && Blank(l.after) && ValidItems(l.tail)
  }

  ghost predicate ValidMembers(l: Members) {
    l.Member? ==>
      && Blank(l.before) && Quotable(l.key) && Blank(l.colon) && Blank(l.space) && Valid(l.value) && Blank(l.after)
      && ValidMembers(l.rest)
  }

  // ---------------------------------------------------------------- printing

  function Print(v: Json): (w: string)
    ensures Valid(v) ==> w != ""
  {
    match v
    case Text(s) => "\"" + s + "\""
    case Bare(s) => s
    case List(gap, items) => "[" + (gap + (PrintItems(items) + "]"))
    case Record(gap, members) => "{" + (gap + (PrintMembers(members) + "}"))
  }

  function PrintItems(l: Items): string
    decreases l, 0
  {
    match l
    case NoItems => ""
    case Item(before, head, after, tail) => before + (Print(head) + (after + MoreItems(tail)))
  }

  function MoreItems(l: Items): string
    decreases l, 1
  {
    if l.NoItems? then "" else "," + PrintItems(l)
  }

  function PrintMembers(l: Members): string
    decreases l, 1
  {
    match l
    case NoMembers => ""
    case Member(before, key, colon, space, value, after, rest) =>
      before + (("\"" + key + "\"") + (colon + (":" + (space + PrintValue(l)))))
  }

  /** A member from its value on. */
  function PrintValue(l: Members): string
    requires l.Member?
    decreases l, 0
  {
    Print(l.value) + (l.after + MoreMembers(l.rest))
  }

  function MoreMembers(l: Members): string
    decreases l, 2
  {
    if l.NoMembers? then "" else "," + PrintMembers(l)
  }

  // ---------------------------------------------------------------- the tokens of a value

  function Length(l: Items): nat {
    if l.NoItems? then 0 else 1 + Length(l.tail)
  }

  function Count(l: Members): nat {
    if l.NoMembers? then 0 else 1 + Count(l.rest)
  }

  /** The tokens of v printed at position p. */
  function Tokens(v: Json, p: nat): (toks: seq<Token>)
    ensures toks != []
  {
    match v
    case Text(s) => [Token(String, p + 1, p + 1 + |s|, 0)]
    case Bare(s) => [Token(Primitive, p, p + |s|, 0)]
    case List(gap, items) => [Token(Array, p, p + |Print(v)|, Length(items))] + ItemTokens(items, p + 1 + |gap|)
    case Record(gap, members) => [Token(Object, p, p + |Print(v)|, Count(members))] + MemberTokens(members, p + 1 + |gap|)
  }

  function ItemTokens(l: Items, p: nat): seq<Token> {
    match l
    case NoItems => []
    case Item(before, head, after, tail) =>
      Tokens(head, p + |before|) + ItemTokens(tail, p + |before| + |Print(head)| + |after| + 1)
  }

  /** Where the key of a member printed at p starts, and where its value does. */
  function KeyAt(l: Members, p: nat): nat
    requires l.Member?
  {
    p + |l.before| + 1
  }

  function ValueAt(l: Members, p: nat): nat
    requires l.Member?
  {
    KeyAt(l, p) + |l.key| + 1 + |l.colon| + 1 + |l.space|
  }

  function KeyToken(l: Members, p: nat, size: nat): Token
    requires l.Member?
  {
    Token(String, KeyAt(l, p), KeyAt(l, p) + |l.key|, size)
  }

  /** A key is a string token with one child, its value. */
  function MemberTokens(l: Members, p: nat): seq<Token> {
    if l.NoMembers? then []
    else
      var q := ValueAt(l, p);
      [KeyToken(l, p, 1)] + Tokens(l.value, q) + MemberTokens(l.rest, q + |Print(l.value)| + |l.after| + 1)
  }

  // ---------------------------------------------------------------- text at a position

  ghost predicate Here(js: string, p: nat, w: string) {
    p + |w| <= |js| && js[p..p + |w|] == w
  }

  lemma HereSplit(js: string, p: nat, a: string, b: string)
    requires Here(js, p, a + b)
    ensures Here(js, p, a) && Here(js, p + |a|, b)
  {
    assert js[p..p + |a + b|][..|a|] == js[p..p + |a|];
    assert js[p..p + |a + b|][|a|..] == js[p + |a|..p + |a| + |b|];
    assert (a + b)[..|a|] == a && (a + b)[|a|..] == b;
  }

  lemma HereAt(js: string, p: nat, w: string, i: nat)
    requires Here(js, p, w) && i < |w|
    ensures js[p + i] == w[i]
  {}

  /** The end of the input, or a character that ends an unquoted value. */
  ghost predicate Follow(js: string, p: nat) {
    p >= |js| || EndsPrimitive(js[p])
  }

  // ---------------------------------------------------------------- the scanner and the grammar

  /** Where the scanner stands after one piece. */
  lemma PieceScans(w: string, k: nat, x: Piece)
    requires IsPiece(x) && Here(w, k, Spell(x)) && k + |Spell(x)| < |w|
    ensures StringEnd(w, k) == StringEnd(w, k + |Spell(x)|)
  {
    HereAt(w, k, Spell(x), 0);
    if x.Plain? { return; }
    HereAt(w, k, Spell(x), 1);
    if x.Escape? {
      EscapeIs(x.c);
      return;
    }
    UnitScans(w, k, x);
  }

  lemma EscapeIs(c: char)
    ensures c in "\"\\/bfnrt" <==> IsEscape(c)
  {}

  lemma UnitScans(w: string, k: nat, x: Piece)
    requires IsPiece(x) && x.Unit? && Here(w, k, Spell(x)) && k + 6 < |w| && w[k] == '\\' && w[k + 1] == 'u'
    ensures StringEnd(w, k) == StringEnd(w, k + 6)
  {
    HereAt(w, k, Spell(x), 2);
    HereAt(w, k, Spell(x), 3);
    HereAt(w, k, Spell(x), 4);
    HereAt(w, k, Spell(x), 5);
    HexDigits(x.a);
    HexDigits(x.b);
    HexDigits(x.c);
    HexDigits(x.d);
    hide HEX_DIGITS, Here, HexEnd, IsHex;
    FourScan(w, k + 2);
  }

  lemma HexDigits(c: char)
    ensures c in HEX_DIGITS <==> IsHex(c)
    ensures c in HEX_DIGITS ==> c != '\0'
  {
    if '0' <= c <= '9' { assert HEX_DIGITS[c as int - '0' as int] == c; }
    if 'A' <= c <= 'F' { assert HEX_DIGITS[c as int - 'A' as int + 10] == c; }
    if 'a' <= c <= 'f' { assert HEX_DIGITS[c as int - 'a' as int + 16] == c; }
  }

  lemma FourScan(w: string, k: nat)
    requires k + 4 <= |w| && forall i | k <= i < k + 4 :: IsHex(w[i]) && w[i] != '\0'
    ensures HexEnd(w, k, 4) == At(k + 4)
  {
    assert HexEnd(w, k + 4, 0) == At(k + 4);
    assert HexEnd(w, k + 3, 1) == At(k + 4);
    assert HexEnd(w, k + 2, 2) == At(k + 4);
    assert HexEnd(w, k + 1, 3) == At(k + 4);
  }

  lemma SpellFirst(xs: seq<Piece>)
    requires xs != []
    ensures SpellAll(xs) == Spell(xs[0]) + SpellAll(xs[1..]) && (ArePieces(xs) <==> IsPiece(xs[0]) && ArePieces(xs[1..]))
  {
    hide IsPiece, Spell;
  }

  lemma QuoteScans(w: string, k: nat)
    requires k < |w|
    ensures SpellAll([]) == "" && (w[k] == '\"' ==> StringEnd(w, k) == At(k))
  {}

  lemma {:induction false} PiecesScan(w: string, k: nat, xs: seq<Piece>)
    requires ArePieces(xs) && Here(w, k, SpellAll(xs)) && k + |SpellAll(xs)| < |w| && w[k + |SpellAll(xs)|] == '\"'
    ensures StringEnd(w, k) == At(k + |SpellAll(xs)|)
    decreases |xs|
  {
    hide SpellAll, Spell, ArePieces, IsPiece, Here, StringEnd;
    if xs == [] {
      QuoteScans(w, k);
    } else {
      var x, rest := xs[0], SpellAll(xs[1..]);
      SpellFirst(xs);
      assert |Spell(x) + rest| == |Spell(x)| + |rest|;
      HereSplit(w, k, Spell(x), rest);
      PieceScans(w, k, x);
      PiecesScan(w, k + |Spell(x)|, xs[1..]);
    }
  }

  /** What the scanner takes for the contents of a string from k on is spelled by pieces. */
  lemma {:induction false} ScannedPieces(w: string, k: nat) returns (xs: seq<Piece>)
    requires w != "" && k < |w| && StringEnd(w, k) == At(|w| - 1)
    ensures ArePieces(xs) && Here(w, k, SpellAll(xs)) && k + |SpellAll(xs)| == |w| - 1
    decreases |w| - k
  {
    if w[k] == '\"' { return []; }
    hide SpellAll, Spell, ArePieces, IsPiece, Here, StringEnd;
    var x := FirstPiece(w, k);
    var rest := ScannedPieces(w, k + |Spell(x)|);
    xs := [x] + rest;
    assert xs[0] == x && xs[1..] == rest;
    SpellFirst(xs);
    HereJoin(w, k, Spell(x), SpellAll(rest));
  }

  lemma HereJoin(js: string, p: nat, a: string, b: string)
    requires Here(js, p, a) && Here(js, p + |a|, b)
    ensures Here(js, p, a + b)
  {
    assert js[p..p + |a + b|] == js[p..p + |a|] + js[p + |a|..p + |a| + |b|];
  }

  lemma FirstPiece(w: string, k: nat) returns (x: Piece)
    requires w != "" && k < |w| && StringEnd(w, k) == At(|w| - 1) && w[k] != '\"'
    ensures IsPiece(x) && Here(w, k, Spell(x)) && k + |Spell(x)| < |w|
    ensures StringEnd(w, k + |Spell(x)|) == At(|w| - 1)
  {
    if w[k] != '\\' { return Plain(w[k]); }
    if w[k + 1] != 'u' { return Escape(w[k + 1]); }
    FourScanned(w, k + 2);
    x := Unit(w[k + 2], w[k + 3], w[k + 4], w[k + 5]);
    HexDigits(x.a);
    HexDigits(x.b);
    HexDigits(x.c);
    HexDigits(x.d);
    UnitHere(w, k, x);
    hide HexEnd, HEX_DIGITS, Here;
  }

  lemma UnitHere(w: string, k: nat, x: Piece)
    requires k + 6 <= |w| && w[k] == '\\' && w[k + 1] == 'u' && x == Unit(w[k + 2], w[k + 3], w[k + 4], w[k + 5])
    ensures Here(w, k, Spell(x))
  {}

  /** Fewer than four digits are taken only where the text ends, and then it has no closing quote. */
  lemma FourScanned(w: string, k: nat)
    requires k <= |w| && HexEnd(w, k, 4).At? && StringEnd(w, HexEnd(w, k, 4).q).At?
    ensures HexEnd(w, k, 4) == At(k + 4) && k + 4 < |w| && forall i | k <= i < k + 4 :: IsHex(w[i])
  {
    var q := HexEnd(w, k, 4).q;
    assert !AtEnd(w, q);
    assert HexEnd(w, k, 4) == HexEnd(w, k + 1, 3);
    assert HexEnd(w, k + 1, 3) == HexEnd(w, k + 2, 2);
    assert HexEnd(w, k + 2, 2) == HexEnd(w, k + 3, 1);
    assert HexEnd(w, k + 3, 1) == HexEnd(w, k + 4, 0);
  }

  lemma SpelledScans(s: string, xs: seq<Piece>)
    requires ArePieces(xs) && SpellAll(xs) == s
    ensures StringEnd(s + "\"", 0) == At(|s|)
  {
    hide StringEnd, SpellAll, ArePieces;
    assert (s + "\"")[0..|s|] == s;
    PiecesScan(s + "\"", 0, xs);
  }

  /** The parser takes s for the contents of a string if and only if it is made of such pieces. */
  lemma QuotedIfAndOnlyIf(s: string)
    ensures StringEnd(s + "\"", 0) == At(|s|) <==> Quotable(s)
  {
    hide StringEnd, SpellAll, ArePieces;
    if xs :| ArePieces(xs) && SpellAll(xs) == s { SpelledScans(s, xs); }
    if StringEnd(s + "\"", 0) == At(|s|) {
      var xs := ScannedPieces(s + "\"", 0);
      assert (s + "\"")[0..|s|] == s;
    }
  }

  /** It takes s for one unquoted value if and only if all its characters are such. */
  lemma {:induction false} BareIfAndOnlyIf(s: string, k: nat)
    requires k <= |s|
    ensures PrimitiveEnd(s, k) == At(|s|) <==> forall i | k <= i < |s| :: '!' <= s[i] <= '~' && s[i] !in ":,]}"
    decreases |s| - k
  {
    if k < |s| { BareIfAndOnlyIf(s, k + 1); }
  }

  predicate Digits(s: string) { s != "" && forall i | 0 <= i < |s| :: s[i] in "0123456789" }

  /** A number (section 6 of RFC 8259). */
  ghost predicate IsNumber(s: string) {
    exists minus, whole, fraction, exponent ::
      && s == minus + whole + fraction + exponent
      && (minus == "" || minus == "-")
      && (whole == "0" || (Digits(whole) && whole[0] != '0'))
      && (fraction == "" || (fraction[0] == '.' && Digits(fraction[1..])))
      && (exponent == "" || IsExponent(exponent))
  }

  predicate IsExponent(s: string) {
    s != "" && s[0] in "eE" && (Digits(s[1..]) || (|s| > 1 && s[1] in "+-" && Digits(s[2..])))
  }

  predicate Numeric(s: string) { forall i | 0 <= i < |s| :: s[i] in "+-.0123456789eE" }

  lemma NumericIsBare(s: string)
    requires Numeric(s) && s != ""
    ensures IsBare(s)
  {
    forall i | 0 <= i < |s| ensures '!' <= s[i] <= '~' && s[i] !in ":,]}{[\"" { assert s[i] in "+-.0123456789eE"; }
  }

  lemma DigitsAreNumeric(s: string)
    requires Digits(s)
    ensures Numeric(s)
  {
    forall i | 0 <= i < |s| ensures s[i] in "+-.0123456789eE" { assert s[i] in "0123456789"; }
  }

  lemma NumericBehind(a: string, b: string)
    requires Numeric(a) && Numeric(b)
    ensures Numeric(a + b)
  {}

  lemma ExponentIsNumeric(s: string)
    requires IsExponent(s)
    ensures Numeric(s)
  {
    if Digits(s[1..]) {
      DigitsAreNumeric(s[1..]);
      NumericBehind(s[..1], s[1..]);
      assert s == s[..1] + s[1..];
    } else {
      DigitsAreNumeric(s[2..]);
      NumericBehind(s[..2], s[2..]);
      assert s == s[..2] + s[2..];
    }
    hide Digits;
  }

  lemma FractionIsNumeric(s: string)
    requires s == "" || (s[0] == '.' && Digits(s[1..]))
    ensures Numeric(s)
  {
    if s != "" {
      DigitsAreNumeric(s[1..]);
      NumericBehind(".", s[1..]);
      assert s == "." + s[1..];
    }
    hide Digits;
  }

  /** Numbers and the three names of RFC 8259 are unquoted values. */
  lemma LiteralsAreBare(s: string)
    requires IsNumber(s) || s == "true" || s == "false" || s == "null"
    ensures IsBare(s)
  {
    if IsNumber(s) {
      hide Digits, IsBare, Numeric;
      var minus, whole, fraction, exponent :| s == minus + whole + fraction + exponent
        && (minus == "" || minus == "-") && (whole == "0" || (Digits(whole) && whole[0] != '0'))
        && (fraction == "" || (fraction[0] == '.' && Digits(fraction[1..]))) && (exponent == "" || IsExponent(exponent));
      WholeIsNumeric(minus, whole);
      FractionIsNumeric(fraction);
      if exponent != "" { ExponentIsNumeric(exponent); }
      NumericBehind(minus + whole, fraction);
      NothingIsNumeric();
      NumericBehind(minus + whole + fraction, exponent);
      NumericIsBare(s);
    }
  }

  lemma NothingIsNumeric()
    ensures Numeric("")
  {}

  lemma WholeIsNumeric(minus: string, whole: string)
    requires (minus == "" || minus == "-") && (whole == "0" || Digits(whole))
    ensures Numeric(minus + whole) && whole != ""
  {
    if Digits(whole) { DigitsAreNumeric(whole); }
    NumericBehind(minus, whole);
  }

  lemma QuotedHere(js: string, p: nat, s: string)
    requires Here(js, p, "\"" + s + "\"") && Quotable(s)
    ensures StringEnd(js, p + 1) == At(p + 1 + |s|)
  {
    hide StringEnd, SpellAll, ArePieces;
    assert "\"" + s + "\"" == "\"" + (s + "\"");
    HereSplit(js, p, "\"", s + "\"");
    HereSplit(js, p + 1, s, "\"");
    HereAt(js, p + 1 + |s|, "\"", 0);
    var xs :| ArePieces(xs) && SpellAll(xs) == s;
    PiecesScan(js, p + 1, xs);
  }

  lemma {:induction false} BareHere(js: string, p: nat, s: string, k: nat)
    requires Here(js, p, s) && IsBare(s) && k <= |s| && Follow(js, p + |s|)
    ensures PrimitiveEnd(js, p + k) == At(p + |s|)
    decreases |s| - k
  {
    if k < |s| {
      HereAt(js, p, s, k);
      BareHere(js, p, s, k + 1);
    }
  }

  // ---------------------------------------------------------------- tokenising what was printed

  /** d more children for token n. */
  function Bump(toks: seq<Token>, n: int, d: nat): seq<Token>
    requires n < |toks|
  {
    if n < 0 then toks else toks[n := toks[n].(size := toks[n].size + d)]
  }

  predicate IsLeaf(v: Json) { v.Text? || v.Bare? }

  /** The state after the value v printed at p. */
  function After(st: State, v: Json, p: nat): (st': State)
    requires WellScoped(st)
    ensures WellScoped(st')
  {
    State(Bump(st.toks, st.super, 1) + Tokens(v, p), st.open,
          if IsLeaf(v) then st.super else Innermost(st.open))
  }

  lemma BumpBump(toks: seq<Token>, more: seq<Token>, n: nat, d: nat)
    requires n < |toks|
    ensures Bump(Bump(toks, n, 1) + more, n, d) == Bump(toks, n, 1 + d) + more
  {}

  lemma StepIs(js: string, p: nat, max: nat, st: State, o: Outcome)
    requires WellScoped(st) && !AtEnd(js, p) && Step(js, p, max, st) == o && o.Next?
    ensures Tokenize(js, p, max, st) == Tokenize(js, o.p, max, o.st)
  {}

  lemma {:induction false} BlankStep(js: string, p: nat, max: nat, st: State, w: string)
    requires Blank(w) && Here(js, p, w) && WellScoped(st)
    ensures Tokenize(js, p, max, st) == Tokenize(js, p + |w|, max, st)
    decreases |w|
  {
    if w != "" {
      HereAt(js, p, w, 0);
      assert js[p + 1..p + |w|] == w[1..];
      StepIs(js, p, max, st, Next(p + 1, st));
      hide Tokenize, Step;
      BlankStep(js, p + 1, max, st, w[1..]);
    }
  }

  /** White space ends an unquoted value as well. */
  lemma BlankFollows(js: string, p: nat, w: string)
    requires Blank(w) && Here(js, p, w) && Follow(js, p + |w|)
    ensures Follow(js, p)
  {
    if w != "" { HereAt(js, p, w, 0); }
  }

  lemma LeafStep(js: string, p: nat, max: nat, st: State, v: Json)
    requires IsLeaf(v) && Valid(v) && Here(js, p, Print(v)) && Follow(js, p + |Print(v)|)
    requires WellScoped(st) && |st.toks| < max
    ensures Tokenize(js, p, max, st) == Tokenize(js, p + |Print(v)|, max, After(st, v, p))
  {
    hide Quotable;
    HereAt(js, p, Print(v), 0);
    if v.Text? {
      QuotedHere(js, p, v.s);
    } else {
      BareHere(js, p, v.s, 0);
    }
    StepIs(js, p, max, st, Next(p + |Print(v)|, After(st, v, p)));
  }

  lemma {:induction false} ValueStep(js: string, p: nat, max: nat, st: State, v: Json)
    requires Valid(v) && Here(js, p, Print(v)) && Follow(js, p + |Print(v)|)
    requires WellScoped(st) && |st.toks| + |Tokens(v, p)| <= max
    ensures Tokenize(js, p, max, st) == Tokenize(js, p + |Print(v)|, max, After(st, v, p))
    decreases v, 0
  {
    hide Tokenize, StringEnd;
    match v
    case Text(_) => LeafStep(js, p, max, st, v);
    case Bare(_) => LeafStep(js, p, max, st, v);
    case List(gap, items) => ListStep(js, p, max, st, gap, items);
    case Record(gap, members) => RecordStep(js, p, max, st, gap, members);
  }

  lemma ListStep(js: string, p: nat, max: nat, st: State, gap: string, items: Items)
    requires Blank(gap) && ValidItems(items) && Here(js, p, Print(List(gap, items)))
    requires WellScoped(st) && |st.toks| + |Tokens(List(gap, items), p)| <= max
    ensures Tokenize(js, p, max, st) == Tokenize(js, p + |Print(List(gap, items))|, max, After(st, List(gap, items), p))
    decreases items, 1
  {
    hide Quotable, Tokenize, StringEnd;
    var w, n, q := PrintItems(items), |st.toks|, p + 1 + |gap|;
    hide PrintItems, ItemTokens, Length;
    HereAt(js, p, "[" + (gap + (w + "]")), 0);
    HereSplit(js, p, "[", gap + (w + "]"));
    HereSplit(js, p + 1, gap, w + "]");
    HereSplit(js, q, w, "]");
    HereAt(js, q + |w|, "]", 0);
    OpenedIs(js, p, max, st, Array);
    BlankStep(js, p + 1, max, Opened(st, Array, p), gap);
    ItemsStep(js, q, max, Opened(st, Array, p), items, n);
    ClosedIs(js, q + |w|, max, st, Array, p, Length(items), ItemTokens(items, q), n);
  }

  lemma RecordStep(js: string, p: nat, max: nat, st: State, gap: string, members: Members)
    requires Blank(gap) && ValidMembers(members) && Here(js, p, Print(Record(gap, members)))
    requires WellScoped(st) && |st.toks| + |Tokens(Record(gap, members), p)| <= max
    ensures Tokenize(js, p, max, st)
         == Tokenize(js, p + |Print(Record(gap, members))|, max, After(st, Record(gap, members), p))
    decreases members, 2
  {
    hide Quotable, Tokenize, StringEnd;
    var w, n, q := PrintMembers(members), |st.toks|, p + 1 + |gap|;
    hide PrintMembers, MemberTokens, Count;
    HereAt(js, p, "{" + (gap + (w + "}")), 0);
    HereSplit(js, p, "{", gap + (w + "}"));
    HereSplit(js, p + 1, gap, w + "}");
    HereSplit(js, q, w, "}");
    HereAt(js, q + |w|, "}", 0);
    OpenedIs(js, p, max, st, Object);
    BlankStep(js, p + 1, max, Opened(st, Object, p), gap);
    var s := MembersStep(js, q, max, Opened(st, Object, p), members, n);
    ClosedIs(js, q + |w|, max, st, Object, p, Count(members), MemberTokens(members, q), s);
  }

  /** The state just after an opening bracket at p. */
  function Opened(st: State, kind: Kind, p: nat): (st': State)
    requires WellScoped(st)
    ensures WellScoped(st')
  {
    State(Bump(st.toks, st.super, 1) + [Token(kind, p, -1, 0)], st.open + [|st.toks|], |st.toks|)
  }

  lemma OpenedIs(js: string, p: nat, max: nat, st: State, kind: Kind)
    requires WellScoped(st) && IsContainer(kind) && p < |js| && |st.toks| < max
    requires js[p] == if kind == Object then '{' else '['
    ensures Tokenize(js, p, max, st) == Tokenize(js, p + 1, max, Opened(st, kind, p))
  {
    StepIs(js, p, max, st, Next(p + 1, Opened(st, kind, p)));
  }

  /** A comma leaves the innermost open container as the one to count towards. */
  lemma CommaIs(js: string, p: nat, max: nat, st: State)
    requires WellScoped(st) && p < |js| && js[p] == ',' && st.open != []
    requires st.super == Innermost(st.open) || (st.super >= 0 && !IsContainer(st.toks[st.super].kind))
    ensures var st' := st.(super := Innermost(st.open));
            WellScoped(st') && Tokenize(js, p, max, st) == Tokenize(js, p + 1, max, st')
  {
    StepIs(js, p, max, st, Next(p + 1, st.(super := Innermost(st.open))));
  }

  /** Closing the container opened at p in st, with its children in place. */
  lemma ClosedIs(js: string, q: nat, max: nat, st: State, kind: Kind, p: nat, d: nat, inner: seq<Token>, super: int)
    requires WellScoped(st) && IsContainer(kind) && q < |js|
    requires js[q] == if kind == Object then '}' else ']'
    requires -1 <= super < |st.toks| + 1 + |inner|
    ensures var n := |st.toks|;
            var before := State(Bump(Opened(st, kind, p).toks, n, d) + inner, st.open + [n], super);
            var after := State(Bump(st.toks, st.super, 1) + ([Token(kind, p, q + 1, d)] + inner), st.open, Innermost(st.open));
            WellScoped(before) && WellScoped(after) && Tokenize(js, q, max, before) == Tokenize(js, q + 1, max, after)
  {
    var n := |st.toks|;
    var before := State(Bump(Opened(st, kind, p).toks, n, d) + inner, st.open + [n], super);
    var after := State(Bump(st.toks, st.super, 1) + ([Token(kind, p, q + 1, d)] + inner), st.open, Innermost(st.open));
    assert before.toks[n] == Token(kind, p, -1, d);
    assert before.open[..|before.open| - 1] == st.open;
    assert before.toks[n := before.toks[n].(end := q + 1)] == after.toks;
    StepIs(js, q, max, before, Next(q + 1, after));
  }

  lemma {:induction false} ItemsStep(js: string, p: nat, max: nat, st: State, l: Items, n: nat)
    requires ValidItems(l) && Here(js, p, PrintItems(l)) && Follow(js, p + |PrintItems(l)|)
    requires WellScoped(st) && st.super == n == Innermost(st.open) && IsContainer(st.toks[n].kind)
    requires |st.toks| + |ItemTokens(l, p)| <= max
    ensures Tokenize(js, p, max, st)
         == Tokenize(js, p + |PrintItems(l)|, max,
                     State(Bump(st.toks, n, Length(l)) + ItemTokens(l, p), st.open, n))
    decreases l, 0
  {
    hide Quotable, Tokenize, StringEnd, Print, Tokens, Here, Follow;
    var done := State(Bump(st.toks, n, Length(l)) + ItemTokens(l, p), st.open, n);
    if l == NoItems {
      assert done == st;
      return;
    }
    var q := p + |l.before|;
    var r := q + |Print(l.head)|;
    var st1 := After(st, l.head, q);
    ItemText(js, p, l);
    BlankStep(js, p, max, st, l.before);
    ValueStep(js, q, max, st, l.head);
    BlankStep(js, r, max, st1, l.after);
    var e := r + |l.after|;
    if l.tail == NoItems {
      assert ItemTokens(l, p) == Tokens(l.head, q) + [];
      assert done == st1;
    } else {
      CommaIs(js, e, max, st1);
      BumpBump(st.toks, Tokens(l.head, q), n, Length(l.tail));
      assert done.toks == Bump(st1.toks, n, Length(l.tail)) + ItemTokens(l.tail, e + 1);
      ItemsStep(js, e + 1, max, st1, l.tail, n);
    }
  }

  lemma ItemText(js: string, p: nat, l: Items)
    requires l.Item? && ValidItems(l) && Here(js, p, PrintItems(l)) && Follow(js, p + |PrintItems(l)|)
    ensures var q := p + |l.before|;
            var r := q + |Print(l.head)|;
            var e := r + |l.after|;
            && Here(js, p, l.before) && Here(js, q, Print(l.head)) && Here(js, r, l.after) && Follow(js, r)
            && (l.tail.Item? ==> e < |js| && js[e] == ',' && Here(js, e + 1, PrintItems(l.tail)))
            && p + |PrintItems(l)| == if l.tail.NoItems? then e else e + 1 + |PrintItems(l.tail)|
  {
    hide Print, Here, Follow, Valid, PrintItems;
    ItemPrints(l);
    var q := p + |l.before|;
    var r := q + |Print(l.head)|;
    var behind := l.after + MoreItems(l.tail);
    HereSplit(js, p, l.before, Print(l.head) + behind);
    HereSplit(js, q, Print(l.head), behind);
    HereSplit(js, r, l.after, MoreItems(l.tail));
    if l.tail.Item? {
      HereAt(js, r + |l.after|, MoreItems(l.tail), 0);
      HereSplit(js, r + |l.after|, ",", PrintItems(l.tail));
    }
    FollowsMore(js, r + |l.after|, l.tail);
    BlankFollows(js, r, l.after);
  }

  lemma ItemPrints(l: Items)
    requires l.Item?
    ensures PrintItems(l) == l.before + (Print(l.head) + (l.after + MoreItems(l.tail)))
  {}

  lemma FollowsMore(js: string, p: nat, l: Items)
    requires Here(js, p, MoreItems(l)) && Follow(js, p + |MoreItems(l)|)
    ensures Follow(js, p)
  {
    if l.Item? { HereAt(js, p, MoreItems(l), 0); }
  }

  lemma {:induction false} MembersStep(js: string, p: nat, max: nat, st: State, l: Members, n: nat) returns (s: int)
    requires ValidMembers(l) && Here(js, p, PrintMembers(l)) && Follow(js, p + |PrintMembers(l)|)
    requires WellScoped(st) && st.super == n == Innermost(st.open) && IsContainer(st.toks[n].kind)
    requires |st.toks| + |MemberTokens(l, p)| <= max
    ensures var done := State(Bump(st.toks, n, Count(l)) + MemberTokens(l, p), st.open, s);
            WellScoped(done) && Tokenize(js, p, max, st) == Tokenize(js, p + |PrintMembers(l)|, max, done)
    decreases l, 1
  {
    hide Quotable, Tokenize, StringEnd, Print, Tokens, Here, Follow;
    if l == NoMembers {
      s := n;
      assert State(Bump(st.toks, n, 0) + [], st.open, n) == st;
      return;
    }
    var q := ValueAt(l, p);
    var e := q + |Print(l.value)| + |l.after|;
    MemberText(js, p, l);
    var st2 := MemberStep(js, p, max, st, l, n);
    var one := [KeyToken(l, p, 1)] + Tokens(l.value, q);
    if l.rest == NoMembers {
      s := st2.super;
      assert MemberTokens(l, p) == one + [];
      assert Count(l) == 1;
      assert State(Bump(st.toks, n, Count(l)) + MemberTokens(l, p), st.open, s) == st2;
    } else {
      var st3 := st2.(super := n);
      CommaIs(js, e, max, st2);
      BumpBump(st.toks, one, n, Count(l.rest));
      assert Bump(st3.toks, n, Count(l.rest)) + MemberTokens(l.rest, e + 1)
          == Bump(st.toks, n, Count(l)) + MemberTokens(l, p);
      s := MembersStep(js, e + 1, max, st3, l.rest, n);
    }
  }

  /** The parts of a printed member in their places. */
  lemma MemberText(js: string, p: nat, l: Members)
    requires l.Member? && ValidMembers(l) && Here(js, p, PrintMembers(l)) && Follow(js, p + |PrintMembers(l)|)
    ensures var k := KeyAt(l, p);
            var c := k + |l.key| + 1;
            var q := ValueAt(l, p);
            var r := q + |Print(l.value)|;
            var e := r + |l.after|;
            && Here(js, p, l.before) && Here(js, k - 1, "\"" + l.key + "\"") && Here(js, c, l.colon)
            && c + |l.colon| < |js| && js[c + |l.colon|] == ':' && Here(js, c + |l.colon| + 1, l.space)
            && Here(js, q, Print(l.value)) && Here(js, r, l.after) && Follow(js, r)
            && (l.rest.Member? ==> e < |js| && js[e] == ',' && Here(js, e + 1, PrintMembers(l.rest)))
            && p + |PrintMembers(l)| == if l.rest.NoMembers? then e else e + 1 + |PrintMembers(l.rest)|
  {
    hide Print, Here, Follow, Valid, Quotable, PrintValue;
    KeyText(js, p, l);
    assert p + |PrintMembers(l)| == ValueAt(l, p) + |PrintValue(l)|;
    ValueText(js, ValueAt(l, p), l);
  }

  lemma KeyText(js: string, p: nat, l: Members)
    requires l.Member? && Here(js, p, PrintMembers(l))
    ensures var k := KeyAt(l, p);
            var c := k + |l.key| + 1;
            && Here(js, p, l.before) && Here(js, k - 1, "\"" + l.key + "\"") && Here(js, c, l.colon)
            && c + |l.colon| < |js| && js[c + |l.colon|] == ':' && Here(js, c + |l.colon| + 1, l.space)
            && Here(js, ValueAt(l, p), PrintValue(l))
  {
    hide Print, Here, PrintValue;
    var k := KeyAt(l, p);
    var c := k + |l.key| + 1;
    var quoted, behind := "\"" + l.key + "\"", ":" + (l.space + PrintValue(l));
    HereSplit(js, p, l.before, quoted + (l.colon + behind));
    HereSplit(js, k - 1, quoted, l.colon + behind);
    HereSplit(js, c, l.colon, behind);
    HereSplit(js, c + |l.colon|, ":", l.space + PrintValue(l));
    HereAt(js, c + |l.colon|, ":", 0);
    HereSplit(js, c + |l.colon| + 1, l.space, PrintValue(l));
  }

  lemma ValueText(js: string, q: nat, l: Members)
    requires l.Member? && Blank(l.after) && Here(js, q, PrintValue(l)) && Follow(js, q + |PrintValue(l)|)
    ensures var r := q + |Print(l.value)|;
            var e := r + |l.after|;
            && Here(js, q, Print(l.value)) && Here(js, r, l.after) && Follow(js, r)
            && (l.rest.Member? ==> e < |js| && js[e] == ',' && Here(js, e + 1, PrintMembers(l.rest)))
            && q + |PrintValue(l)| == if l.rest.NoMembers? then e else e + 1 + |PrintMembers(l.rest)|
  {
    hide Print, Here, PrintMembers;
    var r := q + |Print(l.value)|;
    HereSplit(js, q, Print(l.value), l.after + MoreMembers(l.rest));
    HereSplit(js, r, l.after, MoreMembers(l.rest));
    if l.rest.Member? {
      HereAt(js, r + |l.after|, MoreMembers(l.rest), 0);
      HereSplit(js, r + |l.after|, ",", PrintMembers(l.rest));
    }
    BlankFollows(js, r, l.after);
  }

  /** One key, its colon and its value. */
  lemma MemberStep(js: string, p: nat, max: nat, st: State, l: Members, n: nat) returns (st2: State)
    requires l.Member? && ValidMembers(l) && Here(js, p, PrintMembers(l)) && Follow(js, p + |PrintMembers(l)|)
    requires WellScoped(st) && st.super == n == Innermost(st.open)
    requires |st.toks| + 1 + |Tokens(l.value, ValueAt(l, p))| <= max
    ensures var q := ValueAt(l, p);
            && WellScoped(st2)
            && Tokenize(js, p, max, st) == Tokenize(js, q + |Print(l.value)| + |l.after|, max, st2)
            && st2.toks == Bump(st.toks, n, 1) + ([KeyToken(l, p, 1)] + Tokens(l.value, q))
            && st2.open == st.open
            && (st2.super == n || (st2.super == |st.toks| && st2.toks[st2.super].kind == String))
    decreases l, 0
  {
    hide Quotable, Blank, Valid, Tokenize, StringEnd, Print, Tokens;
    var q := ValueAt(l, p);
    MemberText(js, p, l);
    hide Here, Follow, PrintMembers;
    BlankStep(js, p, max, st, l.before);
    var st1 := KeyStep(js, KeyAt(l, p) - 1, max, st, l.key, l.colon);
    BlankStep(js, q - |l.space|, max, st1, l.space);
    ValueStep(js, q, max, st1, l.value);
    st2 := After(st1, l.value, q);
    BlankStep(js, q + |Print(l.value)|, max, st2, l.after);
  }

  /** A colon makes the last token the one to count towards. */
  lemma ColonIs(js: string, p: nat, max: nat, st: State)
    requires WellScoped(st) && p < |js| && js[p] == ':'
    ensures var st' := st.(super := |st.toks| - 1);
            WellScoped(st') && Tokenize(js, p, max, st) == Tokenize(js, p + 1, max, st')
  {
    hide Tokenize, StringEnd;
    StepIs(js, p, max, st, Next(p + 1, st.(super := |st.toks| - 1)));
  }

  lemma QuotedStep(js: string, p: nat, max: nat, st: State, key: string) returns (mid: State)
    requires Quotable(key) && Here(js, p, "\"" + key + "\"") && WellScoped(st) && |st.toks| < max
    ensures mid == State(Bump(st.toks, st.super, 1) + [Token(String, p + 1, p + 1 + |key|, 0)], st.open, st.super)
    ensures WellScoped(mid) && Tokenize(js, p, max, st) == Tokenize(js, p + |key| + 2, max, mid)
  {
    hide Quotable, Tokenize;
    HereAt(js, p, Print(Text(key)), 0);
    QuotedHere(js, p, key);
    mid := After(st, Text(key), p);
    StepIs(js, p, max, st, Next(p + |key| + 2, mid));
  }

  /** A key and its colon: the key becomes the token that the value counts towards. */
  lemma KeyStep(js: string, p: nat, max: nat, st: State, key: string, colon: string) returns (st1: State)
    requires Quotable(key) && Blank(colon) && Here(js, p, "\"" + key + "\"") && Here(js, p + |key| + 2, colon)
    requires p + |key| + 2 + |colon| < |js| && js[p + |key| + 2 + |colon|] == ':'
    requires WellScoped(st) && |st.toks| < max && st.super >= 0
    ensures st1 == State(Bump(st.toks, st.super, 1) + [Token(String, p + 1, p + 1 + |key|, 0)], st.open, |st.toks|)
    ensures WellScoped(st1) && Tokenize(js, p, max, st) == Tokenize(js, p + |key| + 3 + |colon|, max, st1)
  {
    hide Tokenize, Here, Quotable, Blank;
    var mid := QuotedStep(js, p, max, st, key);
    st1 := mid.(super := |st.toks|);
    BlankStep(js, p + |key| + 2, max, mid, colon);
    ColonIs(js, p + |key| + 2 + |colon|, max, mid);
  }

  lemma EndIs(js: string, max: nat, st: State)
    requires WellScoped(st) && st.open == []
    ensures Tokenize(js, |js|, max, st) == Next(|js|, st)
  {}

  lemma TextTokenizes(js: string, p: nat, v: Json, after: string, max: nat)
    requires |js| == p + |Print(v)| + |after| && Here(js, 0, js[..p]) && Blank(js[..p])
    requires Here(js, p, Print(v)) && Valid(v) && Here(js, p + |Print(v)|, after) && Blank(after)
    requires |Tokens(v, p)| <= max
    ensures Tokenize(js, 0, max, START) == Next(|js|, State(Tokens(v, p), [], -1))
  {
    hide Here, Follow, Blank, Print, Tokens, Valid, Tokenize;
    BlankStep(js, 0, max, START, js[..p]);
    EndFollows(js);
    BlankFollows(js, p + |Print(v)|, after);
    ValueStep(js, p, max, START, v);
    var st := After(START, v, p);
    BlankStep(js, p + |Print(v)|, max, st, after);
    assert st.toks == [] + Tokens(v, p) == Tokens(v, p);
    EndIs(js, max, st);
  }

  lemma EndFollows(js: string)
    ensures Follow(js, |js|)
  {}

  /** Tokenising a printed value, in its white space, with room for its tokens yields exactly those
      tokens. */
  lemma PrintedValueTokenizes(before: string, v: Json, after: string, max: nat)
    requires Blank(before) && Valid(v) && Blank(after) && |Tokens(v, |before|)| <= max
    ensures var js := before + (Print(v) + after);
      && Tokenize(js, 0, max, START) == Next(|js|, State(Tokens(v, |before|), [], -1))
      && WellNested(js, Tokens(v, |before|))
  {
    var js := before + (Print(v) + after);
    assert Here(js, 0, js) && js[..|before|] == before;
    hide Here, Follow, Blank, Print, Tokens, Valid, Tokenize, WellNested;
    HereSplit(js, 0, before, Print(v) + after);
    HereSplit(js, |before|, Print(v), after);
    TextTokenizes(js, |before|, v, after, max);
    TokenizeNests(js, 0, max, START);
  }

  /** A counting call on it returns the number of tokens. */
  lemma PrintedValueCounts(before: string, v: Json, after: string)
    requires Blank(before) && Valid(v) && Blank(after)
    ensures CountFrom(before + (Print(v) + after), 0) == |Tokens(v, |before|)|
  {
    var n := |Tokens(v, |before|)|;
    PrintedValueTokenizes(before, v, after, n);
    CountMatchesFill(before + (Print(v) + after), 0, n, START);
  }
}

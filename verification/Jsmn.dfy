/** The in-place JSON tokeniser of components/kvs_utils/include/jsmn.h, in its default build
    (neither JSMN_STRICT nor JSMN_PARENT_LINKS). */
module Jsmn {

  datatype Kind = Undefined | Object | Array | String | Primitive

  predicate IsContainer(k: Kind) { k == Object || k == Array }

  /** end == -1 marks an open container. */
  datatype Token = Token(kind: Kind, start: int, end: int, size: int)

  const ERROR_NOMEM: int := -1
  const ERROR_INVAL: int := -2
  const ERROR_PART: int := -3

  // ---------------------------------------------------------------- scanning one token

  datatype Scan = At(q: nat) | Invalid | Partial

  predicate AtEnd(js: string, p: nat) { p >= |js| || js[p] == '\0' }

  predicate EndsPrimitive(c: char) {
    c == ':' || c == '\t' || c == '\r' || c == '\n' || c == ' ' || c == ',' || c == ']' || c == '}'
  }

  predicate Printable(c: char) { 32 <= c as int < 127 }

  predicate IsHex(c: char) {
    '0' <= c <= '9' || 'A' <= c <= 'F' || 'a' <= c <= 'f'
  }

  predicate IsEscape(c: char) {
    c == '\"' || c == '/' || c == '\\' || c == 'b' || c == 'f' || c == 'r' || c == 'n' || c == 't'
  }

  /** Where the unquoted value starting at p ends: at its first delimiter or the end of input. */
  function PrimitiveEnd(js: string, p: nat): (s: Scan)
    ensures s != Partial
    ensures s.At? && p <= |js| ==> p <= s.q <= |js|
    decreases |js| - p
  {
    if AtEnd(js, p) || EndsPrimitive(js[p]) then At(p)
    else if !Printable(js[p]) then Invalid
    else PrimitiveEnd(js, p + 1)
  }

  /** The first position past at most n hex digits. */
  function HexEnd(js: string, p: nat, n: nat): (s: Scan)
    ensures s != Partial
    ensures s.At? && p <= |js| ==> p <= s.q <= |js|
    decreases n
  {
    if n == 0 || AtEnd(js, p) then At(p)
    else if !IsHex(js[p]) then Invalid
    else HexEnd(js, p + 1, n - 1)
  }

  /** The closing quote of the string whose contents start at p. */
  function StringEnd(js: string, p: nat): (s: Scan)
    ensures s.At? ==> p <= s.q < |js| && js[s.q] == '\"'
    decreases |js| - p
  {
    if AtEnd(js, p) then Partial
    else if js[p] == '\"' then At(p)
    else if js[p] == '\\' && p + 1 < |js| then
      if IsEscape(js[p + 1]) then StringEnd(js, p + 2)
      else if js[p + 1] == 'u' then
        var h := HexEnd(js, p + 2, 4);
        if h.At? then StringEnd(js, h.q) else Invalid
      else Invalid
    else StringEnd(js, p + 1)
  }

  // ---------------------------------------------------------------- tokenising with a stack

  /** The tokens so far, the indices of the open containers with the innermost last, and the
      token whose size the next value counts towards. */
  datatype State = State(toks: seq<Token>, open: seq<nat>, super: int)

  const START := State([], [], -1)

  datatype Outcome = Next(p: nat, st: State) | Fail(code: int)

  function Innermost(open: seq<nat>): int {
    if open == [] then -1 else open[|open| - 1]
  }

  predicate WellScoped(st: State) {
    && -1 <= st.super < |st.toks|
    && forall k | 0 <= k < |st.open| :: st.open[k] < |st.toks|
  }

  /** One more child for the current super token, if there is one. */
  function Counted(st: State): (toks: seq<Token>)
    requires WellScoped(st)
    ensures |toks| == |st.toks|
    ensures forall k | 0 <= k < |toks| :: toks[k] == st.toks[k].(size := toks[k].size)
  {
    if st.super == -1 then st.toks
    else st.toks[st.super := st.toks[st.super].(size := st.toks[st.super].size + 1)]
  }

  function Append(st: State, max: nat, t: Token, p: nat): Outcome
    requires WellScoped(st)
  {
    if |st.toks| >= max then Fail(ERROR_NOMEM)
    else Next(p, st.(toks := Counted(st) + [t]))
  }

  function KindOf(c: char): Kind {
    if c == '{' || c == '}' then Object else Array
  }

  /** Consume the character at p, or the whole string or primitive that starts there. */
  function Step(js: string, p: nat, max: nat, st: State): (o: Outcome)
    requires WellScoped(st) && !AtEnd(js, p)
    ensures o.Next? ==> WellScoped(o.st) && p < o.p <= |js|
  {
    var c := js[p];
    if c == '{' || c == '[' then
      var o := Append(st, max, Token(KindOf(c), p, -1, 0), p + 1);
      if o.Fail? then o
      else Next(p + 1, State(o.st.toks, st.open + [|st.toks|], |st.toks|))
    else if c == '}' || c == ']' then
      var i := Innermost(st.open);
      if i == -1 || st.toks[i].kind != KindOf(c) then Fail(ERROR_INVAL)
      else
        var open := st.open[..|st.open| - 1];
        Next(p + 1, State(st.toks[i := st.toks[i].(end := p + 1)], open, Innermost(open)))
    else if c == '\"' then
      match StringEnd(js, p + 1)
      case Invalid => Fail(ERROR_INVAL)
      case Partial => Fail(ERROR_PART)
      case At(q) => Append(st, max, Token(String, p + 1, q, 0), q + 1)
    else if c == '\t' || c == '\r' || c == '\n' || c == ' ' then Next(p + 1, st)
    else if c == ':' then Next(p + 1, st.(super := |st.toks| - 1))
    else if c == ',' then
      if st.super != -1 && !IsContainer(st.toks[st.super].kind) && st.open != []
      then Next(p + 1, st.(super := Innermost(st.open)))
      else Next(p + 1, st)
    else
      match PrimitiveEnd(js, p)
      case At(q) => Append(st, max, Token(Primitive, p, q, 0), q)
      case _ => Fail(ERROR_INVAL)
  }

  /** Tokenise the rest of the text from p. */
  function Tokenize(js: string, p: nat, max: nat, st: State): (o: Outcome)
    requires WellScoped(st)
    ensures o.Next? ==> WellScoped(o.st) && o.st.open == [] && |o.st.toks| >= |st.toks|
    ensures o.Fail? ==> o.code in {ERROR_NOMEM, ERROR_INVAL, ERROR_PART}
    decreases |js| - p
  {
    if AtEnd(js, p) then
      if st.open == [] then Next(p, st) else Fail(ERROR_PART)
    else
      var o := Step(js, p, max, st);
      if o.Next? then Tokenize(js, o.p, max, o.st) else o
  }

  // ---------------------------------------------------------------- what the tokens are

  /** The token is a piece of the text before p that looks like its kind. */
  ghost predicate Delimited(js: string, p: nat, t: Token) {
    && 0 <= t.start < p <= |js|
    && (t.end == -1 || t.start <= t.end <= p)
    && match t.kind
       case Object => js[t.start] == '{' && (t.end != -1 ==> t.start < t.end && js[t.end - 1] == '}')
       case Array => js[t.start] == '[' && (t.end != -1 ==> t.start < t.end && js[t.end - 1] == ']')
       case String => 0 < t.start && t.end >= 0 && js[t.start - 1] == '\"' && StringEnd(js, t.start) == At(t.end)
       case Primitive => t.start < t.end && PrimitiveEnd(js, t.start) == At(t.end)
       case Undefined => false
  }

  /** Two tokens in order of appearance are disjoint, or the later one lies strictly inside the
      earlier, which is then a container. */
  ghost predicate Nested(outer: Token, inner: Token) {
    && outer.start < inner.start
    && (outer.end != -1 ==>
          || outer.end <= inner.start
          || (IsContainer(outer.kind) && inner.end != -1 && inner.end < outer.end))
  }

  /** What every step keeps: closed tokens nest, and the stack is exactly the open ones. */
  ghost predicate Shape(js: string, p: nat, st: State) {
    && WellScoped(st)
    && p <= |js|
    && (forall k | 0 <= k < |st.toks| :: Delimited(js, p, st.toks[k]))
    && (forall i, j | 0 <= i < j < |st.toks| :: Nested(st.toks[i], st.toks[j]))
    && (forall k | 0 <= k < |st.toks| :: st.toks[k].end == -1 <==> k in st.open)
    && (forall a, b | 0 <= a < b < |st.open| :: st.open[a] < st.open[b])
  }

  lemma OpenKeepsShape(js: string, p: nat, st: State, toks: seq<Token>)
    requires Shape(js, p, st) && !AtEnd(js, p) && (js[p] == '{' || js[p] == '[')
    requires toks == Counted(st) + [Token(KindOf(js[p]), p, -1, 0)]
    ensures Shape(js, p + 1, State(toks, st.open + [|st.toks|], |st.toks|))
  {
    var st' := State(toks, st.open + [|st.toks|], |st.toks|);
    forall k | 0 <= k < |toks| ensures toks[k].end == -1 <==> k in st'.open {
      if k < |st.toks| {
        assert toks[k].end == st.toks[k].end;
        assert k in st'.open <==> k in st.open;
      } else {
        assert st'.open[|st.open|] == k;
      }
    }
    forall k | 0 <= k < |toks| ensures Delimited(js, p + 1, toks[k]) {
      if k < |st.toks| {
        assert Delimited(js, p, st.toks[k]);
      }
    }
    forall a, b | 0 <= a < b < |toks| ensures Nested(toks[a], toks[b]) {
      if b < |st.toks| {
        assert Nested(st.toks[a], st.toks[b]);
      } else {
        assert Delimited(js, p, st.toks[a]);
      }
    }
  }

  lemma CloseKeepsShape(js: string, p: nat, st: State)
    requires Shape(js, p, st) && !AtEnd(js, p) && (js[p] == '}' || js[p] == ']')
    requires st.open != [] && st.toks[Innermost(st.open)].kind == KindOf(js[p])
    ensures var i := Innermost(st.open);
            var open := st.open[..|st.open| - 1];
            Shape(js, p + 1, State(st.toks[i := st.toks[i].(end := p + 1)], open, Innermost(open)))
  {}

  lemma LeafKeepsShape(js: string, p: nat, st: State, t: Token, q: nat)
    requires Shape(js, p, st) && p < q <= |js|
    requires Delimited(js, q, t) && p <= t.start && t.end != -1
    ensures Shape(js, q, st.(toks := Counted(st) + [t]))
  {
    var toks := Counted(st) + [t];
    forall k | 0 <= k < |toks| ensures toks[k].end == -1 <==> k in st.open {
      if k < |st.toks| {
        assert toks[k].end == st.toks[k].end;
      }
    }
    forall a, b | 0 <= a < b < |toks| ensures Nested(toks[a], toks[b]) {
      if b < |st.toks| {
        assert Nested(st.toks[a], st.toks[b]);
      } else {
        assert Delimited(js, p, st.toks[a]);
      }
    }
  }

  lemma StepKeepsShape(js: string, p: nat, max: nat, st: State)
    requires Shape(js, p, st) && !AtEnd(js, p) && Step(js, p, max, st).Next?
    ensures Shape(js, Step(js, p, max, st).p, Step(js, p, max, st).st)
  {
    var c := js[p];
    if c == '{' || c == '[' {
      OpenKeepsShape(js, p, st, Counted(st) + [Token(KindOf(c), p, -1, 0)]);
    } else if c == '}' || c == ']' {
      CloseKeepsShape(js, p, st);
    } else if c == '\"' {
      var q := StringEnd(js, p + 1).q;
      LeafKeepsShape(js, p, st, Token(String, p + 1, q, 0), q + 1);
    } else if c == '\t' || c == '\r' || c == '\n' || c == ' ' || c == ':' || c == ',' {
      assert forall k | 0 <= k < |st.toks| :: Delimited(js, p, st.toks[k]) ==> Delimited(js, p + 1, st.toks[k]);
    } else {
      var q := PrimitiveEnd(js, p).q;
      LeafKeepsShape(js, p, st, Token(Primitive, p, q, 0), q);
    }
  }

  /** The token list of a fully tokenised text. */
  ghost predicate WellNested(js: string, toks: seq<Token>) {
    && (forall k | 0 <= k < |toks| :: toks[k].end != -1 && Delimited(js, |js|, toks[k]))
    && (forall i, j | 0 <= i < j < |toks| :: Nested(toks[i], toks[j]))
  }

  lemma {:induction false} TokenizeNests(js: string, p: nat, max: nat, st: State)
    requires Shape(js, p, st) && Tokenize(js, p, max, st).Next?
    ensures WellNested(js, Tokenize(js, p, max, st).st.toks)
    decreases |js| - p
  {
    if AtEnd(js, p) {
      forall k | 0 <= k < |st.toks| ensures st.toks[k].end != -1 && Delimited(js, |js|, st.toks[k]) {
        assert k !in st.open;
        assert Delimited(js, p, st.toks[k]);
      }
    } else {
      var o := Step(js, p, max, st);
      StepKeepsShape(js, p, max, st);
      TokenizeNests(js, o.p, max, o.st);
    }
  }

  // ---------------------------------------------------------------- counting without tokens

  function Plus(n: nat, r: int): int {
    if r < 0 then r else n + r
  }

  /** What a call without a token array returns: the number of values, or the first scan error.
      Brackets are not matched. */
  function CountFrom(js: string, p: nat): (r: int)
    ensures r >= 0 || r == ERROR_INVAL || r == ERROR_PART
    decreases |js| - p
  {
    if AtEnd(js, p) then 0
    else
      var c := js[p];
      if c == '{' || c == '[' then Plus(1, CountFrom(js, p + 1))
      else if c == '\"' then
        match StringEnd(js, p + 1)
        case Invalid => ERROR_INVAL
        case Partial => ERROR_PART
        case At(q) => Plus(1, CountFrom(js, q + 1))
      else if EndsPrimitive(c) then CountFrom(js, p + 1)
      else
        match PrimitiveEnd(js, p)
        case At(q) => assert q > p; Plus(1, CountFrom(js, q))
        case _ => ERROR_INVAL
  }

  /** A filling call that succeeds returns what a counting call returns, and a filling call with
      at least that much room never runs out of tokens. */
  lemma {:induction false} CountMatchesFill(js: string, p: nat, max: nat, st: State)
    requires WellScoped(st)
    ensures var o, n := Tokenize(js, p, max, st), CountFrom(js, p);
            && (o.Next? ==> n >= 0 && |o.st.toks| == |st.toks| + n)
            && (n >= 0 && |st.toks| + n <= max ==> o != Fail(ERROR_NOMEM))
    decreases |js| - p
  {
    if AtEnd(js, p) {
      TokenizeEnds(js, p, max, st);
      CountEnds(js, p);
    } else {
      var o := Step(js, p, max, st);
      TokenizeGoesOn(js, p, max, st);
      hide Tokenize;
      StepCounts(js, p, max, st);
      hide Step, CountFrom;
      if o.Next? {
        CountMatchesFill(js, o.p, max, o.st);
      }
    }
  }

  /** One step adds as many tokens as it counts. */
  lemma StepCounts(js: string, p: nat, max: nat, st: State)
    requires WellScoped(st) && !AtEnd(js, p)
    ensures var o, n := Step(js, p, max, st), CountFrom(js, p);
      && (o.Next? ==> |st.toks| <= |o.st.toks| <= |st.toks| + 1 && n == Plus(|o.st.toks| - |st.toks|, CountFrom(js, o.p)))
      && (n >= 0 && |st.toks| + n <= max ==> o != Fail(ERROR_NOMEM))
  {
    hide StringEnd, PrimitiveEnd, Tokenize;
  }

  // ---------------------------------------------------------------- the parser

  /** The return code of scanning one token. */
  function ScanResult(s: Scan, room: bool): int {
    match s
    case Invalid => ERROR_INVAL
    case Partial => ERROR_PART
    case At(_) => if room then 0 else ERROR_NOMEM
  }

  /** jsmn_parser */
  class Parser {
    var pos: nat
    var toknext: nat
    var toksuper: int

    /** jsmn_init */
    constructor ()
      ensures pos == 0 && toknext == 0 && toksuper == -1
    {
      pos, toknext, toksuper := 0, 0, -1;
    }

    /** jsmn_alloc_token: the index of a fresh token, -1 when there is none left. */
    method AllocToken(tokens: array<Token>, numTokens: nat) returns (i: int)
      requires numTokens <= tokens.Length
      modifies this`toknext, tokens
      ensures old(toknext) >= numTokens ==> i == -1 && toknext == old(toknext) && tokens[..] == old(tokens[..])
      ensures old(toknext) < numTokens ==>
                && i == old(toknext) && toknext == i + 1
                && tokens[..] == old(tokens[..])[i := Token(old(tokens[i].kind), -1, -1, 0)]
    {
      if toknext >= numTokens {
        return -1;
      }
      i := toknext;
      toknext := toknext + 1;
      tokens[i] := Token(tokens[i].kind, -1, -1, 0);
    }

    /** jsmn_parse_primitive */
    method ParsePrimitive(js: string, tokens: array?<Token>, numTokens: nat) returns (r: int)
      requires pos < |js| && !AtEnd(js, pos) && !EndsPrimitive(js[pos])
      requires tokens != null ==> numTokens <= tokens.Length
      modifies this`pos, this`toknext, tokens
      ensures r == ScanResult(PrimitiveEnd(js, old(pos)), tokens == null || old(toknext) < numTokens)
      ensures if r == 0 then PrimitiveEnd(js, old(pos)) == At(pos + 1) else pos == old(pos)
      ensures tokens == null ==> toknext == old(toknext)
      ensures tokens != null && r != 0 ==> toknext == old(toknext) && tokens[..] == old(tokens[..])
      ensures tokens != null && r == 0 ==>
                && toknext == old(toknext) + 1 <= numTokens
                && tokens[..] == old(tokens[..])[old(toknext) := Token(Primitive, old(pos), pos + 1, 0)]
    {
      var start := pos;
      while pos < |js| && js[pos] != '\0'
        invariant start <= pos <= |js|
        invariant PrimitiveEnd(js, start) == PrimitiveEnd(js, pos)
        invariant toknext == old(toknext) && (tokens != null ==> tokens[..] == old(tokens[..]))
      {
        if EndsPrimitive(js[pos]) {
          break;
        }
        if js[pos] as int < 32 || js[pos] as int >= 127 {
          pos := start;
          return ERROR_INVAL;
        }
        pos := pos + 1;
      }
      assert PrimitiveEnd(js, start) == At(pos);
      assert pos > start;
      if tokens == null {
        pos := pos - 1;
        return 0;
      }
      var token := AllocToken(tokens, numTokens);
      if token == -1 {
        pos := start;
        return ERROR_NOMEM;
      }
      tokens[token] := Token(Primitive, start, pos, 0);
      pos := pos - 1;
      return 0;
    }

    /** The four hex digits of an escape, from just after the u to just past the last one read. */
    method SkipHex(js: string) returns (valid: bool)
      requires pos <= |js|
      modifies this`pos
      ensures HexEnd(js, old(pos), 4) == if valid then At(pos) else Invalid
      ensures pos <= |js|
    {
      var i := 0;
      while i < 4 && pos < |js| && js[pos] != '\0'
        invariant 0 <= i <= 4 && pos <= |js|
        invariant HexEnd(js, old(pos), 4) == HexEnd(js, pos, 4 - i)
      {
        if !IsHex(js[pos]) {
          return false;
        }
        pos := pos + 1;
        i := i + 1;
      }
      return true;
    }

    /** jsmn_parse_string */
    method ParseString(js: string, tokens: array?<Token>, numTokens: nat) returns (r: int)
      requires pos < |js|
      requires tokens != null ==> numTokens <= tokens.Length
      modifies this`pos, this`toknext, tokens
      ensures r == ScanResult(StringEnd(js, old(pos) + 1), tokens == null || old(toknext) < numTokens)
      ensures if r == 0 then StringEnd(js, old(pos) + 1) == At(pos) else pos == old(pos)
      ensures tokens == null ==> toknext == old(toknext)
      ensures tokens != null && r != 0 ==> toknext == old(toknext) && tokens[..] == old(tokens[..])
      ensures tokens != null && r == 0 ==>
                && toknext == old(toknext) + 1 <= numTokens
                && tokens[..] == old(tokens[..])[old(toknext) := Token(String, old(pos) + 1, pos, 0)]
    {
      var start := pos;
      pos := pos + 1;
      while pos < |js| && js[pos] != '\0'
        invariant start < pos
        invariant pos <= |js|
        invariant StringEnd(js, start + 1) == StringEnd(js, pos)
        invariant toknext == old(toknext) && (tokens != null ==> tokens[..] == old(tokens[..]))
        decreases |js| - pos
      {
        var c := js[pos];
        if c == '\"' {
          if tokens == null {
            return 0;
          }
          var token := AllocToken(tokens, numTokens);
          if token == -1 {
            pos := start;
            return ERROR_NOMEM;
          }
          tokens[token] := Token(String, start + 1, pos, 0);
          return 0;
        }
        if c == '\\' && pos + 1 < |js| {
          ghost var escape := pos;
          pos := pos + 1;
          if IsEscape(js[pos]) {
          } else if js[pos] == 'u' {
            pos := pos + 1;
            var valid := SkipHex(js);
            if !valid {
              pos := start;
              return ERROR_INVAL;
            }
            pos := pos - 1;
          } else {
            pos := start;
            return ERROR_INVAL;
          }
        }
        pos := pos + 1;
      }
      pos := start;
      return ERROR_PART;
    }

    /** The backward searches: the last open token at or before from, -1 when there is none. */
    method FindOpen(tokens: array<Token>, from: int) returns (i: int)
      requires -1 <= from < tokens.Length
      ensures -1 <= i <= from
      ensures i >= 0 ==> tokens[i].start != -1 && tokens[i].end == -1
      ensures forall k | i < k <= from :: !(tokens[k].start != -1 && tokens[k].end == -1)
    {
      i := from;
      while i >= 0 && !(tokens[i].start != -1 && tokens[i].end == -1)
        invariant -1 <= i <= from
        invariant forall k | i < k <= from :: !(tokens[k].start != -1 && tokens[k].end == -1)
      {
        i := i - 1;
      }
    }

    /** The token array and the parser hold the specification state. */
    ghost predicate Holds(js: string, tokens: array<Token>, numTokens: nat, st: State)
      reads this, tokens
    {
      && numTokens <= tokens.Length
      && Shape(js, pos, st)
      && |st.toks| == toknext <= numTokens
      && tokens[..toknext] == st.toks
      && toksuper == st.super
    }

    /** The case of an opening brace or bracket. */
    method Open(js: string, tokens: array<Token>, numTokens: nat, ghost st: State) returns (r: int)
      requires pos < |js| && Holds(js, tokens, numTokens, st)
      requires js[pos] == '{' || js[pos] == '['
      modifies this, tokens
      ensures pos == old(pos)
      ensures r == if |st.toks| < numTokens then 0 else ERROR_NOMEM
      ensures r == 0 ==>
                && toknext == |st.toks| + 1 && toksuper == |st.toks|
                && tokens[..toknext] == Counted(st) + [Token(KindOf(js[pos]), pos, -1, 0)]
      ensures toknext <= tokens.Length && tokens[toknext..] == old(tokens[..])[toknext..]
    {
      var token := AllocToken(tokens, numTokens);
      if token == -1 {
        return ERROR_NOMEM;
      }
      if toksuper != -1 {
        tokens[toksuper] := tokens[toksuper].(size := tokens[toksuper].size + 1);
      }
      tokens[token] := tokens[token].(kind := if js[pos] == '{' then Object else Array, start := pos);
      toksuper := toknext - 1;
      return 0;
    }

    /** The case of a closing brace or bracket: the backward searches find the top of the stack
        and, once that is closed, the new top. */
    method Close(js: string, tokens: array<Token>, numTokens: nat, ghost st: State) returns (r: int)
      requires pos < |js| && Holds(js, tokens, numTokens, st)
      requires js[pos] == '}' || js[pos] == ']'
      modifies this`toksuper, tokens
      ensures var i := Innermost(st.open);
              if i == -1 || st.toks[i].kind != KindOf(js[pos]) then r == ERROR_INVAL
              else
                && r == 0
                && tokens[..toknext] == st.toks[i := st.toks[i].(end := pos + 1)]
                && toksuper == Innermost(st.open[..|st.open| - 1])
      ensures tokens[toknext..] == old(tokens[..])[toknext..]
    {
      var kind := if js[pos] == '}' then Object else Array;
      var i := FindOpen(tokens, toknext - 1);
      FoundInnermost(js, pos, st, |st.toks| - 1, i);
      if i == -1 || tokens[i].kind != kind {
        return ERROR_INVAL;
      }
      toksuper := -1;
      tokens[i] := tokens[i].(end := pos + 1);
      CloseKeepsShape(js, pos, st);
      ghost var open := st.open[..|st.open| - 1];
      ghost var closed := State(st.toks[i := st.toks[i].(end := pos + 1)], open, Innermost(open));
      assert tokens[..toknext] == closed.toks;
      var j := FindOpen(tokens, i);
      FoundInnermost(js, pos + 1, closed, i, j);
      if j != -1 {
        toksuper := j;
      }
      return 0;
    }

    /** The case of a comma: a value that was counting towards its key goes back to the
        innermost open container. */
    method Comma(js: string, tokens: array<Token>, numTokens: nat, ghost st: State)
      requires pos < |js| && js[pos] == ',' && Holds(js, tokens, numTokens, st)
      modifies this`toksuper
      ensures Step(js, pos, numTokens, st) == Next(pos + 1, st.(super := toksuper))
    {
      if toksuper != -1 && !IsContainer(tokens[toksuper].kind) {
        var i := toknext - 1;
        while i >= 0
          invariant -1 <= i < toknext
          invariant toksuper == st.super
          invariant st.open != [] ==> Innermost(st.open) <= i
          invariant forall k | i < k < toknext :: k !in st.open
        {
          assert Delimited(js, pos, st.toks[i]);
          assert st.open != [] ==> Innermost(st.open) in st.open;
          if IsContainer(tokens[i].kind) && tokens[i].start != -1 && tokens[i].end == -1 {
            toksuper := i;
            FoundInnermost(js, pos, st, |st.toks| - 1, i);
            return;
          }
          i := i - 1;
        }
      }
    }

    /** One pass of the loop of jsmn_parse with a token array, up to the increment of pos. */
    method FillStep(js: string, tokens: array<Token>, numTokens: nat, ghost st: State) returns (r: int)
      requires pos < |js| && !AtEnd(js, pos) && Holds(js, tokens, numTokens, st)
      modifies this, tokens
      ensures match Step(js, old(pos), numTokens, st)
              case Fail(code) => r == code
              case Next(p, st') =>
                && 0 <= r == |st'.toks| - |st.toks|
                && p == pos + 1 && toknext == |st'.toks| <= numTokens && toksuper == st'.super
                && tokens[..toknext] == st'.toks
                && tokens[toknext..] == old(tokens[..])[toknext..]
    {
      var c := js[pos];
      if c == '{' || c == '[' {
        var o := Open(js, tokens, numTokens, st);
        return if o < 0 then o else 1;
      } else if c == '}' || c == ']' {
        r := Close(js, tokens, numTokens, st);
      } else if c == '\"' || !EndsPrimitive(c) {
        if c == '\"' {
          r := ParseString(js, tokens, numTokens);
        } else {
          r := ParsePrimitive(js, tokens, numTokens);
        }
        if r < 0 {
          return r;
        }
        if toksuper != -1 {
          tokens[toksuper] := tokens[toksuper].(size := tokens[toksuper].size + 1);
        }
        return 1;
      } else if c == ':' {
        toksuper := toknext - 1;
        return 0;
      } else if c == ',' {
        Comma(js, tokens, numTokens, st);
        return 0;
      } else {
        return 0;
      }
    }

    /** One pass of the loop of jsmn_parse without a token array. */
    method CountStep(js: string) returns (r: int)
      requires pos < |js| && !AtEnd(js, pos) && toknext == 0 && toksuper == -1
      modifies this
      ensures toknext == 0 && toksuper == -1
      ensures if r < 0 then CountFrom(js, old(pos)) == r
              else
                && old(pos) <= pos < |js| && r <= 1
                && CountFrom(js, old(pos)) == Plus(r, CountFrom(js, pos + 1))
    {
      var c := js[pos];
      if c == '{' || c == '[' {
        return 1;
      } else if c == '\"' || !EndsPrimitive(c) {
        if c == '\"' {
          r := ParseString(js, null, 0);
        } else {
          r := ParsePrimitive(js, null, 0);
        }
        if r < 0 {
          return r;
        }
        return 1;
      } else {
        if c == ':' {
          toksuper := toknext - 1;
        }
        return 0;
      }
    }

    /** jsmn_parse on a fresh parser. With a token array it fills in exactly the tokens of the
        stack-based definition, which nest; without one it counts them. */
    method Parse(js: string, tokens: array?<Token>, numTokens: nat) returns (r: int)
      requires |js| <= 0x7FFF_FFFF
      requires pos == 0 && toknext == 0 && toksuper == -1
      requires tokens != null ==> numTokens <= tokens.Length
      modifies this, tokens
      ensures tokens == null ==> r == CountFrom(js, 0)
      ensures tokens != null ==>
                match Tokenize(js, 0, numTokens, START)
                case Fail(code) => r == code
                case Next(p, st) =>
                  && r == |st.toks| == toknext <= numTokens
                  && pos == p && toksuper == st.super
                  && tokens[..r] == st.toks && WellNested(js, st.toks)
                  && tokens[r..] == old(tokens[..])[r..]
    {
      hide Tokenize, Step, Shape, CountFrom;
      var count: nat := toknext;
      ghost var st := START;
      StartHasShape(js);
      while pos < |js| && js[pos] != '\0'
        invariant pos <= |js|
        invariant tokens == null ==> toknext == 0 && toksuper == -1 && CountFrom(js, 0) == Plus(count, CountFrom(js, pos))
        invariant tokens != null ==> Holds(js, tokens, numTokens, st) && WellScoped(st) && count == toknext
        invariant tokens != null ==> Tokenize(js, 0, numTokens, START) == Tokenize(js, pos, numTokens, st)
        invariant tokens != null ==> tokens[toknext..] == old(tokens[..])[toknext..]
        decreases |js| - pos
      {
        if tokens == null {
          r := CountStep(js);
        } else {
          ghost var o := Step(js, pos, numTokens, st);
          TokenizeGoesOn(js, pos, numTokens, st);
          if o.Next? {
            StepKeepsShape(js, pos, numTokens, st);
          }
          r := FillStep(js, tokens, numTokens, st);
          if o.Next? {
            st := o.st;
          }
        }
        if r < 0 {
          return r;
        }
        count := count + r;
        pos := pos + 1;
      }
      CountEnds(js, pos);
      if tokens != null {
        TokenizeEnds(js, pos, numTokens, st);
        var i := FindOpen(tokens, toknext - 1);
        FoundInnermost(js, pos, st, |st.toks| - 1, i);
        if i != -1 {
          return ERROR_PART;
        }
        TokenizeNests(js, 0, numTokens, START);
      }
      return count;
    }
  }

  lemma StartHasShape(js: string)
    ensures Shape(js, 0, START)
  {}

  lemma TokenizeGoesOn(js: string, p: nat, max: nat, st: State)
    requires WellScoped(st) && !AtEnd(js, p)
    ensures var o := Step(js, p, max, st);
      Tokenize(js, p, max, st) == if o.Next? then Tokenize(js, o.p, max, o.st) else o
  {}

  lemma TokenizeEnds(js: string, p: nat, max: nat, st: State)
    requires WellScoped(st) && AtEnd(js, p)
    ensures Tokenize(js, p, max, st) == if st.open == [] then Next(p, st) else Fail(ERROR_PART)
  {}

  lemma CountEnds(js: string, p: nat)
    requires AtEnd(js, p)
    ensures CountFrom(js, p) == 0
  {}

  lemma FoundInnermost(js: string, p: nat, st: State, from: int, i: int)
    requires Shape(js, p, st)
    requires -1 <= i <= from < |st.toks| && forall k | from < k < |st.toks| :: st.toks[k].end != -1
    requires i >= 0 ==> st.toks[i].end == -1
    requires forall k | i < k <= from :: !(st.toks[k].start != -1 && st.toks[k].end == -1)
    ensures i == Innermost(st.open)
  {
    forall k | i < k < |st.toks| ensures k !in st.open {
      assert Delimited(js, p, st.toks[k]);
    }
    if st.open != [] {
      assert Innermost(st.open) in st.open;
    }
  }
}
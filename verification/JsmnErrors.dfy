/** What the two scan errors of components/kvs_utils/include/jsmn.h mean: a text whose tokenising fails for
    want of more can be completed, and one that is invalid stays so whatever follows. */
module JsmnErrors {
  import opened Jsmn

  // ---------------------------------------------------------------- what does not depend on what follows

  lemma {:induction false} HexExtends(js: string, more: string, p: nat, n: nat)
    ensures HexEnd(js, p, n).Invalid? ==> HexEnd(js + more, p, n).Invalid?
    ensures HexEnd(js, p, n).At? && HexEnd(js, p, n).q < |js| ==> HexEnd(js + more, p, n) == HexEnd(js, p, n)
    decreases n
  {
    if n > 0 && p < |js| {
      assert (js + more)[p] == js[p];
      if !AtEnd(js, p) { HexExtends(js, more, p + 1, n - 1); }
    }
  }

  lemma {:induction false} StringExtends(js: string, more: string, p: nat)
    ensures !StringEnd(js, p).Partial? ==> StringEnd(js + more, p) == StringEnd(js, p)
    decreases |js| - p
  {
    var w := js + more;
    if p < |js| && !AtEnd(js, p) && js[p] != '\"' {
      assert w[p] == js[p];
      if js[p] != '\\' {
        StringExtends(js, more, p + 1);
      } else if p + 1 == |js| {
        assert StringEnd(js, p) == StringEnd(js, p + 1) == Partial;
      } else {
        assert w[p + 1] == js[p + 1];
        if IsEscape(js[p + 1]) {
          StringExtends(js, more, p + 2);
        } else if js[p + 1] == 'u' {
          UnitExtends(js, more, p);
        }
      }
    }
  }

  lemma UnitExtends(js: string, more: string, p: nat)
    requires p + 1 < |js| && js[p] == '\\' && js[p + 1] == 'u'
    ensures !StringEnd(js, p).Partial? ==> StringEnd(js + more, p) == StringEnd(js, p)
    decreases |js| - p, 0
  {
    var w, h := js + more, HexEnd(js, p + 2, 4);
    assert w[p] == js[p] && w[p + 1] == js[p + 1];
    HexExtends(js, more, p + 2, 4);
    if h.At? && !StringEnd(js, h.q).Partial? {
      assert h.q < |js|;
      StringExtends(js, more, h.q);
    }
  }

  lemma {:induction false} PrimitiveExtends(js: string, more: string, p: nat)
    ensures PrimitiveEnd(js, p).Invalid? ==> PrimitiveEnd(js + more, p).Invalid?
    ensures PrimitiveEnd(js, p).At? && PrimitiveEnd(js, p).q < |js| ==> PrimitiveEnd(js + more, p) == PrimitiveEnd(js, p)
    ensures PrimitiveEnd(js, p) == At(|js|) && p <= |js| && (more == "" || EndsPrimitive(more[0])) ==>
      PrimitiveEnd(js + more, p) == At(|js|)
    decreases |js| - p
  {
    if p < |js| {
      assert (js + more)[p] == js[p];
      if !AtEnd(js, p) && !EndsPrimitive(js[p]) { PrimitiveExtends(js, more, p + 1); }
    } else if more != "" && p == |js| {
      assert (js + more)[p] == more[0];
    }
  }

  /** A step that fails for good, or that ends before the text does, is the same in a longer text. */
  lemma StepExtends(js: string, more: string, p: nat, max: nat, st: State)
    requires WellScoped(st) && !AtEnd(js, p)
    requires var o := Step(js, p, max, st);
      o == Fail(ERROR_INVAL) || (o.Next? && (o.p < |js| || more == "" || EndsPrimitive(more[0])))
    ensures !AtEnd(js + more, p) && Step(js + more, p, max, st) == Step(js, p, max, st)
  {
    assert (js + more)[p] == js[p];
    if js[p] == '\"' {
      StringExtends(js, more, p + 1);
    } else {
      PrimitiveExtends(js, more, p);
    }
    hide StringEnd, PrimitiveEnd;
  }

  /** A text that is invalid stays so, whatever follows it. */
  lemma {:induction false} InvalidStays(js: string, more: string, p: nat, max: nat, st: State)
    requires WellScoped(st) && Tokenize(js, p, max, st) == Fail(ERROR_INVAL)
    ensures Tokenize(js + more, p, max, st) == Fail(ERROR_INVAL)
    decreases |js| - p
  {
    hide Step;
    var o := Step(js, p, max, st);
    if o.Next? {
      AtTheEnd(js, o.p, max, o.st);
      StepExtends(js, more, p, max, st);
      InvalidStays(js, more, o.p, max, o.st);
    } else {
      StepExtends(js, more, p, max, st);
    }
  }

  lemma AtTheEnd(js: string, p: nat, max: nat, st: State)
    requires WellScoped(st)
    ensures p >= |js| ==> Tokenize(js, p, max, st) != Fail(ERROR_INVAL)
  {
    hide Step;
  }

  // ---------------------------------------------------------------- how a text is completed

  predicate NoNul(js: string) { forall k | 0 <= k < |js| :: js[k] != '\0' }

  /** The open tokens are brackets. */
  predicate OpenOk(st: State) { WellScoped(st) && forall k | 0 <= k < |st.open| :: IsContainer(st.toks[st.open[k]].kind) }

  lemma StepKeepsOpen(js: string, p: nat, max: nat, st: State)
    requires OpenOk(st) && !AtEnd(js, p) && Step(js, p, max, st).Next?
    ensures var o := Step(js, p, max, st); OpenOk(o.st) && |o.st.toks| <= |st.toks| + 1
  {
    hide StringEnd, PrimitiveEnd;
  }

  /** The brackets that close what is open. */
  lemma {:induction false} Closers(js: string, max: nat, st: State) returns (more: string)
    requires OpenOk(st)
    ensures Tokenize(js + more, |js|, max, st).Next? && (more == "" || EndsPrimitive(more[0]))
    decreases |st.open|
  {
    hide Tokenize;
    if st.open == [] {
      more := "";
      assert js + more == js;
      NothingOpen(js, max, st);
    } else {
      var n := Innermost(st.open);
      var c := if st.toks[n].kind == Object then '}' else ']';
      var open := st.open[..|st.open| - 1];
      var st' := State(st.toks[n := st.toks[n].(end := |js| + 1)], open, Innermost(open));
      PopKeepsOpen(st, st');
      hide OpenOk;
      var rest := Closers(js + [c], max, st');
      more := [c] + rest;
      assert js + more == js + [c] + rest;
      ClosesOne(js + more, |js|, max, st, st');
    }
  }

  lemma NothingOpen(js: string, max: nat, st: State)
    requires WellScoped(st) && st.open == []
    ensures Tokenize(js, |js|, max, st).Next?
  {}

  lemma PopKeepsOpen(st: State, st': State)
    requires OpenOk(st) && st.open != []
    requires exists end :: st'.toks == st.toks[Innermost(st.open) := st.toks[Innermost(st.open)].(end := end)]
    requires st'.open == st.open[..|st.open| - 1] && st'.super == Innermost(st'.open)
    ensures OpenOk(st')
  {}

  lemma ClosesOne(js: string, p: nat, max: nat, st: State, st': State)
    requires OpenOk(st) && st.open != [] && p < |js| && WellScoped(st')
    requires js[p] == if st.toks[Innermost(st.open)].kind == Object then '}' else ']'
    requires var n, open := Innermost(st.open), st.open[..|st.open| - 1];
      st' == State(st.toks[n := st.toks[n].(end := p + 1)], open, Innermost(open))
    ensures Tokenize(js, p, max, st) == Tokenize(js, p + 1, max, st')
  {
    assert Step(js, p, max, st) == Next(p + 1, st');
    hide Step;
  }

  /** What a string whose end is missing lacks. */
  lemma {:induction false} Closing(js: string, p: nat) returns (more: string)
    requires NoNul(js) && p <= |js| && StringEnd(js, p).Partial?
    ensures |more| > 0 && StringEnd(js + more, p) == At(|js + more| - 1)
    decreases |js| - p
  {
    if p == |js| {
      more := "\"";
    } else if js[p] != '\\' {
      more := Closing(js, p + 1);
      assert (js + more)[p] == js[p];
    } else if p + 1 == |js| {
      more := "\\\"";
      EscapedClosing(js + more, p);
    } else if IsEscape(js[p + 1]) {
      more := Closing(js, p + 2);
      assert (js + more)[p] == js[p] && (js + more)[p + 1] == js[p + 1];
    } else {
      more := UnitClosing(js, p);
    }
  }

  lemma EscapedClosing(w: string, p: nat)
    requires p + 3 == |w| && w[p] == '\\' && w[p + 1] == '\\' && w[p + 2] == '\"'
    ensures StringEnd(w, p) == At(p + 2)
  {
    assert StringEnd(w, p + 2) == At(p + 2);
  }

  lemma UnitClosing(js: string, p: nat) returns (more: string)
    requires NoNul(js) && p + 1 < |js| && js[p] == '\\' && !IsEscape(js[p + 1]) && StringEnd(js, p).Partial?
    ensures |more| > 0 && StringEnd(js + more, p) == At(|js + more| - 1)
    decreases |js| - p, 0
  {
    var h := HexEnd(js, p + 2, 4);
    assert js[p + 1] == 'u' && h.At? && StringEnd(js, h.q).Partial?;
    if h.q < |js| {
      more := Closing(js, h.q);
      HexExtends(js, more, p + 2, 4);
    } else {
      var zeros := HexClosing(js, p + 2, 4);
      more := zeros + "\"";
      assert (js + more)[|js + zeros|] == '\"';
      HexIgnores(js + zeros, "\"", p + 2, 4);
      assert js + more == js + zeros + "\"";
    }
    assert (js + more)[p] == js[p] && (js + more)[p + 1] == js[p + 1];
  }

  /** The digits that are missing. */
  lemma {:induction false} HexClosing(js: string, p: nat, n: nat) returns (zeros: string)
    requires NoNul(js) && p <= |js| && HexEnd(js, p, n) == At(|js|)
    ensures HexEnd(js + zeros, p, n) == At(|js + zeros|) && |js + zeros| == p + n
    decreases n
  {
    if n == 0 {
      zeros := "";
      assert js + zeros == js;
    } else if p < |js| {
      zeros := HexClosing(js, p + 1, n - 1);
      assert (js + zeros)[p] == js[p];
    } else {
      assert HexEnd(js + "0", p + 1, n - 1) == At(|js + "0"|);
      var rest := HexClosing(js + "0", p + 1, n - 1);
      zeros := "0" + rest;
      assert js + "0" + rest == js + zeros && (js + zeros)[p] == '0';
    }
  }

  /** All the digits being there, nothing behind them matters. */
  lemma {:induction false} HexIgnores(js: string, more: string, p: nat, n: nat)
    requires p + n == |js| && HexEnd(js, p, n) == At(|js|)
    ensures HexEnd(js + more, p, n) == At(|js|)
    decreases n
  {
    if n > 0 {
      assert (js + more)[p] == js[p];
      HexIgnores(js, more, p + 1, n - 1);
    }
  }

  /** The string that starts at p, its missing end, and the brackets behind it. */
  lemma CompleteString(js: string, p: nat, max: nat, st: State) returns (more: string)
    requires OpenOk(st) && NoNul(js) && p < |js| && js[p] == '\"' && StringEnd(js, p + 1).Partial? && |st.toks| < max
    ensures Tokenize(js + more, p, max, st).Next?
  {
    var end := Closing(js, p + 1);
    hide Step, Tokenize, StringEnd;
    assert (js + end)[p] == js[p];
    var rest := CloseBehind(js + end, p, max, st);
    more := end + rest;
    assert js + end + rest == js + more;
  }

  /** Where the text ends with a string, the brackets behind it. */
  lemma CloseBehind(w: string, p: nat, max: nat, st: State) returns (rest: string)
    requires OpenOk(st) && p + 1 < |w| && w[p] == '\"' && StringEnd(w, p + 1) == At(|w| - 1) && |st.toks| < max
    ensures Tokenize(w + rest, p, max, st).Next?
  {
    var st' := LastString(w, p, max, st);
    hide Step, Tokenize, StringEnd, OpenOk;
    rest := Closers(w, max, st');
    StepExtends(w, rest, p, max, st);
    Behind(w + rest, p, max, st);
  }

  lemma LastString(w: string, p: nat, max: nat, st: State) returns (st': State)
    requires OpenOk(st) && p + 1 < |w| && w[p] == '\"' && StringEnd(w, p + 1) == At(|w| - 1) && |st.toks| < max
    ensures OpenOk(st') && Step(w, p, max, st) == Next(|w|, st')
  {
    hide StringEnd;
    st' := Step(w, p, max, st).st;
    StepKeepsOpen(w, p, max, st);
  }

  lemma Behind(js: string, p: nat, max: nat, st: State)
    requires WellScoped(st) && !AtEnd(js, p) && Step(js, p, max, st).Next?
    ensures Tokenize(js, p, max, st) == Tokenize(js, Step(js, p, max, st).p, max, Step(js, p, max, st).st)
  {
    hide Step;
  }

  /** A text that tokenises or lacks something can be completed. */
  lemma {:induction false} Completes(js: string, p: nat, max: nat, st: State) returns (more: string)
    requires OpenOk(st) && NoNul(js) && p <= |js| && |st.toks| + |js| - p < max
    requires var o := Tokenize(js, p, max, st); o.Next? || o == Fail(ERROR_PART)
    ensures Tokenize(js + more, p, max, st).Next?
    decreases |js| - p
  {
    if p == |js| {
      more := Closers(js, max, st);
      return;
    }
    hide Step, StringEnd, PrimitiveEnd;
    var o := Step(js, p, max, st);
    if o.Fail? {
      PartialStep(js, p, max, st);
      more := CompleteString(js, p, max, st);
      return;
    }
    StepKeepsOpen(js, p, max, st);
    if o.p == |js| {
      more := Closers(js, max, o.st);
    } else {
      more := Completes(js, o.p, max, o.st);
    }
    StepExtends(js, more, p, max, st);
  }

  lemma PartialStep(js: string, p: nat, max: nat, st: State)
    requires WellScoped(st) && !AtEnd(js, p) && Step(js, p, max, st) == Fail(ERROR_PART)
    ensures js[p] == '\"' && StringEnd(js, p + 1).Partial?
  {
    hide StringEnd, PrimitiveEnd;
  }

  /** More can be put behind the text so that it tokenises. */
  ghost predicate CanComplete(js: string, max: nat) { exists more: string :: Tokenize(js + more, 0, max, START).Next? }

  lemma {:induction false} NeverFull(js: string, p: nat, max: nat, st: State)
    requires OpenOk(st) && p <= |js| && |st.toks| + |js| - p < max
    ensures Tokenize(js, p, max, st) != Fail(ERROR_NOMEM)
    decreases |js| - p
  {
    if !AtEnd(js, p) {
      hide Step;
      RoomForOne(js, p, max, st);
      var o := Step(js, p, max, st);
      if o.Next? {
        StepKeepsOpen(js, p, max, st);
        NeverFull(js, o.p, max, o.st);
      }
    }
  }

  lemma RoomForOne(js: string, p: nat, max: nat, st: State)
    requires WellScoped(st) && !AtEnd(js, p) && |st.toks| < max
    ensures Step(js, p, max, st) != Fail(ERROR_NOMEM)
  {
    hide StringEnd, PrimitiveEnd;
  }

  /** For every text without NUL, given more room than it has characters: it tokenises or fails with
      JSMN_ERROR_PART, if and only if something can be put behind it so that it tokenises; else it fails with
      JSMN_ERROR_INVAL. */
  lemma PartIfAndOnlyIf(js: string, max: nat)
    requires NoNul(js) && |js| < max
    ensures var o := Tokenize(js, 0, max, START);
      && (o.Next? || o == Fail(ERROR_PART) <==> CanComplete(js, max))
      && (o == Fail(ERROR_INVAL) <==> !CanComplete(js, max))
  {
    var o := Tokenize(js, 0, max, START);
    NeverFull(js, 0, max, START);
    hide Tokenize;
    if o == Fail(ERROR_INVAL) {
      forall more: string ensures !Tokenize(js + more, 0, max, START).Next? { InvalidStays(js, more, 0, max, START); }
    } else {
      var more := Completes(js, 0, max, START);
    }
  }

  /** Behind a NUL it is otherwise: "[" and a NUL fail with JSMN_ERROR_PART, and nothing completes them. */
  lemma NulExample(max: nat)
    requires max > 0
    ensures Tokenize("[\0", 0, max, START) == Fail(ERROR_PART) && !CanComplete("[\0", max)
  {
    NulStops("[\0", max);
    forall more: string ensures !Tokenize("[\0" + more, 0, max, START).Next? {
      assert ("[\0" + more)[0] == '[' && ("[\0" + more)[1] == '\0';
      NulStops("[\0" + more, max);
    }
  }

  lemma NulStops(js: string, max: nat)
    requires |js| > 1 && js[0] == '[' && js[1] == '\0' && max > 0
    ensures Tokenize(js, 0, max, START) == Fail(ERROR_PART)
  {
    var st := State([Token(Array, 0, -1, 0)], [0], 0);
    assert Step(js, 0, max, START) == Next(1, st);
    assert Tokenize(js, 1, max, st) == Fail(ERROR_PART);
  }
}

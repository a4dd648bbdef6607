/** Completeness of the checker: every text of the grammar that nests within the stack is accepted. */
module CheckerComplete {
  import opened Ascii
  import opened JsonGrammar
  import opened Options
  import opened JsonChecker

  // The states that skip white space
  predicate Idle(s: State) {
    s == GO || s == OK || s == OB || s == KE || s == CO || s == VA || s == AR
  }

  // The states in which a value has just ended: OK, or a number that may stop here
  predicate AfterValue(s: State) {
    s == OK || s == ZE || s == IN || s == FR || s == E3
  }

  ghost predicate Reaches(depth: int, from: Config, s: Text, to: Config) {
    Run(depth, from, s) == Some(to)
  }

  lemma Chain(depth: int, a: Config, s: Text, b: Config, t: Text, c: Config)
    requires Reaches(depth, a, s, b) && Reaches(depth, b, t, c)
    ensures Reaches(depth, a, s + t, c)
  {
    RunConcat(depth, a, s, t);
  }

  lemma Nothing(depth: int, a: Config)
    ensures Reaches(depth, a, [], a)
  {}

  lemma One(depth: int, a: Config, c: int, b: Config)
    requires Step(depth, a, c) == Some(b)
    ensures Reaches(depth, a, [c], b)
  {
    assert Run(depth, b, [c][1..]) == Some(b);
  }

  lemma {:induction false} RunBlank(depth: int, s: State, stack: seq<Mode>, w: Text)
    requires Idle(s) && Blank(w)
    ensures Reaches(depth, Config(s, stack), w, Config(s, stack))
    decreases |w|
  {
    if w != [] {
      LeadsBlank(s, w[0]);
      RunBlank(depth, s, stack, w[1..]);
    }
  }

  lemma RunBlankAfter(depth: int, s: State, stack: seq<Mode>, w: Text) returns (s': State)
    requires AfterValue(s) && Blank(w)
    ensures AfterValue(s') && (s == OK ==> s' == OK)
    ensures Reaches(depth, Config(s, stack), w, Config(s', stack))
  {
    if w == [] {
      s' := s;
    } else {
      s' := OK;
      LeadsBlank(s, w[0]);
      RunBlank(depth, OK, stack, w[1..]);
    }
  }

  // A state that loops on digits
  lemma {:induction false} RunDigits(depth: int, s: State, stack: seq<Mode>, w: Text)
    requires s == IN || s == FR || s == E3
    requires Digits(w)
    ensures Reaches(depth, Config(s, stack), w, Config(s, stack))
    decreases |w|
  {
    if w != [] {
      LeadsNumber(s, w[0]);
      RunDigits(depth, s, stack, w[1..]);
    }
  }

  // the table alone leads from one state to the next
  predicate Leads(s: State, c: int, next: State) {
    ClassOf(c).Some? && Table(s, ClassOf(c).value) == next && next >= 0
  }

  lemma {:induction false} RunPath(depth: int, stack: seq<Mode>, path: seq<State>, w: Text)
    requires |path| == |w| + 1
    requires forall i :: 0 <= i < |w| ==> Leads(path[i], w[i], path[i + 1])
    ensures Reaches(depth, Config(path[0], stack), w, Config(path[|w|], stack))
    decreases |w|
  {
    if w != [] {
      assert Leads(path[0], w[0], path[0 + 1]);
      RunPath(depth, stack, path[1..], w[1..]);
    }
  }

  lemma LeadsHex(s: State, c: int)
    requires IsHex(c)
    ensures s == U1 ==> Leads(s, c, U2)
    ensures s == U2 ==> Leads(s, c, U3)
    ensures s == U3 ==> Leads(s, c, U4)
    ensures s == U4 ==> Leads(s, c, ST)
  {
    assert HexClass(ClassOf(c).value);
  }

  lemma LeadsString(s: State, c: int)
    ensures s == ST && IsPlain(c) ==> Leads(s, c, ST)
    ensures s == ST && c == BACKS ==> Leads(s, c, ES)
    ensures s == ES && IsEscape(c) ==> Leads(s, c, ST)
    ensures s == ES && c == LOW_U ==> Leads(s, c, U1)
  {}

  lemma LeadsNumber(s: State, c: int)
    ensures IsDigit(c) && (s == IN || s == FR || s == E3) ==> Leads(s, c, s)
    ensures IsDigit(c) && (s == E1 || s == E2) ==> Leads(s, c, E3)
    ensures IsDigit(c) && (s == VA || s == AR || s == MI) ==> Leads(s, c, if c == ZERO then ZE else IN)
    ensures c == MINUS && (s == VA || s == AR) ==> Leads(s, c, MI)
    ensures c == POINT && (s == ZE || s == IN) ==> Leads(s, c, FR)
    ensures (c == 0x65 || c == 0x45) && (s == IN || s == FR) ==> Leads(s, c, E1)
    ensures (c == PLUS || c == MINUS) && s == E1 ==> Leads(s, c, E2)
  {}

  lemma LeadsBlank(s: State, c: int)
    requires IsWhite(c)
    ensures Idle(s) ==> Leads(s, c, s)
    ensures AfterValue(s) ==> Leads(s, c, OK)
  {}

  function Path(s: State, l: Literal): seq<State> {
    match l
    case LTrue => [s, T1, T2, T3, OK]
    case LFalse => [s, F1, F2, F3, F4, OK]
    case LNull => [s, N1, N2, N3, OK]
  }

  lemma LeadsLiteral(s: State, l: Literal, i: nat)
    requires (s == VA || s == AR) && i < |Word(l)|
    ensures Leads(Path(s, l)[i], Word(l)[i], Path(s, l)[i + 1])
  {}

  // the brackets, the colon, the comma and the quotes
  lemma StepPunctuation(depth: int, stack: seq<Mode>, s: State, c: int)
    ensures c == LSQRB && (s == VA || s == AR || s == GO) ==>
              Step(depth, Config(s, stack), c) == Push(depth, stack, MODE_ARRAY, AR)
    ensures c == LCURB && (s == VA || s == AR || s == GO) ==>
              Step(depth, Config(s, stack), c) == Push(depth, stack, MODE_KEY, OB)
    ensures c == RSQRB && (AfterValue(s) || s == AR) ==>
              Step(depth, Config(s, stack), c) == Pop(stack, MODE_ARRAY, OK)
    ensures c == RCURB && (AfterValue(s) || s == OB) ==>
              Step(depth, Config(s, stack), c) == Pop(stack, if s == OB then MODE_KEY else MODE_OBJECT, OK)
    ensures c == COMMA && AfterValue(s) ==>
              Step(depth, Config(s, stack), c) == Act(depth, stack, SEPARATOR)
    ensures c == COLON && s == CO ==>
              Step(depth, Config(s, stack), c) == Swap(stack, MODE_KEY, MODE_OBJECT, VA)
    ensures c == QUOTE && (s == OB || s == KE || s == VA || s == AR) ==>
              Step(depth, Config(s, stack), c) == Some(Config(ST, stack))
    ensures c == QUOTE && s == ST ==>
              Step(depth, Config(s, stack), c) == Act(depth, stack, STRING_END)
  {}

  lemma RunItem(depth: int, stack: seq<Mode>, x: StrItem)
    requires WfItem(x)
    ensures Reaches(depth, Config(ST, stack), YieldItem(x), Config(ST, stack))
  {
    hide Run, Table, ClassOf;
    match x
    case Plain(c) =>
      LeadsString(ST, c);
      RunPath(depth, stack, [ST, ST], [c]);
    case Escape(c) =>
      LeadsString(ST, BACKS);
      LeadsString(ES, c);
      RunPath(depth, stack, [ST, ES, ST], [BACKS, c]);
    case Unicode(a, b, c, d) =>
      LeadsString(ST, BACKS);
      LeadsString(ES, LOW_U);
      LeadsHex(U1, a);
      LeadsHex(U2, b);
      LeadsHex(U3, c);
      LeadsHex(U4, d);
      RunPath(depth, stack, [ST, ES, U1, U2, U3, U4, ST], [BACKS, LOW_U, a, b, c, d]);
  }

  lemma {:induction false} RunItems(depth: int, stack: seq<Mode>, xs: seq<StrItem>)
    requires WfItems(xs)
    ensures Reaches(depth, Config(ST, stack), YieldItems(xs), Config(ST, stack))
  {
    if xs != [] {
      var n := |xs| - 1;
      RunItems(depth, stack, xs[..n]);
      RunItem(depth, stack, xs[n]);
      Chain(depth, Config(ST, stack), YieldItems(xs[..n]), Config(ST, stack), YieldItem(xs[n]), Config(ST, stack));
    }
  }

  /** A string: the state after it depends on the mode that was on top. */
  lemma RunString(depth: int, s: State, stack: seq<Mode>, xs: seq<StrItem>, next: State)
    requires WfItems(xs) && |stack| > 0
    requires s == OB || s == KE || s == VA || s == AR
    requires match stack[|stack| - 1]
             case MODE_KEY => next == CO
             case MODE_DONE => false
             case _ => next == OK
    ensures Reaches(depth, Config(s, stack), YieldString(xs), Config(next, stack))
  {
    hide Run, Table, ClassOf;
    StepPunctuation(depth, stack, s, QUOTE);
    StepPunctuation(depth, stack, ST, QUOTE);
    One(depth, Config(s, stack), QUOTE, Config(ST, stack));
    RunItems(depth, stack, xs);
    One(depth, Config(ST, stack), QUOTE, Config(next, stack));
    Chain(depth, Config(s, stack), [QUOTE], Config(ST, stack), YieldItems(xs), Config(ST, stack));
    Chain(depth, Config(s, stack), [QUOTE] + YieldItems(xs), Config(ST, stack), [QUOTE], Config(next, stack));
  }

  lemma RunExponent(depth: int, s: State, stack: seq<Mode>, e: Exponent)
    requires WfExponent(e) && (s == IN || s == FR)
    ensures Reaches(depth, Config(s, stack), YieldExponent(e), Config(E3, stack))
  {
    hide Run, Table, ClassOf;
    var a, b, c := Config(s, stack), Config(E1, stack), Config(E3, stack);
    LeadsNumber(s, e.mark);
    LeadsNumber(E1, e.digits[0]);
    LeadsNumber(E2, e.digits[0]);
    One(depth, a, e.mark, b);
    var head := e.digits[..1];
    var tail := e.digits[1..];
    assert IsDigit(e.digits[0]);
    assert head == [e.digits[0]];
    RunDigits(depth, E3, stack, tail);
    if e.sign == [] {
      One(depth, b, e.digits[0], c);
      Chain(depth, a, [e.mark], b, head, c);
      Chain(depth, a, [e.mark] + head, c, tail, c);
      assert [e.mark] + head + tail == YieldExponent(e);
    } else {
      LeadsNumber(E1, e.sign[0]);
      One(depth, b, e.sign[0], Config(E2, stack));
      assert e.sign == [e.sign[0]];
      One(depth, Config(E2, stack), e.digits[0], c);
      Chain(depth, a, [e.mark], b, e.sign, Config(E2, stack));
      Chain(depth, a, [e.mark] + e.sign, Config(E2, stack), head, c);
      Chain(depth, a, [e.mark] + e.sign + head, c, tail, c);
      assert [e.mark] + e.sign + head + tail == YieldExponent(e);
    }
  }

  lemma RunWhole(depth: int, s: State, stack: seq<Mode>, w: Text) returns (s': State)
    requires WfWhole(w) && (s == VA || s == AR || s == MI)
    ensures s' == (if w == [ZERO] then ZE else IN)
    ensures Reaches(depth, Config(s, stack), w, Config(s', stack))
  {
    hide Run, Table, ClassOf;
    LeadsNumber(s, w[0]);
    if w == [ZERO] {
      s' := ZE;
      One(depth, Config(s, stack), ZERO, Config(ZE, stack));
    } else {
      s' := IN;
      assert IsDigit(w[0]);
      One(depth, Config(s, stack), w[0], Config(IN, stack));
      RunDigits(depth, IN, stack, w[1..]);
      Chain(depth, Config(s, stack), [w[0]], Config(IN, stack), w[1..], Config(IN, stack));
      assert [w[0]] + w[1..] == w;
    }
  }

  lemma RunNumber(depth: int, s: State, stack: seq<Mode>, n: Num) returns (s': State)
    requires WfNumber(n) && (s == VA || s == AR)
    ensures AfterValue(s')
    ensures Reaches(depth, Config(s, stack), YieldNumber(n), Config(s', stack))
  {
    hide Run, Table, ClassOf;
    LeadsNumber(s, MINUS);
    var a := Config(s, stack);
    var t: Text := if n.minus then [MINUS] else [];
    var f: Text := if n.frac.Some? then [POINT] + n.frac.value else [];
    var x: Text := if n.exp.Some? then YieldExponent(n.exp.value) else [];
    var here := s;
    Nothing(depth, a);
    if n.minus {
      here := MI;
      One(depth, a, MINUS, Config(MI, stack));
    }
    s' := RunWhole(depth, here, stack, n.whole);
    Chain(depth, a, t, Config(here, stack), n.whole, Config(s', stack));
    t := t + n.whole;
    if n.frac.Some? {
      LeadsNumber(s', POINT);
      One(depth, Config(s', stack), POINT, Config(FR, stack));
      RunDigits(depth, FR, stack, n.frac.value);
      Chain(depth, Config(s', stack), [POINT], Config(FR, stack), n.frac.value, Config(FR, stack));
      Chain(depth, a, t, Config(s', stack), f, Config(FR, stack));
      s' := FR;
    } else {
      assert t + f == t;
    }
    t := t + f;
    if n.exp.Some? {
      RunExponent(depth, s', stack, n.exp.value);
      Chain(depth, a, t, Config(s', stack), x, Config(E3, stack));
      s' := E3;
    } else {
      assert t + x == t;
    }
    assert t + x == YieldNumber(n);
  }

  lemma RunLiteral(depth: int, s: State, stack: seq<Mode>, l: Literal)
    requires s == VA || s == AR
    ensures Reaches(depth, Config(s, stack), Word(l), Config(OK, stack))
  {
    hide Run, Table, ClassOf;
    forall i: nat | i < |Word(l)|
      ensures Leads(Path(s, l)[i], Word(l)[i], Path(s, l)[i + 1])
    {
      LeadsLiteral(s, l, i);
    }
    RunPath(depth, stack, Path(s, l), Word(l));
  }

  ghost predicate ValuePlace(s: State, stack: seq<Mode>) {
    && |stack| > 0
    && (s == VA || s == AR)
    && (stack[|stack| - 1] == MODE_ARRAY || stack[|stack| - 1] == MODE_OBJECT)
  }

  /** A value leaves the stack as it found it. */
  lemma {:induction false} RunValue(depth: int, s: State, stack: seq<Mode>, v: Value) returns (s': State)
    requires WfValue(v) && |stack| + Nesting(v) <= depth
    requires ValuePlace(s, stack) || (s == GO && IsContainer(v))
    ensures AfterValue(s') && (IsContainer(v) ==> s' == OK)
    ensures Reaches(depth, Config(s, stack), Yield(v), Config(s', stack))
    decreases v
  {
    hide Run, Table, ClassOf;
    match v
    case EmptyArray(_) =>
      s' := OK;
      RunEmpty(depth, s, stack, v);
    case EmptyObject(_) =>
      s' := OK;
      RunEmpty(depth, s, stack, v);
    case Array(_, _) =>
      s' := OK;
      RunArray(depth, s, stack, v);
    case Object(_, _) =>
      s' := OK;
      RunObject(depth, s, stack, v);
    case String(xs) =>
      s' := OK;
      RunString(depth, s, stack, xs, OK);
    case Number(n) =>
      s' := RunNumber(depth, s, stack, n);
    case Lit(l) =>
      s' := OK;
      RunLiteral(depth, s, stack, l);
  }

  lemma {:induction false} RunArray(depth: int, s: State, stack: seq<Mode>, v: Value)
    requires WfValue(v) && |stack| + Nesting(v) <= depth && v.Array?
    requires s == VA || s == AR || s == GO
    ensures Reaches(depth, Config(s, stack), Yield(v), Config(OK, stack))
    decreases v, 0
  {
    hide Run, Table, ClassOf;
    var a, inner := Config(s, stack), stack + [MODE_ARRAY];
    StepPunctuation(depth, stack, s, LSQRB);
    One(depth, a, LSQRB, Config(AR, inner));
    var here := RunElems(depth, inner, v.elems);
    var last := RunElem(depth, here, inner, v.lastElem);
    assert inner[..|inner| - 1] == stack;
    StepPunctuation(depth, inner, last, RSQRB);
    One(depth, Config(last, inner), RSQRB, Config(OK, stack));
    Chain(depth, a, [LSQRB], Config(AR, inner), YieldElems(v.elems), Config(here, inner));
    Chain(depth, a, [LSQRB] + YieldElems(v.elems), Config(here, inner), YieldElem(v.lastElem), Config(last, inner));
    Chain(depth, a, [LSQRB] + YieldElems(v.elems) + YieldElem(v.lastElem), Config(last, inner),
          [RSQRB], Config(OK, stack));
  }

  lemma {:induction false} RunObject(depth: int, s: State, stack: seq<Mode>, v: Value)
    requires WfValue(v) && |stack| + Nesting(v) <= depth && v.Object?
    requires s == VA || s == AR || s == GO
    ensures Reaches(depth, Config(s, stack), Yield(v), Config(OK, stack))
    decreases v, 0
  {
    hide Run, Table, ClassOf;
    StepPunctuation(depth, stack, s, LCURB);
    var a, keyed, full := Config(s, stack), stack + [MODE_KEY], stack + [MODE_OBJECT];
    One(depth, a, LCURB, Config(OB, keyed));
    var here := RunMembers(depth, stack, v.members);
    var last := RunMember(depth, here, stack, v.lastMember);
    assert full[..|full| - 1] == stack;
    StepPunctuation(depth, full, last, RCURB);
    One(depth, Config(last, full), RCURB, Config(OK, stack));
    Chain(depth, a, [LCURB], Config(OB, keyed), YieldMembers(v.members), Config(here, keyed));
    Chain(depth, a, [LCURB] + YieldMembers(v.members), Config(here, keyed),
        YieldMember(v.lastMember), Config(last, full));
    Chain(depth, a, [LCURB] + YieldMembers(v.members) + YieldMember(v.lastMember), Config(last, full),
          [RCURB], Config(OK, stack));
  }

  lemma RunEmpty(depth: int, s: State, stack: seq<Mode>, v: Value)
    requires WfValue(v) && (v.EmptyArray? || v.EmptyObject?) && |stack| < depth
    requires s == VA || s == AR || s == GO
    ensures Reaches(depth, Config(s, stack), Yield(v), Config(OK, stack))
  {
    hide Run, Table, ClassOf;
    var open, close, inside, mode :=
      if v.EmptyArray? then LSQRB else LCURB, if v.EmptyArray? then RSQRB else RCURB,
      if v.EmptyArray? then AR else OB, if v.EmptyArray? then MODE_ARRAY else MODE_KEY;
    var a, b := Config(s, stack), Config(inside, stack + [mode]);
    StepPunctuation(depth, stack, s, open);
    StepPunctuation(depth, stack + [mode], inside, close);
    One(depth, a, open, b);
    RunBlank(depth, inside, stack + [mode], v.ws);
    assert (stack + [mode])[..|stack|] == stack;
    One(depth, b, close, Config(OK, stack));
    Chain(depth, a, [open], b, v.ws, b);
    Chain(depth, a, [open] + v.ws, b, [close], Config(OK, stack));
  }

  lemma {:induction false} RunElem(depth: int, s: State, stack: seq<Mode>, e: Elem) returns (s': State)
    requires WfElem(e) && |stack| + Nesting(e.value) <= depth
    requires ValuePlace(s, stack) || (s == GO && IsContainer(e.value))
    ensures AfterValue(s') && (IsContainer(e.value) ==> s' == OK)
    ensures Reaches(depth, Config(s, stack), YieldElem(e), Config(s', stack))
    decreases e
  {
    hide Run, Table, ClassOf;
    RunBlank(depth, s, stack, e.before);
    var here := RunValue(depth, s, stack, e.value);
    s' := RunBlankAfter(depth, here, stack, e.after);
    Chain(depth, Config(s, stack), e.before, Config(s, stack), Yield(e.value), Config(here, stack));
    Chain(depth, Config(s, stack), e.before + Yield(e.value), Config(here, stack), e.after, Config(s', stack));
  }

  lemma {:induction false} RunElems(depth: int, stack: seq<Mode>, es: Elems) returns (s': State)
    requires WfElems(es) && |stack| > 0 && stack[|stack| - 1] == MODE_ARRAY
    requires |stack| + NestingElems(es) <= depth
    ensures s' == AR || s' == VA
    ensures Reaches(depth, Config(AR, stack), YieldElems(es), Config(s', stack))
    decreases es
  {
    hide Run, Table, ClassOf;
    if es.NoElems? {
      s' := AR;
      Nothing(depth, Config(AR, stack));
    } else {
      var a := Config(AR, stack);
      var here := RunElems(depth, stack, es.init);
      var last := RunElem(depth, here, stack, es.last);
      s' := VA;
      StepPunctuation(depth, stack, last, COMMA);
      One(depth, Config(last, stack), COMMA, Config(VA, stack));
      Chain(depth, a, YieldElems(es.init), Config(here, stack), YieldElem(es.last), Config(last, stack));
      Chain(depth, a, YieldElems(es.init) + YieldElem(es.last), Config(last, stack), [COMMA], Config(VA, stack));
    }
  }

  lemma {:induction false} RunMember(depth: int, s: State, stack: seq<Mode>, m: Member) returns (s': State)
    requires WfMember(m) && |stack| + 1 + Nesting(m.elem.value) <= depth
    requires s == OB || s == KE
    ensures AfterValue(s')
    ensures Reaches(depth, Config(s, stack + [MODE_KEY]), YieldMember(m), Config(s', stack + [MODE_OBJECT]))
    decreases m
  {
    hide Run, Table, ClassOf;
    var keyed, full := stack + [MODE_KEY], stack + [MODE_OBJECT];
    var a := Config(s, keyed);
    StepPunctuation(depth, keyed, CO, COLON);
    RunBlank(depth, s, keyed, m.before);
    RunString(depth, s, keyed, m.key, CO);
    RunBlank(depth, CO, keyed, m.mid);
    assert keyed[..|keyed| - 1] == stack;
    One(depth, Config(CO, keyed), COLON, Config(VA, full));
    s' := RunElem(depth, VA, full, m.elem);
    Chain(depth, a, m.before, a, YieldString(m.key), Config(CO, keyed));
    Chain(depth, a, m.before + YieldString(m.key), Config(CO, keyed), m.mid, Config(CO, keyed));
    Chain(depth, a, m.before + YieldString(m.key) + m.mid, Config(CO, keyed), [COLON], Config(VA, full));
    Chain(depth, a, m.before + YieldString(m.key) + m.mid + [COLON], Config(VA, full),
          YieldElem(m.elem), Config(s', full));
  }

  lemma {:induction false} RunMembers(depth: int, stack: seq<Mode>, ms: Members) returns (s': State)
    requires WfMembers(ms) && |stack| + 1 + NestingMembers(ms) <= depth
    ensures s' == OB || s' == KE
    ensures Reaches(depth, Config(OB, stack + [MODE_KEY]), YieldMembers(ms), Config(s', stack + [MODE_KEY]))
    decreases ms
  {
    hide Run, Table, ClassOf;
    if ms.NoMembers? {
      s' := OB;
      Nothing(depth, Config(OB, stack + [MODE_KEY]));
    } else {
      var keyed, full := stack + [MODE_KEY], stack + [MODE_OBJECT];
      var a := Config(OB, keyed);
      var here := RunMembers(depth, stack, ms.init);
      var last := RunMember(depth, here, stack, ms.last);
      s' := KE;
      assert full[..|full| - 1] == stack;
      StepPunctuation(depth, full, last, COMMA);
      One(depth, Config(last, full), COMMA, Config(KE, keyed));
      Chain(depth, a, YieldMembers(ms.init), Config(here, keyed), YieldMember(ms.last), Config(last, full));
      Chain(depth, a, YieldMembers(ms.init) + YieldMember(ms.last), Config(last, full), [COMMA], Config(KE, keyed));
    }
  }

  /** Every text of the grammar that nests at most depth - 1 deep is accepted. */
  lemma Complete(depth: int, s: Text)
    requires InGrammar(s, depth - 1)
    ensures Accepts(depth, s)
  {
    var t: Elem :| WfText(t) && Nesting(t.value) <= depth - 1 && YieldElem(t) == s;
    var last := RunElem(depth, GO, START.stack, t);
  }
}

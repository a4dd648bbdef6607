/** The language of the checker: the grammar, and how its numbers differ from RFC 8259. */
module CheckerTheorems {
  import opened Ascii
  import opened Options
  import opened JsonGrammar
  import opened JsonChecker
  import CheckerSound
  import CheckerComplete

  /** Crockford's automaton accepts exactly the grammar, up to the depth of its stack. */
  lemma AcceptsIffInGrammar(depth: int, s: Text)
    requires depth >= 1
    ensures Accepts(depth, s) <==> InGrammar(s, depth - 1)
  {
    if Accepts(depth, s) {
      CheckerSound.Sound(depth, s);
    }
    if InGrammar(s, depth - 1) {
      CheckerComplete.Complete(depth, s);
    }
  }

  // Numbers of RFC 8259 that the checker rejects

  /** An exponent straight after the whole part 0. */
  predicate ZeroExponent(n: Num) {
    n.whole == [ZERO] && n.frac.None? && n.exp.Some?
  }

  function InArray(w: Text): Text {
    [LSQRB] + w + [RSQRB]
  }

  /** Of the numbers of section 6 of RFC 8259 the checker rejects exactly those with an exponent
      straight after 0. */
  lemma RfcNumberAccepted(depth: int, n: Num)
    requires depth >= 2 && RfcNumber(n)
    ensures Accepts(depth, InArray(YieldNumber(n))) <==> !ZeroExponent(n)
  {
    if ZeroExponent(n) {
      RejectsZeroExponent(depth, n);
    } else {
      NumberInArray(depth, n);
    }
  }

  lemma NumberInArray(depth: int, n: Num)
    requires depth >= 2 && WfNumber(n)
    ensures Accepts(depth, InArray(YieldNumber(n)))
  {
    var v := Array(NoElems, Elem([], Number(n), []));
    hide YieldNumber, WfNumber, Accepts;
    LoneNumber(n);
    LoneElement(Elem([], Number(n), []));
    assert [] + Yield(v) + [] == Yield(v);
    assert InGrammar(Yield(v), 1) by {
      assert YieldElem(Elem([], v, [])) == Yield(v) && WfText(Elem([], v, []));
    }
    hide InGrammar, Yield;
    InGrammarGrows(Yield(v), 1, depth - 1);
    CheckerComplete.Complete(depth, Yield(v));
  }

  lemma InGrammarGrows(s: Text, n: int, m: int)
    requires InGrammar(s, n) && n <= m
    ensures InGrammar(s, m)
  {
    var t: Elem :| WfText(t) && Nesting(t.value) <= n && YieldElem(t) == s;
  }

  lemma LoneNumber(n: Num)
    ensures var e := Elem([], Number(n), []);
      YieldElem(e) == YieldNumber(n) && Nesting(e.value) == 0 && (WfElem(e) <==> WfNumber(n))
  {
    hide YieldNumber, WfNumber;
    var v := Number(n);
    assert Yield(v) == YieldNumber(n) && Nesting(v) == 0 && (WfValue(v) <==> WfNumber(n));
  }

  lemma LoneElement(e: Elem)
    ensures var v := Array(NoElems, e);
      Yield(v) == InArray(YieldElem(e)) && Nesting(v) == 1 + Nesting(e.value) && (WfValue(v) <==> WfElem(e))
  {
    hide YieldElem, WfElem;
    var v := Array(NoElems, e);
    assert YieldElems(NoElems) == [] && NestingElems(NoElems) == 0 && WfElems(NoElems);
    assert Yield(v) == [LSQRB] + [] + YieldElem(e) + [RSQRB];
  }

  lemma RejectsZeroExponent(depth: int, n: Num)
    requires depth >= 2 && ZeroExponent(n) && WfExponent(n.exp.value)
    ensures !Accepts(depth, InArray(YieldNumber(n)))
  {
    hide Run;
    var mark := n.exp.value.mark;
    var head := [LSQRB] + (if n.minus then [MINUS] else []) + [ZERO];
    var tail := n.exp.value.sign + n.exp.value.digits + [RSQRB];
    SplitAfterZero(n);
    hide YieldNumber, InArray;
    ReadsZero(depth, n.minus);
    StopsAfterZero(depth, mark, tail);
    RunConcat(depth, START, head, [mark] + tail);
  }

  lemma SplitAfterZero(n: Num)
    requires ZeroExponent(n)
    ensures var e := n.exp.value;
      InArray(YieldNumber(n)) == [LSQRB] + (if n.minus then [MINUS] else []) + [ZERO]
          + ([e.mark] + (e.sign + e.digits + [RSQRB]))
  {
    var e, minus: Text := n.exp.value, if n.minus then [MINUS] else [];
    assert YieldNumber(n) == minus + [ZERO] + [] + ([e.mark] + e.sign + e.digits);
  }

  lemma StopsAfterZero(depth: int, mark: int, tail: Text)
    requires mark == 0x65 || mark == 0x45
    ensures Run(depth, Config(ZE, [MODE_DONE] + [MODE_ARRAY]), [mark] + tail).None?
  {
    ZeroTakesNoExponent(mark);
    hide Table, ClassOf;
  }

  // up to the digit 0 everything is read
  lemma ReadsZero(depth: int, minus: bool)
    requires depth >= 2
    ensures Run(depth, START, [LSQRB] + (if minus then [MINUS] else []) + [ZERO])
        == Some(Config(ZE, [MODE_DONE] + [MODE_ARRAY]))
  {
    var a, m := Config(AR, [MODE_DONE] + [MODE_ARRAY]), Config(MI, [MODE_DONE] + [MODE_ARRAY]);
    var z := Config(ZE, a.stack);
    CheckerComplete.StepPunctuation(depth, START.stack, GO, LSQRB);
    CheckerComplete.LeadsNumber(AR, ZERO);
    CheckerComplete.LeadsNumber(MI, ZERO);
    CheckerComplete.LeadsNumber(AR, MINUS);
    hide Table, ClassOf;
    CheckerComplete.One(depth, START, LSQRB, a);
    if minus {
      CheckerComplete.One(depth, a, MINUS, m);
      CheckerComplete.One(depth, m, ZERO, z);
      CheckerComplete.Chain(depth, START, [LSQRB], a, [MINUS], m);
      CheckerComplete.Chain(depth, START, [LSQRB] + [MINUS], m, [ZERO], z);
    } else {
      CheckerComplete.One(depth, a, ZERO, z);
      CheckerComplete.Chain(depth, START, [LSQRB], a, [ZERO], z);
      assert [LSQRB] + [] + [ZERO] == [LSQRB] + [ZERO];
    }
  }

  lemma ZeroTakesNoExponent(mark: int)
    requires mark == 0x65 || mark == 0x45
    ensures ClassOf(mark).Some? && Table(ZE, ClassOf(mark).value) == BAD
  {}

  // Numbers that the checker accepts and RFC 8259 does not have

  // sign and whole part, before any point or exponent
  function Front(n: Num): Text {
    (if n.minus then [MINUS] else []) + n.whole
  }

  function Back(n: Num): Text {
    (if n.frac.Some? then [POINT] + n.frac.value else []) + (if n.exp.Some? then YieldExponent(n.exp.value) else [])
  }

  lemma FrontBack(n: Num)
    requires WfNumber(n) || RfcNumber(n)
    ensures YieldNumber(n) == Front(n) + Back(n)
    ensures POINT !in Front(n) && (n.frac.None? ==> POINT !in Back(n))
  {
    assert Digits(n.whole) && POINT !in n.whole;
    if n.exp.Some? {
      assert POINT !in n.exp.value.digits;
    }
  }

  /** Unique reading: two readings of a number put the point in the same place. */
  lemma SamePoint(n: Num, m: Num)
    requires WfNumber(n) && RfcNumber(m) && YieldNumber(n) == YieldNumber(m) && n.frac.Some?
    ensures m.frac.Some? && Front(n) == Front(m) && Back(n) == Back(m)
  {
    FrontBack(n);
    FrontBack(m);
    hide YieldNumber, WfNumber, RfcNumber;
    var s, p, q := YieldNumber(n), |Front(n)|, |Front(m)|;
    assert s[p] == POINT && forall i :: 0 <= i < p ==> s[i] == Front(n)[i];
    assert (forall i :: 0 <= i < q ==> s[i] == Front(m)[i]) && forall i :: q <= i < |s| ==> s[i] == Back(m)[i - q];
    assert q <= p && m.frac.Some?;
    assert s[q] == POINT;
    assert s[..p] == Front(n) && s[..q] == Front(m) && s[p..] == Back(n) && s[q..] == Back(m);
  }

  lemma PointThenDigit(m: Num)
    requires RfcNumber(m) && m.frac.Some?
    ensures |Back(m)| > 1 && IsDigit(Back(m)[1])
  {
    assert Back(m)[1] == m.frac.value[0];
  }

  /** Of the numbers that the checker accepts, those whose text is no number of section 6 of
      RFC 8259, however it is read, are exactly those with a point and no digit after it. */
  lemma AcceptedNumberInRfc(n: Num)
    requires WfNumber(n)
    ensures (exists m :: RfcNumber(m) && YieldNumber(m) == YieldNumber(n)) <==> n.frac != Some([])
  {
    if n.frac != Some([]) {
      assert RfcNumber(n);
    }
    if n.frac == Some([]) {
      forall m | RfcNumber(m)
        ensures YieldNumber(m) != YieldNumber(n)
      {
        if YieldNumber(m) == YieldNumber(n) {
          SamePoint(n, m);
          PointThenDigit(m);
        }
      }
    }
  }

  // [0e1] is rejected and [1.] is accepted
  lemma NumberWitnesses()
    ensures !Accepts(20, [LSQRB, ZERO, 0x65, 0x31, RSQRB])
    ensures Accepts(20, [LSQRB, 0x31, POINT, RSQRB])
  {
    var one, zero := Num(false, [0x31], Some([]), None), Num(false, [ZERO], None, Some(Exponent(0x65, [], [0x31])));
    assert YieldNumber(one) == [0x31, POINT] && YieldNumber(zero) == [ZERO, 0x65, 0x31];
    assert InArray([0x31, POINT]) == [LSQRB, 0x31, POINT, RSQRB];
    assert InArray([ZERO, 0x65, 0x31]) == [LSQRB, ZERO, 0x65, 0x31, RSQRB];
    NumberInArray(20, one);
    RejectsZeroExponent(20, zero);
  }
}

/** The framer and the checker side by side. */
module FramerMeetsChecker {
  import opened Ascii
  import opened JsonGrammar
  import opened Options
  import opened JsonChecker
  import opened Framing
  import opened FramingTheorems
  import CheckerSound
  import CheckerComplete
  import opened CheckerTheorems

  predicate InStringState(s: State) {
    s == ST || s == ES || s == U1 || s == U2 || s == U3 || s == U4
  }

  /** The framer's view of a configuration: depth is the index `top` of the stack. */
  function NestIn(cfg: Config): Nest {
    Nest(|cfg.stack| - 1, InStringState(cfg.state), cfg.state == ES)
  }

  // which classes, and so which characters, carry which action
  function ActionClass(e: Entry): Class {
    if e == OBJECT_BEGIN then C_LCURB else if e == ARRAY_BEGIN then C_LSQRB
    else if e == ARRAY_END then C_RSQRB else if e == SEPARATOR then C_COMMA
    else if e == NAME_END then C_COLON else if e == STRING_END then C_QUOTE else C_RCURB
  }

  lemma ActionClasses(s: State, k: Class)
    requires Table(s, k) < BAD
    ensures k == ActionClass(Table(s, k))
    ensures Table(s, k) >= EMPTY_OBJECT_END
  {}

  lemma ActionStates(s: State, k: Class)
    requires Table(s, k) < BAD
    ensures if InStringState(s) then Table(s, k) == STRING_END && s == ST else Table(s, k) != STRING_END
  {}

  lemma Characters(c: int)
    requires ClassOf(c).Some?
    ensures var k := ClassOf(c).value;
            && (k == C_LCURB <==> c == LCURB) && (k == C_RCURB <==> c == RCURB)
            && (k == C_LSQRB <==> c == LSQRB) && (k == C_RSQRB <==> c == RSQRB)
            && (k == C_COMMA <==> c == COMMA) && (k == C_COLON <==> c == COLON)
            && (k == C_QUOTE <==> c == QUOTE) && (k == C_BACKS <==> c == BACKS)
  {}

  lemma ActionChars(s: State, c: int)
    requires ClassOf(c).Some?
    ensures var e := Table(s, ClassOf(c).value);
            && (e == OBJECT_BEGIN ==> c == LCURB && !InStringState(s))
            && (e == ARRAY_BEGIN ==> c == LSQRB && !InStringState(s))
            && (e == OBJECT_END || e == EMPTY_OBJECT_END ==> c == RCURB && !InStringState(s))
            && (e == ARRAY_END ==> c == RSQRB && !InStringState(s))
            && (e == SEPARATOR ==> c == COMMA && !InStringState(s))
            && (e == NAME_END ==> c == COLON && !InStringState(s))
            && (e == STRING_END ==> c == QUOTE && s == ST)
  {
    hide Table, ClassOf;
    Characters(c);
    if Table(s, ClassOf(c).value) < BAD {
      ActionClasses(s, ClassOf(c).value);
      ActionStates(s, ClassOf(c).value);
    }
  }

  lemma MoveChars(s: State, c: int)
    requires ClassOf(c).Some? && Table(s, ClassOf(c).value) >= 0 && s != GO
    ensures var e := Table(s, ClassOf(c).value);
            && e != GO
            && Look(Nest(1, InStringState(s), s == ES), c) == Nest(1, InStringState(e), e == ES)
  {
    if InStringState(s) {
      StringMoves(s, c);
    } else {
      OtherMoves(s, c);
    }
  }

  lemma StringMoves(s: State, c: int)
    requires ClassOf(c).Some? && Table(s, ClassOf(c).value) >= 0 && InStringState(s)
    ensures var e := Table(s, ClassOf(c).value);
            && InStringState(e)
            && (s == ES ==> e != ES)
            && (s == ST ==> c != QUOTE && (e == ES <==> c == BACKS))
            && (s != ST && s != ES ==> e != ES && c != QUOTE && c != BACKS)
  {}

  lemma OtherMoves(s: State, c: int)
    requires ClassOf(c).Some? && Table(s, ClassOf(c).value) >= 0 && !InStringState(s) && s != GO
    ensures var e := Table(s, ClassOf(c).value);
            && e != GO && e != ES
            && (InStringState(e) <==> c == QUOTE)
            && !IsOpening(c) && !IsClosing(c)
  {
    hide Table, ClassOf;
    Characters(c);
    OtherMovesOfClass(s, ClassOf(c).value);
  }

  lemma OtherMovesOfClass(s: State, k: Class)
    requires Table(s, k) >= 0 && !InStringState(s) && s != GO
    ensures Table(s, k) != GO && Table(s, k) != ES
    ensures InStringState(Table(s, k)) <==> k == C_QUOTE
    ensures k != C_LCURB && k != C_RCURB && k != C_LSQRB && k != C_RSQRB
  {}

  lemma StepKeepsNest(depth: int, cfg: Config, c: int)
    requires cfg.state != GO && Step(depth, cfg, c).Some?
    ensures NestIn(Step(depth, cfg, c).value) == Look(NestIn(cfg), c)
    ensures Step(depth, cfg, c).value.state != GO
  {
    hide Table, ClassOf;
    ActionChars(cfg.state, c);
    if Table(cfg.state, ClassOf(c).value) >= 0 {
      MoveChars(cfg.state, c);
    }
  }

  // outside of all brackets the checker is in GO or OK
  predicate AtRest(cfg: Config) {
    && |cfg.stack| >= 1 && cfg.stack[0] == MODE_DONE
    && (|cfg.stack| == 1 ==> cfg.state == GO || cfg.state == OK)
    && (|cfg.stack| > 1 ==> cfg.state != GO)
  }

  lemma RestMoves(s: State, c: int)
    requires ClassOf(c).Some? && (s == GO || s == OK)
    ensures var e := Table(s, ClassOf(c).value);
            || e == BAD
            || (e == s && IsWhite(c))
            || (s == GO && ((e == OBJECT_BEGIN && c == LCURB) || (e == ARRAY_BEGIN && c == LSQRB)))
            || (s == OK && (e == OBJECT_END || e == ARRAY_END || e == SEPARATOR))
  {}

  lemma StepAtRest(depth: int, cfg: Config, c: int)
    requires AtRest(cfg) && |cfg.stack| == 1 && Step(depth, cfg, c).Some?
    ensures var next := Step(depth, cfg, c).value;
            || (next == cfg && IsWhite(c))
            || (cfg.state == GO && IsOpening(c) && next.stack[0] == MODE_DONE && |next.stack| == 2
                && NestIn(next) == Nest(1, false, false) && next.state != GO)
  {
    hide Table, ClassOf;
    RestMoves(cfg.state, c);
  }

  lemma StepInside(depth: int, cfg: Config, c: int)
    requires AtRest(cfg) && |cfg.stack| > 1 && Step(depth, cfg, c).Some?
    ensures AtRest(Step(depth, cfg, c).value)
    ensures NestIn(Step(depth, cfg, c).value) == Look(NestIn(cfg), c)
  {
    StepKeepsNest(depth, cfg, c);
    hide Table, ClassOf;
    assert Table(cfg.state, ClassOf(c).value) >= 0 ==> |Step(depth, cfg, c).value.stack| == |cfg.stack|;
  }

  /** What the framer holds when the checker is in configuration cfg. */
  ghost predicate Agrees(cfg: Config, f: Frames) {
    && !f.error
    && NestOf(f.partial) == NestIn(cfg)
    && (f.partial != [] <==> |cfg.stack| > 1)
    && |f.done| == (if |cfg.stack| == 1 && cfg.state == OK then 1 else 0)
  }

  /** Simulation: as long as the checker has not rejected, the framer's depth is the checker's
      top, its string and escape flags are the checker's string states, and it has finished
      one message exactly when the checker has closed the outermost bracket. */
  lemma {:induction false} Simulation(depth: int, max: nat, s: Text)
    requires Run(depth, START, s).Some? && !Frame(max, s).error
    ensures AtRest(Run(depth, START, s).value)
    ensures Agrees(Run(depth, START, s).value, Frame(max, s))
    decreases |s|
  {
    if s != [] {
      var v, c := s[..|s| - 1], s[|s| - 1];
      assert v + [c] == s;
      RunSnoc(depth, START, v, c);
      FrameSnoc(max, v, c);
      Simulation(depth, max, v);
      FrameIsGood(max, v);
      hide Run, Step, Frame;
      SimulationStep(depth, max, Run(depth, START, v).value, Frame(max, v), c);
    }
  }

  lemma SimulationStep(depth: int, max: nat, cfg: Config, f: Frames, c: int)
    requires AtRest(cfg) && Agrees(cfg, f) && Step(depth, cfg, c).Some? && GoodFrames(max, f)
    ensures Take(max, f, c).error <==> f.partial != [] && |f.partial| + 1 > max
    ensures AtRest(Step(depth, cfg, c).value)
    ensures !Take(max, f, c).error ==> Agrees(Step(depth, cfg, c).value, Take(max, f, c))
  {
    if |cfg.stack| == 1 {
      StepAtRest(depth, cfg, c);
      hide Step;
      assert NestOf([c]) == Nest(1, false, false);
    } else {
      StepInside(depth, cfg, c);
      OpenSnoc(f.partial, c);
      hide Step, NestOf, Look, IsOpen, SelfDelimiting;
    }
  }

  // the open message is full and goes on
  ghost predicate TooLongAt(max: nat, s: Text, k: nat) {
    && k < |s| && !Frame(max, s[..k]).error
    && Frame(max, s[..k]).partial != [] && |Frame(max, s[..k]).partial| + 1 > max
  }

  /** On a text that the checker has not rejected, the framer reports an error only because of
      the size of the open message. */
  lemma ErrorIffTooLong(depth: int, max: nat, s: Text)
    requires Run(depth, START, s).Some?
    ensures Frame(max, s).error <==> exists k :: TooLongAt(max, s, k)
  {
    hide Run, Frame, TooLongAt;
    if Frame(max, s).error {
      var k := FirstTooLong(depth, max, s);
    }
    if exists k :: TooLongAt(max, s, k) {
      var k: nat :| TooLongAt(max, s, k);
      TooLongFails(max, s, k);
    }
  }

  lemma TooLongFails(max: nat, s: Text, k: nat)
    requires TooLongAt(max, s, k)
    ensures Frame(max, s).error
  {
    hide Frame;
    var head, tail := s[..k] + [s[k]], s[k + 1..];
    assert head + tail == s;
    FrameSnoc(max, s[..k], s[k]);
    ErrorStays(max, head, tail);
  }

  lemma {:induction false} PartialWithinText(max: nat, s: Text)
    ensures |Frame(max, s).partial| <= |s|
    decreases |s|
  {
    if s != [] {
      PartialWithinText(max, s[..|s| - 1]);
    }
  }

  /** A text within the limit is never too long. */
  lemma ShortEnough(depth: int, s: Text)
    requires Run(depth, START, s).Some?
    ensures !Frame(|s|, s).error
  {
    if Frame(|s|, s).error {
      var k := FirstTooLong(depth, |s|, s);
      PartialWithinText(|s|, s[..k]);
    }
  }

  lemma {:induction false} FirstTooLong(depth: int, max: nat, s: Text) returns (k: nat)
    requires Run(depth, START, s).Some? && Frame(max, s).error
    ensures TooLongAt(max, s, k)
    decreases |s|
  {
    var v, c := s[..|s| - 1], s[|s| - 1];
    assert v + [c] == s;
    RunSnoc(depth, START, v, c);
    FrameSnoc(max, v, c);
    hide Run, Step, Frame;
    if Frame(max, v).error {
      k := FirstTooLong(depth, max, v);
      assert v[..k] == s[..k];
    } else {
      k := |v|;
      Simulation(depth, max, v);
      FrameIsGood(max, v);
      SimulationStep(depth, max, Run(depth, START, v).value, Frame(max, v), c);
    }
  }

  /** The text without the white space around it. */
  lemma AcceptedMessage(depth: int, s: Text) returns (t: Elem)
    requires depth >= 1 && Accepts(depth, s)
    ensures WfText(t) && YieldElem(t) == s && SelfDelimiting(Yield(t.value))
  {
    CheckerSound.Sound(depth, s);
    t :| WfText(t) && Nesting(t.value) <= depth - 1 && YieldElem(t) == s;
    var m := Yield(t.value);
    var core := Elem([], t.value, []);
    assert [] + m + [] == m;
    CheckerComplete.Complete(depth, YieldElem(core));
    AcceptedIsClosed(depth, m);
    YieldIsBracketed(t.value);
    hide Yield, WfText, Accepts, InGrammar;
    LoneMessage(m);
  }

  // a container begins and ends with brackets, which are no separators
  lemma YieldIsBracketed(v: Value)
    requires IsContainer(v)
    ensures |Yield(v)| >= 2 && IsOpening(Yield(v)[0]) && IsClosing(Yield(v)[|Yield(v)| - 1])
  {}

  lemma AcceptedIsClosed(depth: int, m: Text)
    requires depth >= 1 && Accepts(depth, m)
    ensures !Frame(|m|, m).error && |Frame(|m|, m).done| == 1 && Frame(|m|, m).partial == []
  {
    ShortEnough(depth, m);
    Simulation(depth, |m|, m);
    var cfg := Run(depth, START, m).value;
    assert |cfg.stack| == 1 by {
      DoneOnlyAtBottom(depth, m);
    }
  }

  // MODE_DONE is at the bottom of the stack only
  lemma {:induction false} DoneOnlyAtBottom(depth: int, s: Text)
    requires Run(depth, START, s).Some?
    ensures var stack := Run(depth, START, s).value.stack;
            |stack| >= 1 && forall i :: 1 <= i < |stack| ==> stack[i] != MODE_DONE
    decreases |s|
  {
    if s != [] {
      var n := |s| - 1;
      assert s[..n] + [s[n]] == s;
      RunSnoc(depth, START, s[..n], s[n]);
      DoneOnlyAtBottom(depth, s[..n]);
      StepKeepsBottom(depth, Run(depth, START, s[..n]).value, s[n]);
      hide Run, Step;
      SimulationTop(depth, s);
    }
  }

  lemma SimulationTop(depth: int, s: Text)
    requires Run(depth, START, s).Some?
    ensures |Run(depth, START, s).value.stack| >= 1
  {
    ShortEnough(depth, s);
    Simulation(depth, |s|, s);
  }

  lemma StepKeepsBottom(depth: int, cfg: Config, c: int)
    requires Step(depth, cfg, c).Some?
    requires forall i :: 1 <= i < |cfg.stack| ==> cfg.stack[i] != MODE_DONE
    ensures var stack := Step(depth, cfg, c).value.stack; forall i :: 1 <= i < |stack| ==> stack[i] != MODE_DONE
  {}

  // one message without separators around it is the whole text
  lemma LoneMessage(m: Text)
    requires |m| >= 2 && IsOpening(m[0]) && IsClosing(m[|m| - 1])
    requires !Frame(|m|, m).error && |Frame(|m|, m).done| == 1 && Frame(|m|, m).partial == []
    ensures SelfDelimiting(m)
  {
    hide Frame, SelfDelimiting, Separators, StreamText, Messages;
    var st := Cut(|m|, m);
    LoneStream(|m|, st);
    var before, msg, after := st.init.sep, st.msg, st.sep;
    assert m == before + msg + after by {
      assert StreamText(st) + [] == StreamText(st);
    }
    NotSeparators(before, msg, after);
  }

  lemma LoneStream(max: nat, st: Stream)
    requires WfStream(max, st) && |Messages(st)| == 1
    ensures st.More? && st.init.Start? && StreamText(st) == st.init.sep + st.msg + st.sep
    ensures Separators(st.init.sep) && Separators(st.sep) && SelfDelimiting(st.msg)
  {}

  lemma NotSeparators(before: Text, msg: Text, after: Text)
    requires Separators(before) && Separators(after)
    requires var m := before + msg + after; |m| >= 2 && IsOpening(m[0]) && IsClosing(m[|m| - 1])
    ensures before + msg + after == msg
  {
    assert before == [] && after == [];
  }

  /** An accepted text is framed as one message, the text without the white space around
      it, exactly when that message is within the size limit. */
  lemma AcceptedFrames(depth: int, max: nat, s: Text) returns (t: Elem)
    requires depth >= 1 && Accepts(depth, s)
    ensures WfText(t) && YieldElem(t) == s
    ensures Frame(max, s) == Frames([Yield(t.value)], [], false) <==> |Yield(t.value)| <= max
  {
    hide Accepts, Frame, Yield, SelfDelimiting;
    t := AcceptedMessage(depth, s);
    var m := Yield(t.value);
    var st := More(Start(t.before), m, t.after);
    assert Messages(st) == [m];
    if |m| <= max {
      assert Separators(t.before) && Separators(t.after);
      assert WfStream(max, Start(t.before));
      LoneStream(max, st);
      assert s + [] == s;
      Reassemble(max, s, st, []);
    } else {
      FrameIsGood(max, s);
      assert [m][0] == m;
    }
  }

  // NUL bytes inside a message

  /** What strlen() leaves of a buffer that ends in a NUL: the bytes before the first one. */
  function CString(s: Text): Text {
    if s == [] || s[0] == 0 then [] else [s[0]] + CString(s[1..])
  }

  lemma {:induction false} CStringIsPrefix(s: Text)
    ensures |CString(s)| <= |s| && CString(s) == s[..|CString(s)|]
    ensures |CString(s)| < |s| ==> s[|CString(s)|] == 0
    decreases |s|
  {
    if s != [] && s[0] != 0 {
      CStringIsPrefix(s[1..]);
    }
  }

  /** Checking a framed message only up to its first NUL never changes the verdict: a
      message that holds a NUL is rejected either way. */
  lemma CutAtNulIsHarmless(depth: int, m: Text)
    requires depth >= 1 && SelfDelimiting(m)
    ensures Accepts(depth, CString(m)) <==> Accepts(depth, m)
    ensures 0 in m ==> !Accepts(depth, CString(m))
  {
    var k := |CString(m)|;
    CStringIsPrefix(m);
    if k == |m| {
      NoNul(m);
    } else {
      RejectsNul(depth, m, k);
      if Accepts(depth, m[..k]) {
        if k == 0 {
          assert m[..0] == [];
        } else {
          PrefixIsOpen(depth, m, k);
        }
      }
    }
  }

  lemma {:induction false} NoNul(s: Text)
    requires CString(s) == s
    ensures 0 !in s
    decreases |s|
  {
    if s != [] {
      assert CString(s)[1..] == CString(s[1..]);
      NoNul(s[1..]);
    }
  }

  lemma RejectsNul(depth: int, m: Text, k: nat)
    requires k < |m| && m[k] == 0
    ensures !Accepts(depth, m)
  {
    assert m == m[..k] + ([0] + m[k + 1..]);
    RunConcat(depth, START, m[..k], [0] + m[k + 1..]);
  }

  lemma PrefixIsOpen(depth: int, m: Text, k: nat)
    requires depth >= 1 && SelfDelimiting(m) && 0 < k < |m|
    ensures !Accepts(depth, m[..k])
  {
    if Accepts(depth, m[..k]) {
      AcceptedIsClosed(depth, m[..k]);
      var open := m[..|m| - 1];
      OpenPrefix(open, k);
      assert open[..k] == m[..k];
      assert [] + m[..k] == m[..k];
      ReadOpen(k, [], m[..k]);
    }
  }

  /** json_checker_function: the proxy's loop over a buffer. */
  method JsonCheckerFunction(buffer: Text) returns (r: int)
    ensures r == 0 || r == -1
    ensures r == 0 <==> InGrammar(CString(buffer), 19)
  {
    var s := CString(buffer);
    AcceptsIffInGrammar(20, s);
    var jc := new Checker(20);
    var i := 0;
    while i < |s|
      invariant 0 <= i <= |s|
      invariant jc.Valid() && jc.depth == 20 && fresh(jc) && fresh(jc.stack)
      invariant Run(20, START, s[..i]) == Some(jc.View())
    {
      var nextChar := s[i];
      if nextChar == 0 {
        break;
      }
      assert s[..i] + [nextChar] == s[..i + 1];
      RunSnoc(20, START, s[..i], nextChar);
      var ok := jc.Char(nextChar);
      if !ok {
        assert s == s[..i + 1] + s[i + 1..];
        RunConcat(20, START, s[..i + 1], s[i + 1..]);
        return -1;
      }
      i := i + 1;
    }
    assert i == |s| by {
      if i < |s| {
        CStringIsPrefix(buffer);
        CStringHasNoNul(buffer, i);
      }
    }
    assert s[..|s|] == s;
    var ok := jc.Done();
    if !ok {
      return -1;
    }
    return 0;
  }

  lemma {:induction false} CStringHasNoNul(s: Text, i: nat)
    requires i < |CString(s)|
    ensures CString(s)[i] != 0
    decreases |s|
  {
    if i > 0 {
      CStringHasNoNul(s[1..], i - 1);
    }
  }
}

/**
 Soundness of the checker: whatever it accepts is a text of the grammar.  The
 proof runs a parser beside the automaton.  The parser's state, the zipper, is a
 derivation tree cut open at the character just read; each step that does not
 reject extends it by one character and keeps it in line with the automaton.
 */
module CheckerSound {
  import opened Ascii
  import opened JsonGrammar
  import opened Options
  import opened JsonChecker

  // The place a value is about to stand in, with what was read there before it.
  datatype Slot =
    | Top(ws: Text)
    | InArray(elems: Elems, ws: Text)
    | InObject(members: Members, before: Text, key: seq<StrItem>, mid: Text, ws: Text)

  // The slots of the containers that are still open, the innermost one last.
  datatype Outer = Outermost | Nested(outer: Outer, slot: Slot)

  // What is being read inside the innermost container.
  datatype Focus =
    | Before(slot: Slot)
    | InString(slot: Slot, items: seq<StrItem>, part: Text)
    | InNumber(slot: Slot, num: Num)
    | InLiteral(slot: Slot, lit: Literal, seen: nat)
    | After(slot: Slot, value: Value, ws: Text)
    | BeforeKey(members: Members, ws: Text)
    | InKey(members: Members, ws: Text, items: seq<StrItem>, part: Text)
    | AfterKey(members: Members, ws: Text, key: seq<StrItem>, mid: Text)

  datatype Zipper = Zipper(outer: Outer, focus: Focus)

  // The text read so far

  function SlotText(s: Slot): Text {
    match s
    case Top(ws) => ws
    case InArray(es, ws) => [LSQRB] + YieldElems(es) + ws
    case InObject(ms, b, k, m, ws) => KeyText(ms, b) + YieldString(k) + m + [COLON] + ws
  }

  function KeyText(ms: Members, ws: Text): Text {
    [LCURB] + YieldMembers(ms) + ws
  }

  function OuterText(o: Outer): Text {
    if o.Outermost? then [] else OuterText(o.outer) + SlotText(o.slot)
  }

  function OpenString(items: seq<StrItem>, part: Text): Text {
    [QUOTE] + YieldItems(items) + part
  }

  function FocusText(f: Focus): Text {
    match f
    case Before(s) => SlotText(s)
    case InString(s, xs, part) => SlotText(s) + OpenString(xs, part)
    case InNumber(s, n) => SlotText(s) + YieldNumber(n)
    case InLiteral(s, l, k) => SlotText(s) + (if k <= |Word(l)| then Word(l)[..k] else [])
    case After(s, v, ws) => SlotText(s) + Yield(v) + ws
    case BeforeKey(ms, ws) => KeyText(ms, ws)
    case InKey(ms, ws, xs, part) => KeyText(ms, ws) + OpenString(xs, part)
    case AfterKey(ms, ws, key, mid) => KeyText(ms, ws) + YieldString(key) + mid
  }

  function ZipText(z: Zipper): Text {
    OuterText(z.outer) + FocusText(z.focus)
  }

  // The configuration a zipper stands for

  function SlotMode(s: Slot): Mode {
    match s
    case Top(_) => MODE_DONE
    case InArray(_, _) => MODE_ARRAY
    case InObject(_, _, _, _, _) => MODE_OBJECT
  }

  function Modes(o: Outer): seq<Mode> {
    if o.Outermost? then [] else Modes(o.outer) + [SlotMode(o.slot)]
  }

  function PartState(part: Text): State {
    if |part| == 0 then ST else if |part| == 1 then ES else if |part| == 2 then U1
    else if |part| == 3 then U2 else if |part| == 4 then U3 else U4
  }

  function NumState(n: Num): State {
    if n.exp.Some? then
      if n.exp.value.digits != [] then E3 else if n.exp.value.sign != [] then E2 else E1
    else if n.frac.Some? then FR
    else if n.whole == [] then MI
    else if n.whole == [ZERO] then ZE
    else IN
  }

  function LitState(l: Literal, seen: nat): State {
    match l
    case LTrue => if seen == 1 then T1 else if seen == 2 then T2 else T3
    case LFalse => if seen == 1 then F1 else if seen == 2 then F2 else if seen == 3 then F3 else F4
    case LNull => if seen == 1 then N1 else if seen == 2 then N2 else N3
  }

  function FocusState(f: Focus): State {
    match f
    case Before(s) => if s.Top? then GO else if s == InArray(NoElems, s.ws) then AR else VA
    case InString(_, _, part) => PartState(part)
    case InNumber(_, n) => NumState(n)
    case InLiteral(_, l, k) => LitState(l, k)
    case After(_, _, _) => OK
    case BeforeKey(ms, _) => if ms.NoMembers? then OB else KE
    case InKey(_, _, _, part) => PartState(part)
    case AfterKey(_, _, _, _) => CO
  }

  function FocusMode(f: Focus): Mode {
    if f.BeforeKey? || f.InKey? || f.AfterKey? then MODE_KEY else SlotMode(f.slot)
  }

  function ConfigOf(z: Zipper): Config {
    Config(FocusState(z.focus), Modes(z.outer) + [FocusMode(z.focus)])
  }

  // Well-formed zippers; `room` is how deep a value may still nest in a slot.

  predicate WfSlot(s: Slot, room: int) {
    match s
    case Top(ws) => Blank(ws)
    case InArray(es, ws) => WfElems(es) && NestingElems(es) <= room && Blank(ws)
    case InObject(ms, b, k, m, ws) => WfKey(ms, b, room) && WfItems(k) && Blank(m) && Blank(ws)
  }

  predicate WfKey(ms: Members, ws: Text, room: int) {
    WfMembers(ms) && NestingMembers(ms) <= room && Blank(ws)
  }

  predicate WfOuter(o: Outer, depth: int) {
    o.Nested? ==>
      && WfOuter(o.outer, depth)
      && WfSlot(o.slot, depth - |Modes(o)|)
      && (o.slot.Top? <==> o.outer.Outermost?)
  }

  predicate WfPart(part: Text) {
    && |part| <= 5
    && (|part| > 0 ==> part[0] == BACKS)
    && (|part| > 1 ==> part[1] == LOW_U)
    && forall i :: 2 <= i < |part| ==> IsHex(part[i])
  }

  predicate WfOpenNumber(n: Num) {
    && (n.whole == [] ==> n.minus && n.frac.None? && n.exp.None?)
    && (n.whole != [] ==> WfWhole(n.whole))
    && (n.frac.Some? ==> Digits(n.frac.value))
    && (n.exp.Some? ==>
          var e := n.exp.value;
          && (e.mark == 0x65 || e.mark == 0x45)
          && (e.sign == [] || e.sign == [PLUS] || e.sign == [MINUS])
          && Digits(e.digits))
    && (n.exp.Some? && n.whole == [ZERO] ==> n.frac.Some?)
  }

  predicate WfFocus(f: Focus, room: int) {
    match f
    case Before(s) => WfSlot(s, room)
    case InString(s, xs, part) => WfSlot(s, room) && !s.Top? && WfItems(xs) && WfPart(part)
    case InNumber(s, n) => WfSlot(s, room) && !s.Top? && WfOpenNumber(n)
    case InLiteral(s, l, k) => WfSlot(s, room) && !s.Top? && 1 <= k < |Word(l)|
    case After(s, v, ws) =>
      WfSlot(s, room) && WfValue(v) && Nesting(v) <= room && Blank(ws) && (s.Top? ==> IsContainer(v))
    case BeforeKey(ms, ws) => WfKey(ms, ws, room)
    case InKey(ms, ws, xs, part) => WfKey(ms, ws, room) && WfItems(xs) && WfPart(part)
    case AfterKey(ms, ws, key, mid) => WfKey(ms, ws, room) && WfItems(key) && Blank(mid)
  }

  predicate AtTop(f: Focus) {
    !f.BeforeKey? && !f.InKey? && !f.AfterKey? && f.slot.Top?
  }

  predicate Wf(z: Zipper, depth: int) {
    && WfOuter(z.outer, depth)
    && |Modes(z.outer)| < depth
    && WfFocus(z.focus, depth - |Modes(z.outer)| - 1)
    && (AtTop(z.focus) <==> z.outer.Outermost?)
  }

  /** z' reads one character more than z, in step with the automaton. */
  ghost predicate Extends(depth: int, z: Zipper, c: int, z': Zipper) {
    && Wf(z', depth)
    && ZipText(z') == ZipText(z) + [c]
    && Step(depth, ConfigOf(z), c) == Some(ConfigOf(z'))
  }

  ghost predicate Moves(depth: int, z: Zipper, c: int) {
    Wf(z, depth) && Step(depth, ConfigOf(z), c).Some?
  }

  /** A step that stays in the same container. */
  lemma Stay(depth: int, z: Zipper, c: int, f: Focus)
    requires Wf(z, depth) && WfFocus(f, depth - |Modes(z.outer)| - 1) && (AtTop(f) <==> AtTop(z.focus))
    requires FocusText(f) == FocusText(z.focus) + [c]
    requires Step(depth, ConfigOf(z), c) == Some(ConfigOf(z.(focus := f)))
    ensures Extends(depth, z, c, z.(focus := f))
  {
    hide Step, FocusText, Modes;
    assert OuterText(z.outer) + (FocusText(z.focus) + [c]) == OuterText(z.outer) + FocusText(z.focus) + [c];
  }

  lemma BlankSnoc(w: Text, c: int)
    requires Blank(w) && IsWhite(c)
    ensures Blank(w + [c])
  {}

  // Reading inside a string

  // the string after one more character; it ends only on a bare quote
  function GrowString(xs: seq<StrItem>, part: Text, c: int): (seq<StrItem>, Text)
    requires WfPart(part)
  {
    if |part| == 0 then
      if c == BACKS then (xs, [BACKS]) else (xs + [Plain(c)], [])
    else if |part| == 1 then
      if c == LOW_U then (xs, [BACKS, LOW_U]) else (xs + [Escape(c)], [])
    else if |part| < 5 then (xs, part + [c])
    else (xs + [Unicode(part[2], part[3], part[4], c)], [])
  }

  lemma YieldItemsSnoc(xs: seq<StrItem>, x: StrItem)
    ensures YieldItems(xs + [x]) == YieldItems(xs) + YieldItem(x)
  {
    assert (xs + [x])[..|xs|] == xs;
  }

  lemma GrowStringWf(xs: seq<StrItem>, part: Text, c: int)
    requires WfItems(xs) && WfPart(part) && ClassOf(c).Some?
    requires Table(PartState(part), ClassOf(c).value) >= 0
    ensures var (ys, rest) := GrowString(xs, part, c);
            WfItems(ys) && WfPart(rest) && Table(PartState(part), ClassOf(c).value) == PartState(rest)
  {}

  lemma GrowStringText(xs: seq<StrItem>, part: Text, c: int)
    requires WfPart(part)
    ensures var (ys, rest) := GrowString(xs, part, c); OpenString(ys, rest) == OpenString(xs, part) + [c]
  {
    var (ys, rest) := GrowString(xs, part, c);
    if |rest| > 0 {
      GrowPartText(xs, part, c);
      assert [QUOTE] + YieldItems(xs) + (part + [c]) == [QUOTE] + YieldItems(xs) + part + [c];
    } else {
      GrowItemText(xs, part, c);
      assert [QUOTE] + (YieldItems(xs) + (part + [c])) + [] == [QUOTE] + YieldItems(xs) + part + [c];
    }
  }

  lemma GrowPartText(xs: seq<StrItem>, part: Text, c: int)
    requires WfPart(part) && |GrowString(xs, part, c).1| > 0
    ensures GrowString(xs, part, c) == (xs, part + [c])
  {
    if |part| == 1 {
      assert part + [c] == [BACKS, c];
    } else if |part| == 0 {
      assert part + [c] == [c];
    }
  }

  lemma GrowItemText(xs: seq<StrItem>, part: Text, c: int)
    requires WfPart(part) && |GrowString(xs, part, c).1| == 0
    ensures YieldItems(GrowString(xs, part, c).0) == YieldItems(xs) + (part + [c])
  {
    var ys := GrowString(xs, part, c).0;
    var x := ys[|xs|];
    YieldItemsSnoc(xs, x);
    hide YieldItems;
    if |part| == 5 {
      assert part == [BACKS, LOW_U, part[2], part[3], part[4]];
    } else if |part| == 1 {
      assert part == [BACKS];
    } else {
      assert part == [];
    }
    assert YieldItem(x) == part + [c];
  }

  // a quote in state ST is the only character that ends a string
  lemma StringStates(part: Text, c: int)
    requires WfPart(part) && ClassOf(c).Some?
    ensures var e := Table(PartState(part), ClassOf(c).value);
            && (part == [] && c == QUOTE <==> e == STRING_END)
            && (e >= 0 || e == BAD || e == STRING_END)
  {}

  lemma ShiftString(depth: int, z: Zipper, c: int) returns (z': Zipper)
    requires Moves(depth, z, c) && z.focus.InString?
    ensures Extends(depth, z, c, z')
  {
    hide Table, ClassOf, OuterText, WfOuter, WfItems, WfPart, YieldItems, SlotText, WfSlot, GrowString;
    var f := z.focus;
    var g;
    StringStates(f.part, c);
    if f.part == [] && c == QUOTE {
      g := After(f.slot, String(f.items), []);
      assert f.slot.InArray? || f.slot.InObject?;
      assert FocusText(g) == SlotText(f.slot) + (OpenString(f.items, []) + [c]);
    } else {
      GrowStringWf(f.items, f.part, c);
      GrowStringText(f.items, f.part, c);
      var (ys, rest) := GrowString(f.items, f.part, c);
      g := InString(f.slot, ys, rest);
      hide OpenString;
      assert FocusText(g) == SlotText(f.slot) + (OpenString(f.items, f.part) + [c]);
    }
    z' := z.(focus := g);
    Stay(depth, z, c, g);
  }

  lemma ShiftKey(depth: int, z: Zipper, c: int) returns (z': Zipper)
    requires Moves(depth, z, c) && z.focus.InKey?
    ensures Extends(depth, z, c, z')
  {
    hide Table, ClassOf, OuterText, WfOuter, WfItems, WfPart, YieldItems, KeyText, WfKey, GrowString;
    var f := z.focus;
    var g;
    StringStates(f.part, c);
    if f.part == [] && c == QUOTE {
      g := AfterKey(f.members, f.ws, f.items, []);
      assert FocusText(g) == KeyText(f.members, f.ws) + (OpenString(f.items, []) + [c]);
    } else {
      GrowStringWf(f.items, f.part, c);
      GrowStringText(f.items, f.part, c);
      var (ys, rest) := GrowString(f.items, f.part, c);
      g := InKey(f.members, f.ws, ys, rest);
      hide OpenString;
      assert FocusText(g) == KeyText(f.members, f.ws) + (OpenString(f.items, f.part) + [c]);
    }
    z' := z.(focus := g);
    Stay(depth, z, c, g);
  }

  // Reading inside a number

  // a number that may stop here has the same successors as the state OK
  predicate CanStop(n: Num) {
    NumState(n) == ZE || NumState(n) == IN || NumState(n) == FR || NumState(n) == E3
  }

  function GrowNumber(n: Num, c: int): Num {
    if n.exp.Some? then
      var e := n.exp.value;
      n.(exp := Some(if IsDigit(c) then e.(digits := e.digits + [c]) else e.(sign := [c])))
    else if c == 0x65 || c == 0x45 then n.(exp := Some(Exponent(c, [], [])))
    else if c == POINT then n.(frac := Some([]))
    else if n.frac.Some? then n.(frac := Some(n.frac.value + [c]))
    else n.(whole := n.whole + [c])
  }

  lemma GrowNumberWf(n: Num, c: int)
    requires WfOpenNumber(n) && ClassOf(c).Some?
    requires var e := Table(NumState(n), ClassOf(c).value); e >= 0 && e != OK
    ensures WfOpenNumber(GrowNumber(n, c))
    ensures NumState(GrowNumber(n, c)) == Table(NumState(n), ClassOf(c).value)
  {
    NumberChars(NumState(n), c);
    hide Table, ClassOf;
    if n.exp.Some? {
      var e := n.exp.value;
      if IsDigit(c) {
        DigitsSnoc(e.digits, c);
      }
    } else if n.frac.Some? {
      if IsDigit(c) {
        DigitsSnoc(n.frac.value, c);
      }
    } else if IsDigit(c) {
      DigitsSnoc(n.whole, c);
    }
  }

  lemma DigitsSnoc(w: Text, c: int)
    requires Digits(w) && IsDigit(c)
    ensures Digits(w + [c])
  {}

  // the characters that carry a number on, and the states they lead to
  lemma NumberChars(s: State, c: int)
    requires s == MI || s == ZE || s == IN || s == FR || s == E1 || s == E2 || s == E3
    requires ClassOf(c).Some?
    requires var e := Table(s, ClassOf(c).value); e >= 0 && e != OK
    ensures var e := Table(s, ClassOf(c).value);
            || (IsDigit(c) && e == (if s == MI then if c == ZERO then ZE else IN
                                    else if s == E1 || s == E2 then E3 else s) && s != ZE)
            || (c == POINT && (s == ZE || s == IN) && e == FR)
            || ((c == 0x65 || c == 0x45) && (s == IN || s == FR) && e == E1)
            || ((c == PLUS || c == MINUS) && s == E1 && e == E2)
  {}

  lemma GrowNumberText(n: Num, c: int)
    requires WfOpenNumber(n) && ClassOf(c).Some?
    requires var e := Table(NumState(n), ClassOf(c).value); e >= 0 && e != OK
    ensures YieldNumber(GrowNumber(n, c)) == YieldNumber(n) + [c]
  {
    NumberChars(NumState(n), c);
    hide Table, ClassOf;
    var m := GrowNumber(n, c);
    if m.exp.Some? {
      assert YieldExponent(m.exp.value) == (if n.exp.Some? then YieldExponent(n.exp.value) else []) + [c];
      hide GrowNumber, WfOpenNumber, NumState, YieldExponent;
      var head := (if n.minus then [MINUS] else []) + n.whole + (if n.frac.Some? then [POINT] + n.frac.value else []);
      assert YieldNumber(m) == head + YieldExponent(m.exp.value);
    } else {
      GrowMantissaText(n, m, c);
    }
  }

  lemma GrowMantissaText(n: Num, m: Num, c: int)
    requires n.exp.None? && m.exp.None? && n.minus == m.minus
    requires m.frac == n.frac ==> n.frac.None? && m.whole == n.whole + [c]
    requires m.frac != n.frac ==> n.whole == m.whole && m.frac.Some?
    requires m.frac != n.frac ==>
      if n.frac.None? then c == POINT && m.frac.value == [] else m.frac.value == n.frac.value + [c]
    ensures YieldNumber(m) == YieldNumber(n) + [c]
  {
    if m.frac.Some? {
      assert [POINT] + m.frac.value == (if n.frac.Some? then [POINT] + n.frac.value else []) + [c];
    }
  }

  lemma NumberStates(n: Num, c: int)
    requires WfOpenNumber(n) && ClassOf(c).Some?
    ensures var e := Table(NumState(n), ClassOf(c).value);
            (e >= 0 && e != OK) || (CanStop(n) && e == Table(OK, ClassOf(c).value)) || e == BAD
    ensures CanStop(n) ==> WfNumber(n)
  {}

  lemma ShiftNumber(depth: int, z: Zipper, c: int) returns (z': Zipper)
    requires Moves(depth, z, c) && z.focus.InNumber?
    ensures Extends(depth, z, c, z')
  {
    hide Table, ClassOf, OuterText, WfOuter, WfOpenNumber, WfNumber, NumState, SlotText, YieldNumber, GrowNumber;
    var f := z.focus;
    var k := ClassOf(c).value;
    NumberStates(f.num, c);
    if Table(NumState(f.num), k) >= 0 && Table(NumState(f.num), k) != OK {
      GrowNumberWf(f.num, c);
      GrowNumberText(f.num, c);
      var g := InNumber(f.slot, GrowNumber(f.num, c));
      z' := z.(focus := g);
      assert FocusText(g) == SlotText(f.slot) + (YieldNumber(f.num) + [c]);
      Stay(depth, z, c, g);
    } else {
      var done := z.(focus := After(f.slot, Number(f.num), []));
      assert FocusText(done.focus) == FocusText(f);
      assert Step(depth, ConfigOf(done), c) == Step(depth, ConfigOf(z), c);
      z' := ShiftAfter(depth, done, c);
    }
  }

  lemma ShiftLiteral(depth: int, z: Zipper, c: int) returns (z': Zipper)
    requires Moves(depth, z, c) && z.focus.InLiteral?
    ensures Extends(depth, z, c, z')
  {
    hide Table, ClassOf, OuterText, WfOuter, SlotText, LitState;
    var f := z.focus;
    LiteralStates(f.lit, f.seen, c);
    var w := Word(f.lit);
    hide Word;
    assert w[..f.seen] + [c] == w[..f.seen + 1];
    var g;
    if f.seen + 1 == |w| {
      g := After(f.slot, Lit(f.lit), []);
      assert w[..f.seen + 1] == w;
    } else {
      g := InLiteral(f.slot, f.lit, f.seen + 1);
    }
    assert FocusText(g) == SlotText(f.slot) + w[..f.seen + 1];
    z' := z.(focus := g);
    Stay(depth, z, c, g);
  }

  lemma LiteralStates(l: Literal, seen: nat, c: int)
    requires 1 <= seen < |Word(l)| && ClassOf(c).Some?
    ensures var e := Table(LitState(l, seen), ClassOf(c).value);
            e == BAD || (c == Word(l)[seen] && e == (if seen + 1 == |Word(l)| then OK else LitState(l, seen + 1))
                && e >= 0)
  {}

  // Before a value

  function Widen(s: Slot, c: int): Slot {
    s.(ws := s.ws + [c])
  }

  lemma BeforeStates(s: Slot, c: int)
    requires ClassOf(c).Some?
    ensures var e := Table(FocusState(Before(s)), ClassOf(c).value);
            || e == BAD
            || (IsWhite(c) && e == FocusState(Before(s)))
            || (c == LCURB && e == OBJECT_BEGIN)
            || (c == LSQRB && e == ARRAY_BEGIN)
            || (c == RSQRB && e == ARRAY_END && s == InArray(NoElems, s.ws))
            || (!s.Top? && c == QUOTE && e == ST)
            || (!s.Top? && c == MINUS && e == MI)
            || (!s.Top? && c == ZERO && e == ZE)
            || (!s.Top? && IsDigit(c) && c != ZERO && e == IN)
            || (!s.Top? && c == 0x66 && e == F1)
            || (!s.Top? && c == 0x6E && e == N1)
            || (!s.Top? && c == 0x74 && e == T1)
  {}

  lemma ShiftBefore(depth: int, z: Zipper, c: int) returns (z': Zipper)
    requires Moves(depth, z, c) && z.focus.Before?
    ensures Extends(depth, z, c, z')
  {
    assert YieldElems(NoElems) == [];
    hide Table, ClassOf, OuterText, WfOuter, YieldElems, YieldMembers, YieldItems, WfElems, WfMembers;
    var s := z.focus.slot;
    BeforeStates(s, c);
    if IsWhite(c) {
      BlankSnoc(s.ws, c);
      z' := z.(focus := Before(Widen(s, c)));
      Stay(depth, z, c, z'.focus);
    } else if c == LCURB || c == LSQRB {
      z' := Open(depth, z, c);
    } else if c == RSQRB {
      z' := Close(depth, z, EmptyArray(s.ws), c);
    } else {
      z' := StartScalar(depth, z, c);
    }
  }

  lemma StartScalar(depth: int, z: Zipper, c: int) returns (z': Zipper)
    requires Moves(depth, z, c) && z.focus.Before?
    requires !IsWhite(c) && c != LCURB && c != LSQRB && c != RSQRB
    ensures Extends(depth, z, c, z')
  {
    hide Table, ClassOf, OuterText, WfOuter, SlotText;
    var s := z.focus.slot;
    BeforeStates(s, c);
    var g;
    if c == QUOTE {
      g := InString(s, [], []);
      assert OpenString([], []) == [c];
    } else if c == MINUS || IsDigit(c) {
      var n := if c == MINUS then Num(true, [], None, None) else Num(false, [c], None, None);
      g := InNumber(s, n);
      assert YieldNumber(n) == [c];
    } else {
      var l := if c == 0x66 then LFalse else if c == 0x6E then LNull else LTrue;
      g := InLiteral(s, l, 1);
      assert Word(l)[..1] == [c];
    }
    assert FocusText(g) == SlotText(s) + [c];
    z' := z.(focus := g);
    Stay(depth, z, c, g);
  }

  lemma Open(depth: int, z: Zipper, c: int) returns (z': Zipper)
    requires Moves(depth, z, c) && z.focus.Before? && (c == LCURB || c == LSQRB)
    ensures Extends(depth, z, c, z')
  {
    var s := z.focus.slot;
    BeforeStates(s, c);
    z' := Zipper(Nested(z.outer, s), if c == LCURB then BeforeKey(NoMembers, []) else Before(InArray(NoElems, [])));
    assert FocusText(z'.focus) == [c];
    assert Modes(z'.outer) == ConfigOf(z).stack;
  }

  /** A closing bracket: the container becomes a value of the slot around it. */
  lemma Close(depth: int, z: Zipper, v: Value, c: int) returns (z': Zipper)
    requires Wf(z, depth) && z.outer.Nested?
    requires Step(depth, ConfigOf(z), c) == Pop(ConfigOf(z).stack, FocusMode(z.focus), OK)
    requires WfValue(v) && IsContainer(v) && Nesting(v) <= depth - |Modes(z.outer)|
    requires Yield(v) == FocusText(z.focus) + [c]
    ensures Extends(depth, z, c, z')
  {
    hide Step, WfValue, Nesting, Yield, SlotText;
    var o := z.outer;
    var g := After(o.slot, v, []);
    z' := Zipper(o.outer, g);
    var stack := ConfigOf(z).stack;
    assert stack[..|stack| - 1] == Modes(o);
    assert ConfigOf(z').stack == Modes(o);
    assert FocusText(g) == SlotText(o.slot) + Yield(v);
    assert ZipText(z') == OuterText(o.outer) + (SlotText(o.slot) + (FocusText(z.focus) + [c]));
    assert ZipText(z) + [c] == OuterText(o.outer) + SlotText(o.slot) + FocusText(z.focus) + [c];
  }

  // After a value

  lemma AfterStates(c: int)
    requires ClassOf(c).Some?
    ensures var e := Table(OK, ClassOf(c).value);
            || e == BAD
            || (IsWhite(c) && e == OK)
            || (c == RCURB && e == OBJECT_END)
            || (c == RSQRB && e == ARRAY_END)
            || (c == COMMA && e == SEPARATOR)
  {}

  lemma ShiftAfter(depth: int, z: Zipper, c: int) returns (z': Zipper)
    requires Moves(depth, z, c) && z.focus.After?
    ensures Extends(depth, z, c, z')
  {
    hide Table, ClassOf, OuterText, WfOuter, SlotText, Yield, WfValue, Nesting;
    var f := z.focus;
    AfterStates(c);
    if IsWhite(c) {
      BlankSnoc(f.ws, c);
      var g := After(f.slot, f.value, f.ws + [c]);
      z' := z.(focus := g);
      assert FocusText(g) == FocusText(f) + [c];
      Stay(depth, z, c, g);
    } else if c == COMMA {
      z' := NextItem(depth, z, c);
    } else {
      z' := LastItem(depth, z, c);
    }
  }

  /** The value is the last of its container, whose bracket now closes. */
  lemma LastItem(depth: int, z: Zipper, c: int) returns (z': Zipper)
    requires Moves(depth, z, c) && z.focus.After? && !IsWhite(c) && c != COMMA
    ensures Extends(depth, z, c, z')
  {
    hide Table, ClassOf, OuterText, WfOuter;
    var f := z.focus;
    var s := f.slot;
    AfterStates(c);
    assert ConfigOf(z).stack[|Modes(z.outer)|] == SlotMode(s);
    var last := Elem(s.ws, f.value, f.ws);
    var v;
    if c == RSQRB {
      v := Array(s.elems, last);
      ArrayText(s, f.value, f.ws);
    } else {
      v := Object(s.members, Member(s.before, s.key, s.mid, last));
      ObjectText(s, f.value, f.ws);
    }
    assert WfElem(last);
    assert Yield(v) == FocusText(f) + [c];
    z' := Close(depth, z, v, c);
  }

  lemma ArrayText(s: Slot, v: Value, ws: Text)
    requires s.InArray?
    ensures SlotText(s) + Yield(v) + ws == [LSQRB] + YieldElems(s.elems) + YieldElem(Elem(s.ws, v, ws))
  {
    var head := [LSQRB] + YieldElems(s.elems);
    assert head + s.ws + Yield(v) + ws == head + (s.ws + Yield(v) + ws);
  }

  lemma ObjectText(s: Slot, v: Value, ws: Text)
    requires s.InObject?
    ensures SlotText(s) + Yield(v) + ws
         == [LCURB] + YieldMembers(s.members) + YieldMember(Member(s.before, s.key, s.mid, Elem(s.ws, v, ws)))
  {
    hide YieldMembers, YieldString;
    var head := [LCURB] + YieldMembers(s.members);
    var tail := s.before + YieldString(s.key) + s.mid + [COLON];
    var e := Elem(s.ws, v, ws);
    assert SlotText(s) == head + tail + s.ws;
    assert YieldMember(Member(s.before, s.key, s.mid, e)) == tail + YieldElem(e);
    hide SlotText, YieldMember, Yield;
    assert head + tail + s.ws + Yield(v) + ws == head + (tail + (s.ws + Yield(v) + ws));
  }

  /** A comma: the value joins its container and the next element or name is awaited. */
  lemma NextItem(depth: int, z: Zipper, c: int) returns (z': Zipper)
    requires Moves(depth, z, c) && z.focus.After? && c == COMMA
    ensures Extends(depth, z, c, z')
  {
    hide Table, ClassOf, OuterText, WfOuter;
    var f := z.focus;
    var stack := ConfigOf(z).stack;
    AfterStates(c);
    assert stack[|stack| - 1] == SlotMode(f.slot);
    assert stack[..|stack| - 1] == Modes(z.outer);
    var last := Elem(f.slot.ws, f.value, f.ws);
    assert WfElem(last);
    assert f.slot.InObject? ==> WfMember(Member(f.slot.before, f.slot.key, f.slot.mid, last));
    var g := if f.slot.InArray? then NextElement(z, c) else NextMember(z, c);
    z' := z.(focus := g);
    Stay(depth, z, c, g);
  }

  // the focus after the comma that follows an element or a member
  function NextElement(z: Zipper, c: int): (g: Focus)
    requires z.focus.After? && z.focus.slot.InArray? && c == COMMA
    ensures FocusText(g) == FocusText(z.focus) + [c]
  {
    var s := z.focus.slot;
    var last := Elem(s.ws, z.focus.value, z.focus.ws);
    ArrayText(s, z.focus.value, z.focus.ws);
    var g := Before(InArray(MoreElems(s.elems, last), []));
    assert FocusText(g) == [LSQRB] + (YieldElems(s.elems) + YieldElem(last) + [c]) + [];
    g
  }

  function NextMember(z: Zipper, c: int): (g: Focus)
    requires z.focus.After? && z.focus.slot.InObject? && c == COMMA
    ensures FocusText(g) == FocusText(z.focus) + [c]
  {
    var s := z.focus.slot;
    var m := Member(s.before, s.key, s.mid, Elem(s.ws, z.focus.value, z.focus.ws));
    ObjectText(s, z.focus.value, z.focus.ws);
    var g := BeforeKey(MoreMembers(s.members, m), []);
    assert FocusText(g) == [LCURB] + (YieldMembers(s.members) + YieldMember(m) + [c]) + [];
    g
  }

  // Around a name

  lemma KeyStates(ms: Members, c: int)
    requires ClassOf(c).Some?
    ensures var s := if ms.NoMembers? then OB else KE; var e := Table(s, ClassOf(c).value);
            || e == BAD
            || (IsWhite(c) && e == s)
            || (c == QUOTE && e == ST)
            || (c == RCURB && e == EMPTY_OBJECT_END && ms.NoMembers?)
    ensures var e := Table(CO, ClassOf(c).value);
            e == BAD || (IsWhite(c) && e == CO) || (c == COLON && e == NAME_END)
  {}

  lemma ShiftBeforeKey(depth: int, z: Zipper, c: int) returns (z': Zipper)
    requires Moves(depth, z, c) && z.focus.BeforeKey?
    ensures Extends(depth, z, c, z')
  {
    hide Table, ClassOf, OuterText, WfOuter, WfMembers, NestingMembers;
    var f := z.focus;
    KeyStates(f.members, c);
    if IsWhite(c) {
      BlankSnoc(f.ws, c);
      z' := z.(focus := BeforeKey(f.members, f.ws + [c]));
      Stay(depth, z, c, z'.focus);
    } else if c == QUOTE {
      z' := z.(focus := InKey(f.members, f.ws, [], []));
      assert FocusText(z'.focus) == FocusText(f) + [c];
      Stay(depth, z, c, z'.focus);
    } else {
      z' := Close(depth, z, EmptyObject(f.ws), c);
    }
  }

  lemma ShiftAfterKey(depth: int, z: Zipper, c: int) returns (z': Zipper)
    requires Moves(depth, z, c) && z.focus.AfterKey?
    ensures Extends(depth, z, c, z')
  {
    hide Table, ClassOf, OuterText, WfOuter, WfMembers, NestingMembers, YieldMembers, YieldString;
    var f := z.focus;
    var stack := ConfigOf(z).stack;
    KeyStates(f.members, c);
    assert stack[..|stack| - 1] == Modes(z.outer);
    if IsWhite(c) {
      BlankSnoc(f.mid, c);
      z' := z.(focus := AfterKey(f.members, f.ws, f.key, f.mid + [c]));
    } else {
      z' := z.(focus := Before(InObject(f.members, f.ws, f.key, f.mid, [])));
    }
    assert FocusText(z'.focus) == FocusText(f) + [c];
    Stay(depth, z, c, z'.focus);
  }

  /** One step of the automaton is one step of the parser. */
  lemma Shift(depth: int, z: Zipper, c: int) returns (z': Zipper)
    requires Moves(depth, z, c)
    ensures Extends(depth, z, c, z')
  {
    hide Step, ZipText, Wf;
    match z.focus
    case Before(_) => z' := ShiftBefore(depth, z, c);
    case InString(_, _, _) => z' := ShiftString(depth, z, c);
    case InNumber(_, _) => z' := ShiftNumber(depth, z, c);
    case InLiteral(_, _, _) => z' := ShiftLiteral(depth, z, c);
    case After(_, _, _) => z' := ShiftAfter(depth, z, c);
    case BeforeKey(_, _) => z' := ShiftBeforeKey(depth, z, c);
    case InKey(_, _, _, _) => z' := ShiftKey(depth, z, c);
    case AfterKey(_, _, _, _) => z' := ShiftAfterKey(depth, z, c);
  }

  /** What has been read without rejection is a derivation tree cut open. */
  lemma {:induction false} Parse(depth: int, s: Text) returns (z: Zipper)
    requires depth >= 1 && Run(depth, START, s).Some?
    ensures Wf(z, depth) && ZipText(z) == s && Run(depth, START, s) == Some(ConfigOf(z))
    decreases |s|
  {
    if s == [] {
      z := Zipper(Outermost, Before(Top([])));
      assert ConfigOf(z) == START;
    } else {
      var n := |s| - 1;
      assert s[..n] + [s[n]] == s;
      RunSnoc(depth, START, s[..n], s[n]);
      var z0 := Parse(depth, s[..n]);
      z := Shift(depth, z0, s[n]);
    }
  }

  /** Whatever is accepted is a text of the grammar that nests at most depth - 1 deep. */
  lemma Sound(depth: int, s: Text)
    requires depth >= 1 && Accepts(depth, s)
    ensures InGrammar(s, depth - 1)
  {
    var z := Parse(depth, s);
    var f := z.focus;
    assert f.After? && f.slot.Top? && z.outer.Outermost? by {
      var stack := ConfigOf(z).stack;
      assert stack[|stack| - 1] == FocusMode(f);
    }
    var t := Elem(f.slot.ws, f.value, f.ws);
    assert YieldElem(t) == s;
  }
}

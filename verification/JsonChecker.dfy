/**
 The table-driven pushdown automaton that checks a request before it is parsed.
 The class below keeps the checker's fields and changes them in place; the
 functions give the automaton on values and are what the proofs speak about.
 */
module JsonChecker {
  import opened Ascii
  import opened JsonGrammar
  import opened Options

  type Class = int
  const C_SPACE := 0
  const C_WHITE := 1
  const C_LCURB := 2
  const C_RCURB := 3
  const C_LSQRB := 4
  const C_RSQRB := 5
  const C_COLON := 6
  const C_COMMA := 7
  const C_QUOTE := 8
  const C_BACKS := 9
  const C_SLASH := 10
  const C_PLUS := 11
  const C_MINUS := 12
  const C_POINT := 13
  const C_ZERO := 14
  const C_DIGIT := 15
  const C_LOW_A := 16
  const C_LOW_B := 17
  const C_LOW_C := 18
  const C_LOW_D := 19
  const C_LOW_E := 20
  const C_LOW_F := 21
  const C_LOW_L := 22
  const C_LOW_N := 23
  const C_LOW_R := 24
  const C_LOW_S := 25
  const C_LOW_T := 26
  const C_LOW_U := 27
  const C_ABCDF := 28
  const C_E := 29
  const C_ETC := 30

  type State = int
  const GO := 0
  const OK := 1
  const OB := 2
  const KE := 3
  const CO := 4
  const VA := 5
  const AR := 6
  const ST := 7
  const ES := 8
  const U1 := 9
  const U2 := 10
  const U3 := 11
  const U4 := 12
  const MI := 13
  const ZE := 14
  const IN := 15
  const FR := 16
  const E1 := 17
  const E2 := 18
  const E3 := 19
  const T1 := 20
  const T2 := 21
  const T3 := 22
  const F1 := 23
  const F2 := 24
  const F3 := 25
  const F4 := 26
  const N1 := 27
  const N2 := 28
  const N3 := 29
  const NR_STATES := 30

  datatype Mode = MODE_ARRAY | MODE_DONE | MODE_KEY | MODE_OBJECT

  // A table entry is a state or one of these negative actions.
  type Entry = int
  const EMPTY_OBJECT_END := -9
  const OBJECT_END := -8
  const ARRAY_END := -7
  const OBJECT_BEGIN := -6
  const ARRAY_BEGIN := -5
  const STRING_END := -4
  const SEPARATOR := -3
  const NAME_END := -2
  const BAD := -1

  /** The class of a character, or None where the checker rejects at once. */
  function ClassOf(c: int): Option<Class> {
    if c < 0 then None
    else if c >= 128 then Some(C_ETC)
    else if c == 0x09 || c == 0x0A || c == 0x0D then Some(C_WHITE)
    else if c < 0x20 then None
    else if c == 0x20 then Some(C_SPACE)
    else if c == 0x22 then Some(C_QUOTE)
    else if c == 0x2B then Some(C_PLUS)
    else if c == 0x2C then Some(C_COMMA)
    else if c == 0x2D then Some(C_MINUS)
    else if c == 0x2E then Some(C_POINT)
    else if c == 0x2F then Some(C_SLASH)
    else if c == 0x30 then Some(C_ZERO)
    else if 0x31 <= c <= 0x39 then Some(C_DIGIT)
    else if c == 0x3A then Some(C_COLON)
    else if c == 0x45 then Some(C_E)
    else if 0x41 <= c <= 0x46 then Some(C_ABCDF)
    else if c == 0x5B then Some(C_LSQRB)
    else if c == 0x5C then Some(C_BACKS)
    else if c == 0x5D then Some(C_RSQRB)
    else if c == 0x61 then Some(C_LOW_A)
    else if c == 0x62 then Some(C_LOW_B)
    else if c == 0x63 then Some(C_LOW_C)
    else if c == 0x64 then Some(C_LOW_D)
    else if c == 0x65 then Some(C_LOW_E)
    else if c == 0x66 then Some(C_LOW_F)
    else if c == 0x6C then Some(C_LOW_L)
    else if c == 0x6E then Some(C_LOW_N)
    else if c == 0x72 then Some(C_LOW_R)
    else if c == 0x73 then Some(C_LOW_S)
    else if c == 0x74 then Some(C_LOW_T)
    else if c == 0x75 then Some(C_LOW_U)
    else if c == 0x7B then Some(C_LCURB)
    else if c == 0x7D then Some(C_RCURB)
    else Some(C_ETC)
  }

  predicate HexClass(k: Class) {
    k == C_ZERO || k == C_DIGIT || C_LOW_A <= k <= C_LOW_F || k == C_ABCDF || k == C_E
  }

  // The rows of the transition table; entries not listed are BAD.

  function RowGO(k: Class): Entry {
    if k == C_SPACE || k == C_WHITE then GO
    else if k == C_LCURB then OBJECT_BEGIN
    else if k == C_LSQRB then ARRAY_BEGIN
    else BAD
  }

  function RowOK(k: Class): Entry {
    if k == C_SPACE || k == C_WHITE then OK
    else if k == C_RCURB then OBJECT_END
    else if k == C_RSQRB then ARRAY_END
    else if k == C_COMMA then SEPARATOR
    else BAD
  }

  function RowOB(k: Class): Entry {
    if k == C_SPACE || k == C_WHITE then OB
    else if k == C_RCURB then EMPTY_OBJECT_END
    else if k == C_QUOTE then ST
    else BAD
  }

  function RowKE(k: Class): Entry {
    if k == C_SPACE || k == C_WHITE then KE
    else if k == C_QUOTE then ST
    else BAD
  }

  function RowCO(k: Class): Entry {
    if k == C_SPACE || k == C_WHITE then CO
    else if k == C_COLON then NAME_END
    else BAD
  }

  function RowVA(k: Class): Entry {
    if k == C_SPACE || k == C_WHITE then VA
    else if k == C_LCURB then OBJECT_BEGIN
    else if k == C_LSQRB then ARRAY_BEGIN
    else if k == C_QUOTE then ST
    else if k == C_MINUS then MI
    else if k == C_ZERO then ZE
    else if k == C_DIGIT then IN
    else if k == C_LOW_F then F1
    else if k == C_LOW_N then N1
    else if k == C_LOW_T then T1
    else BAD
  }

  function RowAR(k: Class): Entry {
    if k == C_SPACE || k == C_WHITE then AR
    else if k == C_LCURB then OBJECT_BEGIN
    else if k == C_LSQRB then ARRAY_BEGIN
    else if k == C_RSQRB then ARRAY_END
    else if k == C_QUOTE then ST
    else if k == C_MINUS then MI
    else if k == C_ZERO then ZE
    else if k == C_DIGIT then IN
    else if k == C_LOW_F then F1
    else if k == C_LOW_N then N1
    else if k == C_LOW_T then T1
    else BAD
  }

  function RowST(k: Class): Entry {
    if k == C_WHITE then BAD
    else if k == C_QUOTE then STRING_END
    else if k == C_BACKS then ES
    else ST
  }

  function RowES(k: Class): Entry {
    if k == C_QUOTE || k == C_BACKS || k == C_SLASH || k == C_LOW_B || k == C_LOW_F
        || k == C_LOW_N || k == C_LOW_R || k == C_LOW_T then ST
    else if k == C_LOW_U then U1
    else BAD
  }

  function RowU1(k: Class): Entry {
    if HexClass(k) then U2 else BAD
  }

  function RowU2(k: Class): Entry {
    if HexClass(k) then U3 else BAD
  }

  function RowU3(k: Class): Entry {
    if HexClass(k) then U4 else BAD
  }

  function RowU4(k: Class): Entry {
    if HexClass(k) then ST else BAD
  }

  function RowMI(k: Class): Entry {
    if k == C_ZERO then ZE
    else if k == C_DIGIT then IN
    else BAD
  }

  function RowZE(k: Class): Entry {
    if k == C_SPACE || k == C_WHITE then OK
    else if k == C_RCURB then OBJECT_END
    else if k == C_RSQRB then ARRAY_END
    else if k == C_COMMA then SEPARATOR
    else if k == C_POINT then FR
    else BAD
  }

  function RowIN(k: Class): Entry {
    if k == C_SPACE || k == C_WHITE then OK
    else if k == C_RCURB then OBJECT_END
    else if k == C_RSQRB then ARRAY_END
    else if k == C_COMMA then SEPARATOR
    else if k == C_POINT then FR
    else if k == C_ZERO || k == C_DIGIT then IN
    else if k == C_LOW_E || k == C_E then E1
    else BAD
  }

  function RowFR(k: Class): Entry {
    if k == C_SPACE || k == C_WHITE then OK
    else if k == C_RCURB then OBJECT_END
    else if k == C_RSQRB then ARRAY_END
    else if k == C_COMMA then SEPARATOR
    else if k == C_ZERO || k == C_DIGIT then FR
    else if k == C_LOW_E || k == C_E then E1
    else BAD
  }

  function RowE1(k: Class): Entry {
    if k == C_PLUS || k == C_MINUS then E2
    else if k == C_ZERO || k == C_DIGIT then E3
    else BAD
  }

  function RowE2(k: Class): Entry {
    if k == C_ZERO || k == C_DIGIT then E3
    else BAD
  }

  function RowE3(k: Class): Entry {
    if k == C_SPACE || k == C_WHITE then OK
    else if k == C_RCURB then OBJECT_END
    else if k == C_RSQRB then ARRAY_END
    else if k == C_COMMA then SEPARATOR
    else if k == C_ZERO || k == C_DIGIT then E3
    else BAD
  }

  function RowT1(k: Class): Entry {
    if k == C_LOW_R then T2 else BAD
  }

  function RowT2(k: Class): Entry {
    if k == C_LOW_U then T3 else BAD
  }

  function RowT3(k: Class): Entry {
    if k == C_LOW_E then OK else BAD
  }

  function RowF1(k: Class): Entry {
    if k == C_LOW_A then F2 else BAD
  }

  function RowF2(k: Class): Entry {
    if k == C_LOW_L then F3 else BAD
  }

  function RowF3(k: Class): Entry {
    if k == C_LOW_S then F4 else BAD
  }

  function RowF4(k: Class): Entry {
    if k == C_LOW_E then OK else BAD
  }

  function RowN1(k: Class): Entry {
    if k == C_LOW_U then N2 else BAD
  }

  function RowN2(k: Class): Entry {
    if k == C_LOW_L then N3 else BAD
  }

  function RowN3(k: Class): Entry {
    if k == C_LOW_L then OK else BAD
  }

  /** The transition table. */
  function Table(s: State, k: Class): Entry {
    if s == GO then RowGO(k) else
    if s == OK then RowOK(k) else
    if s == OB then RowOB(k) else
    if s == KE then RowKE(k) else
    if s == CO then RowCO(k) else
    if s == VA then RowVA(k) else
    if s == AR then RowAR(k) else
    if s == ST then RowST(k) else
    if s == ES then RowES(k) else
    if s == U1 then RowU1(k) else
    if s == U2 then RowU2(k) else
    if s == U3 then RowU3(k) else
    if s == U4 then RowU4(k) else
    if s == MI then RowMI(k) else
    if s == ZE then RowZE(k) else
    if s == IN then RowIN(k) else
    if s == FR then RowFR(k) else
    if s == E1 then RowE1(k) else
    if s == E2 then RowE2(k) else
    if s == E3 then RowE3(k) else
    if s == T1 then RowT1(k) else
    if s == T2 then RowT2(k) else
    if s == T3 then RowT3(k) else
    if s == F1 then RowF1(k) else
    if s == F2 then RowF2(k) else
    if s == F3 then RowF3(k) else
    if s == F4 then RowF4(k) else
    if s == N1 then RowN1(k) else
    if s == N2 then RowN2(k) else
    if s == N3 then RowN3(k) else
    BAD
  }

  /** A configuration; the last mode of the stack is its top. */
  datatype Config = Config(state: State, stack: seq<Mode>)

  function Push(depth: int, stack: seq<Mode>, m: Mode, next: State): Option<Config> {
    if |stack| < depth then Some(Config(next, stack + [m])) else None
  }

  function Pop(stack: seq<Mode>, m: Mode, next: State): Option<Config> {
    if |stack| > 0 && stack[|stack| - 1] == m then Some(Config(next, stack[..|stack| - 1])) else None
  }

  /** Replaces the top mode `was` by `now`. */
  function Swap(stack: seq<Mode>, was: Mode, now: Mode, next: State): Option<Config> {
    if |stack| > 0 && stack[|stack| - 1] == was then Some(Config(next, stack[..|stack| - 1] + [now])) else None
  }

  /** One character; None is a rejection. */
  function Step(depth: int, cfg: Config, c: int): Option<Config> {
    var k := ClassOf(c);
    if k.None? then None else Act(depth, cfg.stack, Table(cfg.state, k.value))
  }

  function Act(depth: int, stack: seq<Mode>, e: Entry): Option<Config> {
    if e >= 0 then Some(Config(e, stack))
    else if e == EMPTY_OBJECT_END then Pop(stack, MODE_KEY, OK)
    else if e == OBJECT_END then Pop(stack, MODE_OBJECT, OK)
    else if e == ARRAY_END then Pop(stack, MODE_ARRAY, OK)
    else if e == OBJECT_BEGIN then Push(depth, stack, MODE_KEY, OB)
    else if e == ARRAY_BEGIN then Push(depth, stack, MODE_ARRAY, AR)
    else if e == STRING_END then
      if stack == [] then None else
      match stack[|stack| - 1] {
        case MODE_KEY => Some(Config(CO, stack))
        case MODE_ARRAY => Some(Config(OK, stack))
        case MODE_OBJECT => Some(Config(OK, stack))
        case MODE_DONE => None
      }
    else if e == SEPARATOR then
      if stack == [] then None else
      match stack[|stack| - 1] {
        case MODE_OBJECT => Swap(stack, MODE_OBJECT, MODE_KEY, KE)
        case MODE_ARRAY => Some(Config(VA, stack))
        case _ => None
      }
    else if e == NAME_END then Swap(stack, MODE_KEY, MODE_OBJECT, VA)
    else None
  }

  /** The automaton on a whole text. */
  function Run(depth: int, cfg: Config, s: Text): Option<Config>
    decreases |s|
  {
    if s == [] then Some(cfg) else
    var next := Step(depth, cfg, s[0]);
    if next.None? then None else Run(depth, next.value, s[1..])
  }

  const START := Config(GO, [MODE_DONE])

  predicate Finished(cfg: Config) {
    cfg.state == OK && |cfg.stack| > 0 && cfg.stack[|cfg.stack| - 1] == MODE_DONE
  }

  /** Every character is taken and the final test succeeds. */
  predicate Accepts(depth: int, s: Text) {
    var r := Run(depth, START, s);
    r.Some? && Finished(r.value)
  }

  lemma {:induction false} RunConcat(depth: int, cfg: Config, s: Text, t: Text)
    ensures Run(depth, cfg, s + t)
         == (var r := Run(depth, cfg, s); if r.None? then None else Run(depth, r.value, t))
    decreases |s|
  {
    if s == [] {
      assert s + t == t;
    } else {
      var next := Step(depth, cfg, s[0]);
      assert (s + t)[1..] == s[1..] + t;
      if next.Some? {
        RunConcat(depth, next.value, s[1..], t);
      }
    }
  }

  /** The automaton read from the right: the last character is the last step. */
  lemma RunSnoc(depth: int, cfg: Config, s: Text, c: int)
    ensures Run(depth, cfg, s + [c])
         == (var r := Run(depth, cfg, s); if r.None? then None else Step(depth, r.value, c))
  {
    RunConcat(depth, cfg, s, [c]);
  }

  /** The checker object.  A rejection frees it: `live` says whether it may still be used. */
  class Checker {
    var state: State
    const depth: int
    var top: int
    const stack: array<Mode>
    ghost var live: bool

    ghost predicate Valid()
      reads this, stack
    {
      && stack.Length == depth
      && 0 <= top < depth
      && 0 <= state < NR_STATES
      && stack[0] == MODE_DONE
      && live
    }

    ghost function View(): Config
      reads this, stack
      requires Valid()
    {
      Config(state, stack[..top + 1])
    }

    /** new_JSON_checker */
    constructor (depth: int)
      requires depth >= 1
      ensures Valid() && View() == START && this.depth == depth && fresh(stack)
    {
      this.state := GO;
      this.depth := depth;
      this.stack := new Mode[depth](_ => MODE_ARRAY);
      this.top := -1;
      this.live := true;
      new;
      var pushed := Push(MODE_DONE);
      assert stack[..top + 1] == [MODE_DONE];
    }

    method Push(mode: Mode) returns (ok: bool)
      requires stack.Length == depth && -1 <= top < depth && live
      modifies this`top, stack
      ensures ok <==> old(top) + 1 < depth
      ensures top == old(top) + 1
      ensures ok ==> stack[..top + 1] == old(stack[..top + 1]) + [mode]
      ensures old(top) >= 0 ==> stack[0] == old(stack[0])
    {
      top := top + 1;
      if top >= depth {
        return false;
      }
      stack[top] := mode;
      return true;
    }

    method Pop(mode: Mode) returns (ok: bool)
      requires stack.Length == depth && -1 <= top < depth && live
      modifies this`top
      ensures ok <==> old(top) >= 0 && stack[old(top)] == mode
      ensures top == if ok then old(top) - 1 else old(top)
    {
      if top < 0 || stack[top] != mode {
        return false;
      }
      top := top - 1;
      return true;
    }

    /** JSON_checker_char: agrees with Step, and frees the checker exactly when it rejects. */
    method Char(nextChar: int) returns (ok: bool)
      requires Valid()
      modifies this`state, this`top, this`live, stack
      ensures ok <==> Step(depth, old(View()), nextChar).Some?
      ensures ok ==> Valid() && View() == Step(depth, old(View()), nextChar).value
      ensures !ok ==> !live
    {
      ghost var before := View().stack;
      var k := ClassOf(nextChar);
      if k.None? {
        live := false;
        return false;
      }
      ok := true;
      var next := Table(state, k.value);
      if next >= 0 {
        state := next;
      } else if next == EMPTY_OBJECT_END || next == OBJECT_END || next == ARRAY_END {
        ok := Pop(if next == EMPTY_OBJECT_END then MODE_KEY
            else if next == OBJECT_END then MODE_OBJECT else MODE_ARRAY);
        assert ok ==> before[..|before| - 1] == stack[..top + 1];
        state := OK;
      } else if next == OBJECT_BEGIN {
        ok := Push(MODE_KEY);
        state := OB;
      } else if next == ARRAY_BEGIN {
        ok := Push(MODE_ARRAY);
        state := AR;
      } else if next == STRING_END {
        match stack[top] {
          case MODE_KEY => state := CO;
          case MODE_ARRAY => state := OK;
          case MODE_OBJECT => state := OK;
          case MODE_DONE => ok := false;
        }
      } else if next == SEPARATOR {
        match stack[top] {
          case MODE_OBJECT =>
            ok := Pop(MODE_OBJECT);
            assert before[..|before| - 1] == stack[..top + 1];
            ok := Push(MODE_KEY);
            state := KE;
          case MODE_ARRAY =>
            state := VA;
          case _ =>
            ok := false;
        }
      } else if next == NAME_END {
        ok := Pop(MODE_KEY);
        if ok {
          assert before[..|before| - 1] == stack[..top + 1];
          ok := Push(MODE_OBJECT);
        }
        state := VA;
      } else {
        ok := false;
      }
      if !ok {
        live := false;
      }
    }

    /** JSON_checker_done: the final test; the checker is freed either way. */
    method Done() returns (ok: bool)
      requires Valid()
      modifies this`top, this`live
      ensures ok <==> Finished(old(View()))
      ensures !live
    {
      ok := state == OK;
      if ok {
        ok := Pop(MODE_DONE);
      }
      live := false;
    }
  }
}

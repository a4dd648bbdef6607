/** Character codes used by the JSON grammar, written as RFC 8259 writes them. */
module Ascii {
  const QUOTE := 0x22
  const PLUS := 0x2B
  const COMMA := 0x2C
  const MINUS := 0x2D
  const POINT := 0x2E
  const SLASH := 0x2F
  const ZERO := 0x30
  const COLON := 0x3A
  const LSQRB := 0x5B
  const BACKS := 0x5C
  const RSQRB := 0x5D
  const LOW_U := 0x75
  const LCURB := 0x7B
  const RCURB := 0x7D

  predicate IsWhite(c: int) {
    c == 0x20 || c == 0x09 || c == 0x0A || c == 0x0D
  }

  predicate IsDigit(c: int) {
    0x30 <= c <= 0x39
  }

  predicate IsHex(c: int) {
    IsDigit(c) || 0x41 <= c <= 0x46 || 0x61 <= c <= 0x66
  }
}

/**
 The recursive JSON grammar, given by its derivation trees: a text belongs to
 the language when some well-formed tree yields it.  Objects, arrays, literals,
 strings and white space follow sections 2, 3, 4, 5 and 7 of RFC 8259; only an object or
 an array may stand at the top, as in section 2 of RFC 4627.  Numbers are those
 of the checker's transition table, which differ from section 6 of RFC 8259
 (see WfNumber and RfcNumber).

 A text is a sequence of character codes.  Codes from 0x80 up stand for the
 bytes of multi-byte characters, which only occur inside strings.
 */
module JsonGrammar {
  import opened Ascii
  import opened Options

  type Text = seq<int>

  predicate Blank(w: Text) {
    forall i :: 0 <= i < |w| ==> IsWhite(w[i])
  }

  predicate Digits(w: Text) {
    forall i :: 0 <= i < |w| ==> IsDigit(w[i])
  }

  // Strings (section 7)

  datatype StrItem = Plain(c: int) | Escape(c: int) | Unicode(h1: int, h2: int, h3: int, h4: int)

  predicate IsPlain(c: int) {
    0x20 <= c && c != QUOTE && c != BACKS
  }

  predicate IsEscape(c: int) {
    c == QUOTE || c == BACKS || c == SLASH || c == 0x62 || c == 0x66 || c == 0x6E || c == 0x72 || c == 0x74
  }

  predicate WfItem(x: StrItem) {
    match x
    case Plain(c) => IsPlain(c)
    case Escape(c) => IsEscape(c)
    case Unicode(a, b, c, d) => IsHex(a) && IsHex(b) && IsHex(c) && IsHex(d)
  }

  predicate WfItems(xs: seq<StrItem>) {
    forall i :: 0 <= i < |xs| ==> WfItem(xs[i])
  }

  function YieldItem(x: StrItem): Text {
    match x
    case Plain(c) => [c]
    case Escape(c) => [BACKS, c]
    case Unicode(a, b, c, d) => [BACKS, LOW_U, a, b, c, d]
  }

  function YieldItems(xs: seq<StrItem>): Text {
    if xs == [] then [] else YieldItems(xs[..|xs| - 1]) + YieldItem(xs[|xs| - 1])
  }

  function YieldString(xs: seq<StrItem>): Text {
    [QUOTE] + YieldItems(xs) + [QUOTE]
  }

  // Numbers (the table's own language)

  datatype Exponent = Exponent(mark: int, sign: Text, digits: Text)
  datatype Num = Num(minus: bool, whole: Text, frac: Option<Text>, exp: Option<Exponent>)

  predicate WfWhole(w: Text) {
    w == [ZERO] || (|w| > 0 && Digits(w) && w[0] != ZERO)
  }

  predicate WfExponent(e: Exponent) {
    && (e.mark == 0x65 || e.mark == 0x45)
    && (e.sign == [] || e.sign == [PLUS] || e.sign == [MINUS])
    && |e.digits| > 0 && Digits(e.digits)
  }

  /** The numbers the table lets through: the digits after the point may be
      missing, and the whole part 0 takes an exponent only after a point. */
  predicate WfNumber(n: Num) {
    && WfWhole(n.whole)
    && (n.frac.Some? ==> Digits(n.frac.value))
    && (n.exp.Some? ==> WfExponent(n.exp.value))
    && (n.exp.Some? && n.whole == [ZERO] ==> n.frac.Some?)
  }

  /** The numbers of section 6 of RFC 8259. */
  predicate RfcNumber(n: Num) {
    && WfWhole(n.whole)
    && (n.frac.Some? ==> Digits(n.frac.value) && |n.frac.value| > 0)
    && (n.exp.Some? ==> WfExponent(n.exp.value))
  }

  function YieldExponent(e: Exponent): Text {
    [e.mark] + e.sign + e.digits
  }

  function YieldNumber(n: Num): Text {
    (if n.minus then [MINUS] else [])
    + n.whole
    + (if n.frac.Some? then [POINT] + n.frac.value else [])
    + (if n.exp.Some? then YieldExponent(n.exp.value) else [])
  }

  // Values (sections 3, 4 and 5)

  datatype Literal = LTrue | LFalse | LNull

  function Word(l: Literal): Text {
    match l
    case LTrue => [0x74, 0x72, 0x75, 0x65]
    case LFalse => [0x66, 0x61, 0x6C, 0x73, 0x65]
    case LNull => [0x6E, 0x75, 0x6C, 0x6C]
  }

  datatype Value =
    | EmptyArray(ws: Text)
    | Array(elems: Elems, lastElem: Elem)
    | EmptyObject(ws: Text)
    | Object(members: Members, lastMember: Member)
    | String(items: seq<StrItem>)
    | Number(num: Num)
    | Lit(lit: Literal)

  // a value with the white space around it
  datatype Elem = Elem(before: Text, value: Value, after: Text)

  // elements that are each followed by a comma
  datatype Elems = NoElems | MoreElems(init: Elems, last: Elem)

  datatype Member = Member(before: Text, key: seq<StrItem>, mid: Text, elem: Elem)

  // members that are each followed by a comma
  datatype Members = NoMembers | MoreMembers(init: Members, last: Member)

  predicate WfValue(v: Value) {
    match v
    case EmptyArray(ws) => Blank(ws)
    case Array(es, e) => WfElems(es) && WfElem(e)
    case EmptyObject(ws) => Blank(ws)
    case Object(ms, m) => WfMembers(ms) && WfMember(m)
    case String(xs) => WfItems(xs)
    case Number(n) => WfNumber(n)
    case Lit(_) => true
  }

  predicate WfElem(e: Elem) {
    Blank(e.before) && WfValue(e.value) && Blank(e.after)
  }

  predicate WfElems(es: Elems) {
    es.MoreElems? ==> WfElems(es.init) && WfElem(es.last)
  }

  predicate WfMember(m: Member) {
    Blank(m.before) && WfItems(m.key) && Blank(m.mid) && WfElem(m.elem)
  }

  predicate WfMembers(ms: Members) {
    ms.MoreMembers? ==> WfMembers(ms.init) && WfMember(ms.last)
  }

  function Yield(v: Value): Text {
    match v
    case EmptyArray(ws) => [LSQRB] + ws + [RSQRB]
    case Array(es, e) => [LSQRB] + YieldElems(es) + YieldElem(e) + [RSQRB]
    case EmptyObject(ws) => [LCURB] + ws + [RCURB]
    case Object(ms, m) => [LCURB] + YieldMembers(ms) + YieldMember(m) + [RCURB]
    case String(xs) => YieldString(xs)
    case Number(n) => YieldNumber(n)
    case Lit(l) => Word(l)
  }

  function YieldElem(e: Elem): Text {
    e.before + Yield(e.value) + e.after
  }

  function YieldElems(es: Elems): Text {
    if es.NoElems? then [] else YieldElems(es.init) + YieldElem(es.last) + [COMMA]
  }

  function YieldMember(m: Member): Text {
    m.before + YieldString(m.key) + m.mid + [COLON] + YieldElem(m.elem)
  }

  function YieldMembers(ms: Members): Text {
    if ms.NoMembers? then [] else YieldMembers(ms.init) + YieldMember(ms.last) + [COMMA]
  }

  /** How deep the brackets of a value nest. */
  function Nesting(v: Value): nat {
    match v
    case EmptyArray(_) => 1
    case Array(es, e) => 1 + Max(NestingElems(es), Nesting(e.value))
    case EmptyObject(_) => 1
    case Object(ms, m) => 1 + Max(NestingMembers(ms), Nesting(m.elem.value))
    case _ => 0
  }

  function NestingElems(es: Elems): nat {
    if es.NoElems? then 0 else Max(NestingElems(es.init), Nesting(es.last.value))
  }

  function NestingMembers(ms: Members): nat {
    if ms.NoMembers? then 0 else Max(NestingMembers(ms.init), Nesting(ms.last.elem.value))
  }

  function Max(a: nat, b: nat): nat {
    if a < b then b else a
  }

  predicate IsContainer(v: Value) {
    v.EmptyArray? || v.Array? || v.EmptyObject? || v.Object?
  }

  /** A JSON text: white space, one object or array, white space. */
  predicate WfText(t: Elem) {
    WfElem(t) && IsContainer(t.value)
  }

  /** The texts of the grammar whose brackets nest at most n deep. */
  ghost predicate InGrammar(s: Text, n: int) {
    exists t: Elem :: WfText(t) && Nesting(t.value) <= n && YieldElem(t) == s
  }
}

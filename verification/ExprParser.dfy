/** The recursive-descent expression parser of the parser example: its value
    function, the concrete syntax it accepts, and evaluation. */
module ExprParser {
  import opened Options

  /** Input is bytes; only the ASCII ones matter to the grammar. */
  type Byte = c: char | c as int < 256 witness '0'
  type Text = seq<Byte>

  const MAX_I64: int := 0x7FFF_FFFF_FFFF_FFFF
  const MIN_I64: int := -0x8000_0000_0000_0000

  datatype Expr = Number(value: int) | Binary(op: char, left: Expr, right: Expr)

  /** A parsed value and the position after it, or a panic. */
  datatype Parse = Ok(expr: Expr, pos: nat) | Panicked

  predicate IsDigit(b: Byte) { '0' <= b <= '9' }
  predicate IsWs(b: Byte) { b == ' ' || b == '\t' || b == '\n' }
  predicate IsAddOp(b: char) { b == '+' || b == '-' }
  predicate IsMulOp(b: char) { b == '*' || b == '/' }

  // ----- the parser as a function of input and position -----

  function SkipWs(s: Text, p: nat): (r: nat)
    requires p <= |s|
    ensures p <= r <= |s|
    decreases |s| - p
  {
    if p < |s| && IsWs(s[p]) then SkipWs(s, p + 1) else p
  }

  function DigitsEnd(s: Text, p: nat): (r: nat)
    requires p <= |s|
    ensures p <= r <= |s|
    decreases |s| - p
  {
    if p < |s| && IsDigit(s[p]) then DigitsEnd(s, p + 1) else p
  }

  /** The value of the decimal digits of `s` from `p` up to `e`. */
  function DigitsValue(s: Text, p: nat, e: nat): int
    requires e <= |s|
  {
    if e <= p then 0 else 10 * DigitsValue(s, p, e - 1) + (s[e - 1] as int - '0' as int)
  }

  /** The longest run of digits, if it is not empty and fits an `i64`. */
  function ParseNumber(s: Text, p: nat): (r: Parse)
    requires p <= |s|
    ensures r.Ok? ==> p < r.pos <= |s|
  {
    var e := DigitsEnd(s, p);
    var v := DigitsValue(s, p, e);
    if e == p || v > MAX_I64 then Panicked else Ok(Number(v), e)
  }

  function ParsePrimary(s: Text, p: nat): (r: Parse)
    requires p <= |s|
    ensures r.Ok? ==> p < r.pos <= |s|
    decreases |s| - p, 0
  {
    var q := SkipWs(s, p);
    if q < |s| && IsDigit(s[q]) then ParseNumber(s, q)
    else if q < |s| && s[q] == '(' then
      var inner := ParseAddSub(s, q + 1);
      if inner.Panicked? then Panicked
      else
        var z := SkipWs(s, inner.pos);
        if z < |s| && s[z] == ')' then Ok(inner.expr, z + 1) else Panicked
    else Panicked
  }

  function ParseMul(s: Text, p: nat): (r: Parse)
    requires p <= |s|
    ensures r.Ok? ==> p < r.pos <= |s|
    decreases |s| - p, 1
  {
    var first := ParsePrimary(s, p);
    if first.Panicked? then Panicked else MulLoop(s, first.expr, first.pos)
  }

  /** The loop of `parse_mul` once `node` has been parsed. */
  function MulLoop(s: Text, node: Expr, p: nat): (r: Parse)
    requires p <= |s|
    ensures r.Ok? ==> p <= r.pos <= |s|
    decreases |s| - p, 0
  {
    var q := SkipWs(s, p);
    if q < |s| && IsMulOp(s[q]) then
      var right := ParsePrimary(s, q + 1);
      if right.Panicked? then Panicked else MulLoop(s, Binary(s[q], node, right.expr), right.pos)
    else Ok(node, q)
  }

  function ParseAddSub(s: Text, p: nat): (r: Parse)
    requires p <= |s|
    ensures r.Ok? ==> p < r.pos <= |s|
    decreases |s| - p, 2
  {
    var first := ParseMul(s, p);
    if first.Panicked? then Panicked else AddLoop(s, first.expr, first.pos)
  }

  /** The loop of `parse_add_sub` once `node` has been parsed. */
  function AddLoop(s: Text, node: Expr, p: nat): (r: Parse)
    requires p <= |s|
    ensures r.Ok? ==> p <= r.pos <= |s|
    decreases |s| - p, 0
  {
    var q := SkipWs(s, p);
    if q < |s| && IsAddOp(s[q]) then
      var right := ParseMul(s, q + 1);
      if right.Panicked? then Panicked else AddLoop(s, Binary(s[q], node, right.expr), right.pos)
    else Ok(node, q)
  }

  // ----- concrete syntax -----

  /** The two-level grammar, with the white space before every token: a sum is
      a product and further products behind `+` or `-`; a product is a primary
      and further primaries behind `*` or `/`.  It names its characters itself
      and shares no test of a byte with the parser. */
  datatype PrimC = NumC(ws: Text, digits: Text) | ParenC(ws: Text, inner: AddC, close: Text)
  datatype MulC = MulC(first: PrimC, rest: MulTail)
  datatype MulTail = EndM | MoreM(ws: Text, op: Byte, operand: PrimC, rest: MulTail)
  datatype AddC = AddC(first: MulC, rest: AddTail)
  datatype AddTail = EndA | MoreA(ws: Text, op: Byte, operand: MulC, rest: AddTail)

  predicate AllWs(t: Text) { forall i :: 0 <= i < |t| ==> t[i] == ' ' || t[i] == '\t' || t[i] == '\n' }

  predicate AllDigits(t: Text) { forall i :: 0 <= i < |t| ==> '0' <= t[i] <= '9' }

  predicate WfP(c: PrimC) {
    match c
    case NumC(ws, digits) =>
      && AllWs(ws)
      && digits != [] && AllDigits(digits)
      && DigitsValue(digits, 0, |digits|) <= MAX_I64
    case ParenC(ws, inner, close) => AllWs(ws) && WfA(inner) && AllWs(close)
  }

  predicate WfM(c: MulC) { WfP(c.first) && WfMT(c.rest) }

  predicate WfMT(t: MulTail) {
    t.MoreM? ==> AllWs(t.ws) && (t.op == '*' || t.op == '/') && WfP(t.operand) && WfMT(t.rest)
  }

  predicate WfA(c: AddC) { WfM(c.first) && WfAT(c.rest) }

  predicate WfAT(t: AddTail) {
    t.MoreA? ==> AllWs(t.ws) && (t.op == '+' || t.op == '-') && WfM(t.operand) && WfAT(t.rest)
  }

  function TextP(c: PrimC): Text {
    match c
    case NumC(ws, digits) => ws + digits
    case ParenC(ws, inner, close) => ws + ['('] + TextA(inner) + close + [')']
  }

  function TextM(c: MulC): Text { TextP(c.first) + TextMT(c.rest) }

  function TextMT(t: MulTail): Text {
    match t
    case EndM => []
    case MoreM(ws, op, operand, rest) => ws + [op] + TextP(operand) + TextMT(rest)
  }

  function TextA(c: AddC): Text { TextM(c.first) + TextAT(c.rest) }

  function TextAT(t: AddTail): Text {
    match t
    case EndA => []
    case MoreA(ws, op, operand, rest) => ws + [op] + TextM(operand) + TextAT(rest)
  }

  /** The tree of a text: operators of one level associate to the left. */
  function TreeP(c: PrimC): Expr {
    match c
    case NumC(_, digits) => Number(DigitsValue(digits, 0, |digits|))
    case ParenC(_, inner, _) => TreeA(inner)
  }

  function TreeM(c: MulC): Expr { FoldM(TreeP(c.first), c.rest) }

  function FoldM(node: Expr, t: MulTail): Expr
    decreases t
  {
    match t
    case EndM => node
    case MoreM(_, op, operand, rest) => FoldM(Binary(op, node, TreeP(operand)), rest)
  }

  function TreeA(c: AddC): Expr { FoldA(TreeM(c.first), c.rest) }

  function FoldA(node: Expr, t: AddTail): Expr
    decreases t
  {
    match t
    case EndA => node
    case MoreA(_, op, operand, rest) => FoldA(Binary(op, node, TreeM(operand)), rest)
  }

  /** Text `t` stands in `s` at `p`. */
  predicate At(s: Text, p: nat, t: Text) {
    p + |t| <= |s| && forall i :: 0 <= i < |t| ==> s[p + i] == t[i]
  }

  /** The boundary `m` falls inside a number. */
  predicate SplitsNumber(s: Text, m: nat) {
    0 < m < |s| && IsDigit(s[m - 1]) && IsDigit(s[m])
  }

  /** After text ending at `m`, parsing an operand list stops at `n`. */
  predicate StopsMul(s: Text, m: nat, n: nat) {
    m <= |s| && n == SkipWs(s, m) && (n < |s| ==> !IsMulOp(s[n]))
  }

  predicate Stops(s: Text, m: nat, n: nat) {
    StopsMul(s, m, n) && (n < |s| ==> !IsAddOp(s[n]))
  }

  // ----- evaluation -----

  function Checked(v: int): Option<int> {
    if MIN_I64 <= v <= MAX_I64 then Some(v) else None
  }

  /** `i64` division truncates toward zero; the remainder has the sign of `l`. */
  function TruncDiv(l: int, r: int): int
    requires r != 0
  {
    var q := (if l < 0 then -l else l) / (if r < 0 then -r else r);
    if (l < 0) == (r < 0) then q else -q
  }

  /** `eval` with overflow checks: `None` is a panic. */
  function Eval(e: Expr): Option<int> {
    match e
    case Number(n) => Some(n)
    case Binary(op, left, right) =>
      var l := Eval(left);
      var r := Eval(right);
      if l.None? || r.None? then None
      else if op == '+' then Checked(l.value + r.value)
      else if op == '-' then Checked(l.value - r.value)
      else if op == '*' then Checked(l.value * r.value)
      else if op == '/' then (if r.value == 0 then None else Checked(TruncDiv(l.value, r.value)))
      else None
  }
}

/** Printing with the fewest parentheses, and its round trip through the parser. */
module ExprPrinter {
  import opened ExprParser
  import opened ExprParserProofs
  import opened ExprParserSoundness

  /** The trees the parser can produce: `i64` literals without sign, four operators. */
  predicate Valid(e: Expr) {
    match e
    case Number(n) => 0 <= n <= MAX_I64
    case Binary(op, l, r) => (op == '+' || op == '-' || op == '*' || op == '/') && Valid(l) && Valid(r)
  }

  predicate IsSum(e: Expr) { e.Binary? && (e.op == '+' || e.op == '-') }
  predicate IsProduct(e: Expr) { e.Binary? && (e.op == '*' || e.op == '/') }

  // ----- numbers -----

  function Digit(d: nat): Byte
    requires d < 10
  {
    (d + '0' as int) as char
  }

  function Digits(n: nat): Text {
    if n < 10 then [Digit(n)] else Digits(n / 10) + [Digit(n % 10)]
  }

  lemma {:induction false} DigitsRoundTrip(n: nat)
    ensures Digits(n) != [] && AllDigits(Digits(n))
    ensures DigitsValue(Digits(n), 0, |Digits(n)|) == n
  {
    if n >= 10 {
      var ds := Digits(n / 10);
      DigitsRoundTrip(n / 10);
      DigitsValueMoves(Digits(n), 0, ds, |ds|);
    } else {
      assert DigitsValue([Digit(n)], 0, 0) == 0;
    }
  }

  // ----- printing -----

  function SnocM(t: MulTail, op: Byte, operand: PrimC): MulTail {
    match t
    case EndM => MoreM([], op, operand, EndM)
    case MoreM(ws, o, p, rest) => MoreM(ws, o, p, SnocM(rest, op, operand))
  }

  function SnocA(t: AddTail, op: Byte, operand: MulC): AddTail {
    match t
    case EndA => MoreA([], op, operand, EndA)
    case MoreA(ws, o, m, rest) => MoreA(ws, o, m, SnocA(rest, op, operand))
  }

  /** Parentheses only around an operator where a tighter one is expected. */
  function PrintP(e: Expr): PrimC
    requires Valid(e)
    decreases e, if e.Number? then 0 else if IsSum(e) then 1 else 2
  {
    if e.Number? then NumC([], Digits(e.value)) else ParenC([], PrintA(e), [])
  }

  function PrintM(e: Expr): MulC
    requires Valid(e)
    decreases e, if IsProduct(e) then 0 else if e.Number? then 1 else 2
  {
    if IsProduct(e) then
      var l := PrintM(e.left);
      MulC(l.first, SnocM(l.rest, e.op, PrintP(e.right)))
    else MulC(PrintP(e), EndM)
  }

  function PrintA(e: Expr): AddC
    requires Valid(e)
    decreases e, if IsSum(e) then 0 else if IsProduct(e) then 1 else 2
  {
    if IsSum(e) then
      var l := PrintA(e.left);
      AddC(l.first, SnocA(l.rest, e.op, PrintM(e.right)))
    else AddC(PrintM(e), EndA)
  }

  lemma {:induction false} SnocTreeM(node: Expr, t: MulTail, op: Byte, operand: PrimC)
    ensures FoldM(node, SnocM(t, op, operand)) == Binary(op, FoldM(node, t), TreeP(operand))
    ensures WfMT(t) && (op == '*' || op == '/') && WfP(operand) ==> WfMT(SnocM(t, op, operand))
    decreases t
  {
    if t.MoreM? {
      SnocTreeM(Binary(t.op, node, TreeP(t.operand)), t.rest, op, operand);
    }
  }

  lemma {:induction false} SnocTreeA(node: Expr, t: AddTail, op: Byte, operand: MulC)
    ensures FoldA(node, SnocA(t, op, operand)) == Binary(op, FoldA(node, t), TreeM(operand))
    ensures WfAT(t) && (op == '+' || op == '-') && WfM(operand) ==> WfAT(SnocA(t, op, operand))
    decreases t
  {
    if t.MoreA? {
      SnocTreeA(Binary(t.op, node, TreeM(t.operand)), t.rest, op, operand);
    }
  }

  lemma {:induction false} PrintedP(e: Expr)
    requires Valid(e)
    ensures WfP(PrintP(e)) && TreeP(PrintP(e)) == e
    decreases e, if e.Number? then 0 else if IsSum(e) then 1 else 2
  {
    if e.Number? {
      DigitsRoundTrip(e.value);
    } else {
      PrintedA(e);
    }
  }

  lemma {:induction false} PrintedM(e: Expr)
    requires Valid(e)
    ensures WfM(PrintM(e)) && TreeM(PrintM(e)) == e
    decreases e, if IsProduct(e) then 0 else if e.Number? then 1 else 2
  {
    if IsProduct(e) {
      PrintedM(e.left);
      PrintedP(e.right);
      var l := PrintM(e.left);
      SnocTreeM(TreeP(l.first), l.rest, e.op, PrintP(e.right));
    } else {
      PrintedP(e);
    }
  }

  /** The printed text is text of the grammar and has the printed tree. */
  lemma {:induction false} PrintedA(e: Expr)
    requires Valid(e)
    ensures WfA(PrintA(e)) && TreeA(PrintA(e)) == e
    decreases e, if IsSum(e) then 0 else if IsProduct(e) then 1 else 2
  {
    if IsSum(e) {
      PrintedA(e.left);
      PrintedM(e.right);
      var l := PrintA(e.left);
      SnocTreeA(TreeM(l.first), l.rest, e.op, PrintM(e.right));
    } else {
      PrintedM(e);
    }
  }

  // ----- arbitrary white space between tokens -----

  function StripP(c: PrimC): PrimC {
    match c
    case NumC(_, digits) => NumC([], digits)
    case ParenC(_, inner, _) => ParenC([], StripA(inner), [])
  }

  function StripM(c: MulC): MulC { MulC(StripP(c.first), StripMT(c.rest)) }

  function StripMT(t: MulTail): MulTail {
    if t.EndM? then EndM else MoreM([], t.op, StripP(t.operand), StripMT(t.rest))
  }

  function StripA(c: AddC): AddC { AddC(StripM(c.first), StripAT(c.rest)) }

  function StripAT(t: AddTail): AddTail {
    if t.EndA? then EndA else MoreA([], t.op, StripM(t.operand), StripAT(t.rest))
  }

  lemma {:induction false} StripKeepsTreeP(c: PrimC)
    ensures TreeP(StripP(c)) == TreeP(c)
  {
    if c.ParenC? {
      StripKeepsTreeA(c.inner);
    }
  }

  lemma {:induction false} StripKeepsTreeM(c: MulC)
    ensures TreeM(StripM(c)) == TreeM(c)
  {
    StripKeepsTreeP(c.first);
    StripKeepsFoldM(TreeP(c.first), c.rest);
  }

  lemma {:induction false} StripKeepsFoldM(node: Expr, t: MulTail)
    ensures FoldM(node, StripMT(t)) == FoldM(node, t)
    decreases t
  {
    if t.MoreM? {
      StripKeepsTreeP(t.operand);
      StripKeepsFoldM(Binary(t.op, node, TreeP(t.operand)), t.rest);
    }
  }

  lemma {:induction false} StripKeepsTreeA(c: AddC)
    ensures TreeA(StripA(c)) == TreeA(c)
  {
    StripKeepsTreeM(c.first);
    StripKeepsFoldA(TreeM(c.first), c.rest);
  }

  lemma {:induction false} StripKeepsFoldA(node: Expr, t: AddTail)
    ensures FoldA(node, StripAT(t)) == FoldA(node, t)
    decreases t
  {
    if t.MoreA? {
      StripKeepsTreeM(t.operand);
      StripKeepsFoldA(Binary(t.op, node, TreeM(t.operand)), t.rest);
    }
  }

  /** Round trip: print any tree with the fewest parentheses, put any white
      space before any token and at the end, and parsing returns exactly that
      tree and consumes all the text. */
  lemma RoundTrip(e: Expr, c: AddC, trailing: Text)
    requires Valid(e) && WfA(c) && StripA(c) == PrintA(e) && AllWs(trailing)
    ensures ParseAddSub(TextA(c) + trailing, 0) == Ok(e, |TextA(c) + trailing|)
  {
    PrintedA(e);
    StripKeepsTreeA(c);
    TextParses(c, trailing);
  }

  /** Evaluating what was parsed is evaluating what was printed. */
  lemma EvalRoundTrip(e: Expr, c: AddC)
    requires Valid(e) && WfA(c) && StripA(c) == PrintA(e)
    ensures ParseAddSub(TextA(c), 0).Ok? && Eval(ParseAddSub(TextA(c), 0).expr) == Eval(e)
  {
    RoundTrip(e, c, []);
    assert TextA(c) + [] == TextA(c);
  }

  // ----- the fewest parentheses -----

  function ParensP(c: PrimC): nat { if c.NumC? then 0 else 1 + ParensA(c.inner) }
  function ParensM(c: MulC): nat { ParensP(c.first) + ParensMT(c.rest) }
  function ParensMT(t: MulTail): nat { if t.EndM? then 0 else ParensP(t.operand) + ParensMT(t.rest) }
  function ParensA(c: AddC): nat { ParensM(c.first) + ParensAT(c.rest) }
  function ParensAT(t: AddTail): nat { if t.EndA? then 0 else ParensM(t.operand) + ParensAT(t.rest) }

  lemma {:induction false} SnocParensM(t: MulTail, op: Byte, operand: PrimC)
    ensures ParensMT(SnocM(t, op, operand)) == ParensMT(t) + ParensP(operand)
  {
    if t.MoreM? {
      SnocParensM(t.rest, op, operand);
    }
  }

  lemma {:induction false} SnocParensA(t: AddTail, op: Byte, operand: MulC)
    ensures ParensAT(SnocA(t, op, operand)) == ParensAT(t) + ParensM(operand)
  {
    if t.MoreA? {
      SnocParensA(t.rest, op, operand);
    }
  }

  lemma {:induction false} DigitsValueNonNegative(s: Text, p: nat, e: nat)
    requires e <= |s| && forall i :: p <= i < e ==> '0' <= s[i] <= '9'
    ensures DigitsValue(s, p, e) >= 0
  {
    if e > p {
      DigitsValueNonNegative(s, p, e - 1);
    }
  }

  /** Fewest parentheses for a primary: those of any text of the same tree. */
  lemma {:induction false} FewestP(c: PrimC)
    requires WfP(c)
    ensures Valid(TreeP(c)) && ParensP(PrintP(TreeP(c))) <= ParensP(c) && ParensM(PrintM(TreeP(c))) <= ParensP(c)
    decreases c
  {
    match c
    case NumC(_, digits) => DigitsValueNonNegative(digits, 0, |digits|);
    case ParenC(_, inner, _) => FewestA(inner);
  }

  lemma {:induction false} FewestMT(node: Expr, t: MulTail, k: nat)
    requires Valid(node) && WfMT(t) && ParensM(PrintM(node)) <= k
    ensures Valid(FoldM(node, t)) && ParensM(PrintM(FoldM(node, t))) <= k + ParensMT(t)
    decreases t
  {
    if t.MoreM? {
      FewestP(t.operand);
      var l := PrintM(node);
      var right := TreeP(t.operand);
      SnocParensM(l.rest, t.op, PrintP(right));
      FewestMT(Binary(t.op, node, right), t.rest, k + ParensP(t.operand));
    }
  }

  lemma {:induction false} FewestM(c: MulC)
    requires WfM(c)
    ensures Valid(TreeM(c)) && ParensM(PrintM(TreeM(c))) <= ParensM(c)
    decreases c
  {
    FewestP(c.first);
    FewestMT(TreeP(c.first), c.rest, ParensP(c.first));
  }

  lemma PrintAOfPrinted(e: Expr)
    requires Valid(e)
    ensures ParensA(PrintA(e)) <= ParensM(PrintM(e))
  {
  }

  lemma {:induction false} FewestAT(node: Expr, t: AddTail, k: nat)
    requires Valid(node) && WfAT(t) && ParensA(PrintA(node)) <= k
    ensures Valid(FoldA(node, t)) && ParensA(PrintA(FoldA(node, t))) <= k + ParensAT(t)
    decreases t
  {
    if t.MoreA? {
      FewestM(t.operand);
      var l := PrintA(node);
      var right := TreeM(t.operand);
      SnocParensA(l.rest, t.op, PrintM(right));
      FewestAT(Binary(t.op, node, right), t.rest, k + ParensM(t.operand));
    }
  }

  /** No text of the grammar with the same tree has fewer parentheses than the
      printed one; and every accepted text has a printable tree. */
  lemma {:induction false} FewestA(c: AddC)
    requires WfA(c)
    ensures Valid(TreeA(c)) && ParensA(PrintA(TreeA(c))) <= ParensA(c)
    decreases c
  {
    FewestM(c.first);
    PrintAOfPrinted(TreeM(c.first));
    FewestAT(TreeM(c.first), c.rest, ParensM(c.first));
  }
}

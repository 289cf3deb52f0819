/** What expressions mean, character by character: which operator binds tighter,
    and what each operator computes. */
module ExprMeaning {
  import opened Alignment
  import opened ExprParser
  import opened ExprParserSoundness
  import opened Options

  // ----- precedence -----

  /** A literal with the white space before it. */
  datatype Literal = Literal(ws: Text, digits: Text)

  predicate LiteralOk(a: Literal) { WfP(NumC(a.ws, a.digits)) }

  function LiteralText(a: Literal): Text { a.ws + a.digits }

  function LiteralTree(a: Literal): Expr {
    Number(DigitsValue(a.digits, 0, |a.digits|))
  }

  /** An operator with the white space before it. */
  function OpText(ws: Text, op: Byte): Text { ws + [op] }

  predicate IsOperator(op: char) { op == '+' || op == '-' || op == '*' || op == '/' }

  function Factor(a: Literal): PrimC { NumC(a.ws, a.digits) }
  function Term(a: Literal): MulC { MulC(Factor(a), EndM) }

  /** The syntax of `a op1 b op2 c`. */
  function ThreeTerms(a: Literal, v: Text, op1: Byte, b: Literal, w: Text, op2: Byte, c: Literal): AddC {
    var tight1, tight2 := op1 == '*' || op1 == '/', op2 == '*' || op2 == '/';
    if tight1 && tight2 then
      AddC(MulC(Factor(a), MoreM(v, op1, Factor(b), MoreM(w, op2, Factor(c), EndM))), EndA)
    else if tight1 then
      AddC(MulC(Factor(a), MoreM(v, op1, Factor(b), EndM)), MoreA(w, op2, Term(c), EndA))
    else if tight2 then
      AddC(Term(a), MoreA(v, op1, MulC(Factor(b), MoreM(w, op2, Factor(c), EndM)), EndA))
    else
      AddC(Term(a), MoreA(v, op1, Term(b), MoreA(w, op2, Term(c), EndA)))
  }

  lemma LastFactor(w: Text, op: Byte, c: Literal)
    ensures var t := MoreM(w, op, Factor(c), EndM);
            && TextMT(t) == OpText(w, op) + LiteralText(c)
            && (AllWs(w) && (op == '*' || op == '/') && LiteralOk(c) ==> WfMT(t))
            && forall node {:trigger FoldM(node, t)} :: FoldM(node, t) == Binary(op, node, LiteralTree(c))
  {
    assert TextMT(EndM) == [] && WfMT(EndM);
    assert forall node {:trigger FoldM(node, EndM)} :: FoldM(node, EndM) == node;
  }

  lemma LastTerm(w: Text, op: Byte, m: MulC)
    ensures var t := MoreA(w, op, m, EndA);
            && TextAT(t) == OpText(w, op) + TextM(m)
            && (AllWs(w) && (op == '+' || op == '-') && WfM(m) ==> WfAT(t))
            && forall node {:trigger FoldA(node, t)} :: FoldA(node, t) == Binary(op, node, TreeM(m))
  {
    assert TextAT(EndA) == [] && WfAT(EndA);
    assert forall node {:trigger FoldA(node, EndA)} :: FoldA(node, EndA) == node;
  }

  lemma TermOk(a: Literal)
    ensures TextM(Term(a)) == LiteralText(a) && TreeM(Term(a)) == LiteralTree(a) && (LiteralOk(a) ==> WfM(Term(a)))
  {
    assert TextMT(EndM) == [] && WfMT(EndM) && FoldM(LiteralTree(a), EndM) == LiteralTree(a);
  }

  /** `m` reads `text` as `e`. */
  ghost predicate Reads(m: AddC, text: Text, e: Expr) {
    WfA(m) && TextA(m) == text && TreeA(m) == e
  }

  lemma TightTight(a: Literal, v: Text, op1: Byte, b: Literal, w: Text, op2: Byte, c: Literal)
    requires LiteralOk(a) && LiteralOk(b) && LiteralOk(c) && AllWs(v) && AllWs(w)
    requires (op1 == '*' || op1 == '/') && (op2 == '*' || op2 == '/')
    ensures Reads(ThreeTerms(a, v, op1, b, w, op2, c),
                  LiteralText(a) + OpText(v, op1) + LiteralText(b) + OpText(w, op2) + LiteralText(c),
                  Binary(op2, Binary(op1, LiteralTree(a), LiteralTree(b)), LiteralTree(c)))
  {
    LastFactor(w, op2, c);
    var rest := MoreM(w, op2, Factor(c), EndM);
    var t := MoreM(v, op1, Factor(b), rest);
    assert TextMT(t) == OpText(v, op1) + LiteralText(b) + TextMT(rest);
    assert WfMT(t) && FoldM(LiteralTree(a), t) == FoldM(Binary(op1, LiteralTree(a), LiteralTree(b)), rest);
    var m := MulC(Factor(a), t);
    assert TextAT(EndA) == [] && WfAT(EndA) && FoldA(TreeM(m), EndA) == TreeM(m);
    assert TextM(m) == LiteralText(a) + TextMT(t);
    assert TreeM(m) == Binary(op2, Binary(op1, LiteralTree(a), LiteralTree(b)), LiteralTree(c));
    assert WfM(m) && TextA(AddC(m, EndA)) == TextM(m) && TreeA(AddC(m, EndA)) == TreeM(m);
    assert LiteralText(a) + TextMT(t) ==
             LiteralText(a) + OpText(v, op1) + LiteralText(b) + OpText(w, op2) + LiteralText(c);
  }

  lemma TightLoose(a: Literal, v: Text, op1: Byte, b: Literal, w: Text, op2: Byte, c: Literal)
    requires LiteralOk(a) && LiteralOk(b) && LiteralOk(c) && AllWs(v) && AllWs(w)
    requires (op1 == '*' || op1 == '/') && (op2 == '+' || op2 == '-')
    ensures Reads(ThreeTerms(a, v, op1, b, w, op2, c),
                  LiteralText(a) + OpText(v, op1) + LiteralText(b) + OpText(w, op2) + LiteralText(c),
                  Binary(op2, Binary(op1, LiteralTree(a), LiteralTree(b)), LiteralTree(c)))
  {
    LastFactor(v, op1, b);
    TermOk(c);
    LastTerm(w, op2, Term(c));
    var m := MulC(Factor(a), MoreM(v, op1, Factor(b), EndM));
    assert WfM(m) && TreeM(m) == Binary(op1, LiteralTree(a), LiteralTree(b));
    assert TextM(m) == LiteralText(a) + OpText(v, op1) + LiteralText(b);
  }

  lemma LooseTight(a: Literal, v: Text, op1: Byte, b: Literal, w: Text, op2: Byte, c: Literal)
    requires LiteralOk(a) && LiteralOk(b) && LiteralOk(c) && AllWs(v) && AllWs(w)
    requires (op1 == '+' || op1 == '-') && (op2 == '*' || op2 == '/')
    ensures Reads(ThreeTerms(a, v, op1, b, w, op2, c),
                  LiteralText(a) + OpText(v, op1) + LiteralText(b) + OpText(w, op2) + LiteralText(c),
                  Binary(op1, LiteralTree(a), Binary(op2, LiteralTree(b), LiteralTree(c))))
  {
    LastFactor(w, op2, c);
    TermOk(a);
    var m := MulC(Factor(b), MoreM(w, op2, Factor(c), EndM));
    assert WfM(m) && TreeM(m) == Binary(op2, LiteralTree(b), LiteralTree(c));
    assert TextM(m) == LiteralText(b) + OpText(w, op2) + LiteralText(c);
    LastTerm(v, op1, m);
  }

  lemma LooseLoose(a: Literal, v: Text, op1: Byte, b: Literal, w: Text, op2: Byte, c: Literal)
    requires LiteralOk(a) && LiteralOk(b) && LiteralOk(c) && AllWs(v) && AllWs(w)
    requires (op1 == '+' || op1 == '-') && (op2 == '+' || op2 == '-')
    ensures Reads(ThreeTerms(a, v, op1, b, w, op2, c),
                  LiteralText(a) + OpText(v, op1) + LiteralText(b) + OpText(w, op2) + LiteralText(c),
                  Binary(op2, Binary(op1, LiteralTree(a), LiteralTree(b)), LiteralTree(c)))
  {
    TermOk(a);
    TermOk(b);
    TermOk(c);
    LastTerm(w, op2, Term(c));
    var rest := MoreA(w, op2, Term(c), EndA);
    var t := MoreA(v, op1, Term(b), rest);
    assert TextAT(t) == OpText(v, op1) + LiteralText(b) + TextAT(rest);
    assert WfAT(t) && FoldA(LiteralTree(a), t) == FoldA(Binary(op1, LiteralTree(a), LiteralTree(b)), rest);
  }

  /** `*` and `/` bind tighter than `+` and `-`; otherwise operators associate to
      the left.  For all literals and all blanks, tabs and line feeds between them. */
  lemma Precedence(a: Literal, v: Text, op1: Byte, b: Literal, w: Text, op2: Byte, c: Literal, trailing: Text)
    requires LiteralOk(a) && LiteralOk(b) && LiteralOk(c) && AllWs(v) && AllWs(w) && AllWs(trailing)
    requires IsOperator(op1) && IsOperator(op2)
    ensures var text := LiteralText(a) + OpText(v, op1) + LiteralText(b) + OpText(w, op2) + LiteralText(c) + trailing;
            var x, y, z := LiteralTree(a), LiteralTree(b), LiteralTree(c);
            ParseAddSub(text, 0) ==
              Ok(if (op1 == '+' || op1 == '-') && (op2 == '*' || op2 == '/')
                 then Binary(op1, x, Binary(op2, y, z))
                 else Binary(op2, Binary(op1, x, y), z), |text|)
  {
    if op1 == '*' || op1 == '/' {
      if op2 == '*' || op2 == '/' {
        TightTight(a, v, op1, b, w, op2, c);
      } else {
        TightLoose(a, v, op1, b, w, op2, c);
      }
    } else if op2 == '*' || op2 == '/' {
      LooseTight(a, v, op1, b, w, op2, c);
    } else {
      LooseLoose(a, v, op1, b, w, op2, c);
    }
    TextParses(ThreeTerms(a, v, op1, b, w, op2, c), trailing);
  }

  // ----- evaluation -----

  /** The range is that of a signed 64-bit word. */
  lemma RangeIsI64()
    ensures MAX_I64 + 1 == Pow2(63) && MIN_I64 + Pow2(63) == 0
  {
    WordValue();
  }

  predicate InRange(v: int) { MIN_I64 <= v <= MAX_I64 }

  /** `x` added to itself `n` times. */
  function Times(x: int, n: nat): int {
    if n == 0 then 0 else Times(x, n - 1) + x
  }

  function Abs(v: int): nat { if v < 0 then -v else v }

  /** What the operators mean, over the integers: subtraction undoes addition,
      multiplication is repeated addition or subtraction, and division leaves a
      remainder smaller than the divisor with the sign of the dividend. */
  ghost predicate Means(op: char, x: int, y: int, v: int) {
    match op
    case '+' => v == x + y
    case '-' => v + y == x
    case '*' => if y < 0 then v + Times(x, -y) == 0 else v == Times(x, y)
    case '/' => y != 0 && exists m :: Remainder(x, y, v, m)
    case _ => false
  }

  ghost predicate Remainder(x: int, y: int, q: int, m: int) {
    x == q * y + m && Abs(m) < Abs(y) && (m == 0 || (m < 0) == (x < 0))
  }

  lemma {:induction false} TimesIsProduct(x: int, n: nat)
    ensures Times(x, n) == x * n
  {
    if n > 0 {
      TimesIsProduct(x, n - 1);
    }
  }

  lemma TruncDivRemains(x: int, y: int)
    requires y != 0
    ensures Remainder(x, y, TruncDiv(x, y), x - TruncDiv(x, y) * y)
  {
    var a: int, b: int := Abs(x), Abs(y);
    var q: int, m: int := a / b, a % b;
    assert a == q * b + m;
    var p: int := if x < 0 then -(q * b) else q * b;
    assert TruncDiv(x, y) * y == p;
  }

  /** Multiples of different numbers are at least one multiple apart. */
  lemma {:induction false} ProductGap(q: int, k: nat, d: int)
    requires d > 0
    ensures q * d + d <= (q + 1 + k) * d
    decreases k
  {
    if k == 0 {
      assert (q + 1) * d == q * d + d;
    } else {
      ProductGap(q, k - 1, d);
      assert (q + 1 + k) * d == (q + 1 + (k - 1)) * d + d;
    }
  }

  lemma NegatedFactor(q: int, y: int)
    ensures q * -y == -(q * y)
  {
  }

  /** Different quotients leave remainders that differ by a divisor or more. */
  lemma QuotientsApart(x: int, y: int, q: int, m: int, q': int, m': int)
    requires y != 0 && x == q * y + m && x == q' * y + m' && q < q'
    ensures Abs(m - m') >= Abs(y)
  {
    ProductGap(q, q' - q - 1, Abs(y));
    assert q + 1 + (q' - q - 1) == q';
    if y < 0 {
      NegatedFactor(q, y);
      NegatedFactor(q', y);
    }
  }

  /** One quotient has such a remainder. */
  lemma QuotientIsUnique(x: int, y: int, q: int, m: int, q': int, m': int)
    requires y != 0 && Remainder(x, y, q, m) && Remainder(x, y, q', m')
    ensures q == q'
  {
    assert Abs(m - m') < Abs(y);
    if q < q' {
      QuotientsApart(x, y, q, m, q', m');
    } else if q' < q {
      QuotientsApart(x, y, q', m', q, m);
    }
  }

  lemma TruncDivMeans(x: int, y: int, v: int)
    requires y != 0
    ensures Means('/', x, y, v) <==> v == TruncDiv(x, y)
  {
    var q := TruncDiv(x, y);
    TruncDivRemains(x, y);
    assert Means('/', x, y, q);
    if Means('/', x, y, v) {
      var m :| Remainder(x, y, v, m);
      QuotientIsUnique(x, y, v, m, q, x - q * y);
    }
  }

  lemma ProductMeans(x: int, y: int, v: int)
    ensures Means('*', x, y, v) <==> v == x * y
  {
    TimesIsProduct(x, Abs(y));
    assert y < 0 ==> x * -y == -(x * y);
  }

  /** The value that is meant, where there is one. */
  function Exact(op: char, x: int, y: int): int {
    if op == '+' then x + y
    else if op == '-' then x - y
    else if op == '*' then x * y
    else if op == '/' && y != 0 then TruncDiv(x, y)
    else 0
  }

  predicate HasMeaning(op: char, y: int) { IsOperator(op) && !(op == '/' && y == 0) }

  lemma MeansIffExact(op: char, x: int, y: int, v: int)
    ensures Means(op, x, y, v) <==> HasMeaning(op, y) && v == Exact(op, x, y)
  {
    if op == '*' {
      ProductMeans(x, y, v);
    } else if op == '/' && y != 0 {
      TruncDivMeans(x, y, v);
    }
  }

  lemma EvalIsExact(op: char, a: Expr, b: Expr)
    requires Eval(a).Some? && Eval(b).Some?
    ensures Eval(Binary(op, a, b)) ==
              if HasMeaning(op, Eval(b).value) then Checked(Exact(op, Eval(a).value, Eval(b).value)) else None
  {
  }

  /** An operator returns the one value it means, if its operands evaluate and
      that value is in range. */
  lemma EvalMeaning(op: char, a: Expr, b: Expr, v: int)
    ensures Eval(Binary(op, a, b)) == Some(v) <==>
              Eval(a).Some? && Eval(b).Some? && InRange(v) && Means(op, Eval(a).value, Eval(b).value, v)
  {
    if Eval(a).Some? && Eval(b).Some? {
      EvalIsExact(op, a, b);
      MeansIffExact(op, Eval(a).value, Eval(b).value, v);
    }
  }

  /** It panics exactly when an operand panics, the operator is none of the four,
      the divisor is zero, or the value it means is out of range. */
  lemma EvalPanicsIff(op: char, a: Expr, b: Expr)
    ensures Eval(Binary(op, a, b)).None? <==>
              || Eval(a).None? || Eval(b).None?
              || !IsOperator(op)
              || (op == '/' && Eval(b).value == 0)
              || exists v :: Means(op, Eval(a).value, Eval(b).value, v) && !InRange(v)
  {
    if Eval(a).Some? && Eval(b).Some? {
      var x, y := Eval(a).value, Eval(b).value;
      EvalIsExact(op, a, b);
      MeansIffExact(op, x, y, Exact(op, x, y));
      forall v | Means(op, x, y, v) ensures v == Exact(op, x, y) {
        MeansIffExact(op, x, y, v);
      }
    }
  }

  // ----- laws between the operators -----

  /** Literals are `i64` values. */
  predicate Typed(e: Expr) {
    match e
    case Number(n) => InRange(n)
    case Binary(_, l, r) => Typed(l) && Typed(r)
  }

  /** Taking either operand from a sum leaves the other. */
  lemma SubUndoesAdd(a: Expr, b: Expr)
    requires Typed(a) && Typed(b) && Eval(Binary('+', a, b)).Some?
    ensures var sum := Number(Eval(Binary('+', a, b)).value);
            Eval(Binary('-', sum, b)) == Eval(a) && Eval(Binary('-', sum, a)) == Eval(b)
  {
    EvalTyped(a);
    EvalTyped(b);
    EvalIsExact('+', a, b);
    var sum := Number(Eval(Binary('+', a, b)).value);
    EvalIsExact('-', sum, a);
    EvalIsExact('-', sum, b);
  }

  lemma {:induction false} EvalTyped(e: Expr)
    requires Typed(e) && Eval(e).Some?
    ensures InRange(Eval(e).value)
  {
    if e.Binary? {
      EvalIsExact(e.op, e.left, e.right);
    }
  }

  /** `0 + a + .. + a`, with `n` times `a`. */
  function RepeatedSum(a: Expr, n: nat): Expr {
    if n == 0 then Number(0) else Binary('+', RepeatedSum(a, n - 1), a)
  }

  /** Repeated addition moves away from zero. */
  lemma {:induction false} TimesGrows(x: int, n: nat)
    requires n > 0
    ensures x >= 0 ==> 0 <= Times(x, n - 1) <= Times(x, n)
    ensures x <= 0 ==> Times(x, n) <= Times(x, n - 1) <= 0
  {
    if n > 1 {
      TimesGrows(x, n - 1);
    }
  }

  lemma {:induction false} RepeatedSumValue(a: Expr, n: nat)
    requires Eval(a).Some?
    ensures Eval(RepeatedSum(a, n)) == Checked(Times(Eval(a).value, n))
  {
    if n > 0 {
      RepeatedSumValue(a, n - 1);
      TimesGrows(Eval(a).value, n);
    }
  }

  /** A product with a literal is the repeated sum, overflow included. */
  lemma MulIsRepeatedSum(a: Expr, n: nat)
    requires Eval(a).Some?
    ensures Eval(Binary('*', a, Number(n))) == Eval(RepeatedSum(a, n))
  {
    RepeatedSumValue(a, n);
    TimesIsProduct(Eval(a).value, n);
    EvalIsExact('*', a, Number(n));
  }

  // ----- the example of the source -----

  /** `(3 + 4)` in a product with 2 ... */
  function ExampleInner(): AddC {
    AddC(Term(Literal([], "3")), MoreA(" ", '+', Term(Literal(" ", "4")), EndA))
  }

  function ExampleProduct(): MulC {
    MulC(Factor(Literal(" ", "2")), MoreM(" ", '*', ParenC(" ", ExampleInner(), []), EndM))
  }

  /** ... added to 1. */
  function ExampleSum(): AddC {
    AddC(Term(Literal([], "1")), MoreA(" ", '+', ExampleProduct(), EndA))
  }

  lemma Digit1(ws: Text, c: Byte)
    requires '0' <= c <= '9' && AllWs(ws)
    ensures LiteralTree(Literal(ws, [c])) == Number(c as int - '0' as int) && LiteralOk(Literal(ws, [c]))
  {
    assert DigitsValue([c], 0, 0) == 0;
  }

  lemma ExampleInnerReads()
    ensures Reads(ExampleInner(), "3 + 4", Binary('+', Number(3), Number(4)))
  {
    Digit1([], '3');
    Digit1(" ", '4');
    TermOk(Literal([], "3"));
    TermOk(Literal(" ", "4"));
    LastTerm(" ", '+', Term(Literal(" ", "4")));
  }

  lemma ExampleProductReads()
    ensures WfM(ExampleProduct()) && TextM(ExampleProduct()) == " 2 * (3 + 4)"
    ensures TreeM(ExampleProduct()) == Binary('*', Number(2), Binary('+', Number(3), Number(4)))
  {
    ExampleInnerReads();
    Digit1(" ", '2');
    var p := ParenC(" ", ExampleInner(), []);
    assert WfP(p) && TextP(p) == " (3 + 4)";
    var t := MoreM(" ", '*', p, EndM);
    assert WfMT(EndM) && TextMT(EndM) == [];
    assert WfMT(t) && TextMT(t) == " * (3 + 4)";
    assert FoldM(Binary('*', Number(2), TreeP(p)), EndM) == Binary('*', Number(2), TreeP(p));
    assert FoldM(Number(2), t) == Binary('*', Number(2), TreeP(p));
  }

  lemma ExampleSumReads()
    ensures Reads(ExampleSum(), "1 + 2 * (3 + 4)",
                  Binary('+', Number(1), Binary('*', Number(2), Binary('+', Number(3), Number(4)))))
  {
    ExampleProductReads();
    Digit1([], '1');
    TermOk(Literal([], "1"));
    LastTerm(" ", '+', ExampleProduct());
    assert "1" + (" " + "+" + " 2 * (3 + 4)") == "1 + 2 * (3 + 4)";
  }

  /** `1 + 2 * (3 + 4)` is `+(1, *(2, +(3, 4)))` ... */
  lemma ExampleParses()
    ensures ParseAddSub("1 + 2 * (3 + 4)", 0) ==
              Ok(Binary('+', Number(1), Binary('*', Number(2), Binary('+', Number(3), Number(4)))), 15)
  {
    ExampleSumReads();
    TextParses(ExampleSum(), []);
    assert "1 + 2 * (3 + 4)" + [] == "1 + 2 * (3 + 4)";
  }

  /** ... and evaluates to 15. */
  lemma ExampleIsFifteen()
    ensures ParseAddSub("1 + 2 * (3 + 4)", 0).Ok? && Eval(ParseAddSub("1 + 2 * (3 + 4)", 0).expr) == Some(15)
  {
    ExampleParses();
    EvalIsExact('+', Number(3), Number(4));
    var sum := Binary('+', Number(3), Number(4));
    EvalIsExact('*', Number(2), sum);
    EvalIsExact('+', Number(1), Binary('*', Number(2), sum));
  }
}

/** Text of the two-level grammar that stands in the input is parsed to its tree. */
module ExprParserProofs {
  import opened ExprParser

  // ----- positions -----

  /** The position skipped to: past white space only, and at none. */
  lemma {:induction false} SkipWsMeaning(s: Text, p: nat)
    requires p <= |s|
    ensures var r := SkipWs(s, p);
            (r < |s| ==> !IsWs(s[r])) && forall i :: p <= i < r ==> IsWs(s[i])
    decreases |s| - p
  {
    if p < |s| && IsWs(s[p]) {
      SkipWsMeaning(s, p + 1);
    }
  }

  lemma {:induction false} DigitsEndMeaning(s: Text, p: nat)
    requires p <= |s|
    ensures var r := DigitsEnd(s, p);
            (r < |s| ==> !IsDigit(s[r])) && forall i :: p <= i < r ==> IsDigit(s[i])
    decreases |s| - p
  {
    if p < |s| && IsDigit(s[p]) {
      DigitsEndMeaning(s, p + 1);
    }
  }

  lemma SkipWsUnique(s: Text, p: nat, q: nat)
    requires p <= q <= |s| && (forall i :: p <= i < q ==> IsWs(s[i])) && (q < |s| ==> !IsWs(s[q]))
    ensures SkipWs(s, p) == q
  {
    SkipWsMeaning(s, p);
    var r := SkipWs(s, p);
    assert r == q;
  }

  lemma DigitsEndUnique(s: Text, p: nat, q: nat)
    requires p <= q <= |s| && (forall i :: p <= i < q ==> IsDigit(s[i])) && (q < |s| ==> !IsDigit(s[q]))
    ensures DigitsEnd(s, p) == q
  {
    DigitsEndMeaning(s, p);
    var r := DigitsEnd(s, p);
    assert r == q;
  }

  /** A concatenation stands where its parts stand one after the other. */
  lemma AtConcat(s: Text, p: nat, a: Text, b: Text)
    ensures At(s, p, a + b) <==> At(s, p, a) && At(s, p + |a|, b)
  {
    var ab := a + b;
    if At(s, p, ab) {
      forall i | 0 <= i < |a| ensures s[p + i] == a[i] {
        assert ab[i] == a[i];
      }
      forall i | 0 <= i < |b| ensures s[p + |a| + i] == b[i] {
        assert ab[|a| + i] == b[i];
      }
    }
    if At(s, p, a) && At(s, p + |a|, b) {
      forall i | 0 <= i < |ab| ensures s[p + i] == ab[i] {
        if i >= |a| {
          assert s[p + |a| + (i - |a|)] == b[i - |a|];
        }
      }
    }
  }

  /** Skipping over white space that stands at `p` and is followed by none. */
  lemma SkipOver(s: Text, p: nat, ws: Text)
    requires AllWs(ws) && At(s, p, ws) && (p + |ws| < |s| ==> !IsWs(s[p + |ws|]))
    ensures SkipWs(s, p) == p + |ws|
  {
    forall i | p <= i < p + |ws| ensures IsWs(s[i]) {
      assert s[p + (i - p)] == ws[i - p];
    }
    SkipWsUnique(s, p, p + |ws|);
  }

  lemma SkipWsTwice(s: Text, p: nat)
    requires p <= |s|
    ensures SkipWs(s, SkipWs(s, p)) == SkipWs(s, p)
  {
    SkipWsMeaning(s, p);
  }

  lemma AddLoopSkips(s: Text, node: Expr, p: nat)
    requires p <= |s|
    ensures AddLoop(s, node, SkipWs(s, p)) == AddLoop(s, node, p)
  {
    SkipWsTwice(s, p);
  }

  // ----- concrete syntax by position -----

  function LenP(c: PrimC): nat {
    match c
    case NumC(ws, digits) => |ws| + |digits|
    case ParenC(ws, inner, close) => |ws| + 1 + LenA(inner) + |close| + 1
  }

  function LenM(c: MulC): nat { LenP(c.first) + LenMT(c.rest) }

  function LenMT(t: MulTail): nat {
    match t
    case EndM => 0
    case MoreM(ws, _, operand, rest) => |ws| + 1 + LenP(operand) + LenMT(rest)
  }

  function LenA(c: AddC): nat { LenM(c.first) + LenAT(c.rest) }

  function LenAT(t: AddTail): nat {
    match t
    case EndA => 0
    case MoreA(ws, _, operand, rest) => |ws| + 1 + LenM(operand) + LenAT(rest)
  }

  predicate ByteAt(s: Text, p: nat, b: Byte) {
    p < |s| && s[p] == b
  }

  /** The text of `c` stands in `s` at `p`, token by token. */
  predicate StandsP(s: Text, p: nat, c: PrimC)
    decreases c
  {
    match c
    case NumC(ws, digits) => At(s, p, ws) && At(s, p + |ws|, digits)
    case ParenC(ws, inner, close) =>
      var m := p + |ws| + 1 + LenA(inner);
      && At(s, p, ws) && ByteAt(s, p + |ws|, '(')
      && StandsA(s, p + |ws| + 1, inner)
      && At(s, m, close) && ByteAt(s, m + |close|, ')')
  }

  predicate StandsM(s: Text, p: nat, c: MulC)
    decreases c
  {
    StandsP(s, p, c.first) && StandsMT(s, p + LenP(c.first), c.rest)
  }

  predicate StandsMT(s: Text, p: nat, t: MulTail)
    decreases t
  {
    match t
    case EndM => p <= |s|
    case MoreM(ws, op, operand, rest) =>
      var q := p + |ws|;
      At(s, p, ws) && ByteAt(s, q, op) && StandsP(s, q + 1, operand) && StandsMT(s, q + 1 + LenP(operand), rest)
  }

  predicate StandsA(s: Text, p: nat, c: AddC)
    decreases c
  {
    StandsM(s, p, c.first) && StandsAT(s, p + LenM(c.first), c.rest)
  }

  predicate StandsAT(s: Text, p: nat, t: AddTail)
    decreases t
  {
    match t
    case EndA => p <= |s|
    case MoreA(ws, op, operand, rest) =>
      var q := p + |ws|;
      At(s, p, ws) && ByteAt(s, q, op) && StandsM(s, q + 1, operand) && StandsAT(s, q + 1 + LenM(operand), rest)
  }

  lemma AtByte(s: Text, p: nat, b: Byte)
    ensures At(s, p, [b]) <==> ByteAt(s, p, b)
  {
    if At(s, p, [b]) {
      assert s[p + 0] == [b][0];
    }
  }

  lemma AtMore(s: Text, p: nat, ws: Text, op: Byte, operand: Text, rest: Text)
    ensures At(s, p, ws + [op] + operand + rest) <==>
              && At(s, p, ws) && ByteAt(s, p + |ws|, op)
              && At(s, p + |ws| + 1, operand) && At(s, p + |ws| + 1 + |operand|, rest)
  {
    AtConcat(s, p, ws + [op] + operand, rest);
    AtConcat(s, p, ws + [op], operand);
    AtConcat(s, p, ws, [op]);
    AtByte(s, p + |ws|, op);
  }

  lemma {:induction false} StandsIffAtP(s: Text, p: nat, c: PrimC)
    ensures |TextP(c)| == LenP(c) && (StandsP(s, p, c) <==> At(s, p, TextP(c)))
    decreases c
  {
    match c
    case NumC(ws, digits) => AtConcat(s, p, ws, digits);
    case ParenC(ws, inner, close) =>
      StandsIffAtA(s, p + |ws| + 1, inner);
      var head := ws + ['('] + TextA(inner);
      AtConcat(s, p, head + close, [')']);
      AtByte(s, p + |head + close|, ')');
      AtConcat(s, p, head, close);
      AtConcat(s, p, ws + ['('], TextA(inner));
      AtConcat(s, p, ws, ['(']);
      AtByte(s, p + |ws|, '(');
  }

  lemma {:induction false} StandsIffAtM(s: Text, p: nat, c: MulC)
    ensures |TextM(c)| == LenM(c) && (StandsM(s, p, c) <==> At(s, p, TextM(c)))
    decreases c
  {
    StandsIffAtP(s, p, c.first);
    StandsIffAtMT(s, p + LenP(c.first), c.rest);
    AtConcat(s, p, TextP(c.first), TextMT(c.rest));
  }

  lemma {:induction false} StandsIffAtMT(s: Text, p: nat, t: MulTail)
    ensures |TextMT(t)| == LenMT(t) && (StandsMT(s, p, t) <==> At(s, p, TextMT(t)))
    decreases t
  {
    match t
    case EndM =>
    case MoreM(ws, op, operand, rest) =>
      StandsIffAtP(s, p + |ws| + 1, operand);
      StandsIffAtMT(s, p + |ws| + 1 + LenP(operand), rest);
      AtMore(s, p, ws, op, TextP(operand), TextMT(rest));
  }

  lemma {:induction false} StandsIffAtA(s: Text, p: nat, c: AddC)
    ensures |TextA(c)| == LenA(c) && (StandsA(s, p, c) <==> At(s, p, TextA(c)))
    decreases c
  {
    StandsIffAtM(s, p, c.first);
    StandsIffAtAT(s, p + LenM(c.first), c.rest);
    AtConcat(s, p, TextM(c.first), TextAT(c.rest));
  }

  lemma {:induction false} StandsIffAtAT(s: Text, p: nat, t: AddTail)
    ensures |TextAT(t)| == LenAT(t) && (StandsAT(s, p, t) <==> At(s, p, TextAT(t)))
    decreases t
  {
    match t
    case EndA =>
    case MoreA(ws, op, operand, rest) =>
      StandsIffAtM(s, p + |ws| + 1, operand);
      StandsIffAtAT(s, p + |ws| + 1 + LenM(operand), rest);
      AtMore(s, p, ws, op, TextM(operand), TextAT(rest));
  }

  // ----- completeness: text of the grammar is parsed to its tree -----

  lemma {:induction false} DigitsValueMoves(s: Text, q: nat, digits: Text, n: nat)
    requires At(s, q, digits) && n <= |digits|
    ensures DigitsValue(s, q, q + n) == DigitsValue(digits, 0, n)
  {
    if n > 0 {
      DigitsValueMoves(s, q, digits, n - 1);
      assert s[q + (n - 1)] == digits[n - 1];
    }
  }

  lemma NumberAt(s: Text, p: nat, c: PrimC)
    requires c.NumC? && WfP(c) && StandsP(s, p, c) && !SplitsNumber(s, p + LenP(c))
    ensures ParsePrimary(s, p) == Ok(TreeP(c), p + LenP(c))
  {
    var q, e := p + |c.ws|, p + LenP(c);
    forall i | q <= i < e ensures IsDigit(s[i]) {
      assert s[q + (i - q)] == c.digits[i - q];
    }
    SkipOver(s, p, c.ws);
    DigitsEndUnique(s, q, e);
    DigitsValueMoves(s, q, c.digits, |c.digits|);
  }

  /** A token that is no digit ends whatever number came before its white space. */
  lemma TokenEndsNumber(s: Text, m: nat, ws: Text)
    requires AllWs(ws) && At(s, m, ws) && m + |ws| < |s| && !IsDigit(s[m + |ws|])
    ensures !SplitsNumber(s, m)
  {
    if ws != [] {
      assert s[m + 0] == ws[0];
    }
  }

  lemma TailEndsNumberM(s: Text, p: nat, t: MulTail)
    requires WfMT(t) && StandsMT(s, p, t) && !SplitsNumber(s, p + LenMT(t))
    ensures !SplitsNumber(s, p)
  {
    if t.MoreM? {
      TokenEndsNumber(s, p, t.ws);
    }
  }

  /** Behind a product inside a sum stands no further factor. */
  lemma TailStopsMul(s: Text, p: nat, t: AddTail, n: nat)
    requires WfAT(t) && StandsAT(s, p, t) && !SplitsNumber(s, p + LenAT(t)) && StopsMul(s, p + LenAT(t), n)
    ensures p <= |s| && !SplitsNumber(s, p) && StopsMul(s, p, SkipWs(s, p))
  {
    if t.MoreA? {
      TokenEndsNumber(s, p, t.ws);
      SkipOver(s, p, t.ws);
    }
  }

  lemma {:induction false} PrimAt(s: Text, p: nat, c: PrimC)
    requires WfP(c) && StandsP(s, p, c) && !SplitsNumber(s, p + LenP(c))
    ensures ParsePrimary(s, p) == Ok(TreeP(c), p + LenP(c))
    decreases c, 0
  {
    match c
    case NumC(_, _) => NumberAt(s, p, c);
    case ParenC(ws, inner, close) =>
      var m := p + |ws| + 1 + LenA(inner);
      SkipOver(s, p, ws);
      SkipOver(s, m, close);
      TokenEndsNumber(s, m, close);
      SkipWsTwice(s, m);
      AddAt(s, p + |ws| + 1, inner, m + |close|);
  }

  /** One turn of each loop. */
  lemma MulTurn(s: Text, node: Expr, p: nat, q: nat, right: Expr, e: nat, result: Parse)
    requires p <= |s| && SkipWs(s, p) == q < |s| && IsMulOp(s[q]) && ParsePrimary(s, q + 1) == Ok(right, e)
    requires MulLoop(s, Binary(s[q], node, right), e) == result
    ensures MulLoop(s, node, p) == result
  {
  }

  lemma AddTurn(s: Text, node: Expr, p: nat, q: nat, right: Expr, e: nat, result: Parse)
    requires p <= |s| && e <= |s| && SkipWs(s, p) == q < |s| && IsAddOp(s[q])
    requires ParseMul(s, q + 1) == Ok(right, SkipWs(s, e))
    requires AddLoop(s, Binary(s[q], node, right), e) == result
    ensures AddLoop(s, node, p) == result
  {
    AddLoopSkips(s, Binary(s[q], node, right), e);
    AddTurnAt(s, node, p, q, right, SkipWs(s, e), result);
  }

  lemma AddTurnAt(s: Text, node: Expr, p: nat, q: nat, right: Expr, e: nat, result: Parse)
    requires p <= |s| && SkipWs(s, p) == q < |s| && IsAddOp(s[q]) && ParseMul(s, q + 1) == Ok(right, e)
    requires AddLoop(s, Binary(s[q], node, right), e) == result
    ensures AddLoop(s, node, p) == result
  {
  }

  lemma {:induction false} MulTailAt(s: Text, node: Expr, p: nat, t: MulTail, n: nat)
    requires WfMT(t) && StandsMT(s, p, t) && !SplitsNumber(s, p + LenMT(t)) && StopsMul(s, p + LenMT(t), n)
    ensures MulLoop(s, node, p) == Ok(FoldM(node, t), n)
    decreases t, 0
  {
    if t.MoreM? {
      var q := p + |t.ws|;
      var e := q + 1 + LenP(t.operand);
      SkipOver(s, p, t.ws);
      TailEndsNumberM(s, e, t.rest);
      PrimAt(s, q + 1, t.operand);
      MulTailAt(s, Binary(t.op, node, TreeP(t.operand)), e, t.rest, n);
      MulTurn(s, node, p, q, TreeP(t.operand), e, Ok(FoldM(node, t), n));
    }
  }

  lemma {:induction false} MulAt(s: Text, p: nat, c: MulC, n: nat)
    requires WfM(c) && StandsM(s, p, c) && !SplitsNumber(s, p + LenM(c)) && StopsMul(s, p + LenM(c), n)
    ensures ParseMul(s, p) == Ok(TreeM(c), n)
    decreases c, 0
  {
    TailEndsNumberM(s, p + LenP(c.first), c.rest);
    PrimAt(s, p, c.first);
    MulTailAt(s, TreeP(c.first), p + LenP(c.first), c.rest, n);
  }

  lemma {:induction false} AddTailAt(s: Text, node: Expr, p: nat, t: AddTail, n: nat)
    requires WfAT(t) && StandsAT(s, p, t) && !SplitsNumber(s, p + LenAT(t)) && Stops(s, p + LenAT(t), n)
    ensures p <= |s| && AddLoop(s, node, p) == Ok(FoldA(node, t), n)
    decreases t, 0
  {
    if t.MoreA? {
      var q := p + |t.ws|;
      var e := q + 1 + LenM(t.operand);
      var node' := Binary(t.op, node, TreeM(t.operand));
      SkipOver(s, p, t.ws);
      TailStopsMul(s, e, t.rest, n);
      MulAt(s, q + 1, t.operand, SkipWs(s, e));
      AddTailAt(s, node', e, t.rest, n);
      AddTurn(s, node, p, q, TreeM(t.operand), e, Ok(FoldA(node, t), n));
    }
  }

  /** Text of the grammar, parsed to its tree where it cannot continue. */
  lemma {:induction false} AddAt(s: Text, p: nat, c: AddC, n: nat)
    requires WfA(c) && StandsA(s, p, c) && !SplitsNumber(s, p + LenA(c)) && Stops(s, p + LenA(c), n)
    ensures ParseAddSub(s, p) == Ok(TreeA(c), n)
    decreases c, 0
  {
    var m := p + LenM(c.first);
    TailStopsMul(s, m, c.rest, n);
    MulAt(s, p, c.first, SkipWs(s, m));
    AddTailAt(s, TreeM(c.first), m, c.rest, n);
    AddLoopSkips(s, TreeM(c.first), m);
  }
}

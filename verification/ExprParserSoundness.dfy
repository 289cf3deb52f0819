/** What the parser accepts is text of the grammar; with completeness, the
    parser is exactly the grammar. */
module ExprParserSoundness {
  import opened ExprParser
  import opened ExprParserProofs

  lemma SliceAt(s: Text, p: nat, q: nat)
    requires p <= q <= |s|
    ensures At(s, p, s[p..q])
  {
  }

  /** White space skipped from `p` to `q`, as text. */
  lemma SkippedWs(s: Text, p: nat)
    requires p <= |s|
    ensures var ws := s[p..SkipWs(s, p)]; AllWs(ws) && At(s, p, ws) && p + |ws| == SkipWs(s, p)
  {
    SkipWsMeaning(s, p);
    SliceAt(s, p, SkipWs(s, p));
  }

  lemma NumberSound(s: Text, p: nat, q: nat) returns (c: PrimC)
    requires p <= |s| && q == SkipWs(s, p) && q < |s| && IsDigit(s[q]) && ParseNumber(s, q).Ok?
    ensures WfP(c) && StandsP(s, p, c) && TreeP(c) == ParseNumber(s, q).expr && p + LenP(c) == ParseNumber(s, q).pos
    ensures !SplitsNumber(s, p + LenP(c))
  {
    var e := DigitsEnd(s, q);
    SkippedWs(s, p);
    DigitsEndMeaning(s, q);
    SliceAt(s, q, e);
    DigitsValueMoves(s, q, s[q..e], e - q);
    c := NumC(s[p..q], s[q..e]);
  }

  lemma {:induction false} PrimSound(s: Text, p: nat, r: Parse) returns (c: PrimC)
    requires p <= |s| && r == ParsePrimary(s, p) && r.Ok?
    ensures WfP(c) && StandsP(s, p, c) && TreeP(c) == r.expr && p + LenP(c) == r.pos && !SplitsNumber(s, r.pos)
    decreases |s| - p, 0
  {
    var q := SkipWs(s, p);
    if IsDigit(s[q]) {
      c := NumberSound(s, p, q);
    } else {
      var inner := AddSound(s, q + 1, ParseAddSub(s, q + 1));
      c := ParenSound(s, p, q, inner, r);
    }
  }

  /** An expression in parentheses, once the one inside is read. */
  lemma ParenSound(s: Text, p: nat, q: nat, inner: AddC, r: Parse) returns (c: PrimC)
    requires p <= |s| && r == ParsePrimary(s, p) && r.Ok? && q == SkipWs(s, p) && q < |s| && !IsDigit(s[q])
    requires var inside := ParseAddSub(s, q + 1);
             && inside.Ok? && WfA(inner) && StandsA(s, q + 1, inner) && TreeA(inner) == inside.expr
             && !SplitsNumber(s, q + 1 + LenA(inner)) && Stops(s, q + 1 + LenA(inner), inside.pos)
    ensures WfP(c) && StandsP(s, p, c) && TreeP(c) == r.expr && p + LenP(c) == r.pos && !SplitsNumber(s, r.pos)
  {
    var m := q + 1 + LenA(inner);
    var z := SkipWs(s, m);
    SkippedWs(s, p);
    SkippedWs(s, m);
    SkipWsTwice(s, m);
    c := ParenC(s[p..q], inner, s[m..z]);
  }

  /** `r` is what the loop of a product returns for `node` and the tail `t` at `p`. */
  ghost predicate TailOkM(s: Text, node: Expr, p: nat, t: MulTail, r: Parse) {
    && r.Ok? && WfMT(t) && StandsMT(s, p, t) && FoldM(node, t) == r.expr
    && !SplitsNumber(s, p + LenMT(t)) && StopsMul(s, p + LenMT(t), r.pos)
  }

  /** A further factor in front of a tail. */
  lemma MoreFactors(s: Text, node: Expr, p: nat, q: nat, operand: PrimC, rest: MulTail, r: Parse) returns (t: MulTail)
    requires p <= |s| && q == SkipWs(s, p) && q < |s| && IsMulOp(s[q])
    requires WfP(operand) && StandsP(s, q + 1, operand)
    requires TailOkM(s, Binary(s[q], node, TreeP(operand)), q + 1 + LenP(operand), rest, r)
    ensures TailOkM(s, node, p, t, r)
  {
    SkippedWs(s, p);
    t := MoreM(s[p..q], s[q], operand, rest);
    assert p + LenMT(t) == q + 1 + LenP(operand) + LenMT(rest);
  }

  lemma MulLoopTurn(s: Text, node: Expr, p: nat, q: nat, r: Parse)
    requires p <= |s| && r == MulLoop(s, node, p) && r.Ok? && q == SkipWs(s, p) && q < |s| && IsMulOp(s[q])
    ensures var right := ParsePrimary(s, q + 1);
            right.Ok? && r == MulLoop(s, Binary(s[q], node, right.expr), right.pos)
  {
  }

  lemma {:induction false} MulTailSound(s: Text, node: Expr, p: nat, r: Parse) returns (t: MulTail)
    requires p <= |s| && r == MulLoop(s, node, p) && r.Ok? && !SplitsNumber(s, p)
    ensures TailOkM(s, node, p, t, r)
    decreases |s| - p, 0
  {
    var q := SkipWs(s, p);
    if q < |s| && IsMulOp(s[q]) {
      MulLoopTurn(s, node, p, q, r);
      var right := ParsePrimary(s, q + 1);
      var operand := PrimSound(s, q + 1, right);
      var rest := MulTailSound(s, Binary(s[q], node, right.expr), right.pos, r);
      t := MoreFactors(s, node, p, q, operand, rest, r);
    } else {
      t := EndM;
    }
  }

  lemma {:induction false} MulSound(s: Text, p: nat, r: Parse) returns (c: MulC)
    requires p <= |s| && r == ParseMul(s, p) && r.Ok?
    ensures WfM(c) && StandsM(s, p, c) && TreeM(c) == r.expr
    ensures !SplitsNumber(s, p + LenM(c)) && StopsMul(s, p + LenM(c), r.pos)
    decreases |s| - p, 1
  {
    var first := ParsePrimary(s, p);
    var prim := PrimSound(s, p, first);
    var rest := MulTailSound(s, first.expr, first.pos, r);
    c := MulC(prim, rest);
  }

  ghost predicate TailOkA(s: Text, node: Expr, p: nat, t: AddTail, r: Parse) {
    && r.Ok? && WfAT(t) && StandsAT(s, p, t) && FoldA(node, t) == r.expr
    && !SplitsNumber(s, p + LenAT(t)) && Stops(s, p + LenAT(t), r.pos)
  }

  /** A further product in front of a tail. */
  lemma MoreProducts(s: Text, node: Expr, p: nat, q: nat, operand: MulC, rest: AddTail, r: Parse) returns (t: AddTail)
    requires p <= |s| && q == SkipWs(s, p) && q < |s| && IsAddOp(s[q])
    requires WfM(operand) && StandsM(s, q + 1, operand)
    requires TailOkA(s, Binary(s[q], node, TreeM(operand)), q + 1 + LenM(operand), rest, r)
    ensures TailOkA(s, node, p, t, r)
  {
    SkippedWs(s, p);
    t := MoreA(s[p..q], s[q], operand, rest);
    assert p + LenAT(t) == q + 1 + LenM(operand) + LenAT(rest);
  }

  lemma AddLoopGoesOn(s: Text, node: Expr, p: nat, q: nat, r: Parse)
    requires p <= |s| && r == AddLoop(s, node, p) && r.Ok? && q == SkipWs(s, p) && q < |s| && IsAddOp(s[q])
    ensures ParseMul(s, q + 1).Ok?
  {
  }

  lemma AddLoopTurn(s: Text, node: Expr, p: nat, q: nat, r: Parse, right: Expr, e: nat)
    requires p <= |s| && e <= |s| && r == AddLoop(s, node, p) && q == SkipWs(s, p) && q < |s| && IsAddOp(s[q])
    requires ParseMul(s, q + 1) == Ok(right, SkipWs(s, e))
    ensures r == AddLoop(s, Binary(s[q], node, right), e)
  {
    AddLoopSkips(s, Binary(s[q], node, right), e);
  }

  /** The product behind an operator, and the loop from there on. */
  lemma {:induction false} AddOperandSound(s: Text, node: Expr, p: nat, q: nat, r: Parse)
    returns (operand: MulC, e: nat)
    requires p <= |s| && r == AddLoop(s, node, p) && r.Ok? && q == SkipWs(s, p) && q < |s| && IsAddOp(s[q])
    ensures WfM(operand) && StandsM(s, q + 1, operand) && e == q + 1 + LenM(operand) && p < e <= |s|
    ensures r == AddLoop(s, Binary(s[q], node, TreeM(operand)), e)
    ensures !SplitsNumber(s, e) && StopsMul(s, e, SkipWs(s, e))
    decreases |s| - p, 0
  {
    AddLoopGoesOn(s, node, p, q, r);
    operand := MulSound(s, q + 1, ParseMul(s, q + 1));
    e := q + 1 + LenM(operand);
    AddLoopTurn(s, node, p, q, r, TreeM(operand), e);
  }

  lemma {:induction false} AddTailSound(s: Text, node: Expr, p: nat, r: Parse) returns (t: AddTail)
    requires p <= |s| && r == AddLoop(s, node, p) && r.Ok? && !SplitsNumber(s, p) && StopsMul(s, p, SkipWs(s, p))
    ensures TailOkA(s, node, p, t, r)
    decreases |s| - p, 1
  {
    var q := SkipWs(s, p);
    if q < |s| && IsAddOp(s[q]) {
      var operand, e := AddOperandSound(s, node, p, q, r);
      var rest := AddTailSound(s, Binary(s[q], node, TreeM(operand)), e, r);
      t := MoreProducts(s, node, p, q, operand, rest, r);
    } else {
      AddTailEnds(s, node, p, r);
      t := EndA;
    }
  }

  lemma AddTailEnds(s: Text, node: Expr, p: nat, r: Parse)
    requires p <= |s| && r == AddLoop(s, node, p) && r.Ok? && !SplitsNumber(s, p) && StopsMul(s, p, SkipWs(s, p))
    requires SkipWs(s, p) < |s| ==> !IsAddOp(s[SkipWs(s, p)])
    ensures TailOkA(s, node, p, EndA, r)
  {
  }

  lemma SumSound(s: Text, p: nat, product: MulC, rest: AddTail, r: Parse)
    requires p <= |s| && WfM(product) && StandsM(s, p, product)
    requires TailOkA(s, TreeM(product), p + LenM(product), rest, r)
    ensures var c := AddC(product, rest);
            && WfA(c) && StandsA(s, p, c) && TreeA(c) == r.expr
            && !SplitsNumber(s, p + LenA(c)) && Stops(s, p + LenA(c), r.pos)
  {
  }

  lemma {:induction false} AddSound(s: Text, p: nat, r: Parse) returns (c: AddC)
    requires p <= |s| && r == ParseAddSub(s, p) && r.Ok?
    ensures WfA(c) && StandsA(s, p, c) && TreeA(c) == r.expr
    ensures !SplitsNumber(s, p + LenA(c)) && Stops(s, p + LenA(c), r.pos)
    decreases |s| - p, 2
  {
    var first := ParseMul(s, p);
    var product := MulSound(s, p, first);
    var m := p + LenM(product);
    AddLoopSkips(s, first.expr, m);
    var rest := AddTailSound(s, first.expr, m, r);
    SumSound(s, p, product, rest, r);
    c := AddC(product, rest);
  }

  // ----- the parser is the grammar -----

  /** Concrete syntax `c` of `e` stands at `p`, is not followed by more of the
      same number, and behind it and its white space, at `n`, there is no operator. */
  ghost predicate Derives(s: Text, p: nat, c: AddC, e: Expr, n: nat) {
    WfA(c) && TreeA(c) == e && At(s, p, TextA(c)) && EndsAt(s, p + |TextA(c)|, n)
  }

  /** Text that ends at `m` may end there, and white space leads on to `n`: the
      end of the input, or a byte that is neither white space nor an operator. */
  predicate EndsAt(s: Text, m: nat, n: nat) {
    && m <= n <= |s| && AllWs(s[m..n])
    && !(0 < m < |s| && '0' <= s[m - 1] <= '9' && '0' <= s[m] <= '9')
    && (n < |s| ==>
          && s[n] != ' ' && s[n] != '\t' && s[n] != '\n'
          && s[n] != '+' && s[n] != '-' && s[n] != '*' && s[n] != '/')
  }

  lemma EndsAtIff(s: Text, m: nat, n: nat)
    ensures EndsAt(s, m, n) <==> !SplitsNumber(s, m) && Stops(s, m, n)
  {
    if m <= |s| {
      SkippedWs(s, m);
      SkipWsMeaning(s, m);
      if EndsAt(s, m, n) {
        forall i | m <= i < n ensures IsWs(s[i]) {
          assert s[m..n][i - m] == s[i];
        }
        SkipWsUnique(s, m, n);
      }
    }
  }

  /** `parse_expr` succeeds exactly on the grammar, with the grammar's tree. */
  lemma ParseIffDerives(s: Text, p: nat, e: Expr, n: nat)
    requires p <= |s|
    ensures ParseAddSub(s, p) == Ok(e, n) <==> exists c :: Derives(s, p, c, e, n)
  {
    if ParseAddSub(s, p) == Ok(e, n) {
      var c := AddSound(s, p, ParseAddSub(s, p));
      StandsIffAtA(s, p, c);
      EndsAtIff(s, p + |TextA(c)|, n);
      assert Derives(s, p, c, e, n);
    }
    if c :| Derives(s, p, c, e, n) {
      StandsIffAtA(s, p, c);
      EndsAtIff(s, p + |TextA(c)|, n);
      AddAt(s, p, c, n);
    }
  }

  /** It stops at the end of the input or at a byte that is neither white
      space nor an operator. */
  lemma ParseStops(s: Text, p: nat)
    requires p <= |s| && ParseAddSub(s, p).Ok?
    ensures var n := ParseAddSub(s, p).pos;
            n <= |s| && (n < |s| ==> s[n] !in [' ', '\t', '\n', '+', '-', '*', '/'])
  {
    var c := AddSound(s, p, ParseAddSub(s, p));
    SkipWsMeaning(s, p + LenA(c));
  }

  /** The grammar is unambiguous: one text has one tree. */
  lemma Unambiguous(c: AddC, d: AddC)
    requires WfA(c) && WfA(d) && TextA(c) == TextA(d)
    ensures TreeA(c) == TreeA(d)
  {
    TextParses(c, []);
    TextParses(d, []);
  }

  /** Any text of the grammar, with white space after it, is parsed to its
      tree and consumed completely. */
  lemma TextParses(c: AddC, trailing: Text)
    requires WfA(c) && AllWs(trailing)
    ensures ParseAddSub(TextA(c) + trailing, 0) == Ok(TreeA(c), |TextA(c) + trailing|)
  {
    var s := TextA(c) + trailing;
    var m := |TextA(c)|;
    StandsIffAtA(s, 0, c);
    assert At(s, m, trailing);
    SkipOver(s, m, trailing);
    AddAt(s, 0, c, |s|);
  }
}

/** The parser in its own form: an object whose methods move `pos` over the
    input and rebuild `node` in loops, proved to return what the value functions
    of ExprParser return. */
module ExprParserClass {
  import opened ExprParser

  /** A method's result: the tree, or a panic. */
  datatype Answer = Value(expr: Expr) | Panic

  class Parser {
    const input: Text
    var pos: nat

    constructor (src: Text)
      ensures input == src && pos == 0
    {
      input := src;
      pos := 0;
    }

    ghost predicate Valid()
      reads this
    {
      pos <= |input|
    }

    /** `a`, left at the current position, is the outcome `r`. */
    ghost predicate Gives(a: Answer, r: Parse)
      reads this
    {
      match r
      case Ok(e, p) => a == Value(e) && pos == p
      case Panicked => a == Panic
    }

    method Bump() returns (b: Byte)
      requires Valid() && pos < |input|
      modifies this
      ensures Valid() && pos == old(pos) + 1 && b == input[old(pos)]
    {
      b := input[pos];
      pos := pos + 1;
    }

    method SkipWhite()
      requires Valid()
      modifies this
      ensures Valid() && pos == SkipWs(input, old(pos))
    {
      while pos < |input| && IsWs(input[pos])
        invariant Valid() && old(pos) <= pos && SkipWs(input, pos) == SkipWs(input, old(pos))
        decreases |input| - pos
      {
        var _ := Bump();
      }
    }

    method ReadNumber() returns (a: Answer)
      requires Valid()
      modifies this
      ensures Valid() && Gives(a, ParseNumber(input, SkipWs(input, old(pos))))
    {
      SkipWhite();
      var start := pos;
      while pos < |input| && IsDigit(input[pos])
        invariant Valid() && start <= pos && DigitsEnd(input, pos) == DigitsEnd(input, start)
        decreases |input| - pos
      {
        var _ := Bump();
      }
      var value := DigitsValue(input, start, pos);
      if pos == start || value > MAX_I64 {
        return Panic;
      }
      a := Value(Number(value));
    }

    method ReadPrimary() returns (a: Answer)
      requires Valid()
      modifies this
      ensures Valid() && Gives(a, ParsePrimary(input, old(pos)))
      decreases |input| - pos, 0
    {
      SkipWhite();
      if pos < |input| && IsDigit(input[pos]) {
        a := ReadNumber();
      } else if pos < |input| && input[pos] == '(' {
        var _ := Bump();
        a := ReadExpr();
        if a.Value? {
          SkipWhite();
          if pos < |input| && input[pos] == ')' {
            var _ := Bump();
          } else {
            a := Panic;
          }
        }
      } else {
        a := Panic;
      }
    }

    method ReadMul() returns (a: Answer)
      requires Valid()
      modifies this
      ensures Valid() && Gives(a, ParseMul(input, old(pos)))
      decreases |input| - pos, 1
    {
      a := ReadPrimary();
      if a.Panic? {
        return;
      }
      var node := a.expr;
      while true
        invariant Valid() && old(pos) < pos && MulLoop(input, node, pos) == ParseMul(input, old(pos))
        decreases |input| - pos
      {
        SkipWhite();
        if !(pos < |input| && IsMulOp(input[pos])) {
          break;
        }
        var op := Bump();
        a := ReadPrimary();
        if a.Panic? {
          return;
        }
        node := Binary(op, node, a.expr);
      }
      a := Value(node);
    }

    method ReadAddSub() returns (a: Answer)
      requires Valid()
      modifies this
      ensures Valid() && Gives(a, ParseAddSub(input, old(pos)))
      decreases |input| - pos, 2
    {
      a := ReadMul();
      if a.Panic? {
        return;
      }
      var node := a.expr;
      while true
        invariant Valid() && old(pos) < pos && AddLoop(input, node, pos) == ParseAddSub(input, old(pos))
        decreases |input| - pos
      {
        SkipWhite();
        if !(pos < |input| && IsAddOp(input[pos])) {
          break;
        }
        var op := Bump();
        a := ReadMul();
        if a.Panic? {
          return;
        }
        node := Binary(op, node, a.expr);
      }
      a := Value(node);
    }

    method ReadExpr() returns (a: Answer)
      requires Valid()
      modifies this
      ensures Valid() && Gives(a, ParseAddSub(input, old(pos)))
      decreases |input| - pos, 3
    {
      a := ReadAddSub();
    }
  }
}

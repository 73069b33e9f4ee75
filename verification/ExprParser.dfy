/** The parser of expressions as it runs, taking tokens from the lexical state one at a time. */
module ExprParser {
  import opened Basics
  import opened Precedence

  class TokenStream {
    var tokens: seq<Token>

    constructor (ts: seq<Token>)
      ensures tokens == ts
    {
      tokens := ts;
    }

    method Next()
      requires tokens != []
      modifies this
      ensures tokens == old(tokens)[1..]
    {
      tokens := tokens[1..];
    }

    /** `subexpr`; the result is `None` when the text is in error */
    method SubExpr(limit: nat) returns (v: Option<Expr>, op: Option<BinOp>)
      modifies this
      ensures v == None <==> Precedence.SubExpr(old(tokens), limit).Bad?
      ensures v.Some? ==> Precedence.SubExpr(old(tokens), limit) == Good(v.value, tokens)
      ensures v.Some? ==> op == NextOp(tokens)
      decreases |tokens|, 1
    {
      if tokens == [] { return None, None; }
      var uop := UnOpOf(tokens[0]);
      if uop.Some? {
        Next();
        var e, _ := SubExpr(UNARY_PRIORITY);
        if e == None { return None, None; }
        v := Some(Un(uop.value, e.value));
      } else {
        v := SimpleExp();
        if v == None { return None, None; }
      }
      op := NextOp(tokens);
      while op.Some? && Left(op.value) > limit
        invariant v.Some? && op == NextOp(tokens)
        invariant |tokens| < |old(tokens)|
        invariant Precedence.SubExpr(old(tokens), limit) == Expand(v.value, tokens, limit)
        decreases |tokens|
      {
        Next();
        var v2, nextop := SubExpr(Right(op.value));
        if v2 == None { return None, None; }
        v := Some(Bin(op.value, v.value, v2.value));
        op := nextop;
      }
    }

    method SimpleExp() returns (v: Option<Expr>)
      requires tokens != []
      modifies this
      ensures v == None <==> Simple(old(tokens)).Bad?
      ensures v.Some? ==> Simple(old(tokens)) == Good(v.value, tokens)
      decreases |tokens|, 0
    {
      match tokens[0]
      case TAtom(n) =>
        Next();
        return Some(Atom(n));
      case TOpen =>
        Next();
        var e, _ := SubExpr(0);
        if e == None || tokens == [] || tokens[0] != TClose { return None; }
        Next();
        return e;
      case _ =>
        return None;
    }
  }
}

/** Expressions in source text: parsing by operator priorities gives back every tree that is printed with
    parentheses only where the priorities call for them. */
module Precedence {
  import opened Basics

  datatype UnOp = NOT | MINUS | LEN

  datatype BinOp = ADD | SUB | MUL | DIV | MOD | POW | CONCAT | EQ | LT | LE | NE | GT | GE | AND | OR

  /** The token `-` is a unary operator or a binary one. Names, constants and calls are atoms here. */
  datatype Token = TAtom(n: nat) | TOpen | TClose | TMinus | TNot | TLen | TBin(op: BinOp) | TOther

  datatype Expr = Atom(n: nat) | Un(uop: UnOp, e: Expr) | Bin(bop: BinOp, l: Expr, r: Expr)

  // ----- the priority table -----

  function Left(op: BinOp): nat {
    match op
    case ADD => 6 case SUB => 6 case MUL => 7 case DIV => 7 case MOD => 7
    case POW => 10 case CONCAT => 5
    case EQ => 3 case LT => 3 case LE => 3 case NE => 3 case GT => 3 case GE => 3
    case AND => 2 case OR => 1
  }

  function Right(op: BinOp): nat {
    match op
    case POW => 9
    case CONCAT => 4
    case _ => Left(op)
  }

  const UNARY_PRIORITY: nat := 8

  /** `getunopr` */
  function UnOpOf(t: Token): Option<UnOp> {
    match t
    case TNot => Some(NOT)
    case TMinus => Some(MINUS)
    case TLen => Some(LEN)
    case _ => None
  }

  /** `getbinopr` */
  function BinOpOf(t: Token): Option<BinOp> {
    match t
    case TMinus => Some(SUB)
    case TBin(op) => if op == SUB then None else Some(op)
    case _ => None
  }

  function UnToken(op: UnOp): Token {
    match op case NOT => TNot case MINUS => TMinus case LEN => TLen
  }

  function BinToken(op: BinOp): Token {
    if op == SUB then TMinus else TBin(op)
  }

  // ----- parsing -----

  /** The tree, and the tokens that were not used. */
  datatype Parsed = Bad | Good(e: Expr, rest: seq<Token>)

  function NextOp(ts: seq<Token>): Option<BinOp> {
    if ts == [] then None else BinOpOf(ts[0])
  }

  /** `subexpr` */
  function SubExpr(ts: seq<Token>, limit: nat): (p: Parsed)
    ensures p.Good? ==> |p.rest| < |ts|
    decreases |ts|, 1
  {
    if ts == [] then Bad
    else if UnOpOf(ts[0]).Some? then
      (match SubExpr(ts[1..], UNARY_PRIORITY)
       case Bad => Bad
       case Good(e, rest) => Expand(Un(UnOpOf(ts[0]).value, e), rest, limit))
    else
      match Simple(ts)
      case Bad => Bad
      case Good(e, rest) => Expand(e, rest, limit)
  }

  /** `simpleexp`: an atom or an expression in parentheses */
  function Simple(ts: seq<Token>): (p: Parsed)
    requires ts != []
    ensures p.Good? ==> |p.rest| < |ts|
    decreases |ts|, 0
  {
    match ts[0]
    case TAtom(n) => Good(Atom(n), ts[1..])
    case TOpen =>
      (match SubExpr(ts[1..], 0)
       case Bad => Bad
       case Good(e, rest) => if rest != [] && rest[0] == TClose then Good(e, rest[1..]) else Bad)
    case _ => Bad
  }

  /** The loop of `subexpr`: as long as operators have priorities higher than the limit. */
  function Expand(e: Expr, ts: seq<Token>, limit: nat): (p: Parsed)
    ensures p.Good? ==> |p.rest| <= |ts|
    decreases |ts|, 2
  {
    match NextOp(ts)
    case None => Good(e, ts)
    case Some(op) =>
      if Left(op) <= limit then Good(e, ts)
      else
        match SubExpr(ts[1..], Right(op))
        case Bad => Bad
        case Good(e2, rest) => Expand(Bin(op, e, e2), rest, limit)
  }

  // ----- printing -----

  function Parens(ts: seq<Token>): seq<Token> { [TOpen] + ts + [TClose] }

  /** Whether a left operand can stand without parentheses. */
  predicate BareLeft(l: Expr, op: BinOp) {
    match l
    case Atom(_) => true
    case Un(_, _) => Left(op) <= UNARY_PRIORITY
    case Bin(op', _, _) => Left(op) <= Right(op')
  }

  /** Whether an operand that is parsed with a limit can. */
  predicate Bare(e: Expr, limit: nat) {
    e.Bin? ==> Left(e.bop) > limit
  }

  function Print(e: Expr): seq<Token>
    decreases e, 0
  {
    match e
    case Atom(n) => [TAtom(n)]
    case Un(op, x) => [UnToken(op)] + Operand(x, UNARY_PRIORITY)
    case Bin(op, l, r) => LeftText(l, op) + [BinToken(op)] + Operand(r, Right(op))
  }

  function LeftText(l: Expr, op: BinOp): seq<Token>
    decreases l, 1
  {
    if BareLeft(l, op) then Print(l) else Parens(Print(l))
  }

  function Operand(e: Expr, limit: nat): seq<Token>
    decreases e, 1
  {
    if Bare(e, limit) then Print(e) else Parens(Print(e))
  }

  // ----- the round trip -----

  /** The priority of the operator that follows, if there is one. */
  function Follows(ts: seq<Token>): nat {
    match NextOp(ts) case None => 0 case Some(op) => Left(op)
  }

  /** An operator behind the text of the expression that binds at most so tightly is not drawn into it. */
  function Tail(e: Expr): nat {
    match e
    case Atom(_) => 10
    case Un(_, _) => UNARY_PRIORITY
    case Bin(op, _, _) => Right(op)
  }

  lemma Tokens(op: BinOp, u: UnOp)
    ensures BinOpOf(BinToken(op)) == Some(op) && UnOpOf(UnToken(u)) == Some(u)
    ensures Right(op) <= 9 && Left(op) != 9 && Left(op) <= Right(op) + 1 && Right(op) <= Left(op) <= 10 && Left(op) > 0
  {
  }

  lemma FollowsNotNine(ts: seq<Token>)
    ensures Follows(ts) <= 9 ==> Follows(ts) <= 8
  {
    if NextOp(ts).Some? { Tokens(NextOp(ts).value, NOT); }
  }

  /** Parsing the text of an expression comes to the point where the whole expression has been read. */
  lemma {:induction false} Reaches(e: Expr, limit: nat, rest: seq<Token>)
    requires Bare(e, limit) && Follows(rest) <= Tail(e)
    ensures SubExpr(Print(e) + rest, limit) == Expand(e, rest, limit)
    decreases e, 0
  {
    hide Left, Right;
    match e
    case Atom(n) => assert ([TAtom(n)] + rest)[1..] == rest;
    case Un(op, x) =>
      Tokens(ADD, op);
      var ts := Operand(x, UNARY_PRIORITY) + rest;
      assert Print(e) + rest == [UnToken(op)] + ts;
      OperandBack(x, UNARY_PRIORITY, rest);
    case Bin(op, l, r) =>
      Tokens(op, NOT);
      var ts := [BinToken(op)] + (Operand(r, Right(op)) + rest);
      assert Print(e) + rest == LeftText(l, op) + ts;
      assert NextOp(ts) == Some(op) && ts[1..] == Operand(r, Right(op)) + rest;
      LeftReaches(l, op, limit, ts);
      OperandBack(r, Right(op), rest);
  }

  lemma LeftReaches(l: Expr, op: BinOp, limit: nat, ts: seq<Token>)
    requires Follows(ts) == Left(op) && Left(op) > limit
    ensures SubExpr(LeftText(l, op) + ts, limit) == Expand(l, ts, limit)
    decreases l, 2
  {
    hide Left, Right;
    if BareLeft(l, op) {
      Tokens(op, NOT);
      if l.Bin? { Tokens(l.bop, NOT); }
      Reaches(l, limit, ts);
    } else {
      ParensBack(l, limit, ts);
    }
  }

  /** An operand is read back and what follows it is left. */
  lemma OperandBack(e: Expr, limit: nat, rest: seq<Token>)
    requires Follows(rest) <= limit <= 9
    ensures SubExpr(Operand(e, limit) + rest, limit) == Good(e, rest)
    decreases e, 2
  {
    hide Left, Right;
    if Bare(e, limit) {
      FollowsNotNine(rest);
      if e.Bin? { Tokens(e.bop, NOT); }
      Reaches(e, limit, rest);
      Stops(e, rest, limit);
    } else {
      ParensBack(e, limit, rest);
      Stops(e, rest, limit);
    }
  }

  lemma Stops(e: Expr, rest: seq<Token>, limit: nat)
    requires Follows(rest) <= limit
    ensures Expand(e, rest, limit) == Good(e, rest)
  {
    hide Left;
  }

  lemma ParensBack(e: Expr, limit: nat, rest: seq<Token>)
    ensures SubExpr(Parens(Print(e)) + rest, limit) == Expand(e, rest, limit)
    decreases e, 1
  {
    hide Left, Right, Expand, SubExpr;
    var inner := [TClose] + rest;
    assert Follows(inner) == 0;
    if e.Bin? { Tokens(e.bop, NOT); }
    Reaches(e, 0, inner);
    Stops(e, inner, 0);
    ParensRead(e, Print(e), limit, rest);
  }

  lemma ParensRead(e: Expr, ts: seq<Token>, limit: nat, rest: seq<Token>)
    requires SubExpr(ts + ([TClose] + rest), 0) == Good(e, [TClose] + rest)
    ensures SubExpr(Parens(ts) + rest, limit) == Expand(e, rest, limit)
  {
    hide Left, Right, Expand;
    var inner := [TClose] + rest;
    assert (Parens(ts) + rest)[0] == TOpen && (Parens(ts) + rest)[1..] == ts + inner;
    assert inner[1..] == rest;
    assert Simple(Parens(ts) + rest) == Good(e, rest);
  }

  /** Printing and parsing an expression gives it back, whatever follows that is not a binary operator. */
  lemma PrintParse(e: Expr, rest: seq<Token>)
    requires NextOp(rest) == None
    ensures SubExpr(Print(e) + rest, 0) == Good(e, rest)
  {
    if e.Bin? { Tokens(e.bop, NOT); }
    Reaches(e, 0, rest);
    Stops(e, rest, 0);
  }

  /** The operator that is left never binds tighter than the limit. */
  lemma {:induction false} LeftOverWeak(ts: seq<Token>, limit: nat)
    ensures var p := SubExpr(ts, limit); p.Good? ==> Follows(p.rest) <= limit
  {
    if ts != [] {
      if UnOpOf(ts[0]).Some? {
        var p := SubExpr(ts[1..], UNARY_PRIORITY);
        if p.Good? { ExpandWeak(Un(UnOpOf(ts[0]).value, p.e), p.rest, limit); }
      } else if Simple(ts).Good? {
        ExpandWeak(Simple(ts).e, Simple(ts).rest, limit);
      }
    }
  }

  lemma {:induction false} ExpandWeak(e: Expr, ts: seq<Token>, limit: nat)
    ensures var p := Expand(e, ts, limit); p.Good? ==> Follows(p.rest) <= limit
    decreases |ts|
  {
    if NextOp(ts).Some? && Left(NextOp(ts).value) > limit {
      var p := SubExpr(ts[1..], Right(NextOp(ts).value));
      if p.Good? { ExpandWeak(Bin(NextOp(ts).value, e, p.e), p.rest, limit); }
    }
  }

  // ----- no parentheses more than necessary -----

  /** Without its parentheses, an operand that must have them is not read to its end. */
  lemma {:induction false} RightNeedsParens(e: Expr, limit: nat, rest: seq<Token>)
    requires !Bare(e, limit)
    ensures var p := SubExpr(Print(e) + rest, limit); p.Good? && |p.rest| > |rest|
  {
    hide Left, Right;
    var op, l := e.bop, e.l;
    Tokens(op, NOT);
    var ts := [BinToken(op)] + (Operand(e.r, Right(op)) + rest);
    assert Print(e) + rest == LeftText(l, op) + ts;
    assert NextOp(ts) == Some(op);
    if !BareLeft(l, op) {
      ParensBack(l, limit, ts);
      Stops(l, ts, limit);
    } else if Bare(l, limit) {
      if l.Bin? { Tokens(l.bop, NOT); }
      Reaches(l, limit, ts);
      Stops(l, ts, limit);
    } else {
      RightNeedsParens(l, limit, ts);
    }
  }

  /** The number of operators on the way down to the leftmost operand. */
  function LeftDepth(e: Expr): nat {
    if e.Bin? then 1 + LeftDepth(e.l) else 0
  }

  /** The loop puts operators on top of the tree that it starts with. */
  lemma {:induction false} ExpandGrows(e: Expr, ts: seq<Token>, limit: nat)
    ensures var p := Expand(e, ts, limit);
      p.Good? ==>
        && LeftDepth(p.e) >= LeftDepth(e)
        && (LeftDepth(p.e) == LeftDepth(e) ==> p.e == e)
        && (LeftDepth(p.e) == LeftDepth(e) + 1 ==> NextOp(ts) == Some(p.e.bop))
    decreases |ts|
  {
    if NextOp(ts).Some? && Left(NextOp(ts).value) > limit {
      var p := SubExpr(ts[1..], Right(NextOp(ts).value));
      if p.Good? { ExpandGrows(Bin(NextOp(ts).value, e, p.e), p.rest, limit); }
    }
  }

  /** Without its parentheses, a left operand that must have them is not read as the left operand. */
  lemma LeftNeedsParens(l: Expr, op: BinOp, t: seq<Token>, limit: nat, r: Expr, rest: seq<Token>)
    requires !BareLeft(l, op) && Bare(l, limit)
    ensures SubExpr(Print(l) + ([BinToken(op)] + t), limit) != Good(Bin(op, l, r), rest)
  {
    hide Left, Right, Expand;
    var ts := [BinToken(op)] + t;
    match l
    case Un(u, x) =>
      Tokens(op, u);
      var inner := Operand(x, UNARY_PRIORITY) + ts;
      assert Print(l) + ts == [UnToken(u)] + inner;
      LeftOverWeak(inner, UNARY_PRIORITY);
      var p := SubExpr(inner, UNARY_PRIORITY);
      if p.Good? { ExpandGrows(Un(u, p.e), p.rest, limit); }
    case Bin(op', a, b) =>
      Tokens(op', NOT);
      var inner := Operand(b, Right(op')) + ts;
      var ts' := [BinToken(op')] + inner;
      assert Print(l) + ts == LeftText(a, op') + ts';
      assert NextOp(ts') == Some(op') && ts'[1..] == inner;
      LeftReaches(a, op', limit, ts');
      ExpandStep(a, ts', limit);
      LeftOverWeak(inner, Right(op'));
      var p := SubExpr(inner, Right(op'));
      if p.Good? { ExpandGrows(Bin(op', a, p.e), p.rest, limit); }
  }

  lemma ExpandStep(e: Expr, ts: seq<Token>, limit: nat)
    requires NextOp(ts).Some? && Left(NextOp(ts).value) > limit
    ensures var op := NextOp(ts).value; var p := SubExpr(ts[1..], Right(op));
      Expand(e, ts, limit) == if p.Bad? then Bad else Expand(Bin(op, e, p.e), p.rest, limit)
  {
  }
}

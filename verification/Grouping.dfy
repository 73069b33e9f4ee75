/** How operators group, said by their classes alone: which operators bind tighter than which, and which of them group
    from the right. */
module Grouping {
  import opened Basics
  import opened Precedence

  /** `or`; `and`; the comparisons; `..`; `+ -`; `* / %`; then `not`, `#` and the sign; `^` */
  function Class(op: BinOp): nat {
    match op
    case OR => 1
    case AND => 2
    case LT => 3 case GT => 3 case LE => 3 case GE => 3 case NE => 3 case EQ => 3
    case CONCAT => 4
    case ADD => 5 case SUB => 5
    case MUL => 6 case DIV => 6 case MOD => 6
    case POW => 8
  }

  const UNARY_CLASS: nat := 7

  predicate FromRight(op: BinOp) { op == POW || op == CONCAT }

  /** `a o1 b o2 c` is `(a o1 b) o2 c`, and not `a o1 (b o2 c)`. */
  predicate GroupsLeft(o1: BinOp, o2: BinOp) {
    Class(o1) > Class(o2) || (Class(o1) == Class(o2) && !FromRight(o1))
  }

  // ----- text with parentheses where the grouping calls for them -----

  function UnWord(op: UnOp): Token {
    match op case NOT => TNot case MINUS => TMinus case LEN => TLen
  }

  /** Minus has one token for both of its uses. */
  function BinWord(op: BinOp): Token {
    match op case SUB => TMinus case _ => TBin(op)
  }

  function Enclosed(ts: seq<Token>, bare: bool): seq<Token> {
    if bare then ts else [TOpen] + ts + [TClose]
  }

  function Text(e: Expr): seq<Token> {
    match e
    case Atom(n) => [TAtom(n)]
    case Un(op, x) => [UnWord(op)] + Enclosed(Text(x), x.Bin? ==> Class(x.bop) > UNARY_CLASS)
    case Bin(op, l, r) =>
      Enclosed(Text(l), match l
                        case Atom(_) => true
                        case Un(_, _) => UNARY_CLASS > Class(op)
                        case Bin(o, _, _) => GroupsLeft(o, op))
      + [BinWord(op)]
      + Enclosed(Text(r), r.Bin? ==> !GroupsLeft(op, r.bop))
  }

  lemma Classes(o1: BinOp, o2: BinOp)
    ensures Left(o2) <= Right(o1) <==> GroupsLeft(o1, o2)
    ensures Left(o1) > UNARY_PRIORITY <==> Class(o1) > UNARY_CLASS
    ensures Left(o1) <= UNARY_PRIORITY <==> UNARY_CLASS > Class(o1)
    ensures BinWord(o1) == BinToken(o1)
  {
  }

  lemma {:induction false} TextIsPrint(e: Expr)
    ensures Text(e) == Print(e)
  {
    hide Left, Right, Class, GroupsLeft;
    match e
    case Atom(_) =>
    case Un(op, x) =>
      TextIsPrint(x);
      if x.Bin? { Classes(x.bop, x.bop); }
    case Bin(op, l, r) =>
      TextIsPrint(l);
      TextIsPrint(r);
      Classes(op, op);
      if l.Bin? { Classes(l.bop, op); }
      if r.Bin? { Classes(op, r.bop); }
  }

  /** Every tree is read back from its text, whatever follows that is not a binary operator. */
  lemma TextRead(e: Expr, rest: seq<Token>)
    requires rest == [] || (rest[0] != TMinus && !rest[0].TBin?)
    ensures SubExpr(Text(e) + rest, 0) == Good(e, rest)
  {
    TextIsPrint(e);
    PrintParse(e, rest);
  }

  /** Two operators: the first one takes the middle operand exactly if it is of a tighter class, or of the same class
      and
      groups from the left. */
  lemma TwoOperators(a: nat, o1: BinOp, b: nat, o2: BinOp, c: nat)
    ensures SubExpr([TAtom(a), BinWord(o1), TAtom(b), BinWord(o2), TAtom(c)], 0)
         == Good(if Class(o1) > Class(o2) || (Class(o1) == Class(o2) && o1 != POW && o1 != CONCAT)
                 then Bin(o2, Bin(o1, Atom(a), Atom(b)), Atom(c)) else Bin(o1, Atom(a), Bin(o2, Atom(b), Atom(c))), [])
  {
    hide Class, SubExpr, BinWord;
    var e := if GroupsLeft(o1, o2) then Bin(o2, Bin(o1, Atom(a), Atom(b)), Atom(c))
             else Bin(o1, Atom(a), Bin(o2, Atom(b), Atom(c)));
    assert Text(Bin(o1, Atom(a), Atom(b))) == [TAtom(a), BinWord(o1), TAtom(b)];
    assert Text(Bin(o2, Atom(b), Atom(c))) == [TAtom(b), BinWord(o2), TAtom(c)];
    assert Text(e) == [TAtom(a), BinWord(o1), TAtom(b), BinWord(o2), TAtom(c)];
    TextRead(e, []);
    assert Text(e) + [] == Text(e);
  }

  /** An operator in front takes the first operand alone unless the operator behind it is `^`. */
  lemma UnaryFirst(u: UnOp, a: nat, o: BinOp, b: nat)
    ensures SubExpr([UnWord(u), TAtom(a), BinWord(o), TAtom(b)], 0)
         == Good(if o == POW then Un(u, Bin(o, Atom(a), Atom(b))) else Bin(o, Un(u, Atom(a)), Atom(b)), [])
  {
    hide SubExpr, BinWord, UnWord;
    var e := if o == POW then Un(u, Bin(o, Atom(a), Atom(b))) else Bin(o, Un(u, Atom(a)), Atom(b));
    assert Text(Bin(o, Atom(a), Atom(b))) == [TAtom(a), BinWord(o), TAtom(b)];
    assert Text(Un(u, Atom(a))) == [UnWord(u), TAtom(a)];
    assert Text(e) == [UnWord(u), TAtom(a), BinWord(o), TAtom(b)];
    TextRead(e, []);
    assert Text(e) + [] == Text(e);
  }

  /** Behind a binary operator it needs no parentheses. */
  lemma UnarySecond(a: nat, o: BinOp, u: UnOp, b: nat)
    ensures SubExpr([TAtom(a), BinWord(o), UnWord(u), TAtom(b)], 0) == Good(Bin(o, Atom(a), Un(u, Atom(b))), [])
  {
    hide SubExpr, BinWord, UnWord;
    var e := Bin(o, Atom(a), Un(u, Atom(b)));
    assert Text(Un(u, Atom(b))) == [UnWord(u), TAtom(b)];
    assert Text(e) == [TAtom(a), BinWord(o), UnWord(u), TAtom(b)];
    TextRead(e, []);
    assert Text(e) + [] == Text(e);
  }

  /** Parentheses are read as what is inside. */
  lemma ParensTransparent(e: Expr, rest: seq<Token>)
    requires rest == [] || (rest[0] != TMinus && !rest[0].TBin?)
    ensures SubExpr([TOpen] + Text(e) + [TClose] + rest, 0) == Good(e, rest)
  {
    hide SubExpr;
    TextIsPrint(e);
    ParensBack(e, 0, rest);
    Stops(e, rest, 0);
  }
}

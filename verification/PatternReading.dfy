/** The matcher reads the text of a pattern as the parts that it is the text of. */
module PatternReading {
  import opened Basics
  import opened Patterns
  import opened PatternTexts

  // ----- classes -----

  /** A run of consecutive characters */
  lemma InRun(c: char, t: Text, first: char)
    requires t != [] && forall i :: 0 <= i < |t| ==> t[i] as int == first as int + i
    ensures c in t <==> first as int <= c as int < first as int + |t|
  {
    if first as int <= c as int < first as int + |t| { assert t[c as int - first as int] == c; }
  }

  lemma InPunctuation(c: char)
    ensures c in PUNCTUATION <==> IsGraph(c) && !IsAlpha(c) && !Patterns.IsDigit(c)
  {
    var a, b, d, e := "!\"#$%&'()*+,-./", ":;<=>?@", "[\\]^_`", "{|}~";
    InRun(c, a, '!');
    InRun(c, b, ':');
    InRun(c, d, '[');
    InRun(c, e, '{');
    InFour(c, a, b, d, e);
    assert PUNCTUATION == a + b + d + e;
  }

  lemma InFour(c: char, a: Text, b: Text, d: Text, e: Text)
    ensures c in a + b + d + e <==> c in a || c in b || c in d || c in e
  {
  }

  lemma Runs(c: char)
    ensures c in SMALL_LETTERS <==> IsLower(c)
    ensures c in CAPITAL_LETTERS <==> IsUpper(c)
    ensures c in PatternTexts.DIGITS <==> Patterns.IsDigit(c)
    ensures c in "ABCDEFabcdef" <==> 'a' <= c <= 'f' || 'A' <= c <= 'F'
    ensures c in WHITE_SPACE <==> Code(c) == 32 || 9 <= Code(c) <= 13
  {
    InRun(c, SMALL_LETTERS, 'a');
    InRun(c, CAPITAL_LETTERS, 'A');
    InRun(c, PatternTexts.DIGITS, '0');
    assert "ABCDEFabcdef" == "ABCDEF" + "abcdef";
    InRun(c, "ABCDEF", 'A');
    InRun(c, "abcdef", 'a');
    assert WHITE_SPACE == WHITE_SPACE[..5] + [' '];
    InRun(c, WHITE_SPACE[..5], 9 as char);
  }

  /** A small letter names its class and the capital letter the complement. */
  lemma ClassMeans(c: char, k: Kind, complement: bool)
    ensures MatchClass(c, ClassText(k, complement)[1]) <==> InClass(c, k, complement)
  {
    hide MatchClass, IsOf;
    KindMeans(c, k);
    Capital(c, k);
  }

  lemma Capital(c: char, k: Kind)
    ensures MatchClass(c, CapitalLetter(k)) <==> !MatchClass(c, Letter(k))
  {
    hide IsAlpha, IsGraph, IsDigit, Code;
  }

  lemma KindMeans(c: char, k: Kind)
    ensures IsOf(c, k) <==> MatchClass(c, Letter(k))
  {
    Runs(c);
    InPunctuation(c);
    Together(c);
    hide SMALL_LETTERS, CAPITAL_LETTERS, PatternTexts.DIGITS, PUNCTUATION, WHITE_SPACE;
  }

  lemma Together(c: char)
    ensures c in SMALL_LETTERS + CAPITAL_LETTERS <==> c in SMALL_LETTERS || c in CAPITAL_LETTERS
    ensures c in PatternTexts.DIGITS + "ABCDEFabcdef" <==> c in PatternTexts.DIGITS || c in "ABCDEFabcdef"
  {
  }

  /** Other characters stand for themselves, also behind `%`. */
  lemma EscapedMeans(c: char, d: char)
    requires !IsAlphanumeric(d)
    ensures MatchClass(c, d) <==> c == d
    ensures !IsAlpha(d) && !Patterns.IsDigit(d)
  {
    Runs(d);
  }

  // ----- sets -----

  /** The text stands in the pattern. */
  predicate Stands(pat: Text, p: nat, t: Text) {
    p + |t| <= |pat| && pat[p..p + |t|] == t
  }

  lemma AtSplit(pat: Text, p: nat, a: Text, b: Text)
    requires Stands(pat, p, a + b)
    ensures Stands(pat, p, a) && Stands(pat, p + |a|, b)
  {
    var t := pat[p..p + |a + b|];
    assert a == t[..|a|] && b == t[|a|..];
  }

  lemma AtChar(pat: Text, p: nat, t: Text, i: nat)
    requires Stands(pat, p, t) && i < |t|
    ensures p + i < |pat| && pat[p + i] == t[i]
  {
    assert pat[p..p + |t|][i] == pat[p + i];
  }

  predicate ElemsOk(es: seq<Elem>) { forall i :: 0 <= i < |es| ==> ElemOk(es[i]) }

  /** How a text of elements begins. */
  lemma ElemsStart(es: seq<Elem>)
    requires es != [] && ElemsOk(es)
    ensures var t := ElemsText(es); t != [] && t[0] != ']' && t[0] != '^' && t[0] != '-'
  {
    assert ElemOk(es[0]);
    assert ElemText(es[0]) != [] && ElemsText(es)[0] == ElemText(es[0])[0];
  }

  /** What stands behind the first element: another one, or the closing bracket. */
  lemma BehindElem(pat: Text, p: nat, es: seq<Elem>)
    requires es != [] && ElemsOk(es) && Stands(pat, p, ElemsText(es) + "]")
    ensures Stands(pat, p, ElemText(es[0])) && Stands(pat, p + |ElemText(es[0])|, ElemsText(es[1..]) + "]")
    ensures var q := p + |ElemText(es[0])|;
      q < |pat| && pat[q] != '-' && (pat[q] == ']' <==> es[1..] == [])
  {
    hide ElemText, ElemOk, Stands;
    var a, b := ElemText(es[0]), ElemsText(es[1..]) + "]";
    assert ElemsText(es) + "]" == a + b;
    AtSplit(pat, p, a, b);
    AtChar(pat, p + |a|, b, 0);
    if es[1..] != [] { ElemsStart(es[1..]); }
  }

  lemma {:induction false} SetEnds(pat: Text, p: nat, es: seq<Elem>)
    requires es != [] && ElemsOk(es) && Stands(pat, p, ElemsText(es) + "]")
    ensures SetEnd(pat, p) == Some(p + |ElemsText(es)| + 1)
    decreases |es|
  {
    hide SetEnd, ElemText, ElemOk, Stands;
    BehindElem(pat, p, es);
    assert ElemOk(es[0]);
    ElemEnds(pat, p, es[0]);
    if es[1..] != [] { SetEnds(pat, p + |ElemText(es[0])|, es[1..]); }
  }

  /** The search for the closing bracket passes an element as a whole. */
  lemma ElemEnds(pat: Text, p: nat, e: Elem)
    requires ElemOk(e) && Stands(pat, p, ElemText(e)) && p + |ElemText(e)| < |pat|
    ensures var q := p + |ElemText(e)|; SetEnd(pat, p) == if pat[q] == ']' then Some(q + 1) else SetEnd(pat, q)
  {
    var t := ElemText(e);
    AtChar(pat, p, t, 0);
    if |t| > 1 { AtChar(pat, p, t, 1); }
    if e.Range? {
      AtChar(pat, p, t, 2);
      assert SetEnd(pat, p) == SetEnd(pat, p + 1);
      assert SetEnd(pat, p + 1) == SetEnd(pat, p + 2);
    }
  }

  lemma {:induction false} ElemsMean(pat: Text, c: char, p: nat, es: seq<Elem>)
    requires ElemsOk(es) && Stands(pat, p, ElemsText(es) + "]")
    ensures InSet(pat, c, p, p + |ElemsText(es)|) <==> exists i :: 0 <= i < |es| && Matches(c, es[i])
    decreases |es|
  {
    hide InSet, Matches, ElemOk, ElemText, Stands;
    if es == [] {
      NoElems(pat, c, p);
    } else {
      var q := p + |ElemText(es[0])|;
      BehindElem(pat, p, es);
      assert ElemOk(es[0]);
      ElemsMean(pat, c, q, es[1..]);
      ElemMeans(pat, c, p, es[0], p + |ElemsText(es)|);
      OneOrRest(c, es);
    }
  }

  lemma NoElems(pat: Text, c: char, p: nat)
    ensures !InSet(pat, c, p, p)
  {
  }

  lemma OneOrRest(c: char, es: seq<Elem>)
    requires es != []
    ensures (exists i :: 0 <= i < |es| && Matches(c, es[i]))
      <==> Matches(c, es[0]) || exists i :: 0 <= i < |es[1..]| && Matches(c, es[1..][i])
  {
    if i :| 0 <= i < |es| && Matches(c, es[i]) { assert i > 0 ==> es[1..][i - 1] == es[i]; }
    if i :| 0 <= i < |es[1..]| && Matches(c, es[1..][i]) { assert es[i + 1] == es[1..][i]; }
  }

  lemma ElemMeans(pat: Text, c: char, p: nat, e: Elem, ec: nat)
    requires ElemOk(e) && Stands(pat, p, ElemText(e)) && p + |ElemText(e)| <= ec
    requires p + |ElemText(e)| < |pat| && pat[p + |ElemText(e)|] != '-'
    ensures InSet(pat, c, p, ec) <==> Matches(c, e) || InSet(pat, c, p + |ElemText(e)|, ec)
  {
    var t := ElemText(e);
    hide MatchClass, InClass, IsOf;
    AtChar(pat, p, t, 0);
    if |t| > 1 { AtChar(pat, p, t, 1); }
    match e
    case Char(d, escaped) => if escaped { EscapedMeans(c, d); }
    case Range(_, _) => AtChar(pat, p, t, 2);
    case Class(k, complement) => ClassMeans(c, k, complement);
  }

  /** A set ends at its bracket and holds what it lists, or all else. */
  lemma SetMeans(pat: Text, p: nat, cs: CharSet)
    requires SetOk(cs) && Stands(pat, p, SetText(cs))
    ensures p + |SetText(cs)| <= |pat| && pat[p] == '[' && ClassEnd(pat, p) == Some(p + |SetText(cs)|)
    ensures forall c :: MatchBracket(pat, c, p, p + |SetText(cs)| - 1) <==> InListed(c, cs)
  {
    hide InSet, SetEnd, ElemsText, Stands, ElemOk;
    var head := if cs.complement then "[^" else "[";
    var body := ElemsText(cs.elems) + "]";
    assert SetText(cs) == head + body;
    AtSplit(pat, p, head, body);
    AtChar(pat, p, head, 0);
    AtChar(pat, p + |head|, body, 0);
    ElemsStart(cs.elems);
    if cs.complement { AtChar(pat, p, head, 1); }
    SetEnds(pat, p + |head|, cs.elems);
    forall c ensures MatchBracket(pat, c, p, p + |SetText(cs)| - 1) <==> InListed(c, cs) {
      ElemsMean(pat, c, p + |head|, cs.elems);
    }
  }

  // ----- single characters -----

  predicate FitsAt(src: Text, s: nat, one: One) { s < |src| && Fits(src[s], one) }

  /** The text stands for one character that fits. */
  ghost predicate SaysOne(pat: Text, p: nat, ep: nat, one: One) {
    forall src: Text, s: nat :: Single(src, pat, s, p, ep) <==> FitsAt(src, s, one)
  }

  lemma OneMeans(pat: Text, p: nat, one: One)
    requires OneOk(one) && Stands(pat, p, OneText(one))
    ensures p < |pat| && ClassEnd(pat, p) == Some(p + |OneText(one)|) && SaysOne(pat, p, p + |OneText(one)|, one)
    ensures OneStart(pat, p)
  {
    hide SaysOne, ClassEnd, OneStart, SetOk, SetText, InListed, MatchBracket, IsAlphanumeric;
    var t := OneText(one);
    match one
    case Any =>
      AtChar(pat, p, t, 0);
      AnyOne(pat, p);
    case Literal(c, escaped) =>
      AtChar(pat, p, t, 0);
      if escaped { AtChar(pat, p, t, 1); LiteralEscaped(pat, p, c); } else { LiteralPlain(pat, p, c); }
    case OneOf(k, complement) =>
      AtChar(pat, p, t, 0);
      AtChar(pat, p, t, 1);
      ClassOne(pat, p, k, complement);
    case Listed(cs) =>
      SetMeans(pat, p, cs);
      SetOne(pat, p, cs);
  }

  /** What stands there is no capture, no `$`, and none of `%b`, `%f` and `%1`. */
  predicate OneStart(pat: Text, p: nat)
    requires p < |pat|
  {
    && pat[p] != '(' && pat[p] != ')' && pat[p] != '$'
    && (pat[p] == '%' ==> var d := CharAt(pat, p + 1); d != 'b' && d != 'f' && !Patterns.IsDigit(d))
  }

  lemma AnyOne(pat: Text, p: nat)
    requires p < |pat| && pat[p] == '.'
    ensures ClassEnd(pat, p) == Some(p + 1) && SaysOne(pat, p, p + 1, Any) && OneStart(pat, p)
  {
  }

  lemma LiteralPlain(pat: Text, p: nat, c: char)
    requires OneOk(Literal(c, false)) && p < |pat| && pat[p] == c
    ensures ClassEnd(pat, p) == Some(p + 1) && SaysOne(pat, p, p + 1, Literal(c, false)) && OneStart(pat, p)
  {
    assert "^$()%.[]*+-?"[..8] == "^$()%.[]";
    assert c != '(' && c != ')' && c != '$' && c != '%' && c != '.' && c != '[';
  }

  lemma LiteralEscaped(pat: Text, p: nat, c: char)
    requires OneOk(Literal(c, true)) && p + 1 < |pat| && pat[p] == '%' && pat[p + 1] == c
    ensures ClassEnd(pat, p) == Some(p + 2) && SaysOne(pat, p, p + 2, Literal(c, true)) && OneStart(pat, p)
  {
    hide MatchClass;
    EscapedMeans(c, c);
    forall src: Text, s: nat
      ensures Single(src, pat, s, p, p + 2) <==> FitsAt(src, s, Literal(c, true))
    {
      if s < |src| { EscapedMeans(src[s], c); }
    }
  }

  lemma ClassOne(pat: Text, p: nat, k: Kind, complement: bool)
    requires p + 1 < |pat| && pat[p] == '%' && pat[p + 1] == ClassText(k, complement)[1]
    ensures ClassEnd(pat, p) == Some(p + 2) && SaysOne(pat, p, p + 2, OneOf(k, complement)) && OneStart(pat, p)
  {
    hide MatchClass, InClass;
    forall src: Text, s: nat
      ensures Single(src, pat, s, p, p + 2) <==> FitsAt(src, s, OneOf(k, complement))
    {
      if s < |src| { ClassMeans(src[s], k, complement); }
    }
  }

  lemma SetOne(pat: Text, p: nat, cs: CharSet)
    requires p < |pat| && pat[p] == '[' && SetText(cs) != []
    requires forall c :: MatchBracket(pat, c, p, p + |SetText(cs)| - 1) <==> InListed(c, cs)
    ensures SaysOne(pat, p, p + |SetText(cs)|, Listed(cs)) && OneStart(pat, p)
  {
    hide MatchBracket, InListed;
  }

  // ----- parts -----

  function RepFor(t: Times): Rep {
    match t
    case Once => Rep.One
    case AtMostOnce => Opt
    case AnyTimes => Star
    case AtLeastOnce => Plus
    case AsFewTimes => Minus
  }

  /** Between a character outside the set and one inside it; a zero character stands before and behind the text. */
  predicate OnBorder(src: Text, s: nat, cs: CharSet) {
    && !InListed(if s == 0 || s > |src| then '\0' else src[s - 1], cs)
    && InListed(if s < |src| then src[s] else '\0', cs)
  }

  /** The item is that of the part. */
  ghost predicate Says(pat: Text, item: Item, part: Part) {
    match part
    case Chars(one, times) => item.Chars? && item.rep == RepFor(times) && SaysOne(pat, item.p, item.ep, one)
    case OpenCapture => item == Open(UNFINISHED)
    case CloseCapture => item == Close
    case Position => item == Open(POSITION)
    case Balanced(b, e) => item == Balance(b, e)
    case Border(cs) =>
      item.Frontier? && forall src: Text, s: nat :: AtFrontier(src, pat, s, item.p, item.ep) <==> OnBorder(src, s, cs)
    case Again(digit) => item == BackRef(digit as int - '1' as int)
    case EndOfText => item == End
    case Broken(_) => item == Malformed
  }

  /** What may stand behind a part: no sign of repetition, no `)` behind `(`, nothing behind `$`. */
  predicate Followed(pat: Text, q: nat, part: Part) {
    && (part == OpenCapture ==> CharAt(pat, q) != ')')
    && (part == EndOfText || part.Broken? ==> q == |pat|)
    && (part.Chars? && q < |pat| ==> pat[q] !in "?*+-")
  }

  lemma PartMeans(pat: Text, p: nat, part: Part)
    requires PartOk(part) && Stands(pat, p, PartText(part)) && Followed(pat, p + |PartText(part)|, part)
    ensures p < |pat|
    ensures var (item, next) := ItemAt(pat, p);
      Says(pat, item, part) && (!part.Broken? ==> item != Malformed && next == p + |PartText(part)|)
  {
    match part
    case Broken(text) => BrokenMeans(pat, p, text);
    case Chars(one, times) => CharsMean(pat, p, one, times);
    case Border(cs) => BorderMeans(pat, p, cs);
    case Again(digit) => AgainMeans(pat, p, digit);
    case Balanced(b, e) => BalancedMeans(pat, p, b, e);
    case _ => SignMeans(pat, p, part);
  }

  lemma CharsMean(pat: Text, p: nat, one: One, times: Times)
    requires OneOk(one) && Stands(pat, p, OneText(one) + TimesText(times))
    requires Followed(pat, p + |OneText(one) + TimesText(times)|, Part.Chars(one, times))
    ensures p < |pat|
    ensures var (item, next) := ItemAt(pat, p);
      item != Malformed && next == p + |OneText(one) + TimesText(times)| && Says(pat, item, Part.Chars(one, times))
  {
    hide OneOk, OneText, ClassEnd, SaysOne;
    AtSplit(pat, p, OneText(one), TimesText(times));
    OneMeans(pat, p, one);
    var ep := p + |OneText(one)|;
    if times != Once { AtChar(pat, ep, TimesText(times), 0); }
    assert "?*+-"[0] == '?' && "?*+-"[1] == '*' && "?*+-"[2] == '+' && "?*+-"[3] == '-';
    assert ep < |pat| ==> RepOf(pat[ep]) == RepFor(times);
  }

  lemma BorderMeans(pat: Text, p: nat, cs: CharSet)
    requires SetOk(cs) && Stands(pat, p, "%f" + SetText(cs))
    ensures p < |pat|
    ensures var (item, next) := ItemAt(pat, p);
      item != Malformed && next == p + |"%f" + SetText(cs)| && Says(pat, item, Border(cs))
  {
    hide SetOk, SetText, ClassEnd, MatchBracket, InListed;
    var f := "%f";
    AtSplit(pat, p, f, SetText(cs));
    AtChar(pat, p, f, 0);
    AtChar(pat, p, f, 1);
    SetMeans(pat, p + 2, cs);
  }

  lemma AgainMeans(pat: Text, p: nat, digit: char)
    requires digit in PatternTexts.DIGITS && Stands(pat, p, ['%', digit])
    ensures p < |pat|
    ensures var (item, next) := ItemAt(pat, p); next == p + 2 && item == BackRef(digit as int - '1' as int)
  {
    AtChar(pat, p, ['%', digit], 0);
    AtChar(pat, p, ['%', digit], 1);
    Runs(digit);
  }

  lemma BalancedMeans(pat: Text, p: nat, b: char, e: char)
    requires Stands(pat, p, ['%', 'b', b, e])
    ensures p < |pat|
    ensures var (item, next) := ItemAt(pat, p); next == p + 4 && item == Balance(b, e)
  {
    AtChar(pat, p, ['%', 'b', b, e], 0);
    AtChar(pat, p, ['%', 'b', b, e], 1);
    AtChar(pat, p, ['%', 'b', b, e], 2);
    AtChar(pat, p, ['%', 'b', b, e], 3);
  }

  lemma BrokenMeans(pat: Text, p: nat, t: Text)
    requires IsBroken(t) && Stands(pat, p, t) && p + |t| == |pat|
    ensures p < |pat| && ItemAt(pat, p).0 == Malformed
  {
    AtChar(pat, p, t, 0);
    if |t| > 1 { AtChar(pat, p, t, 1); }
    if |t| > 2 { AtChar(pat, p, t, 2); }
    if ']' !in t {
      assert forall i :: p <= i < |pat| ==> pat[i] == t[i - p];
      NeverEnds(pat, p + 1);
      if |t| > 1 { NeverEnds(pat, p + 2); }
      if |t| > 2 { NeverEnds(pat, p + 3); }
      if |t| > 3 { NeverEnds(pat, p + 4); }
    }
  }

  lemma {:induction false} NeverEnds(pat: Text, p: nat)
    requires forall i :: p <= i < |pat| ==> pat[i] != ']'
    ensures SetEnd(pat, p) == None
    decreases |pat| - p
  {
    if p < |pat| { NeverEnds(pat, if pat[p] == ESC && p + 1 < |pat| then p + 2 else p + 1); }
  }

  lemma SignMeans(pat: Text, p: nat, part: Part)
    requires part == OpenCapture || part == CloseCapture || part == Position || part == EndOfText
    requires Stands(pat, p, PartText(part)) && Followed(pat, p + |PartText(part)|, part)
    ensures p < |pat|
    ensures var (item, next) := ItemAt(pat, p);
        item != Malformed && next == p + |PartText(part)| && Says(pat, item, part)
  {
    AtChar(pat, p, PartText(part), 0);
    if part == Position { AtChar(pat, p, PartText(part), 1); }
  }
}

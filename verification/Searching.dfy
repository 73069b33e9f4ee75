/** `string.find` and `string.match`: the first place from which the pattern matches, and the plain search that stands
    in for it when the pattern has no special characters. */
module Searching {
  import opened Basics
  import opened Patterns
  import opened Matching
  import opened MatchStates

  const SPECIALS: string := "^$*+?.([%-"

  datatype Finding = Nowhere | Raised | At(start: nat, end: nat, caps: seq<Cap>)

  /** From `k` the pattern has the outcome, and from no place before that does it match. */
  ghost predicate FirstAt(src: Text, pat: Text, p: nat, init: nat, k: nat, o: Outcome) {
    && Meaning(src, pat, Items(pat, p), k, [], o)
    && forall j :: init <= j < k ==> NoWay(src, pat, Items(pat, p), j, [])
  }

  predicate Anchored(pat: Text) {
    CharAt(pat, 0) == '^'
  }

  function Start(pat: Text): nat {
    if Anchored(pat) then 1 else 0
  }

  /** The last place from which a match is tried. */
  function Last(src: Text, pat: Text, init: nat): nat {
    if Anchored(pat) then init else |src|
  }

  /** What a search finds. */
  ghost predicate Finds(src: Text, pat: Text, init: nat, f: Finding) {
    match f
    case Nowhere => forall k :: init <= k <= Last(src, pat, init) ==> NoWay(src, pat, Items(pat, Start(pat)), k, [])
    case Raised => exists k :: init <= k <= Last(src, pat, init) && FirstAt(src, pat, Start(pat), init, k, Error)
    case At(k, end, caps) =>
        init <= k <= Last(src, pat, init) && FirstAt(src, pat, Start(pat), init, k, Found(end, caps))
  }

  /** The loop of `str_find_aux`. */
  method FindPattern(src: Text, pat: Text, init: nat) returns (f: Finding)
    requires init <= |src|
    ensures Finds(src, pat, init, f)
  {
    var ms := new MatchState(src, pat);
    var s := init;
    while true
      invariant init <= s <= Last(src, pat, init) && ms.Ok() && ms.src == src && ms.pat == pat && fresh(ms)
      invariant fresh(ms.capture)
      invariant forall j :: init <= j < s ==> NoWay(src, pat, Items(pat, Start(pat)), j, [])
      decreases |src| - s
    {
      ms.level := 0;
      assert ms.Caps() == [];
      MatchMeans(src, pat, s, Start(pat), []);
      var r := ms.MatchAt(s, Start(pat));
      match r {
        case Ends(end) => return At(s, end, ms.capture[..ms.level]);
        case Raises =>
          assert FirstAt(src, pat, Start(pat), init, s, Error);
          return Raised;
        case Fails =>
      }
      if s >= |src| || Anchored(pat) { return Nowhere; }
      s := s + 1;
    }
  }

  // ----- the plain search -----

  predicate Occurs(src: Text, t: Text, k: nat) {
    k + |t| <= |src| && src[k..k + |t|] == t
  }

  /** The first occurrence from `init` on. */
  ghost predicate FirstPlace(src: Text, t: Text, init: nat, r: Option<nat>) {
    match r
    case None => forall j: nat :: init <= j ==> !Occurs(src, t, j)
    case Some(k) => init <= k && Occurs(src, t, k) && forall j :: init <= j < k ==> !Occurs(src, t, j)
  }

  lemma FirstOccurs(src: Text, t: Text, i: nat)
    requires t != [] && i + |t| <= |src|
    ensures Occurs(src, t, i) <==> src[i] == t[0] && src[i + 1..i + |t|] == t[1..]
  {
    assert src[i..i + |t|] == [src[i]] + src[i + 1..i + |t|] && t == [t[0]] + t[1..];
    assert src[i..i + |t|][1..] == src[i + 1..i + |t|] && ([t[0]] + t[1..])[1..] == t[1..];
  }

  /** `lmemfind` finds the first occurrence. */
  method MemFind(src: Text, t: Text, init: nat) returns (r: Option<nat>)
    requires init <= |src|
    ensures FirstPlace(src, t, init, r)
  {
    if |t| == 0 { return Some(init); }
    if |t| > |src| - init { return None; }
    var i := init;
    while i + |t| <= |src|
      invariant init <= i <= |src| && forall j :: init <= j < i ==> !Occurs(src, t, j)
    {
      FirstOccurs(src, t, i);
      if src[i] == t[0] && src[i + 1..i + |t|] == t[1..] {
        return Some(i);
      }
      i := i + 1;
    }
    return None;
  }

  predicate NoSpecials(pat: Text) {
    forall i :: 0 <= i < |pat| ==> pat[i] !in SPECIALS
  }

  lemma Special(c: char)
    ensures c in SPECIALS <==> c in {'^', '$', '*', '+', '?', '.', '(', '[', '%', '-'}
  {
    assert SPECIALS[0] == '^' && SPECIALS[1] == '$' && SPECIALS[2] == '*' && SPECIALS[3] == '+' && SPECIALS[4] == '?';
    assert SPECIALS[5] == '.' && SPECIALS[6] == '(' && SPECIALS[7] == '[' && SPECIALS[8] == '%' && SPECIALS[9] == '-';
  }

  /** Every character stands for itself, except the closing parenthesis. */
  lemma PlainItem(src: Text, pat: Text, s: nat, p: nat)
    requires NoSpecials(pat) && p < |pat|
    ensures ItemAt(pat, p) == (if pat[p] == ')' then (Close, p + 1) else (Chars(p, p + 1, One), p + 1))
    ensures Single(src, pat, s, p, p + 1) <==> s < |src| && src[s] == pat[p]
  {
    Special(pat[p]);
    Special(CharAt(pat, p + 1));
    hide MatchBracket, MatchClass;
  }

  /** The characters before the first closing parenthesis from `p` on. */
  function Literal(pat: Text, p: nat): (t: Text)
    requires p <= |pat|
    ensures p + |t| <= |pat| && pat[p..p + |t|] == t
    ensures p + |t| < |pat| ==> pat[p + |t|] == ')'
    ensures ')' !in t
    decreases |pat| - p
  {
    if p == |pat| || pat[p] == ')' then []
    else
      var t := Literal(pat, p + 1);
      assert pat[p..p + 1 + |t|] == [pat[p]] + pat[p + 1..p + 1 + |t|];
      [pat[p]] + t
  }

  /** For such a pattern the matcher compares characters, and a closing parenthesis is an error when it is reached. */
  lemma {:induction false} PlainMatch(src: Text, pat: Text, s: nat, p: nat)
    requires NoSpecials(pat) && p <= |pat| && s <= |src|
    ensures var t := Literal(pat, p);
      Match(src, pat, s, p, []) ==
      if !Occurs(src, t, s) then NoMatch else if p + |t| < |pat| then Error else Found(s + |t|, [])
    decreases |pat| - p
  {
    if p < |pat| {
      PlainItem(src, pat, s, p);
      if pat[p] != ')' && s < |src| {
        PlainMatch(src, pat, s + 1, p + 1);
        LiteralAt(src, pat, s, p);
      }
    }
  }

  lemma LiteralAt(src: Text, pat: Text, s: nat, p: nat)
    requires p < |pat| && pat[p] != ')' && s < |src|
    ensures Occurs(src, Literal(pat, p), s) <==> src[s] == pat[p] && Occurs(src, Literal(pat, p + 1), s + 1)
  {
    var t, t1 := Literal(pat, p), Literal(pat, p + 1);
    assert t == [pat[p]] + t1;
    if s + |t| <= |src| {
      assert src[s..s + |t|] == [src[s]] + src[s + 1..s + |t|];
      assert src[s..s + |t|][1..] == src[s + 1..s + |t|] && t[1..] == t1;
    }
  }

  /** There is no closing parenthesis in the pattern, or what stands before it does not occur. */
  ghost predicate Harmless(src: Text, pat: Text, init: nat) {
    ')' !in pat || forall k: nat :: init <= k ==> !Occurs(src, Literal(pat, 0), k)
  }

  function PlainFinding(pat: Text, r: Option<nat>): Finding {
    match r
    case None => Nowhere
    case Some(k) => At(k, k + |pat|, [])
  }

  lemma {:induction false} NotBoth(items: seq<Item>, a: seq<nat>, b: seq<nat>)
    requires Preferred(items, a, b)
    ensures !Preferred(items, b, a)
    decreases |a|
  {
    if a[0] == b[0] { NotBoth(items[1..], a[1..], b[1..]); }
  }

  /** A match has one meaning. */
  lemma OneMeaning(src: Text, pat: Text, items: seq<Item>, s: nat, r: Outcome, r': Outcome)
    requires Meaning(src, pat, items, s, [], r) && Meaning(src, pat, items, s, [], r')
    ensures r == r'
  {
    if r != NoMatch && r' != NoMatch {
      var ns :| BestWay(src, pat, items, s, [], ns, r);
      var ns' :| BestWay(src, pat, items, s, [], ns', r');
      if ns != ns' { NotBoth(items, ns, ns'); }
    }
  }

  /** The plain search finds what the pattern finds, when no character of the pattern is special: exactly if there is no
      closing parenthesis, which is not among the special characters although the matcher may raise an error for it,
      or what stands before it does not occur. */
  lemma PlainIsPattern(src: Text, pat: Text, init: nat, r: Option<nat>)
    requires init <= |src| && NoSpecials(pat)
    requires FirstPlace(src, pat, init, r)
    ensures Finds(src, pat, init, PlainFinding(pat, r)) <==> Harmless(src, pat, init)
  {
    WholeLiteral(src, pat);
    hide Occurs, Literal, NoSpecials;
    if ')' !in pat {
      PlainFinds(src, pat, init, r);
    } else if k: nat :| init <= k && Occurs(src, Literal(pat, 0), k) {
      PlainDiffers(src, pat, init, r, k);
    } else {
      PlainFinds(src, pat, init, r);
    }
  }

  lemma PlainMeaning(src: Text, pat: Text, k: nat)
    requires NoSpecials(pat) && k <= |src|
    ensures var t := Literal(pat, 0);
      Meaning(src, pat, Items(pat, 0), k, [],
              if !Occurs(src, t, k) then NoMatch else if |t| < |pat| then Error else Found(k + |t|, []))
  {
    PlainMatch(src, pat, k, 0);
    MatchMeans(src, pat, k, 0, []);
  }

  lemma NothingFound(src: Text, pat: Text, init: nat)
    requires !Anchored(pat) && forall k :: init <= k <= |src| ==> NoWay(src, pat, Items(pat, 0), k, [])
    ensures Finds(src, pat, init, Nowhere)
  {
    hide NoWay;
  }

  lemma NothingAt(src: Text, pat: Text, init: nat, k: nat)
    requires !Anchored(pat) && Finds(src, pat, init, Nowhere) && init <= k <= |src|
    ensures Meaning(src, pat, Items(pat, 0), k, [], NoMatch)
  {
    hide Way;
    var items := Items(pat, Start(pat));
    assert Meaning(src, pat, items, k, [], NoMatch) == NoWay(src, pat, items, k, []);
  }

  lemma PlainNowhere(src: Text, pat: Text, k: nat)
    requires NoSpecials(pat) && k <= |src| && !Occurs(src, Literal(pat, 0), k)
    ensures NoWay(src, pat, Items(pat, 0), k, [])
  {
    PlainMeaning(src, pat, k);
    hide Occurs, Literal, NoSpecials, Items, Way, BestWay;
  }

  lemma SomethingFound(src: Text, pat: Text, init: nat, k: nat, end: nat)
    requires !Anchored(pat) && init <= k <= |src| && Meaning(src, pat, Items(pat, 0), k, [], Found(end, []))
    requires forall j :: init <= j < k ==> NoWay(src, pat, Items(pat, 0), j, [])
    ensures Finds(src, pat, init, At(k, end, []))
  {
    hide NoWay, Meaning;
  }

  lemma PlainOccurs(src: Text, pat: Text, init: nat, r: Option<nat>, k: nat)
    requires FirstPlace(src, pat, init, r)
    requires Harmless(src, pat, init)
    requires init <= k && (r.Some? ==> k <= r.value)
    ensures r.Some? ==> r.value <= |src| && Literal(pat, 0) == pat
    ensures r == Some(k) <==> Occurs(src, Literal(pat, 0), k)
  {
    WholeLiteral(src, pat);
    hide Literal;
  }

  lemma PlainFinds(src: Text, pat: Text, init: nat, r: Option<nat>)
    requires init <= |src| && NoSpecials(pat)
    requires FirstPlace(src, pat, init, r)
    requires Harmless(src, pat, init)
    ensures Finds(src, pat, init, PlainFinding(pat, r))
  {
    NotAnchored(pat);
    hide Occurs, Literal, NoSpecials, NoWay, Meaning, Anchored, Finds, Items, FirstPlace, Harmless;
    PlainOccurs(src, pat, init, r, init);
    forall k | init <= k <= (if r.Some? then r.value else |src|) && r != Some(k)
      ensures NoWay(src, pat, Items(pat, 0), k, [])
    {
      PlainOccurs(src, pat, init, r, k);
      PlainNowhere(src, pat, k);
    }
    match r
    case None => NothingFound(src, pat, init);
    case Some(k) =>
      PlainOccurs(src, pat, init, r, k);
      PlainMeaning(src, pat, k);
      SomethingFound(src, pat, init, k, k + |pat|);
  }

  lemma PlainDiffers(src: Text, pat: Text, init: nat, r: Option<nat>, k: nat)
    requires init <= k && NoSpecials(pat) && ')' in pat && Occurs(src, Literal(pat, 0), k)
    requires FirstPlace(src, pat, init, r)
    ensures !Finds(src, pat, init, PlainFinding(pat, r))
  {
    NotAnchored(pat);
    WholeLiteral(src, pat);
    var at := if r.Some? then r.value else k;
    assert at <= |src| && Occurs(src, Literal(pat, 0), at);
    hide Occurs, Literal, NoSpecials, Way, BestWay;
    PlainMeaning(src, pat, at);
    if Finds(src, pat, init, PlainFinding(pat, r)) {
      if r.None? { NothingAt(src, pat, init, at); }
      OneMeaning(src, pat, Items(pat, 0), at, Error, if r.Some? then Found(at + |pat|, []) else NoMatch);
    }
  }

  /** `string.find(")", ")")` succeeds, and `string.match(")", ")")` raises an error. */
  lemma ParenthesisDiffers()
    ensures NoSpecials(")") && FirstPlace(")", ")", 0, Some(0)) && Finds(")", ")", 0, Raised)
  {
    Special(')');
    assert Literal(")", 0) == [];
    PlainMeaning(")", ")", 0);
    NotAnchored(")");
    assert FirstAt(")", ")", Start(")"), 0, 0, Error);
  }

  lemma NotAnchored(pat: Text)
    requires NoSpecials(pat)
    ensures !Anchored(pat)
  {
    assert SPECIALS[0] == '^';
    if pat != [] { assert pat[0] !in SPECIALS; }
  }

  lemma WholeLiteral(src: Text, pat: Text)
    ensures |Literal(pat, 0)| == |pat| <==> ')' !in pat
    ensures ')' !in pat ==> Literal(pat, 0) == pat
    ensures forall k: nat :: Occurs(src, pat, k) ==> Occurs(src, Literal(pat, 0), k)
  {
    var t := Literal(pat, 0);
    assert pat == pat[..|t|] + pat[|t|..];
    forall k: nat | Occurs(src, pat, k)
      ensures Occurs(src, t, k)
    {
      assert src[k..k + |t|] == src[k..k + |pat|][..|t|];
    }
  }

  /** `str_find_aux`; positions start at 0 here */
  method StrFind(src: Text, pat: Text, init: nat, find: bool, plain: bool) returns (f: Finding)
    ensures init > |src| ==> f == Nowhere
    ensures init <= |src| && find && (plain || NoSpecials(pat)) ==>
              exists r :: FirstPlace(src, pat, init, r) && f == PlainFinding(pat, r)
    ensures init <= |src| && (!find || (!plain && (!NoSpecials(pat) || ')' !in pat))) ==> Finds(src, pat, init, f)
  {
    if init > |src| { return Nowhere; }
    if find && (plain || NoSpecials(pat)) {
      var r := MemFind(src, pat, init);
      if !plain { PlainIsPattern(src, pat, init, r); }
      return PlainFinding(pat, r);
    }
    f := FindPattern(src, pat, init);
  }
}

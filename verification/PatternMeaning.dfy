/** What a pattern matches, said in terms of its parts: the matcher and the search do this for the text of the parts. */
module PatternMeaning {
  import opened Basics
  import opened Patterns
  import opened Matching
  import opened PatternTexts
  import opened PatternReading
  import opened Searching

  // ----- one part -----

  /** How many repetitions are allowed */
  predicate Admits(t: Times, n: nat) {
    match t
    case Once => n == 1
    case AtMostOnce => n == 0 || n == 1
    case AnyTimes => true
    case AtLeastOnce => n >= 1
    case AsFewTimes => true
  }

  /** From `s` to `k` the text begins with `b` and holds both characters equally often; when they are the same, it holds
      the character twice. */
  predicate Even(src: Text, s: nat, k: nat, b: char, e: char) {
    && s < k <= |src| && src[s] == b
    && if b == e then multiset(src[s..k])[b] == 2 else multiset(src[s..k])[b] == multiset(src[s..k])[e]
  }

  ghost predicate FirstEven(src: Text, s: nat, k: nat, b: char, e: char) {
    Even(src, s, k, b, e) && forall j :: s < j < k ==> !Even(src, s, j, b, e)
  }

  /** The text of the capture stands here again. */
  predicate Repeats(src: Text, s: nat, c: Cap) {
    && c.len >= 0 && c.init + c.len <= |src| && s + c.len <= |src|
    && forall j :: c.init <= j < c.init + c.len ==> src[j] == src[s + (j - c.init)]
  }

  /** The capture that was opened last and is not closed */
  predicate InnermostOpen(caps: seq<Cap>, l: int) {
    0 <= l < |caps| && caps[l].len == UNFINISHED && forall j :: l < j < |caps| ==> caps[j].len != UNFINISHED
  }

  /** The next `n` characters fit. */
  predicate AllFit(src: Text, s: nat, n: nat, one: One) {
    forall i: nat :: s <= i < s + n ==> FitsAt(src, i, one)
  }

  ghost function TakePart(src: Text, part: Part, s: nat, caps: seq<Cap>, n: nat): Move {
    match part
    case Chars(one, times) =>
      if Admits(times, n) && AllFit(src, s, n, one) then Go(s + n, caps) else Stuck
    case _ => if n == 1 then TakeSign(src, part, s, caps) else Stuck
  }

  ghost function TakeSign(src: Text, part: Part, s: nat, caps: seq<Cap>): Move
    requires !part.Chars?
  {
    match part
    case OpenCapture => if |caps| < 32 then Go(s, caps + [Cap(s, UNFINISHED)]) else Raise
    case Position => if |caps| < 32 then Go(s, caps + [Cap(s, POSITION)]) else Raise
    case CloseCapture =>
      if l :| InnermostOpen(caps, l) then Go(s, caps[l := Cap(caps[l].init, s - caps[l].init)]) else Raise
    case Balanced(b, e) => if k :| FirstEven(src, s, k, b, e) then Go(k, caps) else Stuck
    case Border(cs) => if OnBorder(src, s, cs) then Go(s, caps) else Stuck
    case Again(digit) =>
      var l := digit as int - '1' as int;
      if l < 0 || l >= |caps| || caps[l].len == UNFINISHED then Raise
      else if Repeats(src, s, caps[l]) then Go(s + caps[l].len, caps) else Stuck
    case EndOfText => if s == |src| then Go(s, caps) else Stuck
    case Broken(_) => Raise
  }

  // ----- the matcher takes items as parts -----

  /** How many more opening than closing characters there are, or that the only character has been seen once */
  predicate Excess(src: Text, s: nat, q: nat, b: char, e: char, cont: nat) {
    && s < q <= |src| && src[s] == b
    && if b == e then multiset(src[s..q])[b] == 1 && cont == 1
       else multiset(src[s..q])[b] == multiset(src[s..q])[e] + cont
  }

  lemma OneMore(src: Text, s: nat, q: nat, c: char)
    requires s <= q < |src|
    ensures multiset(src[s..q + 1])[c] == multiset(src[s..q])[c] + (if src[q] == c then 1 else 0)
  {
    assert src[s..q + 1] == src[s..q] + [src[q]];
  }

  lemma {:induction false} BalanceScan(src: Text, s: nat, q: nat, b: char, e: char, cont: nat)
    requires cont > 0 && Excess(src, s, q, b, e, cont) && forall j :: s < j <= q ==> !Even(src, s, j, b, e)
    ensures match BalanceEnd(src, q, b, e, cont)
            case None => forall k :: !FirstEven(src, s, k, b, e)
            case Some(k) => FirstEven(src, s, k, b, e)
    decreases |src| - q
  {
    hide Even, Excess;
    if q < |src| {
      ExcessStep(src, s, q, b, e, cont);
      if src[q] == e {
        if cont > 1 { BalanceScan(src, s, q + 1, b, e, cont - 1); }
      } else {
        BalanceScan(src, s, q + 1, b, e, if src[q] == b then cont + 1 else cont);
      }
    } else {
      forall k ensures !FirstEven(src, s, k, b, e) { EvenBefore(src, s, k, b, e); }
    }
  }

  lemma EvenBefore(src: Text, s: nat, k: nat, b: char, e: char)
    ensures Even(src, s, k, b, e) ==> s < k <= |src|
  {
  }

  lemma ExcessStep(src: Text, s: nat, q: nat, b: char, e: char, cont: nat)
    requires cont > 0 && Excess(src, s, q, b, e, cont) && q < |src|
    ensures src[q] == e && cont == 1 ==> Even(src, s, q + 1, b, e)
    ensures src[q] == e && cont > 1 ==> Excess(src, s, q + 1, b, e, cont - 1) && !Even(src, s, q + 1, b, e)
    ensures src[q] != e ==>
      Excess(src, s, q + 1, b, e, if src[q] == b then cont + 1 else cont) && !Even(src, s, q + 1, b, e)
  {
    OneMore(src, s, q, b);
    OneMore(src, s, q, e);
  }

  /** The scan ends at the first place where the characters are even. */
  lemma BalanceMeans(src: Text, s: nat, b: char, e: char)
    ensures match MatchBalance(src, s, b, e)
            case None => forall k :: !FirstEven(src, s, k, b, e)
            case Some(k) => FirstEven(src, s, k, b, e) && forall j :: FirstEven(src, s, j, b, e) ==> j == k
  {
    if s < |src| && src[s] == b {
      assert src[s..s + 1] == [b];
      assert Excess(src, s, s + 1, b, e, 1) && !Even(src, s, s + 1, b, e);
      BalanceScan(src, s, s + 1, b, e, 1);
    }
  }

  lemma CaptureMeans(src: Text, s: nat, c: Cap)
    ensures CaptureEnd(src, s, c) == if Repeats(src, s, c) then Some(s + c.len) else None
  {
    if c.len >= 0 && s + c.len <= |src| && c.init + c.len <= |src| {
      var a, t := src[c.init..c.init + c.len], src[s..s + c.len];
      if Repeats(src, s, c) {
        forall i | 0 <= i < c.len ensures a[i] == t[i] { assert src[c.init + i] == src[s + (c.init + i - c.init)]; }
        assert a == t;
      } else {
        var j :| c.init <= j < c.init + c.len && src[j] != src[s + (j - c.init)];
        assert a[j - c.init] != t[j - c.init];
      }
    }
  }

  lemma TakeSame(src: Text, pat: Text, item: Item, part: Part, s: nat, caps: seq<Cap>, n: nat)
    requires Says(pat, item, part)
    ensures Take(src, pat, item, s, caps, n) == TakePart(src, part, s, caps, n)
  {
    hide Even, Repeats, InListed, MatchBalance, CaptureEnd, AtFrontier, OnBorder, AllFit, Run, SaysOne, Allows, Admits;
    match part
    case Chars(one, times) =>
      RunSame(src, pat, item.p, item.ep, one, s, n);
      AdmitsSame(times, n);
    case Balanced(b, e) => BalanceMeans(src, s, b, e);
    case Again(digit) =>
      var l := digit as int - '1' as int;
      if 0 <= l < |caps| { CaptureMeans(src, s, caps[l]); }
    case CloseCapture =>
      var l := ToClose(caps);
      if l >= 0 { assert InnermostOpen(caps, l); }
    case _ =>
  }

  lemma AdmitsSame(t: Times, n: nat)
    ensures Allows(RepFor(t), n) <==> Admits(t, n)
  {
  }

  lemma RunSame(src: Text, pat: Text, p: nat, ep: nat, one: One, s: nat, n: nat)
    requires SaysOne(pat, p, ep, one)
    ensures Run(src, pat, s, p, ep, n) <==> AllFit(src, s, n, one)
  {
    hide Single, FitsAt;
    if Run(src, pat, s, p, ep, n) {
      forall i: nat | s <= i < s + n ensures FitsAt(src, i, one) { assert Single(src, pat, i, p, ep); }
    }
  }

  // ----- ways through the parts -----

  /** The outcome of going through the parts, each taken so often */
  ghost function PartsWay(src: Text, parts: seq<Part>, s: nat, caps: seq<Cap>, ns: seq<nat>): Outcome
    decreases |parts|
  {
    if parts == [] then (if ns == [] then Found(s, caps) else NoMatch)
    else if ns == [] then NoMatch
    else
      match TakePart(src, parts[0], s, caps, ns[0])
      case Stuck => NoMatch
      case Raise => if |ns| == 1 then Error else NoMatch
      case Go(s', caps') => PartsWay(src, parts[1..], s', caps', ns[1..])
  }

  /** The first part that is taken differently decides: more repetitions are better unless as few as possible are
      asked for. */
  ghost predicate Better(parts: seq<Part>, a: seq<nat>, b: seq<nat>) {
    exists i: nat :: BetterAt(parts, a, b, i)
  }

  predicate BetterAt(parts: seq<Part>, a: seq<nat>, b: seq<nat>, i: nat) {
    && i < |a| && i < |b| && i < |parts| && (forall j :: 0 <= j < i ==> a[j] == b[j])
    && if parts[i].Chars? && parts[i].times == AsFewTimes then a[i] < b[i] else a[i] > b[i]
  }

  ghost predicate BestParts(src: Text, parts: seq<Part>, s: nat, caps: seq<Cap>, ns: seq<nat>, r: Outcome) {
    && PartsWay(src, parts, s, caps, ns) == r
    && forall ns' :: PartsWay(src, parts, s, caps, ns') != NoMatch ==> ns' == ns || Better(parts, ns, ns')
  }

  /** The outcome is that of the best way through the parts. */
  ghost predicate PartsMeaning(src: Text, parts: seq<Part>, s: nat, caps: seq<Cap>, r: Outcome) {
    if r == NoMatch then forall ns :: PartsWay(src, parts, s, caps, ns) == NoMatch
    else exists ns :: BestParts(src, parts, s, caps, ns, r)
  }

  ghost predicate SaysAll(pat: Text, items: seq<Item>, parts: seq<Part>) {
    |items| == |parts| && forall i :: 0 <= i < |parts| ==> Says(pat, items[i], parts[i])
  }

  lemma {:induction false} WaySame(src: Text, pat: Text, items: seq<Item>, parts: seq<Part>, s: nat, caps: seq<Cap>,
                                   ns: seq<nat>)
    requires SaysAll(pat, items, parts)
    ensures Way(src, pat, items, s, caps, ns) == PartsWay(src, parts, s, caps, ns)
    decreases |parts|
  {
    hide Says, Take, TakePart;
    if parts != [] && ns != [] {
      TakeSame(src, pat, items[0], parts[0], s, caps, ns[0]);
      var m := TakePart(src, parts[0], s, caps, ns[0]);
      if m.Go? { WaySame(src, pat, items[1..], parts[1..], m.s, m.caps, ns[1..]); }
    }
  }

  lemma {:induction false} PreferredSame(pat: Text, items: seq<Item>, parts: seq<Part>, a: seq<nat>, b: seq<nat>)
    requires SaysAll(pat, items, parts)
    ensures Preferred(items, a, b) <==> Better(parts, a, b)
    decreases |parts|
  {
    if parts != [] && a != [] && b != [] {
      assert Says(pat, items[0], parts[0]);
      MinusSame(pat, items[0], parts[0]);
      if a[0] == b[0] {
        hide Says;
        PreferredSame(pat, items[1..], parts[1..], a[1..], b[1..]);
        BetterRest(parts, a, b);
      } else {
        BetterNow(parts, a, b);
      }
    }
  }

  lemma MinusSame(pat: Text, item: Item, part: Part)
    requires Says(pat, item, part)
    ensures (item.Chars? && item.rep == Minus) <==> (part.Chars? && part.times == AsFewTimes)
  {
  }

  lemma BetterRest(parts: seq<Part>, a: seq<nat>, b: seq<nat>)
    requires parts != [] && a != [] && b != [] && a[0] == b[0]
    ensures Better(parts, a, b) <==> Better(parts[1..], a[1..], b[1..])
  {
    if Better(parts, a, b) {
      var i: nat :| BetterAt(parts, a, b, i);
      assert i > 0;
      assert BetterAt(parts[1..], a[1..], b[1..], i - 1);
    }
    if Better(parts[1..], a[1..], b[1..]) {
      var i: nat :| BetterAt(parts[1..], a[1..], b[1..], i);
      forall j | 0 <= j < i + 1 ensures a[j] == b[j] {
        if j > 0 { assert a[1..][j - 1] == b[1..][j - 1]; }
      }
      assert BetterAt(parts, a, b, i + 1);
    }
  }

  lemma BetterNow(parts: seq<Part>, a: seq<nat>, b: seq<nat>)
    requires parts != [] && a != [] && b != [] && a[0] != b[0]
    ensures Better(parts, a, b) <==> BetterAt(parts, a, b, 0)
  {
    if Better(parts, a, b) {
      var i: nat :| BetterAt(parts, a, b, i);
    }
  }

  lemma MeaningSame(src: Text, pat: Text, items: seq<Item>, parts: seq<Part>, s: nat, caps: seq<Cap>, r: Outcome)
    requires SaysAll(pat, items, parts)
    ensures Meaning(src, pat, items, s, caps, r) <==> PartsMeaning(src, parts, s, caps, r)
  {
    hide SaysAll, Way, PartsWay, Preferred, Better;
    forall ns ensures Way(src, pat, items, s, caps, ns) == PartsWay(src, parts, s, caps, ns) {
      WaySame(src, pat, items, parts, s, caps, ns);
    }
    forall a, b ensures Preferred(items, a, b) <==> Better(parts, a, b) {
      PreferredSame(pat, items, parts, a, b);
    }
    forall ns ensures BestWay(src, pat, items, s, caps, ns, r) <==> BestParts(src, parts, s, caps, ns, r) {
    }
  }

  // ----- the text of the parts -----

  lemma PartStart(part: Part)
    requires PartOk(part)
    ensures var t := PartText(part);
      t != [] && t[0] !in "?*+-" && t[0] != '^' && (t[0] == ')' <==> part == CloseCapture)
  {
    assert "^$()%.[]*+-?"[0] == '^' && "^$()%.[]*+-?"[3] == ')';
  }

  /** The items behind a position are those of the parts whose text stands there. */
  lemma {:induction false} ItemsMean(pat: Text, p: nat, parts: seq<Part>)
    requires PartsOk(parts) && Stands(pat, p, PartsText(parts)) && |pat| == p + |PartsText(parts)|
    ensures SaysAll(pat, Items(pat, p), parts)
    decreases |parts|
  {
    hide PartText, Says, PartOk, ItemAt;
    if parts != [] {
      var q := p + |PartText(parts[0])|;
      AtSplit(pat, p, PartText(parts[0]), PartsText(parts[1..]));
      assert PartOk(parts[0]);
      WhatFollows(pat, p, parts);
      PartMeans(pat, p, parts[0]);
      if parts[0].Broken? {
        BrokenItem(pat, p, parts[0]);
      } else {
        ItemsMean(pat, q, parts[1..]);
        ItemsSplit(pat, p);
      }
    }
  }

  lemma BrokenItem(pat: Text, p: nat, part: Part)
    requires p < |pat| && part.Broken? && Says(pat, ItemAt(pat, p).0, part)
    ensures Items(pat, p) == [Malformed]
  {
  }

  lemma WhatFollows(pat: Text, p: nat, parts: seq<Part>)
    requires PartsOk(parts) && parts != [] && Stands(pat, p, PartsText(parts)) && |pat| == p + |PartsText(parts)|
    ensures Followed(pat, p + |PartText(parts[0])|, parts[0])
  {
    hide PartText, PartOk, Stands;
    AtSplit(pat, p, PartText(parts[0]), PartsText(parts[1..]));
    var q := p + |PartText(parts[0])|;
    if parts[1..] != [] {
      assert PartOk(parts[1]) && parts[1..][0] == parts[1];
      PartStart(parts[1]);
      AtChar(pat, q, PartsText(parts[1..]), 0);
    }
  }

  /** The text of a pattern; `^` in front binds it to the place where the search begins. */
  function PatternText(anchored: bool, parts: seq<Part>): Text {
    (if anchored then "^" else "") + PartsText(parts)
  }

  lemma TextStarts(anchored: bool, parts: seq<Part>)
    requires PartsOk(parts)
    ensures Anchored(PatternText(anchored, parts)) == anchored
  {
    if !anchored && parts != [] {
      assert PartOk(parts[0]);
      PartStart(parts[0]);
    }
  }

  /** The items of the text are those of the parts. */
  lemma TextItems(anchored: bool, parts: seq<Part>)
    requires PartsOk(parts)
    ensures var pat := PatternText(anchored, parts); SaysAll(pat, Items(pat, Start(pat)), parts)
  {
    hide PartsOk, SaysAll;
    TextStarts(anchored, parts);
    var pat := PatternText(anchored, parts);
    assert pat[Start(pat)..] == PartsText(parts);
    ItemsMean(pat, Start(pat), parts);
  }

  /** The matcher, given the text of the parts, returns the outcome of the best way through the parts. */
  lemma MatchText(src: Text, anchored: bool, parts: seq<Part>, s: nat)
    requires PartsOk(parts)
    ensures var pat := PatternText(anchored, parts); PartsMeaning(src, parts, s, [], Match(src, pat, s, Start(pat), []))
  {
    hide PartsOk, SaysAll, Meaning, PartsMeaning, Match, Items;
    var pat := PatternText(anchored, parts);
    TextItems(anchored, parts);
    MatchMeans(src, pat, s, Start(pat), []);
    MeaningSame(src, pat, Items(pat, Start(pat)), parts, s, [], Match(src, pat, s, Start(pat), []));
  }

  // ----- the search -----

  /** Nothing matches at the places before `k`, and there the outcome is `r`. */
  ghost predicate FirstPlaceOf(src: Text, parts: seq<Part>, init: nat, k: nat, r: Outcome) {
    && PartsMeaning(src, parts, k, [], r)
    && forall j :: init <= j < k ==> PartsMeaning(src, parts, j, [], NoMatch)
  }

  /** What a search for the parts finds: the first place with a match or an error, at `init` only when it is
      anchored. */
  ghost predicate FindsParts(src: Text, anchored: bool, parts: seq<Part>, init: nat, f: Finding) {
    var last := if anchored then init else |src|;
    match f
    case Nowhere => forall k :: init <= k <= last ==> PartsMeaning(src, parts, k, [], NoMatch)
    case Raised => exists k :: init <= k <= last && FirstPlaceOf(src, parts, init, k, Error)
    case At(k, end, caps) => init <= k <= last && FirstPlaceOf(src, parts, init, k, Found(end, caps))
  }

  /** The search with the text finds what the parts say. */
  lemma SearchText(src: Text, anchored: bool, parts: seq<Part>, init: nat, f: Finding)
    requires PartsOk(parts)
    ensures Finds(src, PatternText(anchored, parts), init, f) <==> FindsParts(src, anchored, parts, init, f)
  {
    hide PartsOk, FirstAt, FirstPlaceOf, PartsMeaning, NoWay, PatternText, Items;
    var pat := PatternText(anchored, parts);
    TextStarts(anchored, parts);
    forall k: nat, r ensures FirstAt(src, pat, Start(pat), init, k, r) <==> FirstPlaceOf(src, parts, init, k, r) {
      FirstSame(src, anchored, parts, init, k, r);
    }
    forall k: nat ensures NoWay(src, pat, Items(pat, Start(pat)), k, []) <==> PartsMeaning(src, parts, k, [], NoMatch) {
      PlaceSame(src, anchored, parts, k, NoMatch);
    }
    match f
    case Nowhere =>
    case Raised =>
      if Finds(src, pat, init, f) {
        var k :| init <= k <= Last(src, pat, init) && FirstAt(src, pat, Start(pat), init, k, Error);
        assert FirstPlaceOf(src, parts, init, k, Error);
      }
      if FindsParts(src, anchored, parts, init, f) {
        var k :| init <= k <= Last(src, pat, init) && FirstPlaceOf(src, parts, init, k, Error);
        assert FirstAt(src, pat, Start(pat), init, k, Error);
      }
    case At(_, _, _) =>
  }

  /** At one place */
  lemma PlaceSame(src: Text, anchored: bool, parts: seq<Part>, k: nat, r: Outcome)
    requires PartsOk(parts)
    ensures var pat := PatternText(anchored, parts);
      && (Meaning(src, pat, Items(pat, Start(pat)), k, [], r) <==> PartsMeaning(src, parts, k, [], r))
      && (NoWay(src, pat, Items(pat, Start(pat)), k, []) <==> PartsMeaning(src, parts, k, [], NoMatch))
  {
    hide PartsOk, SaysAll, Meaning, PartsMeaning, Items, PatternText, NoWay;
    var pat := PatternText(anchored, parts);
    TextItems(anchored, parts);
    MeaningSame(src, pat, Items(pat, Start(pat)), parts, k, [], r);
    MeaningSame(src, pat, Items(pat, Start(pat)), parts, k, [], NoMatch);
    NoWayMeaning(src, pat, k);
  }

  lemma FirstSame(src: Text, anchored: bool, parts: seq<Part>, init: nat, k: nat, r: Outcome)
    requires PartsOk(parts)
    ensures FirstAt(src, PatternText(anchored, parts), Start(PatternText(anchored, parts)), init, k, r)
      <==> FirstPlaceOf(src, parts, init, k, r)
  {
    hide PartsOk, Meaning, PartsMeaning, Items, PatternText, NoWay, Start;
    var pat := PatternText(anchored, parts);
    PlaceSame(src, anchored, parts, k, r);
    forall j: nat ensures NoWay(src, pat, Items(pat, Start(pat)), j, []) <==> PartsMeaning(src, parts, j, [], NoMatch) {
      PlaceSame(src, anchored, parts, j, NoMatch);
    }
  }

  lemma NoWayMeaning(src: Text, pat: Text, k: nat)
    ensures NoWay(src, pat, Items(pat, Start(pat)), k, []) <==>
        Meaning(src, pat, Items(pat, Start(pat)), k, [], NoMatch)
  {
    hide Items, Way;
  }

  /** In a text of one character only, `*` goes to the end and `-` takes nothing. */
  lemma LongestAndShortest(src: Text, c: char)
    requires OneOk(Literal(c, false)) && forall i :: 0 <= i < |src| ==> src[i] == c
    ensures Finds(src, [c, '*'], 0, At(0, |src|, [])) && Finds(src, [c, '-'], 0, At(0, 0, []))
  {
    hide Finds, FindsParts, PartsOk;
    var one := Literal(c, false);
    OnePart(one, AnyTimes);
    OnePart(one, AsFewTimes);
    assert OneText(one) + TimesText(AnyTimes) == [c, '*'] && OneText(one) + TimesText(AsFewTimes) == [c, '-'];
    OnlyPart(src, one, AnyTimes, |src|);
    OnlyPart(src, one, AsFewTimes, 0);
    FoundFirst(src, Part.Chars(one, AnyTimes), |src|);
    FoundFirst(src, Part.Chars(one, AsFewTimes), 0);
    SearchText(src, false, [Part.Chars(one, AnyTimes)], 0, At(0, |src|, []));
    SearchText(src, false, [Part.Chars(one, AsFewTimes)], 0, At(0, 0, []));
  }

  lemma OnePart(one: One, times: Times)
    requires OneOk(one)
    ensures PartsOk([Part.Chars(one, times)])
    ensures PatternText(false, [Part.Chars(one, times)]) == OneText(one) + TimesText(times)
  {
    var parts := [Part.Chars(one, times)];
    assert parts[1..] == [] && PartsText(parts[1..]) == [];
  }

  lemma FoundFirst(src: Text, part: Part, n: nat)
    requires PartsMeaning(src, [part], 0, [], Found(n, []))
    ensures FindsParts(src, false, [part], 0, At(0, n, []))
  {
    hide PartsMeaning;
  }

  lemma OnlyPart(src: Text, one: One, times: Times, n: nat)
    requires (times == AnyTimes && n == |src|) || (times == AsFewTimes && n == 0)
    requires forall i :: 0 <= i < |src| ==> Fits(src[i], one)
    ensures PartsMeaning(src, [Part.Chars(one, times)], 0, [], Found(n, []))
  {
    var parts := [Part.Chars(one, times)];
    assert AllFit(src, 0, n, one);
    assert PartsWay(src, parts, 0, [], [n]) == Found(n, []) by { assert parts[1..] == [] && [n][1..] == []; }
    forall ns | PartsWay(src, parts, 0, [], ns) != NoMatch
      ensures ns == [n] || Better(parts, [n], ns)
    {
      OneWay(src, parts[0], ns);
      assert AllFit(src, 0, ns[0], one);
      assert ns[0] > |src| ==> !FitsAt(src, |src|, one);
      if ns[0] == n { assert ns == [n]; } else { BetterNow(parts, [n], ns); }
    }
    assert BestParts(src, parts, 0, [], [n], Found(n, []));
  }

  lemma OneWay(src: Text, part: Part, ns: seq<nat>)
    ensures PartsWay(src, [part], 0, [], ns) != NoMatch ==> |ns| == 1
  {
    hide TakePart;
    var parts := [part];
    assert parts[1..] == [];
    if ns != [] {
      var m := TakePart(src, part, 0, [], ns[0]);
      if m.Go? {
        assert PartsWay(src, parts, 0, [], ns) == PartsWay(src, parts[1..], m.s, m.caps, ns[1..]);
        assert ns[1..] != [] ==> PartsWay(src, parts[1..], m.s, m.caps, ns[1..]) == NoMatch;
      }
    }
  }
}

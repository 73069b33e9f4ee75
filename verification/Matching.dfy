/** What a match means: the outcome of the most preferred way to go through the items of the pattern. */
module Matching {
  import opened Patterns

  /** The items from a position on; nothing follows a malformed one. */
  function Items(pat: Text, p: nat): seq<Item>
    decreases |pat| - p
  {
    if p >= |pat| then []
    else
      var (item, next) := ItemAt(pat, p);
      if item == Malformed then [item] else [item] + Items(pat, next)
  }

  // ----- one way through the pattern -----

  datatype Move = Stuck | Raise | Go(s: nat, caps: seq<Cap>)

  predicate Run(src: Text, pat: Text, s: nat, p: nat, ep: nat, n: nat) {
    forall i :: s <= i < s + n ==> Single(src, pat, i, p, ep)
  }

  /** How many repetitions an item allows. */
  predicate Allows(rep: Rep, n: nat) {
    match rep
    case One => n == 1
    case Opt => n <= 1
    case Star => true
    case Plus => n >= 1
    case Minus => true
  }

  /** An item taken `n` times; items that are not repeated are taken once. */
  function Take(src: Text, pat: Text, item: Item, s: nat, caps: seq<Cap>, n: nat): Move {
    match item
    case Chars(p, ep, rep) => if Allows(rep, n) && Run(src, pat, s, p, ep, n) then Go(s + n, caps) else Stuck
    case _ => if n != 1 then Stuck else TakeOnce(src, pat, item, s, caps)
  }

  function TakeOnce(src: Text, pat: Text, item: Item, s: nat, caps: seq<Cap>): Move
    requires !item.Chars?
  {
    match item
    case Malformed => Raise
    case Open(what) => if |caps| >= MAXCAPTURES then Raise else Go(s, caps + [Cap(s, what)])
    case Close => var l := ToClose(caps); if l < 0 then Raise else Go(s, caps[l := Cap(caps[l].init, s - caps[l].init)])
    case End => if s == |src| then Go(s, caps) else Stuck
    case Balance(b, e) => (match MatchBalance(src, s, b, e) case None => Stuck case Some(s') => Go(s', caps))
    case Frontier(q, ep) => if AtFrontier(src, pat, s, q, ep) then Go(s, caps) else Stuck
    case BackRef(l) =>
      if BadRef(l, caps) then Raise
          else (match CaptureEnd(src, s, caps[l]) case None => Stuck case Some(s') => Go(s', caps))
  }

  /** The outcome of a way: how often each item is taken, until the pattern or an error ends it. */
  function Way(src: Text, pat: Text, items: seq<Item>, s: nat, caps: seq<Cap>, ns: seq<nat>): Outcome
    decreases |items|
  {
    if items == [] then (if ns == [] then Found(s, caps) else NoMatch)
    else if ns == [] then NoMatch
    else
      match Take(src, pat, items[0], s, caps, ns[0])
      case Stuck => NoMatch
      case Raise => if |ns| == 1 then Error else NoMatch
      case Go(s', caps') => Way(src, pat, items[1..], s', caps', ns[1..])
  }

  /** The first item that is taken differently decides: only `-` prefers fewer repetitions. */
  predicate Preferred(items: seq<Item>, a: seq<nat>, b: seq<nat>)
    decreases |a|
  {
    a != [] && b != [] && items != [] &&
    if a[0] == b[0] then Preferred(items[1..], a[1..], b[1..])
    else if items[0].Chars? && items[0].rep == Minus then a[0] < b[0]
    else a[0] > b[0]
  }

  /** `ns` leads to the outcome, and every other way that leads anywhere is less preferred. */
  ghost predicate BestWay(src: Text, pat: Text, items: seq<Item>, s: nat, caps: seq<Cap>, ns: seq<nat>, r: Outcome) {
    && Way(src, pat, items, s, caps, ns) == r
    && forall ns' :: Way(src, pat, items, s, caps, ns') != NoMatch ==> ns' == ns || Preferred(items, ns, ns')
  }

  ghost predicate NoWay(src: Text, pat: Text, items: seq<Item>, s: nat, caps: seq<Cap>) {
    forall ns :: Way(src, pat, items, s, caps, ns) == NoMatch
  }

  /** The meaning of a match. */
  ghost predicate Meaning(src: Text, pat: Text, items: seq<Item>, s: nat, caps: seq<Cap>, r: Outcome) {
    if r == NoMatch then NoWay(src, pat, items, s, caps) else exists ns :: BestWay(src, pat, items, s, caps, ns, r)
  }

  // ----- items that are taken once -----

  lemma OnceMeaning(src: Text, pat: Text, items: seq<Item>, s: nat, caps: seq<Cap>, r: Outcome)
    requires items != [] && (!items[0].Chars? || items[0].rep == One)
    requires match Take(src, pat, items[0], s, caps, 1)
             case Stuck => r == NoMatch
             case Raise => r == Error
             case Go(s', caps') => Meaning(src, pat, items[1..], s', caps', r)
    ensures Meaning(src, pat, items, s, caps, r)
  {
    match Take(src, pat, items[0], s, caps, 1)
    case Stuck =>
      forall ns ensures Way(src, pat, items, s, caps, ns) == NoMatch { OnlyOnce(src, pat, items, s, caps, ns); }
    case Raise =>
      assert Way(src, pat, items, s, caps, [1]) == Error;
      forall ns | Way(src, pat, items, s, caps, ns) != NoMatch
        ensures ns == [1]
      {
        OnlyOnce(src, pat, items, s, caps, ns);
      }
      assert BestWay(src, pat, items, s, caps, [1], r);
    case Go(s', caps') =>
      if r == NoMatch {
        forall ns ensures Way(src, pat, items, s, caps, ns) == NoMatch { OnlyOnce(src, pat, items, s, caps, ns); }
      } else {
        var ns :| BestWay(src, pat, items[1..], s', caps', ns, r);
        ExtendBest(src, pat, items, s, caps, 1, ns, r);
      }
  }

  lemma OnlyOnce(src: Text, pat: Text, items: seq<Item>, s: nat, caps: seq<Cap>, ns: seq<nat>)
    requires items != [] && (!items[0].Chars? || items[0].rep == One)
    ensures Way(src, pat, items, s, caps, ns) != NoMatch ==> ns != [] && ns[0] == 1
  {
  }

  /** A best way for the rest, after `n` repetitions that no other successful number beats. */
  lemma ExtendBest(src: Text, pat: Text, items: seq<Item>, s: nat, caps: seq<Cap>, n: nat, rest: seq<nat>, r: Outcome)
    requires items != [] && Take(src, pat, items[0], s, caps, n).Go? && r != NoMatch
    requires var m := Take(src, pat, items[0], s, caps, n); BestWay(src, pat, items[1..], m.s, m.caps, rest, r)
    requires forall ns' :: Way(src, pat, items, s, caps, ns') != NoMatch && ns' != [] ==>
               ns'[0] == n || (if items[0].Chars? && items[0].rep == Minus then n < ns'[0] else n > ns'[0])
    ensures exists ns :: BestWay(src, pat, items, s, caps, ns, r)
  {
    var ns := [n] + rest;
    assert ns[1..] == rest;
    forall ns' | Way(src, pat, items, s, caps, ns') != NoMatch
      ensures ns' == ns || Preferred(items, ns, ns')
    {
      if ns'[0] == n {
        assert Way(src, pat, items[1..], Take(src, pat, items[0], s, caps, n).s,
            Take(src, pat, items[0], s, caps, n).caps, ns'[1..]) != NoMatch;
        assert ns' == [n] + ns'[1..];
      }
    }
    assert BestWay(src, pat, items, s, caps, ns, r);
  }

  // ----- repeated items -----

  /** After `n` repetitions the rest does not match. */
  ghost predicate DeadEnd(src: Text, pat: Text, items: seq<Item>, s: nat, caps: seq<Cap>, n: nat)
    requires items != []
  {
    var m := Take(src, pat, items[0], s, caps, n);
    m == Stuck || (m.Go? && NoWay(src, pat, items[1..], m.s, m.caps))
  }

  lemma NotThere(src: Text, pat: Text, items: seq<Item>, s: nat, caps: seq<Cap>, n: nat, ns: seq<nat>)
    requires items != [] && DeadEnd(src, pat, items, s, caps, n) && ns != [] && ns[0] == n
    ensures Way(src, pat, items, s, caps, ns) == NoMatch
  {
  }

  lemma AllDead(src: Text, pat: Text, items: seq<Item>, s: nat, caps: seq<Cap>)
    requires items != [] && forall n: nat :: DeadEnd(src, pat, items, s, caps, n)
    ensures NoWay(src, pat, items, s, caps)
  {
    forall ns
      ensures Way(src, pat, items, s, caps, ns) == NoMatch
    {
      if ns != [] { NotThere(src, pat, items, s, caps, ns[0], ns); }
    }
  }

  /** The number that decides is `n`: nothing better leads anywhere. */
  lemma Decided(src: Text, pat: Text, items: seq<Item>, s: nat, caps: seq<Cap>, n: nat, r: Outcome)
    requires items != [] && items[0].Chars? && Take(src, pat, items[0], s, caps, n) == Go(s + n, caps) && r != NoMatch
    requires Meaning(src, pat, items[1..], s + n, caps, r)
    requires forall m: nat :: (if items[0].rep == Minus then m < n else m > n) ==> DeadEnd(src, pat, items, s, caps, m)
    ensures Meaning(src, pat, items, s, caps, r)
  {
    var rest :| BestWay(src, pat, items[1..], s + n, caps, rest, r);
    forall ns' | Way(src, pat, items, s, caps, ns') != NoMatch && ns' != []
      ensures ns'[0] == n || (if items[0].rep == Minus then n < ns'[0] else n > ns'[0])
    {
      if if items[0].rep == Minus then ns'[0] < n else ns'[0] > n { NotThere(src, pat, items, s, caps, ns'[0], ns'); }
    }
    ExtendBest(src, pat, items, s, caps, n, rest, r);
  }

  lemma LongestRun(src: Text, pat: Text, s: nat, p: nat, ep: nat)
    ensures Run(src, pat, s, p, ep, Longest(src, pat, s, p, ep))
    ensures forall n: nat :: n > Longest(src, pat, s, p, ep) ==> !Run(src, pat, s, p, ep, n)
  {
    var l := Longest(src, pat, s, p, ep);
    assert !Single(src, pat, s + l, p, ep);
  }

  /** The item, and the rest of the pattern behind it. */
  lemma ItemsSplit(pat: Text, p: nat)
    requires p < |pat| && ItemAt(pat, p).0 != Malformed
    ensures var (item, next) := ItemAt(pat, p);
            Items(pat, p) == [item] + Items(pat, next) && Items(pat, p)[0] == item &&
                Items(pat, p)[1..] == Items(pat, next)
  {
  }

  /** `max_expand`, at `s + base` with `i` more repetitions: more than that lead nowhere. */
  lemma {:induction false} MaxMeaning(src: Text, pat: Text, items: seq<Item>, s: nat, base: nat, next: nat,
                                      caps: seq<Cap>, i: nat)
    requires items != [] && items[0].Chars? && items[0].rep != Minus && items[1..] == Items(pat, next)
    requires forall n: nat :: base <= n <= base + i ==> Take(src, pat, items[0], s, caps, n) == Go(s + n, caps)
    requires forall n: nat :: n < base || n > base + i ==> DeadEnd(src, pat, items, s, caps, n)
    requires forall s': nat :: Meaning(src, pat, Items(pat, next), s', caps, Match(src, pat, s', next, caps))
    ensures Meaning(src, pat, items, s, caps, MaxExpand(src, pat, s + base, next, caps, i))
    decreases i
  {
    hide Meaning, Match, DeadEnd, Take;
    var r := Match(src, pat, s + base + i, next, caps);
    assert Meaning(src, pat, Items(pat, next), s + base + i, caps, r);
    if r != NoMatch {
      Decided(src, pat, items, s, caps, base + i, r);
    } else {
      DeadHere(src, pat, items, s, caps, base + i);
      if i == 0 {
        AllNo(src, pat, items, s, caps);
      } else {
        MaxMeaning(src, pat, items, s, base, next, caps, i - 1);
      }
    }
  }

  lemma AllNo(src: Text, pat: Text, items: seq<Item>, s: nat, caps: seq<Cap>)
    requires items != [] && forall n: nat :: DeadEnd(src, pat, items, s, caps, n)
    ensures Meaning(src, pat, items, s, caps, NoMatch)
  {
    AllDead(src, pat, items, s, caps);
  }

  lemma DeadHere(src: Text, pat: Text, items: seq<Item>, s: nat, caps: seq<Cap>, n: nat)
    requires items != [] && Take(src, pat, items[0], s, caps, n) == Go(s + n, caps)
    requires Meaning(src, pat, items[1..], s + n, caps, NoMatch)
    ensures DeadEnd(src, pat, items, s, caps, n)
  {
  }

  /** `min_expand` after `n` repetitions: fewer lead nowhere. */
  lemma {:induction false} MinMeaning(src: Text, pat: Text, items: seq<Item>, s: nat, n: nat, next: nat,
                                      caps: seq<Cap>, p: nat, ep: nat)
    requires items != [] && items[0] == Chars(p, ep, Minus) && items[1..] == Items(pat, next)
    requires Run(src, pat, s, p, ep, n)
    requires forall m: nat :: m < n ==> DeadEnd(src, pat, items, s, caps, m)
    requires forall s' :: s' >= s ==> Meaning(src, pat, Items(pat, next), s', caps, Match(src, pat, s', next, caps))
    ensures Meaning(src, pat, items, s, caps, MinExpand(src, pat, s + n, next, caps, p, ep))
    decreases |src| - (s + n)
  {
    hide Meaning, Match;
    var r := Match(src, pat, s + n, next, caps);
    assert Take(src, pat, items[0], s, caps, n) == Go(s + n, caps);
    assert Meaning(src, pat, Items(pat, next), s + n, caps, r);
    if r != NoMatch {
      Decided(src, pat, items, s, caps, n, r);
    } else {
      DeadHere(src, pat, items, s, caps, n);
      if Single(src, pat, s + n, p, ep) {
        MinMeaning(src, pat, items, s, n + 1, next, caps, p, ep);
      } else {
        forall m: nat
          ensures DeadEnd(src, pat, items, s, caps, m)
        {
          if m > n { assert !Run(src, pat, s, p, ep, m); }
        }
        AllNo(src, pat, items, s, caps);
      }
    }
  }

  /** A match returns the outcome of the most preferred way that leads to the end of the pattern or to an
      error, and fails exactly if there is none. */
  lemma {:induction false} MatchMeans(src: Text, pat: Text, s: nat, p: nat, caps: seq<Cap>)
    ensures Meaning(src, pat, Items(pat, p), s, caps, Match(src, pat, s, p, caps))
    decreases |pat| - p, 1
  {
    if p >= |pat| {
      EmptyMeaning(src, pat, s, caps);
    } else {
      var (item, next) := ItemAt(pat, p);
      var items := Items(pat, p);
      var r := Match(src, pat, s, p, caps);
      if item == Malformed {
        assert Take(src, pat, items[0], s, caps, 1) == Raise;
        OnceMeaning(src, pat, items, s, caps, r);
      } else {
        ItemsSplit(pat, p);
        if item.Chars? && item.rep != One {
          RepeatedMeaning(src, pat, s, p, caps);
        } else if item.End? {
          assert Items(pat, next) == [];
          if s == |src| { EmptyMeaning(src, pat, s, caps); }
          OnceMeaning(src, pat, items, s, caps, r);
        } else {
          var m := Take(src, pat, item, s, caps, 1);
          if m.Go? { MatchMeans(src, pat, m.s, next, m.caps); }
          OneStep(src, pat, s, p, caps);
          OnceMeaning(src, pat, items, s, caps, r);
        }
      }
    }
  }

  lemma EmptyMeaning(src: Text, pat: Text, s: nat, caps: seq<Cap>)
    ensures Meaning(src, pat, [], s, caps, Found(s, caps))
  {
    assert BestWay(src, pat, [], s, caps, [], Found(s, caps));
  }

  /** The matcher and one item that is not repeated. */
  lemma OneStep(src: Text, pat: Text, s: nat, p: nat, caps: seq<Cap>)
    requires p < |pat|
    requires var (item, next) := ItemAt(pat, p); item != Malformed && item != End && (!item.Chars? || item.rep == One)
    ensures var (item, next) := ItemAt(pat, p);
            var r := Match(src, pat, s, p, caps);
            match Take(src, pat, item, s, caps, 1)
            case Stuck => r == NoMatch
            case Raise => r == Error
            case Go(s', caps') => r == Match(src, pat, s', next, caps')
  {
    var (item, next) := ItemAt(pat, p);
    if item.Chars? { assert Run(src, pat, s, item.p, item.ep, 1) <==> Single(src, pat, s, item.p, item.ep); }
  }

  lemma RepeatedMeaning(src: Text, pat: Text, s: nat, p: nat, caps: seq<Cap>)
    requires p < |pat|
    requires var (item, next) := ItemAt(pat, p); item.Chars? && item.rep != One
    ensures Meaning(src, pat, Items(pat, p), s, caps, Match(src, pat, s, p, caps))
    decreases |pat| - p, 0
  {
    var (item, next) := ItemAt(pat, p);
    var items := Items(pat, p);
    ItemsSplit(pat, p);
    forall s': nat
      ensures Meaning(src, pat, Items(pat, next), s', caps, Match(src, pat, s', next, caps))
    {
      MatchMeans(src, pat, s', next, caps);
    }
    var r := Match(src, pat, s, p, caps);
    match item.rep
    case Star =>
      StarRuns(src, pat, items, s, caps, item.p, item.ep);
      MaxMeaning(src, pat, items, s, 0, next, caps, Longest(src, pat, s, item.p, item.ep));
    case Plus =>
      if Single(src, pat, s, item.p, item.ep) {
        PlusRuns(src, pat, items, s, caps, item.p, item.ep);
        MaxMeaning(src, pat, items, s, 1, next, caps, Longest(src, pat, s + 1, item.p, item.ep));
      } else {
        forall n: nat
          ensures DeadEnd(src, pat, items, s, caps, n)
        {
          assert n > 0 ==> !Run(src, pat, s, item.p, item.ep, n);
        }
        AllNo(src, pat, items, s, caps);
      }
    case Opt => OptMeaning(src, pat, items, s, next, caps, item.p, item.ep);
    case Minus => MinMeaning(src, pat, items, s, 0, next, caps, item.p, item.ep);
  }

  lemma StarRuns(src: Text, pat: Text, items: seq<Item>, s: nat, caps: seq<Cap>, p: nat, ep: nat)
    requires items != [] && items[0] == Chars(p, ep, Star)
    ensures var l := Longest(src, pat, s, p, ep);
            && (forall n: nat :: n <= l ==> Take(src, pat, items[0], s, caps, n) == Go(s + n, caps))
            && (forall n: nat :: n > l ==> DeadEnd(src, pat, items, s, caps, n))
  {
    LongestRun(src, pat, s, p, ep);
  }

  lemma PlusRuns(src: Text, pat: Text, items: seq<Item>, s: nat, caps: seq<Cap>, p: nat, ep: nat)
    requires items != [] && items[0] == Chars(p, ep, Plus) && Single(src, pat, s, p, ep)
    ensures var l := Longest(src, pat, s + 1, p, ep);
            && (forall n: nat :: 1 <= n <= 1 + l ==> Take(src, pat, items[0], s, caps, n) == Go(s + n, caps))
            && (forall n: nat :: n < 1 || n > 1 + l ==> DeadEnd(src, pat, items, s, caps, n))
  {
    var l := Longest(src, pat, s + 1, p, ep);
    LongestRun(src, pat, s + 1, p, ep);
    assert !Single(src, pat, s + 1 + l, p, ep);
    forall n: nat
      ensures 1 <= n <= 1 + l ==> Run(src, pat, s, p, ep, n)
      ensures n > 1 + l ==> !Run(src, pat, s, p, ep, n)
    {
    }
  }

  lemma OptMeaning(src: Text, pat: Text, items: seq<Item>, s: nat, next: nat, caps: seq<Cap>, p: nat, ep: nat)
    requires items != [] && items[0] == Chars(p, ep, Opt) && items[1..] == Items(pat, next)
    requires forall s': nat :: Meaning(src, pat, Items(pat, next), s', caps, Match(src, pat, s', next, caps))
    ensures Meaning(src, pat, items, s, caps,
                    if Single(src, pat, s, p, ep)
                        then OrElse(Match(src, pat, s + 1, next, caps), Match(src, pat, s, next, caps))
                    else Match(src, pat, s, next, caps))
  {
    hide Meaning, Match, DeadEnd, Take;
    OptRuns(src, pat, items, s, caps, p, ep);
    var r1, r0 := Match(src, pat, s + 1, next, caps), Match(src, pat, s, next, caps);
    assert Meaning(src, pat, Items(pat, next), s + 1, caps, r1) && Meaning(src, pat, Items(pat, next), s + 0, caps, r0);
    if Single(src, pat, s, p, ep) && r1 != NoMatch {
      Decided(src, pat, items, s, caps, 1, r1);
    } else {
      if Single(src, pat, s, p, ep) { DeadHere(src, pat, items, s, caps, 1); }
      if r0 != NoMatch {
        Decided(src, pat, items, s, caps, 0, r0);
      } else {
        DeadHere(src, pat, items, s, caps, 0);
        AllNo(src, pat, items, s, caps);
      }
    }
  }

  lemma OptRuns(src: Text, pat: Text, items: seq<Item>, s: nat, caps: seq<Cap>, p: nat, ep: nat)
    requires items != [] && items[0] == Chars(p, ep, Opt)
    ensures Take(src, pat, items[0], s, caps, 0) == Go(s + 0, caps)
    ensures if Single(src, pat, s, p, ep) then Take(src, pat, items[0], s, caps, 1) == Go(s + 1, caps)
            else DeadEnd(src, pat, items, s, caps, 1)
    ensures forall n: nat :: n > 1 ==> DeadEnd(src, pat, items, s, caps, n)
  {
    assert Run(src, pat, s, p, ep, 1) <==> Single(src, pat, s, p, ep);
  }
}

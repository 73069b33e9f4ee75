/** Patterns: their items, the characters an item stands for, and the matcher as a function. */
module Patterns {
  import opened Basics

  type Text = seq<char>

  const ESC: char := '%'
  const MAXCAPTURES: nat := 32
  const UNFINISHED: int := -1
  const POSITION: int := -2

  datatype Cap = Cap(init: nat, len: int)

  /** Strings end with a zero character that does not belong to them. */
  function CharAt(t: Text, i: nat): char {
    if i < |t| then t[i] else '\0'
  }

  // ----- character classes -----

  function Code(c: char): int { c as int }
  predicate IsLower(c: char) { 'a' <= c <= 'z' }
  predicate IsUpper(c: char) { 'A' <= c <= 'Z' }
  predicate IsDigit(c: char) { '0' <= c <= '9' }
  predicate IsAlpha(c: char) { IsLower(c) || IsUpper(c) }
  predicate IsGraph(c: char) { 33 <= Code(c) <= 126 }

  function ToLower(c: char): char {
    if IsUpper(c) then (c as int + 32) as char else c
  }

  /** `match_class`, in the C locale */
  predicate MatchClass(c: char, cl: char) {
    var r :=
      match ToLower(cl)
      case 'a' => Some(IsAlpha(c))
      case 'c' => Some(Code(c) < 32 || Code(c) == 127)
      case 'd' => Some(IsDigit(c))
      case 'g' => Some(IsGraph(c))
      case 'l' => Some(IsLower(c))
      case 'p' => Some(IsGraph(c) && !IsAlpha(c) && !IsDigit(c))
      case 's' => Some(Code(c) == 32 || 9 <= Code(c) <= 13)
      case 'u' => Some(IsUpper(c))
      case 'w' => Some(IsAlpha(c) || IsDigit(c))
      case 'x' => Some(IsDigit(c) || 'a' <= c <= 'f' || 'A' <= c <= 'F')
      case 'z' => Some(c == '\0')
      case _ => None;
    match r
    case None => cl == c
    case Some(b) => if IsLower(cl) then b else !b
  }

  /** The loop of `matchbracketclass`: whether an element of the set from `p` on is `c`; `ec` is the bracket. */
  predicate InSet(pat: Text, c: char, p: nat, ec: nat)
    decreases ec - p
  {
    if p >= ec then false
    else if CharAt(pat, p) == ESC then MatchClass(c, CharAt(pat, p + 1)) || InSet(pat, c, p + 2, ec)
    else if CharAt(pat, p + 1) == '-' && p + 2 < ec then
      CharAt(pat, p) <= c <= CharAt(pat, p + 2) || InSet(pat, c, p + 3, ec)
    else CharAt(pat, p) == c || InSet(pat, c, p + 1, ec)
  }

  /** `matchbracketclass` for the set that starts at `p` */
  predicate MatchBracket(pat: Text, c: char, p: nat, ec: nat) {
    if CharAt(pat, p + 1) == '^' then !InSet(pat, c, p + 2, ec) else InSet(pat, c, p + 1, ec)
  }

  /** `singlematch` */
  predicate Single(src: Text, pat: Text, s: nat, p: nat, ep: nat) {
    && s < |src|
    && match CharAt(pat, p)
       case '.' => true
       case '%' => MatchClass(src[s], CharAt(pat, p + 1))
       case '[' => ep > 0 && MatchBracket(pat, src[s], p, ep - 1)
       case c => c == src[s]
  }

  /** The loop of `classend` that looks for the closing bracket. */
  function SetEnd(pat: Text, p: nat): (ep: Option<nat>)
    ensures ep.Some? ==> p < ep.value <= |pat|
    decreases |pat| - p
  {
    if p >= |pat| then None
    else
      var p1 := if pat[p] == ESC && p + 1 < |pat| then p + 2 else p + 1;
      if CharAt(pat, p1) == ']' && p1 < |pat| then Some(p1 + 1) else SetEnd(pat, p1)
  }

  /** `classend` */
  function ClassEnd(pat: Text, p: nat): (ep: Option<nat>)
    requires p < |pat|
    ensures ep.Some? ==> p < ep.value <= |pat|
  {
    if pat[p] == ESC then (if p + 1 == |pat| then None else Some(p + 2))
    else if pat[p] == '[' then SetEnd(pat, if CharAt(pat, p + 1) == '^' then p + 2 else p + 1)
    else Some(p + 1)
  }

  // ----- items -----

  datatype Rep = One | Opt | Star | Plus | Minus

  /** What stands at a position of the pattern. `Malformed` raises an error when it is reached. */
  datatype Item =
    | Malformed
    | Open(what: int)
    | Close
    | End
    | Balance(b: char, e: char)
    | Frontier(p: nat, ep: nat)
    | BackRef(l: int)
    | Chars(p: nat, ep: nat, rep: Rep)

  function RepOf(c: char): Rep {
    match c
    case '?' => Opt
    case '*' => Star
    case '+' => Plus
    case '-' => Minus
    case _ => One
  }

  /** The item at a position and the position behind it. */
  function ItemAt(pat: Text, p: nat): (r: (Item, nat))
    requires p < |pat|
    ensures r.0 != Malformed ==> p < r.1 <= |pat|
  {
    var c, d := pat[p], CharAt(pat, p + 1);
    if c == '(' then (if d == ')' then (Open(POSITION), p + 2) else (Open(UNFINISHED), p + 1))
    else if c == ')' then (Close, p + 1)
    else if c == '$' && p + 1 == |pat| then (End, p + 1)
    else if c == ESC && d == 'b' then
      (if p + 3 >= |pat| then (Malformed, p) else (Balance(pat[p + 2], pat[p + 3]), p + 4))
    else if c == ESC && d == 'f' then
      (if p + 2 >= |pat| || pat[p + 2] != '[' then (Malformed, p)
       else match ClassEnd(pat, p + 2)
         case None => (Malformed, p)
         case Some(ep) => (Frontier(p + 2, ep), ep))
    else if c == ESC && IsDigit(d) then (BackRef(d as int - '1' as int), p + 2)
    else match ClassEnd(pat, p)
      case None => (Malformed, p)
      case Some(ep) =>
        var rep := RepOf(CharAt(pat, ep));
        if rep == One || ep >= |pat| then (Chars(p, ep, One), ep) else (Chars(p, ep, rep), ep + 1)
  }

  // ----- the matcher -----

  datatype Outcome = NoMatch | Error | Found(end: nat, caps: seq<Cap>)

  /** `capture_to_close`: the last unfinished capture */
  function ToClose(caps: seq<Cap>): (l: int)
    ensures -1 <= l < |caps|
    ensures l >= 0 ==> caps[l].len == UNFINISHED && forall j :: l < j < |caps| ==> caps[j].len != UNFINISHED
    ensures l == -1 ==> forall j :: 0 <= j < |caps| ==> caps[j].len != UNFINISHED
    decreases |caps|
  {
    if caps == [] then -1
    else if caps[|caps| - 1].len == UNFINISHED then |caps| - 1
    else ToClose(caps[..|caps| - 1])
  }

  /** The scan of `matchbalance`: the position behind the closing character. */
  function BalanceEnd(src: Text, s: nat, b: char, e: char, cont: nat): (r: Option<nat>)
    requires cont > 0
    ensures r.Some? ==> r.value <= |src|
    decreases |src| - s
  {
    if s >= |src| then None
    else if src[s] == e then (if cont == 1 then Some(s + 1) else BalanceEnd(src, s + 1, b, e, cont - 1))
    else if src[s] == b then BalanceEnd(src, s + 1, b, e, cont + 1)
    else BalanceEnd(src, s + 1, b, e, cont)
  }

  function MatchBalance(src: Text, s: nat, b: char, e: char): (r: Option<nat>)
    ensures r.Some? ==> r.value <= |src|
  {
    if CharAt(src, s) != b then None else BalanceEnd(src, s + 1, b, e, 1)
  }

  predicate AtFrontier(src: Text, pat: Text, s: nat, p: nat, ep: nat) {
    var previous := if s == 0 then '\0' else CharAt(src, s - 1);
    ep > 0 && !MatchBracket(pat, previous, p, ep - 1) && MatchBracket(pat, CharAt(src, s), p, ep - 1)
  }

  /** `match_capture`, for a capture that exists */
  function CaptureEnd(src: Text, s: nat, c: Cap): (r: Option<nat>)
    ensures s <= |src| && r.Some? ==> r.value <= |src|
  {
    if c.len < 0 || s + c.len > |src| || c.init + c.len > |src| then None
    else if src[c.init..c.init + c.len] == src[s..s + c.len] then Some(s + c.len) else None
  }

  predicate BadRef(l: int, caps: seq<Cap>) {
    l < 0 || l >= |caps| || caps[l].len == UNFINISHED
  }

  /** How often the characters can be matched in a row. */
  function Longest(src: Text, pat: Text, s: nat, p: nat, ep: nat): (n: nat)
    ensures s <= |src| ==> s + n <= |src|
    ensures forall i :: s <= i < s + n ==> Single(src, pat, i, p, ep)
    ensures !Single(src, pat, s + n, p, ep)
    decreases |src| - s
  {
    if Single(src, pat, s, p, ep) then 1 + Longest(src, pat, s + 1, p, ep) else 0
  }

  function OrElse(a: Outcome, b: Outcome): Outcome {
    if a == NoMatch then b else a
  }

  /** `match` */
  function Match(src: Text, pat: Text, s: nat, p: nat, caps: seq<Cap>): Outcome
    decreases |pat| - p, 1
  {
    if p >= |pat| then Found(s, caps)
    else
      var (item, next) := ItemAt(pat, p);
      match item
      case Malformed => Error
      case Open(what) => if |caps| >= MAXCAPTURES then Error else Match(src, pat, s, next, caps + [Cap(s, what)])
      case Close =>
        var l := ToClose(caps);
        if l < 0 then Error else Match(src, pat, s, next, caps[l := Cap(caps[l].init, s - caps[l].init)])
      case End => if s == |src| then Found(s, caps) else NoMatch
      case Balance(b, e) =>
        (match MatchBalance(src, s, b, e)
         case None => NoMatch
         case Some(s') => Match(src, pat, s', next, caps))
      case Frontier(q, ep) => if AtFrontier(src, pat, s, q, ep) then Match(src, pat, s, next, caps) else NoMatch
      case BackRef(l) =>
        if BadRef(l, caps) then Error
        else
          (match CaptureEnd(src, s, caps[l])
           case None => NoMatch
           case Some(s') => Match(src, pat, s', next, caps))
      case Chars(q, ep, rep) =>
        match rep
        case One => if Single(src, pat, s, q, ep) then Match(src, pat, s + 1, next, caps) else NoMatch
        case Opt =>
          if Single(src, pat, s, q, ep) then
            OrElse(Match(src, pat, s + 1, next, caps), Match(src, pat, s, next, caps))
          else Match(src, pat, s, next, caps)
        case Star => MaxExpand(src, pat, s, next, caps, Longest(src, pat, s, q, ep))
        case Plus =>
          if Single(src, pat, s, q, ep)
              then MaxExpand(src, pat, s + 1, next, caps, Longest(src, pat, s + 1, q, ep)) else NoMatch
        case Minus => MinExpand(src, pat, s, next, caps, q, ep)
  }

  /** `max_expand`: tries from `i` repetitions down. */
  function MaxExpand(src: Text, pat: Text, s: nat, next: nat, caps: seq<Cap>, i: nat): Outcome
    decreases |pat| - next, 2, i
  {
    var r := Match(src, pat, s + i, next, caps);
    if r != NoMatch || i == 0 then r else MaxExpand(src, pat, s, next, caps, i - 1)
  }

  /** `min_expand` */
  function MinExpand(src: Text, pat: Text, s: nat, next: nat, caps: seq<Cap>, q: nat, ep: nat): Outcome
    decreases |pat| - next, 2, |src| - s
  {
    var r := Match(src, pat, s, next, caps);
    if r != NoMatch then r
    else if Single(src, pat, s, q, ep) then MinExpand(src, pat, s + 1, next, caps, q, ep)
    else NoMatch
  }
}

/** The matcher as it works: captures are written in place and undone when the rest fails. */
module MatchStates {
  import opened Basics
  import opened Patterns

  /** The value of the recursive function; captures are in the state. */
  datatype Result = Fails | Raises | Ends(end: nat)

  class MatchState {
    const src: Text
    const pat: Text
    var level: nat
    var capture: array<Cap>

    constructor (src: Text, pat: Text)
      ensures Ok() && this.src == src && this.pat == pat && level == 0 && fresh(capture)
    {
      this.src, this.pat := src, pat;
      level := 0;
      capture := new Cap[MAXCAPTURES](_ => Cap(0, UNFINISHED));
    }

    ghost predicate Ok()
      reads this
    {
      capture.Length == MAXCAPTURES && level <= MAXCAPTURES
    }

    /** The captures up to the level. */
    ghost function Caps(): (c: seq<Cap>)
      reads this, capture
      requires Ok()
      ensures |c| == level
    {
      capture[..level]
    }

    /** What a call to the matcher does: on success it leaves the captures of the outcome, and on failure
        the level and all captures below it are as before. */
    ghost predicate Does(caps: seq<Cap>, o: Outcome, r: Result)
      reads this, capture
      requires Ok()
    {
      match o
      case NoMatch => r == Fails && Caps() == caps
      case Error => r == Raises
      case Found(e, caps') => r == Ends(e) && Caps() == caps'
    }

    /** `capture_to_close` */
    method CaptureToClose() returns (l: int)
      requires Ok()
      ensures l == ToClose(Caps())
    {
      l := level - 1;
      ghost var c := Caps();
      assert c[..|c|] == c;
      while l >= 0
        invariant -1 <= l < level && ToClose(c) == ToClose(c[..l + 1])
      {
        assert c[..l + 1][..l] == c[..l] && c[..l + 1][l] == capture[l];
        if capture[l].len == UNFINISHED { return l; }
        l := l - 1;
      }
    }

    /** `matchbalance` */
    method BalanceAt(s: nat, b: char, e: char) returns (r: Option<nat>)
      ensures r == MatchBalance(src, s, b, e)
    {
      if CharAt(src, s) != b { return None; }
      var cont := 1;
      var i := s + 1;
      while i < |src|
        invariant cont > 0 && BalanceEnd(src, i, b, e, cont) == BalanceEnd(src, s + 1, b, e, 1)
        decreases |src| - i
      {
        if src[i] == e {
          cont := cont - 1;
          if cont == 0 { return Some(i + 1); }
        } else if src[i] == b {
          cont := cont + 1;
        }
        i := i + 1;
      }
      return None;
    }

    /** `match` */
    method MatchAt(s: nat, p: nat) returns (r: Result)
      requires Ok()
      modifies this`level, capture
      ensures Ok() && capture == old(capture)
      ensures Does(old(Caps()), Match(src, pat, s, p, old(Caps())), r)
      decreases |pat| - p, 1
    {
      ghost var caps := Caps();
      if p >= |pat| { return Ends(s); }
      var (item, next) := ItemAt(pat, p);
      match item {
        case Malformed => return Raises;
        case Open(what) => r := StartCapture(s, next, what);
        case Close => r := EndCapture(s, next);
        case End => r := if s == |src| then Ends(s) else Fails;
        case Balance(b, e) =>
          var t := BalanceAt(s, b, e);
          if t.None? { return Fails; }
          r := MatchAt(t.value, next);
        case Frontier(q, ep) =>
          if !AtFrontier(src, pat, s, q, ep) { return Fails; }
          r := MatchAt(s, next);
        case BackRef(l) => r := MatchCapture(s, l, next);
        case Chars(q, ep, rep) => r := MatchChars(s, q, ep, rep, next);
      }
    }

    /** `start_capture` */
    method StartCapture(s: nat, next: nat, what: int) returns (r: Result)
      requires Ok() && next <= |pat|
      modifies this`level, capture
      ensures Ok() && capture == old(capture)
      ensures var caps := old(Caps());
              Does(caps, if |caps| >= MAXCAPTURES then Error else Match(src, pat, s, next, caps + [Cap(s, what)]), r)
      decreases |pat| - next, 2
    {
      if level >= MAXCAPTURES { return Raises; }
      ghost var caps := Caps();
      capture[level] := Cap(s, what);
      level := level + 1;
      assert Caps() == caps + [Cap(s, what)];
      r := MatchAt(s, next);
      if r == Fails {
        assert capture[..level] == caps + [Cap(s, what)];
        level := level - 1;
        assert Caps() == caps by { assert capture[..level + 1][..level] == capture[..level]; }
      }
    }

    /** `end_capture` */
    method EndCapture(s: nat, next: nat) returns (r: Result)
      requires Ok() && next <= |pat|
      modifies this`level, capture
      ensures Ok() && capture == old(capture)
      ensures var caps := old(Caps());
              var l := ToClose(caps);
              Does(caps, if l < 0 then Error
                  else Match(src, pat, s, next, caps[l := Cap(caps[l].init, s - caps[l].init)]), r)
      decreases |pat| - next, 2
    {
      ghost var caps := Caps();
      var l := CaptureToClose();
      if l < 0 { return Raises; }
      var init := capture[l].init;
      capture[l] := Cap(init, s - init);
      assert Caps() == caps[l := Cap(caps[l].init, s - caps[l].init)];
      r := MatchAt(s, next);
      if r == Fails {
        assert Caps()[l] == capture[l];
        capture[l] := Cap(capture[l].init, UNFINISHED);
        assert Caps() == caps;
      }
    }

    /** `match_capture` and what follows */
    method MatchCapture(s: nat, l: int, next: nat) returns (r: Result)
      requires Ok() && next <= |pat|
      modifies this`level, capture
      ensures Ok() && capture == old(capture)
      ensures var caps := old(Caps());
              var o := if BadRef(l, caps) then Error
                       else
                         (match CaptureEnd(src, s, caps[l])
                          case None => NoMatch
                          case Some(s') => Match(src, pat, s', next, caps));
              Does(caps, o, r)
      decreases |pat| - next, 2
    {
      if l < 0 || l >= level || capture[l].len == UNFINISHED { return Raises; }
      assert Caps()[l] == capture[l];
      var t := CaptureEnd(src, s, capture[l]);
      if t.None? { return Fails; }
      r := MatchAt(t.value, next);
    }

    /** A pattern class with its suffix. */
    method MatchChars(s: nat, q: nat, ep: nat, rep: Rep, next: nat) returns (r: Result)
      requires Ok() && next <= |pat|
      modifies this`level, capture
      ensures Ok() && capture == old(capture)
      ensures Does(old(Caps()), CharsOutcome(src, pat, s, q, ep, rep, next, old(Caps())), r)
      decreases |pat| - next, 3
    {
      ghost var caps := Caps();
      if !Single(src, pat, s, q, ep) {
        if rep == Star || rep == Opt || rep == Minus {
          r := MatchAt(s, next);
          NoneExpands(src, pat, s, q, ep, rep, next, caps);
          return;
        }
        return Fails;
      }
      match rep {
        case Opt =>
          r := MatchAt(s + 1, next);
          if r == Fails { r := MatchAt(s, next); }
        case Plus => r := MaxExpandAt(s + 1, q, ep, next);
        case Star => r := MaxExpandAt(s, q, ep, next);
        case Minus => r := MinExpandAt(s, q, ep, next);
        case One => r := MatchAt(s + 1, next);
      }
    }

    /** `max_expand` */
    method MaxExpandAt(s: nat, q: nat, ep: nat, next: nat) returns (r: Result)
      requires Ok() && next <= |pat|
      modifies this`level, capture
      ensures Ok() && capture == old(capture)
      ensures Does(old(Caps()), MaxExpand(src, pat, s, next, old(Caps()), Longest(src, pat, s, q, ep)), r)
      decreases |pat| - next, 2
    {
      ghost var caps := Caps();
      var i: int := 0;
      while Single(src, pat, s + i, q, ep)
        invariant i >= 0 && Longest(src, pat, s, q, ep) == i + Longest(src, pat, s + i, q, ep)
        decreases |src| - (s + i)
      {
        i := i + 1;
      }
      ghost var top := i;
      while i >= 0
        invariant -1 <= i <= top && Ok() && capture == old(capture) && Caps() == caps
        invariant i >= 0 ==> MaxExpand(src, pat, s, next, caps, i) == MaxExpand(src, pat, s, next, caps, top)
        invariant i < 0 ==> MaxExpand(src, pat, s, next, caps, top) == NoMatch
      {
        r := MatchAt(s + i, next);
        if r != Fails { return; }
        i := i - 1;
      }
      return Fails;
    }

    /** `min_expand` */
    method MinExpandAt(s: nat, q: nat, ep: nat, next: nat) returns (r: Result)
      requires Ok() && next <= |pat|
      modifies this`level, capture
      ensures Ok() && capture == old(capture)
      ensures Does(old(Caps()), MinExpand(src, pat, s, next, old(Caps()), q, ep), r)
      decreases |pat| - next, 2
    {
      ghost var caps := Caps();
      var i := s;
      while true
        invariant Ok() && capture == old(capture) && Caps() == caps
        invariant MinExpand(src, pat, i, next, caps, q, ep) == MinExpand(src, pat, s, next, caps, q, ep)
        decreases |src| - i
      {
        r := MatchAt(i, next);
        if r != Fails { return; }
        if !Single(src, pat, i, q, ep) { return; }
        i := i + 1;
      }
    }
  }

  /** The outcome for a pattern class with its suffix. */
  function CharsOutcome(src: Text, pat: Text, s: nat, q: nat, ep: nat, rep: Rep, next: nat, caps: seq<Cap>): Outcome {
    match rep
    case One => if Single(src, pat, s, q, ep) then Match(src, pat, s + 1, next, caps) else NoMatch
    case Opt =>
      if Single(src, pat, s, q, ep) then OrElse(Match(src, pat, s + 1, next, caps), Match(src, pat, s, next, caps))
      else Match(src, pat, s, next, caps)
    case Star => MaxExpand(src, pat, s, next, caps, Longest(src, pat, s, q, ep))
    case Plus =>
      if Single(src, pat, s, q, ep) then MaxExpand(src, pat, s + 1, next, caps, Longest(src, pat, s + 1, q, ep))
          else NoMatch
    case Minus => MinExpand(src, pat, s, next, caps, q, ep)
  }

  lemma NoneExpands(src: Text, pat: Text, s: nat, q: nat, ep: nat, rep: Rep, next: nat, caps: seq<Cap>)
    requires !Single(src, pat, s, q, ep) && (rep == Star || rep == Opt || rep == Minus)
    ensures CharsOutcome(src, pat, s, q, ep, rep, next, caps) == Match(src, pat, s, next, caps)
  {
  }
}

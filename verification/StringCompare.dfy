/** Comparing strings piece by piece, since the C library stops at the first zero character (`l_strcmp`). */
module StringCompare {
  import opened Values

  /** `strlen` of a string that ends with a zero character */
  function CLen(s: string): (n: nat)
    ensures n <= |s| && '\0' !in s[..n] && (n < |s| ==> s[n] == '\0')
  {
    if s == [] || s[0] == '\0' then 0
    else
      assert forall k: nat | k < |s| :: s[..k + 1] == [s[0]] + s[1..][..k];
      1 + CLen(s[1..])
  }

  /** `strcoll` in the C locale */
  function StrColl(l: string, r: string): int {
    var x, y := l[..CLen(l)], r[..CLen(r)];
    if x == y then 0 else if StrLess(x, y) then -1 else 1
  }

  lemma {:induction false} SameStart(c: string, l: string, r: string)
    ensures StrLess(c + l, c + r) == StrLess(l, r)
    decreases |c|
  {
    if c == [] {
      assert c + l == l && c + r == r;
    } else {
      assert (c + l)[1..] == c[1..] + l && (c + r)[1..] == c[1..] + r;
      SameStart(c[1..], l, r);
    }
  }

  /** The first pieces decide when they differ, for a zero character is the smallest. */
  lemma {:induction false} FirstPieces(l: string, r: string)
    requires l[..CLen(l)] != r[..CLen(r)]
    ensures l != r && StrLess(l, r) == StrLess(l[..CLen(l)], r[..CLen(r)])
    decreases |l|
  {
    var x, y := l[..CLen(l)], r[..CLen(r)];
    if x != [] && y != [] && x[0] == y[0] {
      assert x == [x[0]] + l[1..][..CLen(l[1..])] && y == [y[0]] + r[1..][..CLen(r[1..])];
      FirstPieces(l[1..], r[1..]);
      assert x[1..] == l[1..][..CLen(l[1..])] && y[1..] == r[1..][..CLen(r[1..])];
    }
  }

  /** `l_strcmp`: the order of whole strings, zero characters included */
  method LStrCmp(l0: string, r0: string) returns (res: int)
    ensures res < 0 <==> StrLess(l0, r0)
    ensures res == 0 <==> l0 == r0
  {
    var l, r := l0, r0;
    while true
      invariant StrLess(l, r) == StrLess(l0, r0) && (l == r <==> l0 == r0)
      decreases |l|
    {
      res := StrColl(l, r);
      if res != 0 {
        FirstPieces(l, r);
        return;
      }
      var len := CLen(l);
      SamePieces(l, r);
      if len == |r| { return if len == |l| then 0 else 1; }
      if len == |l| { return -1; }
      l, r := l[len + 1..], r[len + 1..];
    }
  }

  /** What follows equal pieces decides. */
  lemma SamePieces(l: string, r: string)
    requires l[..CLen(l)] == r[..CLen(r)]
    ensures CLen(l) == CLen(r)
    ensures var n := CLen(l);
      && (n == |r| ==> !StrLess(l, r) && (l == r <==> n == |l|))
      && (n == |l| && n < |r| ==> StrLess(l, r) && l != r)
      && (n < |l| && n < |r| ==>
            StrLess(l[n + 1..], r[n + 1..]) == StrLess(l, r) && (l[n + 1..] == r[n + 1..] <==> l == r))
  {
    assert |l[..CLen(l)]| == CLen(l) && |r[..CLen(r)]| == CLen(r);
    var n := CLen(l);
    hide StrLess;
    if n < |l| && n < |r| { ZeroBehind(l, r, n); } else { EndBehind(l, r, n); }
  }

  lemma ZeroBehind(l: string, r: string, n: nat)
    requires n < |l| && n < |r| && l[..n] == r[..n] && l[n] == r[n]
    ensures StrLess(l[n + 1..], r[n + 1..]) == StrLess(l, r) && (l[n + 1..] == r[n + 1..] <==> l == r)
  {
    hide StrLess;
    var c := l[..n + 1];
    assert l == c + l[n + 1..] && r == c + r[n + 1..];
    SameStart(c, l[n + 1..], r[n + 1..]);
  }

  lemma EndBehind(l: string, r: string, n: nat)
    requires n <= |l| && n <= |r| && l[..n] == r[..n]
    ensures n == |r| ==> !StrLess(l, r) && (l == r <==> n == |l|)
    ensures n == |l| && n < |r| ==> StrLess(l, r) && l != r
  {
    var c := l[..n];
    assert l == c + l[n..] && r == c + r[n..];
    SameStart(c, l[n..], r[n..]);
    assert n == |r| ==> r[n..] == [];
    assert n == |l| ==> l[n..] == [];
  }
}

/** What sorting means: orders, rearranged ranges and sorted ranges of a sequence. */
module Orders {
  import opened Basics

  /** A comparison function may answer differently each time; the first argument counts its calls. */
  type Compare<!T> = (nat, T, T) -> bool

  /** A function that answers the same each time and orders the elements up to ties. */
  ghost predicate StrictWeak<T(!new)>(lt: Compare<T>) {
    && (forall n, m, x, y :: lt(n, x, y) == lt(m, x, y))
    && (forall x :: !lt(0, x, x))
    && (forall x, y, z :: lt(0, x, y) && lt(0, y, z) ==> lt(0, x, z))
    && (forall x, y, z :: !lt(0, x, y) && !lt(0, y, z) ==> !lt(0, x, z))
  }

  /** `y` need not come before `x`. */
  predicate Fits<T>(lt: Compare<T>, x: T, y: T) {
    !lt(0, y, x)
  }

  lemma FitsThrough<T(!new)>(lt: Compare<T>, x: T, y: T, z: T)
    requires StrictWeak(lt) && Fits(lt, x, y) && Fits(lt, y, z)
    ensures Fits(lt, x, z)
  {
  }

  lemma LessFits<T(!new)>(lt: Compare<T>, n: nat, x: T, y: T)
    requires StrictWeak(lt) && lt(n, x, y)
    ensures Fits(lt, x, y) && x != y
  {
    assert lt(0, x, y);
  }

  /** The range from `l` up to `u`, exclusive, has the same elements in some order; the rest is the same. */
  ghost predicate Rearranged<T>(s: seq<T>, t: seq<T>, l: nat, u: nat)
    requires l <= u <= |s|
  {
    && |t| == |s|
    && s[..l] == t[..l] && s[u..] == t[u..]
    && multiset(s[l..u]) == multiset(t[l..u])
  }

  lemma RearrangedThrough<T>(s: seq<T>, t: seq<T>, v: seq<T>, l: nat, u: nat)
    requires l <= u <= |s| && |s| == |t| && Rearranged(s, t, l, u) && Rearranged(t, v, l, u)
    ensures Rearranged(s, v, l, u)
  {
  }

  /** A wider range is rearranged, too. */
  lemma RearrangedWider<T>(s: seq<T>, t: seq<T>, l: nat, u: nat, l': nat, u': nat)
    requires l' <= l <= u <= u' <= |s| && Rearranged(s, t, l, u)
    ensures Rearranged(s, t, l', u')
  {
    assert s[..l'] == s[..l][..l'] && t[..l'] == t[..l][..l'];
    assert s[u'..] == s[u..][u' - u..] && t[u'..] == t[u..][u' - u..];
    assert s[l'..u'] == s[..l][l'..] + s[l..u] + s[u..][..u' - u];
    assert t[l'..u'] == t[..l][l'..] + t[l..u] + t[u..][..u' - u];
  }

  lemma RearrangedAll<T>(s: seq<T>, t: seq<T>, l: nat, u: nat)
    requires l <= u <= |s| && Rearranged(s, t, l, u)
    ensures multiset(s) == multiset(t)
  {
    RearrangedWider(s, t, l, u, 0, |s|);
    assert s[0..|s|] == s && t[0..|s|] == t;
  }

  lemma SwapRearranges<T>(s: seq<T>, i: nat, j: nat, l: nat, u: nat)
    requires l <= i < u <= |s| && l <= j < u
    ensures Rearranged(s, s[i := s[j]][j := s[i]], l, u)
  {
    var t := s[i := s[j]][j := s[i]];
    assert t[l..u] == s[l..u][i - l := s[j]][j - l := s[i]];
  }

  /** An element of a rearranged range has come from the range. */
  lemma CameFrom<T>(s: seq<T>, t: seq<T>, l: nat, u: nat, k: nat) returns (k': nat)
    requires l <= u <= |s| && Rearranged(s, t, l, u) && k < |t|
    ensures k' < |s| && s[k'] == t[k] && (l <= k < u <==> l <= k' < u) && (!(l <= k < u) ==> k' == k)
  {
    if l <= k < u {
      assert t[k] == t[l..u][k - l];
      assert t[k] in multiset(t[l..u]);
      assert t[k] in s[l..u];
      var m :| 0 <= m < |s[l..u]| && s[l..u][m] == t[k];
      k' := l + m;
    } else {
      k' := k;
      if k < l {
        assert s[..l][k] == t[..l][k];
      } else {
        assert s[u..][k - u] == t[u..][k - u];
      }
    }
  }

  /** Two different places of `[l, u)`, the first before the second, hold elements that fit, unless both are in
      the range from `l'` up to `u'`. */
  ghost predicate SortedBut<T>(lt: Compare<T>, s: seq<T>, l: nat, u: nat, l': nat, u': nat) {
    forall k, m | l <= k < m < u && m < |s| && !(l' <= k && m < u') :: Fits(lt, s[k], s[m])
  }

  ghost predicate Sorted<T>(lt: Compare<T>, s: seq<T>, l: nat, u: nat) {
    forall k, m | l <= k < m < u && m < |s| :: Fits(lt, s[k], s[m])
  }

  /** What has been done around a range stays done when the range is rearranged. */
  lemma RearrangedKeeps<T>(lt: Compare<T>, s: seq<T>, t: seq<T>, l: nat, u: nat, l': nat, u': nat)
    requires l <= l' <= u' <= u <= |s| && Rearranged(s, t, l', u') && SortedBut(lt, s, l, u, l', u')
    ensures SortedBut(lt, t, l, u, l', u')
  {
    forall k, m | l <= k < m < u && m < |t| && !(l' <= k && m < u') ensures Fits(lt, t[k], t[m]) {
      var k' := CameFrom(s, t, l', u', k);
      var m' := CameFrom(s, t, l', u', m);
    }
  }

  /** All elements of a range fit before, or behind, an element. */
  ghost predicate AllBefore<T>(lt: Compare<T>, s: seq<T>, l: nat, u: nat, p: T) {
    forall k | l <= k < u && k < |s| :: Fits(lt, s[k], p)
  }

  ghost predicate AllBehind<T>(lt: Compare<T>, s: seq<T>, l: nat, u: nat, p: T) {
    forall k | l <= k < u && k < |s| :: Fits(lt, p, s[k])
  }

  /** A range that is divided by an element at its place, one part of which is sorted, needs the other sorted. */
  lemma Divided<T(!new)>(lt: Compare<T>, s: seq<T>, l: nat, i: nat, u: nat)
    requires StrictWeak(lt) && l <= i < u <= |s|
    requires AllBefore(lt, s, l, i, s[i]) && AllBehind(lt, s, i + 1, u, s[i])
    ensures Sorted(lt, s, l, i) ==> SortedBut(lt, s, l, u, i + 1, u)
    ensures Sorted(lt, s, i + 1, u) ==> SortedBut(lt, s, l, u, l, i)
  {
    forall k, m | l <= k < i < m < u ensures Fits(lt, s[k], s[m]) {
      FitsThrough(lt, s[k], s[i], s[m]);
    }
  }

  lemma BeforeKept<T>(lt: Compare<T>, s: seq<T>, t: seq<T>, l: nat, u: nat, p: T)
    requires l <= u <= |s| && Rearranged(s, t, l, u)
    ensures AllBefore(lt, s, l, u, p) ==> AllBefore(lt, t, l, u, p)
    ensures AllBehind(lt, s, l, u, p) ==> AllBehind(lt, t, l, u, p)
  {
    forall k | l <= k < u && AllBefore(lt, s, l, u, p) ensures Fits(lt, t[k], p) {
      var k' := CameFrom(s, t, l, u, k);
    }
    forall k | l <= k < u && AllBehind(lt, s, l, u, p) ensures Fits(lt, p, t[k]) {
      var k' := CameFrom(s, t, l, u, k);
    }
  }

  /** A range has been rearranged, and if the order is one, only the range from `l'` up to `u'` is left to sort. */
  ghost predicate Progress<T(!new)>(lt: Compare<T>, s: seq<T>, t: seq<T>, l: nat, u: nat, l': nat, u': nat) {
    l <= l' <= u' <= u <= |s| && Rearranged(s, t, l, u) && (StrictWeak(lt) ==> SortedBut(lt, t, l, u, l', u'))
  }

  lemma NothingDone<T(!new)>(lt: Compare<T>, s: seq<T>, l: nat, u: nat)
    requires l <= u <= |s|
    ensures Progress(lt, s, s, l, u, l, u)
  {
  }

  lemma ProgressThrough<T(!new)>(lt: Compare<T>, s: seq<T>, t: seq<T>, v: seq<T>,
                                 l: nat, u: nat, l1: nat, u1: nat, l2: nat, u2: nat)
    requires Progress(lt, s, t, l, u, l1, u1) && Progress(lt, t, v, l1, u1, l2, u2)
    ensures Progress(lt, s, v, l, u, l2, u2)
  {
    hide StrictWeak;
    RearrangedWider(t, v, l1, u1, l, u);
    RearrangedThrough(s, t, v, l, u);
    if StrictWeak(lt) { RearrangedKeeps(lt, t, v, l, u, l1, u1); }
  }

  lemma DivideProgress<T(!new)>(lt: Compare<T>, s0: seq<T>, s: seq<T>, t: seq<T>, l0: nat, u0: nat, l: nat, u: nat)
    requires Progress(lt, s0, s, l0, u0, l, u) && |s| == |s0| && Rearranged(s, t, l, u)
    ensures Progress(lt, s0, t, l0, u0, l, u)
  {
    NothingDone(lt, s, l, u);
    assert Progress(lt, s, t, l, u, l, u);
    ProgressThrough(lt, s0, s, t, l0, u0, l, u, l, u);
  }

  lemma SmallProgress<T(!new)>(lt: Compare<T>, s0: seq<T>, s: seq<T>, l0: nat, u0: nat, l: nat, u: nat)
    requires Progress(lt, s0, s, l0, u0, l, u) && l + 1 < u && (StrictWeak(lt) ==> Sorted(lt, s, l, u))
    ensures Progress(lt, s0, s, l0, u0, u - 1, u)
  {
    hide StrictWeak, Rearranged;
  }

  lemma AllDone<T(!new)>(lt: Compare<T>, s: seq<T>, t: seq<T>, l: nat, u: nat, l': nat, u': nat)
    requires Progress(lt, s, t, l, u, l', u')
    ensures Rearranged(s, t, l, u)
    ensures StrictWeak(lt) && u' <= l' + 1 ==> Sorted(lt, t, l, u)
  {
    hide StrictWeak, Rearranged;
  }

  /** The lower part of a range divided at `i` has been sorted. */
  lemma LowerSorted<T(!new)>(lt: Compare<T>, s: seq<T>, t: seq<T>, l: nat, i: nat, u: nat)
    requires StrictWeak(lt) && l <= i < u <= |s| && Rearranged(s, t, l, i)
    requires AllBefore(lt, s, l, i, s[i]) && AllBehind(lt, s, i + 1, u, s[i])
    requires Sorted(lt, t, l, i)
    ensures SortedBut(lt, t, l, u, i + 1, u)
  {
    BeforeKept(lt, s, t, l, i, s[i]);
    assert forall k | i <= k < u :: t[k] == s[i..][k - i] == t[i..][k - i] == s[k];
    Divided(lt, t, l, i, u);
  }

  lemma UpperSorted<T(!new)>(lt: Compare<T>, s: seq<T>, t: seq<T>, l: nat, i: nat, u: nat)
    requires StrictWeak(lt) && l <= i < u <= |s| && Rearranged(s, t, i + 1, u)
    requires AllBefore(lt, s, l, i, s[i]) && AllBehind(lt, s, i + 1, u, s[i])
    requires Sorted(lt, t, i + 1, u)
    ensures SortedBut(lt, t, l, u, l, i)
  {
    BeforeKept(lt, s, t, i + 1, u, s[i]);
    assert forall k | l <= k <= i :: t[k] == t[..i + 1][k] == s[..i + 1][k] == s[k];
    Divided(lt, t, l, i, u);
  }

  // ----- small ranges and steps of the algorithm -----

  lemma LessMisfits<T(!new)>(lt: Compare<T>, n: nat, x: T, y: T)
    requires StrictWeak(lt) && lt(n, x, y)
    ensures !Fits(lt, y, x)
  {
    assert lt(0, x, y) == lt(n, x, y);
  }

  lemma NotLessFits<T(!new)>(lt: Compare<T>, n: nat, x: T, y: T)
    requires StrictWeak(lt) && !lt(n, x, y)
    ensures Fits(lt, y, x)
  {
    assert lt(0, x, y) == lt(n, x, y);
  }

  lemma RearrangedSelf<T>(s: seq<T>, l: nat, u: nat)
    requires l <= u <= |s|
    ensures Rearranged(s, s, l, u)
  {
  }

  lemma TwoSorted<T>(lt: Compare<T>, s: seq<T>, l: nat)
    requires l + 2 <= |s| && Fits(lt, s[l], s[l + 1])
    ensures Sorted(lt, s, l, l + 2)
  {
  }

  lemma ThreeSorted<T>(lt: Compare<T>, s: seq<T>, l: nat)
    requires l + 3 <= |s| && Fits(lt, s[l], s[l + 1]) && Fits(lt, s[l + 1], s[l + 2]) && Fits(lt, s[l], s[l + 2])
    ensures Sorted(lt, s, l, l + 3)
  {
  }

  /** The scans have stopped: the ranges that they passed are joined to those known before. */
  lemma Passed<T>(lt: Compare<T>, s: seq<T>, l: nat, i0: nat, i: nat, j: nat, j0: nat, u: nat, p: T)
    requires AllBefore(lt, s, l, i0 + 1, p) && AllBefore(lt, s, i0 + 1, i, p)
    requires AllBehind(lt, s, j0, u, p) && AllBehind(lt, s, j + 1, j0, p)
    ensures AllBefore(lt, s, l, i, p) && AllBehind(lt, s, j + 1, u, p)
  {
  }

  /** Two elements on the wrong sides are swapped. */
  lemma SwapDivides<T>(lt: Compare<T>, s: seq<T>, l: nat, i: nat, j: nat, u: nat, p: T)
    requires l <= i <= j < u <= |s| && Fits(lt, p, s[i]) && Fits(lt, s[j], p)
    requires AllBefore(lt, s, l, i, p) && AllBehind(lt, s, j + 1, u, p)
    ensures var t := s[i := s[j]][j := s[i]]; AllBefore(lt, t, l, i + 1, p) && AllBehind(lt, t, j, u, p)
  {
  }

  /** The pivot comes to its place. */
  lemma PivotPlaced<T>(lt: Compare<T>, s: seq<T>, l: nat, j: nat, i: nat, m: nat, u: nat)
    requires l <= j < i < u <= |s| && i <= m < u && Fits(lt, s[m], s[i])
    requires AllBefore(lt, s, l, i, s[m]) && AllBehind(lt, s, j + 1, u, s[m])
    ensures var t := s[m := s[i]][i := s[m]]; AllBefore(lt, t, l, i, t[i]) && AllBehind(lt, t, i + 1, u, t[i])
  {
  }

  /** The ends and the pivot before a range is divided. */
  lemma Ends<T(!new)>(lt: Compare<T>, s: seq<T>, l: nat, u: nat)
    requires StrictWeak(lt) && l + 1 < u < |s| && Fits(lt, s[l], s[u - 1]) && Fits(lt, s[u - 1], s[u])
    ensures AllBefore(lt, s, l, l + 1, s[u - 1]) && AllBehind(lt, s, u - 1, u + 1, s[u - 1])
    ensures Fits(lt, s[u - 1], s[u - 1])
  {
  }

  /** The range from `l` up to `u` has been divided at `q`, and of its two parts the one from `j` up to `i` has
      been rearranged. The other one, from `l'` up to `u'`, is left. */
  lemma PartDone<T(!new)>(lt: Compare<T>, s: seq<T>, t: seq<T>, l: nat, q: nat, u: nat, j: nat, i: nat, l': nat,
                          u': nat)
    requires l <= q < u <= |s|
    requires (j == l && i == q && l' == q + 1 && u' == u) || (j == q + 1 && i == u && l' == l && u' == q)
    requires Rearranged(s, t, j, i)
    ensures Rearranged(s, t, l, u)
    ensures StrictWeak(lt) && AllBefore(lt, s, l, q, s[q]) && AllBehind(lt, s, q + 1, u, s[q]) && Sorted(lt, t, j, i)
      ==> SortedBut(lt, t, l, u, l', u')
  {
    hide StrictWeak, Rearranged, SortedBut, Sorted, AllBefore, AllBehind;
    RearrangedWider(s, t, j, i, l, u);
    if StrictWeak(lt) && AllBefore(lt, s, l, q, s[q]) && AllBehind(lt, s, q + 1, u, s[q]) && Sorted(lt, t, j, i) {
      if j == l && i == q {
        LowerSorted(lt, s, t, l, q, u);
      } else {
        UpperSorted(lt, s, t, l, q, u);
      }
    }
  }

  lemma PartProgress<T(!new)>(lt: Compare<T>, s0: seq<T>, s: seq<T>, t: seq<T>, l0: nat, u0: nat,
                              l: nat, q: nat, u: nat, j: nat, i: nat, l': nat, u': nat)
    requires l <= q < u <= |s|
    requires (j == l && i == q && l' == q + 1 && u' == u) || (j == q + 1 && i == u && l' == l && u' == q)
    requires Progress(lt, s0, s, l0, u0, l, u) && Rearranged(s, t, j, i)
    requires StrictWeak(lt) ==>
      AllBefore(lt, s, l, q, s[q]) && AllBehind(lt, s, q + 1, u, s[q]) && Sorted(lt, t, j, i)
    ensures Progress(lt, s0, t, l0, u0, l', u')
  {
    hide StrictWeak, Rearranged, SortedBut, Sorted, AllBefore, AllBehind;
    PartDone(lt, s, t, l, q, u, j, i, l', u');
    assert Progress(lt, s, t, l, u, l', u');
    ProgressThrough(lt, s0, s, t, l0, u0, l, u, l', u');
  }

  /** A range of `c` elements sorted in an activation of its own is less than half of the range at hand. */
  lemma DepthStep(d: nat, c: int, n: int)
    requires Pow2(d) <= c + 1 && 2 * c < n
    ensures Pow2(d + 1) <= n + 1
  {
  }
}

/** The quicksort of tables, in place and with whatever comparison function it is given. */
module Sorter {
  import opened Orders
  import opened Basics

  class Sort<T(!new)> {
    const a: array<T>
    const lt: Compare<T>
    /** How often the comparison function has been called. */
    var calls: nat

    constructor (a: array<T>, lt: Compare<T>)
      ensures this.a == a && this.lt == lt && calls == 0
    {
      this.a, this.lt, calls := a, lt, 0;
    }

    /** `sort_comp` */
    method Comp(x: T, y: T) returns (less: bool)
      modifies this
      ensures less == lt(old(calls), x, y) && calls == old(calls) + 1
    {
      less := lt(calls, x, y);
      calls := calls + 1;
    }

    /** `set2` with the two elements that have been fetched from the places */
    method Set2(i: int, j: int)
      requires 0 <= i < a.Length && 0 <= j < a.Length
      modifies a
      ensures a[..] == old(a[..][i := a[j]][j := a[i]])
      ensures a[i] == old(a[j]) && a[j] == old(a[i])
      ensures forall k | 0 <= k < a.Length && k != i && k != j :: a[k] == old(a[k])
    {
      a[i], a[j] := a[j], a[i];
    }

    /** Swaps two elements of the range if the later one is less. */
    method Order2(i: int, j: int, ghost l: int, ghost u: int)
      requires 0 <= l <= i < j <= u < a.Length
      modifies this, a
      ensures Rearranged(old(a[..]), a[..], l, u + 1)
      ensures if lt(old(calls), old(a[j]), old(a[i])) then a[i] == old(a[j]) && a[j] == old(a[i])
              else a[i] == old(a[i]) && a[j] == old(a[j])
      ensures forall k | 0 <= k < a.Length && k != i && k != j :: a[k] == old(a[k])
      ensures StrictWeak(lt) ==> Fits(lt, a[i], a[j])
    {
      hide StrictWeak, Rearranged, Fits;
      ghost var s, x, y := a[..], a[i], a[j];
      var less := Comp(a[j], a[i]);
      assert a[..] == s;
      if less {
        Set2(i, j);
        SwapRearranges(s, i, j, l, u + 1);
        if StrictWeak(lt) { LessFits(lt, calls - 1, y, x); }
      } else {
        RearrangedSelf(s, l, u + 1);
        if StrictWeak(lt) { NotLessFits(lt, calls - 1, y, x); }
      }
    }

    /** Orders the middle element of three whose ends are ordered. */
    method OrderMiddle(l: int, i: int, u: int)
      requires 0 <= l < i < u < a.Length
      requires StrictWeak(lt) ==> Fits(lt, a[l], a[u])
      modifies this, a
      ensures Rearranged(old(a[..]), a[..], l, u + 1)
      ensures StrictWeak(lt) ==> Fits(lt, a[l], a[i]) && Fits(lt, a[i], a[u]) && Fits(lt, a[l], a[u])
    {
      var less := Comp(a[i], a[l]);
      if less {
        SwapRearranges(a[..], i, l, l, u + 1);
        ghost var x, y := a[i], a[l];
        Set2(i, l);
        if StrictWeak(lt) {
          LessFits(lt, calls - 1, x, y);
          FitsThrough(lt, x, y, a[u]);
        }
      } else {
        ghost var x, y, z := a[l], a[i], a[u];
        Order2(i, u, l, u);
        if StrictWeak(lt) { FitsThrough(lt, a[l], a[i], a[u]); }
      }
    }

    /** Moves right while the elements are less than the pivot. */
    method ScanUp(from: int, u: int, p: T) returns (ok: bool, i: int)
      requires 0 <= from < u < a.Length
      modifies this
      ensures from < i <= u
      ensures calls > 0 && ok == !lt(calls - 1, a[i], p) && (!ok ==> i == u)
      ensures StrictWeak(lt) ==> AllBefore(lt, a[..], from + 1, i, p) && (ok ==> Fits(lt, p, a[i]))
      ensures StrictWeak(lt) ==> forall k | from < k < i :: a[k] != p
      ensures StrictWeak(lt) && Fits(lt, p, a[u]) ==> ok
    {
      hide StrictWeak;
      i := from + 1;
      var less := Comp(a[i], p);
      while less
        invariant from < i <= u
        invariant calls > 0 && less == lt(calls - 1, a[i], p)
        invariant StrictWeak(lt) ==> AllBefore(lt, a[..], from + 1, i, p)
        invariant StrictWeak(lt) ==> forall k | from < k < i :: a[k] != p
        decreases u - i, less
      {
        if i >= u {
          if StrictWeak(lt) { LessMisfits(lt, calls - 1, a[u], p); }
          return false, i;
        }
        if StrictWeak(lt) { LessFits(lt, calls - 1, a[i], p); }
        i := i + 1;
        less := Comp(a[i], p);
      }
      if StrictWeak(lt) { NotLessFits(lt, calls - 1, a[i], p); }
      ok := true;
    }

    /** Moves left while the elements are greater than the pivot. */
    method ScanDown(from: int, l: int, p: T) returns (ok: bool, j: int)
      requires 0 <= l < from < a.Length
      modifies this
      ensures l <= j < from
      ensures calls > 0 && ok == !lt(calls - 1, p, a[j]) && (!ok ==> j == l)
      ensures StrictWeak(lt) ==> AllBehind(lt, a[..], j + 1, from, p) && (ok ==> Fits(lt, a[j], p))
      ensures StrictWeak(lt) && Fits(lt, a[l], p) ==> ok
    {
      hide StrictWeak;
      j := from - 1;
      var less := Comp(p, a[j]);
      while less
        invariant l <= j < from
        invariant calls > 0 && less == lt(calls - 1, p, a[j])
        invariant StrictWeak(lt) ==> AllBehind(lt, a[..], j + 1, from, p)
        decreases j, less
      {
        if j <= l {
          if StrictWeak(lt) { LessMisfits(lt, calls - 1, p, a[l]); }
          return false, j;
        }
        if StrictWeak(lt) { LessFits(lt, calls - 1, p, a[j]); }
        j := j - 1;
        less := Comp(p, a[j]);
      }
      if StrictWeak(lt) { NotLessFits(lt, calls - 1, p, a[j]); }
      ok := true;
    }

    /** Swaps two elements that are on the wrong sides of the pivot. */
    method Exchange(i: int, j: int, l: int, u: int, ghost p: T)
      requires 0 <= l <= i <= j < u < a.Length
      requires StrictWeak(lt) ==>
        && Fits(lt, p, a[i]) && Fits(lt, a[j], p)
        && AllBefore(lt, a[..], l, i, p) && AllBehind(lt, a[..], j + 1, u + 1, p)
      modifies a
      ensures Rearranged(old(a[..]), a[..], l, u + 1)
      ensures forall k | 0 <= k < a.Length && k != i && k != j :: a[k] == old(a[k])
      ensures StrictWeak(lt) ==> AllBefore(lt, a[..], l, i + 1, p) && AllBehind(lt, a[..], j, u + 1, p)
    {
      hide StrictWeak, Rearranged, Fits, AllBefore, AllBehind;
      ghost var s := a[..];
      SwapRearranges(s, i, j, l, u + 1);
      Set2(i, j);
      if StrictWeak(lt) { SwapDivides(lt, s, l, i, j, u + 1, p); }
      assert forall k | 0 <= k < a.Length && k != i && k != j :: a[..][k] == s[k];
    }

    /** Puts the pivot between the elements that it divides. */
    method PlacePivot(l: int, j: int, i: int, u: int)
      requires 0 <= l <= j < i <= u < a.Length && l < u
      requires StrictWeak(lt) ==>
        i < u && Fits(lt, a[u - 1], a[i]) && AllBefore(lt, a[..], l, i, a[u - 1]) &&
            AllBehind(lt, a[..], j + 1, u + 1, a[u - 1])
      modifies a
      ensures Rearranged(old(a[..]), a[..], l, u + 1)
      ensures StrictWeak(lt) ==> AllBefore(lt, a[..], l, i, a[i]) && AllBehind(lt, a[..], i + 1, u + 1, a[i])
    {
      hide StrictWeak, Rearranged, Fits, AllBefore, AllBehind;
      ghost var s := a[..];
      SwapRearranges(s, u - 1, i, l, u + 1);
      Set2(u - 1, i);
      if StrictWeak(lt) { PivotPlaced(lt, s, l, j, i, u - 1, u + 1); }
    }

    /** Divides a range whose ends and next to last element, the pivot, are in order. */
    method Partition(l: int, u: int) returns (ok: bool, i: int)
      requires 0 <= l && l + 3 <= u < a.Length
      requires StrictWeak(lt) ==> Fits(lt, a[l], a[u - 1]) && Fits(lt, a[u - 1], a[u])
      modifies this, a
      ensures l < i <= u
      ensures Rearranged(old(a[..]), a[..], l, u + 1)
      ensures StrictWeak(lt) ==> ok && AllBefore(lt, a[..], l, i, a[i]) && AllBehind(lt, a[..], i + 1, u + 1, a[i])
    {
      hide StrictWeak, Rearranged, Fits, AllBefore, AllBehind;
      ghost var s0 := a[..];
      var p := a[u - 1];
      var j := u - 1;
      i := l;
      if StrictWeak(lt) { Ends(lt, s0, l, u); }
      RearrangedSelf(s0, l, u + 1);
      while true
        invariant l <= i <= j <= u - 1 && (i == l ==> j == u - 1) && (i > l ==> j < u - 1)
        invariant Rearranged(s0, a[..], l, u + 1)
        invariant a[u - 1] == p && a[l] == s0[l] && a[u] == s0[u]
        invariant StrictWeak(lt) ==> AllBefore(lt, a[..], l, i + 1, p) && AllBehind(lt, a[..], j, u + 1, p)
        decreases j - i
      {
        ghost var s, i0, j0 := a[..], i, j;
        ok, i := ScanUp(i, u, p);
        if !ok { return; }
        ok, j := ScanDown(j, l, p);
        if !ok { return; }
        if StrictWeak(lt) {
          Passed(lt, s, l, i0, i, j, j0, u + 1, p);
          assert i0 < u - 1;
        }
        if j < i { break; }
        Exchange(i, j, l, u, p);
        RearrangedThrough(s0, s, a[..], l, u + 1);
      }
      ghost var s := a[..];
      PlacePivot(l, j, i, u);
      RearrangedThrough(s0, s, a[..], l, u + 1);
    }

    /** Puts the pivot next to the upper end. */
    method HidePivot(l: int, i: int, u: int)
      requires 0 <= l < i < u < a.Length
      modifies a
      ensures Rearranged(old(a[..]), a[..], l, u + 1)
      ensures a[l] == old(a[l]) && a[u - 1] == old(a[i]) && a[u] == old(a[u])
    {
      hide Rearranged;
      ghost var s := a[..];
      SwapRearranges(s, i, u - 1, l, u + 1);
      Set2(i, u - 1);
      assert a[l] == a[..][l] && a[u - 1] == a[..][u - 1] && a[u] == a[..][u];
    }

    /** Puts the median of the ends and the middle next to the upper end; short ranges are sorted by that. */
    method MedianOfThree(l: int, u: int)
      requires 0 <= l < u < a.Length
      modifies this, a
      ensures Rearranged(old(a[..]), a[..], l, u + 1)
      ensures StrictWeak(lt) && u - l == 1 ==> Fits(lt, a[l], a[u])
      ensures StrictWeak(lt) && u - l > 1 ==>
          Fits(lt, a[l], a[u - 1]) && Fits(lt, a[u - 1], a[u]) && Fits(lt, a[l], a[u])
    {
      hide StrictWeak, Rearranged, Fits;
      ghost var s := a[..];
      Order2(l, u, l, u);
      if u - l == 1 { return; }
      var i := (l + u) / 2;
      ghost var s1 := a[..];
      OrderMiddle(l, i, u);
      RearrangedThrough(s, s1, a[..], l, u + 1);
      if u - l == 2 { return; }
      ghost var s2 := a[..];
      HidePivot(l, i, u);
      RearrangedThrough(s, s2, a[..], l, u + 1);
    }

    /** What is done to a range before its parts are sorted; nothing more is needed for two or three elements. */
    method Divide(l: int, u: int, ghost s0: seq<T>, ghost l0: nat, ghost u0: nat)
      returns (small: bool, ok: bool, i: int)
      requires 0 <= l0 <= l < u <= u0 < a.Length == |s0|
      requires Progress(lt, s0, a[..], l0, u0 + 1, l, u + 1)
      modifies this, a
      ensures Progress(lt, s0, a[..], l0, u0 + 1, l, u + 1)
      ensures small == (u - l <= 2) && (small ==> ok) && (!small ==> l < i <= u)
      ensures StrictWeak(lt) && small ==> Sorted(lt, a[..], l, u + 1)
      ensures StrictWeak(lt) && !small ==>
        ok && AllBefore(lt, a[..], l, i, a[i]) && AllBehind(lt, a[..], i + 1, u + 1, a[i])
    {
      hide StrictWeak, Progress, Rearranged, Fits, AllBefore, AllBehind, Sorted;
      ghost var s := a[..];
      small, ok, i := u - l <= 2, true, l;
      MedianOfThree(l, u);
      ghost var s1 := a[..];
      DivideProgress(lt, s0, s, s1, l0, u0 + 1, l, u + 1);
      if u - l == 1 {
        if StrictWeak(lt) { TwoSorted(lt, s1, l); }
        return;
      }
      if u - l == 2 {
        if StrictWeak(lt) { ThreeSorted(lt, s1, l); }
        return;
      }
      ok, i := Partition(l, u);
      DivideProgress(lt, s0, s1, a[..], l0, u0 + 1, l, u + 1);
    }

    /** Sorts the smaller part of the range from `l` to `u`, which is divided at `q`, in an activation of its own,
        and gives the larger part. */
    method SortSmaller(l: int, q: int, u: int, ghost s0: seq<T>, ghost l0: nat, ghost u0: nat)
      returns (ok: bool, l': int, u': int, ghost depth: nat)
      requires 0 <= l0 <= l < q <= u <= u0 < a.Length == |s0|
      requires Progress(lt, s0, a[..], l0, u0 + 1, l, u + 1)
      requires StrictWeak(lt) ==> AllBefore(lt, a[..], l, q, a[q]) && AllBehind(lt, a[..], q + 1, u + 1, a[q])
      modifies this, a
      ensures l <= l' <= u' + 1 <= u + 1 && u' - l' < u - l
      ensures Progress(lt, s0, a[..], l0, u0 + 1, l', u' + 1)
      ensures Pow2(depth) <= u - l + 2
      ensures StrictWeak(lt) ==> ok
      decreases u - l + 1, 0
    {
      hide StrictWeak, Rearranged, Progress, AllBefore, AllBehind, Sorted, Pow2;
      ghost var s := a[..];
      var j, i := 0, q;
      l', u' := l, u;
      if i - l' < u' - i {
        j := l'; i := i - 1; l' := i + 2;
      } else {
        j := i + 1; i := u'; u' := j - 2;
      }
      ok, depth := AuxSort(j, i);
      DepthStep(depth, i - j + 1, u - l + 1);
      depth := depth + 1;
      PartProgress(lt, s0, s, a[..], l0, u0 + 1, l, q, u + 1, j, i + 1, l', u' + 1);
    }

    /** The body of the loop in `auxsort`, which sorts the range from `l0` to `u0` and has come to the range from
        `l` to `u`. When the loop is left, at most one element of that remains. */
    method Round(l: int, u: int, ghost s0: seq<T>, ghost l0: nat, ghost u0: nat)
      returns (ok: bool, l': int, u': int, ghost depth: nat)
      requires 0 <= l0 <= l < u <= u0 < a.Length == |s0|
      requires Progress(lt, s0, a[..], l0, u0 + 1, l, u + 1)
      modifies this, a
      ensures l <= l' <= u' + 1 <= u + 1 && u' - l' < u - l
      ensures Progress(lt, s0, a[..], l0, u0 + 1, l', u' + 1)
      ensures Pow2(depth) <= u - l + 2
      ensures StrictWeak(lt) ==> ok
      decreases u - l + 1, 1
    {
      assert Pow2(0) == 1;
      hide StrictWeak, Rearranged, Progress, AllBefore, AllBehind, Sorted, Pow2;
      var small, q;
      small, ok, q := Divide(l, u, s0, l0, u0);
      l', u', depth := l, u, 0;
      if small || !ok {
        l' := u;
        SmallProgress(lt, s0, a[..], l0, u0 + 1, l, u + 1);
        return;
      }
      ok, l', u', depth := SortSmaller(l, q, u, s0, l0, u0);
    }

    /** `auxsort` for the range from `l0` to `u0`, inclusive; the result is false when it stops with the error of
        an invalid order function. `depth` is the number of activations inside each other. */
    method AuxSort(l0: int, u0: int) returns (ok: bool, ghost depth: nat)
      requires 0 <= l0 <= u0 + 1 <= a.Length
      modifies this, a
      ensures Rearranged(old(a[..]), a[..], l0, u0 + 1)
      ensures Pow2(depth) <= u0 - l0 + 2
      ensures StrictWeak(lt) ==> ok && Sorted(lt, a[..], l0, u0 + 1)
      decreases u0 - l0 + 1, 2
    {
      assert Pow2(0) == 1;
      hide StrictWeak, Progress, Rearranged, Sorted, Pow2;
      ghost var s0 := a[..];
      var l, u := l0, u0;
      ok, depth := true, 0;
      NothingDone(lt, s0, l0, u0 + 1);
      while l < u
        invariant l0 <= l <= u + 1 <= u0 + 1
        invariant ok && Progress(lt, s0, a[..], l0, u0 + 1, l, u + 1)
        invariant Pow2(depth) <= u0 - l0 + 2
        decreases u - l
      {
        ghost var d;
        ok, l, u, d := Round(l, u, s0, l0, u0);
        depth := if d > depth then d else depth;
        if !ok { break; }
      }
      AllDone(lt, s0, a[..], l0, u0 + 1, l, u + 1);
    }

    /** `sort`: the whole table. Whatever the comparison function answers, no element is lost; with an order there
        is no error and the elements are sorted; the activations inside each other are at most logarithmic. */
    method SortTable() returns (ok: bool, ghost depth: nat)
      modifies this, a
      ensures multiset(a[..]) == multiset(old(a[..]))
      ensures StrictWeak(lt) ==> ok && forall k, m | 0 <= k < m < a.Length :: !lt(0, a[m], a[k])
      ensures Pow2(depth) <= a.Length + 1
    {
      hide StrictWeak, Pow2, Rearranged;
      ghost var s := a[..];
      ok, depth := AuxSort(0, a.Length - 1);
      RearrangedAll(s, a[..], 0, a.Length);
      assert forall k | 0 <= k < a.Length :: a[..][k] == a[k];
    }
  }
}

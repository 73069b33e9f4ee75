/** Counting the entries of a table, and why the sizes that `rehash` computes make room for all of them. */
module TableCounts {
  import opened Basics
  import opened TableNodes
  import opened TableSizes

  function Count(node: seq<Node>, p: Node -> bool): (c: nat)
    ensures c <= |node|
    decreases |node|
  {
    if node == [] then 0 else Count(node[..|node| - 1], p) + (if p(node[|node| - 1]) then 1 else 0)
  }

  lemma {:induction false} CountUpdate(node: seq<Node>, i: nat, n': Node, p: Node -> bool)
    requires i < |node|
    ensures Count(node[i := n'], p) == Count(node, p) - (if p(node[i]) then 1 else 0) + (if p(n') then 1 else 0)
    decreases |node|
  {
    var last := |node| - 1;
    if i < last {
      assert node[i := n'][..last] == node[..last][i := n'];
      CountUpdate(node[..last], i, n', p);
    } else {
      assert node[i := n'][..last] == node[..last];
    }
  }

  lemma {:induction false} CountFull(node: seq<Node>, p: Node -> bool)
    requires forall i :: 0 <= i < |node| ==> p(node[i])
    ensures Count(node, p) == |node|
    decreases |node|
  {
    if node != [] { CountFull(node[..|node| - 1], p); }
  }

  lemma {:induction false} CountPositive(node: seq<Node>, p: Node -> bool)
    requires Count(node, p) > 0
    ensures exists i :: 0 <= i < |node| && p(node[i])
    decreases |node|
  {
    if !p(node[|node| - 1]) {
      CountPositive(node[..|node| - 1], p);
      var i :| 0 <= i < |node| - 1 && p(node[..|node| - 1][i]);
      assert node[i] == node[..|node| - 1][i];
    }
  }

  function IsFree(): Node -> bool { (n: Node) => n.key == NilKey }

  function IsLive(): Node -> bool { (n: Node) => n.val != Nil }

  /** Live, with an integer key from 1 to `p`. */
  function IsInt(p: nat): Node -> bool { (n: Node) => n.val != Nil && n.key.Int? && 1 <= n.key.i <= p }

  /** Live, and not for an array part of size `p`. */
  function IsHashed(p: nat): Node -> bool { (n: Node) => n.val != Nil && !(n.key.Int? && 1 <= n.key.i <= p) }

  lemma {:induction false} HashedRest(node: seq<Node>, p: nat)
    ensures Count(node, IsLive()) == Count(node, IsInt(p)) + Count(node, IsHashed(p))
    decreases |node|
  {
    if node != [] { HashedRest(node[..|node| - 1], p); }
  }

  /** How many of the first `n` slots are in use. */
  function InUse(arr: seq<Value>, n: nat): (c: nat)
    ensures c <= n
  {
    if n == 0 then 0 else InUse(arr, n - 1) + (if n <= |arr| && arr[n - 1] != Nil then 1 else 0)
  }

  lemma {:induction false} InUseBeyond(arr: seq<Value>, n: nat)
    requires n >= |arr|
    ensures InUse(arr, n) == InUse(arr, |arr|)
    decreases n
  {
    if n > |arr| { InUseBeyond(arr, n - 1); }
  }

  lemma {:induction false} InUseMono(arr: seq<Value>, a: nat, b: nat)
    requires a <= b
    ensures InUse(arr, a) <= InUse(arr, b) && InUse(arr, b) - InUse(arr, a) <= b - a
    decreases b
  {
    if a < b { InUseMono(arr, a, b - 1); }
  }

  // ----- the integer keys from 1 to p -----

  function Extra(k: Key, p: nat): nat {
    if k.Int? && 1 <= k.i <= p then 1 else 0
  }

  /** The integer keys from 1 to `p` that the table holds, with the key to be inserted. */
  function Present(arr: seq<Value>, node: seq<Node>, k: Key, p: nat): nat {
    InUse(arr, p) + Count(node, IsInt(p)) + Extra(k, p)
  }

  function IntSet(node: seq<Node>, p: nat): set<int>
    decreases |node|
  {
    if node == [] then {}
    else
      var n := node[|node| - 1];
      IntSet(node[..|node| - 1], p) + (if IsInt(p)(n) then {n.key.i} else {})
  }

  lemma {:induction false} IntSetKeys(node: seq<Node>, p: nat, x: int)
    requires x in IntSet(node, p)
    ensures 1 <= x <= p && exists i :: 0 <= i < |node| && node[i].key == Int(x)
    decreases |node|
  {
    var last := |node| - 1;
    if x in IntSet(node[..last], p) {
      IntSetKeys(node[..last], p, x);
      var i :| 0 <= i < last && node[..last][i].key == Int(x);
      assert node[i].key == Int(x);
    } else {
      assert node[last].key == Int(x);
    }
  }

  lemma {:induction false} IntSetNot(node: seq<Node>, p: nat, x: int)
    requires forall i :: 0 <= i < |node| ==> node[i].key != Int(x)
    ensures x !in IntSet(node, p)
    decreases |node|
  {
    if node != [] {
      assert node[|node| - 1].key != Int(x);
      IntSetNot(node[..|node| - 1], p, x);
    }
  }

  lemma {:induction false} IntSetCount(node: seq<Node>, p: nat)
    requires Distinct(node)
    ensures |IntSet(node, p)| == Count(node, IsInt(p))
    decreases |node|
  {
    if node != [] {
      var last := |node| - 1;
      IntSetCount(node[..last], p);
      if IsInt(p)(node[last]) {
        assert forall i :: 0 <= i < last ==> node[..last][i].key != node[last].key;
        IntSetNot(node[..last], p, node[last].key.i);
      }
    }
  }

  lemma {:induction false} IntervalSize(s: set<int>, lo: int, hi: int)
    requires lo <= hi && forall x :: x in s ==> lo < x <= hi
    ensures |s| <= hi - lo
    decreases hi - lo
  {
    if lo == hi {
      assert forall x :: x in s ==> false;
      assert s == {};
    } else {
      var s' := s - {hi};
      IntervalSize(s', lo, hi - 1);
      assert |s| <= |s'| + 1 by { if hi in s { assert s == s' + {hi}; } else { assert s == s'; } }
    }
  }

  /** Distinct keys: there are no more of them than numbers from 1 to `p`. */
  lemma PresentBound(arr: seq<Value>, node: seq<Node>, k: Key, p: nat)
    requires Distinct(node) && (k == NilKey || !HasKey(node, k))
    requires forall i :: 0 <= i < |node| && node[i].key.Int? ==> !(1 <= node[i].key.i <= |arr|)
    requires k.Int? ==> !(1 <= k.i <= |arr|)
    ensures Present(arr, node, k, p) <= p
  {
    var s := IntSet(node, p) + (if Extra(k, p) == 1 then {k.i} else {});
    IntSetCount(node, p);
    if Extra(k, p) == 1 {
      assert forall i :: 0 <= i < |node| ==> node[i].key != k;
      IntSetNot(node, p, k.i);
    }
    var lo := if p <= |arr| then p else |arr|;
    forall x | x in s
      ensures lo < x <= p
    {
      if x in IntSet(node, p) { IntSetKeys(node, p, x); }
    }
    IntervalSize(s, lo, p);
    if p > |arr| { InUseBeyond(arr, p); }
  }

  // ----- slices -----

  /** The counts say how many of the keys are in the slices up to each power of two. */
  ghost predicate Counted(nums: seq<nat>, f: nat -> nat) {
    forall j :: 0 <= j < |nums| ==> Sum(nums, j + 1) == f(Pow2(j))
  }

  lemma {:induction false} SumBump(nums: seq<nat>, lg: nat, c: nat, n: nat)
    requires lg < |nums| && n <= |nums|
    ensures Sum(nums[lg := nums[lg] + c], n) == Sum(nums, n) + (if lg < n then c else 0)
    decreases n
  {
    if n > 0 { SumBump(nums, lg, c, n - 1); }
  }

  lemma SliceBelow(k: int, lg: nat, j: nat)
    requires InSlice(k, lg)
    ensures lg < j + 1 <==> k <= Pow2(j)
  {
    if lg <= j { Pow2Mono(lg, j); } else { Pow2Mono(j, lg - 1); }
  }
}

/** The size of the array part of a table: counting keys by slices and choosing the best power of two. */
module TableSizes {
  import opened Basics

  /** `MAXBITS`: array parts have at most 2^30 slots. */
  function MaxBits(): nat { 30 }

  lemma {:induction false} Pow2Mono(a: nat, b: nat)
    requires a <= b
    ensures Pow2(a) <= Pow2(b)
    ensures a < b ==> 2 * Pow2(a) <= Pow2(b)
    decreases b
  {
    if a < b { Pow2Mono(a, b - 1); }
  }

  lemma {:induction false} Pow2Add(a: nat, b: nat)
    ensures Pow2(a + b) == Pow2(a) * Pow2(b)
    decreases b
  {
    if b > 0 { Pow2Add(a, b - 1); }
  }

  /** The number of bits of a number below 256: the table of `luaO_ceillog2`. */
  function Bits(x: nat): (b: nat)
    ensures x < Pow2(b) && (b > 0 ==> Pow2(b - 1) <= x)
  {
    if x == 0 then 0 else 1 + Bits(x / 2)
  }

  /** `k` is in the slice (2^(lg - 1), 2^lg], the first slice being {1}. */
  predicate InSlice(k: int, lg: nat) {
    0 < k <= Pow2(lg) && (lg > 0 ==> Pow2(lg - 1) < k)
  }

  /** `luaO_ceillog2` */
  method CeilLog2(x: nat) returns (lg: nat)
    requires x > 0
    ensures InSlice(x, lg)
  {
    var y := x - 1;
    var l := 0;
    while y >= 256
      invariant y * Pow2(l) <= x - 1 < (y + 1) * Pow2(l)
      invariant l > 0 ==> y >= 1
      decreases y
    {
      ghost var was := y;
      y := y / 256;
      assert Pow2(8) == 256;
      Pow2Add(l, 8);
      Scaled(was, y, Pow2(l), x - 1);
      l := l + 8;
    }
    lg := l + Bits(y);
    Pow2Add(l, Bits(y));
    Below(y, Pow2(Bits(y)), Pow2(l), x - 1);
    if Bits(y) > 0 {
      Pow2Add(l, Bits(y) - 1);
      AtLeast(Pow2(Bits(y) - 1), y, Pow2(l), x - 1);
    }
  }

  lemma Scaled(w: nat, y: nat, p: nat, x: nat)
    requires w * p <= x < (w + 1) * p && y == w / 256
    ensures y * (p * 256) <= x < (y + 1) * (p * 256)
  {
    var q := p * 256;
    assert y * q == (256 * y) * p;
    assert (y + 1) * q == (256 * (y + 1)) * p;
    Times(256 * y, w, p);
    Times(w + 1, 256 * (y + 1), p);
  }

  lemma Times(a: nat, b: nat, p: nat)
    requires a <= b
    ensures a * p <= b * p
  {
  }

  lemma Below(y: nat, q: nat, p: nat, x: nat)
    requires x < (y + 1) * p && y + 1 <= q
    ensures x + 1 <= p * q
  {
    Times(y + 1, q, p);
  }

  lemma AtLeast(q: nat, y: nat, p: nat, x: nat)
    requires q <= y && y * p <= x
    ensures p * q <= x
  {
    Times(q, y, p);
  }

  // ----- computesizes -----

  /** How many counted keys are in the first `n` slices, that is, in 1..2^(n-1). */
  function Sum(nums: seq<nat>, n: nat): nat
    requires n <= |nums|
  {
    if n == 0 then 0 else Sum(nums, n - 1) + nums[n - 1]
  }

  lemma {:induction false} SumMono(nums: seq<nat>, a: nat, b: nat)
    requires a <= b <= |nums|
    ensures Sum(nums, a) <= Sum(nums, b)
    decreases b
  {
    if a < b { SumMono(nums, a, b - 1); }
  }

  /** The counts of distinct positive keys: a slice holds no more keys than numbers. */
  predicate Counts(nums: seq<nat>) {
    |nums| > 0 && forall j :: 0 <= j < |nums| ==> Sum(nums, j + 1) <= Pow2(j)
  }

  /** More than half of the slots of an array part of size 2^j would be in use. */
  predicate Worthwhile(nums: seq<nat>, j: nat)
    requires j < |nums|
  {
    Sum(nums, j + 1) > Pow2(j) / 2
  }

  /** The best size among the first `i` powers of two, and the number of keys that fit. */
  predicate Best(nums: seq<nat>, i: nat, n: nat, na: nat)
    requires i <= |nums|
  {
    || (n == 0 && na == 0 && forall j :: 0 <= j < i ==> !Worthwhile(nums, j))
    || (exists j :: 0 <= j < i && n == Pow2(j) && Worthwhile(nums, j) && na == Sum(nums, j + 1)
                    && forall j' :: j < j' < i ==> !Worthwhile(nums, j'))
  }

  lemma BestStep(nums: seq<nat>, i: nat, n: nat, na: nat)
    requires i < |nums| && Best(nums, i, n, na)
    ensures if Worthwhile(nums, i) then Best(nums, i + 1, Pow2(i), Sum(nums, i + 1)) else Best(nums, i + 1, n, na)
  {
    if Worthwhile(nums, i) {
    } else if exists j :: 0 <= j < i && n == Pow2(j) && Worthwhile(nums, j) && na == Sum(nums, j + 1)
                          && forall j' :: j < j' < i ==> !Worthwhile(nums, j') {
      var j :| 0 <= j < i && n == Pow2(j) && Worthwhile(nums, j) && na == Sum(nums, j + 1)
               && forall j' :: j < j' < i ==> !Worthwhile(nums, j');
      assert forall j' :: j < j' < i + 1 ==> !Worthwhile(nums, j');
    }
  }

  lemma BestRest(nums: seq<nat>, i: nat, n: nat, na: nat)
    requires i <= |nums| && Best(nums, i, n, na)
    requires forall j :: i <= j < |nums| ==> !Worthwhile(nums, j)
    ensures Best(nums, |nums|, n, na)
    decreases |nums| - i
  {
    if i < |nums| {
      BestStep(nums, i, n, na);
      BestRest(nums, i + 1, n, na);
    }
  }

  lemma BestHalf(nums: seq<nat>, i: nat, n: nat, na: nat)
    requires Counts(nums) && i <= |nums| && Best(nums, i, n, na)
    ensures n / 2 <= na <= n
  {
  }

  /** `computesizes`: the largest worthwhile size, or 0, and the number of keys that fit. Neither the
      slices it skips nor those it does not look at hold a better answer. */
  method ComputeSizes(nums: seq<nat>, narray: nat) returns (n: nat, na: nat)
    requires Counts(nums) && narray == Sum(nums, |nums|)
    ensures Best(nums, |nums|, n, na)
    ensures n / 2 <= na <= n
  {
    hide Best, Worthwhile;
    var i := 0;
    var twotoi := 1;
    var a := 0;
    n, na := 0, 0;
    assert Sum(nums, (|nums| - 1) + 1) <= Pow2(|nums| - 1);
    NoneBest(nums);
    while twotoi / 2 < narray
      invariant 0 <= i <= |nums| && twotoi == Pow2(i) && a == Sum(nums, i)
      invariant Best(nums, i, n, na)
      decreases |nums| - i
    {
      BestStep(nums, i, n, na);
      if nums[i] > 0 {
        a := a + nums[i];
        IsWorthwhile(nums, i);
        if a > twotoi / 2 {
          n := twotoi;
          na := a;
        }
      } else {
        SkippedSlice(nums, i);
      }
      if a == narray {
        AllCounted(nums, i);
        BestRest(nums, i + 1, n, na);
        BestHalf(nums, |nums|, n, na);
        return;
      }
      i := i + 1;
      twotoi := twotoi * 2;
    }
    forall j | i <= j < |nums|
      ensures !Worthwhile(nums, j)
    {
      LaterSlices(nums, i, j, narray);
    }
    BestRest(nums, i, n, na);
    BestHalf(nums, |nums|, n, na);
  }

  lemma NoneBest(nums: seq<nat>)
    ensures Best(nums, 0, 0, 0)
  {
  }

  lemma IsWorthwhile(nums: seq<nat>, i: nat)
    requires i < |nums|
    ensures Worthwhile(nums, i) <==> Sum(nums, i + 1) > Pow2(i) / 2
  {
  }

  /** Nothing new is worthwhile in a slice without keys. */
  lemma SkippedSlice(nums: seq<nat>, i: nat)
    requires Counts(nums) && i < |nums| && nums[i] == 0
    ensures !Worthwhile(nums, i)
  {
    assert Sum(nums, 0) == 0 && Sum(nums, i + 1) == Sum(nums, i);
    if i > 0 { assert Sum(nums, (i - 1) + 1) <= Pow2(i - 1); }
  }

  lemma AllCounted(nums: seq<nat>, i: nat)
    requires Counts(nums) && i < |nums| && Sum(nums, i + 1) == Sum(nums, |nums|)
    ensures forall j :: i < j < |nums| ==> !Worthwhile(nums, j)
  {
    forall j | i < j < |nums|
      ensures !Worthwhile(nums, j)
    {
      SumMono(nums, i + 1, j + 1);
      SumMono(nums, j + 1, |nums|);
      Pow2Mono(i, j);
    }
  }

  lemma LaterSlices(nums: seq<nat>, i: nat, j: nat, narray: nat)
    requires Counts(nums) && i <= j < |nums| && narray == Sum(nums, |nums|)
    requires Pow2(i) / 2 >= narray
    ensures !Worthwhile(nums, j)
  {
    SumMono(nums, j + 1, |nums|);
    Pow2Mono(i, j);
  }
}

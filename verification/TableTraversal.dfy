/** A traversal visits every key that keeps a value exactly once, even if values change on the way. */
module TableTraversal {
  import opened TableNodes
  import opened LuaTables

  /** The two parts of a table. */
  datatype Parts = Parts(arr: seq<Value>, node: seq<Node>)

  ghost predicate PartsOk(t: Parts) {
    Distinct(t.node) && HashOnly(t.arr, t.node) && forall i :: 0 <= i < |t.node| && t.node[i].key == NilKey ==>
        t.node[i].val == Nil
  }

  /** Only values differ: existing entries were overwritten or set to nil. */
  ghost predicate SameKeys(t: Parts, t': Parts) {
    && |t'.arr| == |t.arr| && |t'.node| == |t.node|
    && forall i :: 0 <= i < |t.node| ==> t'.node[i].key == t.node[i].key
  }

  function At(t: Parts, i: nat): Value
    requires i < Size(t.arr, t.node)
  {
    ValAt(t.arr, t.node, i)
  }

  lemma IndexUnique(t: Parts, k: Key, i: int, j: int)
    requires PartsOk(t) && IsIndex(t.arr, t.node, k, i) && IsIndex(t.arr, t.node, k, j)
    ensures i == j
  {
    if k != NilKey {
      if j >= |t.arr| { NotBoth(t, k, i, j); }
      if i >= |t.arr| { NotBoth(t, k, j, i); }
    }
  }

  /** No key is in both parts. */
  lemma NotBoth(t: Parts, k: Key, i: int, j: int)
    requires PartsOk(t) && k != NilKey && IsIndex(t.arr, t.node, k, i) && IsIndex(t.arr, t.node, k, j) && j >= |t.arr|
    ensures i >= |t.arr|
  {
    assert !InArray(t.arr, t.node[j - |t.arr|].key);
  }

  /** The entry that follows is the first one with a value. */
  lemma {:induction false} FromFinds(t: Parts, i: nat, j: nat)
    requires PartsOk(t) && i <= j
    requires match From(t.arr, t.node, i)
             case Entry(k, _) => IsIndex(t.arr, t.node, k, j)
             case Finished => j == Size(t.arr, t.node)
             case InvalidKey => false
    ensures forall m :: i <= m < j && m < Size(t.arr, t.node) ==> At(t, m) == Nil
    decreases j - i
  {
    if i < Size(t.arr, t.node) {
      if ValAt(t.arr, t.node, i) != Nil {
        IndexUnique(t, KeyAt(t.arr, t.node, i), i, j);
      } else {
        if i == j { FromLater(t, i + 1); }
        FromFinds(t, i + 1, j);
      }
    }
  }

  lemma {:induction false} FromLater(t: Parts, i: nat)
    requires PartsOk(t)
    ensures match From(t.arr, t.node, i)
            case Entry(k, v) => exists j ::
                i <= j < Size(t.arr, t.node) && KeyAt(t.arr, t.node, j) == k && At(t, j) == v && v != Nil && k != NilKey
            case Finished => true
            case InvalidKey => false
    decreases Size(t.arr, t.node) - i
  {
    if i < Size(t.arr, t.node) && ValAt(t.arr, t.node, i) == Nil { FromLater(t, i + 1); }
  }

  /** A traversal: the keys it gave, and the table at each step, from the first call to the last. */
  ghost predicate IsTraversal(ts: seq<Parts>, keys: seq<Key>, idx: seq<int>) {
    && |ts| == |keys| + 1 && |idx| == |keys| + 1 && idx[0] == -1
    && (forall n :: 0 <= n < |ts| ==> PartsOk(ts[n]) && SameKeys(ts[0], ts[n]))
    && (forall n :: 0 <= n < |keys| ==> Gives(ts[n], idx[n], keys[n], idx[n + 1]))
  }

  /** `luaH_next` after the entry at position `i` gives the key at position `j`. */
  ghost predicate Gives(t: Parts, i: int, k: Key, j: int) {
    && i >= -1 && k != NilKey && IsIndex(t.arr, t.node, k, j)
    && match From(t.arr, t.node, i + 1)
       case Entry(k', _) => k' == k
       case _ => false
  }

  lemma GivesLater(t: Parts, i: int, k: Key, j: int)
    requires PartsOk(t) && Gives(t, i, k, j)
    ensures i < j < Size(t.arr, t.node) && At(t, j) != Nil
    ensures forall m :: i < m < j ==> At(t, m) == Nil
  {
    FromLater(t, i + 1);
    var j' :| i + 1 <= j' < Size(t.arr, t.node) && KeyAt(t.arr, t.node, j') == k && At(t, j') != Nil;
    IndexUnique(t, k, j, j');
    FromFinds(t, i + 1, j);
  }

  lemma StopsAt(t: Parts, i: int, k: Key, j: int, m: int)
    requires PartsOk(t) && Gives(t, i, k, j) && i < m <= j && m < Size(t.arr, t.node) && At(t, m) != Nil
    ensures j == m
  {
    GivesLater(t, i, k, j);
  }

  /** Positions only go up. */
  lemma {:induction false} Increasing(ts: seq<Parts>, keys: seq<Key>, idx: seq<int>, a: nat, b: nat)
    requires IsTraversal(ts, keys, idx) && a < b <= |keys|
    ensures idx[a] < idx[b] < Size(ts[0].arr, ts[0].node)
    decreases b
  {
    GivesLater(ts[b - 1], idx[b - 1], keys[b - 1], idx[b]);
    assert SameKeys(ts[0], ts[b - 1]);
    if a < b - 1 { Increasing(ts, keys, idx, a, b - 1); }
  }

  /** No key comes twice. */
  lemma NoRepeats(ts: seq<Parts>, keys: seq<Key>, idx: seq<int>, a: nat, b: nat)
    requires IsTraversal(ts, keys, idx) && a < b < |keys|
    ensures keys[a] != keys[b]
  {
    Increasing(ts, keys, idx, a + 1, b + 1);
    assert Gives(ts[a], idx[a], keys[a], idx[a + 1]) && Gives(ts[b], idx[b], keys[b], idx[b + 1]);
    assert SameKeys(ts[0], ts[a]) && SameKeys(ts[0], ts[b]);
    SameIndex(ts[a], ts[b], keys[a], idx[a + 1]);
    KeysDiffer(ts[b], keys[a], keys[b], idx[a + 1], idx[b + 1]);
  }

  lemma KeysDiffer(t: Parts, k: Key, k': Key, i: int, j: int)
    requires PartsOk(t) && IsIndex(t.arr, t.node, k, i) && IsIndex(t.arr, t.node, k', j) && i != j
    ensures k != k'
  {
    if k == k' { IndexUnique(t, k, i, j); }
  }

  lemma SameIndex(t: Parts, t': Parts, k: Key, i: int)
    requires |t.arr| == |t'.arr| && |t.node| == |t'.node| && IsIndex(t.arr, t.node, k, i)
    requires forall m :: 0 <= m < |t.node| ==> t'.node[m].key == t.node[m].key
    ensures IsIndex(t'.arr, t'.node, k, i)
  {
  }

  /** A traversal ends after at most as many steps as the table has places. */
  lemma {:induction false} StepBound(ts: seq<Parts>, keys: seq<Key>, idx: seq<int>, n: nat)
    requires IsTraversal(ts, keys, idx) && n <= |keys|
    ensures idx[n] >= n - 1 && (n > 0 ==> n <= Size(ts[0].arr, ts[0].node))
    decreases n
  {
    if n > 0 {
      StepBound(ts, keys, idx, n - 1);
      Increasing(ts, keys, idx, n - 1, n);
    }
  }

  /** The last step that is not behind a position. */
  lemma {:induction false} StepOver(ts: seq<Parts>, keys: seq<Key>, idx: seq<int>, i: nat, n: nat) returns (m: nat)
    requires IsTraversal(ts, keys, idx) && 0 < n <= |keys| && i <= idx[n]
    ensures m < n && idx[m] < i <= idx[m + 1]
    decreases n
  {
    if idx[n - 1] < i {
      m := n - 1;
    } else {
      m := StepOver(ts, keys, idx, i, n - 1);
    }
  }

  /** In a traversal that has ended, the key of every place with a value all the time came exactly once. */
  lemma ExactlyOnce(ts: seq<Parts>, keys: seq<Key>, idx: seq<int>, i: nat)
    requires IsTraversal(ts, keys, idx) && i < Size(ts[0].arr, ts[0].node)
    requires idx[|keys|] >= -1 && From(ts[|keys|].arr, ts[|keys|].node, idx[|keys|] + 1) == Finished
    requires forall n :: 0 <= n < |ts| ==> i < Size(ts[n].arr, ts[n].node) && At(ts[n], i) != Nil
    ensures exists n :: 0 <= n < |keys| && keys[n] == KeyAt(ts[0].arr, ts[0].node, i)
                        && forall m :: 0 <= m < |keys| && keys[m] == keys[n] ==> m == n
  {
    var last := |keys|;
    NotFinished(ts[last], idx[last] + 1, i);
    var n := StepOver(ts, keys, idx, i, last);
    StopsAt(ts[n], idx[n], keys[n], idx[n + 1], i);
    assert SameKeys(ts[0], ts[n]);
    assert keys[n] == KeyAt(ts[0].arr, ts[0].node, i);
    forall m | 0 <= m < |keys| && m != n
      ensures keys[m] != keys[n]
    {
      if m < n { NoRepeats(ts, keys, idx, m, n); } else { NoRepeats(ts, keys, idx, n, m); }
    }
  }

  lemma {:induction false} NotFinished(t: Parts, i: nat, j: nat)
    requires j < Size(t.arr, t.node) && At(t, j) != Nil
    ensures From(t.arr, t.node, i) == Finished ==> j < i
    decreases j - i
  {
    if i < j && ValAt(t.arr, t.node, i) == Nil { NotFinished(t, i + 1, j); }
  }

  // ----- by keys -----

  /** What is given is an entry of the table. */
  lemma EntryThere(t: Parts, i: nat)
    requires PartsOk(t)
    ensures var x := From(t.arr, t.node, i); x.Entry? && x.key != NaN ==>
        x.val != Nil && Lookup(t.arr, t.node, x.key) == x.val
  {
    FromLater(t, i);
    var x := From(t.arr, t.node, i);
    if x.Entry? && x.key != NaN {
      var j :| i <= j < Size(t.arr, t.node) && KeyAt(t.arr, t.node, j) == x.key && At(t, j) == x.val;
      PlaceLookup(t, j);
    }
  }

  lemma PlaceLookup(t: Parts, j: nat)
    requires PartsOk(t) && j < Size(t.arr, t.node)
    requires KeyAt(t.arr, t.node, j) != NilKey && KeyAt(t.arr, t.node, j) != NaN
    ensures Lookup(t.arr, t.node, KeyAt(t.arr, t.node, j)) == At(t, j)
  {
    if j >= |t.arr| {
      var i := j - |t.arr|;
      NodeValAt(t.node, i);
      assert !InArray(t.arr, t.node[i].key);
    }
  }

  /** Where the value of a key is */
  lemma KeyPlace(t: Parts, k: Key) returns (i: nat)
    requires PartsOk(t) && Lookup(t.arr, t.node, k) != Nil
    ensures i < Size(t.arr, t.node) && KeyAt(t.arr, t.node, i) == k && At(t, i) == Lookup(t.arr, t.node, k)
  {
    if InArray(t.arr, k) {
      i := k.i - 1;
    } else {
      if !HasKey(t.node, k) { NodeValNone(t.node, k); }
      var j :| 0 <= j < |t.node| && t.node[j].key == k;
      NodeValAt(t.node, j);
      i := |t.arr| + j;
    }
  }

  /** In a traversal that has ended, every key with a value all the time came exactly once, and only once. */
  lemma EveryKeyOnce(ts: seq<Parts>, keys: seq<Key>, idx: seq<int>, k: Key)
    requires IsTraversal(ts, keys, idx)
    requires idx[|keys|] >= -1 && From(ts[|keys|].arr, ts[|keys|].node, idx[|keys|] + 1) == Finished
    requires forall n :: 0 <= n < |ts| ==> Lookup(ts[n].arr, ts[n].node, k) != Nil
    ensures exists n :: 0 <= n < |keys| && keys[n] == k && forall m :: 0 <= m < |keys| && keys[m] == k ==> m == n
  {
    hide Lookup, From;
    var i := KeyPlace(ts[0], k);
    forall n | 0 <= n < |ts|
      ensures i < Size(ts[n].arr, ts[n].node) && At(ts[n], i) != Nil
    {
      SamePlace(ts[0], ts[n], k, i);
    }
    ExactlyOnce(ts, keys, idx, i);
  }

  lemma SamePlace(t: Parts, t': Parts, k: Key, i: nat)
    requires PartsOk(t) && PartsOk(t') && SameKeys(t, t') && i < Size(t.arr, t.node) && KeyAt(t.arr, t.node, i) == k
    requires k != NilKey && Lookup(t'.arr, t'.node, k) != Nil
    ensures i < Size(t'.arr, t'.node) && At(t', i) != Nil
  {
    var j := KeyPlace(t', k);
    IndexUnique(t', k, i, j);
  }
}

/** The hash part of a table: chains through a vector of nodes. */
module TableNodes {

  datatype Value = Nil | Data(v: int)

  /** Numbers with an integer value are the candidates for the array part. */
  datatype Key = NilKey | NaN | Int(i: int) | Other(id: int)

  /** `next` is the position of the next node of the chain, or NONE. */
  datatype Node = Node(key: Key, val: Value, next: int)

  const NONE: int := -1

  /** A hash function gives a position for every key and every size. */
  type Hash = (Key, nat) -> nat

  ghost predicate HashOk(h: Hash) {
    forall k, n: nat :: n > 0 ==> h(k, n) < n
  }

  function Main(h: Hash, node: seq<Node>, k: Key): nat {
    h(k, |node|)
  }

  // ----- what the nodes hold -----

  /** The value of the key in the nodes. */
  function NodeVal(node: seq<Node>, k: Key): Value
    decreases |node|
  {
    if node == [] then Nil
    else if node[|node| - 1].key == k then node[|node| - 1].val
    else NodeVal(node[..|node| - 1], k)
  }

  ghost predicate HasKey(node: seq<Node>, k: Key) {
    exists i :: 0 <= i < |node| && node[i].key == k
  }

  /** Every key but the nil of free nodes occurs once. */
  ghost predicate Distinct(node: seq<Node>) {
    forall i, j :: 0 <= i < j < |node| && node[i].key == node[j].key ==> node[i].key == NilKey
  }

  lemma {:induction false} NodeValAt(node: seq<Node>, i: nat)
    requires Distinct(node) && i < |node| && node[i].key != NilKey
    ensures NodeVal(node, node[i].key) == node[i].val
    decreases |node|
  {
    if i < |node| - 1 { NodeValAt(node[..|node| - 1], i); }
  }

  lemma {:induction false} NodeValNone(node: seq<Node>, k: Key)
    requires !HasKey(node, k)
    ensures NodeVal(node, k) == Nil
    decreases |node|
  {
    if node != [] {
      assert node[|node| - 1].key != k;
      NodeValNone(node[..|node| - 1], k);
    }
  }

  // ----- chains -----

  /** Links go down in rank, to nodes in use; free nodes are not linked. */
  ghost predicate Linked(node: seq<Node>, rank: seq<nat>) {
    && |rank| == |node|
    && forall i :: 0 <= i < |node| ==> LinkOk(node, rank, i)
  }

  predicate LinkOk(node: seq<Node>, rank: seq<nat>, i: nat)
    requires i < |node| && |rank| == |node|
  {
    && (node[i].next != NONE ==>
        0 <= node[i].next < |node| && rank[node[i].next] < rank[i] && node[node[i].next].key != NilKey)
    && (node[i].key == NilKey ==> node[i].next == NONE && node[i].val == Nil)
  }

  /** No node follows two others. */
  ghost predicate OneParent(node: seq<Node>) {
    forall i, j :: 0 <= i < |node| && 0 <= j < |node| && node[i].next == node[j].next && node[i].next != NONE ==> i == j
  }

  ghost predicate Reaches(node: seq<Node>, rank: seq<nat>, a: nat, i: nat)
    requires Linked(node, rank) && a < |node|
    decreases rank[a]
  {
    assert LinkOk(node, rank, a);
    a == i || (node[a].next != NONE && Reaches(node, rank, node[a].next, i))
  }

  /** Every key is in the chain that starts at its main position. */
  ghost predicate Reachable(node: seq<Node>, rank: seq<nat>, h: Hash)
    requires Linked(node, rank) && HashOk(h)
  {
    forall i :: 0 <= i < |node| && node[i].key != NilKey ==> Reaches(node, rank, Main(h, node, node[i].key), i)
  }

  /** If a key is not in its main position, the key that is there is in its own. */
  ghost predicate AtHome(node: seq<Node>, h: Hash)
    requires HashOk(h)
  {
    forall i :: 0 <= i < |node| && node[i].key != NilKey ==> HomeOk(node, h, Main(h, node, node[i].key), i)
  }

  predicate HomeOk(node: seq<Node>, h: Hash, a: nat, i: nat)
    requires a < |node|
  {
    a == i || (node[a].key != NilKey && Main(h, node, node[a].key) == a)
  }

  ghost predicate Valid(node: seq<Node>, rank: seq<nat>, h: Hash) {
    && HashOk(h) && |node| > 0
    && Linked(node, rank) && OneParent(node) && Distinct(node)
    && Reachable(node, rank, h) && AtHome(node, h)
    && forall i :: 0 <= i < |node| ==> node[i].key != NaN
  }

  // ----- a key in its main position -----

  /** The node takes another key; its links stay. */
  lemma ReplaceReaches(node: seq<Node>, rank: seq<nat>, m: nat, n': Node, a: nat, i: nat)
    requires Linked(node, rank) && m < |node| && a < |node| && n'.next == node[m].next && Linked(node[m := n'], rank)
    requires Reaches(node, rank, a, i)
    ensures Reaches(node[m := n'], rank, a, i)
    decreases rank[a]
  {
    assert LinkOk(node, rank, a);
    if a != i { ReplaceReaches(node, rank, m, n', node[a].next, i); }
  }

  lemma ReplaceLinked(node: seq<Node>, rank: seq<nat>, m: nat, n': Node)
    requires Linked(node, rank) && m < |node| && n'.key != NilKey && n'.next == node[m].next
    ensures Linked(node[m := n'], rank)
  {
    var node' := node[m := n'];
    forall i | 0 <= i < |node'|
      ensures LinkOk(node', rank, i)
    {
      assert LinkOk(node, rank, i);
    }
  }

  /** A new key goes to its main position, which holds no value. */
  lemma PutAtMain(node: seq<Node>, rank: seq<nat>, h: Hash, k: Key, v: Value)
    requires Valid(node, rank, h) && k != NilKey && k != NaN && !HasKey(node, k)
    ensures var m := Main(h, node, k);
            m < |node| && Valid(node[m := Node(k, v, node[m].next)], rank, h)
  {
    var m := Main(h, node, k);
    var n' := Node(k, v, node[m].next);
    var node' := node[m := n'];
    ReplaceLinked(node, rank, m, n');
    forall i | 0 <= i < |node'| && node'[i].key != NilKey
      ensures Reaches(node', rank, Main(h, node', node'[i].key), i)
      ensures HomeOk(node', h, Main(h, node', node'[i].key), i)
    {
      if i != m {
        var a := Main(h, node, node[i].key);
        assert Reaches(node, rank, a, i);
        ReplaceReaches(node, rank, m, n', a, i);
        assert HomeOk(node, h, a, i);
      }
    }
  }

  /** The value of a key changes. */
  lemma PutValue(node: seq<Node>, rank: seq<nat>, h: Hash, m: nat, v: Value)
    requires Valid(node, rank, h) && m < |node| && node[m].key != NilKey
    ensures Valid(node[m := node[m].(val := v)], rank, h)
  {
    var n' := node[m].(val := v);
    var node' := node[m := n'];
    ReplaceLinked(node, rank, m, n');
    forall i | 0 <= i < |node'| && node'[i].key != NilKey
      ensures Reaches(node', rank, Main(h, node', node'[i].key), i)
      ensures HomeOk(node', h, Main(h, node', node'[i].key), i)
    {
      var a := Main(h, node, node[i].key);
      assert Reaches(node, rank, a, i);
      ReplaceReaches(node, rank, m, n', a, i);
      assert HomeOk(node, h, a, i);
    }
  }

  // ----- a key in a free node -----

  /** The colliding key is in its main position `m`: the new key goes to the free node `n` behind it. */
  function ChainAfter(node: seq<Node>, m: nat, n: nat, k: Key, v: Value): seq<Node>
    requires m < |node| && n < |node|
  {
    node[n := Node(k, v, node[m].next)][m := node[m].(next := n)]
  }

  function ChainRank(rank: seq<nat>, m: nat, n: nat): (r: seq<nat>)
    requires m < |rank| && n < |rank|
    ensures |r| == |rank|
  {
    seq(|rank|, i requires 0 <= i < |rank| => if i == n then 2 * rank[m] else 2 * rank[i] + 1)
  }

  lemma FreeUnlinked(node: seq<Node>, rank: seq<nat>, n: nat)
    requires Linked(node, rank) && n < |node| && node[n].key == NilKey
    ensures node[n].next == NONE && forall i :: 0 <= i < |node| ==> node[i].next != n
  {
    assert LinkOk(node, rank, n);
    forall i | 0 <= i < |node|
      ensures node[i].next != n
    {
      assert LinkOk(node, rank, i);
    }
  }

  lemma ChainLinked(node: seq<Node>, rank: seq<nat>, m: nat, n: nat, k: Key, v: Value)
    requires Linked(node, rank) && OneParent(node) && m < |node| && n < |node| && m != n && node[n].key == NilKey
    requires node[m].key != NilKey && k != NilKey
    ensures Linked(ChainAfter(node, m, n, k, v), ChainRank(rank, m, n)) && OneParent(ChainAfter(node, m, n, k, v))
  {
    var node', rank' := ChainAfter(node, m, n, k, v), ChainRank(rank, m, n);
    FreeUnlinked(node, rank, n);
    forall i | 0 <= i < |node'|
      ensures LinkOk(node', rank', i)
    {
      assert LinkOk(node, rank, i) && LinkOk(node, rank, m);
    }
  }

  lemma {:induction false} ChainReaches(node: seq<Node>, rank: seq<nat>, m: nat, n: nat, k: Key, v: Value, a: nat,
                                        i: nat)
    requires Linked(node, rank) && OneParent(node) && m < |node| && n < |node| && m != n && node[n].key == NilKey
    requires node[m].key != NilKey && k != NilKey
    requires a < |node| && a != n && i != n && Reaches(node, rank, a, i)
    requires Linked(ChainAfter(node, m, n, k, v), ChainRank(rank, m, n))
    ensures Reaches(ChainAfter(node, m, n, k, v), ChainRank(rank, m, n), a, i)
    decreases rank[a]
  {
    var node', rank' := ChainAfter(node, m, n, k, v), ChainRank(rank, m, n);
    FreeUnlinked(node, rank, n);
    assert LinkOk(node, rank, a) && LinkOk(node', rank', a);
    if a != i {
      ChainReaches(node, rank, m, n, k, v, node[a].next, i);
      if a == m {
        assert LinkOk(node', rank', n);
        assert Reaches(node', rank', n, i);
      }
    }
  }

  lemma ChainValid(node: seq<Node>, rank: seq<nat>, h: Hash, n: nat, k: Key, v: Value)
    requires Valid(node, rank, h) && k != NilKey && k != NaN && !HasKey(node, k) && n < |node| && node[n].key == NilKey
    requires var m := Main(h, node, k); node[m].key != NilKey && Main(h, node, node[m].key) == m
    ensures var m := Main(h, node, k);
            Valid(ChainAfter(node, m, n, k, v), ChainRank(rank, m, n), h)
  {
    var m := Main(h, node, k);
    var node', rank' := ChainAfter(node, m, n, k, v), ChainRank(rank, m, n);
    ChainLinked(node, rank, m, n, k, v);
    assert |node'| == |node|;
    assert Distinct(node') by {
      forall i, j | 0 <= i < j < |node'| && node'[i].key == node'[j].key
        ensures node'[i].key == NilKey
      {
        assert node[i].key != k && node[j].key != k;
      }
    }
    forall i | 0 <= i < |node'| && node'[i].key != NilKey
      ensures Reaches(node', rank', Main(h, node', node'[i].key), i)
      ensures HomeOk(node', h, Main(h, node', node'[i].key), i)
    {
      if i == n {
        assert LinkOk(node', rank', m);
        assert Reaches(node', rank', n, n);
      } else {
        var a := Main(h, node, node[i].key);
        assert Reaches(node, rank, a, i) && HomeOk(node, h, a, i);
        ChainReaches(node, rank, m, n, k, v, a, i);
      }
    }
  }

  // ----- Brent's variation -----

  /** The colliding key is not in its main position: it moves to the free node `n`, behind its predecessor `p`,
      and the new key takes the node `m`. */
  function MoveAway(node: seq<Node>, m: nat, n: nat, p: nat, k: Key, v: Value): seq<Node>
    requires m < |node| && n < |node| && p < |node|
  {
    node[p := node[p].(next := n)][n := node[m]][m := Node(k, v, NONE)]
  }

  function MoveRank(rank: seq<nat>, m: nat, n: nat): seq<nat>
    requires m < |rank| && n < |rank|
  {
    rank[n := rank[m]]
  }

  ghost predicate MoveOk(node: seq<Node>, rank: seq<nat>, m: nat, n: nat, p: nat) {
    && Linked(node, rank) && OneParent(node) && m < |node| && n < |node| && p < |node|
    && node[n].key == NilKey && node[m].key != NilKey && node[p].next == m
  }

  lemma MoveApart(node: seq<Node>, rank: seq<nat>, m: nat, n: nat, p: nat)
    requires MoveOk(node, rank, m, n, p)
    ensures p != m && p != n && m != n && rank[m] < rank[p] && node[p].key != NilKey
    ensures node[n].next == NONE && forall i :: 0 <= i < |node| ==> node[i].next != n
    ensures forall i :: 0 <= i < |node| && i != p ==> node[i].next != m
  {
    FreeUnlinked(node, rank, n);
    assert LinkOk(node, rank, p);
  }

  lemma MoveLinked(node: seq<Node>, rank: seq<nat>, m: nat, n: nat, p: nat, k: Key, v: Value)
    requires MoveOk(node, rank, m, n, p) && k != NilKey
    ensures Linked(MoveAway(node, m, n, p, k, v), MoveRank(rank, m, n)) && OneParent(MoveAway(node, m, n, p, k, v))
  {
    var node', rank' := MoveAway(node, m, n, p, k, v), MoveRank(rank, m, n);
    MoveApart(node, rank, m, n, p);
    forall i | 0 <= i < |node'|
      ensures LinkOk(node', rank', i)
    {
      assert LinkOk(node, rank, i) && LinkOk(node, rank, m);
    }
  }

  /** What was reached through the moved node is reached through its new place. */
  lemma {:induction false} MoveReaches(node: seq<Node>, rank: seq<nat>, m: nat, n: nat, p: nat, k: Key, v: Value,
                                       a: nat, i: nat)
    requires MoveOk(node, rank, m, n, p) && k != NilKey
    requires Linked(MoveAway(node, m, n, p, k, v), MoveRank(rank, m, n))
    requires a < |node| && a != m && a != n && i != n && Reaches(node, rank, a, i)
    ensures Reaches(MoveAway(node, m, n, p, k, v), MoveRank(rank, m, n), a, if i == m then n else i)
    decreases rank[a]
  {
    var node', rank' := MoveAway(node, m, n, p, k, v), MoveRank(rank, m, n);
    MoveApart(node, rank, m, n, p);
    assert LinkOk(node, rank, a) && LinkOk(node', rank', a) && LinkOk(node, rank, m) && LinkOk(node', rank', n);
    if a != i {
      if a == p {
        if i == m {
          assert Reaches(node', rank', n, n);
        } else {
          assert Reaches(node, rank, m, i);
          assert node[m].next != NONE && Reaches(node, rank, node[m].next, i);
          assert node[m].next != m;
          MoveReaches(node, rank, m, n, p, k, v, node[m].next, i);
          assert Reaches(node', rank', n, i);
        }
      } else {
        MoveReaches(node, rank, m, n, p, k, v, node[a].next, i);
      }
    }
  }

  lemma MoveValid(node: seq<Node>, rank: seq<nat>, h: Hash, n: nat, p: nat, k: Key, v: Value)
    requires Valid(node, rank, h) && k != NilKey && k != NaN && !HasKey(node, k)
    requires MoveOk(node, rank, Main(h, node, k), n, p)
    requires Main(h, node, node[Main(h, node, k)].key) != Main(h, node, k)
    ensures var m := Main(h, node, k);
            Valid(MoveAway(node, m, n, p, k, v), MoveRank(rank, m, n), h)
  {
    var m := Main(h, node, k);
    var node', rank' := MoveAway(node, m, n, p, k, v), MoveRank(rank, m, n);
    MoveLinked(node, rank, m, n, p, k, v);
    assert |node'| == |node|;
    assert Distinct(node') by { MoveDistinct(node, rank, m, n, p, k, v); }
    hide Distinct, Linked, OneParent, MoveOk;
    forall i | 0 <= i < |node'| && node'[i].key != NilKey
      ensures Reaches(node', rank', Main(h, node', node'[i].key), i)
      ensures HomeOk(node', h, Main(h, node', node'[i].key), i)
    {
      if i != m { MovePlace(node, rank, h, n, p, k, v, i); }
    }
  }

  lemma MoveDistinct(node: seq<Node>, rank: seq<nat>, m: nat, n: nat, p: nat, k: Key, v: Value)
    requires Distinct(node) && MoveOk(node, rank, m, n, p) && !HasKey(node, k)
    ensures Distinct(MoveAway(node, m, n, p, k, v))
  {
    var node' := MoveAway(node, m, n, p, k, v);
    MoveApart(node, rank, m, n, p);
    forall i, j | 0 <= i < j < |node'| && node'[i].key == node'[j].key
      ensures node'[i].key == NilKey
    {
      assert node[i].key != k && node[j].key != k && node[m].key != k;
    }
  }

  lemma MovePlace(node: seq<Node>, rank: seq<nat>, h: Hash, n: nat, p: nat, k: Key, v: Value, i: nat)
    requires Valid(node, rank, h) && k != NilKey && k != NaN && !HasKey(node, k)
    requires MoveOk(node, rank, Main(h, node, k), n, p)
    requires Main(h, node, node[Main(h, node, k)].key) != Main(h, node, k)
    requires i < |node| && i != Main(h, node, k)
    requires Linked(MoveAway(node, Main(h, node, k), n, p, k, v), MoveRank(rank, Main(h, node, k), n))
    ensures var m := Main(h, node, k);
      var node', rank' := MoveAway(node, m, n, p, k, v), MoveRank(rank, m, n);
      |node'| == |node| && (node'[i].key != NilKey ==>
        Reaches(node', rank', Main(h, node', node'[i].key), i) && HomeOk(node', h, Main(h, node', node'[i].key), i))
  {
    var m := Main(h, node, k);
    var node' := MoveAway(node, m, n, p, k, v);
    MoveLinked(node, rank, m, n, p, k, v);
    MoveApart(node, rank, m, n, p);
    if node'[i].key != NilKey {
      var j := if i == n then m else i;
      var a := Main(h, node, node[j].key);
      assert Reaches(node, rank, a, j) && HomeOk(node, h, a, j);
      assert a != m;
      assert a != n by { assert a == j || node[a].key != NilKey; }
      MoveReaches(node, rank, m, n, p, k, v, a, j);
    }
  }
}

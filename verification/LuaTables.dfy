/** Tables with an array part and a hash part, changed in place. They refine a finite map, whatever the
    hash function is. */
module LuaTables {
  import opened Basics
  import opened TableNodes
  import opened TableSizes
  import opened TableCounts

  /** The map that a table stands for. */
  function Lookup(arr: seq<Value>, node: seq<Node>, k: Key): Value {
    match k
    case NilKey => Nil
    case NaN => Nil
    case Int(i) => if 1 <= i <= |arr| then arr[i - 1] else NodeVal(node, k)
    case Other(_) => NodeVal(node, k)
  }

  const EmptyNode: Node := Node(NilKey, Nil, NONE)

  function EmptyNodes(n: nat): (node: seq<Node>)
    ensures |node| == n
  {
    seq(n, _ => EmptyNode)
  }

  predicate InArray(arr: seq<Value>, k: Key) {
    k.Int? && 1 <= k.i <= |arr|
  }

  ghost predicate HashOnly(arr: seq<Value>, node: seq<Node>) {
    forall i :: 0 <= i < |node| ==> !InArray(arr, node[i].key)
  }

  /** All free nodes are below `lastfree`. */
  ghost predicate FreeBelow(node: seq<Node>, lastfree: nat) {
    forall i :: lastfree <= i < |node| ==> node[i].key != NilKey
  }

  ghost predicate TableOk(arr: seq<Value>, node: seq<Node>, rank: seq<nat>, h: Hash, lastfree: nat, dummy: bool) {
    && Valid(node, rank, h) && HashOnly(arr, node) && lastfree <= |node| && |arr| <= Pow2(MaxBits())
    && (if dummy then node == [EmptyNode] && lastfree == 0 else FreeBelow(node, lastfree))
  }

  /** Only the value of `k` is different. */
  ghost predicate Updates(arr: seq<Value>, node: seq<Node>, k: Key, v: Value, arr': seq<Value>, node': seq<Node>) {
    forall k' :: Lookup(arr', node', k') == if k' == k then v else Lookup(arr, node, k')
  }

  // ----- what the changes of nodes do to the map -----

  ghost predicate Holds(node: seq<Node>, k: Key, v: Value) {
    exists j :: 0 <= j < |node| && node[j].key == k && node[j].val == v
  }

  /** The same keys with the same values, but for one. */
  ghost predicate SameBut(node: seq<Node>, node': seq<Node>, k: Key, v: Value) {
    && (forall k', v' :: k' != NilKey && k' != k && v' != Nil ==> (Holds(node, k', v') <==> Holds(node', k', v')))
    && Holds(node', k, v)
  }

  lemma NodeValIs(node: seq<Node>, k: Key)
    requires Distinct(node) && k != NilKey
    ensures NodeVal(node, k) != Nil ==> Holds(node, k, NodeVal(node, k))
    ensures forall v :: Holds(node, k, v) ==> v == NodeVal(node, k)
  {
    forall i | 0 <= i < |node| && node[i].key == k
      ensures node[i].val == NodeVal(node, k)
    {
      NodeValAt(node, i);
    }
    if !HasKey(node, k) { NodeValNone(node, k); }
  }

  lemma SameButLookup(arr: seq<Value>, node: seq<Node>, node': seq<Node>, k: Key, v: Value)
    requires Distinct(node) && Distinct(node') && SameBut(node, node', k, v) && k != NilKey && k != NaN
    requires !InArray(arr, k)
    ensures Updates(arr, node, k, v, arr, node')
  {
    hide Holds;
    forall k': Key
      ensures Lookup(arr, node', k') == if k' == k then v else Lookup(arr, node, k')
    {
      if k' != NilKey {
        NodeValIs(node, k');
        NodeValIs(node', k');
      }
    }
  }

  lemma PutSame(node: seq<Node>, m: nat, n': Node, k: Key, v: Value)
    requires m < |node| && n'.key == k && n'.val == v && (node[m].key == k || node[m].val == Nil)
    ensures SameBut(node, node[m := n'], k, v)
  {
    var node' := node[m := n'];
    assert node'[m].key == k;
    forall k', v' | k' != NilKey && k' != k && v' != Nil
      ensures Holds(node, k', v') <==> Holds(node', k', v')
    {
      assert forall i :: 0 <= i < |node| && i != m ==> node'[i] == node[i];
    }
  }

  lemma ChainSame(node: seq<Node>, m: nat, n: nat, k: Key, v: Value)
    requires m < |node| && n < |node| && m != n && node[n].val == Nil
    ensures SameBut(node, ChainAfter(node, m, n, k, v), k, v)
  {
    var node' := ChainAfter(node, m, n, k, v);
    assert node'[n].key == k;
    forall k', v' | k' != NilKey && k' != k && v' != Nil
      ensures Holds(node, k', v') <==> Holds(node', k', v')
    {
      assert forall i :: 0 <= i < |node| && i != n ==> node'[i].key == node[i].key && node'[i].val == node[i].val;
    }
  }

  lemma MoveSame(node: seq<Node>, m: nat, n: nat, p: nat, k: Key, v: Value)
    requires m < |node| && n < |node| && p < |node| && m != n && p != m && p != n && node[n].val == Nil
    ensures SameBut(node, MoveAway(node, m, n, p, k, v), k, v)
  {
    var node' := MoveAway(node, m, n, p, k, v);
    assert node'[m].key == k && node'[n].key == node[m].key && node'[n].val == node[m].val;
    assert forall i :: 0 <= i < |node| && i != m && i != n ==>
        node'[i].key == node[i].key && node'[i].val == node[i].val;
    forall k', v' | k' != NilKey && k' != k && v' != Nil
      ensures Holds(node, k', v') <==> Holds(node', k', v')
    {
      if Holds(node, k', v') {
        var i :| 0 <= i < |node| && node[i].key == k' && node[i].val == v';
        var j := if i == m then n else i;
        assert node'[j].key == k' && node'[j].val == v';
      }
      if Holds(node', k', v') {
        var j :| 0 <= j < |node'| && node'[j].key == k' && node'[j].val == v';
        var i := if j == n then m else j;
        assert node[i].key == k' && node[i].val == v';
      }
    }
  }

  lemma EmptyValid(n: nat, h: Hash)
    requires HashOk(h) && n > 0
    ensures Valid(EmptyNodes(n), seq(n, _ => 0), h)
  {
  }

  // ----- resizing: what is still to be inserted -----

  /** During a resize: the keys of the old table that are in the new one have their values, the others
      that are still in the first `i` old nodes have none yet. */
  ghost predicate Moved(arr0: seq<Value>, node0: seq<Node>, i: nat, arr: seq<Value>, node: seq<Node>)
    requires i <= |node0|
  {
    forall k :: k != NilKey && k != NaN ==>
      Lookup(arr, node, k) == if NodeVal(node0[..i], k) != Nil then Nil else Lookup(arr0, node0, k)
  }

  lemma PrefixDistinct(node: seq<Node>, i: nat)
    requires Distinct(node) && i <= |node|
    ensures Distinct(node[..i])
  {
  }

  lemma MovedStep(arr0: seq<Value>, node0: seq<Node>, i: nat, arr: seq<Value>, node: seq<Node>, arr': seq<Value>,
                  node': seq<Node>)
    requires Distinct(node0) && HashOnly(arr0, node0) && 0 < i <= |node0| && Moved(arr0, node0, i, arr, node)
    requires node0[i - 1].val != Nil && node0[i - 1].key != NilKey && node0[i - 1].key != NaN
    requires Updates(arr, node, node0[i - 1].key, node0[i - 1].val, arr', node')
    ensures Moved(arr0, node0, i - 1, arr', node')
  {
    var n := node0[i - 1];
    PrefixDistinct(node0, i);
    PrefixDistinct(node0, i - 1);
    assert node0[..i][..i - 1] == node0[..i - 1];
    assert !HasKey(node0[..i - 1], n.key) by {
      assert forall j :: 0 <= j < i - 1 ==> node0[j].key != n.key;
    }
    NodeValNone(node0[..i - 1], n.key);
    NodeValAt(node0, i - 1);
    forall k | k != NilKey && k != NaN
      ensures Lookup(arr', node', k) == if NodeVal(node0[..i - 1], k) != Nil then Nil else Lookup(arr0, node0, k)
    {
      if k != n.key { assert NodeVal(node0[..i], k) == NodeVal(node0[..i - 1], k); }
    }
  }

  lemma MovedSkip(arr0: seq<Value>, node0: seq<Node>, i: nat, arr: seq<Value>, node: seq<Node>)
    requires Distinct(node0) && 0 < i <= |node0| && Moved(arr0, node0, i, arr, node) && node0[i - 1].val == Nil
    ensures Moved(arr0, node0, i - 1, arr, node)
  {
    var n := node0[i - 1];
    assert node0[..i][..i - 1] == node0[..i - 1];
    forall k | k != NilKey && k != NaN
      ensures Lookup(arr, node, k) == if NodeVal(node0[..i - 1], k) != Nil then Nil else Lookup(arr0, node0, k)
    {
      if k == n.key {
        assert !HasKey(node0[..i - 1], k) by { assert forall j :: 0 <= j < i - 1 ==> node0[j].key != n.key; }
        NodeValNone(node0[..i - 1], k);
      }
    }
  }

  /** While the array part shrinks: the slots below `i` have their values. */
  ghost predicate Vanished(arr0: seq<Value>, n: nat, i: nat, arr: seq<Value>, node: seq<Node>)
  {
    forall k :: Lookup(arr, node, k) == if k.Int? && 1 <= k.i <= i && k.i <= |arr0| then arr0[k.i - 1] else Nil
  }

  class LuaTable {
    var arr: seq<Value>
    var node: seq<Node>
    var lastfree: nat
    var dummy: bool
    ghost var rank: seq<nat>
    const h: Hash

    ghost predicate Ok()
      reads this
    {
      TableOk(arr, node, rank, h, lastfree, dummy)
    }

    /** `luaH_new` */
    constructor (h: Hash)
      requires HashOk(h)
      ensures Ok() && this.h == h && forall k :: Lookup(arr, node, k) == Nil
    {
      this.h := h;
      arr, node, lastfree, dummy := [], [EmptyNode], 0, true;
      rank := [0];
      new;
      assert node == EmptyNodes(1);
      assert rank == seq(1, _ => 0);
      EmptyValid(1, h);
      NoValues(1);
    }

    // ----- searching -----

    /** The walk along the chain of the key's main position. */
    method FindNode(k: Key) returns (n: int)
      requires Ok() && k != NilKey
      ensures n == NONE <==> !HasKey(node, k)
      ensures n != NONE ==> 0 <= n < |node| && node[n].key == k
    {
      var a := Main(h, node, k);
      assert forall i :: 0 <= i < |node| && node[i].key == k ==> Reaches(node, rank, a, i);
      while node[a].key != k
        invariant 0 <= a < |node|
        invariant forall i :: 0 <= i < |node| && node[i].key == k ==> Reaches(node, rank, a, i)
        decreases rank[a]
      {
        assert LinkOk(node, rank, a);
        if node[a].next == NONE {
          return NONE;
        }
        a := node[a].next;
      }
      return a;
    }

    /** `luaH_get` */
    method Get(k: Key) returns (v: Value)
      requires Ok()
      ensures v == Lookup(arr, node, k)
    {
      if k == NilKey { return Nil; }
      if k.Int? && 1 <= k.i <= |arr| { return arr[k.i - 1]; }
      var n := FindNode(k);
      if n == NONE {
        NodeValNone(node, k);
        return Nil;
      }
      NodeValAt(node, n);
      return node[n].val;
    }

    /** `getfreepos` */
    method GetFreePos() returns (n: int)
      requires Ok()
      modifies this`lastfree
      ensures n == NONE ==> (dummy || FreeBelow(node, 0)) && lastfree == 0
      ensures n != NONE ==>
          !dummy && 0 <= n < |node| && node[n].key == NilKey && lastfree == n && FreeBelow(node, n + 1)
    {
      while lastfree > 0
        invariant dummy ==> lastfree == 0
        invariant lastfree <= |node| && (!dummy ==> FreeBelow(node, lastfree))
      {
        lastfree := lastfree - 1;
        if node[lastfree].key == NilKey {
          return lastfree;
        }
      }
      return NONE;
    }

    // ----- inserting -----

    /** There is a free node for one more key. */
    ghost predicate Room()
      reads this
    {
      !dummy && Count(node, IsFree()) > 0
    }

    /** A new key of the hash part; only a table without room grows. */
    method NewKey(k: Key, v: Value, ghost room: bool)
      requires Ok() && k != NilKey && k != NaN && !HasKey(node, k) && !InArray(arr, k)
      requires room ==> Room()
      modifies this
      ensures Ok() && Updates(old(arr), old(node), k, v, arr, node)
      ensures room ==> arr == old(arr) && !dummy && Count(node, IsFree()) + 1 >= old(Count(node, IsFree()))
      decreases if room then 0 else 1, 0
    {
      hide Updates, Count, Pow2, Reaches;
      var mp := Main(h, node, k);
      if node[mp].val != Nil || dummy {
        var n := GetFreePos();
        if n == NONE {
          NoRoom(node, dummy);
          Rehash(k);
          ghost var arr1, node1 := arr, node;
          var _ := Set(k, v, true);
          UpdatesAfter(old(arr), old(node), arr1, node1, k, v, arr, node);
        } else {
          FilledLink(node, rank, mp);
          var othern := Main(h, node, node[mp].key);
          if othern != mp {
            MoveColliding(k, v, n, othern);
          } else {
            ChainColliding(k, v, n);
          }
        }
      } else {
        PlaceInMain(k, v);
      }
    }

    /** The key takes its main position, which holds no value. */
    method PlaceInMain(k: Key, v: Value)
      requires Ok() && !dummy && k != NilKey && k != NaN && !HasKey(node, k) && !InArray(arr, k)
      requires node[Main(h, node, k)].val == Nil
      modifies this`node
      ensures Ok() && Updates(old(arr), old(node), k, v, arr, node)
      ensures Count(node, IsFree()) + 1 >= old(Count(node, IsFree()))
    {
      hide Count, Pow2, Reaches;
      var mp := Main(h, node, k);
      ghost var node0 := node;
      var n' := Node(k, v, node[mp].next);
      PutAtMain(node0, rank, h, k, v);
      PutSame(node0, mp, n', k, v);
      CountUpdate(node0, mp, n', IsFree());
      node := node[mp := n'];
      SameButLookup(arr, node0, node, k, v);
    }

    method ChainColliding(k: Key, v: Value, n: nat)
      requires Valid(node, rank, h) && HashOnly(arr, node) && |arr| <= Pow2(MaxBits()) && !dummy
      requires k != NilKey && k != NaN && !HasKey(node, k) && !InArray(arr, k)
      requires n < |node| && node[n].key == NilKey && lastfree == n && FreeBelow(node, n + 1)
      requires var m := Main(h, node, k); node[m].key != NilKey && Main(h, node, node[m].key) == m
      modifies this`node, this`rank
      ensures Ok() && Updates(old(arr), old(node), k, v, arr, node)
      ensures Count(node, IsFree()) + 1 >= old(Count(node, IsFree()))
    {
      hide Count, Pow2, Reaches;
      var mp := Main(h, node, k);
      ghost var node0 := node;
      ChainValid(node0, rank, h, n, k, v);
      assert LinkOk(node0, rank, n);
      ChainSame(node0, mp, n, k, v);
      CountUpdate(node0, n, Node(k, v, node0[mp].next), IsFree());
      CountUpdate(node0[n := Node(k, v, node0[mp].next)], mp, node0[mp].(next := n), IsFree());
      rank := ChainRank(rank, mp, n);
      node := node[n := Node(k, v, node[mp].next)][mp := node[mp].(next := n)];
      SameButLookup(arr, node0, node, k, v);
    }

    /** Brent's variation: finds the predecessor of the colliding node and moves the node away. */
    method MoveColliding(k: Key, v: Value, n: nat, othern: nat)
      requires Valid(node, rank, h) && HashOnly(arr, node) && |arr| <= Pow2(MaxBits()) && !dummy
      requires k != NilKey && k != NaN && !HasKey(node, k) && !InArray(arr, k)
      requires n < |node| && node[n].key == NilKey && lastfree == n && FreeBelow(node, n + 1)
      requires var m := Main(h, node, k); node[m].key != NilKey && othern == Main(h, node, node[m].key) && othern != m
      modifies this`node, this`rank
      ensures Ok() && Updates(old(arr), old(node), k, v, arr, node)
      ensures Count(node, IsFree()) + 1 >= old(Count(node, IsFree()))
    {
      hide Count, Pow2;
      var mp := Main(h, node, k);
      var p := othern;
      assert Reaches(node, rank, p, mp);
      assert LinkOk(node, rank, p);
      while node[p].next != mp
        invariant 0 <= p < |node| && p != mp && Reaches(node, rank, p, mp) && LinkOk(node, rank, p)
        decreases rank[p]
      {
        p := node[p].next;
        assert LinkOk(node, rank, p);
      }
      hide Reaches;
      ghost var node0 := node;
      MoveValid(node0, rank, h, n, p, k, v);
      MoveApart(node0, rank, mp, n, p);
      assert LinkOk(node0, rank, n);
      MoveSame(node0, mp, n, p, k, v);
      CountMove(node0, mp, n, p, k, v);
      rank := MoveRank(rank, mp, n);
      node := node[p := node[p].(next := n)][n := node[mp]][mp := Node(k, v, NONE)];
      SameButLookup(arr, node0, node, k, v);
    }

    /** `luaH_set` with the assignment to the cell it returns; nil and NaN are not keys. */
    method Set(k: Key, v: Value, ghost room: bool) returns (ok: bool)
      requires Ok()
      requires room && !InArray(arr, k) && k != NilKey && k != NaN ==> Room()
      modifies this
      ensures ok == (k != NilKey && k != NaN)
      ensures !ok ==> unchanged(this)
      ensures ok ==> Ok() && Updates(old(arr), old(node), k, v, arr, node)
      ensures ok && room ==> |arr| == old(|arr|) && dummy == old(dummy)
                             && Count(node, IsFree()) +
                                 (if InArray(old(arr), k) then 0 else 1) >= old(Count(node, IsFree()))
      decreases if room then 0 else 1, 1
    {
      hide Updates, Count, Pow2, Reaches;
      if k == NilKey || k == NaN { return false; }
      if k.Int? && 1 <= k.i <= |arr| {
        ghost var arr0 := arr;
        arr := arr[k.i - 1 := v];
        ArrayUpdates(arr0, node, k, v);
        return true;
      }
      var n := FindNode(k);
      if n == NONE {
        NewKey(k, v, room);
      } else {
        ghost var node0 := node;
        PutValue(node, rank, h, n, v);
        PutSame(node, n, node[n].(val := v), k, v);
        CountUpdate(node, n, node[n].(val := v), IsFree());
        node := node[n := node[n].(val := v)];
        DummyHasNone(node0, k, dummy);
        SameButLookup(arr, node0, node, k, v);
      }
      return true;
    }

    // ----- growing -----

    /** `setnodevector` */
    method SetNodeVector(size: nat)
      requires HashOk(h) && |arr| <= Pow2(MaxBits())
      modifies this`node, this`lastfree, this`dummy, this`rank
      ensures Ok() && dummy == (size == 0) && (forall k :: NodeVal(node, k) == Nil)
      ensures !dummy ==> Count(node, IsFree()) >= size
    {
      hide Pow2, Count;
      if size == 0 {
        node, dummy, lastfree := [EmptyNode], true, 0;
        rank := [0];
        assert node == EmptyNodes(1) && rank == seq(1, _ => 0);
        EmptyValid(1, h);
        NoValues(1);
      } else {
        var lsize := CeilLog2(size);
        var n := Pow2(lsize);
        node, dummy, lastfree := EmptyNodes(n), false, n;
        rank := seq(n, _ => 0);
        EmptyValid(n, h);
        NoValues(n);
        CountFull(node, IsFree());
      }
    }

    /** `luaH_resize`, to sizes that make room for everything: no reinsertion grows the table again. */
    method Resize(nasize: nat, nhsize: nat)
      requires Ok() && nasize <= Pow2(MaxBits()) && nhsize >= Leaving(arr, nasize) + Count(node, IsHashed(nasize))
      modifies this
      ensures Ok() && |arr| == nasize && dummy == (nhsize == 0)
      ensures forall k :: Lookup(arr, node, k) == old(Lookup(arr, node, k))
      ensures !dummy ==> Count(node, IsFree()) >= nhsize - old(Leaving(arr, nasize) + Count(node, IsHashed(nasize)))
      decreases 0, 3
    {
      hide Pow2, Count, Reaches;
      ghost var rank0 := rank;
      var arr0, nold := arr, node;
      var oldasize := |arr|;
      if nasize > oldasize { arr := arr + seq(nasize - oldasize, _ => Nil); }
      SetNodeVector(nhsize);
      if nasize < oldasize {
        ReinsertSlots(nasize, nhsize);
      } else {
        GrownSlots(arr0, nasize, arr, node);
      }
      ArrayMoved(arr0, nold, nasize, arr, node);
      ReinsertNodes(arr0, nold, rank0, nhsize - Leaving(arr0, nasize));
      AllMoved(arr0, nold, arr, node);
    }

    /** The elements from the vanishing slice of the array part. */
    method ReinsertSlots(nasize: nat, ghost nhsize: nat)
      requires TableOk(arr, node, rank, h, lastfree, dummy) && nasize < |arr| && nhsize >= Leaving(arr, nasize)
      requires dummy == (nhsize == 0) && (!dummy ==> Count(node, IsFree()) >= nhsize)
      requires forall k :: NodeVal(node, k) == Nil
      modifies this
      ensures Ok() && |arr| == nasize && dummy == old(dummy) && Vanished(old(arr), nasize, old(|arr|), arr, node)
      ensures arr == old(arr)[..nasize]
      ensures !dummy ==> Count(node, IsFree()) >= nhsize - Leaving(old(arr), nasize)
      decreases 0, 2
    {
      hide Pow2, Count, Reaches, Updates, Vanished;
      var arr0 := arr;
      arr := arr[..nasize];
      Shrunk(arr0, nasize, node);
      var i := nasize;
      while i < |arr0|
        invariant nasize <= i <= |arr0| && Ok() && |arr| == nasize && arr == arr0[..nasize] && dummy == old(dummy)
        invariant Vanished(arr0, nasize, i, arr, node)
        invariant !dummy ==> Count(node, IsFree()) >= nhsize - (InUse(arr0, i) - InUse(arr0, nasize))
      {
        InUseStep(arr0, i, nasize);
        if arr0[i] != Nil {
          assert nhsize > InUse(arr0, i) - InUse(arr0, nasize);
          ghost var arr1, node1 := arr, node;
          var _ := Set(Int(i + 1), arr0[i], true);
          VanishedStep(arr0, nasize, i, arr1, node1, arr, node);
          assert arr == arr0[..nasize] by { KeptSlots(arr0, nasize, i, arr, node); }
        } else {
          VanishedSkip(arr0, nasize, i, arr, node);
        }
        i := i + 1;
      }
    }

    /** The elements from the old hash part. */
    method ReinsertNodes(ghost arr0: seq<Value>, nold: seq<Node>, ghost rank0: seq<nat>, ghost free: int)
      requires Ok() && Valid(nold, rank0, h) && HashOnly(arr0, nold)
      requires Moved(arr0, nold, |nold|, arr, node)
      requires free >= Count(nold, IsHashed(|arr|)) && (dummy ==> free == 0)
      requires (!dummy ==> Count(node, IsFree()) >= free)
      modifies this
      ensures Ok() && |arr| == old(|arr|) && dummy == old(dummy) && Moved(arr0, nold, 0, arr, node)
      ensures !dummy ==> Count(node, IsFree()) >= free - Count(nold, IsHashed(|arr|))
      decreases 0, 2
    {
      hide Pow2, Reaches, Updates, Moved;
      var n := |arr|;
      var i := |nold|;
      assert nold[..|nold|] == nold;
      while i > 0
        invariant 0 <= i <= |nold| && Ok() && |arr| == n && dummy == old(dummy) && Moved(arr0, nold, i, arr, node)
        invariant !dummy ==> Count(node, IsFree()) >= free - (Count(nold, IsHashed(n)) - Count(nold[..i], IsHashed(n)))
        invariant Count(nold[..i], IsHashed(n)) <= Count(nold, IsHashed(n))
      {
        i := i - 1;
        assert nold[..i + 1][..i] == nold[..i];
        if nold[i].val != Nil {
          LiveKey(nold, rank0, h, i);
          ghost var arr1, node1 := arr, node;
          var _ := Set(nold[i].key, nold[i].val, true);
          MovedStep(arr0, nold, i + 1, arr1, node1, arr, node);
        } else {
          MovedSkip(arr0, nold, i + 1, arr, node);
        }
      }
    }

    // ----- traversal -----

    /** `findindex` */
    method FindIndex(k: Key) returns (i: int, found: bool)
      requires Ok()
      ensures found ==> IsIndex(arr, node, k, i)
      ensures !found ==> k != NilKey && !InArray(arr, k) && !HasKey(node, k)
    {
      if k == NilKey { return -1, true; }
      if k.Int? && 1 <= k.i <= |arr| { return k.i - 1, true; }
      var n := FindNode(k);
      if n == NONE { return 0, false; }
      return n + |arr|, true;
    }

    /** `luaH_next` */
    method Next(k: Key) returns (r: Traversed)
      requires Ok()
      ensures r == InvalidKey <==> k != NilKey && !InArray(arr, k) && !HasKey(node, k)
      ensures r != InvalidKey ==> exists i :: IsIndex(arr, node, k, i) && r == From(arr, node, i + 1)
    {
      hide TableOk, Lookup;
      var i, found := FindIndex(k);
      if !found { return InvalidKey; }
      IndexKnown(arr, node, k, i);
      ghost var i0 := i;
      i := i + 1;
      while i < |arr|
        invariant 0 <= i && From(arr, node, i) == From(arr, node, i0 + 1)
      {
        if arr[i] != Nil { return Entry(Int(i + 1), arr[i]); }
        i := i + 1;
      }
      i := i - |arr|;
      while i < |node|
        invariant 0 <= i && From(arr, node, i + |arr|) == From(arr, node, i0 + 1)
      {
        if node[i].val != Nil { return Entry(node[i].key, node[i].val); }
        i := i + 1;
      }
      NothingFrom(arr, node, i + |arr|);
      return Finished;
    }

    // ----- counting -----

    /** `countint` */
    method CountInt(k: Key, nums: seq<nat>) returns (c: nat, nums': seq<nat>)
      requires |nums| == MaxBits() + 1
      ensures |nums'| == |nums| && c == Extra(k, Pow2(MaxBits()))
      ensures forall j :: 0 <= j < |nums| ==> Sum(nums', j + 1) == Sum(nums, j + 1) + Extra(k, Pow2(j))
    {
      hide Pow2, Sum;
      if k.Int? && 0 < k.i <= Pow2(MaxBits()) {
        var lg := CeilLog2(k.i);
        SliceBelow(k.i, lg, MaxBits());
        nums' := nums[lg := nums[lg] + 1];
        forall j | 0 <= j < |nums|
          ensures Sum(nums', j + 1) == Sum(nums, j + 1) + Extra(k, Pow2(j))
        {
          SumBump(nums, lg, 1, j + 1);
          SliceBelow(k.i, lg, j);
        }
        return 1, nums';
      }
      forall j | 0 <= j < |nums|
        ensures Extra(k, Pow2(j)) == 0
      {
        Pow2Mono(j, MaxBits());
      }
      return 0, nums;
    }

    /** `numusearray` */
    method NumUseArray(nums: seq<nat>) returns (ause: nat, nums': seq<nat>)
      requires Ok() && |nums| == MaxBits() + 1 && forall j :: 0 <= j < |nums| ==> nums[j] == 0
      ensures ause == InUse(arr, |arr|) && |nums'| == |nums|
      ensures Counted(nums', ArrayCount(arr))
    {
      hide Pow2, Sum, MaxBits, Counted;
      nums', ause := nums, 0;
      var lg, ttlg, i := 0, 1, 1;
      NoSum(nums);
      FirstSlice();
      while lg < |nums|
        invariant 0 <= lg <= |nums| && |nums'| == |nums| && ttlg == Pow2(lg)
        invariant 1 <= i <= |arr| + 1 && ause == InUse(arr, i - 1)
        invariant i - 1 == if lg == 0 then 0 else Min(Pow2(lg - 1), |arr|)
        invariant forall j :: lg <= j < |nums| ==> nums'[j] == 0
        invariant forall j :: 0 <= j < lg ==> Sum(nums', j + 1) == InUse(arr, Pow2(j))
      {
        var lc := 0;
        var lim := ttlg;
        if lim > |arr| {
          lim := |arr|;
          if i > lim {
            RestCounted(arr, nums', lg);
            return;
          }
        }
        ghost var i0 := i;
        if lg > 0 { Pow2Mono(lg - 1, lg); }
        while i <= lim
          invariant i0 <= i <= lim + 1 && lc == InUse(arr, i - 1) - InUse(arr, i0 - 1)
        {
          if arr[i - 1] != Nil { lc := lc + 1; }
          i := i + 1;
        }
        ghost var was := nums';
        nums' := nums'[lg := nums'[lg] + lc];
        ause := ause + lc;
        SliceAdded(arr, was, nums', lg, lc, lim, i0);
        lg := lg + 1;
        ttlg := ttlg * 2;
        DoublePow(lg);
      }
      WholeArray(arr, |nums| - 1);
      AllSlices(arr, nums');
    }

    /** `numusehash` */
    method NumUseHash(nums: seq<nat>) returns (totaluse: nat, ause: nat, nums': seq<nat>)
      requires Ok() && |nums| == MaxBits() + 1
      ensures totaluse == Count(node, IsLive()) && |nums'| == |nums|
      ensures ause == Count(node, IsInt(Pow2(MaxBits())))
      ensures forall j :: 0 <= j < |nums| ==> Sum(nums', j + 1) == Sum(nums, j + 1) + Count(node, IsInt(Pow2(j)))
    {
      hide Pow2, Sum, MaxBits;
      totaluse, ause, nums' := 0, 0, nums;
      var i := |node|;
      assert node[..|node|] == node;
      while i > 0
        invariant 0 <= i <= |node| && |nums'| == |nums|
        invariant totaluse == Count(node, IsLive()) - Count(node[..i], IsLive())
        invariant ause == Count(node, IsInt(Pow2(MaxBits()))) - Count(node[..i], IsInt(Pow2(MaxBits())))
        invariant forall j :: 0 <= j < |nums| ==>
                    Sum(nums', j + 1) == Sum(nums, j + 1) +
                        Count(node, IsInt(Pow2(j))) - Count(node[..i], IsInt(Pow2(j)))
      {
        i := i - 1;
        assert node[..i + 1][..i] == node[..i];
        if node[i].val != Nil {
          var c;
          ghost var was := nums';
          c, nums' := CountInt(node[i].key, nums');
          ause := ause + c;
          totaluse := totaluse + 1;
          forall j | 0 <= j < |nums|
            ensures Count(node[..i + 1], IsInt(Pow2(j))) == Count(node[..i], IsInt(Pow2(j))) +
                Extra(node[i].key, Pow2(j))
          {
          }
        } else {
          forall j | 0 <= j < |nums|
            ensures Count(node[..i + 1], IsInt(Pow2(j))) == Count(node[..i], IsInt(Pow2(j)))
          {
          }
        }
      }
    }

    /** `rehash`: counts the keys with the new one, chooses the sizes and resizes. Afterwards there is
        a free node for the new key, if it goes to the hash part. */
    method Rehash(ek: Key)
      requires Ok() && ek != NilKey && ek != NaN && !HasKey(node, ek) && !InArray(arr, ek)
      modifies this
      ensures Ok() && forall k :: Lookup(arr, node, k) == old(Lookup(arr, node, k))
      ensures !InArray(arr, ek) ==> Room()
      ensures BestSize(old(arr), old(node), ek, |arr|)
      decreases 0, 4
    {
      hide Pow2, Sum, Count, MaxBits, Reaches, Best, Counts, Counted, IsInt, IsHashed;
      var nums: seq<nat> := seq(MaxBits() + 1, _ => 0);
      var nasize, nums1 := NumUseArray(nums);
      var totaluse := nasize;
      var hashed, ints, nums2 := NumUseHash(nums1);
      totaluse := totaluse + hashed;
      nasize := nasize + ints;
      var c, nums3 := CountInt(ek, nums2);
      nasize := nasize + c;
      totaluse := totaluse + 1;
      SlicesCounted(arr, node, ek, nums1, nums2, nums3);
      CountsPresent(arr, node, ek, nums3);
      SumPresent(arr, node, ek, nums3, nasize);
      var n, na := ComputeSizes(nums3, nasize);
      SizesFit(arr, node, ek, nums3, n, na);
      SizeIsBest(arr, node, ek, nums3, n, na);
      Resize(n, totaluse - na);
    }
  }

  // ----- positions in a traversal -----

  datatype Traversed = InvalidKey | Finished | Entry(key: Key, val: Value)

  function Size(arr: seq<Value>, node: seq<Node>): nat { |arr| + |node| }

  /** The array part comes first, then the nodes. */
  function KeyAt(arr: seq<Value>, node: seq<Node>, i: nat): Key
    requires i < Size(arr, node)
  {
    if i < |arr| then Int(i + 1) else node[i - |arr|].key
  }

  function ValAt(arr: seq<Value>, node: seq<Node>, i: nat): Value
    requires i < Size(arr, node)
  {
    if i < |arr| then arr[i] else node[i - |arr|].val
  }

  /** The nil key comes before all others. */
  predicate IsIndex(arr: seq<Value>, node: seq<Node>, k: Key, i: int) {
    if k == NilKey then i == -1 else 0 <= i < Size(arr, node) && KeyAt(arr, node, i) == k
  }

  /** The first entry with a value, from a position on. */
  function From(arr: seq<Value>, node: seq<Node>, i: nat): Traversed
    decreases Size(arr, node) - i
  {
    if i >= Size(arr, node) then Finished
    else if ValAt(arr, node, i) != Nil then Entry(KeyAt(arr, node, i), ValAt(arr, node, i))
    else From(arr, node, i + 1)
  }

  function ArrayCount(arr: seq<Value>): nat -> nat { (p: nat) => InUse(arr, p) }

  function KeyCount(arr: seq<Value>, node: seq<Node>, k: Key): nat -> nat { (p: nat) => Present(arr, node, k, p) }

  function Min(a: nat, b: nat): nat { if a < b then a else b }

  /** How many elements leave the array part when it shrinks. */
  function Leaving(arr: seq<Value>, n: nat): nat {
    if n < |arr| then InUseMono(arr, n, |arr|); InUse(arr, |arr|) - InUse(arr, n) else 0
  }

  // ----- lemmas about the methods -----

  lemma IndexKnown(arr: seq<Value>, node: seq<Node>, k: Key, i: int)
    requires IsIndex(arr, node, k, i)
    ensures k == NilKey || InArray(arr, k) || HasKey(node, k)
    ensures i >= -1
  {
    if k != NilKey && i >= |arr| { assert node[i - |arr|].key == k; }
  }

  lemma NothingFrom(arr: seq<Value>, node: seq<Node>, i: nat)
    requires i >= Size(arr, node)
    ensures From(arr, node, i) == Finished
  {
  }

  lemma NoRoom(node: seq<Node>, dummy: bool)
    requires dummy || FreeBelow(node, 0)
    ensures !dummy ==> Count(node, IsFree()) == 0
  {
    if !dummy && Count(node, IsFree()) > 0 { CountPositive(node, IsFree()); }
  }

  lemma UpdatesAfter(arr0: seq<Value>, node0: seq<Node>, arr1: seq<Value>, node1: seq<Node>, k: Key, v: Value,
                     arr: seq<Value>, node: seq<Node>)
    requires forall k' :: Lookup(arr1, node1, k') == Lookup(arr0, node0, k')
    requires Updates(arr1, node1, k, v, arr, node)
    ensures Updates(arr0, node0, k, v, arr, node)
  {
  }

  lemma FilledLink(node: seq<Node>, rank: seq<nat>, m: nat)
    requires Linked(node, rank) && m < |node| && node[m].val != Nil
    ensures node[m].key != NilKey
  {
    assert LinkOk(node, rank, m);
  }

  lemma CountMove(node: seq<Node>, m: nat, n: nat, p: nat, k: Key, v: Value)
    requires m < |node| && n < |node| && p < |node| && m != n && p != m && p != n && node[m].key != NilKey
    requires k != NilKey
    ensures Count(MoveAway(node, m, n, p, k, v), IsFree()) + 1 >= Count(node, IsFree())
  {
    var n1 := node[p := node[p].(next := n)];
    var n2 := n1[n := node[m]];
    CountUpdate(node, p, node[p].(next := n), IsFree());
    CountUpdate(n1, n, node[m], IsFree());
    CountUpdate(n2, m, Node(k, v, NONE), IsFree());
  }

  lemma ArrayUpdates(arr: seq<Value>, node: seq<Node>, k: Key, v: Value)
    requires InArray(arr, k)
    ensures Updates(arr, node, k, v, arr[k.i - 1 := v], node)
  {
  }

  lemma DummyHasNone(node: seq<Node>, k: Key, dummy: bool)
    requires HasKey(node, k) && k != NilKey && (dummy ==> node == [EmptyNode])
    ensures !dummy
  {
  }

  lemma {:induction false} NoValues(n: nat)
    ensures forall k :: NodeVal(EmptyNodes(n), k) == Nil
  {
    if n > 0 {
      NoValues(n - 1);
      assert EmptyNodes(n)[..n - 1] == EmptyNodes(n - 1);
    }
  }

  lemma GrownSlots(arr0: seq<Value>, n: nat, arr: seq<Value>, node: seq<Node>)
    requires n >= |arr0| && arr == arr0 + seq(n - |arr0|, _ => Nil) && forall k :: NodeVal(node, k) == Nil
    ensures Vanished(arr0, n, |arr0|, arr, node)
  {
  }

  lemma Shrunk(arr0: seq<Value>, n: nat, node: seq<Node>)
    requires n < |arr0| && forall k :: NodeVal(node, k) == Nil
    ensures Vanished(arr0, n, n, arr0[..n], node)
  {
  }

  lemma InUseStep(arr: seq<Value>, i: nat, n: nat)
    requires n <= i < |arr|
    ensures InUse(arr, i + 1) == InUse(arr, i) + (if arr[i] != Nil then 1 else 0)
    ensures InUse(arr, n) <= InUse(arr, i) && InUse(arr, i + 1) <= InUse(arr, |arr|)
  {
    InUseMono(arr, n, i);
    InUseMono(arr, i + 1, |arr|);
  }

  lemma VanishedStep(arr0: seq<Value>, n: nat, i: nat, arr: seq<Value>, node: seq<Node>, arr': seq<Value>,
                     node': seq<Node>)
    requires n <= i < |arr0| && Vanished(arr0, n, i, arr, node) && Updates(arr, node, Int(i + 1), arr0[i], arr', node')
    ensures Vanished(arr0, n, i + 1, arr', node')
  {
  }

  lemma VanishedSkip(arr0: seq<Value>, n: nat, i: nat, arr: seq<Value>, node: seq<Node>)
    requires n <= i < |arr0| && Vanished(arr0, n, i, arr, node) && arr0[i] == Nil
    ensures Vanished(arr0, n, i + 1, arr, node)
  {
  }

  lemma KeptSlots(arr0: seq<Value>, n: nat, i: nat, arr: seq<Value>, node: seq<Node>)
    requires n <= i < |arr0| && |arr| == n && Vanished(arr0, n, i + 1, arr, node)
    ensures arr == arr0[..n]
  {
    forall j | 0 <= j < n
      ensures arr[j] == arr0[j]
    {
      assert Lookup(arr, node, Int(j + 1)) == arr[j];
    }
  }

  lemma ArrayMoved(arr0: seq<Value>, nold: seq<Node>, n: nat, arr: seq<Value>, node: seq<Node>)
    requires Distinct(nold) && HashOnly(arr0, nold) && Vanished(arr0, n, |arr0|, arr, node)
    ensures Moved(arr0, nold, |nold|, arr, node)
  {
    assert nold[..|nold|] == nold;
    forall k | k != NilKey && k != NaN
      ensures Lookup(arr, node, k) == if NodeVal(nold, k) != Nil then Nil else Lookup(arr0, nold, k)
    {
      if InArray(arr0, k) {
        assert !HasKey(nold, k);
        NodeValNone(nold, k);
      }
    }
  }

  lemma AllMoved(arr0: seq<Value>, nold: seq<Node>, arr: seq<Value>, node: seq<Node>)
    requires Moved(arr0, nold, 0, arr, node)
    ensures forall k :: Lookup(arr, node, k) == Lookup(arr0, nold, k)
  {
    assert nold[..0] == [];
    forall k: Key
      ensures Lookup(arr, node, k) == Lookup(arr0, nold, k)
    {
      assert k == NilKey || k == NaN || NodeVal(nold[..0], k) == Nil;
    }
  }

  lemma LiveKey(node: seq<Node>, rank: seq<nat>, h: Hash, i: nat)
    requires Valid(node, rank, h) && i < |node| && node[i].val != Nil
    ensures node[i].key != NilKey && node[i].key != NaN
  {
    assert LinkOk(node, rank, i);
  }

  // ----- slices -----

  lemma NoSum(nums: seq<nat>)
    ensures Sum(nums, 0) == 0
  {
  }

  lemma FirstSlice()
    ensures Pow2(0) == 1
  {
  }

  lemma DoublePow(n: nat)
    requires n > 0
    ensures Pow2(n) == 2 * Pow2(n - 1)
  {
  }

  lemma {:induction false} SumSame(a: seq<nat>, b: seq<nat>, n: nat)
    requires n <= |a| && n <= |b| && forall j :: 0 <= j < n ==> a[j] == b[j]
    ensures Sum(a, n) == Sum(b, n)
    decreases n
  {
    if n > 0 { SumSame(a, b, n - 1); }
  }

  lemma SliceAdded(arr: seq<Value>, was: seq<nat>, nums: seq<nat>, lg: nat, lc: nat, lim: nat, i0: nat)
    requires lg < |was| && was[lg] == 0 && nums == was[lg := was[lg] + lc]
    requires lim == Min(Pow2(lg), |arr|) && 1 <= i0 <= lim + 1 && lc == InUse(arr, lim) - InUse(arr, i0 - 1)
    requires i0 - 1 == if lg == 0 then 0 else Min(Pow2(lg - 1), |arr|)
    requires forall j :: 0 <= j < lg ==> Sum(was, j + 1) == InUse(arr, Pow2(j))
    ensures forall j :: 0 <= j < lg + 1 ==> Sum(nums, j + 1) == InUse(arr, Pow2(j))
  {
    forall j | 0 <= j < lg + 1
      ensures Sum(nums, j + 1) == InUse(arr, Pow2(j))
    {
      if j < lg {
        SumSame(was, nums, j + 1);
      } else {
        SumSame(was, nums, lg);
        if Pow2(lg) > |arr| { InUseBeyond(arr, Pow2(lg)); }
        if lg > 0 {
          assert Sum(was, (lg - 1) + 1) == InUse(arr, Pow2(lg - 1));
          if Pow2(lg - 1) > |arr| { InUseBeyond(arr, Pow2(lg - 1)); }
        }
      }
    }
  }

  lemma RestCounted(arr: seq<Value>, nums: seq<nat>, lg: nat)
    requires lg < |nums| && Pow2(lg) > |arr| && (lg == 0 || Pow2(lg - 1) >= |arr|) && (lg == 0 ==> |arr| == 0)
    requires forall j :: lg <= j < |nums| ==> nums[j] == 0
    requires forall j :: 0 <= j < lg ==> Sum(nums, j + 1) == InUse(arr, Pow2(j))
    ensures Counted(nums, ArrayCount(arr))
  {
    forall j | 0 <= j < |nums|
      ensures Sum(nums, j + 1) == InUse(arr, Pow2(j))
    {
      if j >= lg {
        SumFlat(nums, lg, j + 1);
        Pow2Mono(lg, j);
        InUseBeyond(arr, Pow2(j));
        if lg > 0 {
          assert Sum(nums, (lg - 1) + 1) == InUse(arr, Pow2(lg - 1));
          InUseBeyond(arr, Pow2(lg - 1));
        } else {
          assert Sum(nums, 0) == 0;
        }
      }
    }
  }

  lemma {:induction false} SumFlat(nums: seq<nat>, a: nat, b: nat)
    requires a <= b <= |nums| && forall j :: a <= j < b ==> nums[j] == 0
    ensures Sum(nums, b) == Sum(nums, a)
    decreases b
  {
    if a < b { SumFlat(nums, a, b - 1); }
  }

  lemma WholeArray(arr: seq<Value>, lg: nat)
    requires |arr| <= Pow2(lg)
    ensures Min(Pow2(lg), |arr|) == |arr|
  {
  }

  lemma AllSlices(arr: seq<Value>, nums: seq<nat>)
    requires forall j :: 0 <= j < |nums| ==> Sum(nums, j + 1) == InUse(arr, Pow2(j))
    ensures Counted(nums, ArrayCount(arr))
  {
  }

  lemma SlicesCounted(arr: seq<Value>, node: seq<Node>, k: Key, n1: seq<nat>, n2: seq<nat>, n3: seq<nat>)
    requires Counted(n1, ArrayCount(arr)) && |n2| == |n1| && |n3| == |n1|
    requires forall j :: 0 <= j < |n1| ==> Sum(n2, j + 1) == Sum(n1, j + 1) + Count(node, IsInt(Pow2(j)))
    requires forall j :: 0 <= j < |n1| ==> Sum(n3, j + 1) == Sum(n2, j + 1) + Extra(k, Pow2(j))
    ensures Counted(n3, KeyCount(arr, node, k))
  {
  }

  lemma CountsPresent(arr: seq<Value>, node: seq<Node>, k: Key, nums: seq<nat>)
    requires Counted(nums, KeyCount(arr, node, k)) && |nums| > 0
    requires Distinct(node) && HashOnly(arr, node) && !HasKey(node, k) && !InArray(arr, k)
    ensures Counts(nums)
  {
    forall j | 0 <= j < |nums|
      ensures Sum(nums, j + 1) <= Pow2(j)
    {
      PresentBound(arr, node, k, Pow2(j));
    }
  }

  lemma SumPresent(arr: seq<Value>, node: seq<Node>, k: Key, nums: seq<nat>, total: nat)
    requires Counted(nums, KeyCount(arr, node, k)) && |nums| == MaxBits() + 1 && |arr| <= Pow2(MaxBits())
    requires total == InUse(arr, |arr|) + Count(node, IsInt(Pow2(MaxBits()))) + Extra(k, Pow2(MaxBits()))
    ensures total == Sum(nums, |nums|)
  {
    hide Pow2, Sum, Count;
    InUseBeyond(arr, Pow2(MaxBits()));
    assert Sum(nums, (|nums| - 1) + 1) == Present(arr, node, k, Pow2(|nums| - 1));
  }

  /** The sizes are exact: the hash part has a node for every key that is not in the array part. */
  lemma SizesFit(arr: seq<Value>, node: seq<Node>, k: Key, nums: seq<nat>, n: nat, na: nat)
    requires Counted(nums, KeyCount(arr, node, k)) && |nums| == MaxBits() + 1 && Best(nums, |nums|, n, na)
    ensures n <= Pow2(MaxBits()) && na == Present(arr, node, k, n)
    ensures InUse(arr, |arr|) + Count(node, IsLive()) + 1 - na == Leaving(arr, n) + Count(node, IsHashed(n)) +
        1 - Extra(k, n)
  {
    hide Pow2, Sum;
    if n > 0 {
      BestPresent(arr, node, k, nums, n, na);
    } else {
      NoInts(node);
      BestNone(nums, na);
      Pow2Mono(0, MaxBits());
    }
    HashedRest(node, n);
    if n >= |arr| { InUseBeyond(arr, n); }
  }

  lemma BestPresent(arr: seq<Value>, node: seq<Node>, k: Key, nums: seq<nat>, n: nat, na: nat)
    requires Counted(nums, KeyCount(arr, node, k)) && |nums| == MaxBits() + 1 && Best(nums, |nums|, n, na) && n > 0
    ensures n <= Pow2(MaxBits()) && na == Present(arr, node, k, n)
  {
    hide Pow2, Sum;
    var j :| 0 <= j < |nums| && n == Pow2(j) && Worthwhile(nums, j) && na == Sum(nums, j + 1)
             && forall j' :: j < j' < |nums| ==> !Worthwhile(nums, j');
    Pow2Mono(j, MaxBits());
  }

  /** `n` is the largest power of two such that more than half of the slots from 1 to `n` are in use,
      with the new key, or 0 if there is none. */
  ghost predicate BestSize(arr: seq<Value>, node: seq<Node>, k: Key, n: nat) {
    && (n > 0 ==> Present(arr, node, k, n) > n / 2 && exists j :: 0 <= j <= MaxBits() && n == Pow2(j))
    && forall j :: 0 <= j <= MaxBits() && Pow2(j) > n ==> Present(arr, node, k, Pow2(j)) <= Pow2(j) / 2
  }

  lemma SizeIsBest(arr: seq<Value>, node: seq<Node>, k: Key, nums: seq<nat>, n: nat, na: nat)
    requires Counted(nums, KeyCount(arr, node, k)) && |nums| == MaxBits() + 1 && Best(nums, |nums|, n, na)
    ensures BestSize(arr, node, k, n)
  {
    hide Pow2, Sum, MaxBits;
    forall j | 0 <= j < |nums| && Pow2(j) > n
      ensures Present(arr, node, k, Pow2(j)) <= Pow2(j) / 2
    {
      assert Sum(nums, j + 1) == Present(arr, node, k, Pow2(j));
      NotBetter(nums, n, na, j);
    }
    if n > 0 { BestOf(arr, node, k, nums, n, na); }
  }

  lemma NotBetter(nums: seq<nat>, n: nat, na: nat, j: nat)
    requires Best(nums, |nums|, n, na) && j < |nums| && Pow2(j) > n
    ensures !Worthwhile(nums, j)
  {
    if n > 0 {
      var b :| 0 <= b < |nums| && n == Pow2(b) && Worthwhile(nums, b) && na == Sum(nums, b + 1)
               && forall j' :: b < j' < |nums| ==> !Worthwhile(nums, j');
      if j <= b { Pow2Mono(j, b); }
    } else {
      assert forall b: nat :: Pow2(b) != 0;
    }
  }

  lemma BestOf(arr: seq<Value>, node: seq<Node>, k: Key, nums: seq<nat>, n: nat, na: nat)
    requires Counted(nums, KeyCount(arr, node, k)) && |nums| == MaxBits() + 1 && Best(nums, |nums|, n, na) && n > 0
    ensures Present(arr, node, k, n) > n / 2 && exists j :: 0 <= j <= MaxBits() && n == Pow2(j)
  {
    hide Pow2, Sum;
    var b :| 0 <= b < |nums| && n == Pow2(b) && Worthwhile(nums, b) && na == Sum(nums, b + 1)
             && forall j' :: b < j' < |nums| ==> !Worthwhile(nums, j');
    assert Sum(nums, b + 1) == Present(arr, node, k, Pow2(b));
  }

  lemma BestNone(nums: seq<nat>, na: nat)
    requires Best(nums, |nums|, 0, na)
    ensures na == 0
  {
  }

  lemma {:induction false} NoInts(node: seq<Node>)
    ensures Count(node, IsInt(0)) == 0
    decreases |node|
  {
    if node != [] { NoInts(node[..|node| - 1]); }
  }
}

/** Chunks through a writer that may fail and a reader that splits the stream anywhere. */
module ChunkStreams {
  import opened Basics
  import opened Chunks
  import opened ChunkRoundTrip

  // ----- `lzio.c` -----

  /** What the reader will give; an empty piece ends the stream. */
  function Flat(pieces: seq<Bytes>): Bytes {
    if pieces == [] || pieces[0] == [] then [] else pieces[0] + Flat(pieces[1..])
  }

  lemma Cut(b: Bytes, buf: Bytes, m: nat, more: Bytes, all: Bytes)
    requires m <= |buf| && b + (buf + more) == all
    ensures b + buf[..m] + (buf[m..] + more) == all
  {
    assert buf == buf[..m] + buf[m..];
  }

  lemma Pushed(c: Byte, buf: Bytes, more: Bytes)
    ensures [c] + buf + more == [c] + (buf + more)
  {
  }

  lemma Parted(b: Bytes, more: Bytes, all: Bytes)
    requires b + more == all
    ensures |b| <= |all| && all[..|b|] == b && all[|b|..] == more && |all| == |b| + |more|
  {
  }

  /** A buffered stream: `buf` are the bytes still unread, `pieces` what the reader gives next. */
  class Zio {
    var buf: Bytes
    var pieces: seq<Bytes>

    constructor (pieces: seq<Bytes>)
      ensures buf == [] && this.pieces == pieces
    {
      buf, this.pieces := [], pieces;
    }

    /** All that can be read. */
    function Remaining(): Bytes
      reads this
    {
      buf + Flat(pieces)
    }

    /** `luaZ_fill`, which returns the first byte; none at the end of the stream. */
    method Fill() returns (c: Option<Byte>)
      requires buf == []
      modifies this
      ensures c.None? ==> old(Flat(pieces)) == [] && buf == []
      ensures c.Some? ==> [c.value] + Remaining() == old(Flat(pieces))
      ensures c.Some? ==> |pieces| < |old(pieces)|
    {
      if pieces == [] { return None; }
      var b := pieces[0];
      pieces := pieces[1..];
      if b == [] { return None; }
      buf := b[1..];
      c := Some(b[0]);
      assert b == [b[0]] + b[1..];
    }

    /** `luaZ_read`: the bytes, and how many of them were missing. */
    method Read(size: nat) returns (missing: nat, b: Bytes)
      modifies this
      ensures missing == 0 <==> size <= |old(Remaining())|
      ensures missing == 0 ==> b == old(Remaining())[..size] && Remaining() == old(Remaining())[size..]
    {
      hide Flat;
      var n := size;
      b := [];
      ghost var all := Remaining();
      while n > 0
        invariant 0 <= n <= size && |b| == size - n && b + Remaining() == all
        decreases n
      {
        if buf == [] {
          ghost var left := Remaining();
          assert left == Flat(pieces);
          var c := Fill();
          if c == None {
            Parted(b, left, all);
            return n, b;
          }
          ghost var behind := Remaining();
          buf := [c.value] + buf;
          Pushed(c.value, buf[1..], Flat(pieces));
          assert behind == buf[1..] + Flat(pieces);
        }
        var m := if n <= |buf| then n else |buf|;
        Cut(b, buf, m, Flat(pieces), all);
        b := b + buf[..m];
        buf := buf[m..];
        n := n - m;
      }
      Parted(b, Remaining(), all);
      return 0, b;
    }
  }

  // ----- `ldump.c` -----

  /** What the writer has got, and how it will answer. */
  datatype Sink = Sink(status: int, out: Bytes, replies: seq<int>)

  /** The writer has been called until all was written, or until it gave a status other than 0. */
  predicate Asked(s: Sink, s': Sink) {
    && |s'.replies| <= |s.replies|
    && var n := |s.replies| - |s'.replies|;
       && s'.replies == s.replies[n..]
       && (forall i :: 0 <= i < n - 1 ==> s.replies[i] == 0)
       && (if s'.status == 0 then n > 0 ==> s.replies[n - 1] == 0 else n > 0 && s.replies[n - 1] == s'.status)
  }

  /** All of `b` has been written, or a beginning of it and then the writer failed; after a failure nothing happens. */
  predicate Wrote(s: Sink, s': Sink, b: Bytes) {
    if s.status != 0 then s' == s
    else
      && Asked(s, s')
      && if s'.status == 0 then s'.out == s.out + b else s.out <= s'.out <= s.out + b
  }

  lemma Then(s: Sink, s1: Sink, s2: Sink, a: Bytes, b: Bytes)
    requires Wrote(s, s1, a) && Wrote(s1, s2, b)
    ensures Wrote(s, s2, a + b)
  {
    if s.status == 0 && s1.status == 0 {
      var n, m := |s.replies| - |s1.replies|, |s1.replies| - |s2.replies|;
      assert forall i :: 0 <= i < m ==> s1.replies[i] == s.replies[n + i];
      assert s.out + a + b == s.out + (a + b);
    } else if s.status == 0 {
      assert s.out + a <= s.out + (a + b);
    }
  }

  lemma Regroup(a: Bytes, b: Bytes, c: Bytes)
    ensures a + (b + c) == a + b + c
  {
  }

  /** The writer gives a status for each block; nothing more is written after a failure. */
  class DumpState {
    const strip: bool
    var status: int
    var out: Bytes
    var replies: seq<int>

    constructor (strip: bool, replies: seq<int>)
      ensures this.strip == strip && Now() == Sink(0, [], replies)
    {
      this.strip := strip;
      status, out, this.replies := 0, [], replies;
    }

    ghost function Now(): Sink
      reads this
    {
      Sink(status, out, replies)
    }

    method DumpBlock(b: Bytes)
      modifies this`status, this`out, this`replies
      ensures Wrote(old(Now()), Now(), b)
    {
      if status == 0 {
        if replies != [] {
          status := replies[0];
          replies := replies[1..];
        }
        if status == 0 { out := out + b; }
      }
    }

    method DumpInt(x: nat)
      modifies this`status, this`out, this`replies
      ensures Wrote(old(Now()), Now(), PutInt(x))
    {
      DumpBlock(Le(x, 4));
    }

    method DumpString(s: Option<Bytes>)
      modifies this`status, this`out, this`replies
      ensures Wrote(old(Now()), Now(), PutString(s))
    {
      ghost var s0 := Now();
      match s {
        case None => DumpBlock(Le(0, 8));
        case Some(t) =>
          DumpBlock(Le(|t| + 1, 8));
          ghost var s1 := Now();
          DumpBlock(t + [0]);
          Then(s0, s1, Now(), Le(|t| + 1, 8), t + [0]);
      }
    }

    method DumpWords(xs: seq<nat>)
      modifies this`status, this`out, this`replies
      ensures Wrote(old(Now()), Now(), PutInt(|xs|) + PutAll(xs, PutWord))
    {
      ghost var s0 := Now();
      DumpInt(|xs|);
      ghost var s1 := Now();
      DumpBlock(PutAll(xs, PutWord));
      Then(s0, s1, Now(), PutInt(|xs|), PutAll(xs, PutWord));
    }

    method DumpConst(c: Const)
      modifies this`status, this`out, this`replies
      ensures Wrote(old(Now()), Now(), PutConst(c))
    {
      hide Wrote, PutString;
      ghost var s0 := Now();
      match c {
        case KNil => DumpBlock([0]);
        case KBool(b) =>
          DumpBlock([1]);
          ghost var s1 := Now();
          DumpBlock([if b then 1 else 0]);
          Then(s0, s1, Now(), [1], [if b then 1 else 0]);
        case KNum(bits) =>
          DumpBlock([3]);
          ghost var s1 := Now();
          DumpBlock(Le(bits, 8));
          Then(s0, s1, Now(), [3], Le(bits, 8));
        case KStr(s) =>
          DumpBlock([4]);
          ghost var s1 := Now();
          DumpString(Some(s));
          Then(s0, s1, Now(), [4], PutString(Some(s)));
      }
    }

    /** The first half of `DumpConstants`. */
    method DumpConsts(k: seq<Const>)
      modifies this`status, this`out, this`replies
      ensures Wrote(old(Now()), Now(), PutInt(|k|) + PutAll(k, PutConst))
    {
      hide PutConst, PutInt, Wrote;
      ghost var s0 := Now();
      DumpInt(|k|);
      var i := 0;
      ghost var done := PutInt(|k|);
      assert k[0..] == k;
      while i < |k|
        invariant 0 <= i <= |k| && done + PutAll(k[i..], PutConst) == PutInt(|k|) + PutAll(k, PutConst)
        invariant Wrote(s0, Now(), done)
      {
        assert k[i..][0] == k[i] && k[i..][1..] == k[i + 1..];
        ghost var s1 := Now();
        DumpConst(k[i]);
        Then(s0, s1, Now(), done, PutConst(k[i]));
        Regroup(done, PutConst(k[i]), PutAll(k[i + 1..], PutConst));
        done := done + PutConst(k[i]);
        i := i + 1;
      }
      assert done + [] == done;
    }

    /** The second half of `DumpConstants`. */
    method DumpProtos(ps: seq<Proto>)
      modifies this`status, this`out, this`replies
      ensures Wrote(old(Now()), Now(), PutInt(|ps|) + PutProtos(ps, strip))
      decreases ps, 0
    {
      hide PutFunction, PutInt, Wrote;
      ghost var s0 := Now();
      DumpInt(|ps|);
      var i := 0;
      ghost var done := PutInt(|ps|);
      assert ps[0..] == ps;
      while i < |ps|
        invariant 0 <= i <= |ps| && done + PutProtos(ps[i..], strip) == PutInt(|ps|) + PutProtos(ps, strip)
        invariant Wrote(s0, Now(), done)
      {
        assert ps[i..][0] == ps[i] && ps[i..][1..] == ps[i + 1..];
        ghost var s1 := Now();
        DumpFunction(ps[i]);
        Then(s0, s1, Now(), done, PutFunction(ps[i], strip));
        Regroup(done, PutFunction(ps[i], strip), PutProtos(ps[i + 1..], strip));
        done := done + PutFunction(ps[i], strip);
        i := i + 1;
      }
      assert done + [] == done;
    }

    method DumpUpvalues(f: Proto)
      modifies this`status, this`out, this`replies
      ensures Wrote(old(Now()), Now(), PutUpvalues(f))
    {
      hide PutInt, Wrote;
      var us := f.upvalues;
      ghost var s0 := Now();
      DumpInt(|us|);
      var i := 0;
      ghost var done := PutInt(|us|);
      assert us[0..] == us;
      while i < |us|
        invariant 0 <= i <= |us| && done + PutAll(us[i..], PutUpval) == PutUpvalues(f)
        invariant Wrote(s0, Now(), done)
      {
        assert us[i..][0] == us[i] && us[i..][1..] == us[i + 1..];
        ghost var s1 := Now();
        DumpBlock([us[i].instack]);
        ghost var s2 := Now();
        DumpBlock([us[i].idx]);
        Then(s1, s2, Now(), [us[i].instack], [us[i].idx]);
        Then(s0, s1, Now(), done, PutUpval(us[i]));
        Regroup(done, PutUpval(us[i]), PutAll(us[i + 1..], PutUpval));
        done := done + PutUpval(us[i]);
        i := i + 1;
      }
      assert done + [] == done;
    }

    method DumpLocVar(v: LocVar)
      modifies this`status, this`out, this`replies
      ensures Wrote(old(Now()), Now(), PutLocVar(v))
    {
      hide PutInt, PutString, Wrote;
      ghost var s0 := Now();
      DumpString(v.varname);
      ghost var s1 := Now();
      DumpInt(v.startpc);
      ghost var s2 := Now();
      Then(s0, s1, s2, PutString(v.varname), PutInt(v.startpc));
      DumpInt(v.endpc);
      Then(s0, s2, Now(), PutString(v.varname) + PutInt(v.startpc), PutInt(v.endpc));
    }

    method DumpLocVars(vs: seq<LocVar>)
      modifies this`status, this`out, this`replies
      ensures Wrote(old(Now()), Now(), PutInt(|vs|) + PutAll(vs, PutLocVar))
    {
      hide PutInt, PutLocVar, Wrote;
      ghost var s0 := Now();
      DumpInt(|vs|);
      var i := 0;
      ghost var done := PutInt(|vs|);
      assert vs[0..] == vs;
      while i < |vs|
        invariant 0 <= i <= |vs| && done + PutAll(vs[i..], PutLocVar) == PutInt(|vs|) + PutAll(vs, PutLocVar)
        invariant Wrote(s0, Now(), done)
      {
        assert vs[i..][0] == vs[i] && vs[i..][1..] == vs[i + 1..];
        ghost var s1 := Now();
        DumpLocVar(vs[i]);
        Then(s0, s1, Now(), done, PutLocVar(vs[i]));
        Regroup(done, PutLocVar(vs[i]), PutAll(vs[i + 1..], PutLocVar));
        done := done + PutLocVar(vs[i]);
        i := i + 1;
      }
      assert done + [] == done;
    }

    method DumpNames(us: seq<Upval>)
      modifies this`status, this`out, this`replies
      ensures Wrote(old(Now()), Now(), PutInt(|us|) + PutAll(us, PutName))
    {
      hide PutInt, PutString, Wrote;
      ghost var s0 := Now();
      DumpInt(|us|);
      var i := 0;
      ghost var done := PutInt(|us|);
      assert us[0..] == us;
      while i < |us|
        invariant 0 <= i <= |us| && done + PutAll(us[i..], PutName) == PutInt(|us|) + PutAll(us, PutName)
        invariant Wrote(s0, Now(), done)
      {
        assert us[i..][0] == us[i] && us[i..][1..] == us[i + 1..];
        ghost var s1 := Now();
        DumpString(us[i].name);
        Then(s0, s1, Now(), done, PutName(us[i]));
        Regroup(done, PutName(us[i]), PutAll(us[i + 1..], PutName));
        done := done + PutName(us[i]);
        i := i + 1;
      }
      assert done + [] == done;
    }

    method DumpDebug(f: Proto)
      modifies this`status, this`out, this`replies
      ensures Wrote(old(Now()), Now(), PutDebug(f, strip))
    {
      hide PutInt, PutString, PutAll, Wrote;
      ghost var source, lines := if strip then None else f.source, if strip then [] else f.lineinfo;
      ghost var locs, names := if strip then [] else f.locvars, if strip then [] else f.upvalues;
      ghost var a, b := PutString(source), PutInt(|lines|) + PutAll(lines, PutWord);
      ghost var c, d := PutInt(|locs|) + PutAll(locs, PutLocVar), PutInt(|names|) + PutAll(names, PutName);
      ghost var s0 := Now();
      DumpString(if strip then None else f.source);
      ghost var s1 := Now();
      DumpWords(if strip then [] else f.lineinfo);
      ghost var s2 := Now();
      Then(s0, s1, s2, a, b);
      DumpLocVars(if strip then [] else f.locvars);
      ghost var s3 := Now();
      Then(s0, s2, s3, a + b, c);
      DumpNames(if strip then [] else f.upvalues);
      Then(s0, s3, Now(), a + b + c, d);
      if strip { NothingPut(); }
      assert a + b + c + d == PutDebug(f, strip);
    }

    /** The beginning of `DumpFunction`. */
    method DumpHead(f: Proto)
      modifies this`status, this`out, this`replies
      ensures Wrote(old(Now()), Now(), PutHead(f))
    {
      hide PutInt, Wrote;
      ghost var a, b := PutInt(f.linedefined), PutInt(f.lastlinedefined);
      ghost var s0 := Now();
      DumpInt(f.linedefined);
      ghost var s1 := Now();
      DumpInt(f.lastlinedefined);
      ghost var s2 := Now();
      Then(s0, s1, s2, a, b);
      DumpBlock([f.numparams]);
      ghost var s3 := Now();
      Then(s0, s2, s3, a + b, [f.numparams]);
      DumpBlock([f.isvararg]);
      ghost var s4 := Now();
      Then(s0, s3, s4, a + b + [f.numparams], [f.isvararg]);
      DumpBlock([f.maxstacksize]);
      Then(s0, s4, Now(), a + b + [f.numparams] + [f.isvararg], [f.maxstacksize]);
    }

    method DumpFunction(f: Proto)
      modifies this`status, this`out, this`replies
      ensures Wrote(old(Now()), Now(), PutFunction(f, strip))
      decreases f, 1
    {
      DumpParts(f);
      assert PutFunction(f, strip) == Parts(f, strip);
    }

    method DumpParts(f: Proto)
      modifies this`status, this`out, this`replies
      ensures Wrote(old(Now()), Now(), Parts(f, strip))
      decreases f, 0
    {
      hide PutInt, PutAll, PutProtos, PutUpvalues, PutDebug, PutHead, Wrote;
      ghost var a, b, c := PutHead(f), PutCode(f), PutInt(|f.k|) + PutAll(f.k, PutConst);
      ghost var d, e, g := PutInt(|f.p|) + PutProtos(f.p, strip), PutUpvalues(f), PutDebug(f, strip);
      ghost var s0 := Now();
      DumpHead(f);
      ghost var s1 := Now();
      DumpWords(f.code);
      ghost var s2 := Now();
      Then(s0, s1, s2, a, b);
      DumpConsts(f.k);
      ghost var s3 := Now();
      Then(s0, s2, s3, a + b, c);
      DumpProtos(f.p);
      ghost var s4 := Now();
      Then(s0, s3, s4, a + b + c, d);
      DumpUpvalues(f);
      ghost var s5 := Now();
      Then(s0, s4, s5, a + b + c + d, e);
      DumpDebug(f);
      Then(s0, s5, Now(), a + b + c + d + e, g);
    }

    /** `luaU_dump` */
    method DumpChunk(f: Proto)
      modifies this`status, this`out, this`replies
      ensures Wrote(old(Now()), Now(), Dump(f, strip))
    {
      hide PutFunction, Wrote;
      ghost var s0 := Now();
      DumpBlock(Header());
      ghost var s1 := Now();
      DumpFunction(f);
      Then(s0, s1, Now(), Header(), PutFunction(f, strip));
    }
  }

  // ----- `lundump.c` -----

  datatype Loaded<+T> = Got(value: T) | Raised(error: Error)

  /** Reads through the stream, wherever the reader splits it. */
  class LoadState {
    const z: Zio

    constructor (z: Zio)
      ensures this.z == z
    {
      this.z := z;
    }

    /** What a load does: what reading from all the bytes that remain would do. */
    ghost predicate Does<T>(r: Read<T>, l: Loaded<T>)
      reads z
    {
      match r
      case Ok(v, rest) => l == Got(v) && z.Remaining() == rest
      case Err(e) => l == Raised(e)
    }

    method LoadBlock(n: nat) returns (l: Loaded<Bytes>)
      modifies z
      ensures Does(GetBlock(old(z.Remaining()), n), l)
    {
      var missing, b := z.Read(n);
      l := if missing == 0 then Got(b) else Raised(Truncated);
    }

    method LoadChar() returns (l: Loaded<Byte>)
      modifies z
      ensures Does(GetChar(old(z.Remaining())), l)
    {
      var b := LoadBlock(1);
      l := if b.Got? then Got(b.value[0]) else Raised(b.error);
    }

    method LoadWord() returns (l: Loaded<nat>)
      modifies z
      ensures Does(GetWord(old(z.Remaining())), l)
    {
      var b := LoadBlock(4);
      l := if b.Got? then Got(FromLe(b.value)) else Raised(b.error);
    }

    method LoadInt() returns (l: Loaded<nat>)
      modifies z
      ensures Does(GetInt(old(z.Remaining())), l)
    {
      l := LoadWord();
      if l.Got? && l.value >= INTMAX { l := Raised(Corrupted); }
    }

    method LoadNumber() returns (l: Loaded<nat>)
      modifies z
      ensures Does(GetNumber(old(z.Remaining())), l)
    {
      var b := LoadBlock(8);
      l := if b.Got? then Got(FromLe(b.value)) else Raised(b.error);
    }

    method LoadString() returns (l: Loaded<Option<Bytes>>)
      modifies z
      ensures Does(GetString(old(z.Remaining())), l)
    {
      var size := LoadNumber();
      if size.Raised? { return Raised(size.error); }
      if size.value == 0 { return Got(None); }
      var b := LoadBlock(size.value);
      l := if b.Got? then Got(Some(b.value[..size.value - 1])) else Raised(b.error);
    }

    method LoadConst() returns (l: Loaded<Const>)
      modifies z
      ensures Does(GetConst(old(z.Remaining())), l)
    {
      hide GetNumber, GetString;
      var t := LoadChar();
      if t.Raised? { return Raised(t.error); }
      if t.value == 0 {
        l := Got(KNil);
      } else if t.value == 1 {
        var b := LoadChar();
        l := if b.Got? then Got(KBool(b.value != 0)) else Raised(b.error);
      } else if t.value == 3 {
        var x := LoadNumber();
        l := if x.Got? then Got(KNum(x.value)) else Raised(x.error);
      } else if t.value == 4 {
        var s := LoadString();
        l := if s.Raised? then Raised(s.error) else if s.value.Some? then Got(KStr(s.value.value))
            else Raised(Corrupted);
      } else {
        l := Raised(Corrupted);
      }
    }

    method LoadConsts() returns (l: Loaded<seq<Const>>)
      modifies z
      ensures Does(GetVector(GetConst, old(z.Remaining())), l)
    {
      hide GetInt, GetConst;
      var n := LoadInt();
      if n.Raised? { return Raised(n.error); }
      ghost var s1 := z.Remaining();
      var k: seq<Const> := [];
      var i := 0;
      AfterStart(GetAll(n.value, GetConst, s1));
      while i < n.value
        invariant 0 <= i <= n.value && |k| == i
        invariant After(GetAll(n.value, GetConst, s1), k, GetAll(n.value - i, GetConst, z.Remaining()))
      {
        ghost var s2, k2 := z.Remaining(), k;
        AfterStep(GetAll(n.value, GetConst, s1), k2, GetConst, n.value - i, s2);
        var c := LoadConst();
        if c.Raised? { return Raised(c.error); }
        k := k + [c.value];
        i := i + 1;
      }
      assert k + [] == k;
      l := Got(k);
    }

    method LoadWords() returns (l: Loaded<seq<nat>>)
      modifies z
      ensures Does(GetVector(GetWord, old(z.Remaining())), l)
    {
      hide GetInt, GetWord;
      var n := LoadInt();
      if n.Raised? { return Raised(n.error); }
      ghost var s1 := z.Remaining();
      var k: seq<nat> := [];
      var i := 0;
      AfterStart(GetAll(n.value, GetWord, s1));
      while i < n.value
        invariant 0 <= i <= n.value && |k| == i
        invariant After(GetAll(n.value, GetWord, s1), k, GetAll(n.value - i, GetWord, z.Remaining()))
      {
        ghost var s2, k2 := z.Remaining(), k;
        AfterStep(GetAll(n.value, GetWord, s1), k2, GetWord, n.value - i, s2);
        var c := LoadWord();
        if c.Raised? { return Raised(c.error); }
        k := k + [c.value];
        i := i + 1;
      }
      assert k + [] == k;
      l := Got(k);
    }

    method LoadUpval() returns (l: Loaded<Upval>)
      modifies z
      ensures Does(GetUpval(old(z.Remaining())), l)
    {
      var a := LoadChar();
      if a.Raised? { return Raised(a.error); }
      var b := LoadChar();
      if b.Raised? { return Raised(b.error); }
      l := Got(Upval(None, a.value, b.value));
    }

    method LoadUpvalues() returns (l: Loaded<seq<Upval>>)
      modifies z
      ensures Does(GetVector(GetUpval, old(z.Remaining())), l)
    {
      hide GetInt;
      var n := LoadInt();
      if n.Raised? { return Raised(n.error); }
      ghost var s1 := z.Remaining();
      var k: seq<Upval> := [];
      var i := 0;
      AfterStart(GetAll(n.value, GetUpval, s1));
      while i < n.value
        invariant 0 <= i <= n.value && |k| == i
        invariant After(GetAll(n.value, GetUpval, s1), k, GetAll(n.value - i, GetUpval, z.Remaining()))
      {
        ghost var s2, k2 := z.Remaining(), k;
        AfterStep(GetAll(n.value, GetUpval, s1), k2, GetUpval, n.value - i, s2);
        var u := LoadUpval();
        if u.Raised? { return Raised(u.error); }
        k := k + [u.value];
        i := i + 1;
      }
      assert k + [] == k;
      l := Got(k);
    }

    method LoadLocVars() returns (l: Loaded<seq<LocVar>>)
      modifies z
      ensures Does(GetVector(GetLocVar, old(z.Remaining())), l)
    {
      hide GetInt, GetString;
      var n := LoadInt();
      if n.Raised? { return Raised(n.error); }
      ghost var s1 := z.Remaining();
      var k: seq<LocVar> := [];
      var i := 0;
      AfterStart(GetAll(n.value, GetLocVar, s1));
      while i < n.value
        invariant 0 <= i <= n.value && |k| == i
        invariant After(GetAll(n.value, GetLocVar, s1), k, GetAll(n.value - i, GetLocVar, z.Remaining()))
      {
        ghost var s2, k2 := z.Remaining(), k;
        AfterStep(GetAll(n.value, GetLocVar, s1), k2, GetLocVar, n.value - i, s2);
        var name := LoadString();
        if name.Raised? { return Raised(name.error); }
        var a := LoadInt();
        if a.Raised? { return Raised(a.error); }
        var b := LoadInt();
        if b.Raised? { return Raised(b.error); }
        k := k + [LocVar(name.value, a.value, b.value)];
        i := i + 1;
      }
      assert k + [] == k;
      l := Got(k);
    }

    method LoadNames() returns (l: Loaded<seq<Option<Bytes>>>)
      modifies z
      ensures Does(GetVector(GetString, old(z.Remaining())), l)
    {
      hide GetInt, GetString;
      var n := LoadInt();
      if n.Raised? { return Raised(n.error); }
      ghost var s1 := z.Remaining();
      var k: seq<Option<Bytes>> := [];
      var i := 0;
      AfterStart(GetAll(n.value, GetString, s1));
      while i < n.value
        invariant 0 <= i <= n.value && |k| == i
        invariant After(GetAll(n.value, GetString, s1), k, GetAll(n.value - i, GetString, z.Remaining()))
      {
        ghost var s2, k2 := z.Remaining(), k;
        AfterStep(GetAll(n.value, GetString, s1), k2, GetString, n.value - i, s2);
        var c := LoadString();
        if c.Raised? { return Raised(c.error); }
        k := k + [c.value];
        i := i + 1;
      }
      assert k + [] == k;
      l := Got(k);
    }

    method LoadDebug() returns (l: Loaded<Debug>)
      modifies z
      ensures Does(GetDebug(old(z.Remaining())), l)
    {
      hide GetString, GetVector;
      var source := LoadString();
      if source.Raised? { return Raised(source.error); }
      var lines := LoadWords();
      if lines.Raised? { return Raised(lines.error); }
      var vars := LoadLocVars();
      if vars.Raised? { return Raised(vars.error); }
      var names := LoadNames();
      if names.Raised? { return Raised(names.error); }
      l := Got(Debug(source.value, lines.value, vars.value, names.value));
    }

    method LoadProtos(n: nat) returns (l: Loaded<seq<Proto>>)
      modifies z
      ensures Does(GetProtos(n, old(z.Remaining())), l)
      decreases |z.Remaining()|, 1
    {
      hide GetFunction;
      ghost var s1 := z.Remaining();
      var k: seq<Proto> := [];
      var i := 0;
      AfterStart(GetProtos(n, s1));
      while i < n
        invariant 0 <= i <= n && |k| == i && |z.Remaining()| <= |s1|
        invariant After(GetProtos(n, s1), k, GetProtos(n - i, z.Remaining()))
      {
        ghost var s2 := z.Remaining();
        AfterProto(GetProtos(n, s1), k, n - i, s2);
        var f := LoadFunction();
        if f.Raised? { return Raised(f.error); }
        assert |z.Remaining()| <= |s2|;
        k := k + [f.value];
        i := i + 1;
      }
      assert k + [] == k;
      l := Got(k);
    }

    method LoadHead() returns (l: Loaded<Head>)
      modifies z
      ensures Does(GetHead(old(z.Remaining())), l)
    {
      hide GetInt;
      var a := LoadInt();
      if a.Raised? { return Raised(a.error); }
      var b := LoadInt();
      if b.Raised? { return Raised(b.error); }
      var c := LoadBlock(3);
      if c.Raised? { return Raised(c.error); }
      l := Got(Head(a.value, b.value, c.value[0], c.value[1], c.value[2]));
    }

    method LoadFunction() returns (l: Loaded<Proto>)
      modifies z
      ensures Does(GetFunction(old(z.Remaining())), l)
      decreases |z.Remaining()|, 0
    {
      hide GetVector, GetInt, GetRest, GetProtos;
      ghost var s0 := z.Remaining();
      HeadShorter(s0);
      var h := LoadHead();
      if h.Raised? { return Raised(h.error); }
      VectorShorter(GetWord, z.Remaining());
      var code := LoadWords();
      if code.Raised? { return Raised(code.error); }
      VectorShorter(GetConst, z.Remaining());
      var k := LoadConsts();
      if k.Raised? { return Raised(k.error); }
      IntShorter(z.Remaining());
      var n := LoadInt();
      if n.Raised? { return Raised(n.error); }
      var p := LoadProtos(n.value);
      if p.Raised? { return Raised(p.error); }
      l := LoadRest(h.value, code.value, k.value, p.value);
    }

    method LoadRest(h: Head, code: seq<nat>, k: seq<Const>, p: seq<Proto>) returns (l: Loaded<Proto>)
      modifies z
      ensures Does(GetRest(h, code, k, p, old(z.Remaining()), |old(z.Remaining())|), l)
    {
      hide GetVector, GetDebug;
      var us := LoadUpvalues();
      if us.Raised? { return Raised(us.error); }
      var d := LoadDebug();
      if d.Raised? { return Raised(d.error); }
      if |d.value.names| > |us.value| { return Raised(Corrupted); }
      l := Got(Proto(h.linedefined, h.lastlinedefined, h.numparams, h.isvararg, h.maxstacksize, code, k, p,
                     Named(us.value, d.value.names), d.value.source, d.value.lineinfo, d.value.locvars));
    }

    method LoadHeader() returns (l: Loaded<()>)
      modifies z
      ensures Does(CheckHeader(old(z.Remaining())), l)
    {
      var b := LoadBlock(17);
      if b.Raised? { return Raised(b.error); }
      var h := [27] + b.value;
      if h == Header() { return Got(()); }
      if h[..4] != SIGNATURE { return Raised(NotAChunk); }
      if h[..6] != SIGNATURE + VERSION { return Raised(VersionMismatch); }
      if h[..12] != SIGNATURE + VERSION + SIZES { return Raised(Incompatible); }
      return Raised(Corrupted);
    }

    /** `luaU_undump` */
    method UndumpChunk() returns (l: Loaded<Proto>)
      modifies z
      ensures Does(Undump(old(z.Remaining())), l)
    {
      hide GetFunction, CheckHeader;
      var h := LoadHeader();
      if h.Raised? { return Raised(h.error); }
      l := LoadFunction();
    }
  }

  /** The elements read so far, and what reading the others gives. */
  ghost predicate After<T>(all: Read<seq<T>>, done: seq<T>, more: Read<seq<T>>) {
    match more
    case Err(e) => all == Err(e)
    case Ok(xs, rest) => all == Ok(done + xs, rest)
  }

  lemma AfterStart<T>(all: Read<seq<T>>)
    ensures After(all, [], all)
  {
    if all.Ok? { assert [] + all.value == all.value; }
  }

  lemma AfterStep<T>(all: Read<seq<T>>, done: seq<T>, get: Bytes -> Read<T>, n: nat, s: Bytes)
    requires n > 0 && After(all, done, GetAll(n, get, s))
    ensures match get(s)
            case Err(e) => all == Err(e)
            case Ok(x, r) => After(all, done + [x], GetAll(n - 1, get, r))
  {
    if get(s).Ok? && GetAll(n - 1, get, get(s).rest).Ok? {
      var xs := GetAll(n - 1, get, get(s).rest).value;
      assert done + ([get(s).value] + xs) == (done + [get(s).value]) + xs;
    }
  }

  lemma AfterProto(all: Read<seq<Proto>>, done: seq<Proto>, n: nat, s: Bytes)
    requires n > 0 && After(all, done, GetProtos(n, s))
    ensures match GetFunction(s)
            case Err(e) => all == Err(e)
            case Ok(x, r) => After(all, done + [x], GetProtos(n - 1, r))
  {
    if GetFunction(s).Ok? && GetProtos(n - 1, GetFunction(s).rest).Ok? {
      var xs := GetProtos(n - 1, GetFunction(s).rest).value;
      assert done + ([GetFunction(s).value] + xs) == (done + [GetFunction(s).value]) + xs;
    }
  }

  lemma HeadShorter(s: Bytes)
    ensures GetHead(s).Ok? ==> |GetHead(s).rest| < |s|
  {
  }

  lemma IntShorter(s: Bytes)
    ensures GetInt(s).Ok? ==> |GetInt(s).rest| < |s|
  {
  }

  /** A dumped chunk is read back however the reader splits it, and what follows it in the stream is left. */
  method LoadDumped(f: Proto, strip: bool, pieces: seq<Bytes>, rest: Bytes) returns (l: Loaded<Proto>, left: Bytes)
    requires ProtoOk(f) && Flat(pieces) == Dump(f, strip)[1..] + rest
    ensures l == Got(Image(f, strip)) && left == rest
  {
    hide Dump, ProtoOk, Image, Undump;
    var z := new Zio(pieces);
    assert z.Remaining() == Flat(pieces);
    var s := new LoadState(z);
    UndumpDump(f, strip, rest);
    l := s.UndumpChunk();
    left := z.Remaining();
  }

  function Parts(f: Proto, strip: bool): Bytes {
    PutHead(f) + PutCode(f) + (PutInt(|f.k|) + PutAll(f.k, PutConst)) + (PutInt(|f.p|) + PutProtos(f.p, strip))
      + PutUpvalues(f) + PutDebug(f, strip)
  }

  lemma NothingPut()
    ensures PutAll<nat>([], PutWord) == [] && PutAll<LocVar>([], PutLocVar) == [] && PutAll<Upval>([], PutName) == []
  {
  }
}

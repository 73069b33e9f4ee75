/** Loading a dumped prototype gives it back and uses up exactly its bytes. */
module ChunkRoundTrip {
  import opened Basics
  import opened Chunks

  lemma Power4()
    ensures Power256(4) == WORD
  {
    assert Power256(0) == 1 && Power256(1) == 256 && Power256(2) == 256 * 256;
    assert Power256(3) == 256 * Power256(2);
  }

  lemma Power8()
    ensures Power256(8) == SIZEMAX
  {
    Power4();
    assert Power256(5) == 256 * Power256(4);
    assert Power256(6) == 256 * Power256(5);
    assert Power256(7) == 256 * Power256(6);
  }

  lemma BlockBack(b: Bytes, rest: Bytes)
    ensures GetBlock(b + rest, |b|) == Ok(b, rest)
  {
  }

  lemma WordBack(x: nat, rest: Bytes)
    requires x < WORD
    ensures GetWord(PutWord(x) + rest) == Ok(x, rest)
  {
    Power4();
    LeInverse(x, 4);
    BlockBack(Le(x, 4), rest);
  }

  lemma IntBack(x: nat, rest: Bytes)
    requires x < INTMAX
    ensures GetInt(PutInt(x) + rest) == Ok(x, rest)
  {
    WordBack(x, rest);
  }

  lemma NumberBack(x: nat, rest: Bytes)
    requires x < SIZEMAX
    ensures GetNumber(Le(x, 8) + rest) == Ok(x, rest)
  {
    Power8();
    LeInverse(x, 8);
    BlockBack(Le(x, 8), rest);
  }

  lemma StringBack(s: Option<Bytes>, rest: Bytes)
    requires StringOk(s)
    ensures GetString(PutString(s) + rest) == Ok(s, rest)
  {
    match s
    case None => NumberBack(0, rest);
    case Some(t) =>
      var size := |t| + 1;
      var body := t + [0];
      assert PutString(s) + rest == Le(size, 8) + (body + rest);
      NumberBack(size, body + rest);
      BlockBack(body, rest);
      assert body[..size - 1] == t;
  }

  lemma CharBack(c: Byte, rest: Bytes)
    ensures GetChar([c] + rest) == Ok(c, rest)
  {
  }

  lemma ConstBack(c: Const, rest: Bytes)
    requires ConstOk(c)
    ensures GetConst(PutConst(c) + rest) == Ok(c, rest)
  {
    match c
    case KNil => CharBack(0, rest);
    case KBool(b) =>
      var y: Byte := if b then 1 else 0;
      assert PutConst(c) + rest == [1] + ([y] + rest);
      CharBack(1, [y] + rest);
      CharBack(y, rest);
    case KNum(bits) =>
      assert PutConst(c) + rest == [3] + (Le(bits, 8) + rest);
      CharBack(3, Le(bits, 8) + rest);
      NumberBack(bits, rest);
    case KStr(s) =>
      assert PutConst(c) + rest == [4] + (PutString(Some(s)) + rest);
      CharBack(4, PutString(Some(s)) + rest);
      StringBack(Some(s), rest);
  }

  lemma UpvalBack(u: Upval, rest: Bytes)
    ensures GetUpval(PutUpval(u) + rest) == Ok(u.(name := None), rest)
  {
    assert PutUpval(u) + rest == [u.instack] + ([u.idx] + rest);
  }

  lemma LocVarBack(v: LocVar, rest: Bytes)
    requires LocVarOk(v)
    ensures GetLocVar(PutLocVar(v) + rest) == Ok(v, rest)
  {
    var r2 := PutInt(v.endpc) + rest;
    var r1 := PutInt(v.startpc) + r2;
    assert PutLocVar(v) + rest == PutString(v.varname) + r1;
    StringBack(v.varname, r1);
    IntBack(v.startpc, r2);
    IntBack(v.endpc, rest);
  }

  // ----- vectors -----

  function Map<T, U>(xs: seq<T>, f: T -> U): (r: seq<U>)
    ensures |r| == |xs| && forall i :: 0 <= i < |xs| ==> r[i] == f(xs[i])
  {
    seq(|xs|, i requires 0 <= i < |xs| => f(xs[i]))
  }

  /** `image` is what reading an element gives after it was written. */
  lemma {:induction false} AllBack<T, U>(xs: seq<T>, put: T -> Bytes, get: Bytes -> Read<U>, image: T -> U, rest: Bytes)
    requires forall x, r :: x in xs ==> get(put(x) + r) == Ok(image(x), r)
    ensures GetAll(|xs|, get, PutAll(xs, put) + rest) == Ok(Map(xs, image), rest)
    decreases |xs|
  {
    if xs == [] {
      assert PutAll(xs, put) + rest == rest;
    } else {
      var more := PutAll(xs[1..], put) + rest;
      assert PutAll(xs, put) + rest == put(xs[0]) + more;
      assert xs[0] in xs;
      assert get(put(xs[0]) + more) == Ok(image(xs[0]), more);
      AllBack(xs[1..], put, get, image, rest) by { assert forall x :: x in xs[1..] ==> x in xs; }
      assert [image(xs[0])] + Map(xs[1..], image) == Map(xs, image);
    }
  }

  lemma VectorBack<T, U>(xs: seq<T>, put: T -> Bytes, get: Bytes -> Read<U>, image: T -> U, rest: Bytes)
    requires |xs| < INTMAX && forall x, r :: x in xs ==> get(put(x) + r) == Ok(image(x), r)
    ensures GetVector(get, PutInt(|xs|) + PutAll(xs, put) + rest) == Ok(Map(xs, image), rest)
  {
    assert PutInt(|xs|) + PutAll(xs, put) + rest == PutInt(|xs|) + (PutAll(xs, put) + rest);
    IntBack(|xs|, PutAll(xs, put) + rest);
    AllBack(xs, put, get, image, rest);
  }

  /** Elements that are read as they were. */
  lemma SameVector<T>(xs: seq<T>, put: T -> Bytes, get: Bytes -> Read<T>, rest: Bytes)
    requires |xs| < INTMAX && forall x, r :: x in xs ==> get(put(x) + r) == Ok(x, r)
    ensures GetVector(get, PutInt(|xs|) + PutAll(xs, put) + rest) == Ok(xs, rest)
  {
    var id := (x: T) => x;
    VectorBack(xs, put, get, id, rest);
    assert Map(xs, id) == xs;
  }

  lemma WordsBack(xs: seq<nat>, rest: Bytes)
    requires |xs| < INTMAX && forall i :: 0 <= i < |xs| ==> xs[i] < WORD
    ensures GetVector(GetWord, PutInt(|xs|) + PutAll(xs, PutWord) + rest) == Ok(xs, rest)
  {
    forall x, r | x in xs ensures GetWord(PutWord(x) + r) == Ok(x, r) { WordBack(x, r); }
    SameVector(xs, PutWord, GetWord, rest);
  }

  lemma ConstsBack(xs: seq<Const>, rest: Bytes)
    requires |xs| < INTMAX && forall i :: 0 <= i < |xs| ==> ConstOk(xs[i])
    ensures GetVector(GetConst, PutInt(|xs|) + PutAll(xs, PutConst) + rest) == Ok(xs, rest)
  {
    forall x, r | x in xs ensures GetConst(PutConst(x) + r) == Ok(x, r) { ConstBack(x, r); }
    SameVector(xs, PutConst, GetConst, rest);
  }

  lemma LocVarsBack(xs: seq<LocVar>, rest: Bytes)
    requires |xs| < INTMAX && forall i :: 0 <= i < |xs| ==> LocVarOk(xs[i])
    ensures GetVector(GetLocVar, PutInt(|xs|) + PutAll(xs, PutLocVar) + rest) == Ok(xs, rest)
  {
    forall x, r | x in xs ensures GetLocVar(PutLocVar(x) + r) == Ok(x, r) { LocVarBack(x, r); }
    SameVector(xs, PutLocVar, GetLocVar, rest);
  }

  function Unnamed(u: Upval): Upval { u.(name := None) }

  function NameOf(u: Upval): Option<Bytes> { u.name }

  lemma UpvalsBack(us: seq<Upval>, rest: Bytes)
    requires |us| < INTMAX
    ensures GetVector(GetUpval, PutInt(|us|) + PutAll(us, PutUpval) + rest) == Ok(Map(us, Unnamed), rest)
  {
    forall u, r | u in us ensures GetUpval(PutUpval(u) + r) == Ok(Unnamed(u), r) { UpvalBack(u, r); }
    VectorBack(us, PutUpval, GetUpval, Unnamed, rest);
  }

  lemma NamesBack(us: seq<Upval>, rest: Bytes)
    requires |us| < INTMAX && forall i :: 0 <= i < |us| ==> StringOk(us[i].name)
    ensures GetVector(GetString, PutInt(|us|) + PutAll(us, PutName) + rest) == Ok(Map(us, NameOf), rest)
  {
    forall u, r | u in us ensures GetString(PutName(u) + r) == Ok(NameOf(u), r) { StringBack(u.name, r); }
    VectorBack(us, PutName, GetString, NameOf, rest);
  }

  lemma NoneBack<T>(get: Bytes -> Read<T>, rest: Bytes)
    ensures GetVector(get, PutInt(0) + rest) == Ok([], rest)
  {
    IntBack(0, rest);
  }

  // ----- prototypes -----

  /** What a load gives back. */
  function Image(f: Proto, strip: bool): Proto {
    if strip then Stripped(f) else f
  }

  function DebugOf(f: Proto, strip: bool): Debug {
    if strip then Debug(None, [], [], [])
    else Debug(f.source, f.lineinfo, f.locvars, Map(f.upvalues, NameOf))
  }

  lemma DebugBack(f: Proto, strip: bool, rest: Bytes)
    requires ProtoOk(f)
    ensures GetDebug(PutDebug(f, strip) + rest) == Ok(DebugOf(f, strip), rest)
  {
    if strip {
      var r3 := PutInt(0) + rest;
      var r2 := PutInt(0) + r3;
      var r1 := PutInt(0) + r2;
      assert PutDebug(f, strip) + rest == PutString(None) + r1;
      StringBack(None, r1);
      NoneBack(GetWord, r2);
      NoneBack(GetLocVar, r3);
      NoneBack(GetString, rest);
    } else {
      hide PutAll, PutInt, PutString, GetVector, GetString;
      var r3 := PutInt(|f.upvalues|) + PutAll(f.upvalues, PutName) + rest;
      var r2 := PutInt(|f.locvars|) + PutAll(f.locvars, PutLocVar) + r3;
      var r1 := PutInt(|f.lineinfo|) + PutAll(f.lineinfo, PutWord) + r2;
      assert PutDebug(f, strip) + rest == PutString(f.source) + r1;
      StringBack(f.source, r1);
      WordsBack(f.lineinfo, r2);
      LocVarsBack(f.locvars, r3);
      NamesBack(f.upvalues, rest);
    }
  }

  lemma HeadBack(f: Proto, rest: Bytes)
    requires ProtoOk(f)
    ensures GetHead(PutHead(f) + rest) ==
        Ok(Head(f.linedefined, f.lastlinedefined, f.numparams, f.isvararg, f.maxstacksize), rest)
  {
    hide PutInt, GetInt;
    var three := [f.numparams] + [f.isvararg] + [f.maxstacksize];
    var r2 := three + rest;
    var r1 := PutInt(f.lastlinedefined) + r2;
    assert PutHead(f) + rest == PutInt(f.linedefined) + r1;
    IntBack(f.linedefined, r1);
    IntBack(f.lastlinedefined, r2);
    BlockBack(three, rest);
  }

  lemma RestBack(f: Proto, k: seq<Const>, p: seq<Proto>, strip: bool, rest: Bytes)
    requires ProtoOk(f)
    ensures var s := PutUpvalues(f) + PutDebug(f, strip) + rest;
            var h := Head(f.linedefined, f.lastlinedefined, f.numparams, f.isvararg, f.maxstacksize);
            GetRest(h, f.code, k, p, s, |s|) == Ok(Image(f, strip).(k := k, p := p), rest)
  {
    hide PutAll, PutInt, GetVector, PutDebug, GetDebug;
    var r1 := PutDebug(f, strip) + rest;
    assert PutUpvalues(f) + PutDebug(f, strip) + rest == PutInt(|f.upvalues|) + PutAll(f.upvalues, PutUpval) + r1;
    UpvalsBack(f.upvalues, r1);
    DebugBack(f, strip, rest);
    var us := Map(f.upvalues, Unnamed);
    var d := DebugOf(f, strip);
    RestUpvals(f, strip);
  }

  lemma RestUpvals(f: Proto, strip: bool)
    ensures var us := Map(f.upvalues, Unnamed);
            |DebugOf(f, strip).names| <= |us| && Named(us, DebugOf(f, strip).names) == Image(f, strip).upvalues
  {
    var us := Map(f.upvalues, Unnamed);
    var d := DebugOf(f, strip);
    forall i | 0 <= i < |us|
      ensures Named(us, d.names)[i] == Image(f, strip).upvalues[i]
    {
    }
  }

  /** Loading a dumped prototype gives it back, without its debug information if it was stripped, and
      leaves exactly what followed it. */
  lemma {:induction false} FunctionBack(f: Proto, strip: bool, rest: Bytes)
    requires ProtoOk(f)
    ensures GetFunction(PutFunction(f, strip) + rest) == Ok(Image(f, strip), rest)
    decreases f
  {
    var r5 := PutUpvalues(f) + PutDebug(f, strip) + rest;
    var r4 := PutProtos(f.p, strip) + r5;
    var r3 := PutInt(|f.p|) + r4;
    var r2 := PutInt(|f.k|) + PutAll(f.k, PutConst) + r3;
    var r1 := PutCode(f) + r2;
    PutParts(f, strip, rest);
    assert forall i :: 0 <= i < |f.p| ==> ProtoOk(f.p[i]);
    hide PutAll, PutInt, GetVector, PutHead, GetHead, PutUpvalues, PutDebug, GetRest, PutProtos, GetProtos, ProtoOk;
    hide GetInt;
    HeadBack(f, r1);
    CodeBack(f, r2);
    KBack(f, r3);
    IntBack(|f.p|, r4) by { FewProtos(f); }
    ProtosBack(f.p, strip, r5);
    RestBack(f, f.k, Images(f.p, strip), strip, rest);
    assert Image(f, strip).(k := f.k, p := Images(f.p, strip)) == Image(f, strip) by { ImageParts(f, strip); }
  }

  lemma FewProtos(f: Proto)
    requires ProtoOk(f)
    ensures |f.p| < INTMAX
  {
  }

  lemma CodeBack(f: Proto, rest: Bytes)
    requires ProtoOk(f)
    ensures GetVector(GetWord, PutCode(f) + rest) == Ok(f.code, rest)
  {
    WordsBack(f.code, rest);
  }

  lemma KBack(f: Proto, rest: Bytes)
    requires ProtoOk(f)
    ensures GetVector(GetConst, PutInt(|f.k|) + PutAll(f.k, PutConst) + rest) == Ok(f.k, rest)
  {
    ConstsBack(f.k, rest);
  }

  function Images(ps: seq<Proto>, strip: bool): seq<Proto> {
    seq(|ps|, i requires 0 <= i < |ps| => Image(ps[i], strip))
  }

  lemma ImageParts(f: Proto, strip: bool)
    ensures Images(f.p, strip) == Image(f, strip).p && Image(f, strip).k == f.k
  {
  }

  lemma PutParts(f: Proto, strip: bool, rest: Bytes)
    ensures PutFunction(f, strip) + rest
            == PutHead(f) + (PutCode(f) + (PutInt(|f.k|) + PutAll(f.k, PutConst)
               + (PutInt(|f.p|) + (PutProtos(f.p, strip) + (PutUpvalues(f) + PutDebug(f, strip) + rest)))))
  {
    hide PutAll, PutInt, PutHead, PutCode, PutUpvalues, PutDebug, PutProtos;
    var a, b, c, d, e := PutHead(f), PutCode(f), PutInt(|f.k|) + PutAll(f.k, PutConst),
        PutInt(|f.p|) + PutProtos(f.p, strip), PutUpvalues(f);
    assert PutFunction(f, strip) == a + b + c + d + e + PutDebug(f, strip);
    assert d + (e + PutDebug(f, strip) + rest) == PutInt(|f.p|) +
        (PutProtos(f.p, strip) + (e + PutDebug(f, strip) + rest));
    assert a + b + c + d + e + PutDebug(f, strip) + rest == a + (b + (c + (d + (e + PutDebug(f, strip) + rest))));
  }

  lemma {:induction false} ProtosBack(ps: seq<Proto>, strip: bool, rest: Bytes)
    requires forall i :: 0 <= i < |ps| ==> ProtoOk(ps[i])
    ensures GetProtos(|ps|, PutProtos(ps, strip) + rest) == Ok(Images(ps, strip), rest)
    decreases ps
  {
    hide GetFunction, PutFunction, ProtoOk;
    if ps == [] {
      assert PutProtos(ps, strip) + rest == rest;
      assert Images(ps, strip) == [];
    } else {
      var more := PutProtos(ps[1..], strip) + rest;
      assert PutProtos(ps, strip) + rest == PutFunction(ps[0], strip) + more;
      FunctionBack(ps[0], strip, more);
      ProtosBack(ps[1..], strip, rest);
      assert [Image(ps[0], strip)] + Images(ps[1..], strip) == Images(ps, strip);
    }
  }

  /** The whole chunk, after its first byte. */
  lemma UndumpDump(f: Proto, strip: bool, rest: Bytes)
    requires ProtoOk(f)
    ensures |Dump(f, strip)| > 0 && Dump(f, strip)[0] == 27
    ensures Undump(Dump(f, strip)[1..] + rest) == Ok(Image(f, strip), rest)
  {
    hide PutFunction, GetFunction, ProtoOk, Image;
    var body := PutFunction(f, strip) + rest;
    var h := Header();
    assert |h| == 18 && h[0] == 27;
    assert Dump(f, strip)[1..] + rest == h[1..] + body;
    BlockBack(h[1..], body);
    assert [27] + h[1..] == h;
    FunctionBack(f, strip, rest);
  }

  /** Stripping takes away debug information and nothing else, at every depth: functions have the same stripped form
      exactly if they are the same but for that. */
  lemma {:induction false} StrippedExact(f: Proto, g: Proto)
    ensures SameButDebug(f, g) <==> Stripped(f) == Stripped(g)
    decreases f
  {
    forall i | 0 <= i < |f.p| && |f.p| == |g.p|
      ensures SameButDebug(f.p[i], g.p[i]) <==> Stripped(f).p[i] == Stripped(g).p[i]
    {
      StrippedExact(f.p[i], g.p[i]);
    }
    if |f.p| == |g.p| {
      assert Stripped(f).p == Stripped(g).p <==> forall i :: 0 <= i < |f.p| ==> Stripped(f).p[i] == Stripped(g).p[i];
    }
    NamesOnly(f.upvalues, g.upvalues, Stripped(f).upvalues, Stripped(g).upvalues);
    if Stripped(f) == Stripped(g) {
      assert |f.p| == |Stripped(f).p| == |g.p|;
    }
  }

  /** Stripping takes the names of upvalues only. */
  lemma NamesOnly(a: seq<Upval>, b: seq<Upval>, u: seq<Upval>, v: seq<Upval>)
    requires |u| == |a| && forall i :: 0 <= i < |a| ==> u[i] == a[i].(name := None)
    requires |v| == |b| && forall i :: 0 <= i < |b| ==> v[i] == b[i].(name := None)
    ensures u == v <==>
            |b| == |a| && forall i :: 0 <= i < |a| ==> b[i].instack == a[i].instack && b[i].idx == a[i].idx
  {
    if u == v {
      forall i | 0 <= i < |a|
        ensures b[i].instack == a[i].instack && b[i].idx == a[i].idx
      {
        assert u[i] == v[i];
      }
    }
  }

  /** Stripping again takes nothing more. */
  lemma {:induction false} StrippedTwice(f: Proto)
    ensures Stripped(Stripped(f)) == Stripped(f)
    decreases f
  {
    forall i | 0 <= i < |f.p|
      ensures Stripped(Stripped(f).p[i]) == Stripped(f).p[i]
    {
      StrippedTwice(f.p[i]);
    }
    assert Stripped(Stripped(f)).p == Stripped(f).p;
    assert Stripped(Stripped(f)).upvalues == Stripped(f).upvalues;
  }

  /** What is loaded from a chunk is the function that was dumped but for debug information, and if the chunk was not
      stripped, it is that function. */
  lemma LoadedSame(f: Proto, strip: bool, rest: Bytes)
    requires ProtoOk(f)
    ensures var r := Undump(Dump(f, strip)[1..] + rest);
      r.Ok? && r.rest == rest && SameButDebug(f, r.value) && (!strip ==> r.value == f)
  {
    UndumpDump(f, strip, rest);
    StrippedTwice(f);
    StrippedExact(f, Stripped(f));
    StrippedExact(f, f);
  }
}

/** The binary form of precompiled functions: writing and reading are inverse. */
module Chunks {
  import opened Basics

  type Byte = x: int | 0 <= x < 256
  type Bytes = seq<Byte>

  /** What a read gives, or the error it raises. */
  datatype Read<+T> = Ok(value: T, rest: Bytes) | Err(error: Error)

  datatype Error = Truncated | Corrupted | NotAChunk | VersionMismatch | Incompatible

  // ----- prototypes -----

  datatype Const = KNil | KBool(b: bool) | KNum(bits: nat) | KStr(s: Bytes)
  datatype Upval = Upval(name: Option<Bytes>, instack: Byte, idx: Byte)
  datatype LocVar = LocVar(varname: Option<Bytes>, startpc: nat, endpc: nat)

  /** Instructions, line numbers and numbers are given by their bits. */
  datatype Proto = Proto(
    linedefined: nat, lastlinedefined: nat, numparams: Byte, isvararg: Byte, maxstacksize: Byte,
    code: seq<nat>, k: seq<Const>, p: seq<Proto>, upvalues: seq<Upval>,
    source: Option<Bytes>, lineinfo: seq<nat>, locvars: seq<LocVar>)

  const INTMAX: nat := 0x8000_0000
  const WORD: nat := 0x1_0000_0000
  const SIZEMAX: nat := 0x1_0000_0000_0000_0000

  predicate StringOk(s: Option<Bytes>) { s.Some? ==> |s.value| + 1 < SIZEMAX }

  predicate ConstOk(c: Const) {
    match c
    case KNum(bits) => bits < SIZEMAX
    case KStr(s) => |s| + 1 < SIZEMAX
    case _ => true
  }

  predicate LocVarOk(v: LocVar) { StringOk(v.varname) && v.startpc < INTMAX && v.endpc < INTMAX }

  /** The values fit the types of the fields. */
  predicate ProtoOk(f: Proto) {
    && f.linedefined < INTMAX && f.lastlinedefined < INTMAX
    && |f.code| < INTMAX && (forall i :: 0 <= i < |f.code| ==> f.code[i] < WORD)
    && |f.k| < INTMAX && (forall i :: 0 <= i < |f.k| ==> ConstOk(f.k[i]))
    && |f.p| < INTMAX && (forall i :: 0 <= i < |f.p| ==> ProtoOk(f.p[i]))
    && |f.upvalues| < INTMAX && (forall i :: 0 <= i < |f.upvalues| ==> StringOk(f.upvalues[i].name))
    && StringOk(f.source)
    && |f.lineinfo| < INTMAX && (forall i :: 0 <= i < |f.lineinfo| ==> f.lineinfo[i] < WORD)
    && |f.locvars| < INTMAX && (forall i :: 0 <= i < |f.locvars| ==> LocVarOk(f.locvars[i]))
  }

  /** The same in all but debug information, at every depth. */
  predicate SameButDebug(f: Proto, g: Proto)
    decreases f
  {
    && g.linedefined == f.linedefined && g.lastlinedefined == f.lastlinedefined
    && g.numparams == f.numparams && g.isvararg == f.isvararg && g.maxstacksize == f.maxstacksize
    && g.code == f.code && g.k == f.k
    && |g.upvalues| == |f.upvalues|
    && (forall i :: 0 <= i < |f.upvalues| ==>
          g.upvalues[i].instack == f.upvalues[i].instack && g.upvalues[i].idx == f.upvalues[i].idx)
    && |g.p| == |f.p| && forall i :: 0 <= i < |f.p| ==> SameButDebug(f.p[i], g.p[i])
  }

  /** What is left without debug information. */
  function Stripped(f: Proto): Proto {
    f.(p := seq(|f.p|, i requires 0 <= i < |f.p| => Stripped(f.p[i])),
       upvalues := seq(|f.upvalues|, i requires 0 <= i < |f.upvalues| => f.upvalues[i].(name := None)),
       source := None, lineinfo := [], locvars := [])
  }

  // ----- numbers in memory -----

  /** The bytes of a number of `w` bytes, the least significant first. */
  function Le(x: nat, w: nat): (b: Bytes)
    ensures |b| == w
  {
    if w == 0 then [] else [x % 256] + Le(x / 256, w - 1)
  }

  function FromLe(b: Bytes): nat {
    if b == [] then 0 else b[0] + 256 * FromLe(b[1..])
  }

  function Power256(w: nat): nat { if w == 0 then 1 else 256 * Power256(w - 1) }

  lemma {:induction false} LeInverse(x: nat, w: nat)
    requires x < Power256(w)
    ensures FromLe(Le(x, w)) == x
    decreases w
  {
    if w > 0 {
      LeInverse(x / 256, w - 1);
      assert Le(x, w)[1..] == Le(x / 256, w - 1);
    }
  }

  // ----- writing (`ldump.c`) -----

  function PutInt(x: nat): Bytes { Le(x, 4) }

  function PutString(s: Option<Bytes>): Bytes {
    match s
    case None => Le(0, 8)
    case Some(t) => Le(|t| + 1, 8) + (t + [0])
  }

  function PutConst(c: Const): Bytes {
    match c
    case KNil => [0]
    case KBool(b) => [1] + [if b then 1 else 0]
    case KNum(bits) => [3] + Le(bits, 8)
    case KStr(s) => [4] + PutString(Some(s))
  }

  function PutUpval(u: Upval): Bytes { [u.instack] + [u.idx] }

  function PutLocVar(v: LocVar): Bytes { PutString(v.varname) + PutInt(v.startpc) + PutInt(v.endpc) }

  function PutAll<T>(xs: seq<T>, put: T -> Bytes): Bytes
    decreases |xs|
  {
    if xs == [] then [] else put(xs[0]) + PutAll(xs[1..], put)
  }

  function PutWord(x: nat): Bytes { Le(x, 4) }

  function PutName(u: Upval): Bytes { PutString(u.name) }

  function PutCode(f: Proto): Bytes { PutInt(|f.code|) + PutAll(f.code, PutWord) }

  function PutUpvalues(f: Proto): Bytes { PutInt(|f.upvalues|) + PutAll(f.upvalues, PutUpval) }

  function PutDebug(f: Proto, strip: bool): Bytes {
    if strip then PutString(None) + PutInt(0) + PutInt(0) + PutInt(0)
    else
      PutString(f.source)
      + (PutInt(|f.lineinfo|) + PutAll(f.lineinfo, PutWord))
      + (PutInt(|f.locvars|) + PutAll(f.locvars, PutLocVar))
      + (PutInt(|f.upvalues|) + PutAll(f.upvalues, PutName))
  }

  function PutHead(f: Proto): Bytes {
    PutInt(f.linedefined) + PutInt(f.lastlinedefined) + [f.numparams] + [f.isvararg] + [f.maxstacksize]
  }

  function PutProtos(ps: seq<Proto>, strip: bool): Bytes
    decreases ps
  {
    if ps == [] then [] else PutFunction(ps[0], strip) + PutProtos(ps[1..], strip)
  }

  /** `DumpFunction` */
  function PutFunction(f: Proto, strip: bool): Bytes
    decreases f
  {
    PutHead(f) + PutCode(f) + (PutInt(|f.k|) + PutAll(f.k, PutConst)) + (PutInt(|f.p|) + PutProtos(f.p, strip))
      + PutUpvalues(f) + PutDebug(f, strip)
  }

  // ----- reading (`lundump.c`) -----

  function GetBlock(s: Bytes, n: nat): Read<Bytes> {
    if n <= |s| then Ok(s[..n], s[n..]) else Err(Truncated)
  }

  function GetChar(s: Bytes): Read<Byte> {
    if s == [] then Err(Truncated) else Ok(s[0], s[1..])
  }

  function GetWord(s: Bytes): Read<nat> {
    match GetBlock(s, 4)
    case Err(e) => Err(e)
    case Ok(b, r) => Ok(FromLe(b), r)
  }

  /** A negative number is an error. */
  function GetInt(s: Bytes): Read<nat> {
    match GetWord(s)
    case Err(e) => Err(e)
    case Ok(x, r) => if x >= INTMAX then Err(Corrupted) else Ok(x, r)
  }

  function GetNumber(s: Bytes): Read<nat> {
    match GetBlock(s, 8)
    case Err(e) => Err(e)
    case Ok(b, r) => Ok(FromLe(b), r)
  }

  function GetString(s: Bytes): Read<Option<Bytes>> {
    match GetNumber(s)
    case Err(e) => Err(e)
    case Ok(size, r) =>
      if size == 0 then Ok(None, r)
      else
        match GetBlock(r, size)
        case Err(e) => Err(e)
        case Ok(b, r') => Ok(Some(b[..size - 1]), r')
  }

  /** Another type tag, or a null string, is not written by any dump. */
  function GetConst(s: Bytes): Read<Const> {
    match GetChar(s)
    case Err(e) => Err(e)
    case Ok(t, r) =>
      if t == 0 then Ok(KNil, r)
      else if t == 1 then (match GetChar(r) case Err(e) => Err(e) case Ok(b, r') => Ok(KBool(b != 0), r'))
      else if t == 3 then (match GetNumber(r) case Err(e) => Err(e) case Ok(x, r') => Ok(KNum(x), r'))
      else if t == 4 then
        (match GetString(r)
         case Err(e) => Err(e)
         case Ok(o, r') => if o.Some? then Ok(KStr(o.value), r') else Err(Corrupted))
      else Err(Corrupted)
  }

  function GetUpval(s: Bytes): Read<Upval> {
    match GetChar(s)
    case Err(e) => Err(e)
    case Ok(a, r) => (match GetChar(r) case Err(e) => Err(e) case Ok(b, r') => Ok(Upval(None, a, b), r'))
  }

  function GetLocVar(s: Bytes): Read<LocVar> {
    match GetString(s)
    case Err(e) => Err(e)
    case Ok(n, r) =>
      (match GetInt(r)
       case Err(e) => Err(e)
       case Ok(a, r') => (match GetInt(r') case Err(e) => Err(e) case Ok(b, r'') => Ok(LocVar(n, a, b), r'')))
  }

  function GetAll<T>(n: nat, get: Bytes -> Read<T>, s: Bytes): Read<seq<T>> {
    if n == 0 then Ok([], s)
    else
      match get(s)
      case Err(e) => Err(e)
      case Ok(x, r) =>
        (match GetAll(n - 1, get, r)
         case Err(e) => Err(e)
         case Ok(xs, r') => Ok([x] + xs, r'))
  }

  /** A count and that many elements. */
  function GetVector<T>(get: Bytes -> Read<T>, s: Bytes): Read<seq<T>> {
    match GetInt(s)
    case Err(e) => Err(e)
    case Ok(n, r) => GetAll(n, get, r)
  }

  datatype Head = Head(linedefined: nat, lastlinedefined: nat, numparams: Byte, isvararg: Byte, maxstacksize: Byte)

  function GetHead(s: Bytes): Read<Head> {
    match GetInt(s)
    case Err(e) => Err(e)
    case Ok(a, r1) =>
      (match GetInt(r1)
       case Err(e) => Err(e)
       case Ok(b, r2) =>
         (match GetBlock(r2, 3)
          case Err(e) => Err(e)
          case Ok(c, r3) => Ok(Head(a, b, c[0], c[1], c[2]), r3)))
  }

  /** The names of upvalues; more of them than upvalues are not written by any dump. */
  function Named(us: seq<Upval>, names: seq<Option<Bytes>>): seq<Upval>
    requires |names| <= |us|
  {
    seq(|us|, i requires 0 <= i < |us| => if i < |names| then us[i].(name := names[i]) else us[i])
  }

  datatype Debug = Debug(source: Option<Bytes>, lineinfo: seq<nat>, locvars: seq<LocVar>, names: seq<Option<Bytes>>)

  function GetDebug(s: Bytes): Read<Debug> {
    match GetString(s)
    case Err(e) => Err(e)
    case Ok(source, r1) =>
      (match GetVector(GetWord, r1)
       case Err(e) => Err(e)
       case Ok(lines, r2) =>
         (match GetVector(GetLocVar, r2)
          case Err(e) => Err(e)
          case Ok(vars, r3) =>
            (match GetVector(GetString, r3)
             case Err(e) => Err(e)
             case Ok(names, r4) => Ok(Debug(source, lines, vars, names), r4))))
  }

  lemma {:induction false} AllShorter<T>(n: nat, get: Bytes -> Read<T>, s: Bytes)
    requires forall b :: get(b).Ok? ==> |get(b).rest| <= |b|
    ensures GetAll(n, get, s).Ok? ==> |GetAll(n, get, s).rest| <= |s|
    decreases n
  {
    if n > 0 && get(s).Ok? { AllShorter(n - 1, get, get(s).rest); }
  }

  lemma VectorShorter<T>(get: Bytes -> Read<T>, s: Bytes)
    requires forall b :: get(b).Ok? ==> |get(b).rest| <= |b|
    ensures GetVector(get, s).Ok? ==> |GetVector(get, s).rest| <= |s|
  {
    if GetInt(s).Ok? { AllShorter(GetInt(s).value, get, GetInt(s).rest); }
  }

  lemma DebugShorter(s: Bytes)
    ensures GetDebug(s).Ok? ==> |GetDebug(s).rest| <= |s|
  {
    if GetString(s).Ok? {
      var r1 := GetString(s).rest;
      VectorShorter(GetWord, r1);
      if GetVector(GetWord, r1).Ok? {
        var r2 := GetVector(GetWord, r1).rest;
        VectorShorter(GetLocVar, r2);
        if GetVector(GetLocVar, r2).Ok? { VectorShorter(GetString, GetVector(GetLocVar, r2).rest); }
      }
    }
  }

  /** `LoadFunction` for `n` nested prototypes */
  function GetProtos(n: nat, s: Bytes): (r: Read<seq<Proto>>)
    ensures r.Ok? ==> |r.rest| <= |s|
    decreases |s|, 1, n
  {
    if n == 0 then Ok([], s)
    else
      match GetFunction(s)
      case Err(e) => Err(e)
      case Ok(f, r) =>
        (match GetProtos(n - 1, r)
         case Err(e) => Err(e)
         case Ok(fs, r') => Ok([f] + fs, r'))
  }

  /** `LoadFunction` */
  function GetFunction(s: Bytes): (r: Read<Proto>)
    ensures r.Ok? ==> |r.rest| < |s|
    decreases |s|, 0
  {
    match GetHead(s)
    case Err(e) => Err(e)
    case Ok(h, r1) =>
      VectorShorter(GetWord, r1);
      (match GetVector(GetWord, r1)
       case Err(e) => Err(e)
       case Ok(code, r2) =>
         VectorShorter(GetConst, r2);
         (match GetVector(GetConst, r2)
          case Err(e) => Err(e)
          case Ok(k, r3) =>
            (match GetInt(r3)
             case Err(e) => Err(e)
             case Ok(n, r4) =>
               (match GetProtos(n, r4)
                case Err(e) => Err(e)
                case Ok(p, r5) => GetRest(h, code, k, p, r5, |r5|)))))
  }

  /** The upvalues and the debug information. */
  function GetRest(h: Head, code: seq<nat>, k: seq<Const>, p: seq<Proto>, s: Bytes, n: nat): (r: Read<Proto>)
    requires |s| == n
    ensures r.Ok? ==> |r.rest| <= n
  {
    VectorShorter(GetUpval, s);
    match GetVector(GetUpval, s)
    case Err(e) => Err(e)
    case Ok(us, r1) =>
      DebugShorter(r1);
      (match GetDebug(r1)
       case Err(e) => Err(e)
       case Ok(d, r2) =>
         if |d.names| > |us| then Err(Corrupted)
         else Ok(Proto(h.linedefined, h.lastlinedefined, h.numparams, h.isvararg, h.maxstacksize, code, k, p,
                       Named(us, d.names), d.source, d.lineinfo, d.locvars), r2))
  }

  // ----- header -----

  const SIGNATURE: Bytes := [27, 76, 117, 97]
  const VERSION: Bytes := [0x52, 0]
  const SIZES: Bytes := [1, 4, 8, 4, 8, 0]
  const TAIL: Bytes := [0x19, 0x93, 13, 10, 0x1a, 10]

  function Header(): Bytes { SIGNATURE + VERSION + SIZES + TAIL }

  /** `LoadHeader`; the first byte was read before to tell a chunk from a text. */
  function CheckHeader(s: Bytes): Read<()> {
    match GetBlock(s, 17)
    case Err(e) => Err(e)
    case Ok(b, r) =>
      var h := [27] + b;
      if h == Header() then Ok((), r)
      else if h[..4] != SIGNATURE then Err(NotAChunk)
      else if h[..6] != SIGNATURE + VERSION then Err(VersionMismatch)
      else if h[..12] != SIGNATURE + VERSION + SIZES then Err(Incompatible)
      else Err(Corrupted)
  }

  /** `luaU_dump` */
  function Dump(f: Proto, strip: bool): Bytes { Header() + PutFunction(f, strip) }

  /** `luaU_undump` */
  function Undump(s: Bytes): Read<Proto> {
    match CheckHeader(s)
    case Err(e) => Err(e)
    case Ok(_, r) => GetFunction(r)
  }
}

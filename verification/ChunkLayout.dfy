/** The layout of a chunk, byte by byte, which writer and reader cannot agree to change. */
module ChunkLayout {
  import opened Basics
  import opened Chunks

  // ----- numbers -----

  /** What four bytes stand for: the least significant one comes first. */
  function Word4(b: Bytes): int
    requires |b| >= 4
  {
    b[0] as int + 0x100 * (b[1] as int) + 0x1_0000 * (b[2] as int) + 0x100_0000 * (b[3] as int)
  }

  lemma ByteOrder(x: nat)
    ensures x < WORD ==> Word4(Le(x, 4)) == x
    ensures x < SIZEMAX ==> Word4(Le(x, 8)) + WORD * Word4(Le(x, 8)[4..]) == x
  {
    FourBytes(x, 0);
    FourBytes(x, 4);
    FourBytes(x / WORD, 0);
  }

  lemma FourBytes(x: nat, w: nat)
    ensures var b := Le(x, w + 4); x == Word4(b) + WORD * (x / WORD) && b[4..] == Le(x / WORD, w)
  {
    var x1 := x / 256;
    var x2 := x1 / 256;
    var x3 := x2 / 256;
    assert Le(x, w + 4) == [x % 256] + Le(x1, w + 3);
    assert Le(x1, w + 3) == [x1 % 256] + Le(x2, w + 2);
    assert Le(x2, w + 2) == [x2 % 256] + Le(x3, w + 1);
    assert Le(x3, w + 1) == [x3 % 256] + Le(x3 / 256, w);
    assert x3 / 256 == x / WORD;
  }

  // ----- the header -----

  /** Escape, "Lua", version 5.2, official format; little-endian, sizes of an integer, a size, an instruction and a
      number,
      numbers with fractions; and a tail that text conversions would change. */
  const START: Bytes := [0x1B, 0x4C, 0x75, 0x61, 0x52, 0, 1, 4, 8, 4, 8, 0, 0x19, 0x93, 0x0D, 0x0A, 0x1A, 0x0A]

  lemma ChunkStart(f: Proto, strip: bool)
    ensures START <= Dump(f, strip)
  {
    hide PutFunction;
    HeaderBytes();
    hide Header;
  }

  lemma HeaderBytes()
    ensures Header() == START && SIGNATURE == START[..4]
    ensures SIGNATURE + VERSION == START[..6] && SIGNATURE + VERSION + SIZES == START[..12]
  {
  }

  function ErrorAt(d: nat): Error {
    if d < 4 then NotAChunk else if d < 6 then VersionMismatch else if d < 12 then Incompatible else Corrupted
  }

  /** The first wrong byte of the header decides which error is raised, whatever follows. */
  lemma FirstWrongByte(b: Bytes, rest: Bytes, d: nat)
    requires 1 <= d < 18 && |b| == 17 && b[..d - 1] == START[1..d] && b[d - 1] != START[d]
    ensures Undump(b + rest) == Err(ErrorAt(d))
  {
    assert (b + rest)[..17] == b;
    var h: Bytes := [27] + b;
    assert h[d] != START[d];
    assert h[..d] == START[..d] by { assert h[..d] == [27] + b[..d - 1] && START[..d] == [27] + START[1..d]; }
    Prefixes(h, d, 4);
    Prefixes(h, d, 6);
    Prefixes(h, d, 12);
    HeaderBytes();
  }

  lemma Prefixes(h: Bytes, d: nat, n: nat)
    requires d < 18 && n <= 18 && |h| == 18 && h[d] != START[d] && h[..d] == START[..d]
    ensures h[..n] == START[..n] <==> n <= d
  {
    if n > d {
      assert h[..n][d] != START[..n][d];
    } else {
      assert h[..n] == h[..d][..n] && START[..n] == START[..d][..n];
    }
  }

  /** A chunk that ends within the header */
  lemma ShortHeader(b: Bytes)
    requires |b| < 17
    ensures Undump(b) == Err(Truncated)
  {
  }

  // ----- a function -----

  function Int4(x: Byte): Bytes { [x, 0, 0, 0] }
  function Size8(x: Byte): Bytes { [x, 0, 0, 0, 0, 0, 0, 0] }

  lemma Small(x: Byte)
    ensures PutInt(x) == Int4(x) && Le(x, 8) == Size8(x)
  {
    assert Le(x, 1) == [x];
    Zeros(3);
    Zeros(7);
  }

  lemma {:induction false} Zeros(w: nat)
    ensures Le(0, w) == seq(w, i => 0)
  {
    if w > 0 { Zeros(w - 1); }
  }

  /** A constant begins with its type: 0 for nil, 1 for a boolean, 3 for a number, 4 for a string. A string has its
      length with the closing zero in front; no string has length zero. */
  lemma ConstantLayout(c: Byte)
    ensures PutConst(KNil) == [0] && PutConst(KBool(false)) == [1, 0] && PutConst(KBool(true)) == [1, 1]
    ensures PutConst(KNum(0x0102)) == [3] + [2, 1, 0, 0, 0, 0, 0, 0]
    ensures PutConst(KStr([c])) == [4] + (Size8(2) + [c, 0]) && PutString(None) == Size8(0)
    ensures PutString(Some([c])) == Size8(2) + [c, 0] && PutString(Some([])) == Size8(1) + [0]
  {
    hide Le, Size8;
    Small(0);
    Small(1);
    Small(2);
    NumberLayout();
    OneCharacter(c);
    assert PutConst(KStr([c])) == [4] + PutString(Some([c]));
    assert PutConst(KBool(false)) == [1] + [0] && PutConst(KBool(true)) == [1] + [1];
  }

  lemma OneCharacter(c: Byte)
    ensures PutString(Some([c])) == Le(2, 8) + [c, 0] && PutString(Some([])) == Le(1, 8) + [0]
  {
    hide Le;
    var t: Bytes := [c];
    assert t + [0] == [c, 0];
    var n: Bytes := [];
    assert n + [0] == [0];
  }

  lemma NumberLayout()
    ensures Le(0x0102, 8) == [2, 1, 0, 0, 0, 0, 0, 0]
  {
    Zeros(6);
    assert Le(0x0102, 8) == [2] + ([1] + Le(0, 6));
  }

  const SAMPLE: Proto := Proto(
    1, 2, 3, 4, 5, [6], [KNil, KBool(true)], [], [Upval(Some([7]), 8, 9)], Some([10]), [11],
    [LocVar(Some([12]), 13, 14)])

  /** Every field of a function has its place, and the functions inside it stand between constants and upvalues. */
  lemma FunctionLayout(inner: Proto)
    ensures PutFunction(SAMPLE.(p := [inner]), false)
         == (Int4(1) + Int4(2) + [3] + [4] + [5]) + (Int4(1) + Int4(6)) + (Int4(2) + ([0] + [1, 1]))
            + (Int4(1) + PutFunction(inner, false)) + (Int4(1) + ([8] + [9]))
            + ((Size8(2) + [10, 0]) + (Int4(1) + Int4(11)) + (Int4(1) + (Size8(2) + [12, 0] + Int4(13) + Int4(14)))
               + (Int4(1) + (Size8(2) + [7, 0])))
    ensures PutFunction(SAMPLE.(p := [inner]), true)
         == (Int4(1) + Int4(2) + [3] + [4] + [5]) + (Int4(1) + Int4(6)) + (Int4(2) + ([0] + [1, 1]))
            + (Int4(1) + PutFunction(inner, true)) + (Int4(1) + ([8] + [9]))
            + (Size8(0) + Int4(0) + Int4(0) + Int4(0))
  {
    var f := SAMPLE.(p := [inner]);
    hide Le, PutInt, PutString, PutConst, PutAll, PutHead, PutCode, PutUpvalues, PutDebug, PutProtos, Int4, Size8;
    HeadLayout(f);
    ConstantsLayout(f);
    UpvaluesLayout(f);
    DebugLayout(f);
    Small(1);
    OneProto(inner, false);
    OneProto(inner, true);
  }

  lemma HeadLayout(f: Proto)
    requires f == SAMPLE.(p := f.p)
    ensures PutHead(f) == Int4(1) + Int4(2) + [3] + [4] + [5]
    ensures PutCode(f) == Int4(1) + Int4(6)
  {
    hide Le, PutInt, Int4;
    Small(1);
    Small(2);
    Small(6);
    One(f.code, PutWord);
    assert PutWord(6) == PutInt(6) by { SameWord(6); }
  }

  lemma SameWord(x: nat)
    ensures PutWord(x) == PutInt(x)
  {
  }

  lemma ConstantsLayout(f: Proto)
    requires f == SAMPLE.(p := f.p)
    ensures PutInt(|f.k|) + PutAll(f.k, PutConst) == Int4(2) + ([0] + [1, 1])
  {
    hide Le, PutInt, Int4, Size8, PutConst;
    Small(2);
    ConstantLayout(0);
    assert f.k == [KNil] + [KBool(true)];
    assert f.k[1..] == [KBool(true)];
    One(f.k[1..], PutConst);
  }

  lemma UpvaluesLayout(f: Proto)
    requires f == SAMPLE.(p := f.p)
    ensures PutUpvalues(f) == Int4(1) + ([8] + [9])
  {
    hide Le, PutInt, Int4;
    Small(1);
    One(f.upvalues, PutUpval);
  }

  lemma DebugLayout(f: Proto)
    requires f == SAMPLE.(p := f.p)
    ensures PutDebug(f, true) == Size8(0) + Int4(0) + Int4(0) + Int4(0)
    ensures PutDebug(f, false)
         == (Size8(2) + [10, 0]) + (Int4(1) + Int4(11)) + (Int4(1) + (Size8(2) + [12, 0] + Int4(13) + Int4(14)))
            + (Int4(1) + (Size8(2) + [7, 0]))
  {
    hide Le, PutInt, PutString, Int4, Size8;
    Small(0);
    Small(1);
    Small(11);
    Small(13);
    Small(14);
    ConstantLayout(7);
    ConstantLayout(10);
    ConstantLayout(12);
    SameWord(11);
    One(f.lineinfo, PutWord);
    One(f.locvars, PutLocVar);
    One(f.upvalues, PutName);
  }

  lemma One<T>(xs: seq<T>, put: T -> Bytes)
    requires |xs| == 1
    ensures PutAll(xs, put) == put(xs[0])
  {
    assert xs[1..] == [];
  }

  lemma OneProto(f: Proto, strip: bool)
    ensures PutProtos([f], strip) == PutFunction(f, strip)
  {
    var ps := [f];
    hide PutFunction;
    assert ps[1..] == [];
    assert PutProtos(ps[1..], strip) == [];
  }
}

/** What string literals mean: each is spelled in pieces, and its value is that of the pieces in order. */
module Spellings {
  import opened Quoting

  const DIGITS: Text := ['0', '1', '2', '3', '4', '5', '6', '7', '8', '9']
  const LOWER_HEX: Text := DIGITS + ['a', 'b', 'c', 'd', 'e', 'f']
  const UPPER_HEX: Text := DIGITS + ['A', 'B', 'C', 'D', 'E', 'F']

  /** `Letter`: one of `\a` to `\v`. `Mark`: a backslash or a quotation mark. `Hex`: two digits, each lower or upper
      case.
      `Dec`: as many as `width` digits. `Break`: a backslash and a line break. `Zap`: `\z` and white space. */
  datatype Piece =
    | Plain(c: Byte)
    | Letter(l: Byte)
    | Mark(m: Byte)
    | Hex(high: nat, low: nat, upperHigh: bool, upperLow: bool)
    | Dec(n: nat, width: nat)
    | Break(breaks: Text)
    | Zap(spaces: Text)

  predicate PieceOk(p: Piece, del: Byte) {
    match p
    case Plain(c) => c != del && c != '\\' && c != '\n' && c != '\r'
    case Letter(l) => l in "abfnrtv"
    case Mark(m) => m == '\\' || m == '"' || m == '\''
    case Hex(high, low, _, _) => high < 16 && low < 16
    case Dec(n, width) => n < 256 && ((width == 1 && n < 10) || (width == 2 && n < 100) || width == 3)
    case Break(b) => b == ['\n'] || b == ['\r'] || b == ['\n', '\r'] || b == ['\r', '\n']
    case Zap(spaces) => forall i :: 0 <= i < |spaces| ==> IsWhite(spaces[i])
  }

  predicate IsWhite(c: Byte) {
    c == ' ' || c == '\t' || c == '\n' || c == 11 as char || c == 12 as char || c == '\r'
  }

  /** A short number must not be followed by a digit, nor white space by more of it. */
  predicate FitsBefore(p: Piece, next: Byte) {
    && (p.Dec? && p.width < 3 ==> next !in DIGITS)
    && (p.Zap? ==> !IsWhite(next))
  }

  function HexDigit(n: nat, upper: bool): Byte
    requires n < 16
  {
    if upper then UPPER_HEX[n] else LOWER_HEX[n]
  }

  function Spell(p: Piece, del: Byte): (ts: Text)
    requires PieceOk(p, del)
    ensures ts != []
  {
    match p
    case Plain(c) => [c]
    case Letter(l) => ['\\', l]
    case Mark(m) => ['\\', m]
    case Hex(high, low, u, v) => ['\\', 'x', HexDigit(high, u), HexDigit(low, v)]
    case Dec(n, width) =>
      ['\\'] + (if width == 1 then [DIGITS[n]]
                else if width == 2 then [DIGITS[n / 10], DIGITS[n % 10]]
                else [DIGITS[n / 100], DIGITS[n / 10 % 10], DIGITS[n % 10]])
    case Break(b) => ['\\'] + b
    case Zap(spaces) => ['\\', 'z'] + spaces
  }

  function LetterValue(l: Byte): Byte {
    if l == 'a' then 7 as char          // bell
    else if l == 'b' then 8 as char     // backspace
    else if l == 't' then 9 as char     // tab
    else if l == 'n' then 10 as char    // line feed
    else if l == 'v' then 11 as char    // vertical tab
    else if l == 'f' then 12 as char    // form feed
    else 13 as char                     // carriage return
  }

  function Value(p: Piece, del: Byte): Text
    requires PieceOk(p, del)
  {
    match p
    case Plain(c) => [c]
    case Letter(l) => [LetterValue(l)]
    case Mark(m) => [m]
    case Hex(high, low, _, _) => [(16 * high + low) as char]
    case Dec(n, _) => [n as char]
    case Break(_) => ['\n']
    case Zap(_) => []
  }

  predicate IsPair(ts: Text) {
    |ts| > 1 && ((ts[0] == '\n' && ts[1] == '\r') || (ts[0] == '\r' && ts[1] == '\n'))
  }

  /** The lines that end in white space, where a pair of different line breaks is one. */
  function Lines(ts: Text): nat
    decreases |ts|
  {
    if ts == [] then 0
    else if ts[0] != '\n' && ts[0] != '\r' then Lines(ts[1..])
    else if IsPair(ts) then 1 + Lines(ts[2..])
    else 1 + Lines(ts[1..])
  }

  function LinesOf(p: Piece): nat {
    match p case Break(_) => 1 case Zap(spaces) => Lines(spaces) case _ => 0
  }

  // ----- whole literals -----

  ghost predicate WellSpelled(ps: seq<Piece>, del: Byte) {
    forall i :: 0 <= i < |ps| ==> PieceOk(ps[i], del)
  }

  function SpellAll(ps: seq<Piece>, del: Byte): Text
    requires WellSpelled(ps, del)
  {
    if ps == [] then [] else Spell(ps[0], del) + SpellAll(ps[1..], del)
  }

  function ValueAll(ps: seq<Piece>, del: Byte): Text
    requires WellSpelled(ps, del)
  {
    if ps == [] then [] else Value(ps[0], del) + ValueAll(ps[1..], del)
  }

  function LinesAll(ps: seq<Piece>): nat {
    if ps == [] then 0 else LinesOf(ps[0]) + LinesAll(ps[1..])
  }

  /** Each piece fits before what follows it. */
  predicate Fits(ps: seq<Piece>, del: Byte)
    requires WellSpelled(ps, del)
  {
    ps != [] ==> FitsBefore(ps[0], (SpellAll(ps[1..], del) + [del])[0]) && Fits(ps[1..], del)
  }

  // ----- reading -----

  lemma EscapeStep(ts: Text, line: nat, del: Byte, saved: Text)
    requires del != '\\'
    ensures var x := ReadEscape(Input(ts, line));
      ReadBody(Input(['\\'] + ts, line), del, saved)
      == if x.Invalid? then Malformed(x.e)
         else ReadBody(x.rest, del, if x.Stands? then saved + [x.c] else saved)
  {
    hide ReadEscape;
    assert (['\\'] + ts)[1..] == ts;
  }

  lemma PlainStep(c: Byte, ts: Text, line: nat, del: Byte, saved: Text)
    requires PieceOk(Plain(c), del)
    ensures ReadBody(Input([c] + ts, line), del, saved) == ReadBody(Input(ts, line), del, saved + [c])
  {
    hide ReadEscape;
    assert ([c] + ts)[1..] == ts;
  }

  lemma OneLetter(p: Piece, del: Byte, ts: Text, line: nat)
    requires (p.Letter? || p.Mark?) && PieceOk(p, del)
    ensures ReadEscape(Input(Spell(p, del)[1..] + ts, line)) == Stands(Value(p, del)[0], Input(ts, line))
  {
    var l := if p.Letter? then p.l else p.m;
    assert Spell(p, del)[1..] == [l];
    assert ([l] + ts)[1..] == ts;
  }

  lemma HexRead(p: Piece, del: Byte, ts: Text, line: nat)
    requires p.Hex? && PieceOk(p, del)
    ensures ReadEscape(Input(Spell(p, del)[1..] + ts, line)) == Stands((16 * p.high + p.low) as char, Input(ts, line))
  {
    var a, b := HexDigit(p.high, p.upperHigh), HexDigit(p.low, p.upperLow);
    HexDigitValue(p.high, p.upperHigh);
    HexDigitValue(p.low, p.upperLow);
    assert Spell(p, del)[1..] == ['x', a, b];
    assert (['x', a, b] + ts)[3..] == ts;
  }

  lemma HexDigitValue(n: nat, upper: bool)
    requires n < 16
    ensures IsHexDigit(HexDigit(n, upper)) && HexValue(HexDigit(n, upper)) == n
  {
  }

  lemma DecRead(p: Piece, del: Byte, ts: Text, line: nat)
    requires p.Dec? && PieceOk(p, del) && ts != [] && FitsBefore(p, ts[0])
    ensures ReadEscape(Input(Spell(p, del)[1..] + ts, line)) == Stands(p.n as char, Input(ts, line))
  {
    hide Digits;
    var d := Spell(p, del)[1..];
    DecDigits(p, del, ts);
    assert (d + ts)[p.width..] == ts;
    assert IsDigit((d + ts)[0]) by { FirstDigit(p, del); }
  }

  lemma FirstDigit(p: Piece, del: Byte)
    requires p.Dec? && PieceOk(p, del)
    ensures var d := Spell(p, del)[1..]; |d| == p.width && IsDigit(d[0])
  {
  }

  lemma DecDigits(p: Piece, del: Byte, ts: Text)
    requires p.Dec? && PieceOk(p, del) && ts != [] && FitsBefore(p, ts[0])
    ensures Digits(Spell(p, del)[1..] + ts, 3, 0) == (p.n, p.width)
  {
    hide Digits;
    if p.width < 3 { NotDigits(ts[0]); }
    if p.width == 1 {
      OneDigit(p.n, ts);
    } else if p.width == 2 {
      TwoDigits(p.n, ts);
    } else {
      ThreeDigits(p.n, ts);
    }
  }

  lemma OneDigit(n: nat, ts: Text)
    requires n < 10 && ts != [] && !IsDigit(ts[0])
    ensures Digits([DIGITS[n]] + ts, 3, 0) == (n, 1)
  {
    hide Digits;
    DigitStep(n, ts, 3, 0);
  }

  lemma TwoDigits(n: nat, ts: Text)
    requires n < 100 && ts != [] && !IsDigit(ts[0])
    ensures Digits([DIGITS[n / 10], DIGITS[n % 10]] + ts, 3, 0) == (n, 2)
  {
    hide Digits;
    assert [DIGITS[n / 10], DIGITS[n % 10]] + ts == [DIGITS[n / 10]] + ([DIGITS[n % 10]] + ts);
    DigitStep(n / 10, [DIGITS[n % 10]] + ts, 3, 0);
    DigitStep(n % 10, ts, 2, n / 10);
  }

  lemma ThreeDigits(n: nat, ts: Text)
    requires n < 1000
    ensures Digits([DIGITS[n / 100], DIGITS[n / 10 % 10], DIGITS[n % 10]] + ts, 3, 0) == (n, 3)
  {
    hide Digits;
    var last := [DIGITS[n % 10]] + ts;
    assert [DIGITS[n / 100], DIGITS[n / 10 % 10], DIGITS[n % 10]] + ts
        == [DIGITS[n / 100]] + ([DIGITS[n / 10 % 10]] + last);
    DigitStep(n / 100, [DIGITS[n / 10 % 10]] + last, 3, 0);
    DigitStep(n / 10 % 10, last, 2, n / 100);
    DigitStep(n % 10, ts, 1, n / 10);
  }

  lemma DigitStep(d: nat, ts: Text, most: nat, r: nat)
    requires d < 10 && most > 0
    ensures Digits([DIGITS[d]] + ts, most, r) == var (v, n) := Digits(ts, most - 1, 10 * r + d); (v, n + 1)
    ensures ts != [] && !IsDigit(ts[0]) ==> Digits(ts, most - 1, 10 * r + d) == (10 * r + d, 0)
    ensures Digits(ts, 0, 10 * r + d) == (10 * r + d, 0)
  {
    assert ([DIGITS[d]] + ts)[1..] == ts && DIGITS[d] == Digit(d);
  }

  lemma BreakRead(b: Text, ts: Text, line: nat)
    requires PieceOk(Break(b), '"') && ts != [] && !IsNewline(ts[0]) && line + 1 < MAX_INT
    ensures ReadEscape(Input(b + ts, line)) == Stands('\n', Input(ts, line + 1))
  {
    assert (b + ts)[|b|..] == ts;
  }

  lemma ZapRead(spaces: Text, ts: Text, line: nat)
    requires PieceOk(Zap(spaces), '"') && ts != [] && !IsWhite(ts[0]) && line + Lines(spaces) < MAX_INT
    ensures ReadEscape(Input(['z'] + spaces + ts, line)) == StandsForNothing(Input(ts, line + Lines(spaces)))
  {
    hide SkipSpaces, Lines;
    assert (['z'] + spaces + ts)[1..] == spaces + ts;
    SpacesSkipped(spaces, ts, line);
  }

  lemma {:induction false} SpacesSkipped(spaces: Text, ts: Text, line: nat)
    requires PieceOk(Zap(spaces), '"') && ts != [] && !IsWhite(ts[0]) && line + Lines(spaces) < MAX_INT
    ensures SkipSpaces(Input(spaces + ts, line)) == Moves(Input(ts, line + Lines(spaces)))
    decreases |spaces|
  {
    hide SkipSpaces, PieceOk, IsWhite, Lines;
    var all := spaces + ts;
    StillWhite(spaces, ts);
    NoLines();
    if spaces == [] {
      assert all == ts;
      SkipNone(ts, line);
    } else {
      var line' := if IsNewline(spaces[0]) then line + 1 else line;
      var k := if IsNewline(spaces[0]) && IsPair(spaces) then 2 else 1;
      Dropped(spaces, ts, k);
      LinesStep(spaces);
      if IsNewline(spaces[0]) { SkipBreak(all, line); } else { SkipOne(all, line); }
      SpacesSkipped(spaces[k..], ts, line');
    }
  }

  lemma Dropped(spaces: Text, ts: Text, k: nat)
    requires k <= |spaces|
    ensures (spaces + ts)[k..] == spaces[k..] + ts
  {
  }

  lemma NoLines()
    ensures Lines([]) == 0
  {
  }

  lemma LinesStep(spaces: Text)
    requires spaces != []
    ensures Lines(spaces) == if !IsNewline(spaces[0]) then Lines(spaces[1..])
      else if IsPair(spaces) then 1 + Lines(spaces[2..]) else 1 + Lines(spaces[1..])
  {
  }

  lemma StillWhite(spaces: Text, ts: Text)
    requires PieceOk(Zap(spaces), '"') && ts != [] && !IsWhite(ts[0])
    ensures spaces != [] ==> IsWhite(spaces[0]) && PieceOk(Zap(spaces[1..]), '"')
    ensures |spaces| > 1 ==> PieceOk(Zap(spaces[2..]), '"')
    ensures spaces != [] && IsNewline(spaces[0]) ==> (IsPair(spaces + ts) <==> IsPair(spaces))
  {
  }

  lemma SkipNone(ts: Text, line: nat)
    requires ts != [] && !IsWhite(ts[0])
    ensures SkipSpaces(Input(ts, line)) == Moves(Input(ts, line))
  {
  }

  lemma SkipOne(ts: Text, line: nat)
    requires ts != [] && IsWhite(ts[0]) && !IsNewline(ts[0])
    ensures SkipSpaces(Input(ts, line)) == SkipSpaces(Input(ts[1..], line))
  {
  }

  lemma SkipBreak(ts: Text, line: nat)
    requires ts != [] && IsNewline(ts[0]) && line + 1 < MAX_INT
    ensures SkipSpaces(Input(ts, line)) == SkipSpaces(Input(if IsPair(ts) then ts[2..] else ts[1..], line + 1))
  {
  }

  predicate IsDelimiter(del: Byte) { del == '"' || del == '\'' }

  /** A piece is read as its value. */
  lemma PieceRead(p: Piece, del: Byte, ts: Text, line: nat, saved: Text)
    requires IsDelimiter(del) && PieceOk(p, del) && ts != [] && !IsNewline(ts[0]) && FitsBefore(p, ts[0])
    requires line + LinesOf(p) < MAX_INT
    ensures ReadBody(Input(Spell(p, del) + ts, line), del, saved)
         == ReadBody(Input(ts, line + LinesOf(p)), del, saved + Value(p, del))
  {
    hide ReadBody, ReadEscape;
    if p.Plain? {
      PlainStep(p.c, ts, line, del, saved);
    } else {
      PieceEscape(p, del, ts, line);
      hide Value, Spell, PieceOk, FitsBefore, LinesOf;
      var inner := Spell(p, del)[1..] + ts;
      SpellStarts(p, del);
      assert Spell(p, del) + ts == ['\\'] + inner;
      EscapeStep(inner, line, del, saved);
    }
  }

  lemma SpellStarts(p: Piece, del: Byte)
    requires PieceOk(p, del) && !p.Plain?
    ensures Spell(p, del) == ['\\'] + Spell(p, del)[1..]
  {
  }

  /** What the backslash stands for */
  lemma PieceEscape(p: Piece, del: Byte, ts: Text, line: nat)
    requires IsDelimiter(del) && PieceOk(p, del) && ts != [] && !IsNewline(ts[0]) && FitsBefore(p, ts[0])
    requires line + LinesOf(p) < MAX_INT && !p.Plain?
    ensures var x := ReadEscape(Input(Spell(p, del)[1..] + ts, line));
      && !x.Invalid? && x.rest == Input(ts, line + LinesOf(p))
      && forall saved: Text :: saved + Value(p, del) == if x.Stands? then saved + [x.c] else saved
  {
    hide ReadEscape, Lines, Spell;
    match p
    case Letter(_) => OneLetter(p, del, ts, line);
    case Mark(_) => OneLetter(p, del, ts, line);
    case Hex(_, _, _, _) => HexRead(p, del, ts, line);
    case Dec(_, _) => DecRead(p, del, ts, line);
    case Break(b) =>
      SpellTail(p, del);
      BreakRead(b, ts, line);
    case Zap(spaces) =>
      SpellTail(p, del);
      ZapRead(spaces, ts, line);
      assert forall saved: Text :: saved + [] == saved;
    case _ =>
  }

  lemma SpellTail(p: Piece, del: Byte)
    requires PieceOk(p, del) && (p.Break? || p.Zap?)
    ensures Spell(p, del)[1..] == if p.Break? then p.breaks else ['z'] + p.spaces
  {
  }

  lemma {:induction false} PiecesRead(ps: seq<Piece>, del: Byte, rest: Text, line: nat, saved: Text)
    requires IsDelimiter(del) && WellSpelled(ps, del) && Fits(ps, del) && line + LinesAll(ps) < MAX_INT
    ensures ReadBody(Input(SpellAll(ps, del) + [del] + rest, line), del, saved)
         == Literal(saved + ValueAll(ps, del), Input(rest, line + LinesAll(ps)))
    decreases |ps|
  {
    hide ReadBody, ReadEscape, Spell, Value, FitsBefore, PieceOk, LinesOf;
    if ps == [] {
      assert [] + [del] + rest == [del] + rest;
      Closes(del, rest, line, saved);
      assert saved + [] == saved;
    } else {
      var p, qs := ps[0], ps[1..];
      var ts := SpellAll(qs, del) + [del] + rest;
      assert SpellAll(ps, del) + [del] + rest == Spell(p, del) + ts;
      NextStarts(qs, del, rest);
      PieceRead(p, del, ts, line, saved);
      PiecesRead(qs, del, rest, line + LinesOf(p), saved + Value(p, del));
      assert saved + Value(p, del) + ValueAll(qs, del) == saved + ValueAll(ps, del);
    }
  }

  lemma Closes(del: Byte, rest: Text, line: nat, saved: Text)
    ensures ReadBody(Input([del] + rest, line), del, saved) == Literal(saved, Input(rest, line))
  {
    assert ([del] + rest)[1..] == rest;
  }

  lemma NextStarts(qs: seq<Piece>, del: Byte, rest: Text)
    requires IsDelimiter(del) && WellSpelled(qs, del)
    ensures var ts := SpellAll(qs, del) + [del] + rest; ts[0] == (SpellAll(qs, del) + [del])[0] && !IsNewline(ts[0])
  {
    if qs != [] {
      assert PieceOk(qs[0], del);
      assert Spell(qs[0], del)[0] == SpellAll(qs, del)[0];
    }
  }

  /** A literal of any pieces, in quotation marks of either kind, is read as the values of its pieces in order, up to
      its
      closing mark, and the line number goes up by the lines that end in it. */
  lemma LiteralRead(ps: seq<Piece>, del: Byte, rest: Text, line: nat)
    requires IsDelimiter(del) && WellSpelled(ps, del) && Fits(ps, del) && line + LinesAll(ps) < MAX_INT
    ensures ReadString(Input([del] + (SpellAll(ps, del) + [del] + rest), line))
         == Literal(ValueAll(ps, del), Input(rest, line + LinesAll(ps)))
  {
    hide ReadBody;
    var ts := SpellAll(ps, del) + [del] + rest;
    assert ([del] + ts)[1..] == ts;
    PiecesRead(ps, del, rest, line, []);
    assert [] + ValueAll(ps, del) == ValueAll(ps, del);
  }

  // ----- errors -----

  /** What is not a piece is an error, however the literal began. */
  lemma BadPieces(del: Byte, c: Byte, ts: Text, line: nat, saved: Text)
    requires IsDelimiter(del)
    ensures ReadBody(Input([], line), del, saved) == Malformed(UnfinishedAtEnd)
    ensures IsNewline(c) ==> ReadBody(Input([c] + ts, line), del, saved) == Malformed(UnfinishedLine)
    ensures c !in "abfnrtvxz\\\"'\n\r" && c !in DIGITS ==>
      ReadBody(Input(['\\'] + ([c] + ts), line), del, saved) == Malformed(BadEscape)
    ensures ts == [] || c !in LOWER_HEX + UPPER_HEX || ts[0] !in LOWER_HEX + UPPER_HEX ==>
      ReadBody(Input(['\\'] + (['x', c] + ts), line), del, saved) == Malformed(HexExpected)
  {
    hide ReadEscape;
    EscapeStep([c] + ts, line, del, saved);
    EscapeStep(['x', c] + ts, line, del, saved);
    BadEscapes(c, ts, line);
    assert ([c] + ts)[0] == c;
  }

  lemma BadEscapes(c: Byte, ts: Text, line: nat)
    ensures c !in "abfnrtvxz\\\"'\n\r" && c !in DIGITS ==> ReadEscape(Input([c] + ts, line)) == Invalid(BadEscape)
    ensures ts == [] || c !in LOWER_HEX + UPPER_HEX || ts[0] !in LOWER_HEX + UPPER_HEX ==>
      ReadEscape(Input(['x', c] + ts, line)) == Invalid(HexExpected)
  {
    hide Digits, SkipSpaces, IncLine;
    NotDigits(c);
    if ts != [] { NotDigits(ts[0]); }
    var x := ['x', c] + ts;
    assert x[1] == c && (ts != [] ==> x[2] == ts[0]);
  }

  lemma NotDigits(c: Byte)
    ensures IsDigit(c) ==> c in DIGITS
    ensures IsHexDigit(c) ==> c in LOWER_HEX + UPPER_HEX
  {
    if IsDigit(c) { assert c == DIGITS[c as int - 48]; }
    if 'a' <= c <= 'f' { assert c == LOWER_HEX[c as int - 87]; }
    if 'A' <= c <= 'F' { assert c == UPPER_HEX[c as int - 55]; }
  }

  /** A decimal escape beyond one byte */
  lemma TooLarge(n: nat, del: Byte, ts: Text, line: nat, saved: Text)
    requires 255 < n < 1000 && IsDelimiter(del)
    ensures ReadBody(Input(['\\'] + ([DIGITS[n / 100], DIGITS[n / 10 % 10], DIGITS[n % 10]] + ts), line), del, saved)
         == Malformed(DecimalTooLarge)
  {
    hide ReadBody, ReadEscape;
    var inner := [DIGITS[n / 100], DIGITS[n / 10 % 10], DIGITS[n % 10]] + ts;
    EscapeStep(inner, line, del, saved);
    EscapeTooLarge(n, ts, line);
  }

  lemma EscapeTooLarge(n: nat, ts: Text, line: nat)
    requires 255 < n < 1000
    ensures ReadEscape(Input([DIGITS[n / 100], DIGITS[n / 10 % 10], DIGITS[n % 10]] + ts, line)) ==
        Invalid(DecimalTooLarge)
  {
    hide Digits;
    ThreeDigits(n, ts);
    assert DIGITS[n / 100] == Digit(n / 100);
  }
}

/** Quoted strings: the text that the format `%q` makes of a string, and the literals that the lexical
    analyzer reads. */
module Quoting {

  /** A byte, written as the character that has its code. */
  type Byte = c: char | c as int < 256

  type Text = seq<Byte>

  const MAX_INT: nat := 0x7FFF_FFFD

  predicate IsControl(c: Byte) { c as int < 32 || c as int == 127 }
  predicate IsDigit(c: Byte) { '0' <= c <= '9' }
  predicate IsNewline(c: Byte) { c == '\n' || c == '\r' }
  predicate IsSpace(c: Byte) { c == ' ' || 9 <= c as int <= 13 }
  predicate IsHexDigit(c: Byte) { IsDigit(c) || 'a' <= c <= 'f' || 'A' <= c <= 'F' }

  // ----- writing -----

  function Digit(n: nat): Byte
    requires n < 10
  {
    (48 + n) as char
  }

  /** The format `%d` */
  function Decimal(n: nat): Text
    requires n < 256
  {
    if n < 10 then [Digit(n)]
    else if n < 100 then [Digit(n / 10), Digit(n % 10)]
    else Padded(n)
  }

  /** The format `%03d` */
  function Padded(n: nat): Text
    requires n < 256
  {
    [Digit(n / 100), Digit(n / 10 % 10), Digit(n % 10)]
  }

  function QuoteByte(c: Byte, next: Byte): Text {
    if c == '"' || c == '\\' || c == '\n' then ['\\', c]
    else if IsControl(c) then
      ['\\'] + (if IsDigit(next) then Padded(c as int) else Decimal(c as int))
    else [c]
  }

  /** Strings end with a zero byte that does not belong to them. */
  function ByteAt(s: Text, i: nat): Byte {
    if i < |s| then s[i] else '\0'
  }

  function QuoteBody(s: Text): Text {
    if s == [] then [] else QuoteByte(s[0], ByteAt(s, 1)) + QuoteBody(s[1..])
  }

  /** What `addquoted` adds to the buffer */
  function Quoted(s: Text): Text {
    ['"'] + QuoteBody(s) + ['"']
  }

  // ----- reading -----

  datatype Error = UnfinishedAtEnd | UnfinishedLine | BadEscape | HexExpected | DecimalTooLarge | TooManyLines

  /** The input that is left, beginning with the current byte, and the number of its line. */
  datatype Input = Input(bytes: Text, line: nat)

  datatype Moved = MoveFails | Moves(to: Input)

  /** `inclinenumber` */
  function IncLine(inp: Input): (m: Moved)
    requires inp.bytes != [] && IsNewline(inp.bytes[0])
    ensures m.Moves? ==> |m.to.bytes| < |inp.bytes|
  {
    var ts := inp.bytes;
    var rest := if |ts| > 1 && IsNewline(ts[1]) && ts[1] != ts[0] then ts[2..] else ts[1..];
    if inp.line + 1 >= MAX_INT then MoveFails else Moves(Input(rest, inp.line + 1))
  }

  /** The loop behind the escape `\z` */
  function SkipSpaces(inp: Input): (m: Moved)
    ensures m.Moves? ==> |m.to.bytes| <= |inp.bytes|
    decreases |inp.bytes|
  {
    if inp.bytes == [] || !IsSpace(inp.bytes[0]) then Moves(inp)
    else if IsNewline(inp.bytes[0]) then
      match IncLine(inp)
      case MoveFails => MoveFails
      case Moves(to) => SkipSpaces(to)
    else SkipSpaces(Input(inp.bytes[1..], inp.line))
  }

  function HexValue(c: Byte): (n: nat)
    requires IsHexDigit(c)
    ensures n < 16
  {
    if IsDigit(c) then c as int - 48
    else if 'a' <= c then c as int - 97 + 10
    else c as int - 65 + 10
  }

  /** The loop of `readdecesc`: the value of at most so many digits, and their number. */
  function Digits(ts: Text, most: nat, r: nat): (p: (nat, nat))
    ensures p.1 <= most && p.1 <= |ts|
    decreases most
  {
    if most == 0 || ts == [] || !IsDigit(ts[0]) then (r, 0)
    else var (v, n) := Digits(ts[1..], most - 1, 10 * r + ts[0] as int - 48); (v, n + 1)
  }

  datatype Escape = Invalid(e: Error) | Stands(c: Byte, rest: Input) | StandsForNothing(rest: Input)

  /** The escape sequence whose backslash has been read */
  function ReadEscape(inp: Input): (x: Escape)
    ensures !x.Invalid? ==> |x.rest.bytes| <= |inp.bytes|
  {
    var ts := inp.bytes;
    if ts == [] then StandsForNothing(inp)
    else
      var after := Input(ts[1..], inp.line);
      match ts[0]
      case 'a' => Stands(7 as char, after)
      case 'b' => Stands(8 as char, after)
      case 'f' => Stands(12 as char, after)
      case 'n' => Stands('\n', after)
      case 'r' => Stands('\r', after)
      case 't' => Stands('\t', after)
      case 'v' => Stands(11 as char, after)
      case 'x' =>
        if |ts| < 3 || !IsHexDigit(ts[1]) || !IsHexDigit(ts[2]) then Invalid(HexExpected)
        else Stands((16 * HexValue(ts[1]) + HexValue(ts[2])) as char, Input(ts[3..], inp.line))
      case '\n' => (match IncLine(inp) case MoveFails => Invalid(TooManyLines) case Moves(to) => Stands('\n', to))
      case '\r' => (match IncLine(inp) case MoveFails => Invalid(TooManyLines) case Moves(to) => Stands('\n', to))
      case '\\' => Stands('\\', after)
      case '\"' => Stands('\"', after)
      case '\'' => Stands('\'', after)
      case 'z' =>
        (match SkipSpaces(after)
         case MoveFails => Invalid(TooManyLines)
         case Moves(to) => StandsForNothing(to))
      case _ =>
        if !IsDigit(ts[0]) then Invalid(BadEscape)
        else
          var (v, n) := Digits(ts, 3, 0);
          if v > 255 then Invalid(DecimalTooLarge) else Stands(v as char, Input(ts[n..], inp.line))
  }

  datatype Literal = Malformed(e: Error) | Literal(value: Text, rest: Input)

  /** The loop of `read_string`; `saved` holds the bytes that have been read. */
  function ReadBody(inp: Input, del: Byte, saved: Text): Literal
    decreases |inp.bytes|
  {
    var ts := inp.bytes;
    if ts == [] then Malformed(UnfinishedAtEnd)
    else
      var after := Input(ts[1..], inp.line);
      if ts[0] == del then Literal(saved, after)
      else if IsNewline(ts[0]) then Malformed(UnfinishedLine)
      else if ts[0] == '\\' then
        match ReadEscape(after)
        case Invalid(e) => Malformed(e)
        case Stands(c, rest) => ReadBody(rest, del, saved + [c])
        case StandsForNothing(rest) => ReadBody(rest, del, saved)
      else ReadBody(after, del, saved + [ts[0]])
  }

  /** `read_string`, whose current byte is the delimiter */
  function ReadString(inp: Input): Literal
    requires inp.bytes != []
  {
    ReadBody(Input(inp.bytes[1..], inp.line), inp.bytes[0], [])
  }

  // ----- the round trip -----

  function Newlines(s: Text): nat {
    if s == [] then 0 else (if s[0] == '\n' then 1 else 0) + Newlines(s[1..])
  }

  /** What follows a decimal escape when not all three digits are written. */
  predicate NoDigit(ts: Text) {
    ts == [] || !IsDigit(ts[0])
  }

  lemma DigitsDecimal(n: nat, ts: Text)
    requires n < 256 && NoDigit(ts)
    ensures Digits(Decimal(n) + ts, 3, 0) == (n, |Decimal(n)|)
  {
    if n < 10 {
      assert (Decimal(n) + ts)[1..] == ts;
    } else if n < 100 {
      var d := Decimal(n) + ts;
      assert d[1..] == [Digit(n % 10)] + ts && d[1..][1..] == ts;
      assert Digits(ts, 1, n) == (n, 0);
      assert Digits(d[1..], 2, n / 10) == (n, 1);
    } else {
      DigitsPadded(n, ts);
    }
  }

  lemma DigitsPadded(n: nat, ts: Text)
    requires n < 256
    ensures Digits(Padded(n) + ts, 3, 0) == (n, 3)
  {
    var d := Padded(n) + ts;
    assert d[1..] == [Digit(n / 10 % 10), Digit(n % 10)] + ts;
    assert d[1..][1..] == [Digit(n % 10)] + ts;
    assert d[1..][1..][1..] == ts;
    assert Digits(d[1..][1..], 1, n / 10) == (n, 1);
    assert Digits(d[1..], 2, n / 100) == (n, 2);
  }

  /** The quoted form of a byte that is a control character is read as that byte. */
  lemma ControlBack(c: Byte, next: Byte, ts: Text, line: nat)
    requires IsControl(c) && c != '\n' && (IsDigit(next) || NoDigit(ts))
    ensures ReadEscape(Input(QuoteByte(c, next)[1..] + ts, line)) == Stands(c, Input(ts, line))
  {
    hide Digits;
    var d := QuoteByte(c, next)[1..];
    if IsDigit(next) {
      DigitsPadded(c as int, ts);
      assert d == Padded(c as int);
    } else {
      DigitsDecimal(c as int, ts);
      assert d == Decimal(c as int);
    }
    assert IsDigit((d + ts)[0]) && (d + ts)[|d|..] == ts;
  }

  /** How the text behind a byte begins: with no digit unless the next byte is one, and with no line break. */
  lemma BodyStarts(s: Text, rest: Text)
    ensures var ts := QuoteBody(s) + ['"'] + rest;
      (IsDigit(ByteAt(s, 0)) || NoDigit(ts)) && !IsNewline(ts[0])
  {
  }

  /** One byte and its quoted form */
  lemma ByteBack(c: Byte, next: Byte, ts: Text, line: nat, saved: Text)
    requires line < MAX_INT
    requires (IsDigit(next) || NoDigit(ts)) && ts != [] && !IsNewline(ts[0])
    ensures ReadBody(Input(QuoteByte(c, next) + ts, line), '"', saved)
         == if c != '\n' then ReadBody(Input(ts, line), '"', saved + [c])
            else if line + 1 < MAX_INT then ReadBody(Input(ts, line + 1), '"', saved + [c])
            else Malformed(TooManyLines)
  {
    hide ReadBody, ReadEscape;
    var q := QuoteByte(c, next);
    if c == '\n' {
      BreakBack(ts, line);
      EscapeRead(['\n'] + ts, line, saved);
      assert q + ts == ['\\'] + (['\n'] + ts);
    } else if c == '"' || c == '\\' {
      MarkBack(c, ts, line);
      EscapeRead([c] + ts, line, saved);
      assert q + ts == ['\\'] + ([c] + ts);
    } else if IsControl(c) {
      ControlBack(c, next, ts, line);
      EscapeRead(q[1..] + ts, line, saved);
      assert q + ts == ['\\'] + (q[1..] + ts);
    } else {
      PlainRead(c, ts, line, saved);
    }
  }

  lemma EscapeRead(ts: Text, line: nat, saved: Text)
    ensures var x := ReadEscape(Input(ts, line));
      ReadBody(Input(['\\'] + ts, line), '"', saved)
      == if x.Invalid? then Malformed(x.e)
         else ReadBody(x.rest, '"', if x.Stands? then saved + [x.c] else saved)
  {
    hide ReadEscape;
    assert (['\\'] + ts)[1..] == ts;
  }

  lemma PlainRead(c: Byte, ts: Text, line: nat, saved: Text)
    requires c != '"' && c != '\\' && !IsNewline(c)
    ensures ReadBody(Input([c] + ts, line), '"', saved) == ReadBody(Input(ts, line), '"', saved + [c])
  {
    assert ([c] + ts)[1..] == ts;
  }

  lemma MarkBack(c: Byte, ts: Text, line: nat)
    requires c == '"' || c == '\\'
    ensures ReadEscape(Input([c] + ts, line)) == Stands(c, Input(ts, line))
  {
    assert ([c] + ts)[1..] == ts;
  }

  /** A line break behind a backslash stands for one line break, since none follows it. */
  lemma BreakBack(ts: Text, line: nat)
    requires line < MAX_INT && ts != [] && !IsNewline(ts[0])
    ensures ReadEscape(Input(['\n'] + ts, line))
         == if line + 1 < MAX_INT then Stands('\n', Input(ts, line + 1)) else Invalid(TooManyLines)
  {
    assert (['\n'] + ts)[1..] == ts;
  }

  lemma {:induction false} BodyBack(s: Text, rest: Text, line: nat, saved: Text)
    requires line < MAX_INT
    ensures ReadBody(Input(QuoteBody(s) + ['"'] + rest, line), '"', saved)
         == if line + Newlines(s) < MAX_INT then Literal(saved + s, Input(rest, line + Newlines(s)))
            else Malformed(TooManyLines)
    decreases |s|
  {
    hide ReadEscape, QuoteByte;
    if s == [] {
      assert [] + ['"'] + rest == ['"'] + rest && (['"'] + rest)[1..] == rest;
      assert saved + s == saved;
    } else {
      var ts := QuoteBody(s[1..]) + ['"'] + rest;
      assert QuoteBody(s) + ['"'] + rest == QuoteByte(s[0], ByteAt(s, 1)) + ts;
      BodyStarts(s[1..], rest);
      ByteBack(s[0], ByteAt(s, 1), ts, line, saved);
      assert saved + [s[0]] + s[1..] == saved + s;
      var line' := if s[0] == '\n' then line + 1 else line;
      if line' < MAX_INT { BodyBack(s[1..], rest, line', saved + [s[0]]); }
    }
  }

  /** Every string that is quoted is read back as it was, and nothing behind the quoted text is touched. It
      fails only when the line breaks in the string are too many for the line counter. */
  lemma QuoteRead(s: Text, rest: Text, line: nat)
    requires line < MAX_INT
    ensures ReadString(Input(Quoted(s) + rest, line))
         == if line + Newlines(s) < MAX_INT then Literal(s, Input(rest, line + Newlines(s)))
            else Malformed(TooManyLines)
  {
    hide ReadBody, QuoteBody;
    assert (Quoted(s) + rest)[1..] == QuoteBody(s) + ['"'] + rest;
    BodyBack(s, rest, line, []);
    assert [] + s == s;
  }

  /** Different strings have different quoted forms, and none is the beginning of another. */
  lemma QuotedApart(s: Text, t: Text, rest: Text, rest': Text)
    requires Quoted(s) + rest == Quoted(t) + rest'
    requires Newlines(s) < MAX_INT && Newlines(t) < MAX_INT
    ensures s == t && rest == rest'
  {
    hide Quoted, ReadString;
    QuoteRead(s, rest, 0);
    QuoteRead(t, rest', 0);
  }

  /** The text holds no control character but the line breaks of the string, each behind a backslash. */
  lemma {:induction false} OnlyPlainText(s: Text, i: nat)
    requires i < |QuoteBody(s)| && IsControl(QuoteBody(s)[i])
    ensures QuoteBody(s)[i] == '\n' && i > 0 && QuoteBody(s)[i - 1] == '\\'
  {
    var q := QuoteByte(s[0], ByteAt(s, 1));
    if i >= |q| { OnlyPlainText(s[1..], i - |q|); }
  }
}

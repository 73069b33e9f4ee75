/** The buffer that quoted text is written to and the lexical state that it is read from, both changed in
    place. */
module StringReader {
  import opened Quoting

  class Buffer {
    var contents: Text

    constructor ()
      ensures contents == []
    {
      contents := [];
    }

    method AddChar(c: Byte)
      modifies this
      ensures contents == old(contents) + [c]
    {
      contents := contents + [c];
    }

    method AddString(s: Text)
      modifies this
      ensures contents == old(contents) + s
    {
      contents := contents + s;
    }

    /** The body of the loop in `addquoted` */
    method AddQuotedByte(c: Byte, next: Byte)
      modifies this
      ensures contents == old(contents) + QuoteByte(c, next)
    {
      if c == '"' || c == '\\' || c == '\n' {
        AddChar('\\');
        AddChar(c);
      } else if c == '\0' || IsControl(c) {
        if !IsDigit(next) {
          AddString(['\\'] + Decimal(c as int));
        } else {
          AddString(['\\'] + Padded(c as int));
        }
      } else {
        AddChar(c);
      }
    }

    /** `addquoted` */
    method AddQuoted(s: Text)
      modifies this
      ensures contents == old(contents) + Quoted(s)
    {
      hide QuoteByte, Padded, Decimal, IsControl, IsDigit;
      AddChar('"');
      var i := 0;
      while i < |s|
        invariant 0 <= i <= |s|
        invariant contents + QuoteBody(s[i..]) == old(contents) + ['"'] + QuoteBody(s)
      {
        var c, next := s[i], ByteAt(s, i + 1);
        assert s[i..][0] == c && s[i..][1..] == s[i + 1..] && ByteAt(s[i..], 1) == next;
        ghost var was := contents;
        AddQuotedByte(c, next);
        assert was + (QuoteByte(c, next) + QuoteBody(s[i + 1..])) == contents + QuoteBody(s[i + 1..]);
        i := i + 1;
      }
      assert s[|s|..] == [] && contents + [] == contents;
      AddChar('"');
    }
  }

  lemma DecimalEscape(inp: Input)
    requires inp.bytes != [] && IsDigit(inp.bytes[0])
    ensures var (v, n) := Digits(inp.bytes, 3, 0);
      ReadEscape(inp) == if v > 255 then Invalid(DecimalTooLarge)
          else Stands(v as char, Input(inp.bytes[n..], inp.line))
  {
  }

  class LexState {
    /** The input from the current byte on */
    var input: Text
    var linenumber: nat
    var buff: Text

    constructor (inp: Input)
      ensures Here() == inp && buff == []
    {
      input, linenumber, buff := inp.bytes, inp.line, [];
    }

    function Here(): Input
      reads this
    {
      Input(input, linenumber)
    }

    method Next()
      requires input != []
      modifies this
      ensures Here() == Input(old(input)[1..], old(linenumber)) && buff == old(buff)
    {
      input := input[1..];
    }

    method Save(c: Byte)
      modifies this
      ensures Here() == old(Here()) && buff == old(buff) + [c]
    {
      buff := buff + [c];
    }

    method SaveAndNext()
      requires input != []
      modifies this
      ensures Here() == Input(old(input)[1..], old(linenumber)) && buff == old(buff) + [old(input)[0]]
    {
      Save(input[0]);
      Next();
    }

    predicate CurrIsNewline()
      reads this
    {
      input != [] && IsNewline(input[0])
    }

    method IncLineNumber() returns (ok: bool)
      requires CurrIsNewline()
      modifies this
      ensures buff == old(buff)
      ensures IncLine(old(Here())) == if ok then Moves(Here()) else MoveFails
    {
      var was := input[0];
      Next();
      if CurrIsNewline() && input[0] != was { Next(); }
      linenumber := linenumber + 1;
      ok := linenumber < MAX_INT;
    }

    method ReadHexEsc() returns (r: Escape)
      requires input != [] && input[0] == 'x'
      modifies this
      ensures buff == old(buff)
      ensures r == ReadEscape(old(Here()))
      ensures r.Stands? ==> input != [] && r.rest == Input(input[1..], linenumber)
    {
      var v, i := 0, 1;
      while i < 3
        invariant 1 <= i <= 3
        invariant |old(input)| >= i && input == old(input)[i - 1..]
        invariant linenumber == old(linenumber) && buff == old(buff)
        invariant forall k :: 1 <= k < i ==> IsHexDigit(old(input)[k])
        invariant v == if i == 1 then 0 else if i == 2 then HexValue(old(input)[1])
                       else 16 * HexValue(old(input)[1]) + HexValue(old(input)[2])
      {
        Next();
        if input == [] || !IsHexDigit(input[0]) {
          return Invalid(HexExpected);
        }
        v := 16 * v + HexValue(input[0]);
        i := i + 1;
      }
      r := Stands(v as char, Input(input[1..], linenumber));
    }

    method ReadDecEsc() returns (r: Escape)
      requires input != [] && IsDigit(input[0])
      modifies this
      ensures buff == old(buff)
      ensures r == ReadEscape(old(Here()))
      ensures r.Stands? ==> r.rest == Here()
    {
      hide ReadEscape;
      DecimalEscape(Here());
      var v: nat, i: nat := 0, 0;
      while i < 3 && input != [] && IsDigit(input[0])
        invariant 0 <= i <= 3 && i <= |old(input)|
        invariant input == old(input)[i..] && linenumber == old(linenumber) && buff == old(buff)
        invariant Digits(old(input), 3, 0) == (Digits(input, 3 - i, v).0, i + Digits(input, 3 - i, v).1)
      {
        v := 10 * v + input[0] as int - 48;
        Next();
        i := i + 1;
      }
      if v > 255 { return Invalid(DecimalTooLarge); }
      r := Stands(v as char, Here());
    }

    /** The escape `\z` */
    method ZapSpaces() returns (ok: bool)
      modifies this
      ensures buff == old(buff)
      ensures SkipSpaces(old(Here())) == if ok then Moves(Here()) else MoveFails
    {
      while input != [] && IsSpace(input[0])
        invariant buff == old(buff)
        invariant SkipSpaces(old(Here())) == SkipSpaces(Here())
        decreases |input|
      {
        if CurrIsNewline() {
          var more := IncLineNumber();
          if !more { return false; }
        } else {
          Next();
        }
      }
      ok := true;
    }

    /** The cases of an escape sequence in `read_string`, without the backslash; nothing is saved yet. */
    method Escaped() returns (r: Escape)
      modifies this
      ensures buff == old(buff)
      ensures r == ReadEscape(old(Here()))
      ensures !r.Invalid? ==> r.rest == Here()
    {
      if input == [] { return StandsForNothing(Here()); }
      var c: Byte;
      match input[0] {
      case 'a' => c := 7 as char; Next();
      case 'b' => c := 8 as char; Next();
      case 'f' => c := 12 as char; Next();
      case 'n' => c := '\n'; Next();
      case 'r' => c := '\r'; Next();
      case 't' => c := '\t'; Next();
      case 'v' => c := 11 as char; Next();
      case 'x' =>
        r := ReadHexEsc();
        if r.Invalid? { return; }
        c := r.c;
        Next();
      case '\n' =>
        var ok := IncLineNumber();
        if !ok { return Invalid(TooManyLines); }
        c := '\n';
      case '\r' =>
        var ok := IncLineNumber();
        if !ok { return Invalid(TooManyLines); }
        c := '\n';
      case '\\' => c := '\\'; Next();
      case '\"' => c := '\"'; Next();
      case '\'' => c := '\''; Next();
      case 'z' =>
        Next();
        var ok := ZapSpaces();
        return if ok then StandsForNothing(Here()) else Invalid(TooManyLines);
      case _ =>
        if !IsDigit(input[0]) { return Invalid(BadEscape); }
        r := ReadDecEsc();
        return;
      }
      r := Stands(c, Here());
    }

    /** `read_string`: the delimiters are in the buffer but not in the value. */
    method ReadString() returns (r: Literal)
      requires input != [] && buff == []
      modifies this
      ensures r == Quoting.ReadString(old(Here()))
      ensures r.Literal? ==> r.rest == Here() && buff == [old(input)[0]] + r.value + [old(input)[0]]
    {
      var del := input[0];
      SaveAndNext();
      assert buff[1..] == [];
      while input == [] || input[0] != del
        invariant buff != [] && buff[0] == del
        invariant ReadBody(Here(), del, buff[1..]) == Quoting.ReadString(old(Here()))
        decreases |input|
      {
        if input == [] {
          return Malformed(UnfinishedAtEnd);
        } else if CurrIsNewline() {
          return Malformed(UnfinishedLine);
        } else if input[0] == '\\' {
          Next();
          ghost var saved := buff[1..];
          var x := Escaped();
          if x.Invalid? { return Malformed(x.e); }
          if x.Stands? {
            Save(x.c);
            assert buff[1..] == saved + [x.c];
          }
        } else {
          ghost var saved, c := buff[1..], input[0];
          SaveAndNext();
          assert buff[1..] == saved + [c];
        }
      }
      ghost var saved := buff[1..];
      SaveAndNext();
      assert buff[1..|buff| - 1] == saved && buff == [del] + saved + [del];
      r := Literal(buff[1..|buff| - 1], Here());
    }
  }

  /** What is written to a buffer can be read back, if the line counter allows. */
  method QuoteAndRead(s: Text) returns (r: Literal)
    requires Newlines(s) + 1 < MAX_INT
    ensures r == Literal(s, Input([], 1 + Newlines(s)))
  {
    var b := new Buffer();
    b.AddQuoted(s);
    var ls := new LexState(Input(b.contents, 1));
    assert b.contents == Quoted(s) + [];
    QuoteRead(s, [], 1);
    r := ls.ReadString();
  }
}

/** What patterns say: their parts, the text of each, and the characters that each stands for, apart from any reader. */
module PatternTexts {
  import opened Basics
  import opened Patterns

  /** The classes of characters, each named by a small letter */
  datatype Kind =
    | Letters | Controls | Digits | Graphic | Small | Punctuation | Spaces | Capitals | Alphanumeric | Hex | Zero

  /** What a set lists. A character may stand for itself or behind `%`. */
  datatype Elem = Char(c: char, escaped: bool) | Range(lo: char, hi: char) | Class(kind: Kind, complement: bool)

  datatype CharSet = CharSet(complement: bool, elems: seq<Elem>)

  datatype One =
    | Any
    | Literal(c: char, escaped: bool)
    | OneOf(kind: Kind, complement: bool)
    | Listed(cs: CharSet)

  datatype Times = Once | AtMostOnce | AnyTimes | AtLeastOnce | AsFewTimes

  datatype Part =
    | Chars(one: One, times: Times)
    | OpenCapture
    | CloseCapture
    | Position
    | Balanced(b: char, e: char)
    | Border(cs: CharSet)
    | Again(digit: char)
    | EndOfText
    | Broken(text: Text)

  // ----- the characters of each class -----

  const SMALL_LETTERS: Text := "abcdefghijklmnopqrstuvwxyz"
  const CAPITAL_LETTERS: Text := "ABCDEFGHIJKLMNOPQRSTUVWXYZ"
  const DIGITS: Text := "0123456789"
  const PUNCTUATION: Text := "!\"#$%&'()*+,-./" + ":;<=>?@" + "[\\]^_`" + "{|}~"
  const WHITE_SPACE: Text := [9 as char, 10 as char, 11 as char, 12 as char, 13 as char, ' ']

  predicate IsOf(c: char, k: Kind) {
    match k
    case Small => c in SMALL_LETTERS
    case Capitals => c in CAPITAL_LETTERS
    case Letters => c in SMALL_LETTERS + CAPITAL_LETTERS
    case Digits => c in DIGITS
    case Alphanumeric => c in SMALL_LETTERS + CAPITAL_LETTERS + DIGITS
    case Punctuation => c in PUNCTUATION
    case Graphic => c in SMALL_LETTERS + CAPITAL_LETTERS + DIGITS + PUNCTUATION
    case Spaces => c in WHITE_SPACE
    case Controls => c < ' ' || c == 127 as char
    case Hex => c in DIGITS + "ABCDEFabcdef"
    case Zero => c == '\0'
  }

  predicate InClass(c: char, k: Kind, complement: bool) { IsOf(c, k) != complement }

  predicate Matches(c: char, e: Elem) {
    match e
    case Char(d, _) => c == d
    case Range(lo, hi) => lo <= c <= hi
    case Class(k, complement) => InClass(c, k, complement)
  }

  predicate InListed(c: char, cs: CharSet) {
    (exists i :: 0 <= i < |cs.elems| && Matches(c, cs.elems[i])) != cs.complement
  }

  predicate Fits(c: char, one: One) {
    match one
    case Any => true
    case Literal(d, _) => c == d
    case OneOf(k, complement) => InClass(c, k, complement)
    case Listed(cs) => InListed(c, cs)
  }

  // ----- the text of each -----

  function Letter(k: Kind): char {
    match k
    case Letters => 'a' case Controls => 'c' case Digits => 'd' case Graphic => 'g' case Small => 'l'
    case Punctuation => 'p' case Spaces => 's' case Capitals => 'u' case Alphanumeric => 'w' case Hex => 'x'
    case Zero => 'z'
  }

  function CapitalLetter(k: Kind): char {
    match k
    case Letters => 'A' case Controls => 'C' case Digits => 'D' case Graphic => 'G' case Small => 'L'
    case Punctuation => 'P' case Spaces => 'S' case Capitals => 'U' case Alphanumeric => 'W' case Hex => 'X'
    case Zero => 'Z'
  }

  function ClassText(k: Kind, complement: bool): Text {
    ['%', if complement then CapitalLetter(k) else Letter(k)]
  }

  function ElemText(e: Elem): Text {
    match e
    case Char(c, escaped) => if escaped then ['%', c] else [c]
    case Range(lo, hi) => [lo, '-', hi]
    case Class(k, complement) => ClassText(k, complement)
  }

  function ElemsText(es: seq<Elem>): Text {
    if es == [] then [] else ElemText(es[0]) + ElemsText(es[1..])
  }

  function SetText(cs: CharSet): Text {
    (if cs.complement then "[^" else "[") + (ElemsText(cs.elems) + "]")
  }

  function OneText(one: One): Text {
    match one
    case Any => "."
    case Literal(c, escaped) => if escaped then ['%', c] else [c]
    case OneOf(k, complement) => ClassText(k, complement)
    case Listed(cs) => SetText(cs)
  }

  function TimesText(t: Times): Text {
    match t
    case Once => ""
    case AtMostOnce => "?"
    case AnyTimes => "*"
    case AtLeastOnce => "+"
    case AsFewTimes => "-"
  }

  function PartText(part: Part): Text {
    match part
    case Chars(one, times) => OneText(one) + TimesText(times)
    case OpenCapture => "("
    case CloseCapture => ")"
    case Position => "()"
    case Balanced(b, e) => ['%', 'b', b, e]
    case Border(cs) => "%f" + SetText(cs)
    case Again(digit) => ['%', digit]
    case EndOfText => "$"
    case Broken(text) => text
  }

  function PartsText(parts: seq<Part>): Text {
    if parts == [] then [] else PartText(parts[0]) + PartsText(parts[1..])
  }

  // ----- which texts these are -----

  predicate IsAlphanumeric(c: char) { IsOf(c, Alphanumeric) }

  predicate ElemOk(e: Elem) {
    match e
    case Char(c, escaped) => if escaped then !IsAlphanumeric(c) else c !in "%]^-"
    case Range(lo, hi) => lo !in "%]^-" && hi !in "%]"
    case Class(_, _) => true
  }

  predicate SetOk(cs: CharSet) {
    cs.elems != [] && forall i :: 0 <= i < |cs.elems| ==> ElemOk(cs.elems[i])
  }

  predicate OneOk(one: One) {
    match one
    case Any => true
    case Literal(c, escaped) => if escaped then !IsAlphanumeric(c) else c !in "^$()%.[]*+-?"
    case OneOf(_, _) => true
    case Listed(cs) => SetOk(cs)
  }

  /** A lone `%`, `%b` without its two characters, `%f` without a set, a set that is not closed */
  predicate IsBroken(t: Text) {
    || t == "%"
    || (|t| < 4 && "%b" <= t)
    || ("%f" <= t && (|t| == 2 || t[2] != '[' || ']' !in t))
    || ("[" <= t && ']' !in t)
  }

  predicate PartOk(part: Part) {
    match part
    case Chars(one, _) => OneOk(one)
    case Border(cs) => SetOk(cs)
    case Again(digit) => digit in DIGITS
    case Broken(text) => IsBroken(text)
    case _ => true
  }

  /** An empty capture is written as a position, `$` has its meaning at the end only, and what is broken is the rest of
      the text. */
  predicate PartsOk(parts: seq<Part>) {
    && (forall i :: 0 <= i < |parts| ==> PartOk(parts[i]))
    && (forall i :: 0 <= i < |parts| - 1 ==> parts[i] != EndOfText && !parts[i].Broken?)
    && forall i :: 0 <= i < |parts| - 1 ==> parts[i] == OpenCapture ==> parts[i + 1] != CloseCapture
  }
}

/**
 * The rewriting of SQL placeholders (`?` and `@name`) into numbered ones (`$k`): what is
 * written, and how it reads back.
 */
module Placeholders {
  import opened Base

  // ------------------------------------------------------------------
  // Numbered text: written and read
  // ------------------------------------------------------------------

  /** Text with numbered holes. */
  datatype Piece = Ch(c: char) | Hole(k: nat)

  predicate IsDigit(c: char) {
    '0' <= c <= '9'
  }

  function DigitChar(d: nat): (c: char)
    requires d < 10
    ensures IsDigit(c)
  {
    ('0' as int + d) as char
  }

  function Decimal(n: nat): (s: string)
    ensures |s| > 0 && forall i | 0 <= i < |s| :: IsDigit(s[i])
  {
    if n < 10 then [DigitChar(n)] else Decimal(n / 10) + [DigitChar(n % 10)]
  }

  function DigitValue(c: char): nat
    requires IsDigit(c)
  {
    c as int - '0' as int
  }

  function ParseDecimal(s: string): nat
    requires forall i | 0 <= i < |s| :: IsDigit(s[i])
  {
    if s == "" then 0 else 10 * ParseDecimal(s[..|s| - 1]) + DigitValue(s[|s| - 1])
  }

  function Placeholder(k: nat): string {
    "$" + Decimal(k)
  }

  /** How a piece is written in the translated statement. */
  function WrittenPiece(p: Piece): string {
    match p
    case Ch(c) => [c]
    case Hole(k) => Placeholder(k)
  }

  function Written(pieces: seq<Piece>): string {
    if pieces == [] then "" else WrittenPiece(pieces[0]) + Written(pieces[1..])
  }

  function DigitRun(s: string): (n: nat)
    ensures n <= |s| && forall i | 0 <= i < n :: IsDigit(s[i])
    ensures n < |s| ==> !IsDigit(s[n])
  {
    if s == "" || !IsDigit(s[0]) then 0 else 1 + DigitRun(s[1..])
  }

  /** What a statement starts with: `$` and the digits after it are a hole, anything else is itself. */
  function FirstPiece(s: string): Piece
    requires s != ""
  {
    var n := DigitRun(s[1..]);
    if s[0] == '$' && n > 0 then Hole(ParseDecimal(s[1..1 + n])) else Ch(s[0])
  }

  /** The length of the first piece in the text. */
  function Taken(s: string): (k: nat)
    requires s != ""
    ensures 1 <= k <= |s|
  {
    if s[0] == '$' then 1 + DigitRun(s[1..]) else 1
  }

  function ReadBack(s: string): seq<Piece>
    decreases |s|
  {
    if s == "" then [] else [FirstPiece(s)] + ReadBack(s[Taken(s)..])
  }

  /** A `$` or a hole with a literal digit right behind it. */
  ghost predicate Clash(pieces: seq<Piece>, i: int) {
    && 0 <= i < |pieces| - 1
    && (pieces[i] == Ch('$') || pieces[i].Hole?)
    && pieces[i + 1].Ch? && IsDigit(pieces[i + 1].c)
  }

  lemma {:induction false} DecimalParses(n: nat)
    ensures ParseDecimal(Decimal(n)) == n
  {
    var s := Decimal(n);
    if n < 10 {
      assert s[..|s| - 1] == "";
    } else {
      DecimalParses(n / 10);
      assert s[..|s| - 1] == Decimal(n / 10);
    }
  }

  lemma {:induction false} DigitRunOfConcat(a: string, b: string)
    requires forall i | 0 <= i < |a| :: IsDigit(a[i])
    ensures DigitRun(a + b) == |a| + DigitRun(b)
  {
    if a == "" {
      assert a + b == b;
    } else {
      assert (a + b)[1..] == a[1..] + b;
      DigitRunOfConcat(a[1..], b);
    }
  }

  /** More digits make a different number. */
  lemma {:induction false} ParseGrows(a: string, b: string)
    requires (forall i | 0 <= i < |a| :: IsDigit(a[i])) && (forall i | 0 <= i < |b| :: IsDigit(b[i]))
    requires b != "" && ParseDecimal(a) > 0
    ensures ParseDecimal(a + b) > ParseDecimal(a)
  {
    var s := a + b;
    var b' := b[..|b| - 1];
    assert s[..|s| - 1] == a + b';
    if b' == "" {
      assert a + b' == a;
    } else {
      ParseGrows(a, b');
    }
  }

  lemma WrittenStartsWith(pieces: seq<Piece>)
    ensures DigitRun(Written(pieces)) > 0 <==> pieces != [] && pieces[0].Ch? && IsDigit(pieces[0].c)
  {
    if pieces != [] {
      var s := Written(pieces);
      assert s[0] == if pieces[0].Ch? then pieces[0].c else '$';
    }
  }

  lemma DollarSlices(digits: string, rest: string, n: nat)
    requires n <= |rest|
    ensures var s := "$" + (digits + rest);
      && s[1..] == digits + rest
      && s[1..1 + (|digits| + n)] == digits + rest[..n]
      && s[1 + (|digits| + n)..] == rest[n..]
  {
  }

  lemma DigitsTogether(digits: string, rest: string)
    requires forall i | 0 <= i < |digits| :: IsDigit(digits[i])
    ensures forall i | 0 <= i < |digits + rest[..DigitRun(rest)]| :: IsDigit((digits + rest[..DigitRun(rest)])[i])
  {
  }

  /** A `$` with digits behind it opens a hole named by all of them. */
  lemma DollarPiece(s: string, digits: string, rest: string)
    requires digits != "" && forall i | 0 <= i < |digits| :: IsDigit(digits[i])
    requires s == "$" + (digits + rest)
    ensures FirstPiece(s) == (DigitsTogether(digits, rest); Hole(ParseDecimal(digits + rest[..DigitRun(rest)])))
    ensures Taken(s) == 1 + (|digits| + DigitRun(rest)) && s[Taken(s)..] == rest[DigitRun(rest)..]
  {
    var n := DigitRun(rest);
    DollarSlices(digits, rest, n);
    assert DigitRun(s[1..]) == |digits| + n by { DigitRunOfConcat(digits, rest); }
    DigitsTogether(digits, rest);
  }

  lemma ReadHole(k: nat, rest: string)
    requires k > 0
    ensures DigitRun(rest) == 0 ==> ReadBack(Placeholder(k) + rest) == [Hole(k)] + ReadBack(rest)
    ensures DigitRun(rest) > 0 ==> ReadBack(Placeholder(k) + rest) != []
                                   && ReadBack(Placeholder(k) + rest)[0] != Hole(k)
  {
    var digits, n := Decimal(k), DigitRun(rest);
    assert Placeholder(k) + rest == "$" + (digits + rest);
    DollarPiece(Placeholder(k) + rest, digits, rest);
    DecimalParses(k);
    if n == 0 {
      assert digits + rest[..n] == digits && rest[n..] == rest;
    } else {
      ParseGrows(digits, rest[..n]);
    }
  }

  /**
   * A written statement reads back as the pieces it was written from if and only if no
   * `$` and no hole is directly followed by a literal digit.
   */
  lemma {:induction false} ReadsBackIff(pieces: seq<Piece>)
    requires forall i | 0 <= i < |pieces| :: pieces[i].Hole? ==> pieces[i].k > 0
    ensures ReadBack(Written(pieces)) == pieces <==> forall i :: !Clash(pieces, i)
  {
    if pieces == [] {
    } else {
      var p, rest := pieces[0], pieces[1..];
      var s := Written(pieces);
      ReadsBackIff(rest);
      WrittenStartsWith(rest);
      ClashShift(pieces);
      assert pieces == [p] + rest;
      if p.Hole? {
        ReadHole(p.k, Written(rest));
      } else {
        assert s[0] == p.c && s[1..] == Written(rest);
      }
    }
  }

  lemma ClashShift(pieces: seq<Piece>)
    requires pieces != []
    ensures (forall i :: !Clash(pieces, i)) <==> !Clash(pieces, 0) && forall i :: !Clash(pieces[1..], i)
  {
    var rest := pieces[1..];
    forall i ensures Clash(rest, i) <==> i >= 0 && Clash(pieces, i + 1) {
      if 0 <= i < |rest| - 1 {
        assert rest[i] == pieces[i + 1] && rest[i + 1] == pieces[i + 2];
      }
    }
    if !Clash(pieces, 0) && forall i :: !Clash(rest, i) {
      forall i ensures !Clash(pieces, i) {
        if i > 0 { assert !Clash(rest, i - 1); }
      }
    }
  }

  // ------------------------------------------------------------------
  // The source statement
  // ------------------------------------------------------------------

  datatype Token = Lit(c: char) | Name(name: string) | Question

  /** A quote character that no backslash precedes. */
  predicate QuoteMark(prev: Option<char>, c: char) {
    (c == '\'' || c == '"') && prev != Some('\\')
  }

  /** The open quote, if any, after a quote mark. */
  function QuoteAfter(quote: Option<char>, c: char): Option<char> {
    if quote.None? then Some(c) else if quote == Some(c) then None else quote
  }

  predicate NameChar(c: char) {
    'a' <= c <= 'z' || 'A' <= c <= 'Z' || '0' <= c <= '9' || c == '_'
  }

  function NameRun(s: string): (n: nat)
    ensures n <= |s| && forall i | 0 <= i < n :: NameChar(s[i])
    ensures n < |s| ==> !NameChar(s[n])
  {
    if s == "" || !NameChar(s[0]) then 0 else 1 + NameRun(s[1..])
  }

  /** The first token: an `@name` outside quotes, or one character. */
  function FirstToken(quote: Option<char>, s: string): Token
    requires s != ""
  {
    if s[0] == '@' && quote.None? && NameRun(s[1..]) > 0 then Name(s[1..1 + NameRun(s[1..])]) else Lit(s[0])
  }

  function Spelling(t: Token): (n: nat)
    ensures n >= 1
  {
    if t.Name? then 1 + |t.name| else 1
  }

  /** The statement with its `@name`s outside quotes, from a point where `prev` stands before and `quote` is open. */
  function NamedTokens(prev: Option<char>, quote: Option<char>, s: string): seq<Token>
    decreases |s|
  {
    if s == "" then []
    else
      var t := FirstToken(quote, s);
      var n := Spelling(t);
      [t] + NamedTokens(Some(s[n - 1]), if QuoteMark(prev, s[0]) then QuoteAfter(quote, s[0]) else quote, s[n..])
  }

  /** The same with `?`. */
  function PositionalTokens(prev: Option<char>, quote: Option<char>, s: string): seq<Token>
    decreases |s|
  {
    if s == "" then []
    else if QuoteMark(prev, s[0]) then [Lit(s[0])] + PositionalTokens(Some(s[0]), QuoteAfter(quote, s[0]), s[1..])
    else if s[0] == '?' && quote.None? then [Question] + PositionalTokens(Some('?'), quote, s[1..])
    else [Lit(s[0])] + PositionalTokens(Some(s[0]), quote, s[1..])
  }

  /** How a token is spelled in the source. */
  function Spelled(t: Token): string {
    match t
    case Lit(c) => [c]
    case Name(name) => "@" + name
    case Question => "?"
  }

  function SpelledAll(tokens: seq<Token>): string {
    if tokens == [] then "" else Spelled(tokens[0]) + SpelledAll(tokens[1..])
  }

  lemma SpelledCons(t: Token, tokens: seq<Token>)
    ensures SpelledAll([t] + tokens) == Spelled(t) + SpelledAll(tokens)
  {
    assert ([t] + tokens)[1..] == tokens;
  }

  lemma FirstSpelled(quote: Option<char>, s: string)
    requires s != ""
    ensures var t := FirstToken(quote, s);
      Spelling(t) <= |s| && Spelled(t) + s[Spelling(t)..] == s
  {
    var t := FirstToken(quote, s);
    assert Spelled(t) == s[..Spelling(t)];
  }

  /** Tokenizing loses nothing: quoted text and everything else is there character by character. */
  lemma {:induction false} NamedTokensSpell(prev: Option<char>, quote: Option<char>, s: string)
    ensures SpelledAll(NamedTokens(prev, quote, s)) == s
    decreases |s|
  {
    if s != "" {
      var t := FirstToken(quote, s);
      var n := Spelling(t);
      var q := if QuoteMark(prev, s[0]) then QuoteAfter(quote, s[0]) else quote;
      FirstSpelled(quote, s);
      NamedTokensSpell(Some(s[n - 1]), q, s[n..]);
      SpelledCons(t, NamedTokens(Some(s[n - 1]), q, s[n..]));
    }
  }

  lemma {:induction false} PositionalTokensSpell(prev: Option<char>, quote: Option<char>, s: string)
    ensures SpelledAll(PositionalTokens(prev, quote, s)) == s
    decreases |s|
  {
    if s != "" {
      if QuoteMark(prev, s[0]) {
        PositionalTokensSpell(Some(s[0]), QuoteAfter(quote, s[0]), s[1..]);
      } else {
        PositionalTokensSpell(Some(s[0]), quote, s[1..]);
      }
    }
  }

  // ------------------------------------------------------------------
  // Numbering
  // ------------------------------------------------------------------

  datatype Value = Null | V(text: string)

  /** Text with values in it: what a statement and its parameters amount to. */
  datatype Part = Text(c: char) | Val(v: Value)

  function IndexIn(names: seq<string>, name: string): (i: nat)
    requires name in names
    ensures i < |names| && names[i] == name
  {
    if names[0] == name then 0 else 1 + IndexIn(names[1..], name)
  }

  /** A name keeps the position of its first occurrence. */
  function Noted(names: seq<string>, name: string): seq<string> {
    if name in names then names else names + [name]
  }

  function Known(names: seq<string>, t: Token): seq<string> {
    if t.Name? then Noted(names, t.name) else names
  }

  function PieceOf(t: Token, names: seq<string>): Piece {
    match t
    case Lit(c) => Ch(c)
    case Question => Ch('?')
    case Name(name) => Hole(IndexIn(Noted(names, name), name) + 1)
  }

  function NamedPieces(tokens: seq<Token>, names: seq<string>): seq<Piece> {
    if tokens == [] then []
    else [PieceOf(tokens[0], names)] + NamedPieces(tokens[1..], Known(names, tokens[0]))
  }

  function NamesAfter(tokens: seq<Token>, names: seq<string>): seq<string> {
    if tokens == [] then names else NamesAfter(tokens[1..], Known(names, tokens[0]))
  }

  function PositionalPieces(tokens: seq<Token>, k: nat): seq<Piece> {
    if tokens == [] then []
    else
      match tokens[0]
      case Lit(c) => [Ch(c)] + PositionalPieces(tokens[1..], k)
      case Name(name) => [Ch('@')] + PositionalPieces(tokens[1..], k)
      case Question => [Hole(k)] + PositionalPieces(tokens[1..], k + 1)
  }

  /** A missing (undefined) value is sent as null. */
  function ValueOf(values: map<string, Value>, name: string): Value {
    if name in values then values[name] else Null
  }

  function ParamsFor(names: seq<string>, values: map<string, Value>): (params: seq<Value>)
    ensures |params| == |names|
  {
    seq(|names|, i requires 0 <= i < |names| => ValueOf(values, names[i]))
  }

  /** Puts parameter `k` (from 1) into hole `k`. */
  function Filled(pieces: seq<Piece>, params: seq<Value>): seq<Part> {
    if pieces == [] then []
    else [match pieces[0]
          case Ch(c) => Text(c)
          case Hole(k) => Val(if 1 <= k <= |params| then params[k - 1] else Null)]
         + Filled(pieces[1..], params)
  }

  /** The source statement with each `@name` replaced by its value. */
  function NamedMeaning(tokens: seq<Token>, values: map<string, Value>): seq<Part> {
    if tokens == [] then []
    else [match tokens[0]
          case Lit(c) => Text(c)
          case Question => Text('?')
          case Name(name) => Val(ValueOf(values, name))]
         + NamedMeaning(tokens[1..], values)
  }

  /** The source statement with its `?`s replaced, in order, by the values from the `i`-th on. */
  function PositionalMeaning(tokens: seq<Token>, params: seq<Value>, i: nat): seq<Part> {
    if tokens == [] then []
    else
      match tokens[0]
      case Lit(c) => [Text(c)] + PositionalMeaning(tokens[1..], params, i)
      case Name(_) => [Text('@')] + PositionalMeaning(tokens[1..], params, i)
      case Question =>
        [Val(if i < |params| then params[i] else Null)] + PositionalMeaning(tokens[1..], params, i + 1)
  }
}

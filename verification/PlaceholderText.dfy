/**
 * What the translation does to the text of a statement, in terms of that text alone: quoted
 * stretches stay as they are, and outside them every `?`, or every `@name`, is replaced.
 */
module PlaceholderText {
  import opened Base
  import opened Placeholders
  import opened PlaceholderLaws

  // ------------------------------------------------------------------
  // Stretches of text
  // ------------------------------------------------------------------

  /** What stands before position `i`; `prev` stands before `s`. */
  function Prev(prev: Option<char>, s: string, i: nat): Option<char>
    requires i <= |s|
  {
    if i == 0 then prev else Some(s[i - 1])
  }

  /** No quote mark in `s` but right behind a backslash. */
  ghost predicate Unquoted(prev: Option<char>, s: string) {
    forall i | 0 <= i < |s| && (s[i] == '\'' || s[i] == '"') :: Prev(prev, s, i) == Some('\\')
  }

  /** No `c` in `s` but right behind a backslash. */
  ghost predicate Without(prev: Option<char>, c: char, s: string) {
    forall i | 0 <= i < |s| && s[i] == c :: Prev(prev, s, i) == Some('\\')
  }

  /** The character before what follows `s`. */
  function Last(prev: Option<char>, s: string): Option<char> {
    if s == "" then prev else Some(s[|s| - 1])
  }

  /** A whole quoted stretch: `c` at both ends and nowhere inside, unless escaped. */
  ghost predicate Quoted(c: char, body: string) {
    && (c == '\'' || c == '"')
    && Without(None, c, body) && Last(None, body) != Some('\\')
  }

  /** Text in front of a quoted stretch: no quote marks but escaped ones, and no backslash at its end. */
  ghost predicate BeforeQuote(a: string) {
    Unquoted(None, a) && Last(None, a) != Some('\\')
  }

  /** So the first character opens no quote, or closes none. */
  lemma HeadIsNoMark(prev: Option<char>, s: string)
    requires s != ""
    ensures Unquoted(prev, s) ==> !QuoteMark(prev, s[0])
    ensures forall c | Without(prev, c, s) :: QuoteMark(prev, s[0]) ==> s[0] != c
  {
    assert Prev(prev, s, 0) == prev;
  }

  lemma UnquotedTail(prev: Option<char>, s: string, n: nat)
    requires 0 < n <= |s| && Unquoted(prev, s)
    ensures Unquoted(Some(s[n - 1]), s[n..])
  {
    var t := s[n..];
    forall i | 0 <= i < |t| && (t[i] == '\'' || t[i] == '"') ensures Prev(Some(s[n - 1]), t, i) == Some('\\') {
      assert t[i] == s[n + i] && Prev(Some(s[n - 1]), t, i) == Prev(prev, s, n + i);
    }
  }

  lemma WithoutTail(prev: Option<char>, c: char, s: string)
    requires s != "" && Without(prev, c, s)
    ensures Without(Some(s[0]), c, s[1..])
  {
    var t := s[1..];
    forall i | 0 <= i < |t| && t[i] == c ensures Prev(Some(s[0]), t, i) == Some('\\') {
      assert t[i] == s[i + 1] && Prev(Some(s[0]), t, i) == Prev(prev, s, i + 1);
    }
  }

  lemma LastTail(prev: Option<char>, s: string, n: nat)
    requires 0 < n <= |s|
    ensures Last(Some(s[n - 1]), s[n..]) == Last(prev, s)
  {
  }

  /** Where the pieces of a concatenation are. */
  lemma CutAt(a: string, b: string, whole: string, n: nat)
    requires 0 < n <= |a| && whole == a + b
    ensures whole != "" && whole[0] == a[0] && whole[n - 1] == a[n - 1] && whole[n..] == a[n..] + b
    ensures whole[1..] == a[1..] + b && whole[1..n] == a[1..n]
  {
  }

  /** Every character for itself. */
  function Lits(s: string): seq<Token> {
    if s == "" then [] else [Lit(s[0])] + Lits(s[1..])
  }

  lemma {:induction false} WrittenConcat(a: seq<Piece>, b: seq<Piece>)
    ensures Written(a + b) == Written(a) + Written(b)
  {
    if a == [] {
      assert a + b == b;
    } else {
      assert (a + b)[1..] == a[1..] + b;
      WrittenConcat(a[1..], b);
    }
  }

  // ------------------------------------------------------------------
  // Question marks
  // ------------------------------------------------------------------

  lemma {:induction false} PositionalOutside(prev: Option<char>, a: string, b: string)
    requires Unquoted(prev, a)
    ensures PositionalTokens(prev, None, a + b)
            == PositionalTokens(prev, None, a) + PositionalTokens(Last(prev, a), None, b)
    decreases |a|
  {
    if a == "" {
      assert a + b == b;
    } else {
      CutAt(a, b, a + b, 1);
      HeadIsNoMark(prev, a);
      UnquotedTail(prev, a, 1);
      LastTail(prev, a, 1);
      PositionalOutside(Some(a[0]), a[1..], b);
    }
  }

  lemma {:induction false} PositionalInside(prev: Option<char>, c: char, body: string, b: string)
    requires Without(prev, c, body)
    ensures PositionalTokens(prev, Some(c), body + b) == Lits(body) + PositionalTokens(Last(prev, body), Some(c), b)
    decreases |body|
  {
    if body == "" {
      assert body + b == b;
    } else {
      CutAt(body, b, body + b, 1);
      HeadIsNoMark(prev, body);
      WithoutTail(prev, c, body);
      LastTail(prev, body, 1);
      PositionalInside(Some(body[0]), c, body[1..], b);
    }
  }

  /** Only a backslash in front makes a difference to what follows. */
  lemma PositionalRestart(prev: Option<char>, quote: Option<char>, s: string)
    requires prev != Some('\\')
    ensures PositionalTokens(prev, quote, s) == PositionalTokens(None, quote, s)
  {
  }

  /** A quote mark where no quote is open opens one. */
  lemma PositionalOpens(prev: Option<char>, c: char, s: string)
    requires (c == '\'' || c == '"') && prev != Some('\\')
    ensures PositionalTokens(prev, None, [c] + s) == [Lit(c)] + PositionalTokens(Some(c), Some(c), s)
    ensures PositionalTokens(prev, Some(c), [c] + s) == [Lit(c)] + PositionalTokens(Some(c), None, s)
  {
    assert ([c] + s)[1..] == s;
  }

  lemma PositionalAround(a: string, c: char, body: string, rest: string)
    requires BeforeQuote(a) && Quoted(c, body)
    ensures PositionalTokens(None, None, a + ([c] + (body + ([c] + rest))))
            == PositionalTokens(None, None, a)
               + ([Lit(c)] + (Lits(body) + ([Lit(c)] + PositionalTokens(None, None, rest))))
  {
    PositionalOutside(None, a, [c] + (body + ([c] + rest)));
    PositionalOpens(Last(None, a), c, body + ([c] + rest));
    InsideAfter(c, body);
    PositionalInside(Some(c), c, body, [c] + rest);
    PositionalOpens(Last(Some(c), body), c, rest);
    PositionalRestart(Some(c), None, rest);
  }

  lemma InsideAfter(c: char, body: string)
    requires Without(None, c, body)
    ensures Without(Some(c), c, body)
  {
    forall i | 0 <= i < |body| && body[i] == c ensures Prev(Some(c), body, i) == Some('\\') {
      assert Prev(None, body, i) == Some('\\');
    }
  }

  /** `s` with its question marks numbered from `k` on. */
  function Numbered(s: string, k: nat): string {
    if s == "" then ""
    else if s[0] == '?' then "$" + Decimal(k) + Numbered(s[1..], k + 1)
    else [s[0]] + Numbered(s[1..], k)
  }

  function CountOf(s: string, c: char): nat {
    if s == "" then 0 else (if s[0] == c then 1 else 0) + CountOf(s[1..], c)
  }

  /** The positional translation of `sql`, numbering from `k` on. */
  function PositionalFrom(sql: string, k: nat): string {
    Written(PositionalPieces(PositionalTokens(None, None, sql), k))
  }

  lemma {:induction false} PositionalConcat(a: seq<Token>, b: seq<Token>, k: nat)
    ensures PositionalPieces(a + b, k) == PositionalPieces(a, k) + PositionalPieces(b, k + Questions(a))
    decreases |a|
  {
    if a == [] {
      assert a + b == b;
    } else {
      assert (a + b)[1..] == a[1..] + b;
      PositionalConcat(a[1..], b, if a[0].Question? then k + 1 else k);
    }
  }

  lemma {:induction false} LitsWritten(s: string, k: nat)
    ensures Written(PositionalPieces(Lits(s), k)) == s && Questions(Lits(s)) == 0
    decreases |s|
  {
    if s != "" {
      LitsWritten(s[1..], k);
      assert Lits(s)[1..] == Lits(s[1..]);
      assert PositionalPieces(Lits(s), k)[1..] == PositionalPieces(Lits(s[1..]), k);
    }
  }

  lemma {:induction false} UnquotedNumbered(prev: Option<char>, s: string, k: nat)
    requires Unquoted(prev, s)
    ensures var tokens := PositionalTokens(prev, None, s);
      Written(PositionalPieces(tokens, k)) == Numbered(s, k) && Questions(tokens) == CountOf(s, '?')
    decreases |s|
  {
    if s != "" {
      var rest := PositionalTokens(Some(s[0]), None, s[1..]);
      var head := if s[0] == '?' then Question else Lit(s[0]);
      var next := if s[0] == '?' then k + 1 else k;
      var tokens := PositionalTokens(prev, None, s);
      HeadIsNoMark(prev, s);
      UnquotedTail(prev, s, 1);
      UnquotedNumbered(Some(s[0]), s[1..], next);
      assert tokens == [head] + rest && tokens[1..] == rest;
      var pieces := PositionalPieces(tokens, k);
      assert pieces[1..] == PositionalPieces(rest, next);
    }
  }

  lemma NoQuestionsBefore(before: seq<Token>, text: string, after: seq<Token>, k: nat)
    requires Questions(before) == 0 && Written(PositionalPieces(before, k)) == text
    ensures Written(PositionalPieces(before + after, k)) == text + Written(PositionalPieces(after, k))
  {
    PartsWritten(before, after, k);
  }

  /** Literal text in front of other tokens is written as it is and takes no number. */
  lemma LitsThen(s: string, tokens: seq<Token>, k: nat)
    ensures Written(PositionalPieces(Lits(s) + tokens, k)) == s + Written(PositionalPieces(tokens, k))
  {
    LitsWritten(s, k);
    NoQuestionsBefore(Lits(s), s, tokens, k);
  }

  lemma CloseBefore(c: char, body: string, tokens: seq<Token>, k: nat)
    ensures Written(PositionalPieces(Lits(body) + ([Lit(c)] + tokens), k))
            == body + ([c] + Written(PositionalPieces(tokens, k)))
  {
    LitsThen(body, [Lit(c)] + tokens, k);
    OneLit(c);
    LitsThen([c], tokens, k);
  }

  lemma LitsBefore(c: char, body: string, inside: seq<Token>, tokens: seq<Token>, k: nat)
    requires inside == Lits(body) + ([Lit(c)] + tokens)
    ensures Written(PositionalPieces([Lit(c)] + inside, k))
            == [c] + (body + ([c] + Written(PositionalPieces(tokens, k))))
  {
    CloseBefore(c, body, tokens, k);
    OneLit(c);
    LitsThen([c], inside, k);
  }

  /** Outside quotes every question mark is numbered, in order, and nothing else is touched. */
  lemma {:induction false} QuestionsAreNumbered(s: string, k: nat)
    requires Unquoted(None, s)
    ensures PositionalFrom(s, k) == Numbered(s, k)
  {
    UnquotedNumbered(None, s, k);
  }

  /** Tokens written one stretch after the other. */
  lemma PartsWritten(before: seq<Token>, after: seq<Token>, k: nat)
    ensures Written(PositionalPieces(before + after, k))
            == Written(PositionalPieces(before, k)) + Written(PositionalPieces(after, k + Questions(before)))
  {
    PositionalConcat(before, after, k);
    WrittenConcat(PositionalPieces(before, k), PositionalPieces(after, k + Questions(before)));
  }

  lemma QuotedParts(before: seq<Token>, text: string, c: char, body: string, after: seq<Token>, k: nat)
    requires Written(PositionalPieces(before, k)) == text
    ensures Written(PositionalPieces(before + ([Lit(c)] + (Lits(body) + ([Lit(c)] + after))), k))
            == text + ([c] + (body + ([c] + Written(PositionalPieces(after, k + Questions(before))))))
  {
    var inside := Lits(body) + ([Lit(c)] + after);
    PartsWritten(before, [Lit(c)] + inside, k);
    LitsBefore(c, body, inside, after, k + Questions(before));
  }

  /**
   * A quoted stretch is copied, whatever it holds, and ends where its quote does: what comes
   * before is numbered, and what comes after is translated as if it stood alone, going on
   * with the next number.
   */
  lemma {:induction false} QuotesStay(a: string, c: char, body: string, rest: string, k: nat)
    requires BeforeQuote(a) && Quoted(c, body)
    ensures PositionalFrom(a + ([c] + (body + ([c] + rest))), k)
            == Numbered(a, k) + ([c] + (body + ([c] + PositionalFrom(rest, k + CountOf(a, '?')))))
  {
    var before, after := PositionalTokens(None, None, a), PositionalTokens(None, None, rest);
    PositionalAround(a, c, body, rest);
    UnquotedNumbered(None, a, k);
    QuotedParts(before, Numbered(a, k), c, body, after, k);
  }

  lemma PositionalOpenEnd(a: string, c: char, body: string, all: string)
    requires BeforeQuote(a) && (c == '\'' || c == '"') && Without(None, c, body) && all == [c] + body
    ensures PositionalTokens(None, None, a + all) == PositionalTokens(None, None, a) + Lits(all)
  {
    PositionalOutside(None, a, all);
    PositionalOpens(Last(None, a), c, body);
    InsideAfter(c, body);
    PositionalInside(Some(c), c, body, "");
    assert body + "" == body && all[1..] == body;
  }

  /** A quote that is never closed runs to the end of the statement. */
  lemma {:induction false} OpenQuoteStays(a: string, c: char, body: string, k: nat)
    requires BeforeQuote(a) && (c == '\'' || c == '"') && Without(None, c, body)
    ensures PositionalFrom(a + ([c] + body), k) == Numbered(a, k) + ([c] + body)
  {
    var before, all := PositionalTokens(None, None, a), [c] + body;
    PositionalOpenEnd(a, c, body, all);
    UnquotedNumbered(None, a, k);
    PartsWritten(before, Lits(all), k);
    LitsWritten(all, k + Questions(before));
  }

  // ------------------------------------------------------------------
  // Names
  // ------------------------------------------------------------------

  /** A letter, a digit or an underscore. */
  predicate WordChar(c: char) {
    'a' <= c <= 'z' || 'A' <= c <= 'Z' || '0' <= c <= '9' || c == '_'
  }

  /** No name goes on into this text. */
  predicate EndsName(s: string) {
    s == "" || !WordChar(s[0])
  }

  lemma {:induction false} NameRunConcat(a: string, b: string)
    requires NameRun(a) < |a| || EndsName(b)
    ensures NameRun(a + b) == NameRun(a)
    decreases |a|
  {
    if a == "" {
      assert a + b == b;
    } else {
      assert (a + b)[1..] == a[1..] + b;
      if NameChar(a[0]) {
        NameRunConcat(a[1..], b);
      }
    }
  }

  lemma NamedTokenSplits(a: string, b: string, whole: string)
    requires a != "" && EndsName(b) && whole == a + b
    ensures FirstToken(None, whole) == FirstToken(None, a) && Spelling(FirstToken(None, a)) <= |a|
  {
    var n := NameRun(a[1..]);
    CutAt(a, b, whole, 1 + n);
    NameRunConcat(a[1..], b);
  }

  /** The first step of the scan where no quote is open and none opens. */
  lemma NamedStep(prev: Option<char>, s: string, t: Token, n: nat, tail: seq<Token>)
    requires s != "" && !QuoteMark(prev, s[0]) && t == FirstToken(None, s) && n == Spelling(t) <= |s|
    requires tail == NamedTokens(Some(s[n - 1]), None, s[n..])
    ensures NamedTokens(prev, None, s) == [t] + tail
  {
  }

  /** The tokens of text outside quotes. */
  function OutsideTokens(s: string): seq<Token> {
    if s == "" then []
    else
      var t := FirstToken(None, s);
      [t] + OutsideTokens(s[Spelling(t)..])
  }

  lemma OutsideFirst(s: string, t: Token, n: nat)
    requires s != "" && t == FirstToken(None, s) && n == Spelling(t) <= |s|
    ensures OutsideTokens(s) == [t] + OutsideTokens(s[n..])
  {
  }

  lemma OneMore(t: Token, tail: seq<Token>, rest: seq<Token>)
    ensures [t] + (tail + rest) == ([t] + tail) + rest
  {
  }

  /** Text outside quotes is scanned by itself, whatever follows. */
  lemma {:induction false} ScannedAlone(prev: Option<char>, a: string, b: string, whole: string)
    requires Unquoted(prev, a) && EndsName(b) && whole == a + b
    ensures NamedTokens(prev, None, whole) == OutsideTokens(a) + NamedTokens(Last(prev, a), None, b)
    decreases |a|
  {
    if a == "" {
      assert whole == b;
    } else {
      var t := FirstToken(None, a);
      var n := Spelling(t);
      NamedTokenSplits(a, b, whole);
      CutAt(a, b, whole, n);
      HeadIsNoMark(prev, a);
      UnquotedTail(prev, a, n);
      LastTail(prev, a, n);
      ScannedAlone(Some(a[n - 1]), a[n..], b, whole[n..]);
      var tail, rest := OutsideTokens(a[n..]), NamedTokens(Last(prev, a), None, b);
      NamedStep(prev, whole, t, n, tail + rest);
      OutsideFirst(a, t, n);
      OneMore(t, tail, rest);
    }
  }

  lemma NamedOutside(prev: Option<char>, a: string, b: string)
    requires Unquoted(prev, a) && EndsName(b)
    ensures NamedTokens(prev, None, a + b) == NamedTokens(prev, None, a) + NamedTokens(Last(prev, a), None, b)
  {
    ScannedAlone(prev, a, b, a + b);
    assert a + "" == a;
    ScannedAlone(prev, a, "", a);
  }

  lemma {:induction false} NamedInside(prev: Option<char>, c: char, body: string, b: string)
    requires Without(prev, c, body)
    ensures NamedTokens(prev, Some(c), body + b) == Lits(body) + NamedTokens(Last(prev, body), Some(c), b)
    decreases |body|
  {
    if body == "" {
      assert body + b == b;
    } else {
      CutAt(body, b, body + b, 1);
      HeadIsNoMark(prev, body);
      WithoutTail(prev, c, body);
      LastTail(prev, body, 1);
      NamedInside(Some(body[0]), c, body[1..], b);
    }
  }

  lemma NamedRestart(prev: Option<char>, quote: Option<char>, s: string)
    requires prev != Some('\\')
    ensures NamedTokens(prev, quote, s) == NamedTokens(None, quote, s)
  {
  }

  lemma NamedOpens(prev: Option<char>, c: char, s: string)
    requires (c == '\'' || c == '"') && prev != Some('\\')
    ensures NamedTokens(prev, None, [c] + s) == [Lit(c)] + NamedTokens(Some(c), Some(c), s)
    ensures NamedTokens(prev, Some(c), [c] + s) == [Lit(c)] + NamedTokens(Some(c), None, s)
  {
    assert ([c] + s)[1..] == s;
  }

  lemma NamedAround(a: string, c: char, body: string, rest: string)
    requires BeforeQuote(a) && Quoted(c, body)
    ensures NamedTokens(None, None, a + ([c] + (body + ([c] + rest))))
            == NamedTokens(None, None, a) + ([Lit(c)] + (Lits(body) + ([Lit(c)] + NamedTokens(None, None, rest))))
  {
    NamedOutside(None, a, [c] + (body + ([c] + rest)));
    NamedOpens(Last(None, a), c, body + ([c] + rest));
    InsideAfter(c, body);
    NamedInside(Some(c), c, body, [c] + rest);
    NamedOpens(Last(Some(c), body), c, rest);
    NamedRestart(Some(c), None, rest);
  }

  /** The named translation of `sql`, and the names in order of first use, when `names` were used before it. */
  function NamedFrom(sql: string, names: seq<string>): string {
    Written(NamedPieces(NamedTokens(None, None, sql), names))
  }

  function NamesFrom(sql: string, names: seq<string>): seq<string> {
    NamesAfter(NamedTokens(None, None, sql), names)
  }

  lemma {:induction false} NamedConcat(a: seq<Token>, b: seq<Token>, names: seq<string>)
    ensures NamedPieces(a + b, names) == NamedPieces(a, names) + NamedPieces(b, NamesAfter(a, names))
    ensures NamesAfter(a + b, names) == NamesAfter(b, NamesAfter(a, names))
    decreases |a|
  {
    if a == [] {
      assert a + b == b;
    } else {
      assert (a + b)[1..] == a[1..] + b;
      NamedConcat(a[1..], b, Known(names, a[0]));
    }
  }

  lemma {:induction false} LitsNamed(s: string, names: seq<string>)
    ensures Written(NamedPieces(Lits(s), names)) == s && NamesAfter(Lits(s), names) == names
    decreases |s|
  {
    if s != "" {
      LitsNamed(s[1..], names);
      assert Lits(s)[1..] == Lits(s[1..]);
      assert NamedPieces(Lits(s), names)[1..] == NamedPieces(Lits(s[1..]), names);
    }
  }

  /** Literal text in front of other tokens is written as it is and uses no name. */
  lemma LitsFirst(s: string, tokens: seq<Token>, names: seq<string>)
    ensures Written(NamedPieces(Lits(s) + tokens, names)) == s + Written(NamedPieces(tokens, names))
    ensures NamesAfter(Lits(s) + tokens, names) == NamesAfter(tokens, names)
  {
    NamedConcat(Lits(s), tokens, names);
    LitsNamed(s, names);
    WrittenConcat(NamedPieces(Lits(s), names), NamedPieces(tokens, names));
  }

  lemma OneLit(c: char)
    ensures Lits([c]) == [Lit(c)]
  {
    assert [c][1..] == "";
  }

  /** Text without quote marks and without `@` is copied. */
  lemma {:induction false} PlainTokens(prev: Option<char>, s: string)
    requires Unquoted(prev, s) && '@' !in s
    ensures NamedTokens(prev, None, s) == Lits(s)
    decreases |s|
  {
    if s != "" {
      HeadIsNoMark(prev, s);
      UnquotedTail(prev, s, 1);
      assert s[0] in s && forall c | c in s[1..] :: c in s;
      PlainTokens(Some(s[0]), s[1..]);
    }
  }

  lemma {:induction false} PlainTextStays(s: string, names: seq<string>)
    requires Unquoted(None, s) && '@' !in s
    ensures NamedFrom(s, names) == s && NamesFrom(s, names) == names
  {
    PlainTokens(None, s);
    LitsNamed(s, names);
  }

  lemma LeadingName(prev: Option<char>, name: string, post: string, s: string)
    requires EndsName(post) && name != "" && (forall i | 0 <= i < |name| :: WordChar(name[i])) && s == "@" + name + post
    ensures NamedTokens(prev, None, s) == [Name(name)] + NamedTokens(None, None, post)
  {
    AllNameChars(name);
    CutAt("@" + name, post, s, 1 + |name|);
    assert ("@" + name)[1..] == name && ("@" + name)[1 + |name|..] == "";
    NameRunConcat(name, post);
    NameToken(prev, s, |name|);
    assert WordChar(name[|name| - 1]) && s[|name|] == name[|name| - 1];
    NamedRestart(Some(s[|name|]), None, post);
  }

  lemma NameTokens(pre: string, name: string, post: string, s: string)
    requires Unquoted(None, pre) && '@' !in pre && EndsName(post) && s == "@" + name + post
    requires name != "" && forall i | 0 <= i < |name| :: WordChar(name[i])
    ensures NamedTokens(None, None, pre + s) == Lits(pre) + ([Name(name)] + NamedTokens(None, None, post))
  {
    NamedOutside(None, pre, s);
    PlainTokens(None, pre);
    LeadingName(Last(None, pre), name, post, s);
  }

  /**
   * Outside quotes a whole `@name`, as long as it goes on, becomes its number: the place of
   * the name's first use among all names used. What comes after is translated as if it stood
   * alone, with that name known.
   */
  lemma {:induction false} NamesAreNumbered(pre: string, name: string, post: string, names: seq<string>)
    returns (place: nat)
    requires Unquoted(None, pre) && '@' !in pre && EndsName(post)
    requires name != "" && forall i | 0 <= i < |name| :: WordChar(name[i])
    ensures var known := if name in names then names else names + [name];
      && place < |known| && known[place] == name && name !in known[..place]
      && NamedFrom(pre + ("@" + name + post), names) == pre + ("$" + Decimal(place + 1) + NamedFrom(post, known))
      && NamesFrom(pre + ("@" + name + post), names) == NamesFrom(post, known)
  {
    var known := Noted(names, name);
    var rest := NamedTokens(None, None, post);
    place := IndexIn(known, name);
    FirstIndex(known, name);
    NameTokens(pre, name, post, "@" + name + post);
    LitsFirst(pre, [Name(name)] + rest, names);
    NamePieces(name, rest, names);
    var hole := [Hole(place + 1)];
    assert (hole + NamedPieces(rest, known))[1..] == NamedPieces(rest, known);
    assert ([Name(name)] + rest)[1..] == rest;
  }

  lemma {:induction false} FirstIndex(names: seq<string>, name: string)
    requires name in names
    ensures name !in names[..IndexIn(names, name)]
    decreases |names|
  {
    if names[0] != name {
      FirstIndex(names[1..], name);
      var i := IndexIn(names, name);
      assert names[..i] == [names[0]] + names[1..][..i - 1];
    }
  }

  /** An `@` with no name behind it is copied. */
  lemma {:induction false} LoneAtStays(pre: string, post: string, names: seq<string>)
    requires Unquoted(None, pre) && '@' !in pre && EndsName(post)
    ensures NamedFrom(pre + (['@'] + post), names) == pre + (['@'] + NamedFrom(post, names))
    ensures NamesFrom(pre + (['@'] + post), names) == NamesFrom(post, names)
  {
    var s := ['@'] + post;
    NamedOutside(None, pre, s);
    PlainTokens(None, pre);
    assert s[1..] == post;
    NamedRestart(Some('@'), None, post);
    NamedStep(Last(None, pre), s, Lit('@'), 1, NamedTokens(None, None, post));
    OneLit('@');
    assert NamedTokens(None, None, pre + s) == Lits(pre) + (Lits(['@']) + NamedTokens(None, None, post));
    LitsFirst(pre, Lits(['@']) + NamedTokens(None, None, post), names);
    LitsFirst(['@'], NamedTokens(None, None, post), names);
  }

  /** A quoted stretch is copied whatever it holds, `@name`s included, and ends where its quote does. */
  lemma {:induction false} NamedQuotesStay(a: string, c: char, body: string, rest: string, names: seq<string>)
    requires BeforeQuote(a) && Quoted(c, body)
    ensures NamedFrom(a + ([c] + (body + ([c] + rest))), names)
            == NamedFrom(a, names) + ([c] + (body + ([c] + NamedFrom(rest, NamesFrom(a, names)))))
    ensures NamesFrom(a + ([c] + (body + ([c] + rest))), names) == NamesFrom(rest, NamesFrom(a, names))
  {
    var before, after := NamedTokens(None, None, a), NamedTokens(None, None, rest);
    var known := NamesAfter(before, names);
    OneLit(c);
    var quoted := Lits([c]) + (Lits(body) + (Lits([c]) + after));
    NamedAround(a, c, body, rest);
    NamedConcat(before, quoted, names);
    WrittenConcat(NamedPieces(before, names), NamedPieces(quoted, known));
    LitsFirst([c], Lits(body) + (Lits([c]) + after), known);
    LitsFirst(body, Lits([c]) + after, known);
    LitsFirst([c], after, known);
  }

  lemma NamedOpenEnd(a: string, c: char, body: string, all: string)
    requires BeforeQuote(a) && (c == '\'' || c == '"') && Without(None, c, body) && all == [c] + body
    ensures NamedTokens(None, None, a + all) == NamedTokens(None, None, a) + Lits(all)
  {
    NamedOutside(None, a, all);
    NamedOpens(Last(None, a), c, body);
    InsideAfter(c, body);
    NamedInside(Some(c), c, body, "");
    assert body + "" == body && all[1..] == body;
  }

  /** A quote that is never closed runs to the end of the statement. */
  lemma {:induction false} NamedOpenQuoteStays(a: string, c: char, body: string, names: seq<string>)
    requires BeforeQuote(a) && (c == '\'' || c == '"') && Without(None, c, body)
    ensures NamedFrom(a + ([c] + body), names) == NamedFrom(a, names) + ([c] + body)
    ensures NamesFrom(a + ([c] + body), names) == NamesFrom(a, names)
  {
    var before, all := NamedTokens(None, None, a), [c] + body;
    NamedOpenEnd(a, c, body, all);
    NamedConcat(before, Lits(all), names);
    WrittenConcat(NamedPieces(before, names), NamedPieces(Lits(all), NamesAfter(before, names)));
    LitsNamed(all, NamesAfter(before, names));
  }

  // ------------------------------------------------------------------
  // Parameters
  // ------------------------------------------------------------------

  /** The parameter sent for a name is the value given for it, or null if none was. */
  lemma ParametersAreValues(sql: string, values: map<string, Value>, i: nat)
    requires i < |NamesFrom(sql, [])|
    ensures |NamedParams(sql, values)| == |NamesFrom(sql, [])|
    ensures var name := NamesFrom(sql, [])[i];
      NamedParams(sql, values)[i] == if name in values then values[name] else Null
  {
  }

  /** The two translations are these, from the first number on and with no name known. */
  lemma TranslationsAreThese(sql: string)
    ensures PositionalSql(sql) == PositionalFrom(sql, 1) && NamedSql(sql) == NamedFrom(sql, [])
  {
  }
}

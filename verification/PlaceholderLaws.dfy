/** The translation preserves meaning: exactly when, and with which parameters. */
module PlaceholderLaws {
  import opened Base
  import opened Placeholders

  // ------------------------------------------------------------------
  // Named placeholders
  // ------------------------------------------------------------------

  lemma IndexStable(names: seq<string>, more: seq<string>, name: string)
    requires name in names && names <= more
    ensures name in more && IndexIn(more, name) == IndexIn(names, name)
  {
    assert more[IndexIn(names, name)] == name;
    if names[0] != name {
      assert names[1..] <= more[1..];
      IndexStable(names[1..], more[1..], name);
    }
  }

  lemma {:induction false} NamesGrow(tokens: seq<Token>, names: seq<string>)
    ensures names <= NamesAfter(tokens, names)
    decreases |tokens|
  {
    if tokens != [] {
      NamesGrow(tokens[1..], if tokens[0].Name? then Noted(names, tokens[0].name) else names);
    }
  }

  /** Each hole, filled from the parameters of the whole statement, holds the value of the name that stood there. */
  lemma {:induction false} FilledNamed(tokens: seq<Token>, names: seq<string>, values: map<string, Value>)
    ensures Filled(NamedPieces(tokens, names), ParamsFor(NamesAfter(tokens, names), values))
            == NamedMeaning(tokens, values)
    decreases |tokens|
  {
    if tokens != [] {
      var after := if tokens[0].Name? then Noted(names, tokens[0].name) else names;
      FilledNamed(tokens[1..], after, values);
      if tokens[0].Name? {
        NamesGrow(tokens[1..], after);
        IndexStable(after, NamesAfter(tokens, names), tokens[0].name);
      }
    }
  }

  lemma {:induction false} HolesFromOne(tokens: seq<Token>, names: seq<string>, i: nat)
    requires i < |NamedPieces(tokens, names)| && NamedPieces(tokens, names)[i].Hole?
    ensures NamedPieces(tokens, names)[i].k > 0
    decreases |tokens|
  {
    if i > 0 {
      HolesFromOne(tokens[1..], if tokens[0].Name? then Noted(names, tokens[0].name) else names, i - 1);
    }
  }

  ghost predicate Distinct(names: seq<string>) {
    forall i, j | 0 <= i < j < |names| :: names[i] != names[j]
  }

  /** One parameter per distinct name, in order of first use, and none for anything else. */
  lemma {:induction false} NamesAreDistinct(tokens: seq<Token>, names: seq<string>)
    requires Distinct(names)
    ensures Distinct(NamesAfter(tokens, names))
    ensures forall name :: name in NamesAfter(tokens, names) <==> name in names || Name(name) in tokens
    decreases |tokens|
  {
    if tokens != [] {
      assert tokens == [tokens[0]] + tokens[1..];
      NamesAreDistinct(tokens[1..], if tokens[0].Name? then Noted(names, tokens[0].name) else names);
    }
  }

  /** The source text has no `$` with a digit right behind it. */
  ghost predicate NoDollarDigit(s: string) {
    forall i | 0 <= i < |s| - 1 :: !(s[i] == '$' && IsDigit(s[i + 1]))
  }

  lemma DollarDigitShift(s: string)
    requires s != ""
    ensures NoDollarDigit(s) <==> !(|s| > 1 && s[0] == '$' && IsDigit(s[1])) && NoDollarDigit(s[1..])
  {
    var t := s[1..];
    if NoDollarDigit(s) {
      forall i | 0 <= i < |t| - 1 ensures !(t[i] == '$' && IsDigit(t[i + 1])) {
        assert t[i] == s[i + 1] && t[i + 1] == s[i + 2];
      }
    }
    if NoDollarDigit(t) && !(|s| > 1 && s[0] == '$' && IsDigit(s[1])) {
      forall i | 0 <= i < |s| - 1 ensures !(s[i] == '$' && IsDigit(s[i + 1])) {
        if i > 0 { assert t[i - 1] == s[i] && t[i] == s[i + 1]; }
      }
    }
  }

  /** Characters of a name bring no `$` into play. */
  lemma {:induction false} DollarDigitSkip(s: string, n: nat)
    requires n <= |s| && forall i | 0 <= i < n :: s[i] != '$'
    ensures NoDollarDigit(s) <==> NoDollarDigit(s[n..])
  {
    if n > 0 {
      DollarDigitShift(s);
      DollarDigitSkip(s[1..], n - 1);
      assert s[1..][n - 1..] == s[n..];
    }
  }

  lemma NamedHead(prev: Option<char>, quote: Option<char>, s: string, names: seq<string>)
    ensures var pieces := NamedPieces(NamedTokens(prev, quote, s), names);
      (pieces != [] && pieces[0].Ch? && IsDigit(pieces[0].c)) <==> (s != "" && IsDigit(s[0]))
  {
  }

  lemma NameToken(prev: Option<char>, s: string, n: nat)
    requires s != "" && s[0] == '@' && n == NameRun(s[1..]) > 0
    ensures NamedTokens(prev, None, s) == [Name(s[1..1 + n])] + NamedTokens(Some(s[n]), None, s[1 + n..])
  {
  }

  lemma NamePieces(name: string, rest: seq<Token>, names: seq<string>)
    ensures NamedPieces([Name(name)] + rest, names)
            == [Hole(IndexIn(Noted(names, name), name) + 1)] + NamedPieces(rest, Noted(names, name))
  {
    assert ([Name(name)] + rest)[1..] == rest;
  }

  lemma NameHasNoDollar(s: string, n: nat)
    requires s != "" && s[0] == '@' && n == NameRun(s[1..])
    ensures NoDollarDigit(s) <==> NoDollarDigit(s[1 + n..])
  {
    forall i | 0 <= i < 1 + n ensures s[i] != '$' {
      if i > 0 { assert s[i] == s[1..][i - 1]; }
    }
    DollarDigitSkip(s, 1 + n);
  }

  lemma NameStep(prev: Option<char>, s: string, names: seq<string>, n: nat)
    requires s != "" && s[0] == '@' && n == NameRun(s[1..]) > 0
    ensures var pieces := NamedPieces(NamedTokens(prev, None, s), names);
      && pieces != [] && !Clash(pieces, 0)
      && pieces[1..] == NamedPieces(NamedTokens(Some(s[n]), None, s[1 + n..]), Noted(names, s[1..1 + n]))
  {
    var rest := s[1 + n..];
    NameToken(prev, s, n);
    NamePieces(s[1..1 + n], NamedTokens(Some(s[n]), None, rest), names);
    NamedHead(Some(s[n]), None, rest, Noted(names, s[1..1 + n]));
    assert rest != "" ==> rest[0] == s[1..][n];
  }

  lemma LiteralStep(prev: Option<char>, quote: Option<char>, s: string, names: seq<string>, q: Option<char>)
    requires s != "" && !(s[0] == '@' && quote.None? && NameRun(s[1..]) > 0)
    requires q == if QuoteMark(prev, s[0]) then QuoteAfter(quote, s[0]) else quote
    ensures var pieces := NamedPieces(NamedTokens(prev, quote, s), names);
      && pieces != []
      && pieces[1..] == NamedPieces(NamedTokens(Some(s[0]), q, s[1..]), names)
      && (NoDollarDigit(s) <==> !Clash(pieces, 0) && NoDollarDigit(s[1..]))
  {
    LiteralHead(prev, quote, s, names, q);
    NamedHead(Some(s[0]), q, s[1..], names);
    DollarDigitShift(s);
  }

  /** Only a `$` of the source itself can clash: no name's placeholder is followed by a digit. */
  lemma {:induction false} NamedClashes(prev: Option<char>, quote: Option<char>, s: string, names: seq<string>)
    ensures (forall i :: !Clash(NamedPieces(NamedTokens(prev, quote, s), names), i)) <==> NoDollarDigit(s)
    decreases |s|
  {
    if s != "" {
      ClashShift(NamedPieces(NamedTokens(prev, quote, s), names));
      if s[0] == '@' && quote.None? && NameRun(s[1..]) > 0 {
        var n := NameRun(s[1..]);
        NameStep(prev, s, names, n);
        NameHasNoDollar(s, n);
        NamedClashes(Some(s[n]), quote, s[1 + n..], Noted(names, s[1..1 + n]));
      } else {
        var q := if QuoteMark(prev, s[0]) then QuoteAfter(quote, s[0]) else quote;
        LiteralStep(prev, quote, s, names, q);
        NamedClashes(Some(s[0]), q, s[1..], names);
      }
    }
  }

  lemma LiteralHead(prev: Option<char>, quote: Option<char>, s: string, names: seq<string>, q: Option<char>)
    requires s != "" && !(s[0] == '@' && quote.None? && NameRun(s[1..]) > 0)
    requires q == if QuoteMark(prev, s[0]) then QuoteAfter(quote, s[0]) else quote
    ensures NamedPieces(NamedTokens(prev, quote, s), names)
            == [Ch(s[0])] + NamedPieces(NamedTokens(Some(s[0]), q, s[1..]), names)
  {
    assert NamedTokens(prev, quote, s) == [Lit(s[0])] + NamedTokens(Some(s[0]), q, s[1..]);
  }

  /** The statement the named branch produces. */
  function NamedSql(sql: string): string {
    Written(NamedPieces(NamedTokens(None, None, sql), []))
  }

  function NamedParams(sql: string, values: map<string, Value>): seq<Value> {
    ParamsFor(NamesAfter(NamedTokens(None, None, sql), []), values)
  }

  /**
   * Named placeholders keep their meaning: substituting the parameters into the translated
   * statement gives the source with each `@name` outside quotes replaced by its value. The
   * translated statement reads back as written if and only if the source has no `$` in
   * front of a digit.
   */
  lemma NamedTranslationMeans(sql: string, values: map<string, Value>)
    ensures ReadBack(NamedSql(sql)) == NamedPieces(NamedTokens(None, None, sql), []) <==> NoDollarDigit(sql)
    ensures NoDollarDigit(sql) ==>
              Filled(ReadBack(NamedSql(sql)), NamedParams(sql, values))
              == NamedMeaning(NamedTokens(None, None, sql), values)
  {
    var tokens := NamedTokens(None, None, sql);
    var pieces := NamedPieces(tokens, []);
    forall i | 0 <= i < |pieces| ensures pieces[i].Hole? ==> pieces[i].k > 0 {
      if pieces[i].Hole? { HolesFromOne(tokens, [], i); }
    }
    ReadsBackIff(pieces);
    NamedClashes(None, None, sql, []);
    FilledNamed(tokens, [], values);
  }

  // ------------------------------------------------------------------
  // Positional placeholders
  // ------------------------------------------------------------------

  lemma {:induction false} FilledPositional(tokens: seq<Token>, params: seq<Value>, k: nat)
    requires k > 0
    ensures Filled(PositionalPieces(tokens, k), params) == PositionalMeaning(tokens, params, k - 1)
    decreases |tokens|
  {
    if tokens != [] {
      FilledPositional(tokens[1..], params, if tokens[0].Question? then k + 1 else k);
    }
  }

  lemma {:induction false} PositionalPiecesMatch(tokens: seq<Token>, k: nat, i: nat)
    requires k > 0 && i < |tokens|
    ensures |PositionalPieces(tokens, k)| == |tokens|
    ensures var p := PositionalPieces(tokens, k)[i];
      match tokens[i]
      case Lit(c) => p == Ch(c)
      case Name(_) => p == Ch('@')
      case Question => p.Hole? && p.k > 0
    decreases |tokens|
  {
    if |tokens| > 1 {
      PositionalPiecesMatch(tokens[1..], if tokens[0].Question? then k + 1 else k, if i > 0 then i - 1 else 0);
    } else {
      assert tokens[1..] == [];
    }
  }

  /** A `$`, or a `?` outside quotes, directly followed by a digit. */
  ghost predicate SourceClash(tokens: seq<Token>, i: int) {
    && 0 <= i < |tokens| - 1
    && (tokens[i] == Lit('$') || tokens[i] == Question)
    && tokens[i + 1].Lit? && IsDigit(tokens[i + 1].c)
  }

  function PositionalSql(sql: string): string {
    Written(PositionalPieces(PositionalTokens(None, None, sql), 1))
  }

  /**
   * Positional placeholders keep their meaning, the i-th `?` outside quotes standing for
   * the i-th parameter, if and only if no such `?` and no `$` is directly followed by a
   * digit: `?1` is translated to `$11`.
   */
  lemma PositionalTranslationMeans(sql: string, params: seq<Value>)
    ensures var tokens := PositionalTokens(None, None, sql);
      var clean := forall i :: !SourceClash(tokens, i);
      && (ReadBack(PositionalSql(sql)) == PositionalPieces(tokens, 1) <==> clean)
      && (clean ==> Filled(ReadBack(PositionalSql(sql)), params) == PositionalMeaning(tokens, params, 0))
  {
    var tokens := PositionalTokens(None, None, sql);
    var pieces := PositionalPieces(tokens, 1);
    if tokens != [] { PositionalPiecesMatch(tokens, 1, 0); }
    forall i | 0 <= i < |tokens| ensures pieces[i].Hole? ==> pieces[i].k > 0 {
      PositionalPiecesMatch(tokens, 1, i);
    }
    NoNames(None, None, sql);
    forall i ensures Clash(pieces, i) <==> SourceClash(tokens, i) {
      if 0 <= i < |tokens| - 1 {
        PositionalPiecesMatch(tokens, 1, i);
        PositionalPiecesMatch(tokens, 1, i + 1);
      }
    }
    ReadsBackIff(pieces);
    FilledPositional(tokens, params, 1);
  }

  lemma {:induction false} NoNames(prev: Option<char>, quote: Option<char>, s: string)
    ensures forall i | 0 <= i < |PositionalTokens(prev, quote, s)| :: !PositionalTokens(prev, quote, s)[i].Name?
    decreases |s|
  {
    if s != "" {
      NoNames(Some(s[0]), if QuoteMark(prev, s[0]) then QuoteAfter(quote, s[0]) else quote, s[1..]);
    }
  }

  /** How many `?`s there are to fill. */
  function Questions(tokens: seq<Token>): nat {
    if tokens == [] then 0 else (if tokens[0] == Question then 1 else 0) + Questions(tokens[1..])
  }

  function HoleNumbers(pieces: seq<Piece>): seq<nat> {
    if pieces == [] then [] else (if pieces[0].Hole? then [pieces[0].k] else []) + HoleNumbers(pieces[1..])
  }

  /** The `?`s are numbered 1, 2, ... in order. */
  lemma {:induction false} QuestionsNumberedInOrder(tokens: seq<Token>, k: nat)
    ensures HoleNumbers(PositionalPieces(tokens, k)) == seq(Questions(tokens), i requires 0 <= i => k + i)
    decreases |tokens|
  {
    if tokens != [] {
      QuestionsNumberedInOrder(tokens[1..], if tokens[0].Question? then k + 1 else k);
    }
  }

  // ------------------------------------------------------------------
  // Statements that are misread
  // ------------------------------------------------------------------

  lemma OneDigit(d: nat)
    requires d < 10
    ensures Decimal(d) == [DigitChar(d)] && ParseDecimal([DigitChar(d)]) == d
  {
    assert [DigitChar(d)][..0] == "";
  }

  /** How a `$` with one digit reads in front of something else. */
  lemma ReadsOneDigit(d: nat, rest: string)
    requires d < 10 && DigitRun(rest) == 0
    ensures ReadBack(['$', DigitChar(d)] + rest) == [Hole(d)] + ReadBack(rest)
  {
    OneDigit(d);
    DollarPiece(['$', DigitChar(d)] + rest, [DigitChar(d)], rest);
    assert ['$', DigitChar(d)] + rest == "$" + ([DigitChar(d)] + rest);
    assert [DigitChar(d)] + rest[..0] == [DigitChar(d)] && rest[0..] == rest;
  }

  /** `?1` is sent as `$11`: its one value is lost, and a parameter that does not exist is asked for. */
  lemma QuestionBeforeDigitIsMisread(v: Value)
    ensures PositionalSql("?1") == "$11"
    ensures PositionalMeaning(PositionalTokens(None, None, "?1"), [v], 0) == [Val(v), Text('1')]
    ensures Filled(ReadBack(PositionalSql("?1")), [v]) == [Val(Null)]
  {
    var tokens := PositionalTokens(None, None, "?1");
    assert "?1"[1..] == "1" && "1"[1..] == "";
    assert PositionalTokens(Some('?'), None, "1") == [Lit('1')];
    assert tokens == [Question, Lit('1')] && tokens[1..] == [Lit('1')] && [Lit('1')][1..] == [];
    assert PositionalPieces([Lit('1')], 2) == [Ch('1')];
    var pieces := PositionalPieces(tokens, 1);
    assert pieces == [Hole(1), Ch('1')] && pieces[1..] == [Ch('1')] && [Ch('1')][1..] == [];
    assert Written([Ch('1')]) == "1";
    OneDigit(1);
    assert Written(pieces) == "$11";
    assert PositionalMeaning([Lit('1')], [v], 1) == [Text('1')];
    ElevenReads();
    assert [Hole(11)][1..] == [];
  }

  lemma ElevenReads()
    ensures ReadBack("$11") == [Hole(11)]
  {
    DollarPiece("$11", "11", "");
    assert "11" + "" == "11" && "$11" == "$" + ("11" + "");
    assert "11" + ""[..DigitRun("")] == "11";
    assert "11"[..1] == "1" && "1"[..0] == "";
    assert ParseDecimal("1") == 1 && ParseDecimal("11") == 11;
  }

  /** A character that is neither `@` nor a quote is a literal. */
  lemma PlainToken(prev: Option<char>, c: char, rest: string, s: string, tokens: seq<Token>)
    requires c != '@' && c != '\'' && c != '"' && s == [c] + rest && tokens == NamedTokens(Some(c), None, rest)
    ensures NamedTokens(prev, None, s) == [Lit(c)] + tokens
  {
    assert s[1..] == rest;
  }

  lemma {:induction false} AllNameChars(name: string)
    requires forall i | 0 <= i < |name| :: NameChar(name[i])
    ensures NameRun(name) == |name|
  {
    if name != "" {
      AllNameChars(name[1..]);
    }
  }

  lemma LoneName(prev: Option<char>, name: string)
    requires name != "" && forall i | 0 <= i < |name| :: NameChar(name[i])
    ensures NamedTokens(prev, None, "@" + name) == [Name(name)]
  {
    var s, n := "@" + name, |name|;
    AllNameChars(name);
    assert s[1..] == name && s[1..1 + n] == name && s[1 + n..] == "";
    NameToken(prev, s, n);
    assert NamedTokens(Some(s[n]), None, "") == [];
  }

  lemma DollarTokens(name: string, fromAt: string, fromOne: string, sql: string)
    requires name != "" && forall i | 0 <= i < |name| :: NameChar(name[i])
    requires fromAt == "@" + name && fromOne == ['1'] + fromAt && sql == ['$'] + fromOne
    ensures NamedTokens(None, None, sql) == [Lit('$'), Lit('1'), Name(name)]
  {
    LoneName(Some('1'), name);
    PlainToken(Some('$'), '1', fromAt, fromOne, [Name(name)]);
    PlainToken(None, '$', fromOne, sql, [Lit('1')] + [Name(name)]);
  }

  lemma DollarMeaning(name: string, values: map<string, Value>)
    ensures var tokens := [Lit('$'), Lit('1'), Name(name)];
      && NamesAfter(tokens, []) == [name]
      && NamedMeaning(tokens, values) == [Text('$'), Text('1'), Val(ValueOf(values, name))]
      && NamedPieces(tokens, []) == [Ch('$'), Ch('1'), Hole(1)]
  {
    var tokens := [Lit('$'), Lit('1'), Name(name)];
    assert tokens[1..] == [Lit('1'), Name(name)] && tokens[1..][1..] == [Name(name)] && [Name(name)][1..] == [];
    assert NamesAfter([Name(name)], []) == [name];
    assert NamedMeaning([Name(name)], values) == [Val(ValueOf(values, name))];
    assert NamedPieces([Name(name)], []) == [Hole(1)];
  }

  lemma DollarWritten()
    ensures Written([Ch('$'), Ch('1'), Hole(1)]) == "$1$1"
  {
    var pieces := [Ch('$'), Ch('1'), Hole(1)];
    OneDigit(1);
    assert pieces[1..] == [Ch('1'), Hole(1)] && pieces[1..][1..] == [Hole(1)] && [Hole(1)][1..] == [];
    assert Written([Hole(1)]) == "$1" && Written([Ch('1'), Hole(1)]) == "1$1";
  }

  lemma TwoHolesRead(value: Value)
    ensures Filled(ReadBack("$1$1"), [value]) == [Val(value), Val(value)]
  {
    assert ['$', DigitChar(1)] == "$1" && "$1" + "$1" == "$1$1" && "$1" + "" == "$1";
    ReadsOneDigit(1, "$1");
    ReadsOneDigit(1, "");
    assert [Hole(1), Hole(1)][1..] == [Hole(1)] && [Hole(1)][1..] == [];
    assert Filled([Hole(1)], [value]) == [Val(value)];
  }

  /** A `$1` of the statement itself turns into a parameter: in `$1@a` the text `$1` is read as the value of `a`. */
  lemma DollarBeforeDigitIsMisread(name: string, values: map<string, Value>)
    requires name != "" && forall i | 0 <= i < |name| :: NameChar(name[i])
    ensures var sql, value := "$1@" + name, ValueOf(values, name);
      && NamedSql(sql) == "$1$1" && NamedParams(sql, values) == [value]
      && NamedMeaning(NamedTokens(None, None, sql), values) == [Text('$'), Text('1'), Val(value)]
      && Filled(ReadBack(NamedSql(sql)), NamedParams(sql, values)) == [Val(value), Val(value)]
  {
    assert "$1@" + name == ['$'] + (['1'] + ("@" + name));
    DollarTokens(name, "@" + name, ['1'] + ("@" + name), "$1@" + name);
    DollarMeaning(name, values);
    DollarWritten();
    assert ParamsFor([name], values) == [ValueOf(values, name)];
    TwoHolesRead(ValueOf(values, name));
  }
}

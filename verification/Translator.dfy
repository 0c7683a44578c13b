/** `translateSqlAndParams` as it runs: two scans with an index, a quote flag and a growing output. */
module Translator {
  import opened Base
  import opened Placeholders
  import opened PlaceholderLaws

  datatype Params = Absent | Positional(values: seq<Value>) | Named(obj: map<string, Value>)

  ghost function OpenQuote(inQuote: bool, quoteChar: char): Option<char> {
    if inQuote then Some(quoteChar) else None
  }

  ghost function Before(sql: string, i: nat): Option<char>
    requires i <= |sql|
  {
    if i == 0 then None else Some(sql[i - 1])
  }

  lemma WrittenStep(out: string, p: Piece, rest: seq<Piece>)
    ensures out + Written([p] + rest) == (out + WrittenPiece(p)) + Written(rest)
  {
    assert ([p] + rest)[1..] == rest;
  }

  /** What the positional scan has yet to write from a point of the statement on. */
  ghost function PiecesFrom(prev: Option<char>, quote: Option<char>, s: string, k: nat): seq<Piece> {
    PositionalPieces(PositionalTokens(prev, quote, s), k)
  }

  method TranslatePositional(sql: string) returns (pgSql: string)
    ensures pgSql == PositionalSql(sql)
  {
    var paramIndex := 1;
    var inQuote, quoteChar := false, ' ';
    pgSql := "";
    for i := 0 to |sql|
      invariant paramIndex >= 1
      invariant
        pgSql + Written(PiecesFrom(Before(sql, i), OpenQuote(inQuote, quoteChar), sql[i..], paramIndex))
        == PositionalSql(sql)
    {
      var ch := sql[i];
      ghost var prev, quote := Before(sql, i), OpenQuote(inQuote, quoteChar);
      assert sql[i..][0] == ch && sql[i..][1..] == sql[i + 1..] && Before(sql, i + 1) == Some(ch);
      if (ch == '\'' || ch == '"') && (i == 0 || sql[i - 1] != '\\') {
        WrittenStep(pgSql, Ch(ch), PiecesFrom(Some(ch), QuoteAfter(quote, ch), sql[i + 1..], paramIndex));
        if !inQuote {
          inQuote := true;
          quoteChar := ch;
        } else if ch == quoteChar {
          inQuote := false;
        }
        pgSql := pgSql + [ch];
      } else if ch == '?' && !inQuote {
        WrittenStep(pgSql, Hole(paramIndex), PiecesFrom(Some(ch), quote, sql[i + 1..], paramIndex + 1));
        pgSql := pgSql + Placeholder(paramIndex);
        paramIndex := paramIndex + 1;
      } else {
        WrittenStep(pgSql, Ch(ch), PiecesFrom(Some(ch), quote, sql[i + 1..], paramIndex));
        pgSql := pgSql + [ch];
      }
    }
    assert sql[|sql|..] == "";
  }

  /** The characters of a name from position `start` on. */
  method ScanName(sql: string, start: nat) returns (name: string, i: nat)
    requires start <= |sql|
    ensures i == start + NameRun(sql[start..]) && i <= |sql| && name == sql[start..i]
  {
    name, i := "", start;
    while i < |sql| && NameChar(sql[i])
      invariant start <= i <= |sql| && name == sql[start..i]
      invariant NameRun(sql[start..]) == i - start + NameRun(sql[i..])
    {
      assert sql[i..][0] == sql[i] && sql[i..][1..] == sql[i + 1..];
      name := name + [sql[i]];
      i := i + 1;
    }
  }

  /** The map of placeholders given out agrees with the names noted so far. */
  ghost predicate PositionsOf(nameToPos: map<string, string>, names: seq<string>) {
    && (forall name :: name in nameToPos <==> name in names)
    && (forall name | name in names :: nameToPos[name] == Placeholder(IndexIn(names, name) + 1))
  }

  lemma NotedKeepsPositions(nameToPos: map<string, string>, names: seq<string>, name: string)
    requires PositionsOf(nameToPos, names) && name !in names
    ensures PositionsOf(nameToPos[name := Placeholder(|names| + 1)], Noted(names, name))
  {
    var after := Noted(names, name);
    forall other | other in names ensures IndexIn(after, other) == IndexIn(names, other) {
      IndexStable(names, after, other);
    }
    NewNameLast(names, name);
  }

  lemma {:induction false} NewNameLast(names: seq<string>, name: string)
    requires name !in names
    ensures IndexIn(names + [name], name) == |names|
  {
    if names != [] {
      assert (names + [name])[1..] == names[1..] + [name];
      NewNameLast(names[1..], name);
    }
  }

  /** Finds or assigns the placeholder of one name. */
  method NotePlaceholder(name: string, values: map<string, Value>, nameToPos: map<string, string>, params: seq<Value>,
                         ghost names: seq<string>)
    returns (placeholder: string, nameToPos': map<string, string>, params': seq<Value>)
    requires PositionsOf(nameToPos, names) && params == ParamsFor(names, values)
    ensures placeholder == Placeholder(IndexIn(Noted(names, name), name) + 1)
    ensures PositionsOf(nameToPos', Noted(names, name)) && params' == ParamsFor(Noted(names, name), values)
  {
    nameToPos', params' := nameToPos, params;
    if name in nameToPos {
      placeholder := nameToPos[name];
    } else {
      NotedKeepsPositions(nameToPos, names, name);
      placeholder := Placeholder(|params| + 1);
      nameToPos' := nameToPos[name := placeholder];
      params' := params + [if name in values then values[name] else Null];
    }
  }

  lemma LiteralStepTokens(out: string, c: char, rest: seq<Token>, names: seq<string>)
    ensures out + Written(NamedPieces([Lit(c)] + rest, names)) == (out + [c]) + Written(NamedPieces(rest, names))
    ensures NamesAfter([Lit(c)] + rest, names) == NamesAfter(rest, names)
  {
    assert ([Lit(c)] + rest)[1..] == rest;
    WrittenStep(out, Ch(c), NamedPieces(rest, names));
  }

  lemma NameStepTokens(out: string, name: string, rest: seq<Token>, names: seq<string>)
    ensures var after := Noted(names, name);
      && out + Written(NamedPieces([Name(name)] + rest, names))
         == (out + Placeholder(IndexIn(after, name) + 1)) + Written(NamedPieces(rest, after))
      && NamesAfter([Name(name)] + rest, names) == NamesAfter(rest, after)
  {
    assert ([Name(name)] + rest)[1..] == rest;
    var after := Noted(names, name);
    NamePieces(name, rest, names);
    WrittenStep(out, Hole(IndexIn(after, name) + 1), NamedPieces(rest, after));
  }

  /** The translation aimed at: its text and the names it has parameters for. */
  datatype Goal = Goal(sql: string, names: seq<string>)

  ghost function Whole(sql: string): Goal {
    Goal(NamedSql(sql), NamesAfter(NamedTokens(None, None, sql), []))
  }

  /** What is written so far, with the tokens still to be written, makes up the goal. */
  ghost predicate Completes(out: string, tokens: seq<Token>, names: seq<string>, goal: Goal) {
    out + Written(NamedPieces(tokens, names)) == goal.sql && NamesAfter(tokens, names) == goal.names
  }

  /** Position `i` of the named scan. */
  ghost predicate Progress(sql: string, i: nat, quote: Option<char>, out: string, names: seq<string>, goal: Goal) {
    i <= |sql| && Completes(out, NamedTokens(Before(sql, i), quote, sql[i..]), names, goal)
  }

  lemma ScanStarts(sql: string)
    ensures Progress(sql, 0, None, "", [], Whole(sql))
  {
    assert sql[0..] == sql;
  }

  lemma ScanEnds(sql: string, quote: Option<char>, out: string, names: seq<string>, goal: Goal)
    requires Progress(sql, |sql|, quote, out, names, goal)
    ensures goal == Goal(out, names)
  {
    assert sql[|sql|..] == "";
  }

  lemma LiteralCompletes(out: string, c: char, rest: seq<Token>, names: seq<string>, goal: Goal)
    requires Completes(out, [Lit(c)] + rest, names, goal)
    ensures Completes(out + [c], rest, names, goal)
  {
    LiteralStepTokens(out, c, rest, names);
  }

  lemma NameCompletes(out: string, name: string, rest: seq<Token>, names: seq<string>, goal: Goal)
    requires Completes(out, [Name(name)] + rest, names, goal)
    ensures var after := Noted(names, name);
      Completes(out + Placeholder(IndexIn(after, name) + 1), rest, after, goal)
  {
    NameStepTokens(out, name, rest, names);
  }

  lemma LiteralProgress(sql: string, i: nat, quote: Option<char>, out: string, names: seq<string>, goal: Goal)
    requires Progress(sql, i, quote, out, names, goal) && i < |sql|
    requires QuoteMark(Before(sql, i), sql[i]) || !(sql[i] == '@' && quote.None? && NameRun(sql[i + 1..]) > 0)
    ensures Progress(sql, i + 1, if QuoteMark(Before(sql, i), sql[i]) then QuoteAfter(quote, sql[i]) else quote,
                     out + [sql[i]], names, goal)
  {
    var s, c := sql[i..], sql[i];
    assert s[0] == c && s[1..] == sql[i + 1..];
    var q := if QuoteMark(Before(sql, i), c) then QuoteAfter(quote, c) else quote;
    var rest := NamedTokens(Some(c), q, sql[i + 1..]);
    assert NamedTokens(Before(sql, i), quote, s) == [Lit(c)] + rest;
    LiteralCompletes(out, c, rest, names, goal);
  }

  /** The token at an unquoted `@` with a name behind it. */
  lemma TokenAt(sql: string, i: nat, next: nat)
    requires i < |sql| && sql[i] == '@' && NameRun(sql[i + 1..]) > 0 && next == i + 1 + NameRun(sql[i + 1..])
    ensures next <= |sql|
    ensures NamedTokens(Before(sql, i), None, sql[i..])
            == [Name(sql[i + 1..next])] + NamedTokens(Before(sql, next), None, sql[next..])
  {
    var s, n := sql[i..], NameRun(sql[i + 1..]);
    assert s[1..] == sql[i + 1..];
    assert s[1..1 + n] == sql[i + 1..next] && s[1 + n..] == sql[next..] && s[n] == sql[next - 1];
    NameToken(Before(sql, i), s, n);
  }

  lemma NameProgress(sql: string, i: nat, out: string, names: seq<string>, next: nat, goal: Goal)
    requires Progress(sql, i, None, out, names, goal) && i < |sql|
    requires sql[i] == '@' && NameRun(sql[i + 1..]) > 0 && next == i + 1 + NameRun(sql[i + 1..])
    ensures var name := sql[i + 1..next];
      var after := Noted(names, name);
      Progress(sql, next, None, out + Placeholder(IndexIn(after, name) + 1), after, goal)
  {
    TokenAt(sql, i, next);
    NameCompletes(out, sql[i + 1..next], NamedTokens(Before(sql, next), None, sql[next..]), names, goal);
  }

  /** An `@` outside quotes: the name after it, if there is one, becomes its placeholder. */
  method TranslateAt(sql: string, start: nat, values: map<string, Value>, out: string, nameToPos: map<string, string>,
                     params: seq<Value>, ghost names: seq<string>, ghost goal: Goal)
    returns (out': string, i: nat, nameToPos': map<string, string>, params': seq<Value>, ghost names': seq<string>)
    requires start < |sql| && sql[start] == '@' && Progress(sql, start, None, out, names, goal)
    requires PositionsOf(nameToPos, names) && params == ParamsFor(names, values)
    ensures start < i && Progress(sql, i, None, out', names', goal)
    ensures PositionsOf(nameToPos', names') && params' == ParamsFor(names', values)
  {
    var name, next := ScanName(sql, start + 1);
    i := next;
    if name == "" {
      LiteralProgress(sql, start, None, out, names, goal);
      out', nameToPos', params', names' := out + "@", nameToPos, params, names;
    } else {
      NameProgress(sql, start, out, names, next, goal);
      var placeholder;
      placeholder, nameToPos', params' := NotePlaceholder(name, values, nameToPos, params, names);
      out', names' := out + placeholder, Noted(names, name);
    }
  }

  method TranslateNamed(sql: string, values: map<string, Value>) returns (pgSql: string, params: seq<Value>)
    ensures pgSql == NamedSql(sql) && params == NamedParams(sql, values)
  {
    params := [];
    var nameToPos: map<string, string> := map[];
    ghost var names: seq<string> := [];
    var inQuote, quoteChar := false, ' ';
    pgSql := "";
    var i := 0;
    ghost var goal := Whole(sql);
    ScanStarts(sql);
    while i < |sql|
      invariant PositionsOf(nameToPos, names) && params == ParamsFor(names, values)
      invariant Progress(sql, i, OpenQuote(inQuote, quoteChar), pgSql, names, goal)
    {
      var ch := sql[i];
      ghost var quote := OpenQuote(inQuote, quoteChar);
      if (ch == '\'' || ch == '"') && (i == 0 || sql[i - 1] != '\\') {
        LiteralProgress(sql, i, quote, pgSql, names, goal);
        if !inQuote {
          inQuote := true;
          quoteChar := ch;
        } else if ch == quoteChar {
          inQuote := false;
        }
        pgSql := pgSql + [ch];
        i := i + 1;
      } else if ch == '@' && !inQuote {
        pgSql, i, nameToPos, params, names := TranslateAt(sql, i, values, pgSql, nameToPos, params, names, goal);
      } else {
        LiteralProgress(sql, i, quote, pgSql, names, goal);
        pgSql := pgSql + [ch];
        i := i + 1;
      }
    }
    ScanEnds(sql, OpenQuote(inQuote, quoteChar), pgSql, names, goal);
  }

  /** The whole function: which branch is taken depends on the parameters it is given. */
  method TranslateSqlAndParams(sql: string, p: Params) returns (pgSql: string, params: seq<Value>)
    ensures !p.Named? ==> pgSql == PositionalSql(sql) && params == if p.Positional? then p.values else []
    ensures p.Named? ==> pgSql == NamedSql(sql) && params == NamedParams(sql, p.obj)
  {
    match p
    case Absent =>
      pgSql := TranslatePositional(sql);
      params := [];
    case Positional(values) =>
      pgSql := TranslatePositional(sql);
      params := values;
    case Named(values) =>
      pgSql, params := TranslateNamed(sql, values);
  }
}

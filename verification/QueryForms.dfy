/** What every form of SQL text and of placeholder becomes, and that the rest of the query is translated
    independently of it. */
module QueryForms {
  import opened SqlText
  import opened Placeholders
  import opened PlaceholderLaws
  import opened Quoting

  /** What a piece of a query turns into, what it binds, and the state behind it. */
  datatype Effect = Effect(text: string, names: set<string>, positionals: nat, native: bool, next: State)

  /** In front of `rest`, the piece has this effect, and `rest` is translated as if it stood alone. */
  ghost predicate Gives(piece: string, rest: string, st: State, named: bool, e: Effect) {
    var all, later := Lex(piece + rest, st, named), Lex(rest, e.next, named);
    && Render(all) == e.text + Render(later)
    && Names(all) == e.names + Names(later)
    && Positionals(all) == e.positionals + Positionals(later)
    && (HasNative(all) <==> e.native || HasNative(later))
  }

  function Unchanged(text: string, next: State): Effect {
    Effect(text, {}, 0, false, next)
  }

  lemma OneToken(piece: string, rest: string, st: State, named: bool, token: Token, next: State)
    requires piece != "" && Next(piece + rest, st, named) == Read(token, |piece|, next)
    ensures Gives(piece, rest, st, named,
        Effect(token.Rendered(), if token.Named? then {token.name} else {}, if token.Positional? then 1 else 0,
               token.Plain? && IsNative(token.c), next))
  {
    var q := piece + rest;
    assert q[|piece|..] == rest;
    OutStep(q, st, named);
    BindingStep(q, st, named);
    var all, later := Lex(q, st, named), Lex(rest, next, named);
    assert all == [Lexeme(st, token)] + later;
    NativeCons(Lexeme(st, token), later);
  }

  lemma NativeCons(x: Lexeme, later: seq<Lexeme>)
    ensures HasNative([x] + later) <==> (x.token.Plain? && IsNative(x.token.c)) || HasNative(later)
  {
    var all := [x] + later;
    assert all[0] == x;
    if HasNative(later) {
      var k :| 0 <= k < |later| && later[k].token.Plain? && IsNative(later[k].token.c);
      assert all[k + 1] == later[k];
    }
  }

  lemma TwoPieces(a: string, b: string, rest: string, st: State, named: bool, d: Effect, e: Effect)
    requires Gives(a, b + rest, st, named, d) && Gives(b, rest, d.next, named, e)
    ensures Gives(a + b, rest, st, named,
        Effect(d.text + e.text, d.names + e.names, d.positionals + e.positionals, d.native || e.native, e.next))
  {
    assert (a + b) + rest == a + (b + rest);
    hide Lex, Render, Names, Positionals, HasNative;
    var later := Lex(rest, e.next, named);
    Regrouped(d.text, e.text, Render(later));
    assert d.names + (e.names + Names(later)) == (d.names + e.names) + Names(later);
  }

  lemma Regrouped(a: string, b: string, c: string)
    ensures a + (b + c) == (a + b) + c
  {
  }

  // ----- Placeholders -----

  /** A text that a candidate can hold: neither a closing parenthesis nor the start of another candidate. */
  predicate Simple(x: string) {
    forall k :: 0 <= k < |x| ==> x[k] != ')' && !(x[k] == '%' && k + 1 < |x| && x[k + 1] == '(')
  }

  lemma CandidateEnds(x: string, rest: string)
    requires Simple(x) && rest != "" && (rest[0] == ')' || Starts(rest, '%', '('))
    ensures PlaceholderEnd("%(" + x + rest, 2) == 2 + |x|
  {
    var q, end := "%(" + x + rest, 2 + |x|;
    assert q[end..] == rest && q[end] == rest[0];
    forall k | 2 <= k < end
      ensures q[k] != ')' && !Starts(q[k..], '%', '(')
    {
      assert q[k] == x[k - 2];
      assert k + 1 < end ==> q[k + 1] == x[k - 1];
    }
    hide PlaceholderEnd;
  }

  /** `%(name)s` becomes `:name` and requires the name. */
  lemma PlaceholderForm(x: string, rest: string)
    requires Simple(x)
    ensures Gives("%(" + x + ")s", rest, Sql, true, Effect(":" + x, {x}, 0, false, Sql))
  {
    var q, piece := "%(" + x + (")s" + rest), "%(" + x + ")s";
    CandidateEnds(x, ")s" + rest);
    assert q == piece + rest && q[2..2 + |x|] == x && q[2 + |x|] == ')' && q[3 + |x|] == 's';
    OneToken(piece, rest, Sql, true, Named(x), Sql);
  }

  /** A parenthesis that no `s` follows: the candidate is passed on and binds nothing. */
  lemma ClosedCandidate(x: string, rest: string)
    requires Simple(x) && (rest != "" ==> rest[0] != 's')
    ensures Gives("%(" + x + ")", rest, Sql, true, Unchanged("%(" + x + ")", Sql))
  {
    var q, piece := "%(" + x + (")" + rest), "%(" + x + ")";
    CandidateEnds(x, ")" + rest);
    assert q == piece + rest && q[..3 + |x|] == piece && q[2 + |x|] == ')';
    assert rest != "" ==> q[3 + |x|] == rest[0];
    OneToken(piece, rest, Sql, true, Raw(piece), Sql);
  }

  /** Another candidate starts first: the text up to it is passed on. */
  lemma InterruptedCandidate(x: string, rest: string)
    requires Simple(x) && Starts(rest, '%', '(')
    ensures Gives("%(" + x, rest, Sql, true, Unchanged("%(" + x, Sql))
  {
    var q, piece := "%(" + x + rest, "%(" + x;
    CandidateEnds(x, rest);
    assert q == piece + rest && q[..2 + |x|] == piece && q[2 + |x|..] == rest;
    OneToken(piece, rest, Sql, true, Raw(piece), Sql);
  }

  /** Nothing closes the candidate: the rest of the query is passed on. */
  lemma UnclosedCandidate(x: string)
    requires Simple(x)
    ensures Gives("%(" + x, "", Sql, true, Unchanged("%(" + x, Sql))
  {
    var q := "%(" + x;
    assert q + "" == q;
    forall k | 2 <= k < |q|
      ensures q[k] != ')' && !Starts(q[k..], '%', '(')
    {
      assert q[k] == x[k - 2];
      assert k + 1 < |q| ==> q[k + 1] == x[k - 1];
    }
    assert PlaceholderEnd(q, 2) == |q| by {
      hide PlaceholderEnd;
    }
    OneToken(q, "", Sql, true, Raw(q), Sql);
  }

  /** A malformed candidate never reaches past its parenthesis or into another candidate. */
  lemma {:induction false} MalformedTextIsShort(q: string, st: State, named: bool, i: nat)
    requires i < |Lex(q, st, named)| && Lex(q, st, named)[i].token.Raw?
    ensures var text := Lex(q, st, named)[i].token.text;
      && Starts(text, '%', '(')
      && (forall k :: 0 <= k < |text| - 1 ==> text[k] != ')')
      && (forall k :: 0 < k < |text| ==> !Starts(text[k..], '%', '('))
    decreases |q|
  {
    var r := Next(q, st, named);
    if i > 0 {
      MalformedTextIsShort(q[r.width..], r.next, named, i - 1);
    } else {
      RawIsShort(q, st, named);
    }
  }

  lemma RawIsShort(q: string, st: State, named: bool)
    requires q != "" && Next(q, st, named).token.Raw?
    ensures var text := Next(q, st, named).token.text;
      && Starts(text, '%', '(')
      && (forall k :: 0 <= k < |text| - 1 ==> text[k] != ')')
      && (forall k :: 0 < k < |text| ==> !Starts(text[k..], '%', '('))
  {
    var text, end := Next(q, st, named).token.text, PlaceholderEnd(q, 2);
    hide PlaceholderEnd;
    assert end <= |text| <= end + 1 && text == q[..|text|];
    forall k | 0 < k < |text|
      ensures !Starts(text[k..], '%', '(')
    {
      assert 2 <= k < end ==> !Starts(q[k..], '%', '(');
    }
  }

  /** `%%` becomes `%`, in plain text and in literals. */
  lemma PercentForm(rest: string, st: State, named: bool)
    requires st == Sql || st == Literal
    ensures Gives("%%", rest, st, named, Unchanged("%", st))
  {
    OneToken("%%", rest, st, named, Percent, st);
  }

  /** `%s` becomes `?` for a parameter sequence. */
  lemma MarkForm(rest: string)
    ensures Gives("%s", rest, Sql, false, Effect("?", {}, 1, false, Sql))
  {
    OneToken("%s", rest, Sql, false, Positional, Sql);
  }

  /** Any other character of plain text is passed on. The four native markers set the flag. */
  lemma PlainForm(c: char, rest: string, named: bool)
    requires c !in "'\"`["
    requires rest != "" ==> (c == '-' ==> rest[0] != '-') && (c == '/' ==> rest[0] != '*')
    requires rest != "" && c == '%' ==> rest[0] != '%' && rest[0] != (if named then '(' else 's')
    ensures Gives([c], rest, Sql, named, Effect([c], {}, 0, c in "?:@$", Sql))
  {
    assert ([c] + rest)[0] == c;
    assert rest != "" ==> ([c] + rest)[1] == rest[0];
    OneToken([c], rest, Sql, named, Plain(c), Sql);
  }

  // ----- Quoted text and comments: nothing in them is a placeholder -----

  lemma Opened(open: string, rest: string, named: bool, next: State)
    requires (open == "--" && next == LineComment) || (open == "/*" && next == BlockComment)
      || (open == "'" && next == Literal)
      || (open == "\"" && next == Identifier('\"')) || (open == "`" && next == Identifier('`'))
      || (open == "[" && next == Identifier(']'))
    ensures Gives(open, rest, Sql, named, Unchanged(open, next))
  {
    assert (open + rest)[..|open|] == open && (open + rest)[0] == open[0];
    OneToken(open, rest, Sql, named, Copy(open), next);
  }

  /** A piece that is copied and leaves the region or stays in it. */
  lemma Copied(piece: string, rest: string, st: State, named: bool, next: State)
    requires piece != "" && Next(piece + rest, st, named) == Read(Copy(piece), |piece|, next)
    ensures Gives(piece, rest, st, named, Unchanged(piece, next))
  {
    OneToken(piece, rest, st, named, Copy(piece), next);
  }

  lemma InsideStep(lead: string, body: string, rest: string, st: State, named: bool)
    requires Gives(lead, body + rest, st, named, Unchanged(lead, st))
    requires Gives(body, rest, st, named, Unchanged(body, Sql))
    ensures Gives(lead + body, rest, st, named, Unchanged(lead + body, Sql))
  {
    TwoPieces(lead, body, rest, st, named, Unchanged(lead, st), Unchanged(body, Sql));
  }

  lemma WholeRegion(open: string, inside: string, rest: string, st: State, named: bool)
    requires Gives(open, inside + rest, Sql, named, Unchanged(open, st))
    requires Gives(inside, rest, st, named, Unchanged(inside, Sql))
    ensures Gives(open + inside, rest, Sql, named, Unchanged(open + inside, Sql))
  {
    TwoPieces(open, inside, rest, Sql, named, Unchanged(open, st), Unchanged(inside, Sql));
  }

  lemma {:induction false} UpToQuote(quote: char, body: string, rest: string, named: bool)
    requires (quote == '\"' || quote == '`') && (rest != "" ==> rest[0] != quote)
    ensures var inside := DoubleQuotes(body, quote) + [quote];
      Gives(inside, rest, Identifier(quote), named, Unchanged(inside, Sql))
  {
    var st := Identifier(quote);
    if body == "" {
      assert DoubleQuotes(body, quote) + [quote] == [quote];
      assert ([quote] + rest)[..1] == [quote] && (rest != "" ==> ([quote] + rest)[1] == rest[0]);
      Copied([quote], rest, st, named, Sql);
    } else {
      UpToQuote(quote, body[1..], rest, named);
      var lead := if body[0] == quote then [quote, quote] else [body[0]];
      var later := DoubleQuotes(body[1..], quote) + [quote];
      assert DoubleQuotes(body, quote) + [quote] == lead + later;
      assert (lead + (later + rest))[..|lead|] == lead;
      Copied(lead, later + rest, st, named, st);
      InsideStep(lead, later, rest, st, named);
    }
  }

  /** A name in double quotes or backticks, whatever it holds, with the quote doubled inside. */
  lemma QuotedForm(quote: char, body: string, rest: string, named: bool)
    requires (quote == '\"' || quote == '`') && (rest != "" ==> rest[0] != quote)
    ensures var text := [quote] + (DoubleQuotes(body, quote) + [quote]);
      Gives(text, rest, Sql, named, Unchanged(text, Sql))
  {
    var inside := DoubleQuotes(body, quote) + [quote];
    UpToQuote(quote, body, rest, named);
    Opened([quote], inside + rest, named, Identifier(quote));
    WholeRegion([quote], inside, rest, Identifier(quote), named);
  }

  lemma {:induction false} UpToBracket(body: string, rest: string, named: bool)
    requires ']' !in body
    ensures Gives(body + "]", rest, Identifier(']'), named, Unchanged(body + "]", Sql))
  {
    var st := Identifier(']');
    if body == "" {
      assert body + "]" == "]" && ("]" + rest)[..1] == "]";
      Copied("]", rest, st, named, Sql);
    } else {
      UpToBracket(body[1..], rest, named);
      var lead, later := [body[0]], body[1..] + "]";
      assert body + "]" == lead + later && (lead + (later + rest))[..1] == lead;
      Copied(lead, later + rest, st, named, st);
      InsideStep(lead, later, rest, st, named);
    }
  }

  /** A name in brackets. */
  lemma BracketForm(body: string, rest: string, named: bool)
    requires ']' !in body
    ensures var text := "[" + (body + "]"); Gives(text, rest, Sql, named, Unchanged(text, Sql))
  {
    UpToBracket(body, rest, named);
    Opened("[", body + "]" + rest, named, Identifier(']'));
    WholeRegion("[", body + "]", rest, Identifier(']'), named);
  }

  lemma {:induction false} UpToLineEnd(body: string, end: char, rest: string, named: bool)
    requires '\r' !in body && '\n' !in body && (end == '\r' || end == '\n')
    ensures Gives(body + [end], rest, LineComment, named, Unchanged(body + [end], Sql))
  {
    if body == "" {
      assert body + [end] == [end] && ([end] + rest)[..1] == [end];
      Copied([end], rest, LineComment, named, Sql);
    } else {
      UpToLineEnd(body[1..], end, rest, named);
      var lead, later := [body[0]], body[1..] + [end];
      assert body + [end] == lead + later && (lead + (later + rest))[..1] == lead;
      Copied(lead, later + rest, LineComment, named, LineComment);
      InsideStep(lead, later, rest, LineComment, named);
    }
  }

  /** A comment up to the end of its line. */
  lemma LineCommentForm(body: string, end: char, rest: string, named: bool)
    requires '\r' !in body && '\n' !in body && (end == '\r' || end == '\n')
    ensures var text := "--" + (body + [end]); Gives(text, rest, Sql, named, Unchanged(text, Sql))
  {
    UpToLineEnd(body, end, rest, named);
    Opened("--", body + [end] + rest, named, LineComment);
    WholeRegion("--", body + [end], rest, LineComment, named);
  }

  /** No `*` and `/` side by side. */
  predicate ClosesNothing(body: string) {
    forall k :: 0 <= k < |body| - 1 ==> !(body[k] == '*' && body[k + 1] == '/')
  }

  lemma {:induction false} UpToCommentEnd(body: string, rest: string, named: bool)
    requires ClosesNothing(body)
    ensures Gives(body + "*/", rest, BlockComment, named, Unchanged(body + "*/", Sql))
  {
    if body == "" {
      assert body + "*/" == "*/" && ("*/" + rest)[..2] == "*/";
      Copied("*/", rest, BlockComment, named, Sql);
    } else {
      var lead, later := [body[0]], body[1..] + "*/";
      assert forall k :: 0 <= k < |body[1..]| ==> body[1..][k] == body[k + 1];
      UpToCommentEnd(body[1..], rest, named);
      assert body + "*/" == lead + later && (lead + (later + rest))[..1] == lead;
      assert (lead + (later + rest))[1] == if |body| > 1 then body[1] else '*';
      Copied(lead, later + rest, BlockComment, named, BlockComment);
      InsideStep(lead, later, rest, BlockComment, named);
    }
  }

  /** A comment between `/` and `*` and back. */
  lemma BlockCommentForm(body: string, rest: string, named: bool)
    requires ClosesNothing(body)
    ensures var text := "/*" + (body + "*/"); Gives(text, rest, Sql, named, Unchanged(text, Sql))
  {
    UpToCommentEnd(body, rest, named);
    Opened("/*", body + "*/" + rest, named, BlockComment);
    WholeRegion("/*", body + "*/", rest, BlockComment, named);
  }

  /** A character of a literal as it has to be written. */
  function Written(c: char): string {
    if c == '\'' then "\'\'" else if c == '%' then "%%" else [c]
  }

  /** The inside of a literal with its quotes and its percent signs doubled. */
  function WrittenLiteral(body: string): string {
    if body == "" then "" else Written(body[0]) + WrittenLiteral(body[1..])
  }

  lemma WrittenForm(c: char, later: string, named: bool)
    requires later != ""
    ensures var text := if c == '\'' then "\'\'" else [c];
      Gives(Written(c), later, Literal, named, Unchanged(text, Literal))
  {
    var lead := Written(c);
    assert (lead + later)[..|lead|] == lead;
    if c == '%' {
      PercentForm(later, Literal, named);
    } else {
      Copied(lead, later, Literal, named, Literal);
    }
  }

  lemma {:induction false} UpToLiteralEnd(body: string, rest: string, named: bool)
    requires rest != "" ==> rest[0] != '\''
    ensures Gives(WrittenLiteral(body) + "'", rest, Literal, named,
        Unchanged(DoubleQuotes(body, '\'') + "'", Sql))
  {
    if body == "" {
      LiteralEnd(rest, named);
    } else {
      var text := if body[0] == '\'' then "\'\'" else [body[0]];
      var later, out := WrittenLiteral(body[1..]) + "'", DoubleQuotes(body[1..], '\'') + "'";
      assert WrittenLiteral(body) + "'" == Written(body[0]) + later;
      assert DoubleQuotes(body, '\'') + "'" == text + out;
      hide *;
      UpToLiteralEnd(body[1..], rest, named);
      WrittenForm(body[0], later + rest, named);
      TwoPieces(Written(body[0]), later, rest, Literal, named, Unchanged(text, Literal), Unchanged(out, Sql));
      EffectsJoin(text, out);
    }
  }

  lemma EffectsJoin(a: string, b: string)
    ensures Effect(a + b, {} + {}, 0 + 0, false || false, Sql) == Unchanged(a + b, Sql)
    ensures Unchanged(a, Literal) == Effect(a, {}, 0, false, Literal)
    ensures Unchanged(b, Sql) == Effect(b, {}, 0, false, Sql)
  {
  }

  lemma LiteralEnd(rest: string, named: bool)
    requires rest != "" ==> rest[0] != '\''
    ensures Gives(WrittenLiteral("") + "'", rest, Literal, named, Unchanged(DoubleQuotes("", '\'') + "'", Sql))
  {
    assert WrittenLiteral("") + "'" == "'" && DoubleQuotes("", '\'') + "'" == "'";
    assert ("'" + rest)[..1] == "'" && (rest != "" ==> ("'" + rest)[1] == rest[0]);
    Copied("'", rest, Literal, named, Sql);
  }

  /** A literal with its quotes and its percent signs doubled: one percent sign of each pair stays. */
  lemma LiteralForm(body: string, rest: string, named: bool)
    requires rest != "" ==> rest[0] != '\''
    ensures Gives("'" + (WrittenLiteral(body) + "'"), rest, Sql, named,
        Unchanged("'" + (DoubleQuotes(body, '\'') + "'"), Sql))
  {
    var inside, out := WrittenLiteral(body) + "'", DoubleQuotes(body, '\'') + "'";
    UpToLiteralEnd(body, rest, named);
    Opened("'", inside + rest, named, Literal);
    TwoPieces("'", inside, rest, Sql, named, Unchanged("'", Literal), Unchanged(out, Sql));
  }

  /** Any other character of a literal, a lone percent sign included. */
  lemma LiteralCharacter(c: char, rest: string, named: bool)
    requires c != '\'' && (c == '%' && rest != "" ==> rest[0] != '%')
    ensures Gives([c], rest, Literal, named, Unchanged([c], Literal))
  {
    assert ([c] + rest)[..1] == [c] && (rest != "" ==> ([c] + rest)[1] == rest[0]);
    Copied([c], rest, Literal, named, Literal);
  }
}

/** Identifier quoting, unquoting and case folding. */
module Quoting {
  import opened AsciiCase
  import opened SqlText
  import opened Placeholders
  import opened PlaceholderLaws

  predicate Wrapped(s: string, open: char, close: char) {
    s != "" && s[0] == open && s[|s| - 1] == close
  }

  /** The text without its first and last character; empty when there are no two. */
  function Inner(s: string): string {
    if |s| <= 2 then "" else s[1..|s| - 1]
  }

  /** Every `c` written twice. */
  function DoubleQuotes(s: string, c: char): string {
    if s == "" then "" else (if s[0] == c then [c, c] else [s[0]]) + DoubleQuotes(s[1..], c)
  }

  /** Every pair of `c`, read from the left, written once. */
  function HalveQuotes(s: string, c: char): (r: string)
    ensures |r| <= |s|
  {
    if s == "" then ""
    else if Starts(s, c, c) then [c] + HalveQuotes(s[2..], c)
    else [s[0]] + HalveQuotes(s[1..], c)
  }

  function QuoteName(name: string): string {
    if Wrapped(name, '\"', '\"') then name
    else "\"" + DoubleQuotes(name, '\"') + "\""
  }

  function UnquoteIdentifier(value: string): string {
    if Wrapped(value, '\"', '\"') then HalveQuotes(Inner(value), '\"')
    else if Wrapped(value, '\'', '\'') then HalveQuotes(Inner(value), '\'')
    else if Wrapped(value, '`', '`') then HalveQuotes(Inner(value), '`')
    else if Wrapped(value, '[', ']') then Inner(value)
    else value
  }

  function FoldChar(c: char): char {
    if 'A' <= c <= 'Z' then (c as int - 'A' as int + 'a' as int) as char else c
  }

  /** Identifiers are compared without ASCII case; other letters stay distinct. */
  function IdentifierKey(value: string): (key: string)
    ensures |key| == |value|
    ensures forall i :: 0 <= i < |value| ==> key[i] == FoldChar(value[i])
  {
    if value == "" then "" else [FoldChar(value[0])] + IdentifierKey(value[1..])
  }

  // ----- Laws -----

  lemma {:induction false} HalveUndoesDouble(s: string, c: char)
    ensures HalveQuotes(DoubleQuotes(s, c), c) == s
  {
    if s != "" {
      var rest := DoubleQuotes(s[1..], c);
      HalveUndoesDouble(s[1..], c);
      if s[0] == c {
        assert ([c, c] + rest)[2..] == rest;
      } else {
        assert ([s[0]] + rest)[1..] == rest;
      }
    }
  }

  /** Quoting twice is quoting once. */
  lemma QuoteIsIdempotent(name: string)
    ensures QuoteName(QuoteName(name)) == QuoteName(name)
  {
  }

  /** Unquoting inverts quoting on exactly the names that are not already in double quotes. */
  lemma UnquoteInvertsQuote(name: string)
    ensures UnquoteIdentifier(QuoteName(name)) == name <==> !Wrapped(name, '\"', '\"')
  {
    var quoted := QuoteName(name);
    if !Wrapped(name, '\"', '\"') {
      assert Inner(quoted) == DoubleQuotes(name, '\"');
      HalveUndoesDouble(name, '\"');
    } else {
      assert |Inner(name)| < |name|;
    }
  }

  /** Folding case twice is folding once. */
  lemma KeyIsIdempotent(value: string)
    ensures IdentifierKey(IdentifierKey(value)) == IdentifierKey(value)
  {
    var once := IdentifierKey(value);
    assert forall i :: 0 <= i < |value| ==> IdentifierKey(once)[i] == once[i];
  }

  /** The key is the spelling that differs in ASCII case only and has no upper-case letter. */
  lemma KeyIs(value: string)
    ensures SameUpToCase(value, IdentifierKey(value))
    ensures forall i :: 0 <= i < |value| ==> !IsUpper(IdentifierKey(value)[i])
  {
  }

  /** Two names have the same key exactly when they differ in nothing but the case of ASCII letters. */
  lemma SameKey(a: string, b: string)
    ensures IdentifierKey(a) == IdentifierKey(b) <==> SameUpToCase(a, b)
  {
    KeyIs(a);
    KeyIs(b);
    if SameUpToCase(a, b) {
      SameUpToCaseTwice(a, IdentifierKey(a), IdentifierKey(a));
      SameUpToCaseTwice(IdentifierKey(a), a, b);
      SameUpToCaseTwice(IdentifierKey(a), b, IdentifierKey(b));
      OneCaseIsEqual(IdentifierKey(a), IdentifierKey(b));
    } else if IdentifierKey(a) == IdentifierKey(b) {
      SameUpToCaseTwice(b, IdentifierKey(b), b);
      SameUpToCaseTwice(a, IdentifierKey(a), b);
    }
  }

  /** All four quotings are undone: double and single quotes and backticks with the quote doubled inside,
      brackets as they stand. Any other text is its own name. */
  lemma {:induction false} EveryQuotingIsUndone(body: string)
    ensures UnquoteIdentifier("\"" + DoubleQuotes(body, '\"') + "\"") == body
    ensures UnquoteIdentifier("'" + DoubleQuotes(body, '\'') + "'") == body
    ensures UnquoteIdentifier("`" + DoubleQuotes(body, '`') + "`") == body
    ensures UnquoteIdentifier("[" + body + "]") == body
    ensures (body == "" || body[0] !in "\"'`[") ==> UnquoteIdentifier(body) == body
  {
    QuotedIsUndone(body, '\"');
    QuotedIsUndone(body, '\'');
    QuotedIsUndone(body, '`');
    assert Inner("[" + body + "]") == body;
  }

  lemma {:induction false} QuotedIsUndone(body: string, quote: char)
    requires quote == '\"' || quote == '\'' || quote == '`'
    ensures UnquoteIdentifier([quote] + DoubleQuotes(body, quote) + [quote]) == body
  {
    var value := [quote] + DoubleQuotes(body, quote) + [quote];
    assert value[0] == quote && value[|value| - 1] == quote && Inner(value) == DoubleQuotes(body, quote);
    HalveUndoesDouble(body, quote);
  }

  lemma IdentifierRead(lead: string, rest: string)
    requires lead == "\"\"" || (|lead| == 1 && lead[0] != '\"')
    ensures Next(lead + rest, Identifier('\"'), false) == Read(Copy(lead), |lead|, Identifier('\"'))
  {
    assert (lead + rest)[..|lead|] == lead;
  }

  /** The translator passes the rest of a quoted identifier through and is back in plain text. */
  lemma {:induction false} InsideIdentifier(name: string)
    ensures Verbatim(DoubleQuotes(name, '\"') + "\"", Identifier('\"'), Sql)
  {
    var st := Identifier('\"');
    var text := DoubleQuotes(name, '\"') + "\"";
    if name == "" {
      assert text == "\"" + "" && text[..1] == "\"";
      VerbatimStep("\"", "", st, Sql, Sql);
    } else {
      var rest := DoubleQuotes(name[1..], '\"') + "\"";
      var lead := if name[0] == '\"' then "\"\"" else [name[0]];
      InsideIdentifier(name[1..]);
      assert text == lead + rest;
      IdentifierRead(lead, rest);
      hide Next;
      VerbatimStep(lead, rest, st, st, Sql);
    }
  }

  lemma OpeningQuote(rest: string)
    ensures Next("\"" + rest, Sql, false) == Read(Copy("\""), 1, Identifier('\"'))
  {
    var text := "\"" + rest;
    assert text[0] == '\"' && text[..1] == "\"";
  }

  lemma QuotedNameAlone(name: string)
    requires !Wrapped(name, '\"', '\"')
    ensures Verbatim(QuoteName(name), Sql, Sql)
  {
    var quoted := QuoteName(name);
    var rest := DoubleQuotes(name, '\"') + "\"";
    assert quoted == "\"" + rest;
    hide *;
    InsideIdentifier(name);
    OpeningQuote(rest);
    VerbatimStep("\"", rest, Sql, Identifier('\"'), Sql);
  }

  /** A quoted name between plain text reaches the driver unchanged and binds no parameter, whatever
      characters it holds, as long as no double quote touches it from outside. */
  lemma {:induction false} QuotedNameIsVerbatim(pre: string, name: string, post: string)
    requires !Wrapped(name, '\"', '\"')
    requires After(pre, Sql) == Sql
    requires pre != "" ==> pre[|pre| - 1] != '\"'
    requires post != "" ==> post[0] != '\"'
    ensures Out(pre + QuoteName(name) + post, Sql, false) ==
        Out(pre, Sql, false) + QuoteName(name) + Out(post, Sql, false)
    ensures Positionals(Lex(pre + QuoteName(name) + post, Sql, false)) ==
        Positionals(Lex(pre, Sql, false)) + Positionals(Lex(post, Sql, false))
  {
    var quoted := QuoteName(name);
    OutAppend(pre, quoted, Sql);
    QuotedNameAlone(name);
    var start := pre + quoted;
    assert start[|start| - 1] == '\"';
    OutAppend(start, post, Sql);
  }
}

/** Detection of row-changing statements. */
module WriteDetector {
  import opened Outcomes
  import opened AsciiCase
  import opened SqlTokens

  datatype State = Statement | CteHeader | CteBody | AfterCte

  // ----- The token automaton -----

  /** Either the answer, or the state and the parenthesis depth after one token. */
  datatype Move = Decide(write: bool) | Go(state: State, depth: int)

  predicate IsWriteVerb(t: Token) {
    t.kind == Dml && (var verb := Upper(t.value);
      verb == "INSERT" || verb == "UPDATE" || verb == "DELETE" || verb == "REPLACE")
  }

  predicate IsWith(t: Token) {
    InKeyword(t.kind) && Upper(t.value) == "WITH"
  }

  predicate IsAs(t: Token) {
    InKeyword(t.kind) && Upper(t.value) == "AS"
  }

  /** A token that is neither whitespace nor a comment. */
  function Step(t: Token, st: State, depth: int): Move {
    if st == AfterCte && IsPunctuation(t, ",") then Go(CteHeader, depth)
    else if st == AfterCte || st == Statement then
      if t.value == ";" then Go(Statement, depth)
      else if IsWith(t) then Go(CteHeader, depth)
      else Decide(IsWriteVerb(t))
    else
      var st' := if st == CteHeader && depth == 0 && IsAs(t) then CteBody else st;
      if IsPunctuation(t, "(") then Go(st', depth + 1)
      else if IsPunctuation(t, ")") then
        Go(if st' == CteBody && depth == 1 then AfterCte else st', depth - 1)
      else Go(st', depth)
  }

  function Scan(tokens: seq<Token>, st: State, depth: int): bool {
    if tokens == [] then false
    else if IsNoise(tokens[0]) then Scan(tokens[1..], st, depth)
    else
      var m := Step(tokens[0], st, depth);
      if m.Decide? then m.write else Scan(tokens[1..], m.state, m.depth)
  }

  /** The answer for a whole query. */
  function IsWrite(tokens: seq<Token>): bool {
    Scan(tokens, Statement, 0)
  }

  /** `_is_write_statement` on the classified tokens of the query. */
  method IsWriteStatement(tokens: seq<Token>) returns (write: bool)
    ensures write == IsWrite(tokens)
  {
    var depth: int := 0;
    var state := Statement;
    var i := 0;
    while i < |tokens|
      invariant 0 <= i <= |tokens|
      invariant Scan(tokens, Statement, 0) == Scan(tokens[i..], state, depth)
    {
      var token := tokens[i];
      assert tokens[i..][1..] == tokens[i + 1..];
      i := i + 1;
      if IsNoise(token) {
        continue;
      }
      if state == AfterCte {
        if IsPunctuation(token, ",") {
          state := CteHeader;
          continue;
        }
        state := Statement;
      }
      if state == Statement {
        if token.value == ";" {
          continue;
        }
        if IsWith(token) {
          state := CteHeader;
          continue;
        }
        return IsWriteVerb(token);
      }
      if state == CteHeader && depth == 0 && IsAs(token) {
        state := CteBody;
      }
      if IsPunctuation(token, "(") {
        depth := depth + 1;
      } else if IsPunctuation(token, ")") {
        depth := depth - 1;
        if state == CteBody && depth == 0 {
          state := AfterCte;
        }
      }
    }
    write := false;
  }

  // ----- Statements -----

  /** `name [(columns)] AS [hint] (body)`. Column list and body are balanced to any depth. */
  datatype CommonTable = CommonTable(
    name: seq<Token>, columns: Option<seq<Item>>, asWord: Token, hint: seq<Token>, body: seq<Item>)

  /** Leading semicolons, common table expressions, stray semicolons, and a main verb with its remaining tokens. */
  datatype Ast = Ast(
    semicolons: nat, withWord: Token, tables: seq<CommonTable>, stray: nat, main: Option<Token>, tail: seq<Token>)

  /** The token is the given keyword, in any spelling. */
  predicate IsWord(t: Token, word: string) {
    t.kind in {Keyword, Dml, Cte, OtherKeyword} && SameUpToCase(t.value, word)
  }

  /** The verb changes rows. */
  predicate ChangesRows(t: Token) {
    && t.kind == Dml
    && (SameUpToCase(t.value, "INSERT") || SameUpToCase(t.value, "UPDATE")
        || SameUpToCase(t.value, "DELETE") || SameUpToCase(t.value, "REPLACE"))
  }

  predicate GoodTable(c: CommonTable) {
    && (forall k :: 0 <= k < |c.name| ==> !IsParen(c.name[k]) && !IsWord(c.name[k], "AS"))
    && (c.columns.Some? ==> GoodItems(c.columns.value))
    && IsWord(c.asWord, "AS")
    && (forall k :: 0 <= k < |c.hint| ==> !IsParen(c.hint[k]))
    && GoodItems(c.body)
  }

  /** A first word of a statement: no WITH, no separator, no whitespace and no comment. */
  predicate GoodMain(t: Token) {
    !IsWord(t, "WITH") && t.value != ";" && t.value != "," && t.kind != Whitespace && t.kind != Comment
  }

  predicate GoodAst(a: Ast) {
    && IsWord(a.withWord, "WITH")
    && (forall k :: 0 <= k < |a.tables| ==> GoodTable(a.tables[k]))
    && (a.main.Some? ==> GoodMain(a.main.value))
    && (a.main.None? ==> a.tail == [])
  }

  function PrintTable(c: CommonTable): seq<Token> {
    c.name + (if c.columns.Some? then InParens(c.columns.value) else []) + [c.asWord] + c.hint + InParens(c.body)
  }

  function PrintTables(cs: seq<CommonTable>): seq<Token>
    requires cs != []
  {
    if |cs| == 1 then PrintTable(cs[0]) else PrintTable(cs[0]) + [COMMA] + PrintTables(cs[1..])
  }

  function PrintSemicolons(n: nat): seq<Token> {
    if n == 0 then [] else [Token(Punctuation, ";")] + PrintSemicolons(n - 1)
  }

  function PrintMain(a: Ast): seq<Token> {
    PrintSemicolons(a.stray) + ((if a.main.Some? then [a.main.value] else []) + a.tail)
  }

  function Print(a: Ast): seq<Token> {
    PrintSemicolons(a.semicolons)
    + (if a.tables == [] then [] else [a.withWord] + PrintTables(a.tables))
    + PrintMain(a)
  }

  // ----- Laws -----

  /** Whitespace and comments never matter. */
  lemma {:induction false} NoiseIsIgnored(tokens: seq<Token>, st: State, depth: int)
    ensures Scan(tokens, st, depth) == Scan(WithoutNoise(tokens), st, depth)
  {
    if tokens != [] {
      var rest := WithoutNoise(tokens[1..]);
      if IsNoise(tokens[0]) {
        NoiseIsIgnored(tokens[1..], st, depth);
        assert WithoutNoise(tokens) == rest;
      } else {
        assert WithoutNoise(tokens)[1..] == rest;
        var m := Step(tokens[0], st, depth);
        if m.Go? {
          NoiseIsIgnored(tokens[1..], m.state, m.depth);
        }
      }
    }
  }

  lemma ScanOne(t: Token, rest: seq<Token>, st: State, depth: int)
    ensures IsNoise(t) ==> Scan([t] + rest, st, depth) == Scan(rest, st, depth)
    ensures !IsNoise(t) ==>
      var m := Step(t, st, depth);
      Scan([t] + rest, st, depth) == (if m.Decide? then m.write else Scan(rest, m.state, m.depth))
  {
    assert ([t] + rest)[1..] == rest;
  }

  lemma OpenDeepens(rest: seq<Token>, st: State, depth: int)
    requires st == CteHeader || st == CteBody
    ensures Scan([OPEN] + rest, st, depth) == Scan(rest, st, depth + 1)
  {
    ScanOne(OPEN, rest, st, depth);
  }

  lemma CloseReturns(rest: seq<Token>, st: State, depth: int)
    requires st == CteHeader || st == CteBody
    ensures Scan([CLOSE] + rest, st, depth) ==
        Scan(rest, if st == CteBody && depth == 1 then AfterCte else st, depth - 1)
  {
    ScanOne(CLOSE, rest, st, depth);
  }

  lemma WordIsSkipped(t: Token, rest: seq<Token>, st: State, depth: int)
    requires st == CteHeader || st == CteBody
    requires !IsParen(t) && (st == CteHeader && depth == 0 ==> !IsAs(t))
    ensures Scan([t] + rest, st, depth) == Scan(rest, st, depth)
  {
    ScanOne(t, rest, st, depth);
  }

  /** A balanced list inside at least one parenthesis leaves the automaton where it was. */
  lemma {:induction false} ItemsAreSkipped(items: seq<Item>, rest: seq<Token>, st: State, depth: int)
    requires GoodItems(items) && depth >= 1 && (st == CteHeader || st == CteBody)
    ensures Scan(PrintItems(items) + rest, st, depth) == Scan(rest, st, depth)
    decreases items, |items|
  {
    hide Scan;
    if items == [] {
      assert PrintItems(items) + rest == rest;
    } else {
      var later := PrintItems(items[1..]) + rest;
      assert PrintItems(items) + rest == PrintItem(items[0]) + later;
      match items[0] {
        case Leaf(t) => WordIsSkipped(t, later, st, depth);
        case Group(inner) =>
          assert PrintItem(items[0]) + later == [OPEN] + (PrintItems(inner) + ([CLOSE] + later));
          OpenDeepens(PrintItems(inner) + ([CLOSE] + later), st, depth);
          ItemsAreSkipped(inner, [CLOSE] + later, st, depth + 1);
          CloseReturns(later, st, depth + 1);
      }
      ItemsAreSkipped(items[1..], rest, st, depth);
    }
  }

  /** A parenthesised group at depth 0 ends the body of a common table and nothing else. */
  lemma GroupIsSkipped(items: seq<Item>, rest: seq<Token>, st: State)
    requires GoodItems(items) && (st == CteHeader || st == CteBody)
    ensures Scan(InParens(items) + rest, st, 0) == Scan(rest, if st == CteBody then AfterCte else st, 0)
  {
    hide Scan;
    assert InParens(items) + rest == [OPEN] + (PrintItems(items) + ([CLOSE] + rest));
    OpenDeepens(PrintItems(items) + ([CLOSE] + rest), st, 0);
    ItemsAreSkipped(items, [CLOSE] + rest, st, 1);
    CloseReturns(rest, st, 1);
  }

  lemma {:induction false} WordsAreSkipped(words: seq<Token>, rest: seq<Token>, st: State)
    requires st == CteHeader || st == CteBody
    requires forall k :: 0 <= k < |words| ==> !IsParen(words[k]) && (st == CteHeader ==> !IsAs(words[k]))
    ensures Scan(words + rest, st, 0) == Scan(rest, st, 0)
  {
    if words == [] {
      assert words + rest == rest;
    } else {
      assert words + rest == [words[0]] + (words[1..] + rest);
      WordIsSkipped(words[0], words[1..] + rest, st, 0);
      WordsAreSkipped(words[1..], rest, st);
    }
  }

  lemma AsOpensBody(t: Token, rest: seq<Token>)
    requires IsAs(t)
    ensures Scan([t] + rest, CteHeader, 0) == Scan(rest, CteBody, 0)
  {
    ScanOne(t, rest, CteHeader, 0);
  }

  lemma WithOpensHeader(t: Token, rest: seq<Token>)
    requires IsWith(t)
    ensures Scan([t] + rest, Statement, 0) == Scan(rest, CteHeader, 0)
  {
    ScanOne(t, rest, Statement, 0);
    assert Upper(";") == ";";
  }

  lemma TableIsSkipped(c: CommonTable, rest: seq<Token>)
    requires GoodTable(c)
    ensures Scan(PrintTable(c) + rest, CteHeader, 0) == Scan(rest, AfterCte, 0)
  {
    hide Scan, InParens, IsAs, IsWith, IsWriteVerb, IsWord, ChangesRows;
    forall t ensures IsAs(t) <==> IsWord(t, "AS") {
      WordsAreKnown(t);
    }
    var fromBody := InParens(c.body) + rest;
    var fromAs := [c.asWord] + (c.hint + fromBody);
    var columns := if c.columns.Some? then InParens(c.columns.value) else [];
    assert PrintTable(c) + rest == c.name + (columns + fromAs);
    WordsAreSkipped(c.name, columns + fromAs, CteHeader);
    if c.columns.Some? {
      GroupIsSkipped(c.columns.value, fromAs, CteHeader);
    } else {
      assert columns + fromAs == fromAs;
    }
    AsOpensBody(c.asWord, c.hint + fromBody);
    WordsAreSkipped(c.hint, fromBody, CteBody);
    GroupIsSkipped(c.body, rest, CteBody);
  }

  lemma {:induction false} TablesAreSkipped(cs: seq<CommonTable>, rest: seq<Token>)
    requires cs != [] && forall k :: 0 <= k < |cs| ==> GoodTable(cs[k])
    ensures Scan(PrintTables(cs) + rest, CteHeader, 0) == Scan(rest, AfterCte, 0)
  {
    hide Scan, PrintTable;
    if |cs| == 1 {
      TableIsSkipped(cs[0], rest);
    } else {
      var later := PrintTables(cs[1..]) + rest;
      assert PrintTables(cs) + rest == PrintTable(cs[0]) + ([COMMA] + later);
      TableIsSkipped(cs[0], [COMMA] + later);
      ScanOne(COMMA, later, AfterCte, 0);
      TablesAreSkipped(cs[1..], rest);
    }
  }

  lemma {:induction false} SemicolonsAreSkipped(n: nat, rest: seq<Token>)
    ensures Scan(PrintSemicolons(n) + rest, Statement, 0) == Scan(rest, Statement, 0)
  {
    if n == 0 {
      assert PrintSemicolons(n) + rest == rest;
    } else {
      var later := PrintSemicolons(n - 1) + rest;
      assert PrintSemicolons(n) + rest == [Token(Punctuation, ";")] + later;
      ScanOne(Token(Punctuation, ";"), later, Statement, 0);
      SemicolonsAreSkipped(n - 1, rest);
    }
  }

  /** The automaton knows the words that the grammar uses, and the four verbs. */
  lemma WordsAreKnown(t: Token)
    ensures IsAs(t) <==> IsWord(t, "AS")
    ensures IsWith(t) <==> IsWord(t, "WITH")
    ensures IsWriteVerb(t) <==> ChangesRows(t)
  {
    MatchesEverySpelling(t.value, "AS");
    MatchesEverySpelling(t.value, "WITH");
    MatchesEverySpelling(t.value, "INSERT");
    MatchesEverySpelling(t.value, "UPDATE");
    MatchesEverySpelling(t.value, "DELETE");
    MatchesEverySpelling(t.value, "REPLACE");
  }

  lemma MainDecides(a: Ast, st: State)
    requires GoodAst(a) && (st == Statement || st == AfterCte)
    ensures Scan(PrintMain(a), st, 0) == (a.main.Some? && ChangesRows(a.main.value))
  {
    var rest := (if a.main.Some? then [a.main.value] else []) + a.tail;
    hide Scan;
    VerbDecides(a, st);
    VerbDecides(a, Statement);
    if a.stray == 0 {
      assert PrintMain(a) == rest;
    } else {
      var later := PrintSemicolons(a.stray - 1) + rest;
      assert PrintMain(a) == [Token(Punctuation, ";")] + later;
      ScanOne(Token(Punctuation, ";"), later, st, 0);
      SemicolonsAreSkipped(a.stray - 1, rest);
    }
  }

  lemma VerbDecides(a: Ast, st: State)
    requires GoodAst(a) && (st == Statement || st == AfterCte)
    ensures Scan((if a.main.Some? then [a.main.value] else []) + a.tail, st, 0) ==
        (a.main.Some? && ChangesRows(a.main.value))
  {
    if a.main.Some? {
      WordsAreKnown(a.main.value);
      hide IsWith, IsWriteVerb, IsWord, ChangesRows;
      ScanOne(a.main.value, a.tail, st, 0);
    }
  }

  /** The detector answers yes exactly when the main verb changes rows, for every list of common table
      expressions and wherever whitespace and comments stand. */
  lemma DetectsExactlyTheMainVerb(a: Ast, tokens: seq<Token>)
    requires GoodAst(a) && WithoutNoise(tokens) == WithoutNoise(Print(a))
    ensures IsWrite(tokens) <==>
        && a.main.Some? && a.main.value.kind == Dml
        && exists verb :: verb in {"INSERT", "UPDATE", "DELETE", "REPLACE"} && SameUpToCase(a.main.value.value, verb)
  {
    assert IsWrite(tokens) <==> a.main.Some? && ChangesRows(a.main.value) by {
      MainVerbDecides(a, tokens);
    }
    if a.main.Some? && ChangesRows(a.main.value) {
      var v := a.main.value.value;
      assert SameUpToCase(v, "INSERT") || SameUpToCase(v, "UPDATE") || SameUpToCase(v, "DELETE")
          || SameUpToCase(v, "REPLACE");
      hide SameUpToCase;
    }
  }

  lemma MainVerbDecides(a: Ast, tokens: seq<Token>)
    requires GoodAst(a) && WithoutNoise(tokens) == WithoutNoise(Print(a))
    ensures IsWrite(tokens) <==> a.main.Some? && ChangesRows(a.main.value)
  {
    hide Scan, PrintTables, PrintSemicolons, WithoutNoise, IsWord, ChangesRows;
    NoiseIsIgnored(tokens, Statement, 0);
    NoiseIsIgnored(Print(a), Statement, 0);
    var main := PrintMain(a);
    var body := (if a.tables == [] then [] else [a.withWord] + PrintTables(a.tables)) + main;
    assert Print(a) == PrintSemicolons(a.semicolons) + body;
    SemicolonsAreSkipped(a.semicolons, body);
    if a.tables == [] {
      assert body == main;
      MainDecides(a, Statement);
    } else {
      assert body == [a.withWord] + (PrintTables(a.tables) + main);
      WordsAreKnown(a.withWord);
      WithOpensHeader(a.withWord, PrintTables(a.tables) + main);
      TablesAreSkipped(a.tables, main);
      MainDecides(a, AfterCte);
    }
  }
}

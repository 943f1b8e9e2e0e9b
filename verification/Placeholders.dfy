/** Translation of Django placeholders (`%s`, `%(name)s`, `%%`) into driver placeholders. */
module Placeholders {
  import opened Outcomes
  import opened SqlText

  datatype QueryBindings = QueryBindings(
    query: string, positionalCount: nat, requiredNames: set<string>, nativeBindings: bool)

  // ----- Specification: the query as a sequence of tokens -----

  /** `Copy` is text that keeps or changes the lexer state, `Plain` one ordinary character of plain
      text, and `Raw` a malformed `%(` that is passed through. */
  datatype Token =
    | Copy(text: string)
    | Plain(c: char)
    | Raw(text: string)
    | Percent
    | Positional
    | Named(name: string)
  {
    /** The characters of the query that the token stands for. */
    function Source(): string {
      match this
      case Copy(text) => text
      case Plain(c) => [c]
      case Raw(text) => text
      case Percent => "%%"
      case Positional => "%s"
      case Named(name) => "%(" + name + ")s"
    }

    /** The characters the driver receives. */
    function Rendered(): string {
      match this
      case Copy(text) => text
      case Plain(c) => [c]
      case Raw(text) => text
      case Percent => "%"
      case Positional => "?"
      case Named(name) => ":" + name
    }
  }

  predicate IsNative(c: char) {
    c == '?' || c == ':' || c == '@' || c == '$'
  }

  /** The end of a `%(` candidate: the next `)`, the next `%(`, or the end of the text. */
  function PlaceholderEnd(q: string, from: nat): (end: nat)
    requires from <= |q|
    ensures from <= end <= |q|
    ensures end < |q| ==> q[end] == ')' || Starts(q[end..], '%', '(')
    ensures forall k :: from <= k < end ==> q[k] != ')' && !Starts(q[k..], '%', '(')
    decreases |q| - from
  {
    if from == |q| || q[from] == ')' || Starts(q[from..], '%', '(') then from
    else PlaceholderEnd(q, from + 1)
  }

  datatype Lexeme = Lexeme(st: State, token: Token)

  /** A token, how many characters of the query it takes, and the state after it. */
  datatype Read = Read(token: Token, width: nat, next: State)

  function ReadNamedToken(q: string): (r: Read)
    requires Starts(q, '%', '(')
    ensures 1 <= r.width <= |q|
  {
    var end := PlaceholderEnd(q, 2);
    if end == |q| then Read(Raw(q), end, Sql)
    else if Starts(q[end..], '%', '(') then Read(Raw(q[..end]), end, Sql)
    else if end + 1 < |q| && q[end + 1] == 's' then Read(Named(q[2..end]), end + 2, Sql)
    else Read(Raw(q[..end + 1]), end + 1, Sql)
  }

  /** The first token of `q`. `named` selects mapping parameters over a parameter sequence. */
  function Next(q: string, st: State, named: bool): (r: Read)
    requires q != []
    ensures 1 <= r.width <= |q|
  {
    var m := Advance(q, st);
    if (st == Sql || st == Literal) && Starts(q, '%', '%') then Read(Percent, 2, st)
    else if st != Sql then Read(Copy(q[..m.width]), m.width, m.next)
    else if !named && Starts(q, '%', 's') then Read(Positional, 2, Sql)
    else if named && Starts(q, '%', '(') then ReadNamedToken(q)
    else if m.next == Sql then Read(Plain(q[0]), 1, Sql)
    else Read(Copy(q[..m.width]), m.width, m.next)
  }

  function Lex(q: string, st: State, named: bool): (ls: seq<Lexeme>)
    decreases |q|
  {
    if q == [] then []
    else
      var r := Next(q, st, named);
      [Lexeme(st, r.token)] + Lex(q[r.width..], r.next, named)
  }

  function Render(ls: seq<Lexeme>): string {
    if ls == [] then "" else ls[0].token.Rendered() + Render(ls[1..])
  }

  function Sources(ls: seq<Lexeme>): string {
    if ls == [] then "" else ls[0].token.Source() + Sources(ls[1..])
  }

  function Positionals(ls: seq<Lexeme>): nat {
    if ls == [] then 0 else (if ls[0].token.Positional? then 1 else 0) + Positionals(ls[1..])
  }

  function Names(ls: seq<Lexeme>): set<string> {
    if ls == [] then {}
    else (if ls[0].token.Named? then {ls[0].token.name} else {}) + Names(ls[1..])
  }

  function HasNative(ls: seq<Lexeme>): bool {
    exists k :: 0 <= k < |ls| && ls[k].token.Plain? && IsNative(ls[k].token.c)
  }

  /** The first required name that the supplied mapping lacks. */
  function FirstUnknown(ls: seq<Lexeme>, names: set<string>): Option<string> {
    if ls == [] then None
    else if ls[0].token.Named? && ls[0].token.name !in names then Some(ls[0].token.name)
    else FirstUnknown(ls[1..], names)
  }

  /** The keys of a parameter mapping, or `None` for a parameter sequence. */
  type ParamNames = Option<set<string>>

  function Known(names: ParamNames): set<string> {
    if names.Some? then names.value else {}
  }

  /** The translation of `query`; the error is the name of the missing key. */
  function Translation(query: string, names: ParamNames): Result<QueryBindings, string> {
    var ls := Lex(query, Sql, names.Some?);
    var unknown := FirstUnknown(ls, Known(names));
    if unknown.Some? then Err(unknown.value)
    else Ok(QueryBindings(Render(ls), Positionals(ls), Names(ls), HasNative(ls)))
  }

  // ----- The translator -----

  predicate At(query: string, index: nat, c: char) {
    index < |query| && query[index] == c
  }

  /** The scan that looks for the end of a `%(` candidate. */
  method FindPlaceholderEnd(query: string, index: nat) returns (end: nat)
    requires At(query, index, '%') && At(query, index + 1, '(')
    ensures index + 2 <= end <= |query|
    ensures end - index == PlaceholderEnd(query[index..], 2)
    ensures forall k :: index + 2 <= k < end ==> query[k] != ')' && !(query[k] == '%' && At(query, k + 1, '('))
  {
    end := index + 2;
    while end < |query| && query[end] != ')'
      invariant index + 2 <= end <= |query|
      invariant PlaceholderEnd(query[index..], end - index) == PlaceholderEnd(query[index..], 2)
      invariant forall k :: index + 2 <= k < end ==> query[k] != ')' && !(query[k] == '%' && At(query, k + 1, '('))
    {
      assert query[index..][end - index..] == query[end..];
      if query[end] == '%' && At(query, end + 1, '(') {
        break;
      }
      end := end + 1;
    }
  }

  /** One token inside a comment, a quoted identifier or a string literal. */
  method ReadQuoted(query: string, index: nat, state: State) returns (r: Read)
    requires index < |query| && state != Sql
    ensures r == Next(query[index..], state, true) == Next(query[index..], state, false)
  {
    var character := query[index];
    var text, next := [character], state;
    match state {
      case LineComment =>
        if character == '\r' || character == '\n' {
          next := Sql;
        }
      case BlockComment =>
        if character == '*' && At(query, index + 1, '/') {
          text, next := "*/", Sql;
        }
      case Identifier(close) =>
        if character == close {
          if close != ']' && At(query, index + 1, close) {
            text := [close, close];
          } else {
            next := Sql;
          }
        }
      case Literal =>
        if character == '\'' && At(query, index + 1, '\'') {
          text := "''";
        } else if character == '\'' {
          next := Sql;
        } else if character == '%' && At(query, index + 1, '%') {
          return Read(Percent, 2, Literal);
        }
    }
    r := Read(Copy(text), |text|, next);
    assert query[index..][..1] == [character];
    assert |text| == 2 ==> query[index..][..2] == text;
  }

  /** A candidate named placeholder in plain text. */
  method ReadNamed(query: string, index: nat) returns (r: Read)
    requires At(query, index, '%') && At(query, index + 1, '(')
    ensures r == ReadNamedToken(query[index..])
    // malformed text ends with the first parenthesis or before the next candidate
    ensures r.token.Raw? ==>
      && r.token.text == query[index..index + r.width]
      && (forall k :: index <= k < index + r.width - 1 ==> query[k] != ')')
      && (forall k :: index < k < index + r.width ==> !(query[k] == '%' && At(query, k + 1, '(')))
  {
    var end := FindPlaceholderEnd(query, index);
    ghost var tail := query[index..];
    assert tail[end - index..] == query[end..];
    if end == |query| {
      r := Read(Raw(query[index..]), end - index, Sql);
    } else if query[end] == '%' && At(query, end + 1, '(') {
      r := Read(Raw(query[index..end]), end - index, Sql);
      assert tail[..end - index] == query[index..end];
    } else if !At(query, end + 1, 's') {
      r := Read(Raw(query[index..end + 1]), end - index + 1, Sql);
      assert tail[..end - index + 1] == query[index..end + 1];
    } else {
      r := Read(Named(query[index + 2..end]), end - index + 2, Sql);
      assert tail[2..end - index] == query[index + 2..end];
    }
  }

  /** One token in plain text. */
  method ReadPlain(query: string, index: nat, named: bool) returns (r: Read)
    requires index < |query|
    ensures r == Next(query[index..], Sql, named)
  {
    var character := query[index];
    if character == '-' && At(query, index + 1, '-') {
      r := Read(Copy("--"), 2, LineComment);
    } else if character == '/' && At(query, index + 1, '*') {
      r := Read(Copy("/*"), 2, BlockComment);
    } else if character == '\'' {
      r := Read(Copy([character]), 1, Literal);
    } else if OpensIdentifier(character) {
      r := Read(Copy([character]), 1, Identifier(ClosingQuote(character)));
    } else if character == '%' && At(query, index + 1, '%') {
      r := Read(Percent, 2, Sql);
    } else if !named && character == '%' && At(query, index + 1, 's') {
      r := Read(Positional, 2, Sql);
    } else if named && character == '%' && At(query, index + 1, '(') {
      r := ReadNamed(query, index);
    } else {
      r := Read(Plain(character), 1, Sql);
    }
    assert query[index..][..1] == [character];
    assert r.token.Copy? && |r.token.text| == 2 ==> query[index..][..2] == r.token.text;
  }

  /** What one more token adds to the bindings collected so far. */
  function Collect(b: QueryBindings, t: Token): QueryBindings {
    QueryBindings(
      b.query + t.Rendered(),
      b.positionalCount + (if t.Positional? then 1 else 0),
      b.requiredNames + (if t.Named? then {t.name} else {}),
      b.nativeBindings || (t.Plain? && IsNative(t.c)))
  }

  /** `b` collects everything in `all` up to `rest`, and no name was missing so far. */
  ghost predicate Collected(all: seq<Lexeme>, b: QueryBindings, rest: seq<Lexeme>, known: set<string>) {
    && Render(all) == b.query + Render(rest)
    && Positionals(all) == b.positionalCount + Positionals(rest)
    && Names(all) == b.requiredNames + Names(rest)
    && HasNative(all) == (b.nativeBindings || HasNative(rest))
    && FirstUnknown(all, known) == FirstUnknown(rest, known)
  }

  lemma CollectOne(all: seq<Lexeme>, b: QueryBindings, rest: seq<Lexeme>, known: set<string>)
    requires rest != [] && Collected(all, b, rest, known)
    requires rest[0].token.Named? ==> rest[0].token.name in known
    ensures Collected(all, Collect(b, rest[0].token), rest[1..], known)
  {
    var t, later := rest[0].token, rest[1..];
    assert rest == [rest[0]] + later;
    assert b.query + (t.Rendered() + Render(later)) == (b.query + t.Rendered()) + Render(later);
    assert HasNative(rest) == ((t.Plain? && IsNative(t.c)) || HasNative(later)) by {
      assert forall k :: 0 <= k < |later| ==> later[k] == rest[k + 1];
      if HasNative(later) {
        var k :| 0 <= k < |later| && later[k].token.Plain? && IsNative(later[k].token.c);
        assert rest[k + 1] == later[k];
      }
    }
  }

  /** The translation loop. It ends on every query, malformed `%(` included: each round consumes the
      source text of one token, which is never empty. */
  method ConvertPlaceholders(query: string, paramNames: ParamNames)
    returns (r: Result<QueryBindings, string>)
    ensures r == Translation(query, paramNames)
  {
    var named := paramNames.Some?;
    var converted := "";
    var positionalCount := 0;
    var requiredNames: set<string> := {};
    var nativeBindings := false;
    var index := 0;
    var state := Sql;
    ghost var all := Lex(query, Sql, named);
    assert query[0..] == query;
    while index < |query|
      invariant 0 <= index <= |query|
      invariant Collected(all, QueryBindings(converted, positionalCount, requiredNames, nativeBindings),
                          Lex(query[index..], state, named), Known(paramNames))
      decreases |query| - index
    {
      ghost var tail := query[index..];
      ghost var rest := Lex(tail, state, named);
      var r: Read;
      if state != Sql {
        r := ReadQuoted(query, index, state);
      } else {
        r := ReadPlain(query, index, named);
      }
      assert rest[0].token == r.token;
      if r.token.Named? && r.token.name !in paramNames.value {
        return Err(r.token.name);
      }
      ghost var before := QueryBindings(converted, positionalCount, requiredNames, nativeBindings);
      CollectOne(all, before, rest, Known(paramNames));
      requiredNames := requiredNames + (if r.token.Named? then {r.token.name} else {});
      positionalCount := positionalCount + (if r.token.Positional? then 1 else 0);
      nativeBindings := nativeBindings || (r.token.Plain? && IsNative(r.token.c));
      converted := converted + r.token.Rendered();
      index := index + r.width;
      state := r.next;
      assert QueryBindings(converted, positionalCount, requiredNames, nativeBindings) == Collect(before, r.token);
      assert Lex(query[index..], state, named) == rest[1..] by {
        assert tail[r.width..] == query[index..];
      }
    }
    assert query[index..] == [];
    r := Ok(QueryBindings(converted, positionalCount, requiredNames, nativeBindings));
    assert requiredNames + {} == requiredNames && converted + "" == converted;
  }
}

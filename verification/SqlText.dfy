/** The lexical regions of SQL text: plain text, string literals, quoted identifiers and the
    two comment forms. This lexer knows nothing about placeholders. */
module SqlText {

  datatype State = Sql | Literal | Identifier(close: char) | LineComment | BlockComment

  datatype Region = Region(kind: State, text: string)

  predicate Starts(q: string, first: char, second: char) {
    |q| >= 2 && q[0] == first && q[1] == second
  }

  predicate OpensIdentifier(c: char) {
    c == '\"' || c == '`' || c == '['
  }

  function ClosingQuote(c: char): char {
    if c == '[' then ']' else c
  }

  datatype Move = Move(width: nat, next: State)

  /** One move of the lexer at the head of `q`: how many characters it takes and where it goes. */
  function Advance(q: string, st: State): (m: Move)
    requires q != []
    ensures 1 <= m.width <= |q|
  {
    match st
    case LineComment => Move(1, if q[0] == '\r' || q[0] == '\n' then Sql else st)
    case BlockComment => if Starts(q, '*', '/') then Move(2, Sql) else Move(1, st)
    case Identifier(close) =>
      if q[0] != close then Move(1, st)
      else if close != ']' && Starts(q, close, close) then Move(2, st)
      else Move(1, Sql)
    case Literal =>
      if Starts(q, '\'', '\'') then Move(2, st)
      else if q[0] == '\'' then Move(1, Sql)
      else Move(1, st)
    case Sql =>
      if Starts(q, '-', '-') then Move(2, LineComment)
      else if Starts(q, '/', '*') then Move(2, BlockComment)
      else if q[0] == '\'' then Move(1, Literal)
      else if OpensIdentifier(q[0]) then Move(1, Identifier(ClosingQuote(q[0])))
      else Move(1, Sql)
  }

  /** Prepend text to the first region. */
  function Extend(text: string, rs: seq<Region>): seq<Region>
    requires rs != []
  {
    [Region(rs[0].kind, text + rs[0].text)] + rs[1..]
  }

  /** The regions of `q` when the lexer is already inside a region of kind `st`. A delimiter belongs
      to the literal, identifier or comment that it opens or closes. */
  function Regions(q: string, st: State): (rs: seq<Region>)
    ensures rs != [] && rs[0].kind == st
  {
    if q == [] then [Region(st, "")]
    else
      var m := Advance(q, st);
      var rest := Regions(q[m.width..], m.next);
      if m.next == st then Extend(q[..m.width], rest)
      else if st == Sql then [Region(Sql, "")] + Extend(q[..m.width], rest)
      else [Region(st, q[..m.width])] + rest
  }

  function Count(s: string, c: char): nat {
    if s == [] then 0 else (if s[0] == c then 1 else 0) + Count(s[1..], c)
  }

  /** How often `c` stands in plain text, outside every literal, identifier and comment. */
  function PlainCount(rs: seq<Region>, c: char): nat {
    if rs == [] then 0
    else (if rs[0].kind == Sql then Count(rs[0].text, c) else 0) + PlainCount(rs[1..], c)
  }

  lemma {:induction false} CountAppend(a: string, b: string, c: char)
    ensures Count(a + b, c) == Count(a, c) + Count(b, c)
  {
    if a == "" {
      assert a + b == b;
    } else {
      assert (a + b)[1..] == a[1..] + b;
      CountAppend(a[1..], b, c);
    }
  }

  /** One lexer move contributes its own characters, and only when it stays in plain text. */
  lemma PlainCountStep(q: string, st: State, c: char)
    requires q != ""
    ensures var m := Advance(q, st);
      PlainCount(Regions(q, st), c) ==
        (if st == Sql && m.next == Sql then Count(q[..m.width], c) else 0)
        + PlainCount(Regions(q[m.width..], m.next), c)
  {
    var m := Advance(q, st);
    var lead, rest := q[..m.width], Regions(q[m.width..], m.next);
    CountAppend(lead, rest[0].text, c);
    var inside := Extend(lead, rest);
    assert inside[1..] == rest[1..];
    assert ([Region(Sql, "")] + inside)[1..] == inside;
    assert ([Region(st, lead)] + rest)[1..] == rest;
  }
}

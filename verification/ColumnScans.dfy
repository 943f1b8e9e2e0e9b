/** Two scans over the tokens of a CREATE TABLE statement, for collations and for sizes. */
module ColumnScans {
  import opened Outcomes
  import opened Quoting
  import opened SqlTokens
  import opened TokenDepth
  import opened ConstraintParser

  predicate StartsConstraint(t: Token) {
    t.kind == Keyword && Upper(t.value) in
      {"CHECK", "CONSTRAINT", "FOREIGN", "FOREIGN KEY", "PRIMARY", "PRIMARY KEY", "UNIQUE"}
  }

  // ----- Collations -----

  type Collations = map<string, Option<string>>

  datatype Flags = Flags(depth: nat, start: bool, column: Option<string>, needs: bool, found: Collations)

  function Noted(f: Flags, t: Token): Flags
    requires !(IsPunctuation(t, ")") && f.depth == 0)
  {
    if IsPunctuation(t, "(") then f.(depth := f.depth + 1)
    else if IsPunctuation(t, ")") then f.(depth := f.depth - 1)
    else if f.depth > 0 then f
    else if IsPunctuation(t, ",") then f.(start := true, column := None, needs := false)
    else if f.start then
      if StartsConstraint(t) then f.(start := false)
      else f.(start := false, column := Some(Unquoted(t)), found := f.found[Unquoted(t) := None])
    else if f.column.None? then f
    else if f.needs then f.(needs := false, found := f.found[f.column.value := Some(Unquoted(t))])
    else if IsKeyword(t, "COLLATE") then f.(needs := true)
    else f
  }

  function Collated(f: Flags, tokens: seq<Token>): Collations
    decreases tokens
  {
    if tokens == [] || (IsPunctuation(tokens[0], ")") && f.depth == 0) then f.found
    else Collated(Noted(f, tokens[0]), tokens[1..])
  }

  const FRESH := Flags(0, true, None, false, map[])

  /** What follows the first opening parenthesis; nothing if there is none. */
  function Body(tokens: seq<Token>): seq<Token> {
    var body := AfterOpen(WithoutNoise(tokens));
    if body.None? then [] else body.value
  }

  function ColumnCollations(tokens: seq<Token>): Collations {
    Collated(FRESH, Body(tokens))
  }

  method SkipHead(tokens: seq<Token>) returns (next: nat)
    ensures next <= |tokens|
    ensures tokens[next..] == var body := AfterOpen(tokens); if body.None? then [] else body.value
  {
    next := 0;
    while next < |tokens|
      invariant 0 <= next <= |tokens|
      invariant AfterOpen(tokens) == AfterOpen(tokens[next..])
    {
      next := next + 1;
      if IsPunctuation(tokens[next - 1], "(") {
        return;
      }
    }
  }

  /** The flags of the scan, one token further. */
  method NoteToken(f: Flags, token: Token) returns (g: Flags)
    requires !(IsPunctuation(token, ")") && f.depth == 0)
    ensures g == Noted(f, token)
  {
    hide UnquoteIdentifier, Upper;
    g := f;
    if IsPunctuation(token, "(") {
      g := g.(depth := g.depth + 1);
    } else if IsPunctuation(token, ")") {
      g := g.(depth := g.depth - 1);
    } else if g.depth == 0 && IsPunctuation(token, ",") {
      g := g.(start := true, column := None, needs := false);
    } else if g.depth == 0 {
      if g.start {
        g := g.(start := false);
        if !StartsConstraint(token) {
          var name := UnquoteIdentifier(token.value);
          g := g.(column := Some(name), found := g.found[name := None]);
        }
      } else if g.column.Some? {
        if g.needs {
          g := g.(found := g.found[g.column.value := Some(UnquoteIdentifier(token.value))], needs := false);
        } else if IsKeyword(token, "COLLATE") {
          g := g.(needs := true);
        }
      }
    }
  }

  /** `_get_column_collations` on the tokens of the statement. */
  method GetColumnCollations(all: seq<Token>) returns (collations: Collations)
    ensures collations == ColumnCollations(all)
  {
    var tokens := KeepSignificant(all);
    var next := SkipHead(tokens);
    ghost var body := tokens[next..];
    var f := FRESH;
    while next < |tokens|
      invariant next <= |tokens|
      invariant Collated(FRESH, body) == Collated(f, tokens[next..])
    {
      hide Noted;
      var token := tokens[next];
      assert tokens[next..][1..] == tokens[next + 1..];
      next := next + 1;
      if IsPunctuation(token, ")") && f.depth == 0 {
        break;
      }
      f := NoteToken(f, token);
    }
    collations := f.found;
  }

  // ----- The size in a declared type -----

  predicate IsSpace(c: char) {
    c == ' ' || '\t' <= c <= '\r' || 0x1c <= c as int <= 0x1f
  }

  predicate IsDigit(c: char) {
    '0' <= c <= '9'
  }

  function SkipSpaces(s: string): (r: string)
    ensures |r| <= |s|
  {
    if s != "" && IsSpace(s[0]) then SkipSpaces(s[1..]) else s
  }

  function Digits(s: string): (r: string)
    ensures |r| <= |s|
  {
    if s != "" && IsDigit(s[0]) then [s[0]] + Digits(s[1..]) else ""
  }

  function Value(digits: string): nat {
    if digits == "" then 0
    else
      var d := digits[|digits| - 1];
      Value(digits[..|digits| - 1]) * 10 + if IsDigit(d) then d as int - '0' as int else 0
  }

  /** The text after a word that is compared without ASCII case. */
  function AfterWord(s: string, word: string): Option<string> {
    if |word| <= |s| && IdentifierKey(s[..|word|]) == word then Some(s[|word|..]) else None
  }

  /** `digits )` and nothing else, up to spaces. */
  function ClosedSize(inner: string): Option<nat> {
    var digits := Digits(inner);
    var rest := SkipSpaces(inner[|digits|..]);
    if digits == "" || rest == "" || rest[0] != ')' || SkipSpaces(rest[1..]) != "" then None else Some(Value(digits))
  }

  /** `( digits )`. */
  function BracketedSize(text: string): Option<nat> {
    var s := SkipSpaces(text);
    if s == "" || s[0] != '(' then None else ClosedSize(SkipSpaces(s[1..]))
  }

  /** `get_field_size`: CHAR or VARCHAR with a length. */
  function FieldSize(name: string): Option<nat> {
    var s := SkipSpaces(name);
    var var_ := AfterWord(s, "var");
    var char_ := AfterWord(if var_.Some? then var_.value else s, "char");
    if char_.None? then None else BracketedSize(char_.value)
  }

  // ----- Sizes -----

  function Joined(tokens: seq<Token>): string {
    if tokens == [] then "" else tokens[0].value + Joined(tokens[1..])
  }

  /** The text that the size of a column is read from. */
  function DeclaredType(definition: seq<Token>): string {
    (if |definition| > 1 then Unquoted(definition[1]) else "") +
    (if |definition| > 2 && IsPunctuation(definition[2], "(") then
       Joined(definition[2..if |definition| < 5 then |definition| else 5])
     else "")
  }

  type Sizes = map<string, nat>

  function Sized(sizes: Sizes, definition: seq<Token>): Sizes {
    if definition == [] || StartsConstraint(definition[0]) then sizes
    else
      var size := FieldSize(DeclaredType(definition));
      if size.None? then sizes else sizes[Unquoted(definition[0]) := size.value]
  }

  function Measured(sizes: Sizes, definition: seq<Token>, depth: int, tokens: seq<Token>): Sizes
    decreases tokens
  {
    if tokens == [] then sizes
    else
      var t := tokens[0];
      if depth == 0 && IsPunctuation(t, ")") then Sized(sizes, definition)
      else if depth == 0 && IsPunctuation(t, ",") then Measured(Sized(sizes, definition), [], 0, tokens[1..])
      else Measured(sizes, definition + [t], DepthAfter(depth, t), tokens[1..])
  }

  function ColumnSizes(tokens: seq<Token>): Sizes {
    Measured(map[], [], 0, Body(tokens))
  }

  method JoinValues(tokens: seq<Token>) returns (text: string)
    ensures text == Joined(tokens)
  {
    text := "";
    var i := |tokens|;
    while i > 0
      invariant 0 <= i <= |tokens|
      invariant text == Joined(tokens[i..])
    {
      i := i - 1;
      text := tokens[i].value + text;
    }
  }

  /** `_get_column_sizes` on the tokens of the statement. */
  method GetColumnSizes(all: seq<Token>) returns (sizes: Sizes)
    ensures sizes == ColumnSizes(all)
  {
    var tokens := KeepSignificant(all);
    var next := SkipHead(tokens);
    ghost var body := tokens[next..];
    sizes := map[];
    var definition: seq<Token> := [];
    var depth: int := 0;
    while next < |tokens|
      invariant next <= |tokens|
      invariant Measured(map[], [], 0, body) == Measured(sizes, definition, depth, tokens[next..])
    {
      hide Sized;
      var token := tokens[next];
      assert tokens[next..][1..] == tokens[next + 1..];
      next := next + 1;
      if depth == 0 && (IsPunctuation(token, ",") || IsPunctuation(token, ")")) {
        sizes := AddSize(sizes, definition);
        definition := [];
        if token.value == ")" {
          return;
        }
        continue;
      }
      definition := definition + [token];
      if IsPunctuation(token, "(") {
        depth := depth + 1;
      } else if IsPunctuation(token, ")") {
        depth := depth - 1;
      }
    }
  }

  method AddSize(before: Sizes, definition: seq<Token>) returns (sizes: Sizes)
    ensures sizes == Sized(before, definition)
  {
    hide FieldSize, UnquoteIdentifier;
    sizes := before;
    if definition != [] && !StartsConstraint(definition[0]) {
      var declared := if |definition| > 1 then UnquoteIdentifier(definition[1].value) else "";
      if |definition| > 2 && IsPunctuation(definition[2], "(") {
        var text := JoinValues(definition[2..if |definition| < 5 then |definition| else 5]);
        declared := declared + text;
      }
      assert declared == DeclaredType(definition);
      var size := FieldSize(declared);
      if size.Some? {
        sizes := sizes[UnquoteIdentifier(definition[0].value) := size.value];
      }
    }
  }
}

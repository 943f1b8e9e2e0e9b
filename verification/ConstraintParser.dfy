/** One pass over the tokens of a CREATE TABLE statement that recovers its UNIQUE and CHECK constraints. */
module ConstraintParser {
  import opened Outcomes
  import opened Quoting
  import opened SqlTokens
  import opened TokenDepth
  import opened CheckExpressions

  // ----- The flags of one definition -----

  /** `constraint` is unknown until the first token. */
  datatype State = State(
    depth: int, constraint: Option<bool>, named: bool, field: Option<string>, title: Option<string>,
    unique: bool, uniqueNeeds: bool, uniqueDepth: int, uniqueColumns: seq<string>,
    check: bool, checkDepth: int, search: Search)

  const START := State(0, None, false, None, None, false, false, 0, [], false, 0, Search(None, true, false, []))

  predicate IsLabelKind(k: Kind) {
    k == Name || k == Keyword || k == Symbol || k == Single
  }

  function Unquoted(t: Token): string {
    UnquoteIdentifier(t.value)
  }

  /** The declared spelling of a name, if it is a declared name. */
  function Declared(names: Names, t: Token): string {
    if Key(t) in names then names[Key(t)] else Unquoted(t)
  }

  /** A comma or a closing parenthesis that belongs to no parenthesis of the definition. */
  predicate Ends(depth: int, t: Token) {
    (IsPunctuation(t, ")") && depth <= 0) || (IsPunctuation(t, ",") && depth == 0)
  }

  /** The CHECK part of a token. */
  function Checked(s: State, t: Token, names: Names): State {
    if IsKeyword(t, "CHECK") then
      s.(check := true, checkDepth := s.depth, search := s.search.(needs := false, expects := true))
    else if !s.check then s
    else if s.checkDepth == s.depth then
      var search := Settle(s.search, t);
      s.(check := search.columns == [], search := search)
    else s.(search := Look(s.search, t, names))
  }

  /** A token inside the parentheses of a UNIQUE constraint. */
  function Gathered(s: State, t: Token, names: Names): State {
    if IsPunctuation(t, ",") then s.(uniqueNeeds := true)
    else if s.uniqueNeeds && IsLabelKind(t.kind) then
      s.(uniqueNeeds := false, uniqueColumns := s.uniqueColumns + [Declared(names, t)])
    else s
  }

  /** A token of a table constraint. */
  function InConstraint(s0: State, t: Token, names: Names): State {
    var s := if s0.named && s0.title.None? && IsLabelKind(t.kind) then s0.(title := Some(Unquoted(t))) else s0;
    if IsKeyword(t, "UNIQUE") then
      Checked(s.(unique := true, uniqueNeeds := true, uniqueDepth := s.depth), t, names)
    else if !s.unique then Checked(s, t, names)
    else if s.uniqueDepth == s.depth then s.(unique := s.uniqueColumns == [])
    else Checked(Gathered(s, t, names), t, names)
  }

  /** A token of a column definition. */
  function InColumn(s0: State, t: Token, names: Names): State {
    var s := if s0.field.None? && IsLabelKind(t.kind) then s0.(field := Some(Unquoted(t))) else s0;
    Checked(
      if IsKeyword(t, "UNIQUE") && s.field.Some? then s.(uniqueColumns := [s.field.value]) else s, t, names)
  }

  function Next(s0: State, t: Token, names: Names): State {
    var s := s0.(depth := DepthAfter(s0.depth, t));
    if s.constraint.None? && IsKeyword(t, "CONSTRAINT") then s.(constraint := Some(true), named := true)
    else
      var kind := if s.constraint.None? then IsKeyword(t, "UNIQUE") else s.constraint.value;
      var named := if s.constraint.None? then false else s.named;
      var known := s.(constraint := Some(kind), named := named);
      if kind then InConstraint(known, t, names) else InColumn(known, t, names)
  }

  // ----- One definition -----

  /** Empty columns stand for no constraint. */
  datatype Parsed = Parsed(title: Option<string>, unique: seq<string>, check: seq<string>)

  function Distinct(s: seq<string>): (r: seq<string>)
    ensures forall x :: x in r <==> x in s
  {
    if s == [] then []
    else
      var rest, last := Distinct(s[..|s| - 1]), s[|s| - 1];
      if last in s[..|s| - 1] then rest else rest + [last]
  }

  function Outcome(s: State): Parsed {
    Parsed(s.title, s.uniqueColumns, Distinct(s.search.columns))
  }

  /** The state after a definition, its last token, and the number of tokens read. */
  datatype Scanned = Scanned(state: State, end: Token, read: nat)

  function Scan(s: State, tokens: seq<Token>, names: Names): (r: Scanned)
    requires tokens != []
    ensures 0 < r.read <= |tokens|
    decreases tokens
  {
    var t := tokens[0];
    if Ends(s.depth, t) then Scanned(s, t, 1)
    else if |tokens| == 1 then Scanned(Next(s, t, names), t, 1)
    else
      var r := Scan(Next(s, t, names), tokens[1..], names);
      r.(read := r.read + 1)
  }

  datatype ParseError = EmptyDefinition

  /** `list(dict.fromkeys(values))`. */
  method FirstOccurrences(values: seq<string>) returns (r: seq<string>)
    ensures r == Distinct(values)
  {
    r := [];
    for i := 0 to |values|
      invariant r == Distinct(values[..i])
    {
      assert values[..i + 1][..i] == values[..i];
      if values[i] !in r {
        r := r + [values[i]];
      }
    }
    assert values[..|values|] == values;
  }

  /** What the tokens from `start` to `next` leave to be scanned. */
  ghost predicate Tracks(tokens: seq<Token>, start: nat, next: nat, names: Names, s: State)
    requires start <= next <= |tokens|
  {
    if next == start then s == START
    else if next == |tokens| then
      Scan(START, tokens[start..], names) == Scanned(s, tokens[next - 1], next - start)
    else
      var r := Scan(s, tokens[next..], names);
      Scan(START, tokens[start..], names) == r.(read := r.read + next - start)
  }

  lemma TracksStep(tokens: seq<Token>, start: nat, next: nat, names: Names, s: State)
    requires start <= next < |tokens| && Tracks(tokens, start, next, names, s)
    requires !Ends(s.depth, tokens[next])
    ensures Tracks(tokens, start, next + 1, names, Next(s, tokens[next], names))
  {
    hide Next, Ends;
    assert tokens[next..][1..] == tokens[next + 1..];
  }

  lemma TracksStart(tokens: seq<Token>, start: nat, names: Names)
    requires start <= |tokens|
    ensures Tracks(tokens, start, start, names, START)
  {
  }

  lemma TracksDone(tokens: seq<Token>, start: nat, names: Names, s: State)
    requires start < |tokens| && Tracks(tokens, start, |tokens|, names, s)
    ensures Scan(START, tokens[start..], names) == Scanned(s, tokens[|tokens| - 1], |tokens| - start)
  {
  }

  lemma TracksEnd(tokens: seq<Token>, start: nat, next: nat, names: Names, s: State)
    requires start <= next < |tokens| && Tracks(tokens, start, next, names, s)
    requires Ends(s.depth, tokens[next])
    ensures Scan(START, tokens[start..], names) == Scanned(s, tokens[next], next + 1 - start)
  {
  }

  /** The search for the columns of a CHECK, one token further. */
  method ReadInCheck(search: Search, token: Token, names: Names) returns (r: Search)
    ensures r == Read(search, token, names)
  {
    r := search;
    if search.needs {
      r := r.(needs := false);
      return;
    }
    if token.kind == Punctuation {
      r := r.(expects := token.value == "(" || token.value == ",");
      return;
    }
    if IsKeyword(token, "COLLATE") {
      r := r.(needs := true);
      return;
    }
    if IsConstantWord(token) {
      r := r.(expects := false);
      return;
    }
    if IsKeyword(token, "NOT") {
      return;
    }
    if IsGlueWord(token) {
      r := r.(expects := true);
      return;
    }
    var key := IdentifierKey(UnquoteIdentifier(token.value));
    if token.kind != Symbol && key in {"end", "like", "glob"} && !search.expects {
      r := r.(expects := key != "end");
      return;
    }
    if IsNameKind(token.kind) || (search.expects && InOperator(token.kind) && key == "like") {
      r := r.(pending := if key in names then Some(names[key]) else None, expects := false);
    } else {
      r := r.(expects := InOperator(token.kind));
    }
  }

  /** The flags of a CHECK, one token further. */
  method ReadForCheck(s: State, token: Token, names: Names) returns (r: State)
    ensures r == Checked(s, token, names)
  {
    r := s;
    if IsKeyword(token, "CHECK") {
      r := r.(check := true, checkDepth := r.depth, search := r.search.(needs := false, expects := true));
      return;
    }
    if !r.check {
      return;
    }
    var search := r.search;
    if search.pending.Some? {
      if !IsPunctuation(token, "(") {
        search := search.(columns := search.columns + [search.pending.value]);
      }
      search := search.(pending := None);
    }
    if r.checkDepth == r.depth {
      r := r.(check := r.check && search.columns == [], search := search);
      return;
    }
    search := ReadInCheck(search, token, names);
    r := r.(search := search);
  }

  /** The flags of a table constraint, one token further. */
  method ReadInConstraint(s: State, token: Token, names: Names) returns (r: State)
    ensures r == InConstraint(s, token, names)
  {
    hide Checked, UnquoteIdentifier;
    r := s;
    if r.named && r.title.None? && IsLabelKind(token.kind) {
      r := r.(title := Some(UnquoteIdentifier(token.value)));
    }
    if IsKeyword(token, "UNIQUE") {
      r := r.(unique := true, uniqueNeeds := true, uniqueDepth := r.depth);
    } else if r.unique {
      if r.uniqueDepth == r.depth {
        r := r.(unique := r.uniqueColumns == []);
        return;
      }
      if IsPunctuation(token, ",") {
        r := r.(uniqueNeeds := true);
      } else if r.uniqueNeeds && IsLabelKind(token.kind) {
        r := r.(uniqueColumns := r.uniqueColumns + [Declared(names, token)], uniqueNeeds := false);
      }
    }
    r := ReadForCheck(r, token, names);
  }

  /** The flags of a column definition, one token further. */
  method ReadInColumn(s: State, token: Token, names: Names) returns (r: State)
    ensures r == InColumn(s, token, names)
  {
    hide Checked, UnquoteIdentifier;
    r := s;
    if r.field.None? && IsLabelKind(token.kind) {
      r := r.(field := Some(UnquoteIdentifier(token.value)));
    }
    if IsKeyword(token, "UNIQUE") && r.field.Some? {
      r := r.(uniqueColumns := [r.field.value]);
    }
    r := ReadForCheck(r, token, names);
  }

  /** All flags, one token further. */
  method ReadToken(s: State, token: Token, names: Names) returns (r: State)
    ensures r == Next(s, token, names)
  {
    hide InConstraint, InColumn;
    r := s;
    if IsPunctuation(token, "(") {
      r := r.(depth := r.depth + 1);
    } else if IsPunctuation(token, ")") {
      r := r.(depth := r.depth - 1);
    }
    if r.constraint.None? {
      var named := IsKeyword(token, "CONSTRAINT");
      r := r.(named := named, constraint := Some(named || IsKeyword(token, "UNIQUE")));
      if named {
        return;
      }
    }
    if r.constraint.value {
      r := ReadInConstraint(r, token, names);
    } else {
      r := ReadInColumn(r, token, names);
    }
  }

  /** `_parse_column_or_constraint_definition` on the tokens from `start` on. */
  method ParseDefinition(tokens: seq<Token>, start: nat, names: Names)
      returns (r: Result<(Parsed, Token), ParseError>, next: nat)
    requires start <= |tokens|
    ensures start <= next <= |tokens|
    ensures r.Err? <==> start == |tokens|
    ensures r.Err? ==> next == start
    ensures r.Ok? ==> var sc := Scan(START, tokens[start..], names);
      r.value == (Outcome(sc.state), sc.end) && next == start + sc.read
  {
    hide Scan, Tracks, Next, Ends, Distinct, UnquoteIdentifier;
    next := start;
    var s := START;
    var ended := false;
    TracksStart(tokens, start, names);
    while next < |tokens| && !ended
      invariant start <= next <= |tokens| && (ended ==> start < next)
      invariant !ended ==> Tracks(tokens, start, next, names, s)
      invariant ended ==> Scan(START, tokens[start..], names) == Scanned(s, tokens[next - 1], next - start)
      decreases |tokens| - next, !ended
    {
      var token := tokens[next];
      if Ends(s.depth, token) {
        TracksEnd(tokens, start, next, names, s);
        next, ended := next + 1, true;
        continue;
      }
      TracksStep(tokens, start, next, names, s);
      s := ReadToken(s, token, names);
      next := next + 1;
    }
    if next == start {
      return Err(EmptyDefinition), next;
    }
    if !ended {
      TracksDone(tokens, start, names, s);
    }
    var columns := FirstOccurrences(s.search.columns);
    r := Ok((Parsed(s.title, s.uniqueColumns, columns), tokens[next - 1]));
  }

  // ----- A whole statement -----

  /** `unique` tells UNIQUE from CHECK. */
  datatype Constraint = Constraint(unique: bool, columns: seq<string>)

  datatype Dictionary = Dictionary(constraints: map<string, Constraint>, unnamed: nat)

  function Decimal(n: nat): (s: string)
    ensures s != ""
  {
    var digit := [(n % 10 + '0' as int) as char];
    if n < 10 then digit else Decimal(n / 10) + digit
  }

  function GeneratedName(n: nat): string {
    "__unnamed_constraint_" + Decimal(n) + "__"
  }

  function Added(d: Dictionary, title: Option<string>, c: Constraint): Dictionary {
    if c.columns == [] then d
    else if title.Some? && title.value != "" then d.(constraints := d.constraints[title.value := c])
    else Dictionary(d.constraints[GeneratedName(d.unnamed + 1) := c], d.unnamed + 1)
  }

  function Both(d: Dictionary, p: Parsed): Dictionary {
    Added(Added(d, p.title, Constraint(true, p.unique)), p.title, Constraint(false, p.check))
  }

  function Collected(list: seq<Parsed>): Dictionary {
    if list == [] then Dictionary(map[], 0) else Both(Collected(list[..|list| - 1]), list[|list| - 1])
  }

  /** The definitions up to the closing parenthesis; none if the tokens end before it. */
  function Definitions(tokens: seq<Token>, names: Names): Option<seq<Parsed>>
    decreases |tokens|
  {
    if tokens == [] then None
    else
      var r := Scan(START, tokens, names);
      if IsPunctuation(r.end, ")") then Some([Outcome(r.state)])
      else
        var rest := Definitions(tokens[r.read..], names);
        if rest.None? then None else Some([Outcome(r.state)] + rest.value)
  }

  /** What follows the first opening parenthesis. */
  function AfterOpen(tokens: seq<Token>): Option<seq<Token>> {
    if tokens == [] then None
    else if IsPunctuation(tokens[0], "(") then Some(tokens[1..])
    else AfterOpen(tokens[1..])
  }

  lemma {:induction false} HeadIsSkipped(head: seq<Token>, rest: seq<Token>)
    requires forall k :: 0 <= k < |head| ==> !IsPunctuation(head[k], "(")
    ensures AfterOpen(head + ([OPEN] + rest)) == Some(rest)
  {
    if head == [] {
      assert head + ([OPEN] + rest) == [OPEN] + rest;
    } else {
      assert (head + ([OPEN] + rest))[1..] == head[1..] + ([OPEN] + rest);
      HeadIsSkipped(head[1..], rest);
    }
  }

  function ParseTable(tokens: seq<Token>, names: Names): Result<map<string, Constraint>, ParseError> {
    var body := AfterOpen(WithoutNoise(tokens));
    if body.None? then Ok(map[]) else Collect(Definitions(body.value, names))
  }

  method KeepSignificant(tokens: seq<Token>) returns (kept: seq<Token>)
    ensures kept == WithoutNoise(tokens)
  {
    kept := [];
    var i := 0;
    while i < |tokens|
      invariant 0 <= i <= |tokens|
      invariant WithoutNoise(tokens) == kept + WithoutNoise(tokens[i..])
    {
      KeepOne(tokens, kept, i);
      if !IsNoise(tokens[i]) {
        kept := kept + [tokens[i]];
      }
      i := i + 1;
    }
  }

  lemma KeepOne(tokens: seq<Token>, kept: seq<Token>, i: nat)
    requires i < |tokens|
    ensures kept + WithoutNoise(tokens[i..]) ==
            (if IsNoise(tokens[i]) then kept else kept + [tokens[i]]) + WithoutNoise(tokens[i + 1..])
  {
    assert tokens[i..][1..] == tokens[i + 1..];
    var rest := WithoutNoise(tokens[i + 1..]);
    assert kept + ([tokens[i]] + rest) == kept + [tokens[i]] + rest;
  }

  lemma DefinitionsStep(tokens: seq<Token>, start: nat, next: nat, names: Names, parsed: Parsed, end: Token)
    requires start < next <= |tokens|
    requires var sc := Scan(START, tokens[start..], names);
      parsed == Outcome(sc.state) && end == sc.end && next == start + sc.read
    ensures Definitions(tokens[start..], names) ==
            if IsPunctuation(end, ")") then Some([parsed])
            else Prefixed([parsed], Definitions(tokens[next..], names))
  {
    assert tokens[start..][next - start..] == tokens[next..];
  }

  lemma CollectedSnoc(list: seq<Parsed>, p: Parsed)
    ensures Collected(list + [p]) == Both(Collected(list), p)
  {
    assert (list + [p])[..|list|] == list;
  }

  function Collect(list: Option<seq<Parsed>>): Result<map<string, Constraint>, ParseError> {
    if list.None? then Err(EmptyDefinition) else Ok(Collected(list.value).constraints)
  }

  /** Definition after definition, up to the one that a closing parenthesis ends. */
  method ParseDefinitions(tokens: seq<Token>, start: nat, names: Names)
      returns (r: Result<map<string, Constraint>, ParseError>)
    requires start <= |tokens|
    ensures r == Collect(Definitions(tokens[start..], names))
  {
    var next := start;
    ghost var read: seq<Parsed> := [];
    var d := Dictionary(map[], 0);
    PrefixedNone(Definitions(tokens[start..], names));
    while true
      invariant start <= next <= |tokens|
      invariant d == Collected(read)
      invariant Definitions(tokens[start..], names) == Prefixed(read, Definitions(tokens[next..], names))
      decreases |tokens| - next
    {
      hide Scan, Both, Outcome, Collected, Definitions;
      ghost var from := next;
      var one;
      one, next := ParseDefinition(tokens, next, names);
      if one.Err? {
        NoDefinitions(names);
        assert tokens[next..] == [];
        return Err(EmptyDefinition);
      }
      var (parsed, end) := one.value;
      DefinitionsStep(tokens, from, next, names, parsed, end);
      CollectedSnoc(read, parsed);
      d := AddBoth(d, parsed);
      if IsPunctuation(end, ")") {
        return Ok(d.constraints);
      }
      PrefixedTwice(read, [parsed], Definitions(tokens[next..], names));
      read := read + [parsed];
    }
  }

  function Prefixed(read: seq<Parsed>, rest: Option<seq<Parsed>>): Option<seq<Parsed>> {
    if rest.None? then None else Some(read + rest.value)
  }

  lemma PrefixedTwice(a: seq<Parsed>, b: seq<Parsed>, rest: Option<seq<Parsed>>)
    ensures Prefixed(a, Prefixed(b, rest)) == Prefixed(a + b, rest)
  {
    if rest.Some? {
      assert a + (b + rest.value) == a + b + rest.value;
    }
  }

  lemma PrefixedNone(rest: Option<seq<Parsed>>)
    ensures Prefixed([], rest) == rest
  {
    if rest.Some? {
      assert [] + rest.value == rest.value;
    }
  }

  lemma NoDefinitions(names: Names)
    ensures Definitions([], names) == None
  {
  }

  /** `_parse_table_constraints` on the tokens of the statement. */
  method ParseTableConstraints(all: seq<Token>, names: Names)
      returns (r: Result<map<string, Constraint>, ParseError>)
    ensures r == ParseTable(all, names)
  {
    var tokens := KeepSignificant(all);
    var next := 0;
    while next < |tokens| && !IsPunctuation(tokens[next], "(")
      invariant 0 <= next <= |tokens|
      invariant AfterOpen(tokens) == AfterOpen(tokens[next..])
    {
      next := next + 1;
    }
    if next == |tokens| {
      return Ok(map[]);
    }
    r := ParseDefinitions(tokens, next + 1, names);
  }

  method AddBoth(d: Dictionary, parsed: Parsed) returns (r: Dictionary)
    ensures r == Both(d, parsed)
  {
    r := d;
    var pending := [Constraint(true, parsed.unique), Constraint(false, parsed.check)];
    for i := 0 to 2
      invariant i == 0 ==> r == d
      invariant i == 1 ==> r == Added(d, parsed.title, pending[0])
      invariant i == 2 ==> r == Both(d, parsed)
    {
      if pending[i].columns == [] {
        continue;
      }
      if parsed.title.Some? && parsed.title.value != "" {
        r := r.(constraints := r.constraints[parsed.title.value := pending[i]]);
      } else {
        r := Dictionary(r.constraints[GeneratedName(r.unnamed + 1) := pending[i]], r.unnamed + 1);
      }
    }
  }
}

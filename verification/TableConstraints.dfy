/** Table definitions as syntax trees; parsing a printed table gives its constraints back. */
module TableConstraints {
  import opened Outcomes
  import opened SqlTokens
  import opened TokenDepth
  import opened CheckExpressions
  import opened ConstraintParser
  import opened DefinitionRuns

  // ----- Expressions are balanced and start no constraint -----

  ghost predicate Nested(tokens: seq<Token>) {
    Closed(tokens) && Calm(tokens)
  }

  lemma NestedEmpty()
    ensures Nested([])
  {
    ClosedEmpty();
  }

  lemma NestedToken(t: Token)
    requires !IsParen(t) && Quiet(t)
    ensures Nested([t])
  {
    ClosedToken(t);
  }

  lemma NestedAppend(a: seq<Token>, b: seq<Token>)
    requires Nested(a) && Nested(b)
    ensures Nested(a + b)
  {
    ClosedAppend(a, b);
  }

  lemma NestedCons(t: Token, rest: seq<Token>)
    requires !IsParen(t) && Quiet(t) && Nested(rest)
    ensures Nested([t] + rest)
  {
    NestedToken(t);
    NestedAppend([t], rest);
  }

  lemma NestedParens(tokens: seq<Token>)
    requires Nested(tokens)
    ensures Nested(Parens(tokens))
  {
    ClosedParens(tokens);
  }

  lemma NestedOption(t: Option<Token>)
    requires IsNegation(t)
    ensures Nested(PrintOption(t))
  {
    if t.Some? {
      NestedToken(t.value);
    } else {
      NestedEmpty();
    }
  }

  /** A token that no part of an expression gives another role. */
  predicate Inner(t: Token) {
    !IsParen(t) && Quiet(t)
  }

  lemma RolesAreInner(t: Token)
    ensures Plain(t) || IsConstantWord(t) || IsGlueWord(t) || IsKeyword(t, "NOT") || IsKeyword(t, "COLLATE") ==>
      Inner(t)
  {
  }

  lemma {:induction false} ExprIsNested(e: Expr, names: Names)
    requires Good(e, names)
    ensures Nested(Print(e))
    decreases e
  {
    assert e.Between? ==> IsGlueWord(e.between);
    assert e.Among? ==> IsGlueWord(e.among);
    hide Nested, Plain, IsConstantWord, IsGlueWord, IsTurn, StartsSafely;
    match e
    case Reference(t) =>
      RolesAreInner(t);
      NestedToken(t);
    case Literal(t) =>
      RolesAreInner(t);
      NestedToken(t);
    case Call(f, arguments) =>
      ListIsNested(arguments, names);
      NestedParens(PrintList(arguments));
      RolesAreInner(f);
      NestedCons(f, Parens(PrintList(arguments)));
    case Row(items) =>
      ListIsNested(items, names);
      NestedParens(PrintList(items));
    case Prefix(op, operand) =>
      ExprIsNested(operand, names);
      RolesAreInner(op);
      NestedCons(op, Print(operand));
    case Infix(left, negation, op, right) =>
      ExprIsNested(left, names);
      ExprIsNested(right, names);
      InfixIsNested(Print(left), negation, op, Print(right));
    case Between(operand, negation, between, low, conjunction, high) =>
      ExprIsNested(operand, names);
      ExprIsNested(low, names);
      ExprIsNested(high, names);
      NestedCons(conjunction, Print(high));
      NestedAppend(Print(low), [conjunction] + Print(high));
      InfixIsNested(Print(operand), negation, between, Print(low) + ([conjunction] + Print(high)));
    case Among(operand, negation, among, members) =>
      ExprIsNested(operand, names);
      ListIsNested(members, names);
      NestedParens(PrintList(members));
      InfixIsNested(Print(operand), negation, among, Parens(PrintList(members)));
    case Collated(operand, collate, collation) =>
      ExprIsNested(operand, names);
      NestedToken(collation);
      NestedCons(collate, [collation]);
      NestedAppend(Print(operand), [collate] + [collation]);
      assert [collate] + [collation] == [collate, collation];
    case Cast(callee, operand, asWord, target, size) =>
      CastIsNested(e, names);
    case Case(word, subject, whens, otherwise, end) =>
      CaseIsNested(e, names);
  }

  lemma InfixIsNested(left: seq<Token>, negation: Option<Token>, op: Token, right: seq<Token>)
    requires Nested(left) && IsNegation(negation) && Nested(right)
    requires IsInfix(op) || IsTimes(op) || IsGlueWord(op)
    ensures Nested(left + (PrintOption(negation) + ([op] + right)))
  {
    assert Inner(op) by {
      RolesAreInner(op);
    }
    hide Nested;
    NestedCons(op, right);
    NestedOption(negation);
    NestedAppend(PrintOption(negation), [op] + right);
    NestedAppend(left, PrintOption(negation) + ([op] + right));
  }

  lemma {:induction false} CastIsNested(e: Expr, names: Names)
    requires e.Cast? && Good(e, names)
    ensures Nested(Print(e))
    decreases e, 0
  {
    var size := if e.size.Nil? then [] else Parens(PrintList(e.size));
    RolesAreInner(e.callee);
    RolesAreInner(e.target);
    hide Nested, Plain, IsTurn;
    ExprIsNested(e.operand, names);
    ListIsNested(e.size, names);
    NestedEmpty();
    NestedParens(PrintList(e.size));
    NestedCons(e.target, size);
    NestedCons(e.asWord, [e.target] + size);
    NestedAppend(Print(e.operand), [e.asWord] + ([e.target] + size));
    NestedParens(Print(e.operand) + ([e.asWord] + ([e.target] + size)));
    NestedCons(e.callee, Parens(Print(e.operand) + ([e.asWord] + ([e.target] + size))));
  }

  lemma {:induction false} CaseIsNested(e: Expr, names: Names)
    requires e.Case? && Good(e, names)
    ensures Nested(Print(e))
    decreases e, 0
  {
    RolesAreInner(e.end);
    CaseParts(e, [], names);
    hide Nested, Plain, IsTurn, Print, Columns;
    if e.subject.Some? {
      ExprIsNested(e.subject.value, names);
    } else {
      NestedEmpty();
    }
    WhensAreNested(e.whens, names);
    NestedToken(e.end);
    if e.otherwise.Some? {
      var o := e.otherwise.value;
      ExprIsNested(o.value, names);
      NestedCons(o.else_, Print(o.value));
      NestedAppend([o.else_] + Print(o.value), [e.end]);
    } else {
      assert Ending(e) == [e.end];
    }
    NestedAppend(PrintWhens(e.whens), Ending(e));
    NestedAppend(Subject(e), PrintWhens(e.whens) + Ending(e));
    NestedCons(e.case_, Subject(e) + (PrintWhens(e.whens) + Ending(e)));
  }

  lemma {:induction false} ListIsNested(list: Exprs, names: Names)
    requires GoodList(list, names)
    ensures Nested(PrintList(list))
    decreases list
  {
    hide Nested;
    if list.Nil? {
      NestedEmpty();
    } else {
      ExprIsNested(list.head, names);
      NestedEmpty();
      if list.tail.Cons? {
        ListIsNested(list.tail, names);
        NestedCons(COMMA, PrintList(list.tail));
      }
      NestedAppend(Print(list.head), if list.tail.Nil? then [] else [COMMA] + PrintList(list.tail));
    }
  }

  lemma {:induction false} WhensAreNested(whens: Whens, names: Names)
    requires GoodWhens(whens, names)
    ensures Nested(PrintWhens(whens))
    decreases whens
  {
    hide Nested;
    match whens
    case Done => NestedEmpty();
    case When(when, condition, then_, result, more) =>
      ExprIsNested(condition, names);
      ExprIsNested(result, names);
      WhensAreNested(more, names);
      NestedAppend(Print(result), PrintWhens(more));
      NestedCons(then_, Print(result) + PrintWhens(more));
      NestedAppend(Print(condition), [then_] + (Print(result) + PrintWhens(more)));
      NestedCons(when, Print(condition) + ([then_] + (Print(result) + PrintWhens(more))));
  }

  // ----- Definitions -----

  /** A column of a UNIQUE constraint with its COLLATE, ASC or DESC. */
  datatype Indexed = Indexed(name: Token, order: seq<Token>)

  /** `CONSTRAINT name`. */
  datatype Title = Title(word: Token, name: Token)

  datatype ColumnPart = Words(items: seq<Item>) | UniqueWord(word: Token) | CheckPart(word: Token, condition: Expr)

  /** `Column` also stands for a PRIMARY KEY or FOREIGN KEY without a title, `Other` for one with a title. */
  datatype Definition =
    | Column(name: Token, parts: seq<ColumnPart>)
    | Unique(title: Option<Title>, word: Token, columns: seq<Indexed>, tail: seq<Item>)
    | Check(title: Option<Title>, word: Token, condition: Expr, tail: seq<Item>)
    | Other(titled: Title, tail: seq<Item>)

  function PrintIndexed(columns: seq<Indexed>): seq<Token> {
    if columns == [] then []
    else ([columns[0].name] + columns[0].order) +
         (if |columns| == 1 then [] else [COMMA] + PrintIndexed(columns[1..]))
  }

  function PrintPart(part: ColumnPart): seq<Token> {
    match part
    case Words(items) => PrintItems(items)
    case UniqueWord(word) => [word]
    case CheckPart(word, condition) => [word] + Parens(Print(condition))
  }

  function PrintParts(parts: seq<ColumnPart>): seq<Token> {
    if parts == [] then [] else PrintParts(parts[..|parts| - 1]) + PrintPart(parts[|parts| - 1])
  }

  function PrintTitle(title: Option<Title>): seq<Token> {
    if title.Some? then [title.value.word] + [title.value.name] else []
  }

  function PrintDefinition(d: Definition): seq<Token> {
    match d
    case Column(name, parts) => [name] + PrintParts(parts)
    case Unique(title, word, columns, tail) =>
      PrintTitle(title) + (([word] + Parens(PrintIndexed(columns))) + PrintItems(tail))
    case Check(title, word, condition, tail) =>
      PrintTitle(title) + (([word] + Parens(Print(condition))) + PrintItems(tail))
    case Other(title, tail) => PrintTitle(Some(title)) + PrintItems(tail)
  }

  // ----- Well-formed definitions -----

  predicate IsLabel(t: Token) {
    t.kind in {Name, Keyword, Symbol, Single} && Quiet(t)
  }

  /** Balanced tokens without a comma of their own and without UNIQUE and CHECK. */
  ghost predicate GoodWords(items: seq<Item>) {
    && GoodItems(items) && Calm(PrintItems(items))
    && forall k :: 0 <= k < |items| ==> !(items[k].Leaf? && IsPunctuation(items[k].token, ","))
  }

  ghost predicate GoodIndexed(c: Indexed) {
    IsLabel(c.name) && Calm(c.order) &&
    forall k :: 0 <= k < |c.order| ==> !IsParen(c.order[k]) && !IsPunctuation(c.order[k], ",")
  }

  /** A CHECK mentions at least one declared column. */
  ghost predicate GoodPart(part: ColumnPart, names: Names) {
    match part
    case Words(items) => GoodWords(items)
    case UniqueWord(word) => IsKeyword(word, "UNIQUE")
    case CheckPart(word, condition) =>
      IsKeyword(word, "CHECK") && Good(condition, names) && Columns(condition, names) != []
  }

  predicate GoodTitle(title: Option<Title>) {
    title.Some? ==> IsKeyword(title.value.word, "CONSTRAINT") && IsLabel(title.value.name)
  }

  ghost predicate GoodDefinition(d: Definition, names: Names) {
    match d
    case Column(name, parts) =>
      IsLabel(name) && !IsKeyword(name, "CONSTRAINT") && forall k :: 0 <= k < |parts| ==> GoodPart(parts[k], names)
    case Unique(title, word, columns, tail) =>
      GoodTitle(title) && IsKeyword(word, "UNIQUE") && columns != [] && GoodWords(tail) &&
      forall k :: 0 <= k < |columns| ==> GoodIndexed(columns[k])
    case Check(title, word, condition, tail) =>
      GoodTitle(title) && IsKeyword(word, "CHECK") && Good(condition, names) && Columns(condition, names) != [] &&
      GoodWords(tail)
    case Other(title, tail) => GoodTitle(Some(title)) && GoodWords(tail)
  }

  // ----- What a definition declares -----

  function HasUnique(parts: seq<ColumnPart>): bool {
    exists k :: 0 <= k < |parts| && parts[k].UniqueWord?
  }

  function CheckedColumns(parts: seq<ColumnPart>, names: Names): seq<string> {
    if parts == [] then []
    else
      var last := parts[|parts| - 1];
      CheckedColumns(parts[..|parts| - 1], names) +
      if last.CheckPart? then Columns(last.condition, names) else []
  }

  function DeclaredNames(columns: seq<Indexed>, names: Names): seq<string> {
    seq(|columns|, i requires 0 <= i < |columns| => Declared(names, columns[i].name))
  }

  function TitleOf(title: Option<Title>): Option<string> {
    if title.Some? then Some(Unquoted(title.value.name)) else None
  }

  function Meaning(d: Definition, names: Names): Parsed {
    match d
    case Column(name, parts) =>
      Parsed(None, if HasUnique(parts) then [Unquoted(name)] else [], Distinct(CheckedColumns(parts, names)))
    case Unique(title, _, columns, _) => Parsed(TitleOf(title), DeclaredNames(columns, names), [])
    case Check(title, _, condition, _) => Parsed(TitleOf(title), [], Distinct(Columns(condition, names)))
    case Other(title, _) => Parsed(TitleOf(Some(title)), [], [])
  }

  // ----- Reading one definition -----

  /** Reading `tokens` at depth 0 ends nothing, comes back to depth 0 and leads from `s` to `t`. */
  ghost predicate Leads(s: State, tokens: seq<Token>, t: State, names: Names) {
    s.depth == 0 && t.depth == 0 && Passes(0, tokens) && Run(s, tokens, names) == t
  }

  lemma LeadsAppend(s: State, a: seq<Token>, t: State, b: seq<Token>, u: State, names: Names)
    requires Leads(s, a, t, names) && Leads(t, b, u, names)
    ensures Leads(s, a + b, u, names)
  {
    RunAppend(s, a, b, names);
    RunDepth(s, a, names);
    PassesAppend(0, a, b);
    hide Run, Passes;
  }

  lemma WordPasses(word: Token, tokens: seq<Token>)
    requires word.kind == Keyword && Closed(tokens)
    ensures Passes(0, [word] + Parens(tokens))
  {
    ParensPass(tokens);
    hide Closed;
    assert ([word] + Parens(tokens))[1..] == Parens(tokens);
  }

  lemma WordsLead(s: State, items: seq<Item>, names: Names)
    requires Asleep(s) && s.depth == 0 && GoodWords(items)
    ensures Leads(s, PrintItems(items), s, names)
  {
    WordsPass(items);
    SleepRun(s, PrintItems(items), names);
    hide Run, Passes, PrintItems, GoodItems;
  }

  lemma CheckLeads(s: State, word: Token, condition: Expr, names: Names)
    requires Asleep(s) && s.depth == 0 && IsKeyword(word, "CHECK") && Good(condition, names)
    requires Columns(condition, names) != []
    ensures Leads(s, [word] + Parens(Print(condition)),
                  s.(checkDepth := 0, search := Found(s.search.columns + Columns(condition, names))), names)
  {
    ExprIsNested(condition, names);
    CheckRun(s, word, condition, names);
    WordPasses(word, Print(condition));
    hide Run, Passes, Print, Good, Columns;
  }

  // ----- Column definitions -----

  /** The flags after the name and some parts of a column definition. */
  predicate InColumnAfter(s: State, name: Token, parts: seq<ColumnPart>, names: Names) {
    && s.depth == 0 && Asleep(s) && s.constraint == Some(false) && s.title.None?
    && s.field == Some(Unquoted(name))
    && s.uniqueColumns == (if HasUnique(parts) then [Unquoted(name)] else [])
    && s.search.columns == CheckedColumns(parts, names)
  }

  lemma PartLeads(s: State, name: Token, parts: seq<ColumnPart>, part: ColumnPart, names: Names) returns (t: State)
    requires InColumnAfter(s, name, parts, names) && GoodPart(part, names)
    ensures Leads(s, PrintPart(part), t, names) && InColumnAfter(t, name, parts + [part], names)
  {
    hide HasUnique, Unquoted, CheckedColumns;
    PartsSnoc(parts, part, names);
    match part
    case Words(items) =>
      WordsLead(s, items, names);
      assert s.search.columns + [] == s.search.columns;
      t := s;
    case UniqueWord(word) =>
      t := UniqueInColumn(s, word, names);
      assert s.search.columns + [] == s.search.columns;
    case CheckPart(word, condition) =>
      hide Columns, Good, Print;
      CheckLeads(s, word, condition, names);
      t := s.(checkDepth := 0, search := Found(s.search.columns + Columns(condition, names)));
  }

  lemma PartsSnoc(parts: seq<ColumnPart>, part: ColumnPart, names: Names)
    ensures HasUnique(parts + [part]) <==> HasUnique(parts) || part.UniqueWord?
    ensures CheckedColumns(parts + [part], names) ==
            CheckedColumns(parts, names) + if part.CheckPart? then Columns(part.condition, names) else []
  {
    hide Columns;
    UniqueSnoc(parts, part);
    hide HasUnique;
    assert (parts + [part])[..|parts|] == parts;
  }

  lemma UniqueSnoc(parts: seq<ColumnPart>, part: ColumnPart)
    ensures HasUnique(parts + [part]) <==> HasUnique(parts) || part.UniqueWord?
  {
    var all := parts + [part];
    assert all[|parts|] == part;
    assert forall k :: 0 <= k < |parts| ==> all[k] == parts[k];
  }

  lemma UniqueInColumn(s: State, word: Token, names: Names) returns (t: State)
    requires s.depth == 0 && Asleep(s) && s.constraint == Some(false) && IsKeyword(word, "UNIQUE")
    ensures t == s.(uniqueColumns := [s.field.value]) && Leads(s, [word], t, names)
  {
    t := s.(uniqueColumns := [s.field.value]);
    RunOne(s, word, names);
    assert [word][1..] == [];
    assert Next(s, word, names) == t by {
      hide Look, Settle, Unquoted, Upper;
    }
    assert Passes(0, [word]);
    hide Next, Run, Passes;
  }

  lemma {:induction false} PartsLead(s: State, name: Token, parts: seq<ColumnPart>, names: Names) returns (t: State)
    requires InColumnAfter(s, name, [], names) && forall k :: 0 <= k < |parts| ==> GoodPart(parts[k], names)
    ensures Leads(s, PrintParts(parts), t, names) && InColumnAfter(t, name, parts, names)
  {
    hide GoodPart, PrintPart;
    if parts == [] {
      t := s;
    } else {
      var rest, last := parts[..|parts| - 1], parts[|parts| - 1];
      var middle := PartsLead(s, name, rest, names);
      hide Leads, InColumnAfter;
      t := PartLeads(middle, name, rest, last, names);
      assert rest + [last] == parts;
      LeadsAppend(s, PrintParts(rest), middle, PrintPart(last), t, names);
    }
  }

  lemma NameLeads(name: Token, names: Names) returns (t: State)
    requires IsLabel(name) && !IsKeyword(name, "CONSTRAINT")
    ensures Leads(START, [name], t, names) && InColumnAfter(t, name, [], names)
  {
    t := START.(constraint := Some(false), field := Some(Unquoted(name)));
    RunOne(START, name, names);
    assert [name][1..] == [];
    assert Next(START, name, names) == t by {
      hide Look, Settle, Unquoted, Upper;
    }
    assert Passes(0, [name]);
    hide Next, Run, Passes, Unquoted;
  }

  // ----- Table constraints -----

  function Titled(title: Option<Title>): State {
    if title.Some? then START.(constraint := Some(true), named := true, title := TitleOf(title)) else START
  }

  lemma TitleLeads(title: Option<Title>, names: Names)
    requires GoodTitle(title)
    ensures Leads(START, PrintTitle(title), Titled(title), names)
  {
    if title.Some? {
      var word, name := title.value.word, title.value.name;
      RunCons(START, word, [name], names);
      RunOne(START.(constraint := Some(true), named := true), name, names);
      assert ([word] + [name])[1..] == [name] && [name][1..] == [];
      assert Next(START, word, names) == START.(constraint := Some(true), named := true) by {
        hide Upper;
      }
      assert Next(START.(constraint := Some(true), named := true), name, names) == Titled(title) by {
        hide Look, Settle, Unquoted, Upper;
      }
      assert Passes(0, [name]);
      assert Passes(0, [word] + [name]);
      hide Next, Run, Passes, Unquoted;
    }
  }

  /** Inside the parentheses of a UNIQUE constraint. */
  predicate Gathers(s: State) {
    && s.constraint == Some(true) && (s.named ==> s.title.Some?) && !s.check
    && s.unique && s.uniqueDepth == 0 && s.depth == 1
  }

  lemma {:induction false} OrderRun(s: State, order: seq<Token>, names: Names)
    requires Gathers(s) && !s.uniqueNeeds && Calm(order)
    requires forall k :: 0 <= k < |order| ==> !IsParen(order[k]) && !IsPunctuation(order[k], ",")
    ensures Run(s, order, names) == s
  {
    if order != [] {
      assert Next(s, order[0], names) == s by {
        hide Look, Settle, Unquoted, Upper, Declared;
      }
      hide Next, Quiet;
      OrderRun(s, order[1..], names);
    }
  }

  lemma GatherStep(s: State, t: Token, names: Names)
    requires Gathers(s) && s.uniqueNeeds && IsLabel(t)
    ensures Next(s, t, names) == s.(uniqueNeeds := false, uniqueColumns := s.uniqueColumns + [Declared(names, t)])
  {
    hide Look, Settle, Unquoted, Upper, Declared;
  }

  lemma CommaStep(s: State, names: Names)
    requires Gathers(s)
    ensures Next(s, COMMA, names) == s.(uniqueNeeds := true)
  {
    hide Look, Settle, Unquoted, Upper, Declared;
  }

  lemma IndexedRun(s: State, c: Indexed, names: Names)
    requires Gathers(s) && s.uniqueNeeds && GoodIndexed(c)
    ensures Run(s, [c.name] + c.order, names) ==
            s.(uniqueNeeds := false, uniqueColumns := s.uniqueColumns + [Declared(names, c.name)])
  {
    GatherStep(s, c.name, names);
    hide Next, Declared;
    RunCons(s, c.name, c.order, names);
    OrderRun(s.(uniqueNeeds := false, uniqueColumns := s.uniqueColumns + [Declared(names, c.name)]), c.order, names);
  }

  lemma NamesCons(columns: seq<Indexed>, before: seq<string>, names: Names)
    requires columns != []
    ensures before + [Declared(names, columns[0].name)] + DeclaredNames(columns[1..], names) ==
            before + DeclaredNames(columns, names)
  {
    hide Declared;
    assert DeclaredNames(columns, names) == [Declared(names, columns[0].name)] + DeclaredNames(columns[1..], names);
  }

  lemma {:induction false} GatherRun(s: State, columns: seq<Indexed>, names: Names)
    requires Gathers(s) && s.uniqueNeeds && columns != []
    requires forall k :: 0 <= k < |columns| ==> GoodIndexed(columns[k])
    ensures Run(s, PrintIndexed(columns), names) ==
            s.(uniqueNeeds := false, uniqueColumns := s.uniqueColumns + DeclaredNames(columns, names))
    decreases columns
  {
    var first := columns[0];
    var s1 := s.(uniqueNeeds := false, uniqueColumns := s.uniqueColumns + [Declared(names, first.name)]);
    NamesCons(columns, s.uniqueColumns, names);
    IndexedRun(s, first, names);
    CommaStep(s1, names);
    hide Next, DeclaredNames, Declared, GoodIndexed, Run;
    if |columns| > 1 {
      var rest := [COMMA] + PrintIndexed(columns[1..]);
      RunAppend(s, [first.name] + first.order, rest, names);
      RunCons(s1, COMMA, PrintIndexed(columns[1..]), names);
      GatherRun(s1.(uniqueNeeds := true), columns[1..], names);
    } else {
      NoNames(names);
      assert columns[1..] == [];
      assert PrintIndexed(columns) == [first.name] + first.order;
    }
  }

  lemma NoNames(names: Names)
    ensures DeclaredNames([], names) == []
  {
  }

  lemma {:induction false} IndexedIsNested(columns: seq<Indexed>)
    requires forall k :: 0 <= k < |columns| ==> GoodIndexed(columns[k])
    ensures Nested(PrintIndexed(columns))
  {
    if columns == [] {
      NestedEmpty();
    } else {
      var first := columns[0];
      OrderIsNested(first.order);
      assert GoodIndexed(first);
      IndexedIsNested(columns[1..]);
      hide Nested;
      NestedCons(first.name, first.order);
      NestedCons(COMMA, PrintIndexed(columns[1..]));
      NestedEmpty();
      NestedAppend([first.name] + first.order, if |columns| == 1 then [] else [COMMA] + PrintIndexed(columns[1..]));
    }
  }

  lemma {:induction false} OrderIsNested(order: seq<Token>)
    requires Calm(order) && forall k :: 0 <= k < |order| ==> !IsParen(order[k])
    ensures Nested(order)
  {
    if order == [] {
      NestedEmpty();
    } else {
      OrderIsNested(order[1..]);
      hide Nested;
      NestedCons(order[0], order[1..]);
      assert [order[0]] + order[1..] == order;
    }
  }

  /** The flags after `UNIQUE ( columns )`. */
  function AfterUnique(s: State, columns: seq<Indexed>, names: Names): State {
    s.(constraint := Some(true), uniqueColumns := DeclaredNames(columns, names))
  }

  lemma UniqueWordStep(title: Option<Title>, word: Token, names: Names)
    requires IsKeyword(word, "UNIQUE")
    ensures Next(Titled(title), word, names) ==
            Titled(title).(constraint := Some(true), unique := true, uniqueNeeds := true)
  {
    hide Look, Settle, Unquoted, Declared;
  }

  /** Words between UNIQUE and its list are skipped, even CHECK: the search for columns goes on. */
  lemma {:induction false} WordsBeforeTheList(s: State, words: seq<Token>, names: Names)
    requires s.constraint == Some(true) && (s.named ==> s.title.Some?)
    requires s.unique && s.uniqueDepth == s.depth && s.uniqueColumns == []
    requires forall k :: 0 <= k < |words| ==> !IsParen(words[k]) && !IsKeyword(words[k], "UNIQUE")
    ensures Run(s, words, names) == s
  {
    if words != [] {
      assert Next(s, words[0], names) == s by {
        hide Look, Settle, Unquoted, Declared, Upper;
      }
      hide Next;
      WordsBeforeTheList(s, words[1..], names);
    }
  }

  lemma UniqueOpenStep(s: State, names: Names)
    requires Gathers(s.(depth := 1)) && s.depth == 0
    ensures Next(s, OPEN, names) == s.(depth := 1)
  {
    hide Look, Settle, Unquoted, Declared, Upper;
  }

  lemma UniqueCloseStep(s: State, names: Names)
    requires Gathers(s) && s.uniqueColumns != []
    ensures Next(s, CLOSE, names) == s.(depth := 0, unique := false)
  {
    hide Look, Settle, Unquoted, Declared, Upper;
  }

  lemma {:induction false} UniqueLeads(title: Option<Title>, word: Token, columns: seq<Indexed>, names: Names)
    requires IsKeyword(word, "UNIQUE") && columns != []
    requires forall k :: 0 <= k < |columns| ==> GoodIndexed(columns[k])
    ensures Leads(Titled(title), [word] + Parens(PrintIndexed(columns)), AfterUnique(Titled(title), columns, names),
                  names)
  {
    var s := Titled(title);
    var s1 := s.(constraint := Some(true), unique := true, uniqueNeeds := true);
    UniquePasses(word, columns);
    UniqueWordStep(title, word, names);
    UniqueOpenStep(s1, names);
    UniqueBody(s1.(depth := 1), columns, names);
    assert s1.(depth := 0, unique := false, uniqueNeeds := false, uniqueColumns := DeclaredNames(columns, names)) ==
           AfterUnique(s, columns, names);
    hide Next, Run, Passes, PrintIndexed, GoodIndexed, DeclaredNames, Parens;
    ParensRun(s, word, s1, s1.(depth := 1), PrintIndexed(columns), names);
  }

  lemma UniqueBody(s: State, columns: seq<Indexed>, names: Names)
    requires Gathers(s) && s.uniqueNeeds && s.uniqueColumns == [] && columns != []
    requires forall k :: 0 <= k < |columns| ==> GoodIndexed(columns[k])
    ensures Run(s, PrintIndexed(columns) + [CLOSE], names) ==
            s.(depth := 0, unique := false, uniqueNeeds := false, uniqueColumns := DeclaredNames(columns, names))
  {
    assert [] + DeclaredNames(columns, names) == DeclaredNames(columns, names);
    assert |DeclaredNames(columns, names)| > 0;
    GatherRun(s, columns, names);
    var s3 := s.(uniqueNeeds := false, uniqueColumns := DeclaredNames(columns, names));
    hide Next, Run, PrintIndexed, GoodIndexed, DeclaredNames;
    RunAppend(s, PrintIndexed(columns), [CLOSE], names);
    RunOne(s3, CLOSE, names);
    UniqueCloseStep(s3, names);
  }

  lemma {:induction false} UniquePasses(word: Token, columns: seq<Indexed>)
    requires IsKeyword(word, "UNIQUE")
    requires forall k :: 0 <= k < |columns| ==> GoodIndexed(columns[k])
    ensures Passes(0, [word] + Parens(PrintIndexed(columns)))
  {
    IndexedIsNested(columns);
    hide PrintIndexed, GoodIndexed, Closed, Calm;
    WordPasses(word, PrintIndexed(columns));
  }

  /** An untitled CHECK starts like a column definition. */
  function BeforeCheck(title: Option<Title>, word: Token): State {
    if title.Some? then Titled(title) else START.(constraint := Some(false), field := Some(Unquoted(word)))
  }

  lemma {:induction false} CheckDefinitionLeads(title: Option<Title>, word: Token, condition: Expr, names: Names)
    requires IsKeyword(word, "CHECK") && Good(condition, names) && Columns(condition, names) != []
    ensures Leads(Titled(title), [word] + Parens(Print(condition)),
                  BeforeCheck(title, word).(search := Found(Columns(condition, names))), names)
  {
    var s := BeforeCheck(title, word);
    CheckLeads(s, word, condition, names);
    assert [] + Columns(condition, names) == Columns(condition, names);
    hide Good, Print, Columns;
    if title.None? {
      assert Next(START, word, names) == Next(s, word, names) by {
        hide Look, Settle, Unquoted;
      }
      hide Next, Passes;
      RunCons(START, word, Parens(Print(condition)), names);
      RunCons(s, word, Parens(Print(condition)), names);
    }
  }

  // ----- Parsing is the inverse of printing -----

  /** Reading one printed definition yields what it declares. */
  lemma DefinitionIsRead(d: Definition, names: Names) returns (t: State)
    requires GoodDefinition(d, names)
    ensures Leads(START, PrintDefinition(d), t, names) && Outcome(t) == Meaning(d, names)
  {
    hide Leads, Asleep, Good, Print, Columns, GoodWords, PrintItems, Quiet, GoodIndexed, GoodPart, HasUnique,
         DeclaredNames, PrintIndexed, PrintParts, CheckedColumns, Distinct, Unquoted, GoodTitle;
    match d
    case Column(name, parts) =>
      t := ColumnIsRead(name, parts, names);
    case Unique(title, word, columns, tail) =>
      t := AfterUnique(Titled(title), columns, names);
      TitleLeads(title, names);
      UniqueLeads(title, word, columns, names);
      AsleepAfterUnique(title, columns, names);
      WordsLead(t, tail, names);
      LeadsAppend(Titled(title), [word] + Parens(PrintIndexed(columns)), t, PrintItems(tail), t, names);
      LeadsAppend(START, PrintTitle(title), Titled(title),
                  ([word] + Parens(PrintIndexed(columns))) + PrintItems(tail), t, names);
      assert Distinct([]) == [] by {
        NothingDistinct();
      }
    case Check(title, word, condition, tail) =>
      t := BeforeCheck(title, word).(search := Found(Columns(condition, names)));
      TitleLeads(title, names);
      CheckDefinitionLeads(title, word, condition, names);
      AsleepAfterCheck(title, word, condition, names);
      WordsLead(t, tail, names);
      LeadsAppend(Titled(title), [word] + Parens(Print(condition)), t, PrintItems(tail), t, names);
      LeadsAppend(START, PrintTitle(title), Titled(title),
                  ([word] + Parens(Print(condition))) + PrintItems(tail), t, names);
    case Other(title, tail) =>
      t := Titled(Some(title));
      TitleLeads(Some(title), names);
      AsleepTitled(title);
      WordsLead(t, tail, names);
      LeadsAppend(START, PrintTitle(Some(title)), t, PrintItems(tail), t, names);
      NothingDistinct();
  }

  lemma NothingDistinct()
    ensures Distinct([]) == []
  {
  }

  lemma AsleepTitled(title: Title)
    ensures Asleep(Titled(Some(title))) && Titled(Some(title)).depth == 0
  {
  }

  lemma AsleepAfterUnique(title: Option<Title>, columns: seq<Indexed>, names: Names)
    ensures var t := AfterUnique(Titled(title), columns, names); Asleep(t) && t.depth == 0
  {
  }

  lemma AsleepAfterCheck(title: Option<Title>, word: Token, condition: Expr, names: Names)
    ensures var t := BeforeCheck(title, word).(search := Found(Columns(condition, names))); Asleep(t) && t.depth == 0
  {
    hide Columns;
  }

  lemma ColumnIsRead(name: Token, parts: seq<ColumnPart>, names: Names) returns (t: State)
    requires GoodDefinition(Column(name, parts), names)
    ensures Leads(START, PrintDefinition(Column(name, parts)), t, names)
    ensures Outcome(t) == Meaning(Column(name, parts), names)
  {
    hide Leads, GoodPart, PrintParts, Distinct, HasUnique, CheckedColumns, Quiet, Unquoted;
    var s := NameLeads(name, names);
    t := PartsLead(s, name, parts, names);
    LeadsAppend(START, [name], s, PrintParts(parts), t, names);
  }

  // ----- Whole tables -----

  function PrintDefinitions(definitions: seq<Definition>): seq<Token>
    requires definitions != []
  {
    if |definitions| == 1 then PrintDefinition(definitions[0])
    else PrintDefinition(definitions[0]) + ([COMMA] + PrintDefinitions(definitions[1..]))
  }

  /** `head ( definitions ) tail`, without whitespace and comments. */
  datatype Table = Table(head: seq<Token>, definitions: seq<Definition>, tail: seq<Token>)

  function PrintTable(t: Table): seq<Token>
    requires t.definitions != []
  {
    t.head + ([OPEN] + (PrintDefinitions(t.definitions) + ([CLOSE] + t.tail)))
  }

  ghost predicate GoodTable(t: Table, names: Names) {
    && (forall k :: 0 <= k < |t.head| ==> !IsPunctuation(t.head[k], "("))
    && t.definitions != [] && forall k :: 0 <= k < |t.definitions| ==> GoodDefinition(t.definitions[k], names)
  }

  function Meanings(definitions: seq<Definition>, names: Names): seq<Parsed> {
    seq(|definitions|, i requires 0 <= i < |definitions| => Meaning(definitions[i], names))
  }

  lemma {:induction false} DefinitionScan(d: Definition, end: Token, rest: seq<Token>, names: Names)
    requires GoodDefinition(d, names) && (end == COMMA || end == CLOSE)
    ensures var tokens := PrintDefinition(d) + ([end] + rest); var r := Scan(START, tokens, names);
      Outcome(r.state) == Meaning(d, names) && r.end == end && tokens[r.read..] == rest
  {
    hide PrintDefinition, GoodDefinition, Meaning, Outcome;
    var t := DefinitionIsRead(d, names);
    RunDepth(START, PrintDefinition(d), names);
    ScanRun(START, PrintDefinition(d), end, rest, names);
    hide Scan, Run, Passes;
    TokensAfter(PrintDefinition(d), end, rest);
  }

  lemma TokensAfter(tokens: seq<Token>, end: Token, rest: seq<Token>)
    ensures (tokens + ([end] + rest))[|tokens| + 1..] == rest
  {
  }

  lemma {:induction false} DefinitionsAreRead(definitions: seq<Definition>, tail: seq<Token>, names: Names)
    requires definitions != [] && forall k :: 0 <= k < |definitions| ==> GoodDefinition(definitions[k], names)
    ensures Definitions(PrintDefinitions(definitions) + ([CLOSE] + tail), names) == Some(Meanings(definitions, names))
    decreases |definitions|
  {
    hide PrintDefinition, GoodDefinition, Meaning, Outcome, Scan;
    var first := definitions[0];
    if |definitions| == 1 {
      DefinitionScan(first, CLOSE, tail, names);
      assert Meanings(definitions, names) == [Meaning(first, names)];
    } else {
      var later := PrintDefinitions(definitions[1..]) + ([CLOSE] + tail);
      assert PrintDefinitions(definitions) + ([CLOSE] + tail) == PrintDefinition(first) + ([COMMA] + later);
      DefinitionScan(first, COMMA, later, names);
      DefinitionsAreRead(definitions[1..], tail, names);
      assert Meanings(definitions, names) == [Meaning(first, names)] + Meanings(definitions[1..], names);
    }
  }

  /** Whatever whitespace and comments are added, the parser gives back what the table declares. */
  lemma {:induction false} TableIsParsed(t: Table, tokens: seq<Token>, names: Names)
    requires GoodTable(t, names) && WithoutNoise(tokens) == PrintTable(t)
    ensures ParseTable(tokens, names) == Ok(Collected(Meanings(t.definitions, names)).constraints)
  {
    hide WithoutNoise, GoodDefinition, PrintDefinitions, Definitions, Collected, Meanings;
    HeadIsSkipped(t.head, PrintDefinitions(t.definitions) + ([CLOSE] + t.tail));
    DefinitionsAreRead(t.definitions, t.tail, names);
  }

  // ----- Statements that are no tables -----

  lemma {:induction false} NothingOpens(tokens: seq<Token>)
    requires forall t :: t in tokens ==> t != OPEN
    ensures AfterOpen(tokens) == None
  {
    if tokens != [] {
      assert tokens[0] in tokens && forall t :: t in tokens[1..] ==> t in tokens;
      NothingOpens(tokens[1..]);
    }
  }

  lemma {:induction false} SignificantTokens(tokens: seq<Token>)
    ensures forall t :: t in WithoutNoise(tokens) ==> t in tokens
  {
    if tokens != [] {
      SignificantTokens(tokens[1..]);
    }
  }

  /** Without a parenthesis there are no constraints, and that is no error. */
  lemma NoBodyNoConstraints(tokens: seq<Token>, names: Names)
    requires forall t :: t in tokens ==> t != OPEN
    ensures ParseTable(tokens, names) == Ok(map[])
  {
    SignificantTokens(tokens);
    NothingOpens(WithoutNoise(tokens));
  }

  lemma {:induction false} EndIsRead(s: State, tokens: seq<Token>, names: Names)
    requires tokens != []
    ensures Scan(s, tokens, names).end in tokens
    decreases tokens
  {
    hide Next, Ends;
    if |tokens| > 1 {
      EndIsRead(Next(s, tokens[0], names), tokens[1..], names);
    }
  }

  lemma {:induction false} NothingCloses(tokens: seq<Token>, names: Names)
    requires forall t :: t in tokens ==> t != CLOSE
    ensures Definitions(tokens, names) == None
    decreases |tokens|
  {
    if tokens != [] {
      hide Scan, Outcome;
      EndIsRead(START, tokens, names);
      var rest := tokens[Scan(START, tokens, names).read..];
      assert forall t :: t in rest ==> t in tokens;
      NothingCloses(rest, names);
    }
  }

  /** A table that never closes is an error. */
  lemma UnclosedTableIsAnError(head: seq<Token>, body: seq<Token>, names: Names)
    requires forall t :: t in head ==> t != OPEN
    requires forall t :: t in head + body ==> t.kind != Whitespace && t.kind != Comment
    requires forall t :: t in body ==> t != CLOSE
    ensures ParseTable(head + ([OPEN] + body), names) == Err(EmptyDefinition)
  {
    var tokens := head + ([OPEN] + body);
    assert forall t :: t in tokens ==> t in head + body || t == OPEN;
    NothingToSkip(tokens);
    assert forall k :: 0 <= k < |head| ==> head[k] in head;
    HeadIsSkipped(head, body);
    NothingCloses(body, names);
  }

  lemma {:induction false} NothingToSkip(tokens: seq<Token>)
    requires forall t :: t in tokens ==> t.kind != Whitespace && t.kind != Comment
    ensures WithoutNoise(tokens) == tokens
  {
    if tokens != [] {
      assert tokens[0] in tokens && forall t :: t in tokens[1..] ==> t in tokens;
      NothingToSkip(tokens[1..]);
      assert tokens == [tokens[0]] + tokens[1..];
    }
  }
}

/** The expression of a CHECK constraint, and the one-pass search for the columns it refers to. */
module CheckExpressions {
  import opened Outcomes
  import opened Quoting
  import opened SqlTokens

  /** The declared column names by folded name. */
  type Names = map<string, string>

  function Key(t: Token): string {
    IdentifierKey(UnquoteIdentifier(t.value))
  }

  function Lookup(names: Names, key: string): Option<string> {
    if key in names then Some(names[key]) else None
  }

  // ----- The search, token by token -----

  /** `pending` is a name that is a column unless an opening parenthesis follows. `expects` says that an
      operand comes next, `needs` that the name of a collation does. */
  datatype Search = Search(pending: Option<string>, expects: bool, needs: bool, columns: seq<string>)

  predicate IsConstantWord(t: Token) {
    t.kind == Keyword && Upper(t.value) in
      {"CURRENT_DATE", "CURRENT_TIME", "CURRENT_TIMESTAMP", "FALSE", "NULL", "TRUE"}
  }

  predicate IsGlueWord(t: Token) {
    t.kind == Keyword && Upper(t.value) in
      {"AND", "AS", "BETWEEN", "CASE", "ELSE", "ESCAPE", "IN", "IS", "OR", "THEN", "WHEN"}
  }

  /** A word that is an operator, or ends CASE, unless an operand is expected. */
  predicate IsTurn(t: Token) {
    t.kind != Symbol && Key(t) in {"end", "like", "glob"}
  }

  predicate IsNameKind(k: Kind) {
    k == Name || k == Keyword || k == Symbol
  }

  function Flushed(c: Search): Search {
    c.(pending := None, columns := if c.pending.Some? then c.columns + [c.pending.value] else c.columns)
  }

  /** A token decides about the name before it. */
  function Settle(c: Search, t: Token): Search {
    if IsPunctuation(t, "(") then c.(pending := None) else Flushed(c)
  }

  /** A token inside the parentheses of a CHECK, once the name before it is settled. */
  function Read(c: Search, t: Token, names: Names): Search {
    if c.needs then c.(needs := false)
    else if t.kind == Punctuation then c.(expects := t.value == "(" || t.value == ",")
    else if IsKeyword(t, "COLLATE") then c.(needs := true)
    else if IsConstantWord(t) then c.(expects := false)
    else if IsKeyword(t, "NOT") then c
    else if IsGlueWord(t) then c.(expects := true)
    else if IsTurn(t) && !c.expects then c.(expects := Key(t) != "end")
    else if IsNameKind(t.kind) || (c.expects && InOperator(t.kind) && Key(t) == "like") then
      c.(pending := Lookup(names, Key(t)), expects := false)
    else c.(expects := InOperator(t.kind))
  }

  function Look(c: Search, t: Token, names: Names): Search {
    Read(Settle(c, t), t, names)
  }

  function Looked(c: Search, tokens: seq<Token>, names: Names): Search
    decreases tokens
  {
    if tokens == [] then c else Looked(Look(c, tokens[0], names), tokens[1..], names)
  }

  lemma {:induction false} LookedAppend(c: Search, a: seq<Token>, b: seq<Token>, names: Names)
    ensures Looked(c, a + b, names) == Looked(Looked(c, a, names), b, names)
    decreases a
  {
    if a == [] {
      assert a + b == b;
    } else {
      assert (a + b)[1..] == a[1..] + b;
      LookedAppend(Look(c, a[0], names), a[1..], b, names);
    }
  }

  // ----- Expressions -----

  datatype Expr =
    | Reference(token: Token)
    | Literal(token: Token)
    | Call(callee: Token, arguments: Exprs)
    | Row(items: Exprs)
    | Prefix(operator: Token, operand: Expr)
    | Infix(left: Expr, negation: Option<Token>, operator: Token, right: Expr)
    | Between(operand: Expr, negation: Option<Token>, between: Token, low: Expr, conjunction: Token, high: Expr)
    | Among(operand: Expr, negation: Option<Token>, among: Token, members: Exprs)
    | Collated(operand: Expr, collate: Token, collation: Token)
    | Cast(callee: Token, operand: Expr, asWord: Token, target: Token, size: Exprs)
    | Case(case_: Token, subject: Option<Expr>, whens: Whens, otherwise: Option<Otherwise>, end: Token)

  /** Expressions separated by commas. */
  datatype Exprs = Nil | Cons(head: Expr, tail: Exprs)

  datatype Whens = Done | When(when: Token, condition: Expr, then_: Token, result: Expr, more: Whens)

  datatype Otherwise = Otherwise(else_: Token, value: Expr)

  function PrintOption(t: Option<Token>): seq<Token> {
    if t.Some? then [t.value] else []
  }

  function Print(e: Expr): seq<Token>
    decreases e
  {
    match e
    case Reference(t) => [t]
    case Literal(t) => [t]
    case Call(f, arguments) => [f] + Parens(PrintList(arguments))
    case Row(items) => Parens(PrintList(items))
    case Prefix(op, operand) => [op] + Print(operand)
    case Infix(left, negation, op, right) => Print(left) + (PrintOption(negation) + ([op] + Print(right)))
    case Between(operand, negation, between, low, conjunction, high) =>
      Print(operand) + (PrintOption(negation) + ([between] + (Print(low) + ([conjunction] + Print(high)))))
    case Among(operand, negation, among, members) =>
      Print(operand) + (PrintOption(negation) + ([among] + Parens(PrintList(members))))
    case Collated(operand, collate, collation) => Print(operand) + [collate, collation]
    case Cast(callee, operand, asWord, target, size) =>
      [callee] + Parens(Print(operand) + ([asWord] + ([target] + (if size.Nil? then [] else Parens(PrintList(size))))))
    case Case(word, subject, whens, otherwise, end) =>
      [word] + ((if subject.Some? then Print(subject.value) else []) +
                (PrintWhens(whens) +
                 ((if otherwise.Some? then [otherwise.value.else_] + Print(otherwise.value.value) else []) + [end])))
  }

  function Parens(tokens: seq<Token>): seq<Token> {
    [OPEN] + tokens + [CLOSE]
  }

  function PrintList(list: Exprs): seq<Token>
    decreases list
  {
    match list
    case Nil => []
    case Cons(head, tail) => Print(head) + (if tail.Nil? then [] else [COMMA] + PrintList(tail))
  }

  function PrintWhens(whens: Whens): seq<Token>
    decreases whens
  {
    match whens
    case Done => []
    case When(when, condition, then_, result, more) =>
      [when] + (Print(condition) + ([then_] + (Print(result) + PrintWhens(more))))
  }

  // ----- Well-formed expressions -----

  /** A token that starts no constraint. */
  predicate Quiet(t: Token) {
    !IsKeyword(t, "CHECK") && !IsKeyword(t, "UNIQUE")
  }

  /** The keywords that stand for a value. */
  predicate IsConstant(t: Token) {
    t.kind == Keyword && Upper(t.value) in
      {"NULL", "TRUE", "FALSE", "CURRENT_TIME", "CURRENT_DATE", "CURRENT_TIMESTAMP"}
  }

  /** The keywords with a fixed role in expressions. */
  predicate IsReserved(t: Token) {
    t.kind == Keyword && Upper(t.value) in
      {"CASE", "WHEN", "THEN", "ELSE", "BETWEEN", "AND", "OR", "NOT", "IN", "IS", "ESCAPE", "AS", "COLLATE"}
  }

  /** LIKE and GLOB, written in any way but in double quotes. */
  predicate IsMatchWord(t: Token) {
    t.kind != Symbol && Key(t) in {"like", "glob"}
  }

  predicate IsEndWord(t: Token) {
    t.kind != Symbol && Key(t) == "end"
  }

  /** A token without a fixed role in expressions. */
  predicate Plain(t: Token) {
    t.kind != Punctuation && Quiet(t) && !IsConstant(t) && !IsReserved(t)
  }

  predicate IsName(t: Token) {
    Plain(t) && (t.kind in {Name, Keyword, Symbol} || (t.kind in {Operator, Comparison} && Key(t) == "like"))
  }

  predicate IsCallee(t: Token) {
    IsName(t) || (Plain(t) && t.kind == Other)
  }

  predicate IsLiteral(t: Token) {
    IsConstant(t) || (Plain(t) && t.kind in {Number, Single, Wildcard, Other})
  }

  predicate IsPrefix(t: Token) {
    IsKeyword(t, "NOT") || (Plain(t) && t.kind in {Operator, Comparison} && !IsMatchWord(t) && !IsEndWord(t))
  }

  /** An infix operator after which the search expects an operand. */
  predicate IsInfix(t: Token) {
    || (t.kind == Keyword && Upper(t.value) in {"AND", "OR", "IS", "ESCAPE"})
    || (Plain(t) && (IsMatchWord(t) || (t.kind in {Operator, Comparison} && !IsEndWord(t))))
  }

  /** The multiplication sign, which the tokenizer reports as a wildcard. */
  predicate IsTimes(t: Token) {
    Plain(t) && t.kind == Wildcard && !IsMatchWord(t) && !IsEndWord(t)
  }

  predicate IsNegation(t: Option<Token>) {
    t.Some? ==> IsKeyword(t.value, "NOT")
  }

  /** A type word that is not also the name of a column. */
  predicate IsTypeWord(t: Token, names: Names) {
    Plain(t) && (t.kind == Other || (t.kind in {Name, Keyword, Symbol} && Key(t) !in names))
  }

  predicate IsSpecial(t: Token) {
    IsMatchWord(t) || IsEndWord(t)
  }

  /** The first token is not END, LIKE or GLOB, so that nothing depends on an operand being expected. */
  predicate StartsSafely(e: Expr)
    decreases e
  {
    match e
    case Reference(t) => !IsSpecial(t)
    case Literal(t) => !IsSpecial(t)
    case Call(f, _) => !IsSpecial(f)
    case Row(_) => true
    case Prefix(op, operand) => IsKeyword(op, "NOT") ==> StartsSafely(operand)
    case Infix(left, _, _, _) => StartsSafely(left)
    case Between(operand, _, _, _, _, _) => StartsSafely(operand)
    case Among(operand, _, _, _) => StartsSafely(operand)
    case Collated(operand, _, _) => StartsSafely(operand)
    case Cast(callee, _, _, _, _) => !IsSpecial(callee)
    case Case(_, _, _, _, _) => true
  }

  predicate IsGlue(t: Token, word: string)
    requires word in {"AND", "AS", "BETWEEN", "CASE", "ELSE", "IN", "THEN", "WHEN"}
  {
    IsKeyword(t, word)
  }

  predicate Good(e: Expr, names: Names)
    decreases e
  {
    match e
    case Reference(t) => IsName(t)
    case Literal(t) => IsLiteral(t)
    case Call(f, arguments) => IsCallee(f) && GoodList(arguments, names)
    case Row(items) => GoodList(items, names)
    case Prefix(op, operand) => IsPrefix(op) && Good(operand, names)
    case Infix(left, negation, op, right) =>
      Good(left, names) && IsNegation(negation) && Good(right, names) &&
      (IsInfix(op) || (IsTimes(op) && StartsSafely(right)))
    case Between(operand, negation, between, low, conjunction, high) =>
      Good(operand, names) && IsNegation(negation) && IsGlue(between, "BETWEEN") && Good(low, names) &&
      IsGlue(conjunction, "AND") && Good(high, names)
    case Among(operand, negation, among, members) =>
      Good(operand, names) && IsNegation(negation) && IsGlue(among, "IN") && GoodList(members, names)
    case Collated(operand, collate, collation) =>
      Good(operand, names) && IsKeyword(collate, "COLLATE") && !IsParen(collation) && Quiet(collation)
    case Cast(callee, operand, asWord, target, size) =>
      IsCallee(callee) && Good(operand, names) && IsGlue(asWord, "AS") && IsTypeWord(target, names) &&
      GoodList(size, names)
    case Case(word, subject, whens, otherwise, end) =>
      IsGlue(word, "CASE") && (subject.Some? ==> Good(subject.value, names)) &&
      whens.When? && GoodWhens(whens, names) &&
      (otherwise.Some? ==> IsGlue(otherwise.value.else_, "ELSE") && Good(otherwise.value.value, names)) &&
      Plain(end) && IsEndWord(end)
  }

  predicate GoodList(list: Exprs, names: Names)
    decreases list
  {
    list.Nil? || (Good(list.head, names) && GoodList(list.tail, names))
  }

  predicate GoodWhens(whens: Whens, names: Names)
    decreases whens
  {
    match whens
    case Done => true
    case When(when, condition, then_, result, more) =>
      IsGlue(when, "WHEN") && Good(condition, names) && IsGlue(then_, "THEN") && Good(result, names) &&
      GoodWhens(more, names)
  }

  // ----- What an expression refers to -----

  function ColumnOf(t: Token, names: Names): seq<string> {
    if Key(t) in names then [names[Key(t)]] else []
  }

  /** The declared columns an expression refers to, from left to right. */
  function Columns(e: Expr, names: Names): seq<string>
    decreases e
  {
    match e
    case Reference(t) => ColumnOf(t, names)
    case Literal(_) => []
    case Call(_, arguments) => ColumnsOfList(arguments, names)
    case Row(items) => ColumnsOfList(items, names)
    case Prefix(_, operand) => Columns(operand, names)
    case Infix(left, _, _, right) => Columns(left, names) + Columns(right, names)
    case Between(operand, _, _, low, _, high) =>
      Columns(operand, names) + Columns(low, names) + Columns(high, names)
    case Among(operand, _, _, members) => Columns(operand, names) + ColumnsOfList(members, names)
    case Collated(operand, _, _) => Columns(operand, names)
    case Cast(_, operand, _, _, size) => Columns(operand, names) + ColumnsOfList(size, names)
    case Case(_, subject, whens, otherwise, _) =>
      (if subject.Some? then Columns(subject.value, names) else []) + ColumnsOfWhens(whens, names) +
      (if otherwise.Some? then Columns(otherwise.value.value, names) else [])
  }

  function ColumnsOfList(list: Exprs, names: Names): seq<string>
    decreases list
  {
    if list.Nil? then [] else Columns(list.head, names) + ColumnsOfList(list.tail, names)
  }

  function ColumnsOfWhens(whens: Whens, names: Names): seq<string>
    decreases whens
  {
    match whens
    case Done => []
    case When(_, condition, _, result, more) =>
      Columns(condition, names) + Columns(result, names) + ColumnsOfWhens(more, names)
  }

  // ----- The search finds exactly those -----

  /** Between two tokens, with no name pending. */
  predicate Idle(c: Search) {
    c.pending.None? && !c.needs
  }

  function Found(columns: seq<string>): Search {
    Search(None, false, false, columns)
  }

  /** An operand has just been read; its last name may still be pending. */
  predicate Closes(c: Search, columns: seq<string>) {
    Flushed(c) == Found(columns)
  }

  /** No collation is awaited, and these columns have been found. */
  predicate Ready(c: Search, columns: seq<string>) {
    !c.needs && Flushed(c).columns == columns
  }

  lemma ClosesIsReady(c: Search, columns: seq<string>)
    requires Closes(c, columns)
    ensures Ready(c, columns)
  {
  }

  lemma LookedCons(c: Search, t: Token, rest: seq<Token>, names: Names)
    ensures Looked(c, [t] + rest, names) == Looked(Look(c, t, names), rest, names)
  {
    assert ([t] + rest)[1..] == rest;
  }

  lemma LookedOne(c: Search, t: Token, names: Names)
    ensures Looked(c, [t], names) == Look(c, t, names)
  {
    assert [t][1..] == [];
  }

  /** A token other than an opening parenthesis completes the name before it. */
  lemma LookAfter(c: Search, columns: seq<string>, t: Token, names: Names)
    requires Closes(c, columns) && !IsPunctuation(t, "(")
    ensures Look(c, t, names) == Read(Found(columns), t, names)
  {
  }

  /** An optional NOT after an operand changes nothing. */
  lemma LookNegation(c: Search, columns: seq<string>, negation: Option<Token>, rest: seq<Token>, names: Names)
      returns (d: Search)
    requires Closes(c, columns) && IsNegation(negation)
    ensures Closes(d, columns) && Looked(c, PrintOption(negation) + rest, names) == Looked(d, rest, names)
  {
    if negation.None? {
      assert PrintOption(negation) + rest == rest;
      d := c;
    } else {
      LookAfter(c, columns, negation.value, names);
      LookedCons(c, negation.value, rest, names);
      d := Look(c, negation.value, names);
    }
  }

  /** After an infix word the next operand is expected. */
  lemma LookInfix(c: Search, columns: seq<string>, t: Token, names: Names)
    requires Closes(c, columns) && (IsGlueWord(t) || IsInfix(t) || IsTimes(t))
    ensures Look(c, t, names) == Search(None, !IsTimes(t), false, columns)
  {
    LookAfter(c, columns, t, names);
    hide Key;
  }

  /** An infix word between two operands. */
  lemma LookOperator(
      c: Search, columns: seq<string>, negation: Option<Token>, t: Token, rest: seq<Token>, names: Names)
    requires Closes(c, columns) && IsNegation(negation) && (IsGlueWord(t) || IsInfix(t) || IsTimes(t))
    ensures Looked(c, PrintOption(negation) + ([t] + rest), names) ==
            Looked(Search(None, !IsTimes(t), false, columns), rest, names)
  {
    var d := LookNegation(c, columns, negation, [t] + rest, names);
    LookedCons(d, t, rest, names);
    LookInfix(d, columns, t, names);
  }

  /** A name, a literal, or the name of a function where an operand may start. */
  lemma LookOperand(c: Search, t: Token, names: Names)
    requires Idle(c) && (c.expects || !IsTurn(t)) && (IsCallee(t) || IsLiteral(t))
    ensures var d := Look(c, t, names);
      && !d.needs && Closes(d, c.columns + if IsName(t) then ColumnOf(t, names) else [])
      && d.columns == c.columns
    ensures IsLiteral(t) ==> !IsName(t)
  {
    hide Key;
  }

  /** The word that opens CASE, or follows a finished operand inside it or inside CAST. */
  lemma LookGlue(c: Search, columns: seq<string>, t: Token, rest: seq<Token>, names: Names)
    requires Ready(c, columns) && IsGlueWord(t)
    ensures Looked(c, [t] + rest, names) == Looked(Search(None, true, false, columns), rest, names)
  {
    LookedCons(c, t, rest, names);
    assert Look(c, t, names) == Search(None, true, false, columns);
  }

  lemma {:induction false} LookExpr(e: Expr, c: Search, names: Names)
    requires Good(e, names) && Idle(c) && (c.expects || StartsSafely(e))
    ensures Closes(Looked(c, Print(e), names), c.columns + Columns(e, names))
    decreases e, 1
  {
    match e
    case Reference(t) =>
      LookOperand(c, t, names);
      LookedOne(c, t, names);
    case Literal(t) =>
      LookOperand(c, t, names);
      LookedOne(c, t, names);
    case Call(f, arguments) =>
      LookOperand(c, f, names);
      LookedCons(c, f, Parens(PrintList(arguments)), names);
      LookParens(arguments, Look(c, f, names), names);
    case Row(items) =>
      LookParens(items, c, names);
    case Prefix(op, operand) =>
      LookPrefix(e, c, names);
    case Infix(left, negation, op, right) =>
      LookInfixed(e, c, names);
    case Between(operand, negation, between, low, conjunction, high) =>
      LookBetween(e, c, names);
    case Among(operand, negation, among, members) =>
      LookAmong(e, c, names);
    case Collated(operand, collate, collation) =>
      LookCollated(e, c, names);
    case Cast(callee, operand, asWord, target, size) =>
      LookCast(e, c, names);
    case Case(word, subject, whens, otherwise, end) =>
      LookCase(e, c, names);
  }

  /** An expression and what follows it. */
  lemma {:induction false} LookThen(e: Expr, c: Search, rest: seq<Token>, names: Names) returns (d: Search)
    requires Good(e, names) && Idle(c) && (c.expects || StartsSafely(e))
    ensures Closes(d, c.columns + Columns(e, names))
    ensures Looked(c, Print(e) + rest, names) == Looked(d, rest, names)
    decreases e, 2
  {
    LookExpr(e, c, names);
    LookedAppend(c, Print(e), rest, names);
    d := Looked(c, Print(e), names);
  }

  lemma {:induction false} LookPrefix(e: Expr, c: Search, names: Names)
    requires e.Prefix? && Good(e, names) && Idle(c) && (c.expects || StartsSafely(e))
    ensures Closes(Looked(c, Print(e), names), c.columns + Columns(e, names))
    decreases e, 0
  {
    LookedCons(c, e.operator, Print(e.operand), names);
    var d := Look(c, e.operator, names);
    assert d == c.(expects := if IsKeyword(e.operator, "NOT") then c.expects else true) by {
      hide Key;
    }
    LookExpr(e.operand, d, names);
  }

  lemma TimesIsNoInfix(t: Token)
    requires IsTimes(t)
    ensures !IsInfix(t)
  {
  }

  lemma {:induction false} LookInfixed(e: Expr, c: Search, names: Names)
    requires e.Infix? && Good(e, names) && Idle(c) && (c.expects || StartsSafely(e))
    ensures Closes(Looked(c, Print(e), names), c.columns + Columns(e, names))
    decreases e, 0
  {
    hide Look, Looked, Read, Closes, Key, IsTurn, Plain, IsName, IsLiteral, IsConstantWord, IsNegation;
    var d := LookThen(e.left, c, PrintOption(e.negation) + ([e.operator] + Print(e.right)), names);
    var columns := c.columns + Columns(e.left, names);
    if IsTimes(e.operator) {
      TimesIsNoInfix(e.operator);
    }
    hide IsInfix, IsTimes;
    LookOperator(d, columns, e.negation, e.operator, Print(e.right), names);
    LookExpr(e.right, Search(None, !IsTimes(e.operator), false, columns), names);
    assert columns + Columns(e.right, names) == c.columns + Columns(e, names);
  }

  lemma {:induction false} LookBetween(e: Expr, c: Search, names: Names)
    requires e.Between? && Good(e, names) && Idle(c) && (c.expects || StartsSafely(e))
    ensures Closes(Looked(c, Print(e), names), c.columns + Columns(e, names))
    decreases e, 0
  {
    var ending := [e.conjunction] + Print(e.high);
    var c0 := c.columns + Columns(e.operand, names);
    var c1 := c0 + Columns(e.low, names);
    BetweenParts(e, c, names);
    BetweenPrint(e, c.columns, names);
    hide *;
    var d := LookThen(e.operand, c, PrintOption(e.negation) + ([e.between] + (Print(e.low) + ending)), names);
    LookOperator(d, c0, e.negation, e.between, Print(e.low) + ending, names);
    IdleSearch(c0);
    IdleSearch(c1);
    d := LookThen(e.low, Search(None, true, false, c0), ending, names);
    ClosesIsReady(d, c1);
    LookGlue(d, c1, e.conjunction, Print(e.high), names);
    LookExpr(e.high, Search(None, true, false, c1), names);
  }

  lemma BetweenParts(e: Expr, c: Search, names: Names)
    requires e.Between? && Good(e, names) && (c.expects || StartsSafely(e))
    ensures Good(e.operand, names) && Good(e.low, names) && Good(e.high, names)
    ensures IsNegation(e.negation) && IsGlueWord(e.between) && !IsTimes(e.between) && IsGlueWord(e.conjunction)
    ensures c.expects || StartsSafely(e.operand)
  {
    hide IsTurn, Plain, IsName, IsLiteral, IsPrefix, IsInfix, IsCallee, IsTypeWord, IsNegation, GoodList, GoodWhens;
  }

  lemma {:induction false} BetweenPrint(e: Expr, columns: seq<string>, names: Names)
    requires e.Between?
    ensures Print(e) == Print(e.operand) +
                        (PrintOption(e.negation) + ([e.between] + (Print(e.low) + ([e.conjunction] + Print(e.high)))))
    ensures columns + Columns(e.operand, names) + Columns(e.low, names) + Columns(e.high, names) ==
            columns + Columns(e, names)
  {
    Joined(columns, Columns(e.operand, names), Columns(e.low, names), Columns(e.high, names));
  }

  lemma Joined(a: seq<string>, b: seq<string>, c: seq<string>, d: seq<string>)
    ensures a + b + c + d == a + (b + c + d)
  {
  }

  lemma {:induction false} LookAmong(e: Expr, c: Search, names: Names)
    requires e.Among? && Good(e, names) && Idle(c) && (c.expects || StartsSafely(e))
    ensures Closes(Looked(c, Print(e), names), c.columns + Columns(e, names))
    decreases e, 0
  {
    hide Look, Looked, Read, Closes, Key, IsTurn, Plain, IsName, IsLiteral, IsConstantWord, IsNegation;
    var members := Parens(PrintList(e.members));
    var d := LookThen(e.operand, c, PrintOption(e.negation) + ([e.among] + members), names);
    var columns := c.columns + Columns(e.operand, names);
    LookOperator(d, columns, e.negation, e.among, members, names);
    LookParens(e.members, Search(None, true, false, columns), names);
    assert columns + ColumnsOfList(e.members, names) == c.columns + Columns(e, names);
  }

  lemma {:induction false} LookCollated(e: Expr, c: Search, names: Names)
    requires e.Collated? && Good(e, names) && Idle(c) && (c.expects || StartsSafely(e))
    ensures Closes(Looked(c, Print(e), names), c.columns + Columns(e, names))
    decreases e, 0
  {
    var d := LookThen(e.operand, c, [e.collate, e.collation], names);
    var columns := c.columns + Columns(e.operand, names);
    assert [e.collate, e.collation] == [e.collate] + [e.collation];
    LookedCons(d, e.collate, [e.collation], names);
    LookAfter(d, columns, e.collate, names);
    LookedOne(Look(d, e.collate, names), e.collation, names);
  }

  lemma {:induction false} LookCast(e: Expr, c: Search, names: Names)
    requires e.Cast? && Good(e, names) && Idle(c) && (c.expects || StartsSafely(e))
    ensures Closes(Looked(c, Print(e), names), c.columns + Columns(e, names))
    decreases e, 0
  {
    var size := if e.size.Nil? then [] else Parens(PrintList(e.size));
    var inner := Print(e.operand) + ([e.asWord] + ([e.target] + size));
    var columns := c.columns + Columns(e.operand, names);
    assert IsCallee(e.callee) && IsGlueWord(e.asWord) && IsTypeWord(e.target, names);
    assert Print(e) == [e.callee] + Parens(inner);
    assert columns + ColumnsOfList(e.size, names) == c.columns + Columns(e, names);
    hide Look, Looked, Closes, Key, IsTurn, Plain, IsName, IsLiteral, IsCallee, IsTypeWord, IsGlueWord, Parens;
    LookOperand(c, e.callee, names);
    LookedCons(c, e.callee, Parens(inner), names);
    var inside := Search(None, true, false, c.columns);
    LookOpen(Look(c, e.callee, names), inner, names);
    var d := LookThen(e.operand, inside, [e.asWord] + ([e.target] + size), names);
    ClosesIsReady(d, columns);
    LookGlue(d, columns, e.asWord, [e.target] + size, names);
    LookedCons(Search(None, true, false, columns), e.target, size, names);
    LookType(columns, e.target, names);
    LookSize(e, columns, names);
    LookClose(inside, inner, columns + ColumnsOfList(e.size, names), names);
  }

  lemma LookType(columns: seq<string>, t: Token, names: Names)
    requires IsTypeWord(t, names)
    ensures Look(Search(None, true, false, columns), t, names) == Found(columns)
  {
    hide Key;
  }

  lemma {:induction false} LookSize(e: Expr, columns: seq<string>, names: Names)
    requires e.Cast? && GoodList(e.size, names)
    ensures var size := if e.size.Nil? then [] else Parens(PrintList(e.size));
      Closes(Looked(Found(columns), size, names), columns + ColumnsOfList(e.size, names))
    decreases e, 0, 0
  {
    if e.size.Cons? {
      LookParens(e.size, Found(columns), names);
    }
  }

  lemma LookOpen(c: Search, inner: seq<Token>, names: Names)
    requires !c.needs
    ensures Looked(c, Parens(inner), names) == Looked(Search(None, true, false, c.columns), inner + [CLOSE], names)
  {
    assert Parens(inner) == [OPEN] + (inner + [CLOSE]);
    LookedCons(c, OPEN, inner + [CLOSE], names);
  }

  lemma {:induction false} LookClose(c: Search, inner: seq<Token>, columns: seq<string>, names: Names)
    requires Closes(Looked(c, inner, names), columns)
    ensures Looked(c, inner + [CLOSE], names) == Found(columns)
  {
    LookedAppend(c, inner, [CLOSE], names);
    LookedOne(Looked(c, inner, names), CLOSE, names);
    LookAfter(Looked(c, inner, names), columns, CLOSE, names);
  }

  /** Nothing that stands before an opening parenthesis is a column. */
  lemma {:induction false} LookParens(list: Exprs, c: Search, names: Names)
    requires GoodList(list, names) && !c.needs
    ensures Closes(Looked(c, Parens(PrintList(list)), names), c.columns + ColumnsOfList(list, names))
    decreases list, 3
  {
    var inside := Search(None, true, false, c.columns);
    LookOpen(c, PrintList(list), names);
    if list.Nil? {
      assert PrintList(list) + [CLOSE] == [CLOSE];
      LookedOne(inside, CLOSE, names);
    } else {
      LookList(list, inside, names);
      LookClose(inside, PrintList(list), c.columns + ColumnsOfList(list, names), names);
    }
  }

  lemma {:induction false} LookList(list: Exprs, c: Search, names: Names)
    requires list.Cons? && GoodList(list, names) && Idle(c) && c.expects
    ensures Closes(Looked(c, PrintList(list), names), c.columns + ColumnsOfList(list, names))
    decreases list, 2
  {
    hide Looked, Closes, Key, Print, Columns, Good, IsTurn, Plain, StartsSafely;
    var columns := c.columns + Columns(list.head, names);
    assert columns + ColumnsOfList(list.tail, names) == c.columns + ColumnsOfList(list, names);
    if list.tail.Nil? {
      assert PrintList(list) == Print(list.head);
      assert columns + ColumnsOfList(list.tail, names) == columns;
      LookExpr(list.head, c, names);
    } else {
      var d := LookThen(list.head, c, [COMMA] + PrintList(list.tail), names);
      LookedCons(d, COMMA, PrintList(list.tail), names);
      LookAfter(d, columns, COMMA, names);
      LookList(list.tail, Search(None, true, false, columns), names);
    }
  }

  lemma {:induction false} LookWhens(whens: Whens, c: Search, columns: seq<string>, names: Names)
    requires whens.When? && GoodWhens(whens, names) && Ready(c, columns)
    ensures Closes(Looked(c, PrintWhens(whens), names), columns + ColumnsOfWhens(whens, names))
    decreases whens, 2
  {
    hide Looked, Closes, Ready, Key, Print, Columns, Good, IsTurn, Plain, StartsSafely;
    var more := PrintWhens(whens.more);
    var seen := columns + Columns(whens.condition, names);
    var all := seen + Columns(whens.result, names);
    assert all + ColumnsOfWhens(whens.more, names) == columns + ColumnsOfWhens(whens, names);
    assert IsGlueWord(whens.when) && IsGlueWord(whens.then_);
    LookGlue(c, columns, whens.when, Print(whens.condition) + ([whens.then_] + (Print(whens.result) + more)), names);
    var d := LookThen(whens.condition, Search(None, true, false, columns),
                      [whens.then_] + (Print(whens.result) + more), names);
    ClosesIsReady(d, seen);
    LookGlue(d, seen, whens.then_, Print(whens.result) + more, names);
    d := LookThen(whens.result, Search(None, true, false, seen), more, names);
    if whens.more.Done? {
      LookedNone(d, names);
      assert all + ColumnsOfWhens(whens.more, names) == all;
    } else {
      ClosesIsReady(d, all);
      LookWhens(whens.more, d, all, names);
    }
  }

  lemma LookedNone(c: Search, names: Names)
    ensures Looked(c, [], names) == c
  {
  }

  /** CASE, an optional subject, the alternatives, an optional ELSE, and END. */
  lemma {:induction false} LookCase(e: Expr, c: Search, names: Names)
    requires e.Case? && Good(e, names) && Idle(c) && (c.expects || StartsSafely(e))
    ensures Closes(Looked(c, Print(e), names), c.columns + Columns(e, names))
    decreases e, 0
  {
    var body := PrintWhens(e.whens) + Ending(e);
    var c0 := c.columns + SubjectColumns(e, names);
    CaseParts(e, c.columns, names);
    assert IsGlueWord(e.case_) && e.whens.When? && GoodWhens(e.whens, names);
    assert e.subject.Some? ==> Good(e.subject.value, names);
    hide *;
    assert Ready(c, c.columns) by {
      IdleIsReady(c);
    }
    LookGlue(c, c.columns, e.case_, Subject(e) + body, names);
    IdleSearch(c.columns);
    var d := LookSubject(e, Search(None, true, false, c.columns), body, names);
    LookWhens(e.whens, d, c0, names);
    LookedAppend(d, PrintWhens(e.whens), Ending(e), names);
    LookEnding(e, Looked(d, PrintWhens(e.whens), names), c0 + ColumnsOfWhens(e.whens, names), names);
  }

  lemma IdleIsReady(c: Search)
    requires Idle(c)
    ensures Ready(c, c.columns)
  {
  }

  lemma IdleSearch(columns: seq<string>)
    ensures Idle(Search(None, true, false, columns))
  {
  }

  lemma {:induction false} CaseParts(e: Expr, columns: seq<string>, names: Names)
    requires e.Case?
    ensures Print(e) == [e.case_] + (Subject(e) + (PrintWhens(e.whens) + Ending(e)))
    ensures columns + SubjectColumns(e, names) + ColumnsOfWhens(e.whens, names) + EndingColumns(e, names) ==
            columns + Columns(e, names)
  {
    Joined(columns, SubjectColumns(e, names), ColumnsOfWhens(e.whens, names), EndingColumns(e, names));
  }

  function Subject(e: Expr): seq<Token>
    requires e.Case?
  {
    if e.subject.Some? then Print(e.subject.value) else []
  }

  function Ending(e: Expr): seq<Token>
    requires e.Case?
  {
    (if e.otherwise.Some? then [e.otherwise.value.else_] + Print(e.otherwise.value.value) else []) + [e.end]
  }

  function SubjectColumns(e: Expr, names: Names): seq<string>
    requires e.Case?
  {
    if e.subject.Some? then Columns(e.subject.value, names) else []
  }

  function EndingColumns(e: Expr, names: Names): seq<string>
    requires e.Case?
  {
    if e.otherwise.Some? then Columns(e.otherwise.value.value, names) else []
  }

  lemma {:induction false} LookSubject(e: Expr, c: Search, rest: seq<Token>, names: Names) returns (d: Search)
    requires e.Case? && (e.subject.Some? ==> Good(e.subject.value, names)) && Idle(c) && c.expects
    ensures Ready(d, c.columns + SubjectColumns(e, names))
    ensures Looked(c, Subject(e) + rest, names) == Looked(d, rest, names)
    decreases e, 0, 0
  {
    d := c;
    if e.subject.Some? {
      d := LookThen(e.subject.value, c, rest, names);
    } else {
      assert Subject(e) + rest == rest;
    }
  }

  lemma {:induction false} LookEnding(e: Expr, c: Search, columns: seq<string>, names: Names)
    requires e.Case? && Good(e, names) && Closes(c, columns)
    ensures Closes(Looked(c, Ending(e), names), columns + EndingColumns(e, names))
    decreases e, 0, 0
  {
    var last := c;
    assert Plain(e.end) && e.end.kind != Symbol && Key(e.end) == "end";
    if e.otherwise.Some? {
      var o := e.otherwise.value;
      assert IsGlueWord(o.else_) && Good(o.value, names);
      hide Good, Looked, Key, IsTurn, Plain, Print, Columns;
      assert Ending(e) == [o.else_] + (Print(o.value) + [e.end]);
      ClosesIsReady(c, columns);
      LookGlue(c, columns, o.else_, Print(o.value) + [e.end], names);
      last := LookThen(o.value, Search(None, true, false, columns), [e.end], names);
    } else {
      assert Ending(e) == [e.end];
    }
    hide Good;
    LookedOne(last, e.end, names);
    LookEnd(last, columns + EndingColumns(e, names), e.end, names);
  }

  lemma LookEnd(c: Search, columns: seq<string>, t: Token, names: Names)
    requires Closes(c, columns) && Plain(t) && t.kind != Symbol && Key(t) == "end"
    ensures Look(c, t, names) == Found(columns)
  {
    LookAfter(c, columns, t, names);
    hide Key;
  }
}

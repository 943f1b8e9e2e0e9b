/** The flags of the constraint parser along lists of tokens. */
module DefinitionRuns {
  import opened Outcomes
  import opened SqlTokens
  import opened TokenDepth
  import opened CheckExpressions
  import opened ConstraintParser

  function Run(s: State, tokens: seq<Token>, names: Names): State
    decreases tokens
  {
    if tokens == [] then s else Run(Next(s, tokens[0], names), tokens[1..], names)
  }

  /** No token ends the definition. */
  predicate Passes(depth: int, tokens: seq<Token>)
    decreases tokens
  {
    tokens == [] || (!Ends(depth, tokens[0]) && Passes(DepthAfter(depth, tokens[0]), tokens[1..]))
  }

  ghost predicate Calm(tokens: seq<Token>) {
    forall k :: 0 <= k < |tokens| ==> Quiet(tokens[k])
  }

  lemma {:induction false} RunAppend(s: State, a: seq<Token>, b: seq<Token>, names: Names)
    ensures Run(s, a + b, names) == Run(Run(s, a, names), b, names)
    decreases a
  {
    if a == [] {
      assert a + b == b;
    } else {
      hide Next;
      assert (a + b)[1..] == a[1..] + b;
      RunAppend(Next(s, a[0], names), a[1..], b, names);
    }
  }

  lemma RunOne(s: State, t: Token, names: Names)
    ensures Run(s, [t], names) == Next(s, t, names)
  {
    assert [t][1..] == [];
  }

  lemma RunCons(s: State, t: Token, rest: seq<Token>, names: Names)
    ensures Run(s, [t] + rest, names) == Run(Next(s, t, names), rest, names)
  {
    assert ([t] + rest)[1..] == rest;
  }

  lemma {:induction false} PassesAppend(depth: int, a: seq<Token>, b: seq<Token>)
    ensures Passes(depth, a + b) <==> Passes(depth, a) && Passes(Depth(depth, a), b)
    decreases a
  {
    if a == [] {
      assert a + b == b;
    } else {
      assert (a + b)[1..] == a[1..] + b;
      PassesAppend(DepthAfter(depth, a[0]), a[1..], b);
    }
  }

  lemma {:induction false} AbovePasses(depth: int, tokens: seq<Token>)
    requires depth >= 1 && Above(1, depth, tokens)
    ensures Passes(depth, tokens)
    decreases tokens
  {
    if tokens != [] {
      AbovePasses(DepthAfter(depth, tokens[0]), tokens[1..]);
    }
  }

  lemma ParensPass(tokens: seq<Token>)
    requires Closed(tokens)
    ensures Passes(0, Parens(tokens)) && Depth(0, Parens(tokens)) == 0
  {
    assert Parens(tokens) == [OPEN] + (tokens + [CLOSE]);
    assert Parens(tokens)[1..] == tokens + [CLOSE];
    assert Above(1, 1, tokens) && Depth(1, tokens) == 1;
    AbovePasses(1, tokens);
    PassesAppend(1, tokens, [CLOSE]);
    DepthAppend(0, 1, tokens, [CLOSE]);
    assert [CLOSE][1..] == [];
  }

  lemma {:induction false} WordsPass(items: seq<Item>)
    requires GoodItems(items)
    requires forall k :: 0 <= k < |items| ==> !(items[k].Leaf? && IsPunctuation(items[k].token, ","))
    ensures Passes(0, PrintItems(items)) && Depth(0, PrintItems(items)) == 0
  {
    if items != [] {
      var first, rest := PrintItem(items[0]), PrintItems(items[1..]);
      WordsPass(items[1..]);
      PassesAppend(0, first, rest);
      DepthAppend(0, 0, first, rest);
      match items[0]
      case Leaf(t) =>
        assert [t][1..] == [];
      case Group(inner) =>
        ItemsAreClosed(inner);
        ParensPass(PrintItems(inner));
    }
  }

  lemma CheckedDepth(s: State, t: Token, names: Names)
    ensures Checked(s, t, names).depth == s.depth
  {
    hide Look, Settle, IsKeyword;
  }

  lemma {:induction false} InConstraintDepth(s: State, t: Token, names: Names)
    ensures InConstraint(s, t, names).depth == s.depth
  {
    hide Checked, Declared, Unquoted, IsKeyword, IsLabelKind, IsPunctuation;
    forall k: State
      ensures Checked(k, t, names).depth == k.depth
    {
      CheckedDepth(k, t, names);
    }
  }

  lemma InColumnDepth(s: State, t: Token, names: Names)
    ensures InColumn(s, t, names).depth == s.depth
  {
    hide Checked, Unquoted, IsKeyword, IsLabelKind;
    forall k: State
      ensures Checked(k, t, names).depth == k.depth
    {
      CheckedDepth(k, t, names);
    }
  }

  lemma NextDepth(s: State, t: Token, names: Names)
    ensures Next(s, t, names).depth == DepthAfter(s.depth, t)
  {
    hide InConstraint, InColumn, IsKeyword, DepthAfter;
    forall k: State
      ensures InConstraint(k, t, names).depth == k.depth
    {
      InConstraintDepth(k, t, names);
    }
    forall k: State
      ensures InColumn(k, t, names).depth == k.depth
    {
      InColumnDepth(k, t, names);
    }
  }

  lemma {:induction false} RunDepth(s: State, tokens: seq<Token>, names: Names)
    ensures Run(s, tokens, names).depth == Depth(s.depth, tokens)
    decreases tokens
  {
    if tokens != [] {
      NextDepth(s, tokens[0], names);
      hide Next;
      RunDepth(Next(s, tokens[0], names), tokens[1..], names);
    }
  }

  /** Tokens that end nothing, and then one that does. */
  lemma {:induction false} ScanRun(s: State, tokens: seq<Token>, end: Token, rest: seq<Token>, names: Names)
    requires Passes(s.depth, tokens) && Ends(Depth(s.depth, tokens), end)
    ensures Scan(s, tokens + ([end] + rest), names) == Scanned(Run(s, tokens, names), end, |tokens| + 1)
    decreases tokens
  {
    if tokens == [] {
      assert tokens + ([end] + rest) == [end] + rest;
    } else {
      var all := tokens + ([end] + rest);
      assert all[0] == tokens[0] && all[1..] == tokens[1..] + ([end] + rest);
      var next := Next(s, tokens[0], names);
      NextDepth(s, tokens[0], names);
      hide Next, Ends;
      ScanRun(next, tokens[1..], end, rest, names);
    }
  }

  // ----- Tokens that change nothing -----

  /** Outside UNIQUE and CHECK, with everything about the definition known. */
  predicate Asleep(s: State) {
    && s.constraint.Some? && !s.check && s.search.pending.None?
    && (if s.constraint.value then !s.unique && (s.named ==> s.title.Some?) else s.field.Some?)
  }

  lemma SleepStep(s: State, t: Token, names: Names)
    requires Asleep(s) && Quiet(t)
    ensures Next(s, t, names) == s.(depth := DepthAfter(s.depth, t))
  {
    hide DepthAfter, Look, Settle, Declared, Upper;
  }

  lemma {:induction false} SleepRun(s: State, tokens: seq<Token>, names: Names)
    requires Asleep(s) && Calm(tokens)
    ensures Run(s, tokens, names) == s.(depth := Depth(s.depth, tokens))
    decreases tokens
  {
    if tokens != [] {
      SleepStep(s, tokens[0], names);
      hide Next, DepthAfter, Quiet;
      SleepRun(s.(depth := DepthAfter(s.depth, tokens[0])), tokens[1..], names);
    }
  }

  lemma ParensRun(s: State, word: Token, s1: State, s2: State, tokens: seq<Token>, names: Names)
    requires Next(s, word, names) == s1 && Next(s1, OPEN, names) == s2
    ensures Run(s, [word] + Parens(tokens), names) == Run(s2, tokens + [CLOSE], names)
  {
    hide Next, Run;
    RunCons(s, word, Parens(tokens), names);
    assert Parens(tokens) == [OPEN] + (tokens + [CLOSE]);
    RunCons(s1, OPEN, tokens + [CLOSE], names);
  }

  // ----- CHECK -----

  /** Inside the parentheses of a CHECK. */
  predicate Awake(s: State) {
    s.check && s.depth > s.checkDepth && Asleep(s.(check := false, search := Found([])))
  }

  lemma WakeStep(s: State, t: Token, names: Names)
    requires Awake(s) && Quiet(t) && DepthAfter(s.depth, t) > s.checkDepth
    ensures Next(s, t, names) == s.(depth := DepthAfter(s.depth, t), search := Look(s.search, t, names))
  {
    hide DepthAfter, Look, Settle, Declared, Upper;
  }

  lemma {:induction false} WakeRun(s: State, tokens: seq<Token>, names: Names)
    requires Awake(s) && Calm(tokens) && Above(s.checkDepth + 1, s.depth, tokens)
    ensures Run(s, tokens, names) ==
            s.(depth := Depth(s.depth, tokens), search := Looked(s.search, tokens, names))
    decreases tokens
  {
    if tokens != [] {
      WakeStep(s, tokens[0], names);
      var next := s.(depth := DepthAfter(s.depth, tokens[0]), search := Look(s.search, tokens[0], names));
      hide Next, DepthAfter, Quiet, Look;
      WakeRun(next, tokens[1..], names);
    }
  }

  lemma CheckWord(s: State, t: Token, names: Names)
    requires Asleep(s) && IsKeyword(t, "CHECK")
    ensures Next(s, t, names) ==
            s.(check := true, checkDepth := s.depth, search := s.search.(needs := false, expects := true))
  {
    hide Look, Settle, Declared, Upper;
  }

  lemma CheckOpen(s: State, names: Names)
    requires Awake(s.(depth := s.depth + 1)) && s.checkDepth == s.depth && !s.search.needs
    ensures Next(s, OPEN, names) ==
            s.(depth := s.depth + 1, search := Search(None, true, false, s.search.columns))
  {
    hide Declared, Upper;
  }

  lemma CheckClose(s: State, columns: seq<string>, names: Names)
    requires Awake(s) && s.depth == s.checkDepth + 1 && Closes(s.search, columns) && columns != []
    ensures Next(s, CLOSE, names) == s.(depth := s.checkDepth, check := false, search := Found(columns))
  {
    hide Look, Declared, Upper;
  }

  /** `CHECK ( condition )` adds the columns of the condition, if there are any. */
  lemma CheckRun(s: State, word: Token, condition: Expr, names: Names)
    requires Asleep(s) && IsKeyword(word, "CHECK") && Good(condition, names)
    requires Closed(Print(condition)) && Calm(Print(condition))
    requires s.search.columns + Columns(condition, names) != []
    ensures Run(s, [word] + Parens(Print(condition)), names) ==
            s.(checkDepth := s.depth, search := Found(s.search.columns + Columns(condition, names)))
  {
    CheckWord(s, word, names);
    var s1 := Next(s, word, names);
    var s2 := s1.(depth := s.depth + 1, search := Search(None, true, false, s.search.columns));
    CheckOpen(s1, names);
    hide Next, Closed, Calm, Run, Parens, Print, Good, Columns;
    ParensRun(s, word, s1, s2, Print(condition), names);
    CheckBody(s2, condition, names);
  }

  lemma CheckBody(s: State, condition: Expr, names: Names)
    requires Awake(s) && s.depth == s.checkDepth + 1 && Good(condition, names) && Idle(s.search) && s.search.expects
    requires Closed(Print(condition)) && Calm(Print(condition))
    requires s.search.columns + Columns(condition, names) != []
    ensures Run(s, Print(condition) + [CLOSE], names) ==
            s.(depth := s.checkDepth, check := false, search := Found(s.search.columns + Columns(condition, names)))
  {
    var tokens := Print(condition);
    assert Above(s.depth, s.depth, tokens) && Depth(s.depth, tokens) == s.depth;
    hide Closed, Run, Looked, Next, Good, Print, Columns, Calm;
    RunAppend(s, tokens, [CLOSE], names);
    WakeRun(s, tokens, names);
    LookExpr(condition, s.search, names);
    CheckClose(Run(s, tokens, names), s.search.columns + Columns(condition, names), names);
    RunOne(Run(s, tokens, names), CLOSE, names);
  }

  // ----- A CHECK without columns -----

  lemma EmptyCheckClose(s: State, names: Names)
    requires Awake(s) && s.depth == s.checkDepth + 1 && Closes(s.search, [])
    ensures Next(s, CLOSE, names) == s.(depth := s.checkDepth, search := Found([]))
  {
    hide Look, Declared, Upper;
  }

  lemma EmptyCheckBody(s: State, condition: Expr, names: Names)
    requires Awake(s) && s.depth == s.checkDepth + 1 && Good(condition, names) && Idle(s.search) && s.search.expects
    requires Closed(Print(condition)) && Calm(Print(condition))
    requires s.search.columns == [] && Columns(condition, names) == []
    ensures Run(s, Print(condition) + [CLOSE], names) == s.(depth := s.checkDepth, search := Found([]))
  {
    var tokens := Print(condition);
    assert Above(s.depth, s.depth, tokens) && Depth(s.depth, tokens) == s.depth;
    hide Closed, Run, Looked, Next, Good, Print, Columns, Calm;
    RunAppend(s, tokens, [CLOSE], names);
    WakeRun(s, tokens, names);
    LookExpr(condition, s.search, names);
    assert s.search.columns + Columns(condition, names) == [];
    EmptyCheckClose(Run(s, tokens, names), names);
    RunOne(Run(s, tokens, names), CLOSE, names);
  }

  lemma EmptyCheckRun(s: State, word: Token, condition: Expr, names: Names)
    requires Asleep(s) && s.search.columns == [] && IsKeyword(word, "CHECK")
    requires Good(condition, names) && Columns(condition, names) == []
    requires Closed(Print(condition)) && Calm(Print(condition))
    ensures Run(s, [word] + Parens(Print(condition)), names) ==
            s.(check := true, checkDepth := s.depth, search := Found([]))
  {
    CheckWord(s, word, names);
    var s1 := Next(s, word, names);
    var s2 := s1.(depth := s.depth + 1, search := Search(None, true, false, []));
    CheckOpen(s1, names);
    hide Next, Closed, Calm, Run, Parens, Print, Good, Columns;
    ParensRun(s, word, s1, s2, Print(condition), names);
    EmptyCheckBody(s2, condition, names);
  }

  lemma OpenCheckRun(s: State, condition: Expr, names: Names)
    requires s.check && s.checkDepth == s.depth && s.search == Found([]) && Asleep(s.(check := false))
    requires Good(condition, names) && Columns(condition, names) != []
    requires Closed(Print(condition)) && Calm(Print(condition))
    ensures Run(s, Parens(Print(condition)), names) == s.(check := false, search := Found(Columns(condition, names)))
  {
    var s2 := s.(depth := s.depth + 1, search := Search(None, true, false, []));
    CheckOpen(s, names);
    assert Parens(Print(condition)) == [OPEN] + (Print(condition) + [CLOSE]);
    assert [] + Columns(condition, names) == Columns(condition, names);
    hide Next, Closed, Calm, Run, Parens, Print, Good, Columns;
    RunCons(s, OPEN, Print(condition) + [CLOSE], names);
    CheckBody(s2, condition, names);
  }

  /** A CHECK that mentions no column stays open, and takes the columns of the next group in its definition. */
  lemma EmptyCheckTakesNextGroup(s: State, word: Token, condition: Expr, group: Expr, names: Names)
    requires Asleep(s) && s.search.columns == [] && IsKeyword(word, "CHECK")
    requires Good(condition, names) && Columns(condition, names) == []
    requires Good(group, names) && Columns(group, names) != []
    requires Closed(Print(condition)) && Calm(Print(condition)) && Closed(Print(group)) && Calm(Print(group))
    ensures Run(s, ([word] + Parens(Print(condition))) + Parens(Print(group)), names) ==
            s.(checkDepth := s.depth, search := Found(Columns(group, names)))
  {
    var open := s.(check := true, checkDepth := s.depth, search := Found([]));
    assert Asleep(open.(check := false));
    EmptyCheckRun(s, word, condition, names);
    hide *;
    RunAppend(s, [word] + Parens(Print(condition)), Parens(Print(group)), names);
    OpenCheckRun(open, group, names);
  }
}

/** SQL fragments with positional parameters, and format strings that combine them. */
module Templates {
  import opened SqlText
  import opened Placeholders
  import opened PlaceholderLaws

  // ----- Bound SQL -----

  /** Translated SQL in which every placeholder has been replaced by its parameter. */
  datatype Item<P> = Text(text: string) | Param(value: P)

  function Bind<P>(ls: seq<Lexeme>, params: seq<P>): seq<Item<P>>
    requires Positionals(ls) == |params|
  {
    if ls == [] then []
    else if ls[0].token.Positional? then [Param(params[0])] + Bind(ls[1..], params[1..])
    else [Text(ls[0].token.Rendered())] + Bind(ls[1..], params)
  }

  /** The fragment is lexically self-contained and has one placeholder for each parameter. */
  predicate Aligned<P>(sql: string, params: seq<P>) {
    After(sql, Sql) == Sql && Positionals(Lex(sql, Sql, false)) == |params|
  }

  function Bound<P>(sql: string, params: seq<P>): seq<Item<P>>
    requires Aligned(sql, params)
  {
    Bind(Lex(sql, Sql, false), params)
  }

  lemma {:induction false} BindAppend<P>(a: seq<Lexeme>, b: seq<Lexeme>, pa: seq<P>, pb: seq<P>)
    requires Positionals(a) == |pa| && Positionals(b) == |pb|
    ensures Positionals(a + b) == |pa + pb|
    ensures Bind(a + b, pa + pb) == Bind(a, pa) + Bind(b, pb)
  {
    RenderAppend(a, b);
    if a == [] {
      assert a + b == b && pa + pb == pb;
    } else {
      assert (a + b)[1..] == a[1..] + b;
      if a[0].token.Positional? {
        assert (pa + pb)[1..] == pa[1..] + pb;
        BindAppend(a[1..], b, pa[1..], pb);
      } else {
        BindAppend(a[1..], b, pa, pb);
      }
    }
  }

  /** Aligned fragments stay aligned side by side, and each keeps its own parameters. */
  lemma BoundAppend<P>(a: string, b: string, pa: seq<P>, pb: seq<P>)
    requires Aligned(a, pa) && Aligned(b, pb) && CleanSeam(a, b)
    ensures Aligned(a + b, pa + pb)
    ensures Bound(a + b, pa + pb) == Bound(a, pa) + Bound(b, pb)
  {
    LexAppend(a, b, Sql);
    BindAppend(Lex(a, Sql, false), Lex(b, Sql, false), pa, pb);
  }

  // ----- Fixed text -----

  /** A character that is one token by itself in plain text, whatever stands next to it. */
  predicate Neutral(c: char) {
    c != '-' && c != '/' && c != '*' && c != '\'' && c != '\"' && c != '`' && c != '[' && c != '%' && c != 's'
  }

  /** Text without quotes, percent signs and comment starts. */
  predicate IsPlain(text: string) {
    forall i :: 0 <= i < |text| ==> Neutral(text[i]) || text[i] == 's' || text[i] == '*'
  }

  lemma {:induction false} PlainIsAligned<P>(text: string)
    requires IsPlain(text)
    ensures Aligned<P>(text, [])
    decreases |text|
  {
    if text != "" {
      var rest := text[1..];
      assert forall i :: 0 <= i < |rest| ==> rest[i] == text[i + 1];
      PlainIsAligned<P>(rest);
      assert Next(text, Sql, false) == Read(Plain(text[0]), 1, Sql);
      BindingStep(text, Sql, false);
    }
  }

  lemma {:induction false} InsideLiteral(body: string)
    requires '\'' !in body
    ensures var text := body + "'";
      Positionals(Lex(text, Literal, false)) == 0 && After(text, Literal) == Sql
    decreases |body|
  {
    var text := body + "'";
    BindingStep(text, Literal, false);
    var r := Next(text, Literal, false);
    if body == "" {
      assert text[1..] == "";
    } else {
      assert r.width <= |body| && r.next == Literal;
      assert text[r.width..] == body[r.width..] + "'";
      InsideLiteral(body[r.width..]);
    }
  }

  lemma QuotedIsAligned<P>(body: string)
    requires '\'' !in body
    ensures Aligned<P>("'" + body + "'", [])
  {
    var text := "'" + body + "'";
    assert text[1..] == body + "'" && text[..1] == "'";
    InsideLiteral(body);
    assert Next(text, Sql, false) == Read(Copy("'"), 1, Literal);
    BindingStep(text, Sql, false);
  }

  lemma OperatorIsAligned<P>(c: char)
    requires c == '-' || c == '/'
    ensures Aligned<P>([c], [])
  {
    assert Next([c], Sql, false) == Read(Plain(c), 1, Sql) && [c][1..] == "";
    BindingStep([c], Sql, false);
  }

  // ----- Format strings -----

  /** A format string over one input fragment: the input itself, plain text, a string literal, a lone
      operator, or two of these side by side. */
  datatype Shape = Input | T(text: string) | Q(body: string) | O(operator: char) | Cat(left: Shape, right: Shape)

  predicate StartsNeutral(s: Shape) {
    match s
    case T(text) => text != "" && Neutral(text[0])
    case Cat(left, _) => StartsNeutral(left)
    case _ => false
  }

  predicate EndsNeutral(s: Shape) {
    match s
    case T(text) => text != "" && Neutral(text[|text| - 1])
    case Cat(_, right) => EndsNeutral(right)
    case _ => false
  }

  /** Plain text keeps inputs, literals and operators apart. */
  predicate Good(s: Shape) {
    match s
    case Input => true
    case T(text) => IsPlain(text)
    case Q(body) => '\'' !in body
    case O(c) => c == '-' || c == '/'
    case Cat(left, right) => Good(left) && Good(right) && (EndsNeutral(left) || StartsNeutral(right))
  }

  function SqlOf(s: Shape, sql: string): string {
    match s
    case Input => sql
    case T(text) => text
    case Q(body) => "'" + body + "'"
    case O(c) => [c]
    case Cat(left, right) => SqlOf(left, sql) + SqlOf(right, sql)
  }

  /** How often the input occurs. */
  function Copies(s: Shape): nat {
    match s
    case Input => 1
    case Cat(left, right) => Copies(left) + Copies(right)
    case _ => 0
  }

  /** `tuple(params) * n`. */
  function Repeat<P>(params: seq<P>, n: nat): (r: seq<P>)
    ensures |r| == n * |params|
  {
    if n == 0 then [] else params + Repeat(params, n - 1)
  }

  /** The built SQL with its parameters in place, made from the bound input. */
  function BoundOf<P>(s: Shape, input: seq<Item<P>>): seq<Item<P>>
    requires Good(s)
  {
    match s
    case Input => input
    case T(text) => PlainIsAligned<P>(text); Bound(text, [])
    case Q(body) => QuotedIsAligned<P>(body); Bound("'" + body + "'", [])
    case O(c) => OperatorIsAligned<P>(c); Bound([c], [])
    case Cat(left, right) => BoundOf(left, input) + BoundOf(right, input)
  }

  lemma {:induction false} RepeatAppend<P>(params: seq<P>, m: nat, n: nat)
    ensures Repeat(params, m) + Repeat(params, n) == Repeat(params, m + n)
  {
    if m == 0 {
      assert Repeat(params, 0) + Repeat(params, n) == Repeat(params, n);
    } else {
      RepeatAppend(params, m - 1, n);
      assert Repeat(params, m) + Repeat(params, n)
          == params + (Repeat(params, m - 1) + Repeat(params, n));
    }
  }

  lemma {:induction false} FirstOfShape(s: Shape, sql: string)
    requires StartsNeutral(s)
    ensures SqlOf(s, sql) != "" && Neutral(SqlOf(s, sql)[0])
  {
    if s.Cat? {
      FirstOfShape(s.left, sql);
    }
  }

  lemma {:induction false} LastOfShape(s: Shape, sql: string)
    requires EndsNeutral(s)
    ensures SqlOf(s, sql) != "" && Neutral(SqlOf(s, sql)[|SqlOf(s, sql)| - 1])
  {
    if s.Cat? {
      LastOfShape(s.right, sql);
    }
  }

  /** Building SQL commutes with binding it: repeating the parameters once for each copy of the input
      gives every placeholder of the built SQL the parameter of the placeholder it was copied from. */
  lemma {:induction false} BuildThenBind<P>(s: Shape, sql: string, params: seq<P>)
    requires Good(s) && Aligned(sql, params)
    ensures Aligned(SqlOf(s, sql), Repeat(params, Copies(s)))
    ensures Bound(SqlOf(s, sql), Repeat(params, Copies(s))) == BoundOf(s, Bound(sql, params))
  {
    match s {
      case Input => assert Repeat(params, 1) == params;
      case T(text) => PlainIsAligned<P>(text);
      case Q(body) => QuotedIsAligned<P>(body);
      case O(c) => OperatorIsAligned<P>(c);
      case Cat(left, right) =>
        BuildThenBind(left, sql, params);
        BuildThenBind(right, sql, params);
        BuildCat(left, right, sql, params);
    }
  }

  lemma {:induction false} BuildCat<P>(left: Shape, right: Shape, sql: string, params: seq<P>)
    requires Good(Cat(left, right))
    requires Aligned(SqlOf(left, sql), Repeat(params, Copies(left)))
    requires Aligned(SqlOf(right, sql), Repeat(params, Copies(right)))
    ensures var s := Cat(left, right);
      && Aligned(SqlOf(s, sql), Repeat(params, Copies(s)))
      && Bound(SqlOf(s, sql), Repeat(params, Copies(s))) ==
          Bound(SqlOf(left, sql), Repeat(params, Copies(left))) +
          Bound(SqlOf(right, sql), Repeat(params, Copies(right)))
  {
    hide Bound, Aligned, Repeat, Good;
    SeamIsClean(left, right, sql);
    BoundAppend(SqlOf(left, sql), SqlOf(right, sql), Repeat(params, Copies(left)), Repeat(params, Copies(right)));
    RepeatAppend(params, Copies(left), Copies(right));
  }

  lemma SeamIsClean(left: Shape, right: Shape, sql: string)
    requires Good(Cat(left, right))
    ensures CleanSeam(SqlOf(left, sql), SqlOf(right, sql))
  {
    if EndsNeutral(left) {
      LastOfShape(left, sql);
    } else {
      FirstOfShape(right, sql);
    }
  }
}

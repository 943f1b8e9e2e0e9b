/** Parenthesis depth along a list of tokens. */
module TokenDepth {
  import opened SqlTokens

  function DepthAfter(d: int, t: Token): int {
    if IsPunctuation(t, "(") then d + 1 else if IsPunctuation(t, ")") then d - 1 else d
  }

  function Depth(d: int, tokens: seq<Token>): int
    decreases tokens
  {
    if tokens == [] then d else Depth(DepthAfter(d, tokens[0]), tokens[1..])
  }

  /** The depth after each token is at least `low`. */
  predicate Above(low: int, d: int, tokens: seq<Token>)
    decreases tokens
  {
    tokens == [] || (DepthAfter(d, tokens[0]) >= low && Above(low, DepthAfter(d, tokens[0]), tokens[1..]))
  }

  lemma {:induction false} DepthAppend(low: int, d: int, a: seq<Token>, b: seq<Token>)
    ensures Depth(d, a + b) == Depth(Depth(d, a), b)
    ensures Above(low, d, a + b) <==> Above(low, d, a) && Above(low, Depth(d, a), b)
    decreases a
  {
    if a == [] {
      assert a + b == b;
    } else {
      assert (a + b)[1..] == a[1..] + b;
      DepthAppend(low, DepthAfter(d, a[0]), a[1..], b);
    }
  }

  lemma {:induction false} AboveLower(low: int, lower: int, d: int, tokens: seq<Token>)
    requires Above(low, d, tokens) && lower <= low
    ensures Above(lower, d, tokens)
    decreases tokens
  {
    if tokens != [] {
      AboveLower(low, lower, DepthAfter(d, tokens[0]), tokens[1..]);
    }
  }

  /** Each closing parenthesis belongs to an opening one of the same list. */
  ghost predicate Closed(tokens: seq<Token>) {
    forall d :: Above(d, d, tokens) && Depth(d, tokens) == d
  }

  lemma ClosedEmpty()
    ensures Closed([])
  {
  }

  lemma ClosedToken(t: Token)
    requires !IsParen(t)
    ensures Closed([t])
  {
    forall d
      ensures Above(d, d, [t]) && Depth(d, [t]) == d
    {
      assert [t][1..] == [];
    }
  }

  lemma ClosedAppend(a: seq<Token>, b: seq<Token>)
    requires Closed(a) && Closed(b)
    ensures Closed(a + b)
  {
    forall d
      ensures Above(d, d, a + b) && Depth(d, a + b) == d
    {
      DepthAppend(d, d, a, b);
    }
  }

  lemma ClosedParens(tokens: seq<Token>)
    requires Closed(tokens)
    ensures Closed([OPEN] + tokens + [CLOSE])
  {
    forall d
      ensures Above(d, d, [OPEN] + tokens + [CLOSE]) && Depth(d, [OPEN] + tokens + [CLOSE]) == d
    {
      assert ([OPEN] + tokens + [CLOSE])[1..] == tokens + [CLOSE];
      DepthAppend(d, d + 1, tokens, [CLOSE]);
      AboveLower(d + 1, d, d + 1, tokens);
      assert [CLOSE][1..] == [];
    }
  }

  lemma {:induction false} ItemIsClosed(x: Item)
    requires GoodItem(x)
    ensures Closed(PrintItem(x))
    decreases x, 0
  {
    match x
    case Leaf(t) => ClosedToken(t);
    case Group(items) =>
      ItemsAreClosed(items);
      ClosedParens(PrintItems(items));
  }

  lemma {:induction false} ItemsAreClosed(items: seq<Item>)
    requires GoodItems(items)
    ensures Closed(PrintItems(items))
    decreases items, |items|
  {
    if items == [] {
      ClosedEmpty();
    } else {
      ItemIsClosed(items[0]);
      ItemsAreClosed(items[1..]);
      ClosedAppend(PrintItem(items[0]), PrintItems(items[1..]));
    }
  }
}

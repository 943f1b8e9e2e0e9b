/** Classified SQL tokens, as the tokenizer library delivers them. */
module SqlTokens {
  import opened AsciiCase

  /** Token types. `Dml`, `Cte` and `OtherKeyword` are subtypes of keywords, `Comparison` of operators;
      `Symbol` is a double-quoted and `Single` a single-quoted string. */
  datatype Kind =
    | Whitespace | Comment | Punctuation
    | Keyword | Dml | Cte | OtherKeyword
    | Operator | Comparison
    | Name | Symbol | Single | Wildcard | Number | Other

  datatype Token = Token(kind: Kind, value: string)

  /** Membership in the keyword type and its subtypes. */
  predicate InKeyword(k: Kind) {
    k == Keyword || k == Dml || k == Cte || k == OtherKeyword
  }

  /** Membership in the operator type and its subtypes. */
  predicate InOperator(k: Kind) {
    k == Operator || k == Comparison
  }

  predicate IsNoise(t: Token) {
    t.kind == Whitespace || t.kind == Comment
  }

  /** The tokens that are neither whitespace nor comments. */
  function WithoutNoise(tokens: seq<Token>): seq<Token> {
    if tokens == [] then []
    else (if IsNoise(tokens[0]) then [] else [tokens[0]]) + WithoutNoise(tokens[1..])
  }

  /** `tokens` is `core` with whitespace and comments added anywhere. */
  predicate Padded(tokens: seq<Token>, core: seq<Token>)
    decreases tokens
  {
    if tokens == [] then core == []
    else
      || ((tokens[0].kind == Whitespace || tokens[0].kind == Comment) && Padded(tokens[1..], core))
      || (core != [] && tokens[0] == core[0] && Padded(tokens[1..], core[1..]))
  }

  /** Whitespace and comments disappear, wherever they stand, and nothing else does. */
  lemma {:induction false} OnlyPaddingDisappears(tokens: seq<Token>, core: seq<Token>)
    requires Padded(tokens, core)
    ensures WithoutNoise(tokens) == WithoutNoise(core)
    ensures (forall t :: t in core ==> t.kind != Whitespace && t.kind != Comment) ==> WithoutNoise(tokens) == core
  {
    if tokens != [] {
      if (tokens[0].kind == Whitespace || tokens[0].kind == Comment) && Padded(tokens[1..], core) {
        OnlyPaddingDisappears(tokens[1..], core);
      } else {
        OnlyPaddingDisappears(tokens[1..], core[1..]);
        assert core == [core[0]] + core[1..];
      }
    }
  }

  function UpperChar(c: char): char {
    if 'a' <= c <= 'z' then (c as int - 'a' as int + 'A' as int) as char else c
  }

  function Upper(s: string): string {
    if s == "" then "" else [UpperChar(s[0])] + Upper(s[1..])
  }

  /** The upper-case spelling is the one that differs in case only and has no lower-case letter. */
  lemma {:induction false} UpperIs(s: string)
    ensures SameUpToCase(s, Upper(s)) && forall i :: 0 <= i < |Upper(s)| ==> !IsLower(Upper(s)[i])
  {
    if s != "" {
      UpperIs(s[1..]);
    }
  }

  /** A word in upper case is matched in every spelling and by nothing else. */
  lemma MatchesEverySpelling(s: string, word: string)
    requires forall i :: 0 <= i < |word| ==> !IsLower(word[i])
    ensures Upper(s) == word <==> SameUpToCase(s, word)
  {
    UpperIs(s);
    if SameUpToCase(s, word) {
      SameUpToCaseTwice(s, Upper(s), Upper(s));
      SameUpToCaseTwice(Upper(s), s, word);
      OneCaseIsEqual(Upper(s), word);
    }
  }

  /** `token.match(Punctuation, value)`. */
  predicate IsPunctuation(t: Token, value: string) {
    t.kind == Punctuation && t.value == value
  }

  /** `token.match(Keyword, word)`: the keyword type itself, without regard to case. */
  predicate IsKeyword(t: Token, word: string) {
    t.kind == Keyword && Upper(t.value) == word
  }

  /** What matching means: a separator by its text, a keyword in any spelling. */
  lemma MatchingIs(t: Token, word: string)
    requires forall i :: 0 <= i < |word| ==> !IsLower(word[i])
    ensures IsPunctuation(t, word) <==> t == Token(Punctuation, word)
    ensures IsKeyword(t, word) <==> t.kind == Keyword && SameUpToCase(t.value, word)
  {
    MatchesEverySpelling(t.value, word);
  }

  const OPEN := Token(Punctuation, "(")
  const CLOSE := Token(Punctuation, ")")
  const COMMA := Token(Punctuation, ",")

  predicate IsParen(t: Token) {
    IsPunctuation(t, "(") || IsPunctuation(t, ")")
  }

  // ----- Balanced token lists -----

  /** A token that is no parenthesis, or a parenthesised group. */
  datatype Item = Leaf(token: Token) | Group(items: seq<Item>)

  predicate GoodItem(x: Item)
    decreases x, 0
  {
    match x
    case Leaf(t) => !IsParen(t)
    case Group(items) => GoodItems(items)
  }

  predicate GoodItems(items: seq<Item>)
    decreases items, |items|
  {
    forall k :: 0 <= k < |items| ==> GoodItem(items[k])
  }

  function PrintItem(x: Item): seq<Token>
    decreases x, 0
  {
    match x
    case Leaf(t) => [t]
    case Group(items) => [OPEN] + PrintItems(items) + [CLOSE]
  }

  function PrintItems(items: seq<Item>): seq<Token>
    decreases items, |items|
  {
    if items == [] then [] else PrintItem(items[0]) + PrintItems(items[1..])
  }

  /** `( items )`. */
  function InParens(items: seq<Item>): seq<Token> {
    [OPEN] + PrintItems(items) + [CLOSE]
  }
}

/** Column declarations as syntax trees; both scans give back what a printed table declares. */
module ColumnDeclarations {
  import opened Outcomes
  import opened Quoting
  import opened SqlTokens
  import opened TokenDepth
  import opened ConstraintParser
  import opened DefinitionRuns
  import opened ColumnScans

  datatype Part = Word(token: Token) | Brackets(items: seq<Item>) | Collate(word: Token, name: Token)

  /** The first word of a column is its type, or the start of its constraints if it has none. */
  datatype Entry = Column(name: Token, parts: seq<Part>) | TableConstraint(word: Token, items: seq<Item>)

  function PrintPart(p: Part): seq<Token> {
    match p
    case Word(t) => [t]
    case Brackets(items) => InParens(items)
    case Collate(word, name) => [word, name]
  }

  function PrintParts(parts: seq<Part>): seq<Token> {
    if parts == [] then [] else PrintPart(parts[0]) + PrintParts(parts[1..])
  }

  function PrintEntry(e: Entry): seq<Token> {
    match e
    case Column(name, parts) => [name] + PrintParts(parts)
    case TableConstraint(word, items) => [word] + PrintItems(items)
  }

  // ----- Well-formed entries -----

  predicate IsSeparator(t: Token) {
    IsParen(t) || IsPunctuation(t, ",")
  }

  /** A first word that makes an entry a table constraint. The tokenizer joins some pairs of words. */
  predicate IsConstraintWord(t: Token) {
    || IsKeyword(t, "CONSTRAINT") || IsKeyword(t, "UNIQUE") || IsKeyword(t, "CHECK")
    || IsKeyword(t, "PRIMARY") || IsKeyword(t, "PRIMARY KEY")
    || IsKeyword(t, "FOREIGN") || IsKeyword(t, "FOREIGN KEY")
  }

  predicate GoodPart(p: Part) {
    match p
    case Word(t) => !IsSeparator(t) && !IsKeyword(t, "COLLATE")
    case Brackets(items) => GoodItems(items)
    case Collate(word, name) => IsKeyword(word, "COLLATE") && !IsSeparator(name)
  }

  predicate GoodEntry(e: Entry) {
    match e
    case Column(name, parts) =>
      !IsSeparator(name) && !IsConstraintWord(name) && forall k :: 0 <= k < |parts| ==> GoodPart(parts[k])
    case TableConstraint(word, items) =>
      IsConstraintWord(word) && GoodItems(items) &&
      forall k :: 0 <= k < |items| ==> !(items[k].Leaf? && IsPunctuation(items[k].token, ","))
  }

  // ----- What is declared -----

  /** The last COLLATE counts. */
  function CollationOf(parts: seq<Part>): Option<string> {
    if parts == [] then None
    else
      var later := CollationOf(parts[1..]);
      if later.Some? || !parts[0].Collate? then later else Some(Unquoted(parts[0].name))
  }

  function NoteEntry(found: Collations, e: Entry): Collations {
    if e.Column? then found[Unquoted(e.name) := CollationOf(e.parts)] else found
  }

  /** Entry after entry. */
  function NoteEntries(found: Collations, entries: seq<Entry>): Collations
    decreases |entries|
  {
    if entries == [] then found else NoteEntries(NoteEntry(found, entries[0]), entries[1..])
  }

  // ----- The scan for collations -----

  /** A token that cannot end the scan, and the rest. */
  lemma CollatedCons(f: Flags, t: Token, rest: seq<Token>)
    requires !(IsPunctuation(t, ")") && f.depth == 0)
    ensures Collated(f, [t] + rest) == Collated(Noted(f, t), rest)
  {
    assert ([t] + rest)[1..] == rest;
  }

  /** Inside parentheses only the depth changes. */
  lemma {:induction false} CollatedInside(f: Flags, tokens: seq<Token>, rest: seq<Token>)
    requires f.depth >= 1 && Above(1, f.depth, tokens)
    ensures Depth(f.depth, tokens) >= 1
    ensures Collated(f, tokens + rest) == Collated(f.(depth := Depth(f.depth, tokens)), rest)
    decreases tokens
  {
    if tokens == [] {
      assert tokens + rest == rest;
    } else {
      var t := tokens[0];
      assert tokens + rest == [t] + (tokens[1..] + rest);
      CollatedCons(f, t, tokens[1..] + rest);
      hide Collated;
      CollatedInside(f.(depth := DepthAfter(f.depth, t)), tokens[1..], rest);
    }
  }

  /** The contents of a balanced group never matter. */
  lemma CollatedGroup(f: Flags, items: seq<Item>, rest: seq<Token>)
    requires GoodItems(items)
    ensures Collated(f, InParens(items) + rest) == Collated(f, rest)
  {
    var tokens := PrintItems(items);
    ItemsAreClosed(items);
    assert Above(f.depth + 1, f.depth + 1, tokens) && Depth(f.depth + 1, tokens) == f.depth + 1;
    AboveLower(f.depth + 1, 1, f.depth + 1, tokens);
    hide Collated, Closed;
    assert InParens(items) + rest == [OPEN] + (tokens + ([CLOSE] + rest));
    CollatedCons(f, OPEN, tokens + ([CLOSE] + rest));
    CollatedInside(f.(depth := f.depth + 1), tokens, [CLOSE] + rest);
    CollatedCons(f.(depth := f.depth + 1), CLOSE, rest);
  }

  /** Between two parts of the definition of a column. */
  predicate Within(f: Flags, name: string) {
    f.depth == 0 && !f.start && f.column == Some(name) && !f.needs
  }

  lemma CollatedName(f: Flags, name: string, word: Token, collation: Token, rest: seq<Token>)
    requires Within(f, name) && IsKeyword(word, "COLLATE") && !IsSeparator(collation)
    ensures Collated(f, [word, collation] + rest) ==
            Collated(f.(found := f.found[name := Some(Unquoted(collation))]), rest)
  {
    hide Collated, Unquoted, Upper;
    assert [word, collation] + rest == [word] + ([collation] + rest);
    CollatedCons(f, word, [collation] + rest);
    CollatedCons(f.(needs := true), collation, rest);
  }

  lemma CollatedWord(f: Flags, name: string, t: Token, rest: seq<Token>)
    requires Within(f, name) && !IsSeparator(t) && !IsKeyword(t, "COLLATE")
    ensures Collated(f, [t] + rest) == Collated(f, rest)
  {
    hide Collated, Unquoted, Upper;
    CollatedCons(f, t, rest);
  }

  /** The collation found so far, unless a later one was found. */
  function Updated(f: Flags, name: string, collation: Option<string>): Flags {
    if collation.Some? then f.(found := f.found[name := collation]) else f
  }

  lemma {:induction false} CollatedParts(f: Flags, name: string, parts: seq<Part>, rest: seq<Token>)
    requires Within(f, name) && forall k :: 0 <= k < |parts| ==> GoodPart(parts[k])
    ensures Collated(f, PrintParts(parts) + rest) == Collated(Updated(f, name, CollationOf(parts)), rest)
    decreases parts
  {
    if parts == [] {
      assert PrintParts(parts) + rest == rest;
    } else {
      hide Collated, Unquoted, IsKeyword, Updated;
      var later := PrintParts(parts[1..]) + rest;
      assert PrintParts(parts) + rest == PrintPart(parts[0]) + later;
      assert GoodPart(parts[0]);
      match parts[0]
      case Word(t) =>
        CollatedWord(f, name, t, later);
        CollatedParts(f, name, parts[1..], rest);
      case Brackets(items) =>
        CollatedGroup(f, items, later);
        CollatedParts(f, name, parts[1..], rest);
      case Collate(word, collation) =>
        CollatedName(f, name, word, collation, later);
        var g := f.(found := f.found[name := Some(Unquoted(collation))]);
        CollatedParts(g, name, parts[1..], rest);
        CollateUpdates(f, name, Unquoted(collation), CollationOf(parts[1..]));
    }
  }

  lemma CollateUpdates(f: Flags, name: string, first: string, later: Option<string>)
    ensures Updated(f.(found := f.found[name := Some(first)]), name, later) ==
            Updated(f, name, if later.Some? then later else Some(first))
  {
    if later.Some? {
      assert f.found[name := Some(first)][name := later] == f.found[name := later];
    }
  }

  lemma {:induction false} CollatedItems(f: Flags, items: seq<Item>, rest: seq<Token>)
    requires f.depth == 0 && !f.start && f.column.None? && GoodItems(items)
    requires forall k :: 0 <= k < |items| ==> !(items[k].Leaf? && IsPunctuation(items[k].token, ","))
    ensures Collated(f, PrintItems(items) + rest) == Collated(f, rest)
    decreases |items|
  {
    if items == [] {
      assert PrintItems(items) + rest == rest;
    } else {
      hide Collated;
      var later := PrintItems(items[1..]) + rest;
      assert PrintItems(items) + rest == PrintItem(items[0]) + later;
      match items[0] {
        case Leaf(t) => CollatedCons(f, t, later);
        case Group(inner) => CollatedGroup(f, inner, later);
      }
      CollatedItems(f, items[1..], rest);
    }
  }

  /** At the start of a definition. */
  predicate AtStart(f: Flags) {
    f.depth == 0 && f.start && f.column.None? && !f.needs
  }

  lemma ColumnFound(found: Collations, name: string, collation: Option<string>, f: Flags)
    requires f.found == found[name := None]
    ensures Updated(f, name, collation).found == found[name := collation]
  {
    assert found[name := None][name := collation] == found[name := collation];
  }

  /** One entry adds exactly its declaration. */
  lemma CollatedEntry(f: Flags, e: Entry, rest: seq<Token>) returns (g: Flags)
    requires AtStart(f) && GoodEntry(e)
    ensures g.depth == 0 && g.found == NoteEntry(f.found, e)
    ensures Collated(f, PrintEntry(e) + rest) == Collated(g, rest)
  {
    hide Collated, Unquoted, Upper, GoodPart, PrintParts, PrintItems, CollationOf;
    match e
    case Column(name, parts) =>
      assert PrintEntry(e) + rest == [name] + (PrintParts(parts) + rest);
      CollatedCons(f, name, PrintParts(parts) + rest);
      var h := Noted(f, name);
      CollatedParts(h, Unquoted(name), parts, rest);
      ColumnFound(f.found, Unquoted(name), CollationOf(parts), h);
      g := Updated(h, Unquoted(name), CollationOf(parts));
    case TableConstraint(word, items) =>
      assert PrintEntry(e) + rest == [word] + (PrintItems(items) + rest);
      CollatedCons(f, word, PrintItems(items) + rest);
      g := f.(start := false);
      CollatedItems(g, items, rest);
  }

  // ----- Whole tables -----

  function PrintEntries(entries: seq<Entry>): seq<Token>
    requires entries != []
  {
    if |entries| == 1 then PrintEntry(entries[0])
    else PrintEntry(entries[0]) + ([COMMA] + PrintEntries(entries[1..]))
  }

  /** `head ( entries ) tail`, without whitespace and comments. */
  datatype Table = Table(head: seq<Token>, entries: seq<Entry>, tail: seq<Token>)

  function PrintTable(t: Table): seq<Token>
    requires t.entries != []
  {
    t.head + ([OPEN] + (PrintEntries(t.entries) + ([CLOSE] + t.tail)))
  }

  predicate GoodTable(t: Table) {
    && (forall k :: 0 <= k < |t.head| ==> !IsPunctuation(t.head[k], "("))
    && t.entries != [] && forall k :: 0 <= k < |t.entries| ==> GoodEntry(t.entries[k])
  }

  lemma {:induction false} CollatedEntries(f: Flags, entries: seq<Entry>, tail: seq<Token>)
    requires AtStart(f) && entries != [] && forall k :: 0 <= k < |entries| ==> GoodEntry(entries[k])
    ensures Collated(f, PrintEntries(entries) + ([CLOSE] + tail)) == NoteEntries(f.found, entries)
    decreases |entries|
  {
    hide GoodEntry, NoteEntry, PrintEntry;
    var first := entries[0];
    if |entries| == 1 {
      var g := CollatedEntry(f, first, [CLOSE] + tail);
      assert NoteEntries(f.found, entries) == NoteEntry(f.found, first);
    } else {
      hide Collated;
      var later := PrintEntries(entries[1..]) + ([CLOSE] + tail);
      assert PrintEntries(entries) + ([CLOSE] + tail) == PrintEntry(first) + ([COMMA] + later);
      var g := CollatedEntry(f, first, [COMMA] + later);
      CollatedCons(g, COMMA, later);
      CollatedEntries(Flags(0, true, None, false, g.found), entries[1..], tail);
    }
  }

  lemma BodyOfTable(t: Table, tokens: seq<Token>)
    requires GoodTable(t) && WithoutNoise(tokens) == PrintTable(t)
    ensures Body(tokens) == PrintEntries(t.entries) + ([CLOSE] + t.tail)
  {
    HeadIsSkipped(t.head, PrintEntries(t.entries) + ([CLOSE] + t.tail));
  }

  /** Whatever whitespace and comments are added, the scan gives back the declared collations. */
  lemma CollationsAreDeclared(t: Table, tokens: seq<Token>)
    requires GoodTable(t) && WithoutNoise(tokens) == PrintTable(t)
    ensures ColumnCollations(tokens) == NoteEntries(map[], t.entries)
  {
    BodyOfTable(t, tokens);
    hide Body, Collated, PrintEntries, GoodEntry;
    CollatedEntries(FRESH, t.entries, t.tail);
  }

  // ----- Sizes -----

  predicate AllDigits(s: string) {
    s != "" && forall k :: 0 <= k < |s| ==> '0' <= s[k] <= '9'
  }

  /** CHAR or VARCHAR, directly followed by one number in parentheses. */
  function SizeOf(parts: seq<Part>): Option<nat> {
    if |parts| >= 2 && parts[0].Word? && IdentifierKey(parts[0].token.value) in {"char", "varchar"} &&
       parts[1].Brackets? && |parts[1].items| == 1 && parts[1].items[0].Leaf? &&
       AllDigits(parts[1].items[0].token.value)
    then Some(Value(parts[1].items[0].token.value)) else None
  }

  /** The number that decimal digits stand for, with or without leading zeros. */
  lemma {:induction false} NumberOfDigits(n: nat, zeros: string)
    requires forall k :: 0 <= k < |zeros| ==> zeros[k] == '0'
    ensures Value(zeros + Decimal(n)) == n
    decreases |zeros|, n
  {
    var digits := zeros + Decimal(n);
    var last := [(n % 10 + '0' as int) as char];
    if n >= 10 {
      assert digits == (zeros + Decimal(n / 10)) + last;
      NumberOfDigits(n / 10, zeros);
      assert digits[..|digits| - 1] == zeros + Decimal(n / 10);
    } else {
      assert digits[..|digits| - 1] == zeros;
      ZerosAreNothing(zeros);
    }
  }

  lemma {:induction false} ZerosAreNothing(zeros: string)
    requires forall k :: 0 <= k < |zeros| ==> zeros[k] == '0'
    ensures Value(zeros) == 0
  {
    if zeros != "" {
      ZerosAreNothing(zeros[..|zeros| - 1]);
    }
  }

  /** The white space of size patterns, by code. */
  lemma SpacesAre(c: char)
    ensures IsSpace(c) <==> c as int in {9, 10, 11, 12, 13, 28, 29, 30, 31, 32}
  {
  }

  function MeasureEntry(sizes: Sizes, e: Entry): Sizes {
    if e.Column? && SizeOf(e.parts).Some? then sizes[Unquoted(e.name) := SizeOf(e.parts).value] else sizes
  }

  function MeasureEntries(sizes: Sizes, entries: seq<Entry>): Sizes
    decreases |entries|
  {
    if entries == [] then sizes else MeasureEntries(MeasureEntry(sizes, entries[0]), entries[1..])
  }

  /** An unquoted word. */
  predicate OneWord(v: string) {
    && v != "" && v[0] !in "\"'`[" && !IsSpace(v[0]) && !IsSpace(v[|v| - 1])
    && forall k :: 0 <= k < |v| ==> v[k] != '('
  }

  /** A token that does not look like a closing parenthesis at its end. */
  predicate Neat(t: Token) {
    t.value != "" && !IsSpace(t.value[0]) && !IsSpace(t.value[|t.value| - 1]) && t.value[|t.value| - 1] != ')'
  }

  predicate NeatItem(x: Item) {
    x.Leaf? ==> Neat(x.token)
  }

  /** The first part of a column is one word. */
  predicate Typed(e: Entry) {
    e.Column? ==>
      && (e.parts == [] || (e.parts[0].Word? && OneWord(e.parts[0].token.value)) ||
          (e.parts[0].Collate? && OneWord(e.parts[0].word.value)))
      && forall k, j :: 0 <= k < |e.parts| && e.parts[k].Brackets? && 0 <= j < |e.parts[k].items| ==>
           NeatItem(e.parts[k].items[j])
  }

  // ----- The size in a text -----

  predicate EndsVisibly(s: string) {
    s != "" && !IsSpace(s[|s| - 1])
  }

  /** Skipping spaces stops inside a text that ends visibly. */
  lemma {:induction false} SkipStops(a: string, b: string)
    requires EndsVisibly(a)
    ensures SkipSpaces(a + b) == SkipSpaces(a) + b && EndsVisibly(SkipSpaces(a))
    ensures SkipSpaces(a)[|SkipSpaces(a)| - 1] == a[|a| - 1]
  {
    if IsSpace(a[0]) {
      assert (a + b)[1..] == a[1..] + b;
      SkipStops(a[1..], b);
    }
  }

  lemma SkipToEnd(a: string)
    requires EndsVisibly(a)
    ensures EndsVisibly(SkipSpaces(a)) && SkipSpaces(a)[|SkipSpaces(a)| - 1] == a[|a| - 1]
  {
    SkipStops(a, "");
  }

  lemma SkipNothing(s: string)
    requires s == "" || !IsSpace(s[0])
    ensures SkipSpaces(s) == s
  {
  }

  lemma {:induction false} DigitsStop(a: string, b: string)
    requires b == "" || !IsDigit(b[0])
    ensures AllDigits(a) ==> Digits(a + b) == a
    ensures a != "" && !AllDigits(a) ==> |Digits(a + b)| < |a|
  {
    if a == "" {
    } else {
      assert (a + b)[1..] == a[1..] + b;
      DigitsStop(a[1..], b);
      if a[1..] == "" {
        assert (a + b)[1..] == b;
      } else {
        assert AllDigits(a) <==> IsDigit(a[0]) && AllDigits(a[1..]);
      }
    }
  }

  /** A closed size ends with its parenthesis. */
  lemma ClosedSizeEnds(inner: string)
    requires EndsVisibly(inner) && ClosedSize(inner).Some?
    ensures inner[|inner| - 1] == ')'
  {
    var left := inner[|Digits(inner)|..];
    assert left != "" by {
      SkipNothing("");
    }
    assert left[|left| - 1] == inner[|inner| - 1];
    SkipToEnd(left);
    var rest := SkipSpaces(left);
    if |rest| > 1 {
      SkipToEnd(rest[1..]);
      assert false;
    }
  }

  /** A bracketed size ends with its parenthesis. */
  lemma SizeEndsWithParen(s: string)
    requires EndsVisibly(s) && BracketedSize(s).Some?
    ensures s[|s| - 1] == ')'
  {
    hide ClosedSize;
    SkipToEnd(s);
    var a := SkipSpaces(s);
    if a[1..] == "" {
      assert ClosedSize("") == None by {
        NoClosedSize();
      }
    } else {
      SkipToEnd(a[1..]);
      ClosedSizeEnds(SkipSpaces(a[1..]));
    }
  }

  lemma NoClosedSize()
    ensures ClosedSize("") == None
  {
  }

  /** `text )` holds a size exactly when the text is a number. */
  lemma ClosedSizeOf(v: string)
    requires EndsVisibly(v)
    ensures ClosedSize(v + ")") == if AllDigits(v) then Some(Value(v)) else None
  {
    var inner := v + ")";
    DigitsStop(v, ")");
    var digits := Digits(inner);
    hide Digits, Value;
    if AllDigits(v) {
      assert inner[|digits|..] == ")";
      SkipNothing(")");
      SkipNothing("");
      assert ")"[1..] == "";
    } else {
      var left := v[|digits|..];
      assert inner[|digits|..] == left + ")";
      SkipStops(left, ")");
      var w := SkipSpaces(left);
      assert (w + ")")[1..] == w[1..] + ")";
      SkipToEnd(w[1..] + ")");
    }
  }

  lemma {:induction false} SizeOfParens(v: string)
    requires EndsVisibly(v) && !IsSpace(v[0])
    ensures BracketedSize("(" + v + ")") == if AllDigits(v) then Some(Value(v)) else None
  {
    hide ClosedSize, AllDigits, Value;
    SkipNothing("(" + v + ")");
    assert ("(" + v + ")")[1..] == v + ")";
    SkipNothing(v + ")");
    ClosedSizeOf(v);
  }

  // ----- The size in a declared type -----

  /** What ends a word: a bracket, a space, or nothing more. */
  predicate Bracketed(b: string) {
    b == "" || b[0] == '(' || IsSpace(b[0])
  }

  predicate IsWordChar(c: char) {
    c != '(' && !IsSpace(c)
  }

  lemma NoSize()
    ensures BracketedSize("") == None
  {
  }

  /** More letters after the word leave no size. */
  lemma LongerWord(z: string, b: string)
    requires EndsVisibly(z) && '(' !in z
    ensures BracketedSize(z + b) == None
  {
    SkipStops(z, b);
    SkipKeepsOut(z);
  }

  lemma {:induction false} SkipKeepsOut(z: string)
    requires '(' !in z
    ensures '(' !in SkipSpaces(z)
  {
    if z != "" && IsSpace(z[0]) {
      SkipKeepsOut(z[1..]);
    }
  }

  /** The letters of a prefix all belong to the word before the bracket. */
  lemma AfterWordIn(w: string, b: string, word: string)
    requires Bracketed(b) && forall k :: 0 <= k < |word| ==> IsWordChar(word[k])
    ensures AfterWord(w + b, word) ==
            if |word| <= |w| && IdentifierKey(w[..|word|]) == word then Some(w[|word|..] + b) else None
  {
    var s := w + b;
    if |word| <= |w| {
      assert s[..|word|] == w[..|word|] && s[|word|..] == w[|word|..] + b;
    } else if |word| <= |s| {
      assert IdentifierKey(s[..|word|])[|w|] == b[0];
      assert !IsWordChar(b[0]) && IsWordChar(word[|w|]);
    }
  }

  /** CHAR at the start of a word and its brackets. */
  lemma {:induction false} AfterChar(w: string, b: string)
    requires (w != "" ==> EndsVisibly(w)) && '(' !in w && Bracketed(b)
    ensures var rest := AfterWord(w + b, "char");
      (if rest.None? then None else BracketedSize(rest.value)) ==
      if IdentifierKey(w) == "char" then BracketedSize(b) else None
  {
    AfterWordIn(w, b, "char");
    hide AfterWord, BracketedSize, IdentifierKey;
    if |w| == 4 {
      assert w[..4] == w && w[4..] + b == b;
    } else if |w| > 4 {
      LongerWord(w[4..], b);
    }
  }

  /** A size is found exactly after CHAR and VARCHAR, in any case and with any spaces around the word. */
  lemma {:induction false} FieldSizeOf(lead: string, w: string, b: string)
    requires OneWord(w) && Bracketed(b) && forall k :: 0 <= k < |lead| ==> IsSpace(lead[k])
    ensures FieldSize(lead + (w + b)) == if IdentifierKey(w) in {"char", "varchar"} then BracketedSize(b) else None
  {
    SkipLead(lead, w + b);
    SkipNothing(w + b);
    hide BracketedSize, OneWord;
    var v := AfterWord(w + b, "var");
    if v.None? {
      AfterChar(w, b);
      NotVarchar(w, b);
    } else {
      AfterVar(w, b);
      AfterChar(w[3..], b);
    }
  }

  lemma {:induction false} SkipLead(lead: string, s: string)
    requires forall k :: 0 <= k < |lead| ==> IsSpace(lead[k])
    ensures SkipSpaces(lead + s) == SkipSpaces(s)
  {
    if lead == "" {
      assert lead + s == s;
    } else {
      assert (lead + s)[1..] == lead[1..] + s;
      SkipLead(lead[1..], s);
    }
  }

  lemma NotVarchar(w: string, b: string)
    requires Bracketed(b) && AfterWord(w + b, "var").None?
    ensures IdentifierKey(w) != "varchar"
  {
    AfterWordIn(w, b, "var");
    hide AfterWord;
    if |w| >= 3 {
      KeySplit(w);
      assert "varchar"[..3] == "var";
    }
  }

  lemma {:induction false} KeyAppend(a: string, b: string)
    ensures IdentifierKey(a + b) == IdentifierKey(a) + IdentifierKey(b)
  {
  }

  lemma KeySplit(w: string)
    requires |w| >= 3
    ensures IdentifierKey(w) == IdentifierKey(w[..3]) + IdentifierKey(w[3..])
  {
    KeyAppend(w[..3], w[3..]);
    assert w[..3] + w[3..] == w;
  }

  lemma TailEnds(w: string)
    requires OneWord(w) && |w| > 3
    ensures EndsVisibly(w[3..])
  {
  }

  lemma {:induction false} AfterVar(w: string, b: string)
    requires OneWord(w) && Bracketed(b) && AfterWord(w + b, "var").Some?
    ensures |w| >= 3 && AfterWord(w + b, "var") == Some(w[3..] + b) && (w[3..] != "" ==> EndsVisibly(w[3..]))
    ensures IdentifierKey(w) == "varchar" <==> IdentifierKey(w[3..]) == "char"
    ensures IdentifierKey(w) != "char"
  {
    AfterWordIn(w, b, "var");
    hide AfterWord, IdentifierKey, OneWord, Bracketed;
    if |w| > 3 {
      TailEnds(w);
    }
    hide EndsVisibly;
    KeySplit(w);
    VarPrefix(IdentifierKey(w[3..]));
  }

  lemma VarPrefix(rest: string)
    ensures "var" + rest == "varchar" <==> rest == "char"
    ensures "var" + rest != "char"
  {
    assert "varchar" == "var" + "char";
    assert ("var" + rest)[3..] == rest && "varchar"[3..] == "char";
    assert ("var" + rest)[0] == 'v';
  }

  lemma UnquotedWord(t: Token)
    requires OneWord(t.value)
    ensures Unquoted(t) == t.value
  {
  }

  lemma JoinedThree(a: Token, b: Token, c: Token)
    ensures Joined([a, b, c]) == a.value + b.value + c.value
    ensures Joined([a, b]) == a.value + b.value
    ensures Joined([a]) == a.value
  {
    assert [a, b, c][1..] == [b, c] && [b, c][1..] == [c] && [c][1..] == [] && [a, b][1..] == [b] && [b][1..] == [];
    assert [a][1..] == [];
    assert Joined([c]) == c.value + "" == c.value;
    assert Joined([b]) == b.value + "" == b.value;
    assert a.value + (b.value + c.value) == a.value + b.value + c.value;
  }

  /** The first three tokens of a list. */
  function Three(tokens: seq<Token>): seq<Token> {
    if |tokens| <= 3 then tokens else tokens[..3]
  }

  /** No number directly after the opening parenthesis. */
  lemma NoNumber(text: string)
    requires text != "" && !IsSpace(text[0]) && !IsDigit(text[0])
    ensures BracketedSize("(" + text) == None
  {
    var s := "(" + text;
    assert s[1..] == text;
    SkipNothing(s);
    SkipNothing(text);
    assert Digits(text) == "";
  }

  lemma EndsOtherwise(text: string)
    requires EndsVisibly(text) && text[|text| - 1] != ')'
    ensures BracketedSize(text) == None
  {
    hide BracketedSize;
    if BracketedSize(text).Some? {
      SizeEndsWithParen(text);
    }
  }

  /** The size that the brackets after a type hold. */
  function SizeIn(items: seq<Item>): Option<nat> {
    if |items| == 1 && items[0].Leaf? && AllDigits(items[0].token.value) then Some(Value(items[0].token.value))
    else None
  }

  /** `(` directly followed by another parenthesis. */
  lemma NoNumberToken(tokens: seq<Token>)
    requires |tokens| >= 2 && tokens[0] == OPEN && IsParen(tokens[1])
    ensures var text := Joined(Three(tokens)); BracketedSize(text) == None && Bracketed(text)
  {
    hide BracketedSize;
    var more := if |tokens| == 2 then "" else tokens[2].value;
    if |tokens| == 2 {
      assert Three(tokens) == [OPEN, tokens[1]];
    } else {
      assert Three(tokens) == [OPEN, tokens[1], tokens[2]];
    }
    JoinedThree(OPEN, tokens[1], if |tokens| == 2 then OPEN else tokens[2]);
    assert Joined(Three(tokens)) == "(" + (tokens[1].value + more);
    NoNumber(tokens[1].value + more);
  }

  lemma NumberToken(tokens: seq<Token>, t: Token)
    requires |tokens| >= 3 && tokens[0] == OPEN && tokens[1] == t && tokens[2] == CLOSE && Neat(t)
    ensures var text := Joined(Three(tokens));
      BracketedSize(text) == (if AllDigits(t.value) then Some(Value(t.value)) else None) && Bracketed(text)
  {
    hide BracketedSize, AllDigits, Value;
    assert Three(tokens) == [OPEN, t, CLOSE];
    JoinedThree(OPEN, t, CLOSE);
    SizeOfParens(t.value);
  }

  lemma MoreTokens(tokens: seq<Token>, t: Token, u: Token)
    requires |tokens| >= 3 && tokens[0] == OPEN && tokens[1] == t && tokens[2] == u && (Neat(u) || u == OPEN)
    ensures var text := Joined(Three(tokens)); BracketedSize(text) == None && Bracketed(text)
  {
    hide BracketedSize;
    assert Three(tokens) == [OPEN, t, u];
    JoinedThree(OPEN, t, u);
    EndsOtherwise("(" + t.value + u.value);
  }

  /** Only a single number between the parentheses is a size, whatever follows them. */
  lemma {:induction false} BracketsHoldSize(items: seq<Item>, rest: seq<Token>)
    requires GoodItems(items) && forall k :: 0 <= k < |items| ==> NeatItem(items[k])
    ensures var text := Joined(Three(InParens(items) + rest)); BracketedSize(text) == SizeIn(items) && Bracketed(text)
  {
    var tokens := InParens(items) + rest;
    hide BracketedSize, AllDigits, Value, Neat, Joined, Three, Bracketed;
    if items == [] {
      NoNumberToken(tokens);
    } else {
      var later := PrintItems(items[1..]) + [CLOSE] + rest;
      assert tokens == [OPEN] + (PrintItem(items[0]) + later);
      assert NeatItem(items[0]);
      if items[0].Group? {
        assert tokens[1] == OPEN;
        NoNumberToken(tokens);
      } else if |items| == 1 {
        assert PrintItems(items[1..]) == [];
        assert tokens[2] == CLOSE;
        NumberToken(tokens, items[0].token);
      } else {
        assert NeatItem(items[1]);
        assert later[0] == PrintItem(items[1])[0];
        assert tokens[2] == later[0];
        MoreTokens(tokens, items[0].token, tokens[2]);
      }
    }
  }

  /** The size read from a column definition is the declared one. */
  lemma DefinitionHoldsSize(e: Entry)
    requires e.Column? && GoodEntry(e) && Typed(e)
    ensures FieldSize(DeclaredType(PrintEntry(e))) == SizeOf(e.parts)
  {
    var tokens := PrintEntry(e);
    hide FieldSize, OneWord, BracketedSize, AllDigits, Value, Joined, NeatItem, Bracketed;
    if e.parts == [] {
      assert DeclaredType(tokens) == "";
      NothingHasNoSize();
    } else {
      var first := e.parts[0];
      assert GoodPart(first);
      var word := if first.Word? then first.token else first.word;
      var later := PrintParts(e.parts[1..]);
      assert tokens == [e.name] + (PrintPart(first) + later);
      assert tokens[1] == word;
      UnquotedWord(word);
      if |e.parts| >= 2 && first.Word? && e.parts[1].Brackets? {
        TypeWithBrackets(e);
      } else {
        assert |tokens| > 2 ==> !IsPunctuation(tokens[2], "(") by {
          SecondIsNoBracket(e);
        }
        assert DeclaredType(tokens) == word.value + "";
        NoBrackets();
        FieldSizeOf("", word.value, "");
        assert "" + (word.value + "") == word.value + "";
        NoSize();
      }
    }
  }

  lemma NoBrackets()
    ensures Bracketed("")
  {
  }

  lemma NothingHasNoSize()
    ensures FieldSize("") == None
  {
  }

  lemma SecondIsNoBracket(e: Entry)
    requires e.Column? && GoodEntry(e) && e.parts != [] && !e.parts[0].Brackets?
    requires e.parts[0].Word? && |e.parts| >= 2 ==> !e.parts[1].Brackets?
    ensures var tokens := PrintEntry(e); |tokens| > 2 ==> !IsPunctuation(tokens[2], "(")
  {
    var tokens, later := PrintEntry(e), PrintParts(e.parts[1..]);
    assert GoodPart(e.parts[0]);
    assert tokens == [e.name] + (PrintPart(e.parts[0]) + later);
    if e.parts[0].Word? && |e.parts| >= 2 {
      assert GoodPart(e.parts[1]);
      assert later == PrintPart(e.parts[1]) + PrintParts(e.parts[1..][1..]);
      assert tokens[2] == PrintPart(e.parts[1])[0];
    }
  }

  lemma DeclaredTypeIs(name: Token, word: Token, group: seq<Token>)
    requires group != [] && IsPunctuation(group[0], "(")
    ensures DeclaredType([name] + ([word] + group)) == Unquoted(word) + Joined(Three(group))
  {
    hide Joined, Unquoted;
    var tokens := [name] + ([word] + group);
    assert tokens[2..] == group;
    assert tokens[2..if |tokens| < 5 then |tokens| else 5] == Three(group);
  }

  lemma TypeWithBrackets(e: Entry)
    requires e.Column? && GoodEntry(e) && Typed(e) && |e.parts| >= 2 && e.parts[0].Word? && e.parts[1].Brackets?
    ensures FieldSize(DeclaredType(PrintEntry(e))) == SizeOf(e.parts)
  {
    var word, items := e.parts[0].token, e.parts[1].items;
    var group := InParens(items) + PrintParts(e.parts[2..]);
    assert GoodPart(e.parts[1]);
    assert e.parts[1..][1..] == e.parts[2..];
    assert PrintParts(e.parts[1..]) == group;
    assert PrintEntry(e) == [e.name] + ([word] + group);
    DeclaredTypeIs(e.name, word, group);
    hide FieldSize, OneWord, BracketedSize, AllDigits, Value, Joined, NeatItem, Bracketed, DeclaredType, Three;
    UnquotedWord(word);
    BracketsHoldSize(items, PrintParts(e.parts[2..]));
    FieldSizeOf("", word.value, Joined(Three(group)));
    assert "" + (word.value + Joined(Three(group))) == word.value + Joined(Three(group));
  }

  // ----- The scan for sizes -----

  lemma {:induction false} PartsPass(parts: seq<Part>)
    requires forall k :: 0 <= k < |parts| ==> GoodPart(parts[k])
    ensures Passes(0, PrintParts(parts)) && Depth(0, PrintParts(parts)) == 0
  {
    if parts != [] {
      PartsPass(parts[1..]);
      PartPasses(parts[0]);
      hide Passes, Depth, PrintPart;
      PassesAppend(0, PrintPart(parts[0]), PrintParts(parts[1..]));
      DepthAppend(0, 0, PrintPart(parts[0]), PrintParts(parts[1..]));
    }
  }

  lemma TokenPasses(t: Token)
    requires !IsSeparator(t)
    ensures Passes(0, [t]) && Depth(0, [t]) == 0
  {
    assert [t][1..] == [];
  }

  lemma TokenThenPasses(t: Token, rest: seq<Token>)
    requires !IsSeparator(t) && Passes(0, rest) && Depth(0, rest) == 0
    ensures Passes(0, [t] + rest) && Depth(0, [t] + rest) == 0
  {
    TokenPasses(t);
    PassesAppend(0, [t], rest);
    DepthAppend(0, 0, [t], rest);
  }

  lemma PartPasses(p: Part)
    requires GoodPart(p)
    ensures Passes(0, PrintPart(p)) && Depth(0, PrintPart(p)) == 0
  {
    match p
    case Word(t) => TokenPasses(t);
    case Brackets(items) =>
      ItemsAreClosed(items);
      ParensPass(PrintItems(items));
    case Collate(word, name) =>
      TokenPasses(name);
      TokenThenPasses(word, [name]);
      assert [word] + [name] == [word, name];
  }

  lemma EntryPasses(e: Entry)
    requires GoodEntry(e)
    ensures Passes(0, PrintEntry(e)) && Depth(0, PrintEntry(e)) == 0
  {
    match e
    case Column(name, parts) =>
      PartsPass(parts);
      TokenThenPasses(name, PrintParts(parts));
    case TableConstraint(word, items) =>
      WordsPass(items);
      TokenThenPasses(word, PrintItems(items));
  }

  /** A definition is collected token by token. */
  lemma {:induction false} MeasuredTokens(
      sizes: Sizes, definition: seq<Token>, depth: nat, tokens: seq<Token>, rest: seq<Token>)
    requires Passes(depth, tokens)
    ensures Measured(sizes, definition, depth, tokens + rest) ==
            Measured(sizes, definition + tokens, Depth(depth, tokens), rest)
    decreases tokens
  {
    if tokens == [] {
      assert tokens + rest == rest && definition + tokens == definition;
    } else {
      var t := tokens[0];
      assert (tokens + rest)[0] == t && (tokens + rest)[1..] == tokens[1..] + rest;
      MeasuredTokens(sizes, definition + [t], DepthAfter(depth, t), tokens[1..], rest);
      assert definition + [t] + tokens[1..] == definition + tokens;
    }
  }

  lemma SizedEntry(sizes: Sizes, e: Entry)
    requires GoodEntry(e) && Typed(e)
    ensures Sized(sizes, PrintEntry(e)) == MeasureEntry(sizes, e)
  {
    hide FieldSize, DeclaredType, SizeOf, Unquoted, Typed;
    if e.Column? {
      DefinitionHoldsSize(e);
    }
  }

  /** One definition, up to the comma or the parenthesis after it. */
  lemma MeasuredEntry(sizes: Sizes, e: Entry, rest: seq<Token>)
    requires GoodEntry(e) && Typed(e)
    ensures Measured(sizes, [], 0, PrintEntry(e) + ([CLOSE] + rest)) == MeasureEntry(sizes, e)
    ensures Measured(sizes, [], 0, PrintEntry(e) + ([COMMA] + rest)) == Measured(MeasureEntry(sizes, e), [], 0, rest)
  {
    EntryPasses(e);
    SizedEntry(sizes, e);
    hide GoodEntry, Typed, PrintEntry, MeasureEntry, Sized, Passes, Depth;
    MeasuredTokens(sizes, [], 0, PrintEntry(e), [CLOSE] + rest);
    MeasuredTokens(sizes, [], 0, PrintEntry(e), [COMMA] + rest);
    assert [] + PrintEntry(e) == PrintEntry(e);
    assert ([COMMA] + rest)[1..] == rest;
  }

  lemma {:induction false} MeasuredEntries(sizes: Sizes, entries: seq<Entry>, tail: seq<Token>)
    requires entries != [] && forall k :: 0 <= k < |entries| ==> GoodEntry(entries[k]) && Typed(entries[k])
    ensures Measured(sizes, [], 0, PrintEntries(entries) + ([CLOSE] + tail)) == MeasureEntries(sizes, entries)
    decreases |entries|
  {
    hide GoodEntry, Typed, PrintEntry, MeasureEntry, Measured;
    var first := entries[0];
    if |entries| == 1 {
      MeasuredEntry(sizes, first, tail);
      assert MeasureEntries(sizes, entries) == MeasureEntry(sizes, first);
    } else {
      var later := PrintEntries(entries[1..]) + ([CLOSE] + tail);
      assert PrintEntries(entries) + ([CLOSE] + tail) == PrintEntry(first) + ([COMMA] + later);
      MeasuredEntry(sizes, first, later);
      MeasuredEntries(MeasureEntry(sizes, first), entries[1..], tail);
    }
  }

  /** Whatever whitespace and comments are added, the scan gives back the declared sizes. */
  lemma SizesAreDeclared(t: Table, tokens: seq<Token>)
    requires GoodTable(t) && WithoutNoise(tokens) == PrintTable(t)
    requires forall k :: 0 <= k < |t.entries| ==> Typed(t.entries[k])
    ensures ColumnSizes(tokens) == MeasureEntries(map[], t.entries)
  {
    BodyOfTable(t, tokens);
    hide Body, Measured, PrintEntries, GoodEntry, Typed;
    MeasuredEntries(map[], t.entries, t.tail);
  }

  // ----- What the declarations say, column by column -----

  /** No two columns of the same name. */
  predicate DistinctColumns(entries: seq<Entry>) {
    forall i, j :: 0 <= i < j < |entries| && entries[i].Column? && entries[j].Column? ==>
      Unquoted(entries[i].name) != Unquoted(entries[j].name)
  }

  lemma {:induction false} EntriesSplit(found: Collations, sizes: Sizes, entries: seq<Entry>, e: Entry)
    ensures NoteEntries(found, entries + [e]) == NoteEntry(NoteEntries(found, entries), e)
    ensures MeasureEntries(sizes, entries + [e]) == MeasureEntry(MeasureEntries(sizes, entries), e)
    decreases |entries|
  {
    hide NoteEntry, MeasureEntry;
    if entries == [] {
      assert entries + [e] == [e] && [e][1..] == [];
    } else {
      assert (entries + [e])[0] == entries[0] && (entries + [e])[1..] == entries[1..] + [e];
      EntriesSplit(NoteEntry(found, entries[0]), MeasureEntry(sizes, entries[0]), entries[1..], e);
    }
  }

  predicate Declares(e: Entry, name: string) {
    e.Column? && Unquoted(e.name) == name
  }

  /** The collations name exactly the columns, each with its own declaration. */
  ghost predicate CollationsMatch(c: Collations, entries: seq<Entry>) {
    && (forall n :: n in c ==> exists i :: 0 <= i < |entries| && Declares(entries[i], n))
    && (forall i :: 0 <= i < |entries| && entries[i].Column? ==>
          Unquoted(entries[i].name) in c && c[Unquoted(entries[i].name)] == CollationOf(entries[i].parts))
  }

  /** The sizes name exactly the columns with a declared length, each with its own. */
  ghost predicate SizesMatch(s: Sizes, entries: seq<Entry>) {
    && (forall n :: n in s ==>
          exists i :: 0 <= i < |entries| && Declares(entries[i], n) && SizeOf(entries[i].parts) == Some(s[n]))
    && (forall i :: 0 <= i < |entries| && entries[i].Column? && SizeOf(entries[i].parts).Some? ==>
          Unquoted(entries[i].name) in s)
  }

  lemma CollationsStep(c: Collations, entries: seq<Entry>, e: Entry)
    requires CollationsMatch(c, entries) && DistinctColumns(entries + [e])
    ensures CollationsMatch(NoteEntry(c, e), entries + [e])
  {
    hide CollationOf, Unquoted;
    var all, d := entries + [e], NoteEntry(c, e);
    assert all[|entries|] == e;
    forall n | n in d
      ensures exists i :: 0 <= i < |all| && Declares(all[i], n)
    {
      if n in c {
        var i :| 0 <= i < |entries| && Declares(entries[i], n);
        assert all[i] == entries[i];
      } else {
        assert Declares(all[|entries|], n);
      }
    }
    forall i | 0 <= i < |all| && all[i].Column?
      ensures Unquoted(all[i].name) in d && d[Unquoted(all[i].name)] == CollationOf(all[i].parts)
    {
      if i < |entries| {
        assert all[i] == entries[i];
      }
    }
  }

  lemma SizesStep(s: Sizes, entries: seq<Entry>, e: Entry)
    requires SizesMatch(s, entries) && DistinctColumns(entries + [e])
    ensures SizesMatch(MeasureEntry(s, e), entries + [e])
  {
    hide SizeOf, Unquoted;
    var all, d := entries + [e], MeasureEntry(s, e);
    assert all[|entries|] == e;
    forall n | n in d
      ensures exists i :: 0 <= i < |all| && Declares(all[i], n) && SizeOf(all[i].parts) == Some(d[n])
    {
      if e.Column? && SizeOf(e.parts).Some? && n == Unquoted(e.name) {
        assert Declares(all[|entries|], n);
      } else {
        var i :| 0 <= i < |entries| && Declares(entries[i], n) && SizeOf(entries[i].parts) == Some(s[n]);
        assert all[i] == entries[i];
      }
    }
    forall i | 0 <= i < |all| && all[i].Column? && SizeOf(all[i].parts).Some?
      ensures Unquoted(all[i].name) in d
    {
      if i < |entries| {
        assert all[i] == entries[i];
      }
    }
  }

  lemma {:induction false} DeclarationsByColumn(entries: seq<Entry>)
    requires DistinctColumns(entries)
    ensures CollationsMatch(NoteEntries(map[], entries), entries)
    ensures SizesMatch(MeasureEntries(map[], entries), entries)
  {
    if entries != [] {
      var rest, e := entries[..|entries| - 1], entries[|entries| - 1];
      assert rest + [e] == entries;
      assert forall i :: 0 <= i < |rest| ==> rest[i] == entries[i];
      hide CollationsMatch, SizesMatch, NoteEntries, MeasureEntries, NoteEntry, MeasureEntry, Unquoted;
      DeclarationsByColumn(rest);
      EntriesSplit(map[], map[], rest, e);
      CollationsStep(NoteEntries(map[], rest), rest, e);
      SizesStep(MeasureEntries(map[], rest), rest, e);
    }
  }

  /** The scans return exactly the declared collations and lengths. */
  lemma {:induction false} ScansAreExact(t: Table, tokens: seq<Token>)
    requires GoodTable(t) && DistinctColumns(t.entries) && WithoutNoise(tokens) == PrintTable(t)
    requires forall k :: 0 <= k < |t.entries| ==> Typed(t.entries[k])
    ensures CollationsMatch(ColumnCollations(tokens), t.entries)
    ensures SizesMatch(ColumnSizes(tokens), t.entries)
  {
    CollationsAreDeclared(t, tokens);
    SizesAreDeclared(t, tokens);
    hide *;
    DeclarationsByColumn(t.entries);
  }

  // ----- Parenthesised groups -----

  /** Equal parts, except for what stands inside groups; the group right after the type is `sized`. */
  ghost predicate SameParts(a: seq<Part>, b: seq<Part>, sized: bool) {
    && |a| == |b|
    && (forall k :: 0 <= k < |a| ==> a[k] == b[k] || (a[k].Brackets? && b[k].Brackets?))
    && (sized && |a| >= 2 ==> a[1] == b[1])
  }

  ghost predicate SameEntries(a: seq<Entry>, b: seq<Entry>, sized: bool) {
    && |a| == |b|
    && forall k :: 0 <= k < |a| ==>
         if a[k].Column? then b[k].Column? && a[k].name == b[k].name && SameParts(a[k].parts, b[k].parts, sized)
         else b[k].TableConstraint?
  }

  lemma {:induction false} SamePartsSameCollation(a: seq<Part>, b: seq<Part>)
    requires SameParts(a, b, false)
    ensures CollationOf(a) == CollationOf(b)
  {
    if a != [] {
      SamePartsSameCollation(a[1..], b[1..]);
    }
  }

  lemma {:induction false} SameEntriesSameResults(
      c: Collations, s: Sizes, a: seq<Entry>, b: seq<Entry>, sized: bool)
    requires SameEntries(a, b, sized)
    ensures NoteEntries(c, a) == NoteEntries(c, b)
    ensures sized ==> MeasureEntries(s, a) == MeasureEntries(s, b)
    decreases |a|
  {
    if a != [] {
      if a[0].Column? {
        SamePartsSameCollation(a[0].parts, b[0].parts);
        assert sized ==> SizeOf(a[0].parts) == SizeOf(b[0].parts);
      }
      hide SizeOf, CollationOf, SameParts, Unquoted;
      SameEntriesSameResults(NoteEntry(c, a[0]), MeasureEntry(s, a[0]), a[1..], b[1..], sized);
    }
  }

  /** What a balanced group contains never changes a collation, and where the first word of each column is one
      word, only the group right after the type can change a size. */
  lemma {:induction false} GroupContentsDoNotMatter(
      t: Table, u: Table, tokens: seq<Token>, others: seq<Token>, sized: bool)
    requires GoodTable(t) && GoodTable(u) && SameEntries(t.entries, u.entries, sized)
    requires WithoutNoise(tokens) == PrintTable(t) && WithoutNoise(others) == PrintTable(u)
    requires sized ==> forall k :: 0 <= k < |t.entries| ==> Typed(t.entries[k]) && Typed(u.entries[k])
    ensures ColumnCollations(tokens) == ColumnCollations(others)
    ensures sized ==> ColumnSizes(tokens) == ColumnSizes(others)
  {
    CollationsAreDeclared(t, tokens);
    CollationsAreDeclared(u, others);
    if sized {
      SizesAreDeclared(t, tokens);
      SizesAreDeclared(u, others);
    }
    hide *;
    SameEntriesSameResults(map[], map[], t.entries, u.entries, sized);
  }
}

/** When the translator and the driver agree on the regions of the translated query. The texts of
    named placeholders and of malformed candidates are copied without being read, so a delimiter
    inside one of them opens a region that the translator does not know of. */
module NamedPlaceholders {
  import opened SqlText
  import opened Placeholders
  import opened PlaceholderLaws

  /** The regions as the translator sees them: each rendered token in the region it was read in. */
  ghost function Seen(q: string, st: State, named: bool): (rs: seq<Region>)
    ensures rs != [] && rs[0].kind == st
    decreases |q|
  {
    if q == "" then [Region(st, "")]
    else
      var r := Next(q, st, named);
      Joined(st, r.token.Rendered(), r.next, Seen(q[r.width..], r.next, named))
  }

  /** Put text in front of regions; the text moves the lexer from `st` to the kind of the first. */
  function Joined(st: State, lead: string, next: State, rest: seq<Region>): (rs: seq<Region>)
    requires rest != [] && rest[0].kind == next
    ensures rs != [] && rs[0].kind == st
  {
    if next == st then Extend(lead, rest)
    else if st == Sql then [Region(Sql, "")] + Extend(lead, rest)
    else [Region(st, lead)] + rest
  }

  /** `s` starts with a delimiter that opens a literal, an identifier or a comment. */
  predicate Opens(s: string) {
    Starts(s, '-', '-') || Starts(s, '/', '*') || (s != "" && (s[0] == '\'' || OpensIdentifier(s[0])))
  }

  predicate Starting(s: string, c: char) {
    s != "" && s[0] == c
  }

  /** No delimiter starts within `text` when `rest` follows it. */
  predicate Harmless(text: string, rest: string) {
    forall k | 0 <= k < |text| :: !Opens(text[k..] + rest)
  }

  /** No delimiter starts within a name or within malformed text; what follows is read from the query. */
  predicate Inert(q: string, st: State, named: bool)
    decreases |q|
  {
    q == "" ||
    var r := Next(q, st, named);
    && (r.token.Raw? || r.token.Named? ==> Harmless(r.token.Rendered(), q[r.width..]))
    && Inert(q[r.width..], r.next, named)
  }

  // ----- Reading a text that the translator did not read -----

  lemma {:induction false} ExtendIsInjective(lead: string, a: seq<Region>, b: seq<Region>)
    requires a != [] && b != [] && Extend(lead, a) == Extend(lead, b)
    ensures a == b
  {
    var x, y := Extend(lead, a), Extend(lead, b);
    assert a[0].text == x[0].text[|lead|..] && b[0].text == y[0].text[|lead|..];
    assert a == [a[0]] + x[1..] && b == [b[0]] + y[1..];
  }

  lemma {:induction false} JoinedIsInjective(st: State, lead: string, next: State, a: seq<Region>, b: seq<Region>)
    requires a != [] && a[0].kind == next && b != [] && b[0].kind == next
    requires Joined(st, lead, next, a) == Joined(st, lead, next, b)
    ensures a == b
  {
    var x, y := Joined(st, lead, next, a), Joined(st, lead, next, b);
    if next == st {
      ExtendIsInjective(lead, a, b);
    } else if st == Sql {
      assert Extend(lead, a) == x[1..] && Extend(lead, b) == y[1..];
      ExtendIsInjective(lead, a, b);
    } else {
      assert a == x[1..] && b == y[1..];
    }
  }

  lemma ExtendTwice(a: string, b: string, rs: seq<Region>)
    requires rs != []
    ensures Extend(a, Extend(b, rs)) == Extend(a + b, rs)
  {
    assert Extend(b, rs)[1..] == rs[1..];
    assert a + (b + rs[0].text) == a + b + rs[0].text;
  }

  /** Plain text without a delimiter stays in one region. */
  lemma {:induction false} HarmlessRun(text: string, rest: string)
    requires Harmless(text, rest)
    ensures Regions(text + rest, Sql) == Extend(text, Regions(rest, Sql))
    decreases |text|
  {
    hide Regions;
    var rs := Regions(rest, Sql);
    if text == "" {
      assert text + rest == rest;
      assert text + rs[0].text == rs[0].text;
      assert [rs[0]] + rs[1..] == rs;
    } else {
      var s, later := text + rest, text[1..];
      forall k | 0 <= k < |later| ensures !Opens(later[k..] + rest) {
        assert later[k..] == text[k + 1..];
      }
      HarmlessRun(later, rest);
      assert Advance(s, Sql) == Move(1, Sql) by {
        assert text[0..] == text;
      }
      hide *;
      RegionsOfOne(s, Sql);
      assert s[..1] == [text[0]] && s[1..] == later + rest;
      ExtendTwice([text[0]], later, rs);
      assert [text[0]] + later == text;
    }
  }

  /** A delimiter within a text ends its region early. */
  lemma {:induction false} HarmfulRun(text: string, rest: string)
    requires !Harmless(text, rest)
    ensures |Regions(text + rest, Sql)[0].text| < |text|
    decreases |text|
  {
    var s := text + rest;
    assert text[0..] == text;
    if !Opens(s) {
      var later := text[1..];
      var k :| 0 <= k < |text| && Opens(text[k..] + rest);
      assert later[k - 1..] == text[k..];
      HarmfulRun(later, rest);
      assert s[1..] == later + rest;
      assert Advance(s, Sql) == Move(1, Sql);
    }
  }

  /** Only the first character after a text decides whether its end opens a comment. */
  lemma SameFollower(text: string, a: string, b: string)
    requires Starting(a, '-') == Starting(b, '-') && Starting(a, '*') == Starting(b, '*')
    ensures Harmless(text, a) == Harmless(text, b)
  {
    forall k | 0 <= k < |text| ensures Opens(text[k..] + a) == Opens(text[k..] + b) {
      var s := text[k..];
      assert (s + a)[0] == (s + b)[0] == s[0];
      if |s| > 1 {
        assert (s + a)[1] == (s + b)[1] == s[1];
      } else {
        assert Opens(s + a) <==>
            (a != "" && ((s[0] == '-' && a[0] == '-') || (s[0] == '/' && a[0] == '*')))
            || s[0] == '\'' || OpensIdentifier(s[0]);
      }
    }
  }

  /** `o` starts as `q` does, except that `%` may become the head of a placeholder. */
  predicate SameHead(q: string, o: string) {
    && (q == "" <==> o == "")
    && (q != "" ==> o[0] == q[0] || (q[0] == '%' && (o[0] == '?' || o[0] == ':')))
  }

  lemma RenderedHead(q: string, st: State, named: bool)
    requires q != ""
    ensures var text := Next(q, st, named).token.Rendered();
      text != "" && (text[0] == q[0] || (q[0] == '%' && (text[0] == '?' || text[0] == ':')))
  {
    hide PlaceholderEnd;
  }

  lemma HeadIsKept(q: string, st: State, named: bool)
    ensures SameHead(q, Out(q, st, named))
  {
    hide Next, Token.Rendered;
    if q != "" {
      OutStep(q, st, named);
      RenderedHead(q, st, named);
    }
  }

  /** A copied token is read again as itself. */
  lemma CopiedMove(q: string, st: State, rest: string)
    requires q != "" && Reachable(st)
    requires SameHead(q[Advance(q, st).width..], rest)
    ensures Advance(q[..Advance(q, st).width] + rest, st) == Advance(q, st)
  {
    var w := Advance(q, st).width;
    var o := q[..w] + rest;
    assert o[0] == q[0];
    if w == 2 {
      assert o[1] == q[1];
    }
  }

  /** The driver reads every other token of the output as the translator read it. */
  lemma ReadAlike(q: string, st: State, named: bool)
    requires q != "" && Reachable(st)
    requires !Next(q, st, named).token.Raw? && !Next(q, st, named).token.Named?
    ensures var r, o := Next(q, st, named), Out(q, st, named);
      && o != "" && Advance(o, st) == Move(|r.token.Rendered()|, r.next)
      && o == r.token.Rendered() + Out(q[r.width..], r.next, named)
  {
    OutStep(q, st, named);
    var r, m := Next(q, st, named), Advance(q, st);
    var rest := Out(q[r.width..], r.next, named);
    HeadIsKept(q[r.width..], r.next, named);
    hide Lex, Render;
    if r.token.Percent? || r.token.Positional? {
      var o := r.token.Rendered() + rest;
      assert o[0] == '%' || o[0] == '?';
    } else {
      assert r == Read(r.token, m.width, m.next) && r.token.Rendered() == q[..m.width];
      CopiedMove(q, st, rest);
    }
  }

  lemma RegionsJoined(o: string, st: State, lead: string, next: State, rest: string)
    requires o != "" && o == lead + rest && Advance(o, st) == Move(|lead|, next)
    ensures Regions(o, st) == Joined(st, lead, next, Regions(rest, next))
  {
    assert o[..|lead|] == lead && o[|lead|..] == rest;
  }

  // ----- The structure of the translated query -----

  /** The driver finds the regions that the translator saw exactly when no name and no malformed
      candidate contains a delimiter. In positional mode there is neither. */
  lemma {:induction false} StructureIsSharedExactly(q: string, st: State, named: bool)
    requires Reachable(st)
    ensures Regions(Out(q, st, named), st) == Seen(q, st, named) <==> Inert(q, st, named)
    decreases |q|
  {
    if q == "" {
      assert Out(q, st, named) == "";
    } else {
      hide Regions, Lex, Render, Advance, Next, Opens, Starts;
      var r := Next(q, st, named);
      var later := q[r.width..];
      NextIsReachable(q, st, named);
      StructureIsSharedExactly(later, r.next, named);
      var o, rest, lead := Out(q, st, named), Out(later, r.next, named), r.token.Rendered();
      OutStep(q, st, named);
      assert o == lead + rest;
      if Joined(st, lead, r.next, Regions(rest, r.next)) == Seen(q, st, named) {
        JoinedIsInjective(st, lead, r.next, Regions(rest, r.next), Seen(later, r.next, named));
      }
      if r.token.Raw? || r.token.Named? {
        assert st == r.next == Sql by { CandidatesArePlain(q, st, named); }
        HeadIsKept(later, r.next, named);
        SameFollower(lead, later, rest);
        if Harmless(lead, rest) {
          HarmlessRun(lead, rest);
        } else {
          HarmfulRun(lead, rest);
        }
      } else {
        ReadAlike(q, st, named);
        RegionsJoined(o, st, lead, r.next, rest);
      }
    }
  }

  lemma NextIsReachable(q: string, st: State, named: bool)
    requires q != "" && Reachable(st)
    ensures Reachable(Next(q, st, named).next)
  {
  }

  lemma CandidatesArePlain(q: string, st: State, named: bool)
    requires q != "" && (Next(q, st, named).token.Raw? || Next(q, st, named).token.Named?)
    ensures st == Sql == Next(q, st, named).next
  {
  }

  // ----- The kinds of the regions -----

  function Kinds(rs: seq<Region>): (ks: seq<State>)
    ensures |ks| == |rs| && forall i :: 0 <= i < |rs| ==> ks[i] == rs[i].kind
  {
    seq(|rs|, i requires 0 <= i < |rs| => rs[i].kind)
  }

  lemma {:induction false} SourceIsHarmless(name: string, rest: string)
    requires Harmless(":" + name, rest)
    ensures Harmless("%(" + name + ")s", rest)
  {
    var source, rendered := "%(" + name + ")s", ":" + name;
    forall k | 0 <= k < |source| ensures !Opens(source[k..] + rest) {
      var tail := source[k..] + rest;
      if 2 <= k < 2 + |name| {
        var other := rendered[k - 1..] + rest;
        assert !Opens(other) && other[0] == name[k - 2] == tail[0];
        assert tail[1] == source[k + 1];
        if k - 1 < |name| {
          assert other[1] == name[k - 1] == tail[1];
        }
      } else {
        assert tail[0] == source[k];
      }
    }
  }

  lemma {:induction false} KindsOfJoined(st: State, a: string, b: string, next: State, x: seq<Region>, y: seq<Region>)
    requires x != [] && x[0].kind == next && y != [] && y[0].kind == next && Kinds(x) == Kinds(y)
    ensures Kinds(Joined(st, a, next, x)) == Kinds(Joined(st, b, next, y))
  {
    assert |x| == |Kinds(x)| == |y|;
    forall i | 0 <= i < |x| ensures x[i].kind == y[i].kind {
      assert x[i].kind == Kinds(x)[i] == Kinds(y)[i];
    }
  }

  lemma RegionsOfToken(q: string, st: State, named: bool)
    requires q != "" && Inert(q, st, named)
    ensures var r := Next(q, st, named);
      Regions(q, st) == Joined(st, q[..r.width], r.next, Regions(q[r.width..], r.next))
  {
    var r := Next(q, st, named);
    var later := q[r.width..];
    SourceIsPrefix(q, st, named);
    if r.token.Raw? || r.token.Named? {
      CandidatesArePlain(q, st, named);
      assert q == r.token.Source() + later;
      if r.token.Named? {
        SourceIsHarmless(r.token.name, later);
      }
      HarmlessRun(r.token.Source(), later);
    } else if r.token.Percent? || r.token.Positional? {
      RegionsOfTwo(q, st);
    } else {
      assert Advance(q, st) == Move(r.width, r.next);
      RegionsJoined(q, st, q[..r.width], r.next, later);
    }
  }

  /** Then the output also has the regions of the query, in number and in kind. */
  lemma {:induction false} KindsAreKept(q: string, st: State, named: bool)
    requires Reachable(st) && Inert(q, st, named)
    ensures Kinds(Regions(Out(q, st, named), st)) == Kinds(Regions(q, st))
  {
    StructureIsSharedExactly(q, st, named);
    SeenKinds(q, st, named);
  }

  lemma {:induction false} SeenKinds(q: string, st: State, named: bool)
    requires Inert(q, st, named)
    ensures Kinds(Seen(q, st, named)) == Kinds(Regions(q, st))
    decreases |q|
  {
    if q != "" {
      var r := Next(q, st, named);
      var later := q[r.width..];
      SeenKinds(later, r.next, named);
      RegionsOfToken(q, st, named);
      KindsOfJoined(st, r.token.Rendered(), q[..r.width], r.next, Seen(later, r.next, named), Regions(later, r.next));
    }
  }

  lemma {:induction false} PositionalIsInert(q: string, st: State)
    ensures Inert(q, st, false)
    decreases |q|
  {
    if q != "" {
      var r := Next(q, st, false);
      PositionalIsInert(q[r.width..], r.next);
    }
  }

  // ----- Inputs on which the two disagree -----

  lemma OneToken(q: string, token: Token, later: string)
    requires q == token.Source() + later && q != "" && Next(q, Sql, true) == Read(token, |token.Source()|, Sql)
    ensures Out(q, Sql, true) == token.Rendered() + Out(later, Sql, true)
    ensures Names(Lex(q, Sql, true)) ==
        (if token.Named? then {token.name} else {}) + Names(Lex(later, Sql, true))
  {
    assert q[|token.Source()|..] == later;
    OutStep(q, Sql, true);
    BindingStep(q, Sql, true);
  }

  lemma EndOfCandidate(q: string, end: nat)
    requires Starts(q, '%', '(') && 2 <= end < |q|
    requires q[end] == ')' || Starts(q[end..], '%', '(')
    requires forall k | 2 <= k < end :: q[k] != ')' && q[k] != '%'
    ensures PlaceholderEnd(q, 2) == end
  {
    hide PlaceholderEnd;
  }

  /** A candidate with a simple name is a placeholder. */
  lemma NamedToken(name: string, later: string)
    requires forall k | 0 <= k < |name| :: name[k] != ')' && name[k] != '%'
    ensures var t := Named(name);
      Next(t.Source() + later, Sql, true) == Read(t, |t.Source()|, Sql)
  {
    var q, end := "%(" + name + ")s" + later, 2 + |name|;
    forall k | 2 <= k < end ensures q[k] != ')' && q[k] != '%' {
      assert q[k] == name[k - 2];
    }
    EndOfCandidate(q, end);
    assert q[2..end] == name;
    hide PlaceholderEnd;
  }

  lemma NothingLeft()
    ensures Out("", Sql, true) == "" && Names(Lex("", Sql, true)) == {}
    ensures forall st :: Regions("", st) == [Region(st, "")]
  {
  }

  lemma AfterPlain(lead: string, o: string, last: Region)
    requires Harmless(lead, o) && Regions(o, Sql) == [Region(Sql, ""), last]
    ensures Regions(lead + o, Sql) == [Region(Sql, lead), last]
  {
    HarmlessRun(lead, o);
    assert lead + "" == lead;
  }

  lemma NothingOpens(q: string)
    requires q == "%(-)s-"
    ensures Regions(q, Sql) == [Region(Sql, q)]
  {
    forall k | 0 <= k < |q| ensures !Opens(q[k..] + "") {
      var s := q[k..] + "";
      assert s[0] == q[k] && |s| == |q| - k;
      assert |s| > 1 ==> s[1] == q[k + 1];
    }
    assert q + "" == q;
    NothingLeft();
    hide *;
    HarmlessRun(q, "");
    assert Extend(q, [Region(Sql, "")]) == [Region(Sql, q)];
  }

  lemma LiteralOf(o: string)
    requires o == "':a"
    ensures Regions(o, Sql) == [Region(Sql, ""), Region(Literal, o)]
  {
    NothingLeft();
    hide Regions;
    RegionsJoined("a", Literal, "a", Literal, "");
    RegionsJoined(":a", Literal, ":", Literal, "a");
    RegionsJoined(o, Sql, "'", Literal, ":a");
    assert Regions("a", Literal) == [Region(Literal, "a")];
    assert ":" + "a" == ":a" && "'" + ":a" == o;
  }

  lemma CommentAfterColon(o: string)
    requires o == "--"
    ensures Regions(":" + o, Sql) == [Region(Sql, ":"), Region(LineComment, o)]
  {
    NothingLeft();
    RegionsJoined(o, Sql, o, LineComment, "");
    assert o + "" == o;
    RegionsJoined(":" + o, Sql, ":", Sql, o);
    assert ":" + "" == ":";
  }

  /** A malformed candidate with a quote: the translator replaces a placeholder that the driver reads
      as part of a literal. */
  lemma QuoteInMalformedCandidate()
    ensures var q := "%('%(a)s"; Out(q, Sql, true) == "%(':a" && Names(Lex(q, Sql, true)) == {"a"}
    ensures Regions("%(':a", Sql) == [Region(Sql, "%("), Region(Literal, "':a")]
  {
    hide Lex, Render, Names, Regions, PlaceholderEnd;
    var q, raw, named, later := "%('%(a)s", Raw("%('"), Named("a"), "%(a)s";
    assert q == raw.Source() + later && later == named.Source() + "";
    EndOfCandidate(q, 3);
    NamedToken("a", "");
    OneToken(later, named, "");
    OneToken(q, raw, later);
    NothingLeft();
    LiteralOf("':a");
    AfterPlain("%(", "':a", Region(Literal, "':a"));
    assert "%(" + "':a" == "%(':a" == "%('" + ":a";
  }

  /** A name that is a dash: with the dash after it, it starts a comment. */
  lemma DashAfterName()
    ensures var q := "%(-)s-"; Out(q, Sql, true) == ":--" && Regions(q, Sql) == [Region(Sql, q)]
    ensures Regions(":--", Sql) == [Region(Sql, ":"), Region(LineComment, "--")]
  {
    hide *;
    DashIsCopied();
    NothingOpens("%(-)s-");
    CommentAfterColon("--");
    assert ":" + "--" == ":--";
  }

  lemma DashIsCopied()
    ensures Out("%(-)s-", Sql, true) == ":--"
  {
    hide Lex, Render, Names, Regions, PlaceholderEnd;
    var named, dash := Named("-"), Plain('-');
    NamedToken("-", "-");
    OneToken(named.Source() + "-", named, "-");
    OneToken("-", dash, "");
    NothingLeft();
    hide *;
    assert named.Source() == "%(" + "-" + ")s" && named.Rendered() == ":" + "-";
    assert named.Source() + "-" == "%(-)s-";
  }
}

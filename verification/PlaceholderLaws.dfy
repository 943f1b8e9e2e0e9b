/** What the placeholder translator preserves: the regions of the SQL text, every character outside
    a placeholder, and the number of parameters. */
module PlaceholderLaws {
  import opened Outcomes
  import opened SqlText
  import opened Placeholders

  predicate Reachable(st: State) {
    st.Identifier? ==> st.close == '\"' || st.close == '`' || st.close == ']'
  }

  function Out(q: string, st: State, named: bool): string {
    Render(Lex(q, st, named))
  }

  lemma OutStep(q: string, st: State, named: bool)
    requires q != ""
    ensures var r := Next(q, st, named);
      Out(q, st, named) == r.token.Rendered() + Out(q[r.width..], r.next, named)
  {
    var r := Next(q, st, named);
    var later := Lex(q[r.width..], r.next, named);
    assert ([Lexeme(st, r.token)] + later)[1..] == later;
  }

  lemma BindingStep(q: string, st: State, named: bool)
    requires q != ""
    ensures var r := Next(q, st, named);
      var ls, later := Lex(q, st, named), Lex(q[r.width..], r.next, named);
      && Positionals(ls) == (if r.token.Positional? then 1 else 0) + Positionals(later)
      && Names(ls) == (if r.token.Named? then {r.token.name} else {}) + Names(later)
  {
    var r := Next(q, st, named);
    var later := Lex(q[r.width..], r.next, named);
    assert ([Lexeme(st, r.token)] + later)[1..] == later;
  }

  // ----- Tokens cover the query -----

  lemma SourceIsPrefix(q: string, st: State, named: bool)
    requires q != ""
    ensures Next(q, st, named).token.Source() == q[..Next(q, st, named).width]
  {
    var r := Next(q, st, named);
    if r.token.Named? {
      var end := PlaceholderEnd(q, 2);
      assert q[..r.width] == q[..2] + q[2..end] + q[end..r.width];
      assert q[end..r.width] == ")s";
    }
  }

  /** Reading a query as tokens loses nothing, malformed placeholders included. */
  lemma {:induction false} TokensCoverQuery(q: string, st: State, named: bool)
    ensures Sources(Lex(q, st, named)) == q
    decreases |q|
  {
    if q != "" {
      var r := Next(q, st, named);
      TokensCoverQuery(q[r.width..], r.next, named);
      SourceIsPrefix(q, st, named);
      var later := Lex(q[r.width..], r.next, named);
      assert ([Lexeme(st, r.token)] + later)[1..] == later;
    }
  }

  /** A mapping is rejected exactly when it lacks a name that the query requires, and the error names the first
      of these. */
  lemma {:induction false} MissingNameIsRejected(ls: seq<Lexeme>, known: set<string>)
    ensures FirstUnknown(ls, known).None? <==> Names(ls) <= known
    ensures FirstUnknown(ls, known).Some? ==>
        exists i :: 0 <= i < |ls| && ls[i].token == Named(FirstUnknown(ls, known).value)
          && FirstUnknown(ls, known).value !in known && Names(ls[..i]) <= known
  {
    if ls != [] {
      MissingNameIsRejected(ls[1..], known);
      if ls[0].token.Named? && ls[0].token.name !in known {
        assert ls[0].token == Named(FirstUnknown(ls, known).value) && ls[..0] == [];
      } else if FirstUnknown(ls, known).Some? {
        var i :| 0 <= i < |ls| - 1 && ls[1..][i].token == Named(FirstUnknown(ls, known).value)
          && Names(ls[1..][..i]) <= known;
        assert ls[..i + 1][0] == ls[0] && ls[..i + 1][1..] == ls[1..][..i];
        assert ls[i + 1].token == Named(FirstUnknown(ls, known).value);
      }
    }
  }

  // ----- Structure (positional mode) -----

  /** `%%` and `%s` replaced from left to right, as in plain text. */
  function Substitute(text: string): (r: string) {
    if text == [] then ""
    else if Starts(text, '%', '%') then "%" + Substitute(text[2..])
    else if Starts(text, '%', 's') then "?" + Substitute(text[2..])
    else [text[0]] + Substitute(text[1..])
  }

  /** `%%` replaced from left to right, as in string literals. */
  function Collapse(text: string): (r: string) {
    if text == [] then ""
    else if Starts(text, '%', '%') then "%" + Collapse(text[2..])
    else [text[0]] + Collapse(text[1..])
  }

  /** The number of `%s` placeholders in plain text. */
  function Slots(text: string): nat {
    if text == [] then 0
    else if Starts(text, '%', '%') then Slots(text[2..])
    else if Starts(text, '%', 's') then 1 + Slots(text[2..])
    else Slots(text[1..])
  }

  function TranslateRegion(r: Region): Region {
    match r.kind
    case Sql => Region(Sql, Substitute(r.text))
    case Literal => Region(Literal, Collapse(r.text))
    case _ => r
  }

  function TranslateRegions(rs: seq<Region>): (out: seq<Region>)
    ensures |out| == |rs|
    ensures forall i :: 0 <= i < |rs| ==> out[i] == TranslateRegion(rs[i])
  {
    if rs == [] then [] else [TranslateRegion(rs[0])] + TranslateRegions(rs[1..])
  }

  function RegionSlots(rs: seq<Region>): nat {
    if rs == [] then 0 else (if rs[0].kind == Sql then Slots(rs[0].text) else 0) + RegionSlots(rs[1..])
  }

  /** The first region starts with the text itself, or is empty because a delimiter follows. */
  lemma HeadText(q: string, st: State)
    ensures var text := Regions(q, st)[0].text; text == "" || (q != "" && text[0] == q[0])
  {
  }

  /** Only `%` can change at the head of a query. */
  lemma OutHead(q: string, st: State)
    ensures Out(q, st, false) == "" <==> q == ""
    ensures q != "" ==>
        var o := Out(q, st, false); o[0] == q[0] || (q[0] == '%' && (o[0] == '%' || o[0] == '?'))
  {
    if q != "" {
      OutStep(q, st, false);
    }
  }

  /** A token that is copied moves the lexer on the output exactly as on the query. */
  lemma AdvanceOnOutput(q: string, st: State)
    requires q != "" && Reachable(st)
    requires !Next(q, st, false).token.Percent? && !Next(q, st, false).token.Positional?
    ensures var m, o := Advance(q, st), Out(q, st, false);
      && o != "" && Advance(o, st) == m && m == Move(Next(q, st, false).width, Next(q, st, false).next)
      && o[..m.width] == q[..m.width]
      && o[m.width..] == Out(q[m.width..], m.next, false)
  {
    OutStep(q, st, false);
    var r, m := Next(q, st, false), Advance(q, st);
    assert r.token.Rendered() == q[..m.width] && r.width == m.width;
    OutHead(q[m.width..], m.next);
  }

  /** Copied text in front of a region is translated to itself. */
  lemma TranslateLead(q: string, st: State, text: string)
    requires q != ""
    requires !Next(q, st, false).token.Percent? && !Next(q, st, false).token.Positional?
    requires var m := Advance(q, st); m.next == st || st == Sql
    requires var tail := q[Advance(q, st).width..]; text == "" || (tail != "" && text[0] == tail[0])
    ensures var m := Advance(q, st);
      TranslateRegion(Region(m.next, q[..m.width] + text)).text ==
        q[..m.width] + TranslateRegion(Region(m.next, text)).text
  {
    var m := Advance(q, st);
    var lead := q[..m.width];
    var whole := lead + text;
    match m.next {
      case Sql =>
        assert lead == [q[0]] && whole[1..] == text;
        assert !Starts(whole, '%', '%') && !Starts(whole, '%', 's');
      case Literal =>
        if m.width == 1 {
          assert lead == [q[0]] && whole[1..] == text;
          assert !Starts(whole, '%', '%');
        } else {
          assert whole[1..] == ['\''] + text && whole[1..][1..] == text;
          assert Collapse(whole[1..]) == ['\''] + Collapse(text);
          assert Collapse(whole) == ['\''] + Collapse(whole[1..]);
        }
      case _ =>
    }
  }

  lemma TranslateExtended(lead: string, out: string, rs: seq<Region>)
    requires rs != []
    requires TranslateRegion(Region(rs[0].kind, lead + rs[0].text)).text ==
        out + TranslateRegion(rs[0]).text
    ensures TranslateRegions(Extend(lead, rs)) == Extend(out, TranslateRegions(rs))
  {
    assert Extend(lead, rs)[1..] == rs[1..];
    assert TranslateRegions(rs)[1..] == TranslateRegions(rs[1..]);
  }

  lemma RegionsOfOne(q: string, st: State)
    requires q != "" && Advance(q, st).next == st
    ensures var w := Advance(q, st).width; Regions(q, st) == Extend(q[..w], Regions(q[w..], st))
  {
  }

  /** Two moves inside one region. */
  lemma RegionsOfTwo(q: string, st: State)
    requires |q| >= 2 && Advance(q, st) == Move(1, st) && Advance(q[1..], st) == Move(1, st)
    ensures Regions(q, st) == Extend(q[..2], Regions(q[2..], st))
  {
    assert q[1..][1..] == q[2..];
    var rest := Regions(q[2..], st);
    assert q[..1] + (q[1..][..1] + rest[0].text) == q[..2] + rest[0].text;
    assert Regions(q[1..], st) == Extend(q[1..][..1], rest);
    assert Extend(q[1..][..1], rest)[1..] == rest[1..];
  }

  /** The translator works region by region: the regions of the output are the translated regions of
      the input. Hence they have the same kinds in the same order, and identifiers and comments
      are unchanged. Unterminated regions are included. */
  lemma {:induction false} StructureIsPreserved(q: string, st: State)
    requires Reachable(st)
    ensures Regions(Out(q, st, false), st) == TranslateRegions(Regions(q, st))
    decreases |q|
  {
    if q == "" {
      assert Out(q, st, false) == "";
    } else {
      hide *;
      var r := Next(q, st, false);
      StructureIsPreserved(q[r.width..], r.next);
      if r.token.Percent? || r.token.Positional? {
        DoubleStep(q, st);
      } else {
        CopyStep(q, st);
      }
    }
  }

  /** A move that stays in its region, on both sides of the translation. */
  lemma {:induction false} StayStep(q: string, o: string, st: State, width: nat, rest: seq<Region>)
    requires rest != [] && rest[0].kind == st
    requires q != "" && width <= |q| && Regions(q, st) == Extend(q[..width], rest)
    requires o != "" && Advance(o, st).next == st
    requires var w := Advance(o, st).width;
      && Regions(o[w..], st) == TranslateRegions(rest)
      && TranslateRegion(Region(st, q[..width] + rest[0].text)).text ==
          o[..w] + TranslateRegion(rest[0]).text
    ensures Regions(o, st) == TranslateRegions(Regions(q, st))
  {
    TranslateExtended(q[..width], o[..Advance(o, st).width], rest);
  }

  lemma DoubleStep(q: string, st: State)
    requires q != "" && Reachable(st)
    requires var t := Next(q, st, false).token; t.Percent? || t.Positional?
    requires var r := Next(q, st, false);
      Regions(Out(q[r.width..], r.next, false), r.next) == TranslateRegions(Regions(q[r.width..], r.next))
    ensures Regions(Out(q, st, false), st) == TranslateRegions(Regions(q, st))
  {
    hide Regions, TranslateRegions, Lex, Render;
    var t := Next(q, st, false).token;
    var rest := Regions(q[2..], st);
    RegionsOfTwo(q, st);
    var text := q[..2] + rest[0].text;
    assert text[2..] == rest[0].text;
    OutStep(q, st, false);
    var o := Out(q, st, false);
    assert o[..1] == t.Rendered() && o[1..] == Out(q[2..], st, false);
    assert Advance(o, st) == Move(1, st);
    StayStep(q, o, st, 2, rest);
  }

  lemma CopyStep(q: string, st: State)
    requires q != "" && Reachable(st)
    requires !Next(q, st, false).token.Percent? && !Next(q, st, false).token.Positional?
    requires var r := Next(q, st, false);
      Regions(Out(q[r.width..], r.next, false), r.next) == TranslateRegions(Regions(q[r.width..], r.next))
    ensures Regions(Out(q, st, false), st) == TranslateRegions(Regions(q, st))
  {
    hide Regions, TranslateRegions, Lex, Render;
    AdvanceOnOutput(q, st);
    var m, o := Advance(q, st), Out(q, st, false);
    var rest := Regions(q[m.width..], m.next);
    if m.next == st {
      hide Advance, Next;
      HeadText(q[m.width..], m.next);
      TranslateLead(q, st, rest[0].text);
      RegionsOfOne(q, st);
      StayStep(q, o, st, m.width, rest);
    } else if st == Sql {
      OpenStep(q, o, rest);
    } else {
      CloseStep(q, o, st, rest);
    }
  }

  lemma OpenStep(q: string, o: string, rest: seq<Region>)
    requires q != "" && o != "" && Advance(o, Sql) == Advance(q, Sql) && Advance(q, Sql).next != Sql
    requires var m := Advance(q, Sql);
      && rest == Regions(q[m.width..], m.next)
      && o[..m.width] == q[..m.width]
      && Regions(o[m.width..], m.next) == TranslateRegions(rest)
    ensures Regions(o, Sql) == TranslateRegions(Regions(q, Sql))
  {
    var m := Advance(q, Sql);
    HeadText(q[m.width..], m.next);
    TranslateLead(q, Sql, rest[0].text);
    TranslateExtended(q[..m.width], q[..m.width], rest);
    var inside := Extend(q[..m.width], rest);
    assert ([Region(Sql, "")] + inside)[1..] == inside;
  }

  lemma CloseStep(q: string, o: string, st: State, rest: seq<Region>)
    requires q != "" && o != "" && Advance(o, st) == Advance(q, st) && Advance(q, st).next != st && st != Sql
    requires var m := Advance(q, st);
      && rest == Regions(q[m.width..], m.next)
      && o[..m.width] == q[..m.width]
      && Regions(o[m.width..], m.next) == TranslateRegions(rest)
    ensures Regions(o, st) == TranslateRegions(Regions(q, st))
  {
    var lead := q[..Advance(q, st).width];
    assert TranslateRegion(Region(st, lead)) == Region(st, lead) by {
      if st == Literal {
        assert lead == ['\''] && lead[1..] == "";
        assert Collapse(lead) == [lead[0]] + Collapse(lead[1..]);
      }
    }
    assert ([Region(st, lead)] + rest)[1..] == rest;
  }

  // ----- Parameter counts (positional mode) -----

  lemma CountedDouble(q: string, st: State, o: string, rest: string)
    requires |q| >= 2 && Advance(q, st) == Move(1, st) == Advance(q[1..], st)
    requires Starts(q, '%', '%') || (st == Sql && Starts(q, '%', 's'))
    requires o == (if q[1] == '%' then "%" else "?") + rest && Advance(o, st) == Move(1, st)
    ensures PlainCount(Regions(q, st), '?') == PlainCount(Regions(q[2..], st), '?')
    ensures PlainCount(Regions(o, st), '?') ==
        (if q[1] == 's' then 1 else 0) + PlainCount(Regions(rest, st), '?')
  {
    PlainCountStep(q, st, '?');
    PlainCountStep(q[1..], st, '?');
    assert q[1..][1..] == q[2..];
    PlainCountStep(o, st, '?');
    assert o[1..] == rest;
  }

  lemma {:induction false} CountedCopy(q: string, st: State, o: string)
    requires q != "" && o != "" && Advance(o, st) == Advance(q, st)
    requires var m := Advance(q, st); o[..m.width] == q[..m.width]
    ensures var m := Advance(q, st);
      PlainCount(Regions(o, st), '?') - PlainCount(Regions(o[m.width..], m.next), '?') ==
      PlainCount(Regions(q, st), '?') - PlainCount(Regions(q[m.width..], m.next), '?')
  {
    PlainCountStep(q, st, '?');
    PlainCountStep(o, st, '?');
  }

  /** The question marks that the output has more than the query. */
  function Surplus(q: string, st: State): int {
    PlainCount(Regions(Out(q, st, false), st), '?') - PlainCount(Regions(q, st), '?')
  }

  lemma SurplusOfPlaceholder(q: string, st: State)
    requires q != "" && Reachable(st)
    requires var t := Next(q, st, false).token; t.Percent? || t.Positional?
    ensures var r := Next(q, st, false);
      Surplus(q, st) == (if r.token.Positional? then 1 else 0) + Surplus(q[r.width..], r.next)
  {
    OutStep(q, st, false);
    CountedDouble(q, st, Out(q, st, false), Out(q[2..], st, false));
  }

  lemma SurplusOfCopy(q: string, st: State)
    requires q != "" && Reachable(st)
    requires !Next(q, st, false).token.Percent? && !Next(q, st, false).token.Positional?
    ensures var r := Next(q, st, false); Surplus(q, st) == Surplus(q[r.width..], r.next)
  {
    AdvanceOnOutput(q, st);
    CountedCopy(q, st, Out(q, st, false));
  }

  lemma {:induction false} SurplusIsCounted(q: string, st: State)
    requires Reachable(st)
    ensures Surplus(q, st) == Positionals(Lex(q, st, false))
    decreases |q|
  {
    if q == "" {
      assert Out(q, st, false) == "";
    } else {
      hide *;
      var r := Next(q, st, false);
      if r.token.Percent? || r.token.Positional? {
        SurplusOfPlaceholder(q, st);
      } else {
        SurplusOfCopy(q, st);
      }
      BindingStep(q, st, false);
      SurplusIsCounted(q[r.width..], r.next);
    }
  }

  /** The `?` in the plain text of the output are the native ones of the input and one for each
      parameter that the translator counted. */
  lemma QuestionMarksAreParameters(q: string, st: State)
    requires Reachable(st)
    ensures PlainCount(Regions(Out(q, st, false), st), '?') ==
        Positionals(Lex(q, st, false)) + PlainCount(Regions(q, st), '?')
  {
    SurplusIsCounted(q, st);
  }

  // ----- Round trip -----

  function Doubled(text: string): string {
    if text == "" then "" else (if text[0] == '%' then "%%" else [text[0]]) + Doubled(text[1..])
  }

  function Emitted(kind: State, text: string): string {
    if kind == Sql || kind == Literal then Doubled(text) else text
  }

  function DoubledRegions(rs: seq<Region>): string {
    if rs == [] then "" else Emitted(rs[0].kind, rs[0].text) + DoubledRegions(rs[1..])
  }

  /** `q` with every `%` of its plain text and its string literals doubled. */
  function Escaped(q: string, st: State): string {
    DoubledRegions(Regions(q, st))
  }

  lemma {:induction false} DoubledAppend(a: string, b: string)
    ensures Doubled(a + b) == Doubled(a) + Doubled(b)
  {
    if a == "" {
      assert a + b == b;
    } else {
      assert (a + b)[1..] == a[1..] + b;
      DoubledAppend(a[1..], b);
    }
  }

  lemma DoubledShort(a: string)
    requires 1 <= |a| <= 2 && '%' !in a
    ensures Doubled(a) == a
  {
    assert |a| == 2 ==> Doubled(a[1..]) == a[1..];
  }

  lemma {:induction false} DoubledExtended(lead: string, rs: seq<Region>)
    requires rs != []
    ensures DoubledRegions(Extend(lead, rs)) == Emitted(rs[0].kind, lead) + DoubledRegions(rs)
  {
    hide Doubled;
    DoubledAppend(lead, rs[0].text);
    assert Extend(lead, rs)[1..] == rs[1..];
    assert (Emitted(rs[0].kind, lead) + Emitted(rs[0].kind, rs[0].text)) + DoubledRegions(rs[1..])
        == Emitted(rs[0].kind, lead) + DoubledRegions(rs);
  }

  /** The text of one lexer move once escaped. A `%` is always a move of its own. */
  lemma EmittedLead(q: string, st: State)
    requires q != ""
    ensures var m := Advance(q, st);
      Emitted(if st == Sql then m.next else st, q[..m.width]) ==
        (if (st == Sql || st == Literal) && q[0] == '%' then "%%" else q[..m.width])
  {
    var lead := q[..Advance(q, st).width];
    if st == Sql || st == Literal {
      if q[0] == '%' {
        assert lead == ['%'] && Doubled(lead) == "%%";
      } else {
        DoubledShort(lead);
      }
    }
  }

  lemma EscapedStep(q: string, st: State)
    requires q != ""
    ensures var m := Advance(q, st);
      Escaped(q, st) ==
        (if (st == Sql || st == Literal) && q[0] == '%' then "%%" else q[..m.width])
        + Escaped(q[m.width..], m.next)
  {
    var m := Advance(q, st);
    var lead, rest := q[..m.width], Regions(q[m.width..], m.next);
    EmittedLead(q, st);
    DoubledExtended(lead, rest);
    if m.next != st {
      if st == Sql {
        var inside := Extend(lead, rest);
        assert ([Region(Sql, "")] + inside)[1..] == inside;
      } else {
        assert ([Region(st, lead)] + rest)[1..] == rest;
      }
    }
  }

  lemma EscapedHead(q: string, st: State)
    ensures Escaped(q, st) == "" <==> q == ""
    ensures q != "" ==> Escaped(q, st)[0] == q[0]
  {
    if q == "" {
      var rs := Regions(q, st);
      assert rs == [Region(st, "")] && DoubledRegions(rs[1..]) == "" && Emitted(st, "") == "";
    } else {
      EscapedStep(q, st);
    }
  }

  /** The first token of an escaped query stands for the first move of the original. */
  lemma EscapedToken(q: string, st: State, named: bool, e: string, rest: string)
    requires q != "" && Reachable(st)
    requires var m := Advance(q, st);
      && e == (if (st == Sql || st == Literal) && q[0] == '%' then "%%" else q[..m.width]) + rest
      && (rest == "" <==> q[m.width..] == "")
      && (rest != "" ==> rest[0] == q[m.width..][0])
    ensures var m := Advance(q, st);
      && Next(e, st, named).next == m.next
      && Next(e, st, named).token.Rendered() == q[..m.width]
      && !Next(e, st, named).token.Positional? && !Next(e, st, named).token.Named?
      && e[Next(e, st, named).width..] == rest
  {
    var m := Advance(q, st);
    if (st == Sql || st == Literal) && q[0] == '%' {
      assert Next(e, st, named) == Read(Percent, 2, st) && e[2..] == rest;
    } else {
      assert e[..m.width] == q[..m.width] && e[m.width..] == rest;
      assert Advance(e, st) == m;
    }
  }

  lemma EscapedFirst(q: string, st: State, named: bool)
    requires q != "" && Reachable(st)
    ensures var m, e := Advance(q, st), Escaped(q, st);
      && e != "" && Reachable(m.next)
      && Next(e, st, named).next == m.next
      && Next(e, st, named).token.Rendered() == q[..m.width]
      && !Next(e, st, named).token.Positional? && !Next(e, st, named).token.Named?
      && e[Next(e, st, named).width..] == Escaped(q[m.width..], m.next)
  {
    var m := Advance(q, st);
    EscapedStep(q, st);
    EscapedHead(q[m.width..], m.next);
    EscapedToken(q, st, named, Escaped(q, st), Escaped(q[m.width..], m.next));
  }

  ghost predicate TranslatesTo(e: string, st: State, named: bool, q: string) {
    && Out(e, st, named) == q
    && Positionals(Lex(e, st, named)) == 0
    && Names(Lex(e, st, named)) == {}
  }

  lemma TranslateStep(e: string, st: State, named: bool, q: string, width: nat)
    requires e != "" && width <= |q|
    requires var r := Next(e, st, named);
      && r.token.Rendered() == q[..width] && !r.token.Positional? && !r.token.Named?
      && TranslatesTo(e[r.width..], r.next, named, q[width..])
    ensures TranslatesTo(e, st, named, q)
  {
    hide Lex, Next, Render, Positionals, Names;
    OutStep(e, st, named);
    BindingStep(e, st, named);
    assert q[..width] + q[width..] == q;
  }

  /** Escaping and then translating gives back the SQL exactly, with no parameter at all, for
      positional and for named parameters, unterminated regions included. */
  lemma {:induction false} EscapeRoundTrip(q: string, st: State, named: bool)
    requires Reachable(st)
    ensures TranslatesTo(Escaped(q, st), st, named, q)
    decreases |q|
  {
    if q == "" {
      EscapedHead(q, st);
    } else {
      var m := Advance(q, st);
      EscapedFirst(q, st, named);
      EscapeRoundTrip(q[m.width..], m.next, named);
      TranslateStep(Escaped(q, st), st, named, q, m.width);
    }
  }

  /** The same law for the translation as a whole: no binding, no required name, no error. */
  lemma EscapedQueryHasNoBindings(q: string, names: ParamNames)
    ensures var t := Translation(Escaped(q, Sql), names);
      t.Ok? && t.value.query == q && t.value.positionalCount == 0 && t.value.requiredNames == {}
  {
    EscapeRoundTrip(q, Sql, names.Some?);
    MissingNameIsRejected(Lex(Escaped(q, Sql), Sql, names.Some?), Known(names));
  }

  // ----- Concatenation (positional mode) -----

  /** The translator state after all of `q`. */
  function After(q: string, st: State): State
    decreases |q|
  {
    if q == "" then st
    else
      var r := Next(q, st, false);
      After(q[r.width..], r.next)
  }

  /** Two characters that some state reads as one token. */
  predicate Joins(x: char, y: char) {
    || (x == '-' && y == '-')
    || (x == '/' && y == '*')
    || (x == '*' && y == '/')
    || (x == y && (x == '\'' || x == '\"' || x == '`'))
    || (x == '%' && (y == '%' || y == 's'))
  }

  predicate CleanSeam(a: string, b: string) {
    a != "" && b != "" ==> !Joins(a[|a| - 1], b[0])
  }

  lemma NextOfAppend(a: string, b: string, st: State)
    requires a != "" && Reachable(st) && CleanSeam(a, b)
    ensures Next(a + b, st, false) == Next(a, st, false)
  {
    var m := Advance(a, st);
    assert (a + b)[0] == a[0];
    if |a| >= 2 {
      assert (a + b)[1] == a[1];
    } else if b != "" {
      assert (a + b)[1] == b[0] && !Joins(a[0], b[0]);
    }
    assert Advance(a + b, st) == m;
    assert (a + b)[..m.width] == a[..m.width];
  }

  /** What two fragments mean together when no token straddles the seam. */
  ghost predicate Concatenates(a: string, b: string, st: State) {
    && Lex(a + b, st, false) == Lex(a, st, false) + Lex(b, After(a, st), false)
    && After(a + b, st) == After(b, After(a, st))
    && Reachable(After(a, st))
  }

  lemma {:induction false} LexAppend(a: string, b: string, st: State)
    requires Reachable(st) && CleanSeam(a, b)
    ensures Concatenates(a, b, st)
    decreases |a|
  {
    if a == "" {
      assert a + b == b;
    } else {
      var r := Next(a, st, false);
      var tail := a[r.width..];
      LexAppend(tail, b, r.next);
      NextOfAppend(a, b, st);
      AppendStep(a, b, st);
    }
  }

  lemma AppendStep(a: string, b: string, st: State)
    requires a != "" && Next(a + b, st, false) == Next(a, st, false)
    requires var r := Next(a, st, false); Concatenates(a[r.width..], b, r.next)
    ensures Concatenates(a, b, st)
  {
    var r := Next(a, st, false);
    var tail := a[r.width..];
    hide Next, Lex, After, Reachable;
    DropAppend(a, b, r.width);
    LexCons(a, st);
    LexCons(a + b, st);
    Prepended(Lexeme(st, r.token), Lex(tail, r.next, false), Lex(b, After(a, st), false));
  }

  lemma DropAppend(a: string, b: string, n: nat)
    requires n <= |a|
    ensures (a + b)[n..] == a[n..] + b
  {
  }

  lemma LexCons(q: string, st: State)
    requires q != ""
    ensures var r := Next(q, st, false);
      && Lex(q, st, false) == [Lexeme(st, r.token)] + Lex(q[r.width..], r.next, false)
      && After(q, st) == After(q[r.width..], r.next)
  {
    hide Next;
  }

  lemma Prepended(x: Lexeme, a: seq<Lexeme>, b: seq<Lexeme>)
    ensures [x] + (a + b) == [x] + a + b
  {
  }

  lemma {:induction false} RenderAppend(a: seq<Lexeme>, b: seq<Lexeme>)
    ensures Render(a + b) == Render(a) + Render(b)
    ensures Positionals(a + b) == Positionals(a) + Positionals(b)
  {
    if a == [] {
      assert a + b == b;
    } else {
      assert (a + b)[1..] == a[1..] + b;
      RenderAppend(a[1..], b);
    }
  }

  lemma {:induction false} OutAppend(a: string, b: string, st: State)
    requires Reachable(st) && CleanSeam(a, b)
    ensures Out(a + b, st, false) == Out(a, st, false) + Out(b, After(a, st), false)
    ensures Positionals(Lex(a + b, st, false)) ==
        Positionals(Lex(a, st, false)) + Positionals(Lex(b, After(a, st), false))
    ensures After(a + b, st) == After(b, After(a, st)) && Reachable(After(a, st))
  {
    LexAppend(a, b, st);
    RenderAppend(Lex(a, st, false), Lex(b, After(a, st), false));
  }

  /** The translator returns `text` unchanged, binds nothing and ends in state `end`. */
  ghost predicate Verbatim(text: string, st: State, end: State) {
    && Out(text, st, false) == text
    && Positionals(Lex(text, st, false)) == 0
    && After(text, st) == end
  }

  lemma VerbatimStep(lead: string, rest: string, st: State, next: State, end: State)
    requires lead != "" && Verbatim(rest, next, end)
    requires var r := Next(lead + rest, st, false);
      r.token.Rendered() == lead && !r.token.Positional? && r.width == |lead| && r.next == next
    ensures Verbatim(lead + rest, st, end)
  {
    hide Next;
    var text := lead + rest;
    assert text[|lead|..] == rest;
    OutStep(text, st, false);
    BindingStep(text, st, false);
  }
}

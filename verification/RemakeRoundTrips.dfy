/** Two table remakes, the second taking the first one back. */
module RemakeRoundTrips {
  import opened Outcomes
  import opened Remake
  import opened RemakeLaws
  import opened RemakeRows

  /** A model whose fields are the entries of a plan, in any order. */
  ghost predicate Lists(fields: seq<Field>, p: Plan) {
    && DistinctFields(fields)
    && (forall f :: f in fields ==> f.name in p.body && p.body[f.name] == f)
    && (forall n :: n in p.body ==> p.body[n] in fields)
  }

  function Stored(fields: seq<Field>): set<string> {
    set i | 0 <= i < |fields| && !fields[i].generated :: fields[i].column
  }

  /** A row as a map over some columns. */
  function Narrowed(row: Row, columns: set<string>): Row {
    map c | c in columns && c in row :: row[c]
  }

  function View(rows: seq<Row>, columns: set<string>): seq<Row> {
    seq(|rows|, i requires 0 <= i < |rows| => Narrowed(rows[i], columns))
  }

  /** A remake with a request and the rows before and after it. */
  ghost predicate Remakes(fields: seq<Field>, r: Request, rows: seq<Row>, out: seq<Row>) {
    GoodRequest(fields, r) && Remade(Planned(fields, r), rows, out)
  }

  /** The entry of the new table that a copied column belongs to. */
  lemma CopiedFrom(fields: seq<Field>, r: Request, c: string) returns (e: Field)
    requires GoodRequest(fields, r) && NoTakeover(r.alters) && c in Planned(fields, r).mapping
    ensures Stores(e, c) && Comes(fields, r, |r.alters|, e)
    ensures r.delete.Some? ==> Differ(e, r.delete.value)
  {
    CopyFillsStoredColumns(fields, r);
    var p := Planned(fields, r);
    hide Planned, Comes, GoodRequest, NoTakeover;
    var n :| n in p.body && n !in Served(r.create) && Stores(p.body[n], c);
    e := p.body[n];
  }

  // ----- The new table is a table again -----

  ghost predicate IsModel(body: Body) {
    && (forall n :: n in body ==> body[n].name == n)
    && (forall n, m :: n in body && m in body && n != m ==> body[n].column != body[m].column)
  }

  lemma {:induction false} FieldsOfBody(p: Plan) returns (fields: seq<Field>)
    requires IsModel(p.body)
    ensures Lists(fields, p)
    decreases |p.body|
  {
    if p.body == map[] {
      fields := [];
    } else {
      var n :| n in p.body;
      var rest := Plan(p.body - {n}, p.mapping);
      assert |rest.body| < |p.body| by {
        assert rest.body.Keys == p.body.Keys - {n};
      }
      fields := FieldsOfBody(rest);
      ListsOneMore(fields, rest, p, n);
      fields := fields + [p.body[n]];
    }
  }

  lemma ListsOneMore(fields: seq<Field>, rest: Plan, p: Plan, n: string)
    requires IsModel(p.body) && n in p.body && rest.body == p.body - {n} && Lists(fields, rest)
    ensures Lists(fields + [p.body[n]], p)
  {
    var all := fields + [p.body[n]];
    assert forall f :: f in fields ==> Differ(f, p.body[n]);
    assert DistinctFields(all) by {
      assert forall i :: 0 <= i < |fields| ==> all[i] == fields[i] && fields[i] in fields;
    }
    hide DistinctFields, Differ;
    forall m | m in p.body
      ensures p.body[m] in all
    {
      if m == n {
        assert all[|fields|] == p.body[n];
      } else {
        assert rest.body[m] in fields;
      }
    }
  }

  /** Without takeovers the dictionaries describe a model, so that the new table can be remade again. */
  lemma RemadeTableHasModel(fields: seq<Field>, r: Request) returns (between: seq<Field>)
    requires GoodRequest(fields, r) && NoTakeover(r.alters)
    ensures Lists(between, Planned(fields, r))
  {
    CopyFillsStoredColumns(fields, r);
    hide Planned, Lists, GoodRequest, NoTakeover;
    between := FieldsOfBody(Planned(fields, r));
  }

  // ----- Adding a field and deleting it -----

  function Adding(f: Field): Request {
    Request(Some(f), None, [])
  }

  function Deleting(f: Field): Request {
    Request(None, Some(f), [])
  }

  lemma AddedThenDeletedColumn(fields: seq<Field>, f: Field, between: seq<Field>, g: Field)
    requires GoodRequest(fields, Adding(f)) && !f.primaryKey && Lists(between, Planned(fields, Adding(f)))
    requires g in fields && !g.generated
    ensures f in between && GoodRequest(between, Deleting(f))
    ensures var p, q := Planned(fields, Adding(f)).mapping, Planned(between, Deleting(f)).mapping;
      && g.column in p && p[g.column] == Column(g.column)
      && g.column in q && q[g.column] == Column(g.column)
  {
    CreatedIsFilled(fields, Adding(f));
    SurvivorIsCopied(fields, Adding(f), g);
    var e := Planned(fields, Adding(f)).body[g.name];
    hide Planned;
    SurvivorIsCopied(between, Deleting(f), e);
  }

  lemma AddedThenDeletedKeys(fields: seq<Field>, f: Field, between: seq<Field>, c: string)
    requires GoodRequest(fields, Adding(f)) && !f.primaryKey && Lists(between, Planned(fields, Adding(f)))
    requires GoodRequest(between, Deleting(f)) && c in Planned(between, Deleting(f)).mapping
    ensures c in Stored(fields)
  {
    hide Planned, Comes, GoodRequest, Stored, Lists;
    var e := CopiedFrom(between, Deleting(f), c);
    var k := DeletedOrigin(between, f, e);
    ListedComes(fields, Adding(f), between, k);
    AddedOrigin(fields, f, k, c);
  }

  lemma DeletedOrigin(between: seq<Field>, f: Field, e: Field) returns (k: Field)
    requires Comes(between, Deleting(f), 0, e) && Differ(e, f)
    ensures k in between && StandsFor(e, k) && Differ(k, f)
  {
    k :| k in between && StandsFor(e, k);
  }

  lemma AddedOrigin(fields: seq<Field>, f: Field, k: Field, c: string)
    requires Comes(fields, Adding(f), 0, k) && Differ(k, f) && Stores(k, c)
    ensures c in Stored(fields)
  {
    var g :| g in fields && StandsFor(k, g);
  }

  lemma ListedComes(fields: seq<Field>, r: Request, between: seq<Field>, k: Field)
    requires GoodRequest(fields, r) && NoTakeover(r.alters) && Lists(between, Planned(fields, r)) && k in between
    ensures Comes(fields, r, |r.alters|, k)
  {
    CopyFillsStoredColumns(fields, r);
    hide Planned, Fits, GoodRequest, NoTakeover, Comes;
    assert Planned(fields, r).body[k.name] == k;
  }

  /** Adding a field that is no key and deleting it again gives back the original rows. */
  lemma {:induction false} AddThenDelete(
      fields: seq<Field>, f: Field, between: seq<Field>, rows: seq<Row>, mid: seq<Row>, out: seq<Row>)
    requires Remakes(fields, Adding(f), rows, mid) && !f.primaryKey
    requires Lists(between, Planned(fields, Adding(f)))
    requires Remade(Planned(between, Deleting(f)), mid, out)
    ensures GoodRequest(between, Deleting(f))
    ensures Planned(between, Deleting(f)).mapping.Keys == Stored(fields)
    ensures View(out, Stored(fields)) == View(rows, Stored(fields))
    ensures multiset(View(out, Stored(fields))) == multiset(View(rows, Stored(fields)))
  {
    AddedThenDeletedColumns(fields, f, between);
    var p, q := Planned(fields, Adding(f)), Planned(between, Deleting(f));
    OtherColumnsStay(p, q, Stored(fields), rows, mid, out);
    hide *;
    ViewsAgree(rows, out, Stored(fields));
  }

  /** The second copy fills the original columns, all of them copied from themselves both times. */
  lemma AddedThenDeletedColumns(fields: seq<Field>, f: Field, between: seq<Field>)
    requires GoodRequest(fields, Adding(f)) && !f.primaryKey && Lists(between, Planned(fields, Adding(f)))
    ensures GoodRequest(between, Deleting(f))
    ensures var p, q := Planned(fields, Adding(f)).mapping, Planned(between, Deleting(f)).mapping;
      && q.Keys == Stored(fields)
      && forall c :: c in Stored(fields) ==> c in p && p[c] == Column(c) && c in q && q[c] == Column(c)
  {
    CreatedIsFilled(fields, Adding(f));
    var p, q := Planned(fields, Adding(f)).mapping, Planned(between, Deleting(f)).mapping;
    forall c | c in Stored(fields)
      ensures c in p && p[c] == Column(c) && c in q && q[c] == Column(c)
    {
      var i :| 0 <= i < |fields| && !fields[i].generated && fields[i].column == c;
      AddedThenDeletedColumn(fields, f, between, fields[i]);
      hide Planned, GoodRequest, Lists, Stored;
    }
    forall c | c in q
      ensures c in Stored(fields)
    {
      AddedThenDeletedKeys(fields, f, between, c);
    }
    hide Planned, Lists, Stored;
  }

  lemma ViewsAgree(rows: seq<Row>, out: seq<Row>, columns: set<string>)
    requires |out| == |rows|
    requires forall c :: c in columns ==> Carries(rows, c) && Carries(out, c) && Values(out, c) == Values(rows, c)
    ensures View(out, columns) == View(rows, columns)
  {
    forall i | 0 <= i < |rows|
      ensures Narrowed(out[i], columns) == Narrowed(rows[i], columns)
    {
      forall c | c in columns
        ensures c in rows[i] && c in out[i] && out[i][c] == rows[i][c]
      {
        assert Values(out, c)[i] == Values(rows, c)[i];
      }
    }
  }

  // ----- Altering a field and altering it back -----

  function Altering(a: Field, b: Field): Request {
    Request(None, None, [Alteration(a, b)])
  }

  /** If either form of the field is the key, no other field is one. */
  ghost predicate OnlyKey(fields: seq<Field>, a: Field, b: Field) {
    a.primaryKey || b.primaryKey ==> forall g :: g in fields && g != a ==> !g.primaryKey
  }

  lemma GoodIsDistinct(fields: seq<Field>, r: Request)
    requires GoodRequest(fields, r)
    ensures DistinctFields(fields)
  {
  }

  lemma GoodAlterationIsGood(fields: seq<Field>, r: Request)
    requires DistinctFields(fields) && r.create.None? && r.delete.None? && |r.alters| == 1
    requires r.alters[0].before in fields
    requires forall e :: e in fields && e != r.alters[0].before ==> Differ(r.alters[0].after, e)
    ensures GoodRequest(fields, r)
  {
    hide Differ;
  }

  lemma BackIsGood(fields: seq<Field>, a: Field, b: Field, between: seq<Field>)
    requires GoodRequest(fields, Altering(a, b)) && Lists(between, Planned(fields, Altering(a, b)))
    ensures b in between && GoodRequest(between, Altering(b, a))
  {
    var r, s := Altering(a, b), Altering(b, a);
    assert r.alters[0] == Alteration(a, b) && s.alters[0] == Alteration(b, a);
    AlteredSurvives(fields, r, 0);
    AlteredIsOld(fields, a, b);
    assert b in between by {
      hide Planned, GoodRequest;
    }
    forall e | e in between && e != b
      ensures Differ(a, e)
    {
      hide Planned, GoodRequest, Lists, Comes;
      ListedComes(fields, r, between, e);
      var g := ThereOrigin(fields, a, b, e);
      GoodIsDistinct(fields, r);
      SameOrDiffer(fields, a, g);
    }
    hide Planned, GoodRequest;
    GoodAlterationIsGood(between, s);
  }

  /** A field beside the altered one is copied from itself both times. */
  lemma {:induction false} BesideIsCopied(fields: seq<Field>, a: Field, b: Field, between: seq<Field>, g: Field)
    requires GoodRequest(fields, Altering(a, b)) && Lists(between, Planned(fields, Altering(a, b)))
    requires OnlyKey(fields, a, b) && g in fields && g != a && !g.generated
    ensures var p, q := Planned(fields, Altering(a, b)).mapping, Planned(between, Altering(b, a)).mapping;
      && g.column in p && p[g.column] == Column(g.column)
      && g.column in q && q[g.column] == Column(g.column)
  {
    var r, s := Altering(a, b), Altering(b, a);
    BackIsGood(fields, a, b, between);
    SurvivorIsCopied(fields, r, g);
    AlteredSurvives(fields, r, 0);
    assert Differ(r.alters[0].after, g);
    var e := Planned(fields, r).body[g.name];
    hide Planned, GoodRequest;
    assert e in between && e != b;
    SurvivorIsCopied(between, s, e);
  }

  /** The altered field goes to its new column and comes back. */
  lemma AlteredIsCopiedBack(fields: seq<Field>, a: Field, b: Field, between: seq<Field>)
    requires GoodRequest(fields, Altering(a, b)) && Lists(between, Planned(fields, Altering(a, b)))
    requires !a.generated && !b.generated
    ensures var p, q := Planned(fields, Altering(a, b)).mapping, Planned(between, Altering(b, a)).mapping;
      && b.column in p && p[b.column] == Source(Alteration(a, b))
      && a.column in q && q[a.column] == Source(Alteration(b, a))
  {
    BackIsGood(fields, a, b, between);
    AlteredSurvives(fields, Altering(a, b), 0);
    AlteredSurvives(between, Altering(b, a), 0);
    hide Planned, GoodRequest, Source;
  }

  lemma AlteredBackKeys(fields: seq<Field>, a: Field, b: Field, between: seq<Field>, c: string)
    requires GoodRequest(fields, Altering(a, b)) && Lists(between, Planned(fields, Altering(a, b)))
    requires GoodRequest(between, Altering(b, a)) && !a.generated
    requires c in Planned(between, Altering(b, a)).mapping
    ensures c in Stored(fields)
  {
    var r, s := Altering(a, b), Altering(b, a);
    assert r.alters[0] == Alteration(a, b) && s.alters[0] == Alteration(b, a);
    hide Planned, Comes, GoodRequest, Stored, Lists;
    var e := CopiedFrom(between, s, c);
    assert a in fields by {
      AlteredIsOld(fields, a, b);
    }
    if e == a {
      StoredHas(fields, a);
    } else {
      var k := BackOrigin(between, a, b, e);
      ListedComes(fields, r, between, k);
      var g := ThereOrigin(fields, a, b, k);
      StoredHas(fields, g);
    }
  }

  lemma StoredHas(fields: seq<Field>, g: Field)
    requires g in fields && !g.generated
    ensures g.column in Stored(fields)
  {
  }

  lemma AlteredIsOld(fields: seq<Field>, a: Field, b: Field)
    requires GoodRequest(fields, Altering(a, b))
    ensures a in fields
  {
    assert Altering(a, b).alters[0].before == a;
  }

  lemma BackOrigin(between: seq<Field>, a: Field, b: Field, e: Field) returns (k: Field)
    requires Comes(between, Altering(b, a), 1, e) && e != a
    ensures k in between && k != b && StandsFor(e, k)
  {
    assert Altering(b, a).alters[0].before == b;
    k :| k in between && !IsAltered(Altering(b, a), k) && StandsFor(e, k);
  }

  lemma ThereOrigin(fields: seq<Field>, a: Field, b: Field, k: Field) returns (g: Field)
    requires Comes(fields, Altering(a, b), 1, k) && k != b
    ensures g in fields && g != a && StandsFor(k, g)
  {
    assert Altering(a, b).alters[0].before == a;
    g :| g in fields && !IsAltered(Altering(a, b), g) && StandsFor(k, g);
  }

  /** What becomes of a value of the altered column on the way there and back. */
  function ThereAndBack(a: Field, b: Field, v: Value): Value {
    Converted(Alteration(b, a), Converted(Alteration(a, b), v))
  }

  /** Altering a field in any way and altering it back leaves every other column, and converts the values of
      that column twice. */
  lemma AlterAndBack(
      fields: seq<Field>, a: Field, b: Field, between: seq<Field>, rows: seq<Row>, mid: seq<Row>, out: seq<Row>)
    requires Remakes(fields, Altering(a, b), rows, mid) && OnlyKey(fields, a, b)
    requires !a.generated && !b.generated
    requires Lists(between, Planned(fields, Altering(a, b)))
    requires Remade(Planned(between, Altering(b, a)), mid, out)
    ensures Planned(between, Altering(b, a)).mapping.Keys == Stored(fields)
    ensures forall i :: 0 <= i < |rows| ==>
      && a.column in rows[i]
      && View(out, Stored(fields))[i] ==
         View(rows, Stored(fields))[i][a.column := ThereAndBack(a, b, rows[i][a.column])]
  {
    BackIsGood(fields, a, b, between);
    AlteredBackColumns(fields, a, b, between);
    AlteredColumnConverts(fields, a, b, between, rows, mid, out);
    var p, q := Planned(fields, Altering(a, b)), Planned(between, Altering(b, a));
    OtherColumnsStay(p, q, Stored(fields) - {a.column}, rows, mid, out);
    assert a.column in Stored(fields) by {
      AlteredIsOld(fields, a, b);
      StoredHas(fields, a);
    }
    hide *;
    ViewsAgreeBut(rows, out, Stored(fields), a, b);
  }

  /** The altered column goes through both conversions. */
  lemma AlteredColumnConverts(
      fields: seq<Field>, a: Field, b: Field, between: seq<Field>, rows: seq<Row>, mid: seq<Row>, out: seq<Row>)
    requires Remakes(fields, Altering(a, b), rows, mid) && !a.generated && !b.generated
    requires Lists(between, Planned(fields, Altering(a, b)))
    requires Remade(Planned(between, Altering(b, a)), mid, out)
    ensures |out| == |rows|
    ensures forall i :: 0 <= i < |rows| ==>
      a.column in rows[i] && a.column in out[i] && out[i][a.column] == ThereAndBack(a, b, rows[i][a.column])
  {
    AlteredIsCopiedBack(fields, a, b, between);
    hide Planned, Lists, GoodRequest;
  }

  /** A column that is copied from itself both times keeps its values. */
  lemma OtherColumnsStay(p: Plan, q: Plan, columns: set<string>, rows: seq<Row>, mid: seq<Row>, out: seq<Row>)
    requires Remade(p, rows, mid) && Remade(q, mid, out)
    requires forall c :: c in columns ==>
      c in p.mapping && p.mapping[c] == Column(c) && c in q.mapping && q.mapping[c] == Column(c)
    ensures |out| == |rows|
    ensures forall c :: c in columns ==> Carries(rows, c) && Carries(out, c) && Values(out, c) == Values(rows, c)
  {
  }

  /** The second copy fills the original columns, all but one of them copied from themselves both times. */
  lemma AlteredBackColumns(fields: seq<Field>, a: Field, b: Field, between: seq<Field>)
    requires GoodRequest(fields, Altering(a, b)) && Lists(between, Planned(fields, Altering(a, b)))
    requires OnlyKey(fields, a, b) && !a.generated && !b.generated && GoodRequest(between, Altering(b, a))
    ensures var p, q := Planned(fields, Altering(a, b)).mapping, Planned(between, Altering(b, a)).mapping;
      && q.Keys == Stored(fields)
      && forall c :: c in Stored(fields) && c != a.column ==>
           c in p && p[c] == Column(c) && c in q && q[c] == Column(c)
  {
    var p, q := Planned(fields, Altering(a, b)).mapping, Planned(between, Altering(b, a)).mapping;
    AlteredIsCopiedBack(fields, a, b, between);
    forall c | c in Stored(fields)
      ensures c in q && (c != a.column ==> c in p && p[c] == Column(c) && q[c] == Column(c))
    {
      var i :| 0 <= i < |fields| && !fields[i].generated && fields[i].column == c;
      hide Planned, GoodRequest, Lists, Stored, OnlyKey;
      if fields[i] != a {
        BesideIsCopied(fields, a, b, between, fields[i]);
      }
    }
    forall c | c in q
      ensures c in Stored(fields)
    {
      AlteredBackKeys(fields, a, b, between, c);
    }
  }

  lemma ViewsAgreeBut(rows: seq<Row>, out: seq<Row>, columns: set<string>, a: Field, b: Field)
    requires |out| == |rows| && a.column in columns
    requires forall c :: c in columns && c != a.column ==>
      Carries(rows, c) && Carries(out, c) && Values(out, c) == Values(rows, c)
    requires forall i :: 0 <= i < |rows| ==>
      a.column in rows[i] && a.column in out[i] && out[i][a.column] == ThereAndBack(a, b, rows[i][a.column])
    ensures forall i :: 0 <= i < |rows| ==>
      View(out, columns)[i] == View(rows, columns)[i][a.column := ThereAndBack(a, b, rows[i][a.column])]
  {
    hide ThereAndBack;
    forall i | 0 <= i < |rows|
      ensures Narrowed(out[i], columns) ==
              Narrowed(rows[i], columns)[a.column := ThereAndBack(a, b, rows[i][a.column])]
    {
      forall c | c in columns && c != a.column
        ensures c in rows[i] && c in out[i] && out[i][c] == rows[i][c]
      {
        assert Values(out, c)[i] == Values(rows, c)[i];
      }
    }
  }

  /** Renaming a field, or its column, and renaming it back gives back the original rows. */
  lemma RenameAndBack(
      fields: seq<Field>, a: Field, b: Field, between: seq<Field>, rows: seq<Row>, mid: seq<Row>, out: seq<Row>)
    requires Remakes(fields, Altering(a, b), rows, mid) && OnlyKey(fields, a, b)
    requires !a.generated && b == a.(name := b.name, column := b.column)
    requires Lists(between, Planned(fields, Altering(a, b)))
    requires Remade(Planned(between, Altering(b, a)), mid, out)
    ensures View(out, Stored(fields)) == View(rows, Stored(fields))
    ensures multiset(View(out, Stored(fields))) == multiset(View(rows, Stored(fields)))
  {
    AlterAndBack(fields, a, b, between, rows, mid, out);
    hide Planned, GoodRequest, Lists, OnlyKey;
    forall i | 0 <= i < |rows|
      ensures View(out, Stored(fields))[i] == View(rows, Stored(fields))[i]
    {
      assert a.column in View(rows, Stored(fields))[i];
    }
  }

  /** Making a column required and nullable again changes a row exactly where NULL became the default. */
  lemma RequiredAndBack(
      fields: seq<Field>, a: Field, b: Field, between: seq<Field>, rows: seq<Row>, mid: seq<Row>, out: seq<Row>)
    requires Remakes(fields, Altering(a, b), rows, mid) && OnlyKey(fields, a, b)
    requires !a.generated && !b.generated && a.nullable && !b.nullable
    requires Lists(between, Planned(fields, Altering(a, b)))
    requires Remade(Planned(between, Altering(b, a)), mid, out)
    ensures forall i :: 0 <= i < |rows| ==>
      && a.column in rows[i]
      && View(out, Stored(fields))[i] ==
         if rows[i][a.column] == Null then
           View(rows, Stored(fields))[i][a.column := if b.dbDefault.Some? then b.dbDefault.value else b.default]
         else View(rows, Stored(fields))[i]
  {
    AlterAndBack(fields, a, b, between, rows, mid, out);
    hide Planned, GoodRequest, Lists, OnlyKey;
  }
}

/** What the two dictionaries of a table remake hold, for every request. */
module RemakeLaws {
  import opened Outcomes
  import opened Remake

  // ----- Well-formed requests -----

  predicate Differ(f: Field, g: Field) {
    f.name != g.name && f.column != g.column
  }

  predicate DistinctFields(fields: seq<Field>) {
    forall i, j :: 0 <= i < j < |fields| ==> Differ(fields[i], fields[j])
  }

  predicate IsAltered(r: Request, f: Field) {
    exists i :: 0 <= i < |r.alters| && r.alters[i].before == f
  }

  predicate DistinctAlters(alters: seq<Alteration>) {
    forall i, j :: 0 <= i < j < |alters| ==>
      Differ(alters[i].before, alters[j].before) && Differ(alters[i].after, alters[j].after)
  }

  predicate GoodAlters(fields: seq<Field>, r: Request) {
    && DistinctAlters(r.alters)
    && (forall i :: 0 <= i < |r.alters| ==> r.alters[i].before in fields)
    && (forall i, f :: 0 <= i < |r.alters| && f in fields && !IsAltered(r, f) ==> Differ(r.alters[i].after, f))
  }

  predicate GoodCreate(fields: seq<Field>, r: Request) {
    r.create.Some? ==>
      && (forall f :: f in fields ==> Differ(f, r.create.value))
      && (forall i :: 0 <= i < |r.alters| ==> Differ(r.alters[i].after, r.create.value))
  }

  /** A request on a table without a composite key: names and columns are unambiguous. */
  predicate GoodRequest(fields: seq<Field>, r: Request) {
    && DistinctFields(fields) && GoodAlters(fields, r) && GoodCreate(fields, r)
    && (r.delete.Some? ==> r.delete.value in fields && !IsAltered(r, r.delete.value))
  }

  /** No altered field takes the old name or column of a field that is altered after it. */
  predicate NoTakeover(alters: seq<Alteration>) {
    forall i, j :: 0 <= i < j < |alters| ==> Differ(alters[i].after, alters[j].before)
  }

  lemma SameOrDiffer(fields: seq<Field>, f: Field, g: Field)
    requires DistinctFields(fields) && f in fields && g in fields
    ensures f == g || Differ(f, g)
  {
    var i :| 0 <= i < |fields| && fields[i] == f;
    var j :| 0 <= j < |fields| && fields[j] == g;
    if i < j {
      assert Differ(fields[i], fields[j]);
    } else if j < i {
      assert Differ(fields[j], fields[i]);
    }
  }

  // ----- The two dictionaries fit together -----

  predicate Stores(f: Field, column: string) {
    f.column == column && !f.generated
  }

  /** Each stored column of a field outside `skip` is copied, and nothing else is. */
  ghost predicate Fits(p: Plan, skip: set<string>) {
    && (forall n :: n in p.body ==> p.body[n].name == n)
    && (forall n, m :: n in p.body && m in p.body && n != m ==> p.body[n].column != p.body[m].column)
    && (forall c :: c in p.mapping ==> exists n :: n in p.body && n !in skip && Stores(p.body[n], c))
    && (forall n :: n in p.body && n !in skip && !p.body[n].generated ==> p.body[n].column in p.mapping)
  }

  function Pop(p: Plan, f: Field): Plan {
    Plan(p.body - {f.name}, p.mapping - {f.column})
  }

  function Put(p: Plan, f: Field, copied: bool, e: Expr): Plan {
    Plan(p.body[f.name := f], if copied && !f.generated then p.mapping[f.column := e] else p.mapping)
  }

  predicate Same(f: Field, g: Field) {
    f.name == g.name && f.column == g.column
  }

  /** No entry shares only one of name and column with `f`. */
  ghost predicate Unambiguous(p: Plan, f: Field) {
    forall n :: n in p.body ==> Same(p.body[n], f) || Differ(p.body[n], f)
  }

  ghost predicate Foreign(p: Plan, f: Field) {
    forall n :: n in p.body ==> Differ(p.body[n], f)
  }

  lemma {:induction false} PopFits(p: Plan, skip: set<string>, f: Field)
    requires Fits(p, skip) && Unambiguous(p, f)
    ensures Fits(Pop(p, f), skip) && Foreign(Pop(p, f), f)
  {
    var q := Pop(p, f);
    PopCopies(p, skip, f);
    assert forall n :: n in q.body ==> n in p.body && q.body[n] == p.body[n];
    hide Pop;
  }

  lemma PopCopies(p: Plan, skip: set<string>, f: Field)
    requires Fits(p, skip) && Unambiguous(p, f)
    ensures var q := Pop(p, f);
      && (forall c :: c in q.mapping ==> exists n :: n in q.body && n !in skip && Stores(q.body[n], c))
      && (forall n :: n in q.body ==> Differ(q.body[n], f))
      && (forall n :: n in q.body && n !in skip && !q.body[n].generated ==> q.body[n].column in q.mapping)
  {
    var q := Pop(p, f);
    forall c | c in q.mapping
      ensures exists n :: n in q.body && n !in skip && Stores(q.body[n], c)
    {
      var n :| n in p.body && n !in skip && Stores(p.body[n], c);
      assert n in q.body && Stores(q.body[n], c);
    }
  }

  lemma PutFits(p: Plan, skip: set<string>, f: Field, copied: bool, e: Expr)
    requires Fits(p, skip) && Foreign(p, f) && f.name !in skip
    ensures Fits(Put(p, f, copied, e), if copied then skip else skip + {f.name})
  {
    var q, left := Put(p, f, copied, e), if copied then skip else skip + {f.name};
    assert f.name !in p.body;
    forall c | c in q.mapping
      ensures exists n :: n in q.body && n !in left && Stores(q.body[n], c)
    {
      if c in p.mapping {
        var n :| n in p.body && n !in skip && Stores(p.body[n], c);
        assert n in q.body && n !in left && Stores(q.body[n], c);
      } else {
        assert f.name in q.body && f.name !in left && Stores(q.body[f.name], c);
      }
    }
  }

  /** A field that only stops being a key keeps its place. */
  lemma UnkeyFits(p: Plan, skip: set<string>, name: string)
    requires Fits(p, skip) && name in p.body
    ensures Fits(Plan(p.body[name := p.body[name].(primaryKey := false)], p.mapping), skip)
  {
    var q := Plan(p.body[name := p.body[name].(primaryKey := false)], p.mapping);
    forall c | c in q.mapping
      ensures exists n :: n in q.body && n !in skip && Stores(q.body[n], c)
    {
      var n :| n in p.body && n !in skip && Stores(p.body[n], c);
      assert n in q.body && Stores(q.body[n], c);
    }
  }

  // ----- Where an entry comes from -----

  /** `f` may have stopped being a key. */
  predicate StandsFor(e: Field, f: Field) {
    e == f || e == f.(primaryKey := false)
  }

  ghost predicate IsOld(fields: seq<Field>, e: Field) {
    exists f :: f in fields && StandsFor(e, f)
  }

  ghost predicate AllOld(fields: seq<Field>, p: Plan) {
    forall n :: n in p.body ==> IsOld(fields, p.body[n])
  }

  lemma {:induction false} InitialFits(fields: seq<Field>)
    requires DistinctFields(fields)
    ensures Fits(Initial(fields), {}) && AllOld(fields, Initial(fields))
  {
    if fields != [] {
      var rest, last := fields[..|fields| - 1], fields[|fields| - 1];
      InitialFits(rest);
      forall n | n in Initial(rest).body
        ensures Differ(Initial(rest).body[n], last)
      {
        var f :| f in rest && StandsFor(Initial(rest).body[n], f);
        var i :| 0 <= i < |rest| && rest[i] == f;
        assert Differ(fields[i], fields[|fields| - 1]);
      }
      PutFits(Initial(rest), {}, last, true, Column(last.column));
      assert Initial(fields) == Put(Initial(rest), last, true, Column(last.column));
      forall n | n in Initial(fields).body
        ensures IsOld(fields, Initial(fields).body[n])
      {
        if n == last.name {
          assert StandsFor(last, last) && last in fields;
        } else {
          var f :| f in rest && StandsFor(Initial(rest).body[n], f);
          assert f in fields;
        }
      }
    }
  }

  lemma {:induction false} DemoteOneFits(fields: seq<Field>, p: Plan, r: Request, name: string)
    requires Fits(p, {}) && AllOld(fields, p)
    ensures Fits(DemoteOne(p, r, name), {}) && AllOld(fields, DemoteOne(p, r, name))
  {
    hide GivesWay;
    if name in p.body && GivesWay(r, p.body[name], name) {
      if p.body[name].autoCreated {
        PopFits(p, {}, p.body[name]);
        assert DemoteOne(p, r, name) == Pop(p, p.body[name]);
      } else {
        UnkeyFits(p, {}, name);
        var f :| f in fields && StandsFor(p.body[name], f);
        assert StandsFor(p.body[name].(primaryKey := false), f);
        hide Fits, StandsFor;
      }
    }
  }

  lemma {:induction false} DemotedFits(fields: seq<Field>, p: Plan, r: Request, names: seq<string>)
    requires Fits(p, {}) && AllOld(fields, p)
    ensures Fits(Demoted(p, r, names), {}) && AllOld(fields, Demoted(p, r, names))
  {
    if names != [] {
      hide Fits, AllOld, DemoteOne;
      DemotedFits(fields, p, r, names[..|names| - 1]);
      DemoteOneFits(fields, Demoted(p, r, names[..|names| - 1]), r, names[|names| - 1]);
    }
  }

  /** The dictionaries after the key stage. */
  function Keyed(fields: seq<Field>, r: Request): Plan {
    if BringsKey(r) then Demoted(Initial(fields), r, FieldNames(fields)) else Initial(fields)
  }

  lemma KeyedFits(fields: seq<Field>, r: Request)
    requires DistinctFields(fields)
    ensures Fits(Keyed(fields, r), {}) && AllOld(fields, Keyed(fields, r))
  {
    InitialFits(fields);
    DemotedFits(fields, Initial(fields), r, FieldNames(fields));
  }

  /** What the engine fills in by itself. */
  function Served(create: Option<Field>): set<string> {
    if create.Some? && create.value.dbDefault.Some? then {create.value.name} else {}
  }

  /** After `k` alterations an entry is a field that is not altered, the created field, a field still to be
      altered, or the result of an alteration. */
  ghost predicate Comes(fields: seq<Field>, r: Request, k: nat, e: Field) {
    || (exists f :: f in fields && !IsAltered(r, f) && StandsFor(e, f))
    || Some(e) == r.create
    || (exists j :: k <= j < |r.alters| && StandsFor(e, r.alters[j].before))
    || (exists j :: 0 <= j < k <= |r.alters| && e == r.alters[j].after)
  }

  ghost predicate AllCome(fields: seq<Field>, r: Request, k: nat, p: Plan) {
    forall n :: n in p.body ==> Comes(fields, r, k, p.body[n])
  }

  lemma OldComes(fields: seq<Field>, r: Request, e: Field)
    requires IsOld(fields, e)
    ensures Comes(fields, r, 0, e)
  {
    var f :| f in fields && StandsFor(e, f);
    if IsAltered(r, f) {
      var j :| 0 <= j < |r.alters| && r.alters[j].before == f;
      assert StandsFor(e, r.alters[j].before);
    }
  }

  lemma CreatedFits(fields: seq<Field>, r: Request)
    requires GoodRequest(fields, r)
    ensures var p := Created(Keyed(fields, r), r.create); Fits(p, Served(r.create)) && AllCome(fields, r, 0, p)
  {
    KeyedFits(fields, r);
    var p := Keyed(fields, r);
    hide Keyed, Fits, Comes, IsOld;
    if r.create.Some? {
      StrangerToOld(fields, p, r.create.value);
      CreateFits(p, r.create.value);
    }
    hide GoodRequest;
    forall n | n in Created(p, r.create).body
      ensures Comes(fields, r, 0, Created(p, r.create).body[n])
    {
      if Some(Created(p, r.create).body[n]) == r.create {
        CreatedComes(fields, r, Created(p, r.create).body[n]);
      } else {
        OldComes(fields, r, p.body[n]);
      }
    }
  }

  lemma StrangerToOld(fields: seq<Field>, p: Plan, f: Field)
    requires AllOld(fields, p) && forall g :: g in fields ==> Differ(g, f)
    ensures Foreign(p, f)
  {
    forall n | n in p.body
      ensures Differ(p.body[n], f)
    {
      var g :| g in fields && StandsFor(p.body[n], g);
    }
  }

  lemma CreateFits(p: Plan, f: Field)
    requires Fits(p, {}) && Foreign(p, f)
    ensures Fits(Created(p, Some(f)), Served(Some(f)))
  {
    hide Fits, Foreign;
    PutFits(p, {}, f, f.dbDefault.None?, Const(f.default));
    assert Created(p, Some(f)) == Put(p, f, f.dbDefault.None?, Const(f.default));
    assert {} + {f.name} == {f.name};
  }

  lemma CreatedComes(fields: seq<Field>, r: Request, e: Field)
    requires Some(e) == r.create
    ensures Comes(fields, r, 0, e)
  {
  }

  /** An entry is the field about to be altered, or shares nothing with it. */
  lemma ComesBefore(fields: seq<Field>, r: Request, k: nat, e: Field)
    requires GoodRequest(fields, r) && NoTakeover(r.alters) && k < |r.alters| && Comes(fields, r, k, e)
    ensures Same(e, r.alters[k].before) || Differ(e, r.alters[k].before)
  {
    var b := r.alters[k].before;
    if f :| f in fields && StandsFor(e, f) {
      SameOrDiffer(fields, f, b);
    }
  }

  /** Every entry but the field being altered shares nothing with the result and keeps its origin. */
  lemma ComesAfter(fields: seq<Field>, r: Request, k: nat, e: Field)
    requires GoodRequest(fields, r) && NoTakeover(r.alters) && k < |r.alters| && Comes(fields, r, k, e)
    requires Differ(e, r.alters[k].before)
    ensures Differ(e, r.alters[k].after) && Comes(fields, r, k + 1, e)
  {
    if f :| f in fields && !IsAltered(r, f) && StandsFor(e, f) {
    } else if Some(e) == r.create {
    } else if j :| k <= j < |r.alters| && StandsFor(e, r.alters[j].before) {
      assert Differ(r.alters[k].after, r.alters[j].before);
    } else {
      var j :| 0 <= j < k && e == r.alters[j].after;
      assert Differ(r.alters[j].after, r.alters[k].after);
    }
  }

  lemma AlterOneFits(fields: seq<Field>, r: Request, k: nat, p: Plan)
    requires GoodRequest(fields, r) && NoTakeover(r.alters) && k < |r.alters|
    requires Fits(p, Served(r.create)) && AllCome(fields, r, k, p)
    ensures var q := AlterOne(p, r.alters[k]); Fits(q, Served(r.create)) && AllCome(fields, r, k + 1, q)
  {
    var a, skip := r.alters[k], Served(r.create);
    forall n | n in p.body
      ensures Same(p.body[n], a.before) || Differ(p.body[n], a.before)
    {
      ComesBefore(fields, r, k, p.body[n]);
    }
    PopFits(p, skip, a.before);
    var popped := Pop(p, a.before);
    forall n | n in popped.body
      ensures Differ(popped.body[n], a.after) && Comes(fields, r, k + 1, popped.body[n])
    {
      assert popped.body[n] == p.body[n];
      ComesAfter(fields, r, k, p.body[n]);
    }
    assert a.after.name !in skip;
    var q := Put(popped, a.after, true, Source(a));
    PutFits(popped, skip, a.after, true, Source(a));
    assert AlterOne(p, a) == q;
    assert Comes(fields, r, k + 1, a.after);
    hide Comes, Fits, GoodRequest;
    assert AllCome(fields, r, k + 1, q);
  }

  lemma {:induction false} AlteredFits(fields: seq<Field>, r: Request, k: nat, p: Plan)
    requires GoodRequest(fields, r) && NoTakeover(r.alters) && k <= |r.alters|
    requires Fits(p, Served(r.create)) && AllCome(fields, r, 0, p)
    ensures var q := Altered(p, r.alters[..k]); Fits(q, Served(r.create)) && AllCome(fields, r, k, q)
  {
    if k > 0 {
      hide Fits, AllCome, GoodRequest, NoTakeover, AlterOne;
      assert r.alters[..k][..k - 1] == r.alters[..k - 1];
      AlteredFits(fields, r, k - 1, p);
      AlterOneFits(fields, r, k - 1, Altered(p, r.alters[..k - 1]));
    }
  }

  /** The copy names every stored column of the new table once, and nothing else, except the created column
      that has a database default; and the new table has no two fields with one column. */
  lemma CopyFillsStoredColumns(fields: seq<Field>, r: Request)
    requires GoodRequest(fields, r) && NoTakeover(r.alters)
    ensures Fits(Planned(fields, r), Served(r.create))
    ensures AllCome(fields, r, |r.alters|, Planned(fields, r))
    ensures r.delete.Some? ==> Foreign(Planned(fields, r), r.delete.value)
  {
    var p := Created(Keyed(fields, r), r.create);
    CreatedFits(fields, r);
    AlteredFits(fields, r, |r.alters|, p);
    assert r.alters[..|r.alters|] == r.alters;
    var q := Altered(p, r.alters);
    hide Keyed, Created, Altered, Fits;
    if r.delete.Some? {
      var d := r.delete.value;
      forall n | n in q.body
        ensures Same(q.body[n], d) || Differ(q.body[n], d)
      {
        assert Comes(fields, r, |r.alters|, q.body[n]);
        DeletedMeets(fields, r, q.body[n]);
      }
      PopFits(q, Served(r.create), d);
      hide Comes;
      assert Deleted(q, r.delete) == Pop(q, d);
    }
  }

  lemma DeletedMeets(fields: seq<Field>, r: Request, e: Field)
    requires GoodRequest(fields, r) && r.delete.Some? && Comes(fields, r, |r.alters|, e)
    ensures Same(e, r.delete.value) || Differ(e, r.delete.value)
  {
    if f :| f in fields && StandsFor(e, f) {
      SameOrDiffer(fields, f, r.delete.value);
    }
  }
}

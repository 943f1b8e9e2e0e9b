/** What a table remake does to the rows of the table. */
module RemakeRows {
  import opened Outcomes
  import opened Remake
  import opened RemakeLaws

  // ----- Where the copy reads a column from -----

  /** Every copied column is still copied from itself. */
  ghost predicate Plain(p: Plan) {
    forall c :: c in p.mapping ==> p.mapping[c] == Column(c)
  }

  lemma {:induction false} InitialPlain(fields: seq<Field>)
    requires DistinctFields(fields)
    ensures Plain(Initial(fields))
    ensures forall f :: f in fields ==> f.name in Initial(fields).body && Initial(fields).body[f.name] == f
  {
    if fields != [] {
      var rest, last := fields[..|fields| - 1], fields[|fields| - 1];
      InitialPlain(rest);
      forall f | f in fields && f != last
        ensures f in rest && f.name != last.name
      {
        SameOrDiffer(fields, f, last);
      }
    }
  }

  /** Only an automatic key disappears under a new key. */
  lemma {:induction false} DemotedPlain(p: Plan, r: Request, names: seq<string>)
    requires Plain(p)
    ensures var q := Demoted(p, r, names);
      && Plain(q)
      && forall n :: n in p.body && !(GivesWay(r, p.body[n], n) && p.body[n].autoCreated) ==>
           n in q.body && StandsFor(q.body[n], p.body[n]) && !(GivesWay(r, q.body[n], n) && q.body[n].autoCreated)
  {
    if names != [] {
      DemotedPlain(p, r, names[..|names| - 1]);
      hide IsNewName, BringsKey;
    }
  }

  predicate Survives(r: Request, f: Field) {
    !IsAltered(r, f) && r.delete != Some(f) && !(GivesWay(r, f, f.name) && f.autoCreated)
  }

  /** `p` holds `f` under its name and copies its column from itself. */
  predicate CopiesItself(p: Plan, f: Field) {
    && f.name in p.body && StandsFor(p.body[f.name], f)
    && (!f.generated ==> f.column in p.mapping && p.mapping[f.column] == Column(f.column))
  }

  lemma KeyedCopiesItself(fields: seq<Field>, r: Request, f: Field)
    requires DistinctFields(fields) && f in fields && !(GivesWay(r, f, f.name) && f.autoCreated)
    ensures CopiesItself(Keyed(fields, r), f)
  {
    var p := Keyed(fields, r);
    assert Plain(p) && f.name in p.body && StandsFor(p.body[f.name], f) by {
      hide Plain, StandsFor, GivesWay, BringsKey, DistinctFields;
      InitialPlain(fields);
      DemotedPlain(Initial(fields), r, FieldNames(fields));
    }
    KeyedFits(fields, r);
    hide Keyed, AllOld, GivesWay, DistinctFields;
    FitsCopies(p, f);
  }

  lemma FitsCopies(p: Plan, f: Field)
    requires Fits(p, {}) && Plain(p) && f.name in p.body && StandsFor(p.body[f.name], f)
    ensures CopiesItself(p, f)
  {
  }

  /** Alterations that share nothing with a field leave its entries alone. */
  lemma {:induction false} AlteredElsewhere(p: Plan, alters: seq<Alteration>, f: Field)
    requires forall i :: 0 <= i < |alters| ==> Differ(alters[i].before, f) && Differ(alters[i].after, f)
    ensures var q := Altered(p, alters);
      && (f.name in q.body <==> f.name in p.body) && (f.name in p.body ==> q.body[f.name] == p.body[f.name])
      && (f.column in q.mapping <==> f.column in p.mapping)
      && (f.column in p.mapping ==> q.mapping[f.column] == p.mapping[f.column])
  {
    if alters != [] {
      var last := |alters| - 1;
      assert forall i :: 0 <= i < last ==> alters[..last][i] == alters[i];
      AlteredElsewhere(p, alters[..last], f);
      assert Differ(alters[last].before, f) && Differ(alters[last].after, f);
    }
  }

  lemma Elsewhere(fields: seq<Field>, r: Request, f: Field)
    requires GoodRequest(fields, r) && ((f in fields && !IsAltered(r, f)) || r.create == Some(f))
    ensures forall i :: 0 <= i < |r.alters| ==> Differ(r.alters[i].before, f) && Differ(r.alters[i].after, f)
  {
    forall i | 0 <= i < |r.alters|
      ensures Differ(r.alters[i].before, f) && Differ(r.alters[i].after, f)
    {
      assert r.alters[i].before in fields;
      if f in fields && !IsAltered(r, f) {
        SameOrDiffer(fields, r.alters[i].before, f);
      }
    }
  }

  /** A field that stays is in the new table, and its column is copied from itself, takeovers or not. */
  lemma SurvivorIsCopied(fields: seq<Field>, r: Request, f: Field)
    requires GoodRequest(fields, r) && f in fields && Survives(r, f)
    ensures CopiesItself(Planned(fields, r), f)
  {
    KeyedCopiesItself(fields, r, f);
    Elsewhere(fields, r, f);
    var p := Created(Keyed(fields, r), r.create);
    AlteredElsewhere(p, r.alters, f);
    if r.delete.Some? {
      SameOrDiffer(fields, f, r.delete.value);
    }
    hide Keyed, Altered, IsAltered, GivesWay, StandsFor;
  }

  /** The created field is in the new table, and its column is filled with its default unless the database
      does that. */
  lemma CreatedIsFilled(fields: seq<Field>, r: Request)
    requires GoodRequest(fields, r) && r.create.Some?
    ensures var p, f := Planned(fields, r), r.create.value;
      && f.name in p.body && p.body[f.name] == f
      && (f.dbDefault.None? && !f.generated ==> f.column in p.mapping && p.mapping[f.column] == Const(f.default))
  {
    Elsewhere(fields, r, r.create.value);
    AlteredElsewhere(Created(Keyed(fields, r), r.create), r.alters, r.create.value);
    hide Keyed, Altered;
  }

  // ----- Altered fields, and when one of them is lost -----

  ghost predicate NameIsTaken(alters: seq<Alteration>, i: nat)
    requires i < |alters|
  {
    exists j :: i < j < |alters| && alters[j].before.name == alters[i].after.name
  }

  ghost predicate ColumnIsTaken(alters: seq<Alteration>, i: nat)
    requires i < |alters|
  {
    exists j :: i < j < |alters| && alters[j].before.column == alters[i].after.column
  }

  predicate HasField(p: Plan, f: Field) {
    f.name in p.body && p.body[f.name] == f
  }

  predicate HasSource(p: Plan, a: Alteration) {
    a.after.column in p.mapping && p.mapping[a.after.column] == Source(a)
  }

  /** An altered field stays in the dictionaries exactly when no later alteration starts from its name, and
      its column exactly when no later alteration starts from its column. */
  lemma {:induction false} AlteredIsKept(p: Plan, alters: seq<Alteration>, i: nat)
    requires DistinctAlters(alters) && i < |alters|
    ensures HasField(Altered(p, alters), alters[i].after) <==> !NameIsTaken(alters, i)
    ensures !alters[i].after.generated ==>
      (HasSource(Altered(p, alters), alters[i]) <==> !ColumnIsTaken(alters, i))
    ensures NameIsTaken(alters, i) ==> alters[i].after.name !in Altered(p, alters).body
    ensures ColumnIsTaken(alters, i) ==> alters[i].after.column !in Altered(p, alters).mapping
  {
    var last := |alters| - 1;
    var rest, a := alters[..last], alters[last];
    var q := Altered(p, rest);
    assert Altered(p, alters) == AlterOne(q, a);
    if i < last {
      AlteredIsKept(p, rest, i);
      assert rest[i] == alters[i] && Differ(alters[i].after, a.after);
      TakenStep(alters, i);
      AlterOneKeeps(q, a, alters[i]);
    }
    hide Altered, Source, DistinctAlters;
  }

  /** One more alteration takes away the entries it starts from and leaves the others. */
  lemma AlterOneKeeps(p: Plan, a: Alteration, b: Alteration)
    requires Differ(a.after, b.after)
    ensures var q := AlterOne(p, a);
      && (HasField(q, b.after) <==> HasField(p, b.after) && a.before.name != b.after.name)
      && (HasSource(q, b) <==> HasSource(p, b) && a.before.column != b.after.column)
      && (b.after.name in q.body <==> b.after.name in p.body && a.before.name != b.after.name)
      && (b.after.column in q.mapping <==> b.after.column in p.mapping && a.before.column != b.after.column)
  {
    hide Source;
  }

  lemma TakenStep(alters: seq<Alteration>, i: nat)
    requires i < |alters| - 1
    ensures var rest, a := alters[..|alters| - 1], alters[|alters| - 1];
      && (NameIsTaken(alters, i) <==> NameIsTaken(rest, i) || a.before.name == alters[i].after.name)
      && (ColumnIsTaken(alters, i) <==> ColumnIsTaken(rest, i) || a.before.column == alters[i].after.column)
  {
    var rest := alters[..|alters| - 1];
    assert forall j :: 0 <= j < |rest| ==> rest[j] == alters[j];
  }

  /** In a whole remake: an altered field keeps its place and its values exactly when no later alteration
      starts from its name or column. */
  lemma AlteredSurvives(fields: seq<Field>, r: Request, i: nat)
    requires GoodRequest(fields, r) && i < |r.alters|
    ensures HasField(Planned(fields, r), r.alters[i].after) <==> !NameIsTaken(r.alters, i)
    ensures !r.alters[i].after.generated ==>
      (HasSource(Planned(fields, r), r.alters[i]) <==> !ColumnIsTaken(r.alters, i))
  {
    var p := Created(Keyed(fields, r), r.create);
    AlteredIsKept(p, r.alters, i);
    hide Keyed, Created, Altered, NameIsTaken, ColumnIsTaken, Source;
  }

  /** Swapping the names and columns of two fields loses the second one, definition and values. */
  lemma SwapLosesAColumn(a: Field, b: Field)
    requires Differ(a, b) && !a.generated && !b.generated && !a.primaryKey && !b.primaryKey
    ensures var r := Request(None, None, [
        Alteration(a, a.(name := b.name, column := b.column)), Alteration(b, b.(name := a.name, column := a.column))]);
      && GoodRequest([a, b], r)
      && b.name !in Planned([a, b], r).body && b.column !in Planned([a, b], r).mapping
  {
    var r := Request(None, None, [
      Alteration(a, a.(name := b.name, column := b.column)), Alteration(b, b.(name := a.name, column := a.column))]);
    assert r.alters[0].before == a && r.alters[1].before == b;
    assert r.alters[1].before.name == r.alters[0].after.name;
    assert r.alters[1].before.column == r.alters[0].after.column;
    AlteredIsKept(Created(Keyed([a, b], r), r.create), r.alters, 0);
  }

  // ----- Sources read the old table only -----

  function Columns(fields: seq<Field>): set<string> {
    set i | 0 <= i < |fields| :: fields[i].column
  }

  function Reads(e: Expr): set<string> {
    if e.Const? then {} else {e.column}
  }

  ghost predicate ReadsWithin(p: Plan, columns: set<string>) {
    forall c :: c in p.mapping ==> Reads(p.mapping[c]) <= columns
  }

  lemma {:induction false} InitialReads(fields: seq<Field>)
    ensures ReadsWithin(Initial(fields), Columns(fields))
  {
    if fields != [] {
      var last := |fields| - 1;
      InitialReads(fields[..last]);
      assert forall i :: 0 <= i < last ==> fields[..last][i] == fields[i];
      assert Columns(fields) == Columns(fields[..last]) + {fields[last].column};
    }
  }

  lemma {:induction false} DemotedReads(p: Plan, r: Request, names: seq<string>, columns: set<string>)
    requires ReadsWithin(p, columns)
    ensures ReadsWithin(Demoted(p, r, names), columns)
  {
    if names != [] {
      DemotedReads(p, r, names[..|names| - 1], columns);
    }
  }

  lemma {:induction false} AlteredReads(p: Plan, alters: seq<Alteration>, columns: set<string>)
    requires ReadsWithin(p, columns) && forall i :: 0 <= i < |alters| ==> alters[i].before.column in columns
    ensures ReadsWithin(Altered(p, alters), columns)
  {
    if alters != [] {
      AlteredReads(p, alters[..|alters| - 1], columns);
    }
  }

  /** Each source reads columns of the old table only, whatever is created, altered or deleted. */
  lemma SourcesReadOldColumns(fields: seq<Field>, r: Request)
    requires forall i :: 0 <= i < |r.alters| ==> r.alters[i].before in fields
    ensures ReadsWithin(Planned(fields, r), Columns(fields))
  {
    InitialReads(fields);
    DemotedReads(Initial(fields), r, FieldNames(fields), Columns(fields));
    var p := Created(Keyed(fields, r), r.create);
    assert ReadsWithin(p, Columns(fields)) by {
      hide Initial, Demoted, Columns;
    }
    AlteredReads(p, r.alters, Columns(fields));
    hide Keyed, Created, Altered, Columns;
  }

  // ----- Rows -----

  type Row = map<string, Value>

  function Eval(e: Expr, row: Row): Value
    requires Reads(e) <= row.Keys
  {
    match e
    case Column(c) => row[c]
    case Const(v) => v
    case Coalesce(c, v) => if row[c] == Null then v else row[c]
  }

  /** The rows before and after the copy statement. The columns it does not name are the engine's to fill. */
  ghost predicate Remade(p: Plan, rows: seq<Row>, out: seq<Row>) {
    && |out| == |rows|
    && forall i, c :: 0 <= i < |rows| && c in p.mapping ==>
         Reads(p.mapping[c]) <= rows[i].Keys && c in out[i] && out[i][c] == Eval(p.mapping[c], rows[i])
  }

  /** The values of one column, row by row. */
  ghost predicate Carries(rows: seq<Row>, column: string) {
    forall i :: 0 <= i < |rows| ==> column in rows[i]
  }

  function Values(rows: seq<Row>, column: string): seq<Value>
    requires Carries(rows, column)
  {
    seq(|rows|, i requires 0 <= i < |rows| => rows[i][column])
  }

  /** The copy can run on every table that has the columns of the old model. */
  lemma CopyIsDefined(fields: seq<Field>, r: Request, rows: seq<Row>) returns (out: seq<Row>)
    requires forall i :: 0 <= i < |r.alters| ==> r.alters[i].before in fields
    requires forall i :: 0 <= i < |rows| ==> Columns(fields) <= rows[i].Keys
    ensures Remade(Planned(fields, r), rows, out)
  {
    SourcesReadOldColumns(fields, r);
    var p := Planned(fields, r);
    hide Planned, Columns;
    out := seq(|rows|, i requires 0 <= i < |rows| => map c | c in p.mapping :: Eval(p.mapping[c], rows[i]));
  }

  /** Every field that stays keeps its value in every row. */
  lemma SurvivorKeepsValues(fields: seq<Field>, r: Request, rows: seq<Row>, out: seq<Row>, f: Field)
    requires GoodRequest(fields, r) && f in fields && Survives(r, f) && !f.generated
    requires Remade(Planned(fields, r), rows, out)
    ensures Carries(rows, f.column) && Carries(out, f.column) && Values(out, f.column) == Values(rows, f.column)
  {
    SurvivorIsCopied(fields, r, f);
    hide Planned, Survives;
  }

  /** What an altered column holds after the copy. */
  function Converted(a: Alteration, v: Value): Value {
    if a.before.nullable && !a.after.nullable && v == Null then Replacement(a.after) else v
  }

  /** An altered column holds the old values, except that NULL gives way to the replacement when the column
      becomes required; so NULL stays only when the column may hold it or the replacement is NULL. */
  lemma AlteredKeepsValues(fields: seq<Field>, r: Request, rows: seq<Row>, out: seq<Row>, i: nat)
    requires GoodRequest(fields, r) && i < |r.alters| && !ColumnIsTaken(r.alters, i)
    requires !r.alters[i].after.generated && Remade(Planned(fields, r), rows, out)
    ensures var a := r.alters[i];
      && Carries(rows, a.before.column) && Carries(out, a.after.column)
      && (forall k :: 0 <= k < |rows| ==> out[k][a.after.column] == Converted(a, rows[k][a.before.column]))
      && (forall k ::
            0 <= k < |rows| && (rows[k][a.before.column] != Null || !a.before.nullable || a.after.nullable) ==>
            out[k][a.after.column] == rows[k][a.before.column])
      && (forall k :: 0 <= k < |rows| && rows[k][a.before.column] == Null && a.before.nullable && !a.after.nullable ==>
            out[k][a.after.column] == if a.after.dbDefault.Some? then a.after.dbDefault.value else a.after.default)
  {
    AlteredSurvives(fields, r, i);
    hide Planned, ColumnIsTaken, GoodRequest;
  }

  /** The created column holds its default in every row, unless the database fills it. */
  lemma CreatedHoldsDefault(fields: seq<Field>, r: Request, rows: seq<Row>, out: seq<Row>)
    requires GoodRequest(fields, r) && r.create.Some? && Remade(Planned(fields, r), rows, out)
    requires r.create.value.dbDefault.None? && !r.create.value.generated
    ensures var f := r.create.value;
      Carries(out, f.column) && forall k :: 0 <= k < |rows| ==> out[k][f.column] == f.default
  {
    CreatedIsFilled(fields, r);
    hide Planned, GoodRequest;
  }
}

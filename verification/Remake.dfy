/** The table remake: a new table definition and a copy statement, built from two dictionaries. */
module Remake {
  import opened Outcomes

  datatype Value = Null | V(n: int)

  /** A concrete field. `default` is its effective default, `dbDefault` a default kept by the database. */
  datatype Field = Field(
    name: string, column: string, nullable: bool, primaryKey: bool, autoCreated: bool, generated: bool,
    default: Value, dbDefault: Option<Value>)

  /** A source expression of the copy statement, over the columns of the old table. */
  datatype Expr = Column(column: string) | Const(value: Value) | Coalesce(column: string, value: Value)

  type Body = map<string, Field>
  type Mapping = map<string, Expr>

  datatype Alteration = Alteration(before: Field, after: Field)

  /** What a remake is asked for. */
  datatype Request = Request(create: Option<Field>, delete: Option<Field>, alters: seq<Alteration>)

  datatype Plan = Plan(body: Body, mapping: Mapping)

  // ----- Specification, one stage after the other -----

  function Initial(fields: seq<Field>): Plan {
    if fields == [] then Plan(map[], map[])
    else
      var p, f := Initial(fields[..|fields| - 1]), fields[|fields| - 1];
      Plan(p.body[f.name := f], if f.generated then p.mapping else p.mapping[f.column := Column(f.column)])
  }

  predicate IsNewName(r: Request, name: string) {
    exists i :: 0 <= i < |r.alters| && r.alters[i].after.name == name
  }

  /** The request brings a new primary key. */
  predicate BringsKey(r: Request) {
    || (r.create.Some? && r.create.value.primaryKey)
    || exists i :: 0 <= i < |r.alters| && r.alters[i].after.primaryKey
  }

  /** A key field that gives way to the new key. */
  predicate GivesWay(r: Request, f: Field, name: string) {
    BringsKey(r) && f.primaryKey && !IsNewName(r, name)
  }

  /** One field under a new key: an automatic key disappears, another one becomes an ordinary field. */
  function DemoteOne(p: Plan, r: Request, name: string): Plan {
    if name !in p.body || !GivesWay(r, p.body[name], name) then p
    else if p.body[name].autoCreated then Plan(p.body - {name}, p.mapping - {p.body[name].column})
    else Plan(p.body[name := p.body[name].(primaryKey := false)], p.mapping)
  }

  function Demoted(p: Plan, r: Request, names: seq<string>): Plan {
    if names == [] then p else DemoteOne(Demoted(p, r, names[..|names| - 1]), r, names[|names| - 1])
  }

  function Created(p: Plan, create: Option<Field>): Plan {
    if create.None? then p
    else
      var f := create.value;
      Plan(p.body[f.name := f],
           if f.dbDefault.None? && !f.generated then p.mapping[f.column := Const(f.default)] else p.mapping)
  }

  /** The value that replaces NULL when a column becomes required. */
  function Replacement(f: Field): Value {
    if f.dbDefault.None? then f.default else f.dbDefault.value
  }

  function Source(a: Alteration): Expr {
    if a.before.nullable && !a.after.nullable then Coalesce(a.before.column, Replacement(a.after))
    else Column(a.before.column)
  }

  function AlterOne(p: Plan, a: Alteration): Plan {
    Plan((p.body - {a.before.name})[a.after.name := a.after],
         if a.after.generated then p.mapping - {a.before.column}
         else (p.mapping - {a.before.column})[a.after.column := Source(a)])
  }

  function Altered(p: Plan, alters: seq<Alteration>): Plan {
    if alters == [] then p else AlterOne(Altered(p, alters[..|alters| - 1]), alters[|alters| - 1])
  }

  /** The new name of every altered field. */
  function Renames(alters: seq<Alteration>): map<string, string> {
    if alters == [] then map[]
    else
      var a := alters[|alters| - 1];
      Renames(alters[..|alters| - 1])[a.before.name := a.after.name]
  }

  function Deleted(p: Plan, delete: Option<Field>): Plan {
    if delete.None? then p
    else Plan(p.body - {delete.value.name}, p.mapping - {delete.value.column})
  }

  function FieldNames(fields: seq<Field>): seq<string> {
    seq(|fields|, i requires 0 <= i < |fields| => fields[i].name)
  }

  function Planned(fields: seq<Field>, r: Request): Plan {
    var start := Initial(fields);
    var demoted := if BringsKey(r) then Demoted(start, r, FieldNames(fields)) else start;
    Deleted(Altered(Created(demoted, r.create), r.alters), r.delete)
  }

  // ----- The two dictionaries, edited in place -----

  /** The dictionaries of one remake. */
  class Dictionaries {
    var body: Body
    var mapping: Mapping
    var renames: map<string, string>

    constructor ()
      ensures View() == Plan(map[], map[]) && renames == map[]
    {
      body, mapping, renames := map[], map[], map[];
    }

    ghost function View(): Plan
      reads this
    {
      Plan(body, mapping)
    }

    method Fill(fields: seq<Field>)
      requires View() == Plan(map[], map[])
      modifies this`body, this`mapping
      ensures View() == Initial(fields)
    {
      for i := 0 to |fields|
        invariant View() == Initial(fields[..i])
      {
        assert fields[..i + 1][..i] == fields[..i];
        var f := fields[i];
        body := body[f.name := f];
        if !f.generated {
          mapping := mapping[f.column := Column(f.column)];
        }
      }
      assert fields[..|fields|] == fields;
    }

    method DemoteKeys(names: seq<string>, r: Request)
      requires BringsKey(r)
      modifies this`body, this`mapping
      ensures View() == Demoted(old(View()), r, names)
      ensures forall n :: n in names && n in body && body[n].primaryKey ==> IsNewName(r, n)
    {
      for i := 0 to |names|
        invariant View() == Demoted(old(View()), r, names[..i])
        invariant forall n :: n in names[..i] && n in body && body[n].primaryKey ==> IsNewName(r, n)
      {
        assert names[..i + 1][..i] == names[..i];
        var name := names[i];
        if name in body {
          var f := body[name];
          if f.primaryKey && !IsNewName(r, name) {
            body := body[name := f.(primaryKey := false)];
            if f.autoCreated {
              body := body - {name};
              mapping := mapping - {f.column};
            }
          }
        }
      }
      assert names[..|names|] == names;
    }

    method ApplyAlterations(alters: seq<Alteration>)
      modifies this
      requires renames == map[]
      ensures View() == Altered(old(View()), alters)
      ensures renames == Renames(alters)
    {
      for i := 0 to |alters|
        invariant View() == Altered(old(View()), alters[..i])
        invariant renames == Renames(alters[..i])
      {
        assert alters[..i + 1][..i] == alters[..i];
        var a := alters[i];
        body := body - {a.before.name};
        mapping := mapping - {a.before.column};
        body := body[a.after.name := a.after];
        renames := renames[a.before.name := a.after.name];
        if a.after.generated {
          continue;
        }
        if a.before.nullable && !a.after.nullable {
          var default := if a.after.dbDefault.None? then a.after.default else a.after.dbDefault.value;
          mapping := mapping[a.after.column := Coalesce(a.before.column, default)];
        } else {
          mapping := mapping[a.after.column := Column(a.before.column)];
        }
      }
      assert alters[..|alters|] == alters;
    }

    /** The dictionary part of `_remake_table`. */
    method Prepare(fields: seq<Field>, r: Request)
      requires View() == Plan(map[], map[]) && renames == map[]
      modifies this
      ensures View() == Planned(fields, r)
      ensures renames == Renames(r.alters)
    {
      Fill(fields);
      if BringsKey(r) {
        DemoteKeys(FieldNames(fields), r);
      }
      if r.create.Some? {
        var f := r.create.value;
        body := body[f.name := f];
        if f.dbDefault.None? && !f.generated {
          mapping := mapping[f.column := Const(f.default)];
        }
      }
      ApplyAlterations(r.alters);
      if r.delete.Some? {
        body := body - {r.delete.value.name};
        mapping := mapping - {r.delete.value.column};
      }
    }
  }
}

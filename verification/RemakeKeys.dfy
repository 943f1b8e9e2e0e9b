/** What a table remake does to the old primary key when the request brings a new one. */
module RemakeKeys {
  import opened Outcomes
  import opened Remake
  import opened RemakeLaws
  import opened RemakeRows

  /** The created field or some altered field is a primary key. */
  predicate NewKey(r: Request) {
    (r.create.Some? && r.create.value.primaryKey) || exists a :: a in r.alters && a.after.primaryKey
  }

  lemma NewKeyIsBrought(r: Request)
    ensures NewKey(r) <==> BringsKey(r)
  {
    if a :| a in r.alters && a.after.primaryKey {
      var i :| 0 <= i < |r.alters| && r.alters[i] == a;
    }
    if i :| 0 <= i < |r.alters| && r.alters[i].after.primaryKey {
      assert r.alters[i] in r.alters;
    }
  }

  // ----- After the key stage -----

  lemma {:induction false} DemotedOnce(p: Plan, r: Request, names: seq<string>)
    requires BringsKey(r)
    ensures var q := Demoted(p, r, names);
      && (forall n :: n in q.body ==> n in p.body && (n in names && q.body[n].primaryKey ==> IsNewName(r, n)))
  {
    hide IsNewName;
    if names != [] {
      var rest, last := names[..|names| - 1], names[|names| - 1];
      DemotedOnce(p, r, rest);
      assert names == rest + [last];
    }
  }

  /** A key whose name an altered field gets is left to the alteration. */
  lemma {:induction false} AlteredNamesStay(p: Plan, r: Request, names: seq<string>, a: Alteration)
    requires a in r.alters
    ensures var n, q := a.after.name, Demoted(p, r, names);
      (n in q.body <==> n in p.body) && (n in p.body ==> q.body[n] == p.body[n])
  {
    hide BringsKey;
    if names != [] {
      AlteredNamesStay(p, r, names[..|names| - 1], a);
      var i :| 0 <= i < |r.alters| && r.alters[i] == a;
      assert IsNewName(r, a.after.name);
    }
  }

  lemma {:induction false} InitialNames(fields: seq<Field>, n: string)
    requires n in Initial(fields).body
    ensures n in FieldNames(fields)
  {
    var rest, last := fields[..|fields| - 1], fields[|fields| - 1];
    if n == last.name {
      assert FieldNames(fields)[|fields| - 1] == n;
    } else {
      InitialNames(rest, n);
      var i :| 0 <= i < |rest| && FieldNames(rest)[i] == n;
      assert FieldNames(fields)[i] == n;
    }
  }

  lemma {:induction false} AlteredOrUntouched(p: Plan, alters: seq<Alteration>, n: string)
    requires n in Altered(p, alters).body
    ensures
      || (exists j :: 0 <= j < |alters| && Altered(p, alters).body[n] == alters[j].after)
      || (n in p.body && Altered(p, alters).body[n] == p.body[n]
          && forall j :: 0 <= j < |alters| ==> alters[j].after.name != n)
  {
    if alters != [] {
      var last := |alters| - 1;
      if n != alters[last].after.name {
        AlteredOrUntouched(p, alters[..last], n);
        assert forall j :: 0 <= j < last ==> alters[..last][j] == alters[j];
      } else {
        assert Altered(p, alters).body[n] == alters[last].after;
      }
    }
  }

  /** Under a new key, every key of the new table is the created field or the result of an alteration. This
      holds for all requests. */
  lemma OnlyTheNewKeyStays(fields: seq<Field>, r: Request, n: string)
    requires (r.create.Some? && r.create.value.primaryKey) || exists a :: a in r.alters && a.after.primaryKey
    requires n in Planned(fields, r).body && Planned(fields, r).body[n].primaryKey
    ensures
      || Some(Planned(fields, r).body[n]) == r.create
      || exists j :: 0 <= j < |r.alters| && Planned(fields, r).body[n] == r.alters[j].after
  {
    NewKeyIsBrought(r);
    var keyed := Demoted(Initial(fields), r, FieldNames(fields));
    var p := Created(keyed, r.create);
    DemotedOnce(Initial(fields), r, FieldNames(fields));
    AlteredOrUntouched(p, r.alters, n);
    hide Demoted, Altered, Initial;
    if n in keyed.body {
      InitialNames(fields, n);
    }
  }

  lemma {:induction false} DemotedRemoves(p: Plan, r: Request, names: seq<string>, f: Field)
    requires GivesWay(r, f, f.name) && f.autoCreated
    requires f.name in p.body ==> p.body[f.name] == f
    ensures var q := Demoted(p, r, names);
      && (f.name in q.body ==> f.name in p.body && q.body[f.name] == p.body[f.name])
      && (f.name in names || f.name !in p.body ==> f.name !in q.body)
      && (f.name !in names && f.name in p.body ==> f.name in q.body)
      && (f.name in names && f.name in p.body ==> f.column !in q.mapping)
  {
    hide BringsKey, IsNewName;
    if names != [] {
      var rest, last := names[..|names| - 1], names[|names| - 1];
      assert names == rest + [last];
      DemotedRemoves(p, r, rest, f);
    }
  }

  /** An automatic key that is not altered disappears from the new table, with its column, under a new key. */
  lemma AutomaticKeyDisappears(fields: seq<Field>, r: Request, f: Field)
    requires GoodRequest(fields, r)
    requires (r.create.Some? && r.create.value.primaryKey) || exists a :: a in r.alters && a.after.primaryKey
    requires f in fields && f.primaryKey && f.autoCreated && !IsAltered(r, f)
    ensures f.name !in Planned(fields, r).body && f.column !in Planned(fields, r).mapping
  {
    NewKeyIsBrought(r);
    Elsewhere(fields, r, f);
    InitialPlain(fields);
    InitialNames(fields, f.name);
    assert !IsNewName(r, f.name);
    DemotedRemoves(Initial(fields), r, FieldNames(fields), f);
    AlteredElsewhere(Created(Keyed(fields, r), r.create), r.alters, f);
    hide Demoted, Altered, Initial, BringsKey, IsNewName, GoodAlters, DistinctFields, IsAltered;
  }

  // ----- What survives, exactly -----

  lemma {:induction false} DemotedEntry(p: Plan, r: Request, names: seq<string>, f: Field)
    requires f.name in p.body && p.body[f.name] == f && !(GivesWay(r, f, f.name) && f.autoCreated)
    ensures var q := Demoted(p, r, names);
      && f.name in q.body
      && q.body[f.name] == if f.name in names && GivesWay(r, f, f.name) then f.(primaryKey := false) else f
  {
    hide BringsKey, IsNewName;
    if names != [] {
      var rest, last := names[..|names| - 1], names[|names| - 1];
      assert names == rest + [last];
      DemotedEntry(p, r, rest, f);
    }
  }

  /** A field that stays is unchanged, except that a key becomes an ordinary field under a new key. */
  lemma SurvivorIsUnchanged(fields: seq<Field>, r: Request, f: Field)
    requires GoodRequest(fields, r) && f in fields && !IsAltered(r, f) && r.delete != Some(f)
    requires !(NewKey(r) && f.primaryKey && f.autoCreated)
    ensures f.name in Planned(fields, r).body
    ensures Planned(fields, r).body[f.name] == if NewKey(r) then f.(primaryKey := false) else f
  {
    NewKeyIsBrought(r);
    Elsewhere(fields, r, f);
    InitialPlain(fields);
    InitialNames(fields, f.name);
    assert !IsNewName(r, f.name);
    DemotedEntry(Initial(fields), r, FieldNames(fields), f);
    AlteredElsewhere(Created(Keyed(fields, r), r.create), r.alters, f);
    if r.delete.Some? {
      SameOrDiffer(fields, f, r.delete.value);
    }
    hide Demoted, Altered, Initial, BringsKey, NewKey, IsNewName, GoodAlters, DistinctFields, IsAltered;
  }

  // ----- Renames -----

  /** The rename table sends the old name of every altered field to its new name, and holds nothing else. */
  lemma {:induction false} RenamesAreExact(alters: seq<Alteration>)
    requires forall i, j :: 0 <= i < j < |alters| ==> alters[i].before.name != alters[j].before.name
    ensures forall i :: 0 <= i < |alters| ==>
        alters[i].before.name in Renames(alters) && Renames(alters)[alters[i].before.name] == alters[i].after.name
    ensures forall n :: n in Renames(alters) ==> exists i :: 0 <= i < |alters| && alters[i].before.name == n
  {
    if alters != [] {
      var last := |alters| - 1;
      assert forall i :: 0 <= i < last ==> alters[..last][i] == alters[i];
      RenamesAreExact(alters[..last]);
      forall n | n in Renames(alters)
        ensures exists i :: 0 <= i < |alters| && alters[i].before.name == n
      {
        if n == alters[last].before.name {
          assert alters[last].before.name == n;
        } else {
          var i :| 0 <= i < last && alters[..last][i].before.name == n;
          assert alters[i].before.name == n;
        }
      }
    }
  }

  /** A unique set of names, in the new table: renamed where a field was altered. */
  function Renamed(names: seq<string>, renames: map<string, string>): seq<string> {
    seq(|names|, i requires 0 <= i < |names| => if names[i] in renames then renames[names[i]] else names[i])
  }

  /** A unique set over fields that all stay names fields of the new table. */
  lemma UniqueSetStaysValid(fields: seq<Field>, r: Request, names: seq<string>)
    requires GoodRequest(fields, r) && NoTakeover(r.alters)
    requires forall k :: 0 <= k < |names| ==>
        exists f :: f in fields && f.name == names[k] && r.delete != Some(f)
          && !(NewKey(r) && f.primaryKey && f.autoCreated)
    ensures forall k :: 0 <= k < |names| ==> Renamed(names, Renames(r.alters))[k] in Planned(fields, r).body
  {
    assert forall i, j :: 0 <= i < j < |r.alters| ==> Differ(r.alters[i].before, r.alters[j].before);
    RenamesAreExact(r.alters);
    forall k | 0 <= k < |names|
      ensures Renamed(names, Renames(r.alters))[k] in Planned(fields, r).body
    {
      var f :| f in fields && f.name == names[k] && r.delete != Some(f)
        && !(NewKey(r) && f.primaryKey && f.autoCreated);
      if IsAltered(r, f) {
        var i :| 0 <= i < |r.alters| && r.alters[i].before == f;
        AlteredSurvives(fields, r, i);
      } else {
        SurvivorIsUnchanged(fields, r, f);
        NotRenamed(fields, r, f);
      }
    }
  }

  lemma NotRenamed(fields: seq<Field>, r: Request, f: Field)
    requires GoodRequest(fields, r) && f in fields && !IsAltered(r, f)
    ensures forall i :: 0 <= i < |r.alters| ==> r.alters[i].before.name != f.name
  {
    forall i | 0 <= i < |r.alters|
      ensures r.alters[i].before.name != f.name
    {
      SameOrDiffer(fields, r.alters[i].before, f);
    }
  }
}

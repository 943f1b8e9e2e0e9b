/** The dictionary of recovered constraints: which name each constraint is found under. */
module ConstraintNames {
  import opened Outcomes
  import opened ConstraintParser

  // ----- Columns in the order of their first occurrence -----

  function FirstIndex(s: seq<string>, x: string): (i: nat)
    requires x in s
    ensures i < |s| && s[i] == x && x !in s[..i]
  {
    if s[0] == x then 0 else 1 + FirstIndex(s[1..], x)
  }

  lemma {:induction false} FirstIndexIn(s: seq<string>, last: string, x: string)
    requires x in s || x == last
    ensures FirstIndex(s + [last], x) == if x in s then FirstIndex(s, x) else |s|
  {
    if s != [] && s[0] != x {
      assert (s + [last])[1..] == s[1..] + [last];
      FirstIndexIn(s[1..], last, x);
    }
  }

  /** The elements of `r` stand in the order in which they first occur in `s`. */
  predicate InOrder(s: seq<string>, r: seq<string>) {
    && (forall i :: 0 <= i < |r| ==> r[i] in s)
    && (forall i, j :: 0 <= i < j < |r| ==> FirstIndex(s, r[i]) < FirstIndex(s, r[j]))
  }

  /** No column twice, and the columns in the order in which they first occur. */
  lemma {:induction false} DistinctKeepsOrder(s: seq<string>)
    ensures InOrder(s, Distinct(s))
  {
    if s != [] {
      var rest, last := s[..|s| - 1], s[|s| - 1];
      assert s == rest + [last];
      DistinctKeepsOrder(rest);
      InOrderSnoc(rest, last, Distinct(rest));
    }
  }

  lemma InOrderSnoc(s: seq<string>, last: string, r: seq<string>)
    requires InOrder(s, r)
    ensures InOrder(s + [last], r) && (last !in s ==> InOrder(s + [last], r + [last]))
  {
    forall i | 0 <= i < |r|
      ensures r[i] in s + [last] && FirstIndex(s + [last], r[i]) == FirstIndex(s, r[i])
    {
      FirstIndexIn(s, last, r[i]);
    }
    FirstIndexIn(s, last, last);
  }

  // ----- Generated names -----

  function Number(s: string): int {
    if s == "" then 0 else Number(s[..|s| - 1]) * 10 + (s[|s| - 1] as int - '0' as int)
  }

  lemma {:induction false} NumberOfDecimal(n: nat)
    ensures Number(Decimal(n)) == n
  {
    var digit := [(n % 10 + '0' as int) as char];
    if n < 10 {
      assert digit[..0] == "";
    } else {
      NumberOfDecimal(n / 10);
      assert (Decimal(n / 10) + digit)[..|Decimal(n / 10)|] == Decimal(n / 10);
    }
  }

  lemma GeneratedNamesDiffer(m: nat, n: nat)
    requires GeneratedName(m) == GeneratedName(n)
    ensures m == n
  {
    NumberOfDecimal(m);
    NumberOfDecimal(n);
    var prefix := "__unnamed_constraint_";
    assert GeneratedName(m)[|prefix|..|GeneratedName(m)| - 2] == Decimal(m);
    assert GeneratedName(n)[|prefix|..|GeneratedName(n)| - 2] == Decimal(n);
  }

  // ----- Finding a constraint -----

  predicate HasTitle(p: Parsed) {
    p.title.Some? && p.title.value != ""
  }

  /** The definition declares a UNIQUE or a CHECK constraint. A column can declare both; under one title
      the CHECK would take the place of the UNIQUE. */
  predicate Declares(p: Parsed, unique: bool) {
    if unique then p.unique != [] && !(HasTitle(p) && p.check != []) else p.check != []
  }

  function ConstraintOf(p: Parsed, unique: bool): Constraint {
    if unique then Constraint(true, p.unique) else Constraint(false, p.check)
  }

  /** The number of a constraint without a title: UNIQUE comes before CHECK. */
  function NumberAt(list: seq<Parsed>, i: nat, unique: bool): nat
    requires i < |list|
  {
    Collected(list[..i]).unnamed + if !unique && list[i].unique != [] then 2 else 1
  }

  /** The title, or the generated name. */
  function NameAt(list: seq<Parsed>, i: nat, unique: bool): string
    requires i < |list|
  {
    if HasTitle(list[i]) then list[i].title.value else GeneratedName(NumberAt(list, i, unique))
  }

  lemma {:induction false} NumbersGrow(list: seq<Parsed>, i: nat, unique: bool)
    requires i < |list| && Declares(list[i], unique) && !HasTitle(list[i])
    ensures NumberAt(list, i, unique) <= Collected(list).unnamed
  {
    var last := |list| - 1;
    if i < last {
      assert list[..last][..i] == list[..i];
      NumbersGrow(list[..last], i, unique);
    }
  }

  /** Every constraint is found under its name, both constraints of a column included, as long as no later
      title and no title of the generated form takes that name. */
  lemma {:induction false} ConstraintIsFound(list: seq<Parsed>, i: nat, unique: bool)
    requires i < |list| && Declares(list[i], unique)
    requires forall j :: i < j < |list| ==> list[j].title != Some(NameAt(list, i, unique))
    requires HasTitle(list[i]) ==> forall n: nat :: GeneratedName(n) != list[i].title.value
    ensures NameAt(list, i, unique) in Collected(list).constraints
    ensures Collected(list).constraints[NameAt(list, i, unique)] == ConstraintOf(list[i], unique)
  {
    var last := |list| - 1;
    var rest := list[..last];
    assert rest + [list[last]] == list && list[..last] == rest;
    CollectedSnoc(rest, list[last]);
    if i < last {
      NameInPrefix(list, i, unique);
      ConstraintIsFound(rest, i, unique);
      LaterNamesDiffer(rest, i, unique);
      hide GeneratedName, Collected, NameAt;
      BothKeeps(Collected(rest), list[last], NameAt(list, i, unique));
    } else {
      hide GeneratedName, Collected;
      LastIsFound(Collected(rest), list[last], unique);
    }
  }

  /** Nothing else is in the dictionary: every entry is a constraint of some definition, under its title or
      under a generated name with a number that was given out. */
  lemma {:induction false} NothingElseIsFound(list: seq<Parsed>, name: string)
    requires name in Collected(list).constraints
    ensures exists i, unique ::
        && 0 <= i < |list| && Collected(list).constraints[name] == ConstraintOf(list[i], unique)
        && (if unique then list[i].unique != [] else list[i].check != [])
        && name == NameAt(list, i, unique)
  {
    var last := |list| - 1;
    var rest := list[..last];
    assert rest + [list[last]] == list;
    CollectedSnoc(rest, list[last]);
    var d, p := Collected(rest), list[last];
    assert NameAt(list, last, true) == (if HasTitle(p) then p.title.value else GeneratedName(d.unnamed + 1));
    assert NameAt(list, last, false) ==
      if HasTitle(p) then p.title.value else GeneratedName(d.unnamed + if p.unique != [] then 2 else 1);
    hide GeneratedName;
    EntryComesFrom(d, p, name);
    if Both(d, p).constraints[name] == ConstraintOf(p, true) && p.unique != [] && name == NameAt(list, last, true) {
      assert Collected(list).constraints[name] == ConstraintOf(list[last], true);
    } else if
      Both(d, p).constraints[name] == ConstraintOf(p, false) && p.check != [] && name == NameAt(list, last, false)
    {
      assert Collected(list).constraints[name] == ConstraintOf(list[last], false);
    } else {
      NothingElseIsFound(rest, name);
      var i, unique :| 0 <= i < |rest| && Collected(rest).constraints[name] == ConstraintOf(rest[i], unique)
        && (if unique then rest[i].unique != [] else rest[i].check != []) && name == NameAt(rest, i, unique);
      NameInPrefix(list, i, unique);
      assert list[i] == rest[i];
    }
  }

  /** An entry after one more definition: one of its constraints, or an entry from before. */
  lemma EntryComesFrom(d: Dictionary, p: Parsed, name: string)
    requires name in Both(d, p).constraints
    ensures var title := if p.title.Some? then p.title.value else "";
      var value := Both(d, p).constraints[name];
      || (p.unique != [] && value == ConstraintOf(p, true)
          && name == if title != "" then title else GeneratedName(d.unnamed + 1))
      || (p.check != [] && value == ConstraintOf(p, false)
          && name == if title != "" then title else GeneratedName(d.unnamed + if p.unique != [] then 2 else 1))
      || (name in d.constraints && value == d.constraints[name])
  {
    hide GeneratedName;
  }

  /** A definition puts its own constraints under their names. */
  lemma LastIsFound(d: Dictionary, p: Parsed, unique: bool)
    requires Declares(p, unique)
    ensures var number := d.unnamed + if !unique && p.unique != [] then 2 else 1;
      var name := if HasTitle(p) then p.title.value else GeneratedName(number);
      name in Both(d, p).constraints && Both(d, p).constraints[name] == ConstraintOf(p, unique)
  {
    if GeneratedName(d.unnamed + 1) == GeneratedName(d.unnamed + 2) {
      GeneratedNamesDiffer(d.unnamed + 1, d.unnamed + 2);
    }
    hide GeneratedName;
  }

  lemma NameInPrefix(list: seq<Parsed>, i: nat, unique: bool)
    requires i < |list| - 1
    ensures var rest := list[..|list| - 1];
      && rest[i] == list[i] && NameAt(rest, i, unique) == NameAt(list, i, unique)
      && forall j :: 0 <= j < |rest| ==> rest[j] == list[j]
  {
    assert list[..|list| - 1][..i] == list[..i];
  }

  /** The names still to be generated are not the name of an earlier constraint. */
  lemma LaterNamesDiffer(list: seq<Parsed>, i: nat, unique: bool)
    requires i < |list| && Declares(list[i], unique)
    requires HasTitle(list[i]) ==> forall n: nat :: GeneratedName(n) != list[i].title.value
    ensures forall n: nat | Collected(list).unnamed < n :: GeneratedName(n) != NameAt(list, i, unique)
  {
    if !HasTitle(list[i]) {
      NumbersGrow(list, i, unique);
      var k := NumberAt(list, i, unique);
      hide Collected, GeneratedName, NumberAt;
      forall n: nat | k < n
        ensures GeneratedName(n) != GeneratedName(k)
      {
        if GeneratedName(n) == GeneratedName(k) {
          GeneratedNamesDiffer(n, k);
        }
      }
    }
  }

  /** Another definition leaves a name alone that it does not use. */
  lemma BothKeeps(d: Dictionary, p: Parsed, name: string)
    requires name in d.constraints && p.title != Some(name)
    requires forall n: nat :: d.unnamed < n ==> GeneratedName(n) != name
    ensures name in Both(d, p).constraints && Both(d, p).constraints[name] == d.constraints[name]
  {
    hide GeneratedName;
  }
}

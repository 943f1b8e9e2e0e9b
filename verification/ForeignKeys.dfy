/** The manual foreign-key checker. */
module ForeignKeys {
  import opened Outcomes
  import Quoting

  /** Table and column names without regard to ASCII case. */
  type Key = string

  function KeyOf(name: string): Key {
    Quoting.IdentifierKey(name)
  }

  datatype Value = Null | V(n: int)

  type Row = map<Key, Value>

  /** One row of the foreign-key listing: constraint id, position in it, referenced table, referencing
      column, and the referenced column unless it was omitted. */
  datatype FkRow = FkRow(id: int, position: nat, target: string, source: string, to: Option<string>)

  /** `primaryKey` is in key order. `hasRowid`: some alias of the row id is not shadowed by a column. */
  datatype Table = Table(
    columns: set<Key>, primaryKey: seq<string>, hasRowid: bool, foreignKeys: seq<FkRow>, rows: seq<Row>)

  type Database = map<Key, Table>

  /** Comparison by a parent column: its affinity and its collation decide. */
  type Comparison = (Key, Key, int, int) -> bool

  function FksOf(db: Database, table: string): seq<FkRow> {
    if KeyOf(table) in db then db[KeyOf(table)].foreignKeys else []
  }

  function PrimaryKeyOf(db: Database, table: string): seq<string> {
    if KeyOf(table) in db then db[KeyOf(table)].primaryKey else []
  }

  // ----- Reading the listing -----

  function WithId(rows: seq<FkRow>, id: int): seq<FkRow> {
    if rows == [] then []
    else (if rows[0].id == id then [rows[0]] else []) + WithId(rows[1..], id)
  }

  lemma {:induction false} WithIdMembers(rows: seq<FkRow>, id: int)
    ensures forall r :: r in WithId(rows, id) <==> r in rows && r.id == id
  {
    if rows != [] {
      WithIdMembers(rows[1..], id);
      assert rows == [rows[0]] + rows[1..];
    }
  }

  predicate InPositionOrder(rows: seq<FkRow>) {
    forall i, j :: 0 <= i < j < |rows| ==> rows[i].position <= rows[j].position
  }

  /** Insertion behind every row with the same or an earlier position, as a stable sort does. */
  function Insert(r: FkRow, sorted: seq<FkRow>): (s: seq<FkRow>)
    ensures multiset(s) == multiset(sorted) + multiset{r}
  {
    if sorted == [] then [r]
    else if r.position < sorted[0].position then [r] + sorted
    else
      assert sorted == [sorted[0]] + sorted[1..];
      [sorted[0]] + Insert(r, sorted[1..])
  }

  function ByPosition(rows: seq<FkRow>): (s: seq<FkRow>)
    ensures multiset(s) == multiset(rows)
  {
    if rows == [] then []
    else
      assert rows == rows[..|rows| - 1] + [rows[|rows| - 1]];
      Insert(rows[|rows| - 1], ByPosition(rows[..|rows| - 1]))
  }

  lemma {:induction false} InsertKeepsOrder(r: FkRow, sorted: seq<FkRow>)
    requires InPositionOrder(sorted)
    ensures InPositionOrder(Insert(r, sorted))
  {
    if sorted != [] && sorted[0].position <= r.position {
      var rest := Insert(r, sorted[1..]);
      InsertKeepsOrder(r, sorted[1..]);
      InsertMembers(r, sorted[1..]);
      hide Insert;
      assert forall x :: x in rest ==> sorted[0].position <= x.position;
    }
  }

  lemma InsertMembers(r: FkRow, sorted: seq<FkRow>)
    ensures forall x :: x in Insert(r, sorted) <==> x == r || x in sorted
  {
    var s := Insert(r, sorted);
    assert forall x :: x in s <==> x in multiset(s);
    assert forall x :: x in sorted <==> x in multiset(sorted);
  }

  lemma {:induction false} ByPositionIsInOrder(rows: seq<FkRow>)
    ensures InPositionOrder(ByPosition(rows))
  {
    if rows != [] {
      ByPositionIsInOrder(rows[..|rows| - 1]);
      InsertKeepsOrder(rows[|rows| - 1], ByPosition(rows[..|rows| - 1]));
    }
  }

  function Group(rows: seq<FkRow>, id: int): seq<FkRow> {
    ByPosition(WithId(rows, id))
  }

  lemma GroupMembers(rows: seq<FkRow>, id: int)
    ensures forall r :: r in Group(rows, id) <==> r in rows && r.id == id
  {
    WithIdMembers(rows, id);
    var g, s := WithId(rows, id), Group(rows, id);
    assert forall r :: r in s <==> r in multiset(s);
    assert forall r :: r in g <==> r in multiset(g);
  }

  lemma {:induction false} WithIdAppend(rows: seq<FkRow>, r: FkRow, id: int)
    ensures WithId(rows + [r], id) == WithId(rows, id) + (if r.id == id then [r] else [])
  {
    if rows == [] {
      assert rows + [r] == [r];
    } else {
      assert (rows + [r])[1..] == rows[1..] + [r];
      WithIdAppend(rows[1..], r, id);
      var first, last := if rows[0].id == id then [rows[0]] else [], if r.id == id then [r] else [];
      assert first + (WithId(rows[1..], id) + last) == first + WithId(rows[1..], id) + last;
    }
  }

  function GroupAt(groups: map<int, seq<FkRow>>, id: int): seq<FkRow> {
    if id in groups then groups[id] else []
  }

  /** The groups of the first `i` rows of the listing. */
  ghost predicate GroupedSoFar(rows: seq<FkRow>, i: nat, groups: map<int, seq<FkRow>>)
    requires i <= |rows|
  {
    forall id :: WithId(rows[..i], id) == GroupAt(groups, id)
  }

  lemma GroupOneMore(rows: seq<FkRow>, i: nat, groups: map<int, seq<FkRow>>)
    requires i < |rows| && GroupedSoFar(rows, i, groups)
    ensures GroupedSoFar(rows, i + 1, groups[rows[i].id := GroupAt(groups, rows[i].id) + [rows[i]]])
  {
    hide WithId;
    var row := rows[i];
    assert rows[..i + 1] == rows[..i] + [row];
    var prefix, later := rows[..i + 1], groups[row.id := GroupAt(groups, row.id) + [row]];
    forall id
      ensures WithId(prefix, id) == GroupAt(later, id)
    {
      WithIdAppend(rows[..i], row, id);
    }
  }

  /** `_foreign_key_rows`: the listing grouped by constraint, each group in position order. */
  method ForeignKeyRows(rows: seq<FkRow>) returns (ids: seq<int>, groups: map<int, seq<FkRow>>)
    ensures forall id :: id in ids ==>
      && id in groups && groups[id] == Group(rows, id) && groups[id] != []
      && InPositionOrder(groups[id]) && (forall r :: r in groups[id] <==> r in rows && r.id == id)
    ensures forall r :: r in rows ==> r.id in ids
  {
    hide WithId;
    ids := [];
    groups := map[];
    assert GroupedSoFar(rows, 0, groups) by {
      NoRows();
    }
    for i := 0 to |rows|
      invariant GroupedSoFar(rows, i, groups)
      invariant forall id :: id in ids <==> id in groups
      invariant forall id :: id in groups ==> groups[id] != []
    {
      var row := rows[i];
      GroupOneMore(rows, i, groups);
      if row.id !in groups {
        ids := ids + [row.id];
      }
      groups := groups[row.id := GroupAt(groups, row.id) + [row]];
    }
    assert rows[..|rows|] == rows;
    forall r | r in rows
      ensures r.id in groups
    {
      WithIdMembers(rows, r.id);
    }
    groups := SortGroups(groups);
    forall id | id in ids
      ensures forall r :: r in groups[id] <==> r in rows && r.id == id
    {
      GroupMembers(rows, id);
    }
    forall id | id in ids
      ensures InPositionOrder(groups[id])
    {
      ByPositionIsInOrder(WithId(rows, id));
    }
  }

  /** Every group in position order. */
  function SortGroups(groups: map<int, seq<FkRow>>): (sorted: map<int, seq<FkRow>>)
    requires forall id :: id in groups ==> groups[id] != []
    ensures sorted.Keys == groups.Keys
    ensures forall id :: id in groups ==> sorted[id] == ByPosition(groups[id]) && sorted[id] != []
  {
    assert forall id :: id in groups ==> |multiset(groups[id])| > 0;
    map id | id in groups :: ByPosition(groups[id])
  }

  lemma NoRows()
    ensures forall id :: WithId([], id) == []
  {
  }

  // ----- Target columns -----

  predicate Declared(r: FkRow) {
    r.to.Some? && r.to.value != ""
  }

  /** A constraint that names all its target columns, or whose target has a primary key of its width. */
  predicate Resolvable(db: Database, group: seq<FkRow>)
    requires group != []
  {
    || (forall r :: r in group ==> Declared(r))
    || (var key := PrimaryKeyOf(db, group[0].target);
        |key| == |group| && forall r :: r in group ==> r.position < |key|)
  }

  /** The declared target column, or the primary-key column at the row's position. */
  function TargetColumn(db: Database, target: string, r: FkRow): string {
    if Declared(r) then r.to.value
    else if r.position < |PrimaryKeyOf(db, target)| then PrimaryKeyOf(db, target)[r.position]
    else ""
  }

  function TargetColumns(db: Database, target: string, rows: seq<FkRow>): seq<string> {
    seq(|rows|, i requires 0 <= i < |rows| => TargetColumn(db, target, rows[i]))
  }

  method ResolveTargetColumns(db: Database, target: string, rows: seq<FkRow>) returns (columns: Option<seq<string>>)
    requires rows != [] && target == rows[0].target
    ensures columns.Some? <==> Resolvable(db, rows)
    ensures columns.Some? ==> columns.value == TargetColumns(db, target, rows)
  {
    if forall r :: r in rows ==> Declared(r) {
      assert forall k :: 0 <= k < |rows| ==> rows[k] in rows;
      return Some(TargetColumns(db, target, rows));
    }
    var key := PrimaryKeyOf(db, target);
    if |key| != |rows| {
      return None;
    }
    var resolved: seq<string> := [];
    for i := 0 to |rows|
      invariant |resolved| == i
      invariant forall k :: 0 <= k < i ==> rows[k].position < |key| && resolved[k] == TargetColumn(db, target, rows[k])
    {
      if rows[i].position >= |key| {
        assert rows[i] in rows;
        return None;
      }
      resolved := resolved + [if Declared(rows[i]) then rows[i].to.value else key[rows[i].position]];
    }
    columns := Some(resolved);
  }

  // ----- MATCH SIMPLE -----

  function ValueAt(row: Row, column: string): Value {
    if KeyOf(column) in row then row[KeyOf(column)] else Null
  }

  /** One column of a reference: the parent value equals the child value, and neither is NULL. */
  predicate Matches(db: Database, eq: Comparison, target: string, r: FkRow, parent: Row, child: Row) {
    var column := TargetColumn(db, target, r);
    var p, c := ValueAt(parent, column), ValueAt(child, r.source);
    p.V? && c.V? && eq(KeyOf(target), KeyOf(column), p.n, c.n)
  }

  predicate ColumnsExist(db: Database, table: string, target: string, r: FkRow)
    requires KeyOf(table) in db && KeyOf(target) in db
  {
    && KeyOf(r.source) in db[KeyOf(table)].columns
    && KeyOf(TargetColumn(db, target, r)) in db[KeyOf(target)].columns
  }

  /** Everything the check needs to read exists: targets can be resolved, the target table and all
      columns are there, and the referencing rows can be identified. */
  predicate Readable(db: Database, table: string, group: seq<FkRow>)
    requires group != []
  {
    var target := group[0].target;
    && KeyOf(table) in db && KeyOf(target) in db
    && Resolvable(db, group)
    && (db[KeyOf(table)].primaryKey != [] || db[KeyOf(table)].hasRowid)
    && (forall r :: r in group ==> ColumnsExist(db, table, target, r))
  }

  predicate HasNull(group: seq<FkRow>, child: Row) {
    exists r :: r in group && ValueAt(child, r.source).Null?
  }

  predicate IsParent(db: Database, eq: Comparison, group: seq<FkRow>, parent: Row, child: Row)
    requires group != []
  {
    forall r :: r in group ==> Matches(db, eq, group[0].target, r, parent, child)
  }

  /** A referencing row satisfies its constraint when one of its referencing columns is NULL, or when
      some row of the referenced table equals it in every referenced column. */
  predicate RowHolds(db: Database, eq: Comparison, group: seq<FkRow>, child: Row)
    requires group != [] && KeyOf(group[0].target) in db
  {
    var parents := db[KeyOf(group[0].target)].rows;
    HasNull(group, child) || exists k :: 0 <= k < |parents| && IsParent(db, eq, group, parents[k], child)
  }

  predicate ConstraintHolds(db: Database, eq: Comparison, table: string, group: seq<FkRow>)
    requires group != [] && Readable(db, table, group)
  {
    forall k :: 0 <= k < |db[KeyOf(table)].rows| ==> RowHolds(db, eq, group, db[KeyOf(table)].rows[k])
  }

  /** One constraint can be read and holds. */
  ghost predicate Holds(db: Database, eq: Comparison, table: string, id: int) {
    var group := Group(FksOf(db, table), id);
    group != [] && Readable(db, table, group) && ConstraintHolds(db, eq, table, group)
  }

  /** What the database promises: every constraint of the named tables. */
  ghost predicate AllHold(db: Database, eq: Comparison, tables: seq<string>) {
    forall t, r :: t in tables && r in FksOf(db, t) ==> Holds(db, eq, t, r.id)
  }

  /** `tables` names every table of the database. */
  ghost predicate ListsTables(db: Database, tables: seq<string>) {
    forall k :: k in db ==> exists t :: t in tables && KeyOf(t) == k
  }

  /** Every constraint of every table. */
  ghost predicate EveryKeyHolds(db: Database, eq: Comparison) {
    forall t, r :: r in FksOf(db, t) ==> Holds(db, eq, t, r.id)
  }

  /** A constraint does not depend on the spelling of its table. */
  lemma SpellingDoesNotMatter(db: Database, eq: Comparison, t: string, u: string, id: int)
    requires KeyOf(t) == KeyOf(u)
    ensures FksOf(db, t) == FksOf(db, u)
    ensures Holds(db, eq, t, id) <==> Holds(db, eq, u, id)
  {
    hide KeyOf, Group, RowHolds, Resolvable;
  }

  lemma ListedConstraintsHold(db: Database, eq: Comparison, tables: seq<string>)
    requires AllHold(db, eq, tables) && ListsTables(db, tables)
    ensures EveryKeyHolds(db, eq)
  {
    hide Holds, KeyOf;
    forall t, r | r in FksOf(db, t)
      ensures Holds(db, eq, t, r.id)
    {
      var u :| u in tables && KeyOf(u) == KeyOf(t);
      SpellingDoesNotMatter(db, eq, t, u, r.id);
    }
  }

  // ----- The checker -----

  datatype Verdict = Accepted | Violation(table: string, id: int, row: nat) | Unreadable(table: string, id: int)

  /** `Violation` names a row that breaks its constraint, `Unreadable` a constraint that cannot be read. */
  ghost predicate Justified(v: Verdict, db: Database, eq: Comparison) {
    match v
    case Accepted => true
    case Violation(t, id, row) =>
      var group := Group(FksOf(db, t), id);
      && group != [] && Readable(db, t, group)
      && row < |db[KeyOf(t)].rows| && !RowHolds(db, eq, group, db[KeyOf(t)].rows[row])
    case Unreadable(t, id) =>
      var group := Group(FksOf(db, t), id);
      group != [] && !Readable(db, t, group)
  }

  /** The query's join condition for one pair of rows, column by column. */
  method JoinMatches(db: Database, eq: Comparison, columns: seq<string>, group: seq<FkRow>, parent: Row, child: Row)
    returns (found: bool)
    requires group != [] && columns == TargetColumns(db, group[0].target, group)
    ensures found <==> IsParent(db, eq, group, parent, child)
  {
    var target := group[0].target;
    for i := 0 to |group|
      invariant forall k :: 0 <= k < i ==> Matches(db, eq, target, group[k], parent, child)
    {
      var p, c := ValueAt(parent, columns[i]), ValueAt(child, group[i].source);
      if !(p.V? && c.V? && eq(KeyOf(target), KeyOf(columns[i]), p.n, c.n)) {
        assert group[i] in group && !Matches(db, eq, target, group[i], parent, child);
        return false;
      }
    }
    found := true;
  }

  /** The query's answer for one referencing row: no NULL among its source columns, and no parent. */
  method IsOrphan(db: Database, eq: Comparison, columns: seq<string>, group: seq<FkRow>, child: Row)
    returns (orphan: bool)
    requires group != [] && KeyOf(group[0].target) in db && columns == TargetColumns(db, group[0].target, group)
    ensures orphan <==> !RowHolds(db, eq, group, child)
  {
    hide HasNull, IsParent, TargetColumns, KeyOf;
    if HasNull(group, child) {
      return false;
    }
    var parents := db[KeyOf(group[0].target)].rows;
    for i := 0 to |parents|
      invariant forall j :: 0 <= j < i ==> !IsParent(db, eq, group, parents[j], child)
    {
      var found := JoinMatches(db, eq, columns, group, parents[i], child);
      if found {
        return false;
      }
    }
    orphan := true;
  }

  /** `_check_foreign_key` for one constraint. */
  method CheckForeignKey(db: Database, eq: Comparison, table: string, id: int, group: seq<FkRow>) returns (v: Verdict)
    requires group != [] && group == Group(FksOf(db, table), id)
    ensures Justified(v, db, eq)
    ensures v.Accepted? <==> Holds(db, eq, table, id)
  {
    hide Group, KeyOf, TargetColumns, Resolvable, ColumnsExist, HasNull, IsParent;
    var target := group[0].target;
    var columns := ResolveTargetColumns(db, target, group);
    if columns.None? || !Readable(db, table, group) {
      return Unreadable(table, id);
    }
    var children := db[KeyOf(table)].rows;
    for i := 0 to |children|
      invariant forall k :: 0 <= k < i ==> RowHolds(db, eq, group, children[k])
    {
      var orphan := IsOrphan(db, eq, columns.value, group, children[i]);
      if orphan {
        return Violation(table, id, i);
      }
    }
    v := Accepted;
  }

  /** `check_constraints`: the verdict is acceptance exactly when every constraint of every named table
      can be read and holds under MATCH SIMPLE; otherwise the verdict names a constraint or a row that
      fails. */
  method CheckConstraints(db: Database, eq: Comparison, tables: seq<string>) returns (v: Verdict)
    ensures v.Accepted? <==> AllHold(db, eq, tables)
    ensures Justified(v, db, eq)
  {
    hide Holds, FksOf, Group;
    for i := 0 to |tables|
      invariant AllHold(db, eq, tables[..i])
    {
      var table := tables[i];
      var ids, groups := ForeignKeyRows(FksOf(db, table));
      for j := 0 to |ids|
        invariant forall k :: 0 <= k < j ==> Holds(db, eq, table, ids[k])
      {
        assert ids[j] in ids;
        v := CheckForeignKey(db, eq, table, ids[j], groups[ids[j]]);
        if !v.Accepted? {
          assert !AllHold(db, eq, tables) by {
            FailingConstraint(db, eq, tables, table, ids[j]);
          }
          return;
        }
      }
      assert tables[..i + 1] == tables[..i] + [table];
      assert forall r :: r in FksOf(db, table) ==> Holds(db, eq, table, r.id);
    }
    assert tables[..|tables|] == tables;
    v := Accepted;
  }

  lemma FailingConstraint(db: Database, eq: Comparison, tables: seq<string>, table: string, id: int)
    requires table in tables && !Holds(db, eq, table, id) && Group(FksOf(db, table), id) != []
    ensures !AllHold(db, eq, tables)
  {
    var g := Group(FksOf(db, table), id);
    GroupMembers(FksOf(db, table), id);
    assert g[0] in g && g[0].id == id;
  }
}

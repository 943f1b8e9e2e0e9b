/** What the checker's predicates come to, in terms of rows and columns alone. */
module MatchSimple {
  import opened Outcomes
  import opened AsciiCase
  import Quoting
  import opened ForeignKeys

  /** The value of a column whose name matches up to case. */
  predicate HasValue(row: Row, column: string, n: int) {
    KeyOf(column) in row && row[KeyOf(column)] == V(n)
  }

  ghost predicate NoValue(row: Row, column: string) {
    forall n :: !HasValue(row, column, n)
  }

  /** Some source column has no value. */
  ghost predicate SomeNull(sources: seq<string>, child: Row) {
    exists i :: 0 <= i < |sources| && NoValue(child, sources[i])
  }

  /** Both rows have values in this pair of columns, and the parent column compares them as equal. */
  ghost predicate EqualAt(
      eq: Comparison, target: string, source: string, column: string, parent: Row, child: Row)
  {
    exists p, c ::
      HasValue(parent, column, p) && HasValue(child, source, c) && eq(KeyOf(target), KeyOf(column), p, c)
  }

  /** The rows are equal in every pair of columns. */
  ghost predicate AllEqual(
      eq: Comparison, target: string, sources: seq<string>, targets: seq<string>, parent: Row, child: Row)
    requires |sources| == |targets|
  {
    forall i :: 0 <= i < |sources| ==> EqualAt(eq, target, sources[i], targets[i], parent, child)
  }

  /** The constraint names its target columns, or it leaves some of them out and the primary key of the target has
      as many columns as the constraint; then the column at the constraint's own position counts. */
  ghost predicate TargetsAre(group: seq<FkRow>, key: seq<string>, targets: seq<string>) {
    && |targets| == |group|
    && forall i :: 0 <= i < |group| ==>
         if group[i].to.Some? && group[i].to.value != "" then targets[i] == group[i].to.value
         else |key| == |group| && group[i].position < |key| && targets[i] == key[group[i].position]
  }

  function Sources(group: seq<FkRow>): seq<string> {
    seq(|group|, i requires 0 <= i < |group| => group[i].source)
  }

  lemma ResolvedTargets(db: Database, group: seq<FkRow>) returns (targets: seq<string>)
    requires group != [] && Resolvable(db, group)
    ensures targets == TargetColumns(db, group[0].target, group)
    ensures TargetsAre(group, PrimaryKeyOf(db, group[0].target), targets)
  {
    hide KeyOf;
    targets := TargetColumns(db, group[0].target, group);
    assert forall i :: 0 <= i < |group| ==> group[i] in group;
  }

  lemma ValueIs(row: Row, column: string)
    ensures ValueAt(row, column).Null? <==> NoValue(row, column)
    ensures forall n :: ValueAt(row, column) == V(n) <==> HasValue(row, column, n)
  {
    hide KeyOf;
    if ValueAt(row, column).V? {
      assert HasValue(row, column, ValueAt(row, column).n);
    }
  }

  lemma NullIs(group: seq<FkRow>, child: Row)
    ensures HasNull(group, child) <==> SomeNull(Sources(group), child)
  {
    hide KeyOf, NoValue, ValueAt;
    if HasNull(group, child) {
      var r :| r in group && ValueAt(child, r.source).Null?;
      var i :| 0 <= i < |group| && group[i] == r;
      ValueIs(child, r.source);
      assert NoValue(child, Sources(group)[i]);
    }
    if SomeNull(Sources(group), child) {
      var i :| 0 <= i < |group| && NoValue(child, Sources(group)[i]);
      ValueIs(child, group[i].source);
      assert group[i] in group;
    }
  }

  lemma PairIs(db: Database, eq: Comparison, target: string, r: FkRow, parent: Row, child: Row)
    ensures Matches(db, eq, target, r, parent, child) <==>
        EqualAt(eq, target, r.source, TargetColumn(db, target, r), parent, child)
  {
    ValueIs(parent, TargetColumn(db, target, r));
    ValueIs(child, r.source);
    hide KeyOf, TargetColumn, HasValue, ValueAt;
  }

  lemma ParentIs(db: Database, eq: Comparison, group: seq<FkRow>, targets: seq<string>, parent: Row, child: Row)
    requires group != [] && targets == TargetColumns(db, group[0].target, group)
    ensures IsParent(db, eq, group, parent, child) <==>
        AllEqual(eq, group[0].target, Sources(group), targets, parent, child)
  {
    hide KeyOf, TargetColumn, Matches, EqualAt;
    var target := group[0].target;
    forall i | 0 <= i < |group|
      ensures Matches(db, eq, target, group[i], parent, child) <==>
        EqualAt(eq, target, Sources(group)[i], targets[i], parent, child)
    {
      PairIs(db, eq, target, group[i], parent, child);
    }
    if IsParent(db, eq, group, parent, child) {
      assert forall i :: 0 <= i < |group| ==> group[i] in group;
    } else {
      var r :| r in group && !Matches(db, eq, target, r, parent, child);
      var i :| 0 <= i < |group| && group[i] == r;
      assert !EqualAt(eq, target, Sources(group)[i], targets[i], parent, child);
    }
  }

  /** MATCH SIMPLE, spelled out. A constraint that can be read holds exactly when every row of its table has a
      source column without a value or finds a row of the target table that equals it in all columns. */
  lemma HoldsSpelledOut(db: Database, eq: Comparison, table: string, group: seq<FkRow>)
      returns (targets: seq<string>)
    requires group != [] && Readable(db, table, group)
    ensures TargetsAre(group, PrimaryKeyOf(db, group[0].target), targets)
    ensures ConstraintHolds(db, eq, table, group) <==>
        var children, parents := db[KeyOf(table)].rows, db[KeyOf(group[0].target)].rows;
        forall k :: 0 <= k < |children| ==>
          || SomeNull(Sources(group), children[k])
          || exists j :: 0 <= j < |parents|
               && AllEqual(eq, group[0].target, Sources(group), targets, parents[j], children[k])
  {
    hide KeyOf, SomeNull, AllEqual, HasNull, IsParent, TargetsAre, Resolvable, ColumnsExist;
    targets := ResolvedTargets(db, group);
    var children, parents := db[KeyOf(table)].rows, db[KeyOf(group[0].target)].rows;
    forall k | 0 <= k < |children|
      ensures RowHolds(db, eq, group, children[k]) <==>
        || SomeNull(Sources(group), children[k])
        || exists j :: 0 <= j < |parents|
             && AllEqual(eq, group[0].target, Sources(group), targets, parents[j], children[k])
    {
      RowSpelledOut(db, eq, group, targets, children[k]);
    }
  }

  lemma RowSpelledOut(db: Database, eq: Comparison, group: seq<FkRow>, targets: seq<string>, child: Row)
    requires group != [] && KeyOf(group[0].target) in db && targets == TargetColumns(db, group[0].target, group)
    ensures var parents := db[KeyOf(group[0].target)].rows;
      RowHolds(db, eq, group, child) <==>
        || SomeNull(Sources(group), child)
        || exists j :: 0 <= j < |parents|
             && AllEqual(eq, group[0].target, Sources(group), targets, parents[j], child)
  {
    assert |targets| == |Sources(group)|;
    hide KeyOf, SomeNull, AllEqual, HasNull, IsParent, TargetColumns;
    NullIs(group, child);
    var parents := db[KeyOf(group[0].target)].rows;
    forall j | 0 <= j < |parents|
      ensures IsParent(db, eq, group, parents[j], child) <==>
        AllEqual(eq, group[0].target, Sources(group), targets, parents[j], child)
    {
      ParentIs(db, eq, group, targets, parents[j], child);
    }
  }

  /** What must exist for a constraint to be read: both tables, all their columns, the target columns, and a way
      to name the rows of the referring table. */
  lemma ReadableSpelledOut(db: Database, table: string, group: seq<FkRow>)
    requires group != []
    ensures Readable(db, table, group) <==>
      && KeyOf(table) in db && KeyOf(group[0].target) in db
      && (db[KeyOf(table)].primaryKey != [] || db[KeyOf(table)].hasRowid)
      && exists targets ::
           && ((forall i :: 0 <= i < |group| ==> group[i].to.Some? && group[i].to.value != "")
               || (|db[KeyOf(group[0].target)].primaryKey| == |group|
                   && forall i :: 0 <= i < |group| ==> group[i].position < |group|))
           && TargetsAre(group, db[KeyOf(group[0].target)].primaryKey, targets)
           && forall i :: 0 <= i < |group| ==>
                KeyOf(group[i].source) in db[KeyOf(table)].columns
                && KeyOf(targets[i]) in db[KeyOf(group[0].target)].columns
  {
    hide KeyOf;
    if KeyOf(table) in db && KeyOf(group[0].target) in db {
      var target := group[0].target;
      assert forall i :: 0 <= i < |group| ==> group[i] in group;
      if Readable(db, table, group) {
        var targets := ResolvedTargets(db, group);
      }
    }
  }
}

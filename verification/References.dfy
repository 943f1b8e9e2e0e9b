/** The reverse-reference graph of the tables, and the flush that follows it. */
module References {
  import opened ForeignKeys

  // ----- Names -----

  /** The catalogue's names by key. */
  function NamesOf(tables: seq<string>): map<Key, string> {
    if tables == [] then map[]
    else NamesOf(tables[..|tables| - 1])[KeyOf(tables[|tables| - 1]) := tables[|tables| - 1]]
  }

  /** The catalogue's spelling of a name, or the name itself when there is no such table. */
  function Canonical(tables: seq<string>, name: string): string {
    var names := NamesOf(tables);
    if KeyOf(name) in names then names[KeyOf(name)] else name
  }

  /** Table names differ even without regard to case. */
  ghost predicate DistinctNames(tables: seq<string>) {
    forall i, j :: 0 <= i < j < |tables| ==> KeyOf(tables[i]) != KeyOf(tables[j])
  }

  lemma {:induction false} NamesAreListed(tables: seq<string>, k: Key)
    ensures k in NamesOf(tables) <==> exists t :: t in tables && KeyOf(t) == k
    ensures k in NamesOf(tables) ==> NamesOf(tables)[k] in tables && KeyOf(NamesOf(tables)[k]) == k
  {
    if tables != [] {
      var rest, last := tables[..|tables| - 1], tables[|tables| - 1];
      assert tables == rest + [last];
      NamesAreListed(rest, k);
    }
  }

  lemma ListedIsCanonical(tables: seq<string>, t: string)
    requires DistinctNames(tables) && t in tables
    ensures Canonical(tables, t) == t
  {
    NamesAreListed(tables, KeyOf(t));
  }

  /** One of the foreign-key rows points at `parent`, up to case. */
  ghost predicate PointsAt(tables: seq<string>, rows: seq<FkRow>, parent: string) {
    exists r :: r in rows && Canonical(tables, r.target) == parent
  }

  /** `child` holds a foreign key that points at `parent`. */
  ghost predicate Refers(db: Database, tables: seq<string>, child: string, parent: string) {
    child in tables && PointsAt(tables, FksOf(db, child), parent)
  }

  /** A chain of references that ends at `to`. */
  ghost predicate IsChain(db: Database, tables: seq<string>, chain: seq<string>, to: string) {
    && chain != [] && chain[|chain| - 1] == to
    && forall i :: 0 <= i < |chain| - 1 ==> Refers(db, tables, chain[i], chain[i + 1])
  }

  ghost predicate Reaches(db: Database, tables: seq<string>, table: string, to: string) {
    exists chain :: IsChain(db, tables, chain, to) && chain[0] == table
  }

  // ----- Sorting -----

  /** Strings in code-point order. */
  predicate Leq(a: string, b: string) {
    a == "" || (b != "" && (a[0] < b[0] || (a[0] == b[0] && Leq(a[1..], b[1..]))))
  }

  /** The order: a prefix comes first, and otherwise the first difference decides. */
  lemma {:induction false} FirstDifferenceDecides(same: string, a: string, b: string)
    requires a == "" || b == "" || a[0] != b[0]
    ensures Leq(same + a, same + b) <==> a == "" || (b != "" && a[0] < b[0])
  {
    if same == "" {
      assert same + a == a && same + b == b;
    } else {
      assert (same + a)[1..] == same[1..] + a && (same + b)[1..] == same[1..] + b;
      FirstDifferenceDecides(same[1..], a, b);
    }
  }

  lemma {:induction false} LeqTotal(a: string, b: string)
    ensures Leq(a, b) || Leq(b, a)
  {
    if a != "" && b != "" {
      LeqTotal(a[1..], b[1..]);
    }
  }

  lemma {:induction false} LeqTransitive(a: string, b: string, c: string)
    requires Leq(a, b) && Leq(b, c)
    ensures Leq(a, c)
  {
    if a != "" && a[0] == b[0] && b[0] == c[0] {
      LeqTransitive(a[1..], b[1..], c[1..]);
    }
  }

  lemma {:induction false} LargestExists(s: set<string>)
    requires s != {}
    ensures exists m :: m in s && forall x :: x in s ==> Leq(x, m)
    decreases |s|
  {
    var a :| a in s;
    LeqTotal(a, a);
    var rest := s - {a};
    if rest == {} {
      assert s == {a};
    } else {
      LargestExists(rest);
      var m :| m in rest && forall x :: x in rest ==> Leq(x, m);
      LeqTotal(a, m);
      if Leq(m, a) {
        forall x | x in s
          ensures Leq(x, a)
        {
          if x != a {
            LeqTransitive(x, m, a);
          }
        }
        assert a in s;
      } else {
        assert m in s && forall x :: x in s ==> x == a || x in rest;
      }
    }
  }

  /** `sorted(s, reverse=True)`. */
  method SortedDescending(s: set<string>) returns (sorted: seq<string>)
    ensures forall x :: x in sorted <==> x in s
    ensures forall i, j :: 0 <= i < j < |sorted| ==> Leq(sorted[j], sorted[i]) && sorted[i] != sorted[j]
  {
    sorted := [];
    var rest := s;
    while rest != {}
      invariant rest <= s
      invariant forall x :: x in sorted <==> x in s - rest
      invariant forall i, x :: 0 <= i < |sorted| && x in rest ==> Leq(x, sorted[i])
      invariant forall i, j :: 0 <= i < j < |sorted| ==> Leq(sorted[j], sorted[i]) && sorted[i] != sorted[j]
      decreases rest
    {
      LargestExists(rest);
      var largest :| largest in rest && forall x :: x in rest ==> Leq(x, largest);
      assert largest !in sorted;
      sorted := sorted + [largest];
      rest := rest - {largest};
    }
  }

  // ----- The worklist -----

  type Graph = map<string, set<string>>

  function Referring(g: Graph, table: string): set<string> {
    if table in g then g[table] else {}
  }

  /** The graph after the foreign keys `rows` of `child` were added to `before`. */
  ghost predicate Added(tables: seq<string>, before: Graph, after: Graph, child: string, rows: seq<FkRow>) {
    forall parent, c :: c in Referring(after, parent) <==>
      c in Referring(before, parent) || (c == child && PointsAt(tables, rows, parent))
  }

  method AddReferences(tables: seq<string>, names: map<Key, string>, before: Graph, child: string, rows: seq<FkRow>)
    returns (after: Graph)
    requires names == NamesOf(tables)
    ensures Added(tables, before, after, child, rows)
  {
    hide Added;
    after := before;
    assert Added(tables, before, after, child, rows[..0]) by {
      NothingAdded(tables, before, child);
    }
    for j := 0 to |rows|
      invariant Added(tables, before, after, child, rows[..j])
    {
      var target := rows[j].target;
      var referenced := if KeyOf(target) in names then names[KeyOf(target)] else target;
      assert rows[..j + 1] == rows[..j] + [rows[j]];
      AddedOneMore(tables, before, after, child, rows[..j], rows[j]);
      after := after[referenced := Referring(after, referenced) + {child}];
    }
    assert rows[..|rows|] == rows;
  }

  lemma NothingAdded(tables: seq<string>, before: Graph, child: string)
    ensures Added(tables, before, before, child, [])
  {
    hide Canonical;
  }

  lemma AddedOneMore(tables: seq<string>, before: Graph, g: Graph, child: string, rows: seq<FkRow>, r: FkRow)
    requires Added(tables, before, g, child, rows)
    ensures var parent := Canonical(tables, r.target);
      Added(tables, before, g[parent := Referring(g, parent) + {child}], child, rows + [r])
  {
    hide Canonical, PointsAt;
    var referenced := Canonical(tables, r.target);
    var g' := g[referenced := Referring(g, referenced) + {child}];
    forall parent, c
      ensures c in Referring(g', parent) <==>
        c in Referring(before, parent) || (c == child && PointsAt(tables, rows + [r], parent))
    {
      PointsAtOneMore(tables, rows, r, parent);
    }
  }

  lemma PointsAtOneMore(tables: seq<string>, rows: seq<FkRow>, r: FkRow, parent: string)
    ensures PointsAt(tables, rows + [r], parent) <==>
        PointsAt(tables, rows, parent) || Canonical(tables, r.target) == parent
  {
    hide Canonical;
    if Canonical(tables, r.target) == parent {
      assert r in rows + [r];
    }
    if PointsAt(tables, rows, parent) {
      var q :| q in rows && Canonical(tables, q.target) == parent;
      assert q in rows + [r];
    }
  }

  ghost predicate GraphOf(db: Database, tables: seq<string>, listed: seq<string>, g: Graph) {
    forall parent, child :: child in Referring(g, parent) <==>
      child in listed && PointsAt(tables, FksOf(db, child), parent)
  }

  method BuildGraph(db: Database, tables: seq<string>) returns (names: map<Key, string>, referencing: Graph)
    ensures names == NamesOf(tables)
    ensures GraphOf(db, tables, tables, referencing)
  {
    names := map[];
    for i := 0 to |tables|
      invariant names == NamesOf(tables[..i])
    {
      assert tables[..i + 1][..i] == tables[..i];
      names := names[KeyOf(tables[i]) := tables[i]];
    }
    assert tables[..|tables|] == tables;
    hide NamesOf, KeyOf, PointsAt, FksOf;
    referencing := map[];
    for i := 0 to |tables|
      invariant GraphOf(db, tables, tables[..i], referencing)
    {
      assert tables[..i + 1] == tables[..i] + [tables[i]];
      referencing := AddReferences(tables, names, referencing, tables[i], FksOf(db, tables[i]));
    }
  }

  /** `_references_graph_for_table`: the start first, then every table that reaches it, each once. It
      ends on cyclic graphs too, since every round either drops a pending entry or visits a new table. */
  method ReferencesGraph(db: Database, tables: seq<string>, table: string) returns (result: seq<string>)
    ensures result != [] && result[0] == Canonical(tables, table)
    ensures forall i, j :: 0 <= i < j < |result| ==> result[i] != result[j]
    ensures forall t :: t in result <==> Reaches(db, tables, t, Canonical(tables, table))
  {
    hide Canonical, Reaches, Refers, IsChain, Explored, GraphOf;
    var names, referencing := BuildGraph(db, tables);
    var start := if KeyOf(table) in names then names[KeyOf(table)] else table;
    assert start == Canonical(tables, table) by {
      StartIsCanonical(tables, table);
    }
    ghost var universe := (set t | t in tables) + {start};
    result := [];
    var pending := [start];
    var seen: set<string> := {};
    StartReachesItself(db, tables, start);
    NothingExplored(db, tables, pending);
    while pending != []
      invariant forall t :: t in result <==> t in seen
      invariant forall i, j :: 0 <= i < j < |result| ==> result[i] != result[j]
      invariant if result == [] then pending == [start] else result[0] == start
      invariant forall t :: t in pending ==> t in universe
      invariant forall t :: t in seen || t in pending ==> Reaches(db, tables, t, start)
      invariant Explored(db, tables, seen, pending)
      decreases universe - seen, |pending|
    {
      var current := pending[|pending| - 1];
      ghost var was := pending;
      pending := pending[..|pending| - 1];
      assert was == pending + [current];
      if current in seen {
        NothingNew(db, tables, seen, was, current, pending);
        continue;
      }
      var more := SortedDescending(Referring(referencing, current));
      forall child
        ensures child in more <==> Refers(db, tables, child, current)
      {
        ReferringIsRefers(db, tables, referencing, child, current);
      }
      forall child | child in more
        ensures Reaches(db, tables, child, start) && child in universe
      {
        ReachesThrough(db, tables, child, current, start);
        ReferrersAreTables(db, tables, child, current);
      }
      VisitOne(db, tables, seen, was, current, pending, more);
      assert current in universe - seen && current !in universe - (seen + {current});
      seen := seen + {current};
      result := result + [current];
      pending := pending + more;
    }
    forall t | Reaches(db, tables, t, start)
      ensures t in seen
    {
      ReachingIsSeen(db, tables, t, start, seen);
    }
  }

  /** Every table that refers to a seen one is seen or pending. */
  ghost predicate Explored(db: Database, tables: seq<string>, seen: set<string>, pending: seq<string>) {
    forall t, child :: t in seen && Refers(db, tables, child, t) ==> child in seen || child in pending
  }

  lemma NothingExplored(db: Database, tables: seq<string>, pending: seq<string>)
    ensures Explored(db, tables, {}, pending)
  {
  }

  lemma NothingNew(
      db: Database, tables: seq<string>, seen: set<string>, was: seq<string>, current: string, pending: seq<string>)
    requires Explored(db, tables, seen, was) && was == pending + [current] && current in seen
    ensures Explored(db, tables, seen, pending)
  {
    hide Refers;
  }

  lemma VisitOne(
      db: Database, tables: seq<string>, seen: set<string>, was: seq<string>, current: string, pending: seq<string>,
      more: seq<string>)
    requires Explored(db, tables, seen, was) && was == pending + [current]
    requires forall child :: child in more <==> Refers(db, tables, child, current)
    ensures Explored(db, tables, seen + {current}, pending + more)
  {
    hide Refers;
  }

  lemma StartIsCanonical(tables: seq<string>, table: string)
    ensures Canonical(tables, table) ==
      (if KeyOf(table) in NamesOf(tables) then NamesOf(tables)[KeyOf(table)] else table)
  {
  }

  lemma ReferringIsRefers(db: Database, tables: seq<string>, g: Graph, child: string, parent: string)
    requires GraphOf(db, tables, tables, g)
    ensures child in Referring(g, parent) <==> Refers(db, tables, child, parent)
  {
  }

  lemma ReferrersAreTables(db: Database, tables: seq<string>, child: string, parent: string)
    requires Refers(db, tables, child, parent)
    ensures child in tables
  {
  }

  lemma ReachingIsSeen(db: Database, tables: seq<string>, t: string, to: string, seen: set<string>)
    requires Reaches(db, tables, t, to) && to in seen && Explored(db, tables, seen, [])
    ensures t in seen
  {
    var chain :| IsChain(db, tables, chain, to) && chain[0] == t;
    ChainIsSeen(db, tables, chain, to, seen);
  }

  lemma StartReachesItself(db: Database, tables: seq<string>, start: string)
    ensures Reaches(db, tables, start, start)
  {
    assert IsChain(db, tables, [start], start);
  }

  lemma ReachesThrough(db: Database, tables: seq<string>, child: string, parent: string, to: string)
    requires Refers(db, tables, child, parent) && Reaches(db, tables, parent, to)
    ensures Reaches(db, tables, child, to)
  {
    var chain :| IsChain(db, tables, chain, to) && chain[0] == parent;
    var longer := [child] + chain;
    assert forall i :: 0 < i < |longer| ==> longer[i] == chain[i - 1];
    assert IsChain(db, tables, longer, to);
  }

  /** A set with the start that is closed under referring tables holds every table of a chain. */
  lemma {:induction false} ChainIsSeen(
      db: Database, tables: seq<string>, chain: seq<string>, to: string, seen: set<string>)
    requires IsChain(db, tables, chain, to) && to in seen
    requires Explored(db, tables, seen, [])
    ensures chain[0] in seen
  {
    hide Refers;
    if |chain| > 1 {
      var rest := chain[1..];
      assert forall i :: 0 <= i < |rest| ==> rest[i] == chain[i + 1];
      ChainIsSeen(db, tables, rest, to, seen);
    }
  }

  // ----- Flushing -----

  /** The tables that a flush empties. */
  method FlushTargets(db: Database, tables: seq<string>, requested: seq<string>, allowCascade: bool)
      returns (targets: set<string>)
    ensures !allowCascade ==> targets == set t | t in requested
    ensures allowCascade ==> forall t :: t in targets <==> ReachesOne(db, tables, t, requested)
  {
    targets := set t | t in requested;
    if allowCascade {
      hide Reaches, Canonical;
      targets := {};
      for i := 0 to |requested|
        invariant forall t :: t in targets <==> ReachesOne(db, tables, t, requested[..i])
      {
        var graph := ReferencesGraph(db, tables, requested[i]);
        assert requested[..i + 1] == requested[..i] + [requested[i]];
        targets := targets + set t | t in graph;
      }
      assert requested[..|requested|] == requested;
    }
  }

  /** `t` reaches one of the requested tables. */
  ghost predicate ReachesOne(db: Database, tables: seq<string>, t: string, requested: seq<string>) {
    exists q :: q in requested && Reaches(db, tables, t, Canonical(tables, q))
  }

  /** The database after one DELETE for each target. */
  function Flushed(db: Database, targets: set<string>): Database {
    map k | k in db :: if exists t :: t in targets && KeyOf(t) == k then db[k].(rows := []) else db[k]
  }

  /** The catalogue lists every table of the database. */
  ghost predicate Catalogue(db: Database, tables: seq<string>) {
    DistinctNames(tables) && forall k :: k in db ==> exists t :: t in tables && KeyOf(t) == k
  }

  /** Targets in catalogue spelling that are closed under referring tables. */
  ghost predicate ClosedTargets(db: Database, tables: seq<string>, targets: set<string>) {
    && (forall t :: t in targets ==> Canonical(tables, t) == t)
    && (forall t, child :: t in targets && Refers(db, tables, child, t) ==> child in targets)
  }

  lemma TargetsAreClosed(db: Database, tables: seq<string>, requested: seq<string>, targets: set<string>)
    requires DistinctNames(tables)
    requires forall t :: t in targets <==> ReachesOne(db, tables, t, requested)
    ensures ClosedTargets(db, tables, targets)
  {
    hide Refers;
    forall t | t in targets
      ensures Canonical(tables, t) == t
    {
      var q :| q in requested && Reaches(db, tables, t, Canonical(tables, q));
      ReachingIsCanonical(db, tables, t, q);
    }
    hide Canonical;
    forall t, child | t in targets && Refers(db, tables, child, t)
      ensures child in targets
    {
      var q :| q in requested && Reaches(db, tables, t, Canonical(tables, q));
      ReachesThrough(db, tables, child, t, Canonical(tables, q));
    }
  }

  lemma ReachingIsCanonical(db: Database, tables: seq<string>, t: string, q: string)
    requires DistinctNames(tables) && Reaches(db, tables, t, Canonical(tables, q))
    ensures Canonical(tables, t) == t
  {
    var to := Canonical(tables, q);
    var chain :| IsChain(db, tables, chain, to) && chain[0] == t;
    if |chain| > 1 {
      assert Refers(db, tables, chain[0], chain[1]);
      ListedIsCanonical(tables, t);
    } else {
      NamesAreListed(tables, KeyOf(q));
      NamesAreListed(tables, KeyOf(t));
    }
  }

  /** A table whose rows stay never refers to a table that is emptied. */
  lemma {:induction false} KeptTablesReferToKept(
      db: Database, tables: seq<string>, targets: set<string>, t: string, r: FkRow)
    requires Catalogue(db, tables) && ClosedTargets(db, tables, targets)
    requires t in tables && r in FksOf(db, t) && KeyOf(r.target) in db
    requires Flushed(db, targets)[KeyOf(r.target)] != db[KeyOf(r.target)]
    ensures t in targets
  {
    var d :| d in targets && KeyOf(d) == KeyOf(r.target);
    NamesAreListed(tables, KeyOf(d));
    assert Canonical(tables, r.target) == Canonical(tables, d) == d;
    assert PointsAt(tables, FksOf(db, t), d);
  }

  /** A flush with cascade keeps every foreign key of a database valid, cyclic references included. */
  lemma FlushKeepsForeignKeys(db: Database, eq: Comparison, tables: seq<string>, targets: set<string>)
    requires Catalogue(db, tables) && ClosedTargets(db, tables, targets)
    requires AllHold(db, eq, tables)
    ensures AllHold(Flushed(db, targets), eq, tables)
  {
    var db' := Flushed(db, targets);
    hide Holds, Flushed, FksOf;
    forall t, r | t in tables && r in FksOf(db', t)
      ensures Holds(db', eq, t, r.id)
    {
      SchemaUnchanged(db, targets, t);
      assert Holds(db, eq, t, r.id);
      ConstraintSurvives(db, eq, tables, targets, t, r.id);
    }
  }

  lemma SchemaUnchanged(db: Database, targets: set<string>, name: string)
    ensures FksOf(Flushed(db, targets), name) == FksOf(db, name)
    ensures PrimaryKeyOf(Flushed(db, targets), name) == PrimaryKeyOf(db, name)
    ensures var db' := Flushed(db, targets); var k := KeyOf(name);
      (k in db' <==> k in db) && (k in db ==> db'[k] == db[k].(rows := db'[k].rows))
  {
  }

  lemma {:induction false} ConstraintSurvives(
      db: Database, eq: Comparison, tables: seq<string>, targets: set<string>, t: string, id: int)
    requires Catalogue(db, tables) && ClosedTargets(db, tables, targets)
    requires t in tables && Holds(db, eq, t, id)
    ensures Holds(Flushed(db, targets), eq, t, id)
  {
    var db' := Flushed(db, targets);
    var group := Group(FksOf(db, t), id);
    var target := group[0].target;
    SchemaUnchanged(db, targets, t);
    SchemaUnchanged(db, targets, target);
    assert Readable(db', t, group);
    if db'[KeyOf(t)].rows != [] {
      assert db'[KeyOf(t)].rows == db[KeyOf(t)].rows;
      assert db'[KeyOf(target)] == db[KeyOf(target)] by {
        if db'[KeyOf(target)] != db[KeyOf(target)] {
          GroupMembers(FksOf(db, t), id);
          assert group[0] in group;
          KeptTablesReferToKept(db, tables, targets, t, group[0]);
        }
      }
      forall k | 0 <= k < |db[KeyOf(t)].rows|
        ensures RowHolds(db', eq, group, db[KeyOf(t)].rows[k])
      {
        RowSurvives(db, db', eq, group, db[KeyOf(t)].rows[k]);
      }
    }
  }

  lemma RowSurvives(db: Database, db': Database, eq: Comparison, group: seq<FkRow>, child: Row)
    requires group != []
    requires KeyOf(group[0].target) in db && KeyOf(group[0].target) in db'
    requires db'[KeyOf(group[0].target)] == db[KeyOf(group[0].target)]
    requires RowHolds(db, eq, group, child)
    ensures RowHolds(db', eq, group, child)
  {
    var parents := db[KeyOf(group[0].target)].rows;
    if !HasNull(group, child) {
      var k :| 0 <= k < |parents| && IsParent(db, eq, group, parents[k], child);
      assert IsParent(db', eq, group, parents[k], child);
    }
  }

  /** The whole flush: emptying the tables that a cascade selects leaves a valid database valid. */
  lemma CascadeKeepsForeignKeys(
      db: Database, eq: Comparison, tables: seq<string>, requested: seq<string>, targets: set<string>)
    requires Catalogue(db, tables) && AllHold(db, eq, tables)
    requires forall t :: t in targets <==> ReachesOne(db, tables, t, requested)
    ensures AllHold(Flushed(db, targets), eq, tables)
    ensures forall q :: q in requested && KeyOf(q) in db ==> Flushed(db, targets)[KeyOf(q)].rows == []
  {
    TargetsAreClosed(db, tables, requested, targets);
    FlushKeepsForeignKeys(db, eq, tables, targets);
    forall q | q in requested && KeyOf(q) in db
      ensures Flushed(db, targets)[KeyOf(q)].rows == []
    {
      StartReachesItself(db, tables, Canonical(tables, q));
      assert ReachesOne(db, tables, Canonical(tables, q), requested);
      NamesAreListed(tables, KeyOf(q));
    }
  }

  /** A reference to a listed table is recognised in every spelling. A reference to a table that does
      not exist is recognised in the same spelling only. */
  lemma ReferencesUpToCase(db: Database, tables: seq<string>, child: string, parent: string)
    requires child in tables
    ensures Refers(db, tables, child, Canonical(tables, parent)) <==>
      exists r :: r in FksOf(db, child) && KeyOf(r.target) == KeyOf(parent)
        && (KeyOf(parent) in NamesOf(tables) || r.target == parent)
  {
    forall r | r in FksOf(db, child)
      ensures Canonical(tables, r.target) == Canonical(tables, parent) <==>
        KeyOf(r.target) == KeyOf(parent) && (KeyOf(parent) in NamesOf(tables) || r.target == parent)
    {
      NamesAreListed(tables, KeyOf(parent));
      NamesAreListed(tables, KeyOf(r.target));
    }
  }
}

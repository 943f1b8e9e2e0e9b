/** How the parser finds a declared column: by its name in any quoting and in any case, and the answer is the
    declared spelling. */
module DeclaredColumns {
  import opened Outcomes
  import opened AsciiCase
  import opened Quoting
  import opened SqlTokens
  import opened CheckExpressions
  import opened ConstraintParser
  import opened TableConstraints

  /** The lookup table that the parser builds from the declared columns. */
  function ByKey(columns: seq<string>): Names {
    if columns == [] then map[]
    else ByKey(columns[..|columns| - 1])[IdentifierKey(columns[|columns| - 1]) := columns[|columns| - 1]]
  }

  predicate DistinctUpToCase(columns: seq<string>) {
    forall i, j :: 0 <= i < j < |columns| ==> !SameUpToCase(columns[i], columns[j])
  }

  lemma {:induction false} ByKeyHolds(columns: seq<string>, key: string)
    ensures key in ByKey(columns) <==> exists i :: 0 <= i < |columns| && IdentifierKey(columns[i]) == key
    ensures key in ByKey(columns) ==> ByKey(columns)[key] in columns && IdentifierKey(ByKey(columns)[key]) == key
  {
    hide IdentifierKey;
    if columns != [] {
      var last := |columns| - 1;
      ByKeyHolds(columns[..last], key);
      assert forall i :: 0 <= i < last ==> columns[..last][i] == columns[i];
    }
  }

  lemma Found(columns: seq<string>, name: string, c: string)
    requires DistinctUpToCase(columns) && c in columns && SameUpToCase(name, c)
    ensures IdentifierKey(name) in ByKey(columns) && ByKey(columns)[IdentifierKey(name)] == c
  {
    SameKey(name, c);
    var i :| 0 <= i < |columns| && columns[i] == c;
    ByKeyHolds(columns, IdentifierKey(name));
    var d := ByKey(columns)[IdentifierKey(name)];
    var j :| 0 <= j < |columns| && columns[j] == d;
    SameKey(c, d);
    SameUpToCaseTwice(c, d, c);
    hide IdentifierKey, SameUpToCase;
  }

  /** A name in an expression refers to the declared column that it matches up to case, under the declared
      spelling. Other names refer to no column. */
  lemma ReferenceIsDeclared(columns: seq<string>, t: Token)
    requires DistinctUpToCase(columns)
    ensures forall c :: c in columns && SameUpToCase(UnquoteIdentifier(t.value), c) ==>
        ColumnOf(t, ByKey(columns)) == [c]
    ensures (forall c :: c in columns ==> !SameUpToCase(UnquoteIdentifier(t.value), c)) ==>
        ColumnOf(t, ByKey(columns)) == []
  {
    var name := UnquoteIdentifier(t.value);
    hide UnquoteIdentifier;
    forall c | c in columns && SameUpToCase(name, c)
      ensures ColumnOf(t, ByKey(columns)) == [c]
    {
      Found(columns, name, c);
    }
    Missing(columns, name);
  }

  lemma Missing(columns: seq<string>, name: string)
    requires DistinctUpToCase(columns)
    ensures (forall c :: c in columns ==> !SameUpToCase(name, c)) ==> IdentifierKey(name) !in ByKey(columns)
  {
    ByKeyHolds(columns, IdentifierKey(name));
    if IdentifierKey(name) in ByKey(columns) {
      SameKey(name, ByKey(columns)[IdentifierKey(name)]);
    }
  }

  /** The columns of UNIQUE: each under its declared spelling, or as written if it is not declared. */
  lemma UniqueColumnsAreDeclared(columns: seq<string>, listed: seq<Indexed>, i: nat)
    requires DistinctUpToCase(columns) && i < |listed|
    ensures var name := UnquoteIdentifier(listed[i].name.value);
      var found := DeclaredNames(listed, ByKey(columns));
      && |found| == |listed|
      && (forall c :: c in columns && SameUpToCase(name, c) ==> found[i] == c)
      && ((forall c :: c in columns ==> !SameUpToCase(name, c)) ==> found[i] == name)
  {
    var name := UnquoteIdentifier(listed[i].name.value);
    hide UnquoteIdentifier;
    forall c | c in columns && SameUpToCase(name, c)
      ensures DeclaredNames(listed, ByKey(columns))[i] == c
    {
      Found(columns, name, c);
    }
    Missing(columns, name);
  }
}

/** The embedded engine and its driver cursors: the environment of the backend.

    The driver does not run a statement with result columns when it is executed. Each fetch takes one
    more row, and a row-changing statement applies one more change with it. Nothing here is part of
    the backend; every fault is chosen from outside. */
module Engine {
  import opened Outcomes
  import opened AsciiCase
  import opened SqlTokens
  import WriteDetector

  type Row = seq<int>

  /** The contents of every table. */
  type Db = map<string, seq<Row>>

  /** One step of a statement: its effect and the result row that comes with it. */
  datatype Change = Change(apply: Db -> Db, row: Row)

  /** A statement: its syntax, its token stream, whether it has result columns, and the steps it takes
      on the database it finds. */
  datatype Stmt = Stmt(ast: WriteDetector.Ast, tokens: seq<Token>, returnsRows: bool, plan: Db -> seq<Change>)
  {
    predicate Good() {
      && WriteDetector.GoodAst(ast)
      && SqlTokens.WithoutNoise(tokens) == SqlTokens.WithoutNoise(WriteDetector.Print(ast))
    }

    /** The engine runs the main verb, so only that verb decides whether rows change. */
    predicate ChangesRows() {
      && ast.main.Some? && ast.main.value.kind == Dml
      && exists verb :: verb in {"INSERT", "UPDATE", "DELETE", "REPLACE"} && SameUpToCase(ast.main.value.value, verb)
    }
  }

  datatype Savepoint = Savepoint(sid: nat, db: Db)
  datatype Tx = Tx(working: Db, savepoints: seq<Savepoint>)

  /** `begins` counts the BEGIN statements that arrived, `losses` the transactions that ended because a
      statement failed. */
  datatype State = State(committed: Db, tx: Option<Tx>, begins: nat, losses: nat)

  /** A fault of one driver call. With `ends` it also ends the transaction. A failing statement leaves
      none of its own changes behind. */
  datatype Fault = NoFault | Fails(ends: bool)

  function Current(e: State): Db {
    if e.tx.Some? then e.tx.value.working else e.committed
  }

  function SetCurrent(e: State, db: Db): State {
    if e.tx.Some? then e.(tx := Some(e.tx.value.(working := db))) else e.(committed := db)
  }

  /** The engine after a call that failed. */
  function Failed(e: State, ends: bool): State {
    if ends && e.tx.Some? then e.(tx := None, losses := e.losses + 1) else e
  }

  // ----- Transactions -----

  function Begun(e: State): State {
    e.(begins := e.begins + 1, tx := if e.tx.None? then Some(Tx(e.committed, [])) else e.tx)
  }

  function Committed(e: State): State {
    if e.tx.Some? then e.(committed := e.tx.value.working, tx := None) else e
  }

  function RolledBack(e: State): State {
    e.(tx := None)
  }

  /** The position of the newest savepoint named `sid`. */
  function FindSavepoint(ss: seq<Savepoint>, sid: nat): (i: Option<nat>)
    ensures i.Some? ==> i.value < |ss| && ss[i.value].sid == sid
  {
    if ss == [] then None
    else if ss[|ss| - 1].sid == sid then Some(|ss| - 1)
    else FindSavepoint(ss[..|ss| - 1], sid)
  }

  datatype SavepointAction = Save(sid: nat) | Release(sid: nat) | RollbackTo(sid: nat)

  /** The effect of a savepoint statement; `None` when there is no such savepoint. */
  function Savepointed(e: State, action: SavepointAction): Option<State> {
    if e.tx.None? then None
    else
      var tx := e.tx.value;
      match action
      case Save(sid) => Some(e.(tx := Some(tx.(savepoints := tx.savepoints + [Savepoint(sid, tx.working)]))))
      case Release(sid) =>
        var i := FindSavepoint(tx.savepoints, sid);
        if i.None? then None else Some(e.(tx := Some(tx.(savepoints := tx.savepoints[..i.value]))))
      case RollbackTo(sid) =>
        var i := FindSavepoint(tx.savepoints, sid);
        if i.None? then None
        else Some(e.(tx := Some(Tx(tx.savepoints[i.value].db, tx.savepoints[..i.value + 1]))))
  }

  // ----- Statements -----

  function ApplyAll(db: Db, changes: seq<Change>): Db
    decreases |changes|
  {
    if changes == [] then db else ApplyAll(changes[0].apply(db), changes[1..])
  }

  function RowsOf(changes: seq<Change>): seq<Row> {
    if changes == [] then [] else [changes[0].row] + RowsOf(changes[1..])
  }

  /** The whole effect of a statement. A statement with result columns that changes no rows only reads. */
  function Executed(e: State, stmt: Stmt): State {
    if stmt.returnsRows && !stmt.ChangesRows() then e
    else SetCurrent(e, ApplyAll(Current(e), stmt.plan(Current(e))))
  }

  function ExecutedAll(e: State, stmts: seq<Stmt>): State
    decreases |stmts|
  {
    if stmts == [] then e else ExecutedAll(Executed(e, stmts[0]), stmts[1..])
  }

  // ----- Driver cursors -----

  /** `Pending` has not read the database yet; `Active` still has steps to take. */
  datatype Cursor = Idle | Pending(stmt: Stmt) | Active(stmt: Stmt, rest: seq<Change>) | Closed

  /** The cursor would still change rows if somebody fetched from it. */
  predicate HoldsWrite(c: Cursor) {
    (c.Pending? || c.Active?) && c.stmt.ChangesRows()
  }

  datatype Fetched = Fetched(engine: State, cursor: Cursor, rows: seq<Row>)

  function Opened(e: State, c: Cursor): Cursor {
    if c.Pending? then Active(c.stmt, c.stmt.plan(Current(e))) else c
  }

  /** Fetch one row; no row when the cursor is exhausted. */
  function FetchOne(e: State, c: Cursor): Fetched {
    var active := Opened(e, c);
    if !active.Active? then Fetched(e, active, [])
    else if active.rest == [] then Fetched(e, Idle, [])
    else
      var change := active.rest[0];
      Fetched(
        if active.stmt.ChangesRows() then SetCurrent(e, change.apply(Current(e))) else e,
        Active(active.stmt, active.rest[1..]),
        [change.row])
  }

  function FetchMany(e: State, c: Cursor, size: nat): Fetched
    decreases size
  {
    if size == 0 then Fetched(e, c, [])
    else
      var one := FetchOne(e, c);
      if one.rows == [] then one
      else
        var more := FetchMany(one.engine, one.cursor, size - 1);
        more.(rows := one.rows + more.rows)
  }

  /** Fetch row after row until none is left. */
  function FetchAll(e: State, c: Cursor): Fetched
    decreases c.Pending?, if c.Active? then |c.rest| else 0
  {
    if c.Pending? then FetchAll(e, Opened(e, c))
    else
      var one := FetchOne(e, c);
      if one.rows == [] then one
      else
        var more := FetchAll(one.engine, one.cursor);
        more.(rows := one.rows + more.rows)
  }

  /** Running a statement. With result columns nothing happens yet. */
  function RunStatement(e: State, stmt: Stmt): Fetched {
    if stmt.returnsRows then Fetched(e, Pending(stmt), []) else Fetched(Executed(e, stmt), Idle, [])
  }

  // ----- Laws -----

  lemma SetTwice(e: State, a: Db, b: Db)
    ensures SetCurrent(SetCurrent(e, a), b) == SetCurrent(e, b)
    ensures Current(SetCurrent(e, a)) == a
    ensures SetCurrent(e, Current(e)) == e
  {
  }

  lemma {:induction false} DrainActive(e: State, stmt: Stmt, rest: seq<Change>)
    requires stmt.ChangesRows()
    ensures FetchAll(e, Active(stmt, rest)) ==
        Fetched(SetCurrent(e, ApplyAll(Current(e), rest)), Idle, RowsOf(rest))
    decreases |rest|
  {
    if rest == [] {
      SetTwice(e, Current(e), Current(e));
    } else {
      var next := rest[0].apply(Current(e));
      DrainActive(SetCurrent(e, next), stmt, rest[1..]);
      SetTwice(e, next, ApplyAll(next, rest[1..]));
    }
  }

  /** Draining a row-changing statement right after it was run has exactly its whole effect. */
  lemma DrainIsEffect(e: State, stmt: Stmt)
    requires stmt.returnsRows && stmt.ChangesRows()
    ensures FetchAll(e, Pending(stmt)) == Fetched(Executed(e, stmt), Idle, RowsOf(stmt.plan(Current(e))))
  {
    DrainActive(e, stmt, stmt.plan(Current(e)));
  }
}

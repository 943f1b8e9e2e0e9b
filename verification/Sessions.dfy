/** Cursors of the backend and whole sessions: any number of cursors over one connection. */
module Sessions {
  import opened Outcomes
  import opened Engine
  import opened Transactions
  import WriteDetector

  // ----- The backend's cursor -----

  /** The driver cursor with the stored rows of a completed write. */
  datatype CursorState = CursorState(driver: Engine.Cursor, returning: Option<seq<Row>>)

  const NEW_CURSOR := CursorState(Idle, None)

  datatype Response = Finished | Row(row: Option<Engine.Row>) | Rows(rows: seq<Engine.Row>) | Raised(exn: Exn)

  /** The rows that a response carries. */
  function RowsIn(r: Response): seq<Engine.Row> {
    match r
    case Row(row) => if row.Some? then [row.value] else []
    case Rows(rows) => rows
    case _ => []
  }

  datatype Outcome = Outcome(w: Wrapper, cursor: CursorState, response: Response)

  /** What can go wrong in a statement: its implicit BEGIN, the parameter check, the driver call and the
      fetch that completes it. */
  datatype ExecuteFaults = ExecuteFaults(begin: bool, binding: bool, run: Fault, drain: Fault)

  /** `execute`. */
  function Execute(w: Wrapper, c: CursorState, stmt: Stmt, f: ExecuteFaults): Outcome {
    var g := Guard(w, f.begin);
    if g.error.Some? then Outcome(g.w, c, Raised(g.error.value))
    else
      var c1 := c.(returning := None);
      if f.binding then Outcome(g.w, c1, Raised(BindingError))
      else if c1.driver.Closed? then Outcome(StatementFailed(g.w, false), c1, Raised(DatabaseError))
      else if f.run.Fails? then
        Outcome(StatementFailed(g.w, f.run.ends), CursorState(Idle, None), Raised(DatabaseError))
      else
        var ran := Engine.RunStatement(g.w.engine, stmt);
        if stmt.returnsRows && WriteDetector.IsWrite(stmt.tokens) then
          if f.drain.Fails? then
            Outcome(StatementFailed(g.w, f.drain.ends), CursorState(Idle, None), Raised(DatabaseError))
          else
            var all := Engine.FetchAll(ran.engine, ran.cursor);
            Outcome(g.w.(engine := all.engine), CursorState(all.cursor, Some(all.rows)), Finished)
        else Outcome(g.w.(engine := ran.engine), CursorState(ran.cursor, None), Finished)
  }

  /** How a batch goes: the rows the driver takes before it stops, and why it stops. */
  datatype BatchFaults = BatchFaults(begin: bool, translation: bool, taken: nat, stop: Stop)
  datatype Stop = Never | RowRejected | DriverStopped(ends: bool)

  /** `executemany`; the statement once for each parameter row. */
  function ExecuteMany(w: Wrapper, c: CursorState, stmts: seq<Stmt>, f: BatchFaults): Outcome {
    var g := Guard(w, f.begin);
    if g.error.Some? then Outcome(g.w, c, Raised(g.error.value))
    else if stmts == [] then Outcome(g.w, c, Finished)
    else
      var c1 := c.(returning := None);
      if f.translation then Outcome(g.w, c1, Raised(BindingError))
      else if c1.driver.Closed? then Outcome(StatementFailed(g.w, false), c1, Raised(DatabaseError))
      else
        var taken := if f.stop.Never? || f.taken > |stmts| then |stmts| else f.taken;
        var w1 := g.w.(engine := ExecutedAll(g.w.engine, stmts[..taken]));
        var c2 := CursorState(Idle, None);
        match f.stop
        case Never => Outcome(w1, c2, Finished)
        case RowRejected => Outcome(w1, c2, Raised(BindingError))
        case DriverStopped(ends) => Outcome(StatementFailed(w1, ends), c2, Raised(DatabaseError))
  }

  /** Which fetch method, with `fetchmany` sizes as passed or from `arraysize`. */
  datatype Fetch = One | Many(size: int) | All

  function Min(a: nat, b: nat): nat { if a < b then a else b }

  /** `fetchone`, `fetchmany` and `fetchall` on stored rows. */
  function FetchStored(rows: seq<Engine.Row>, how: Fetch): (Response, seq<Engine.Row>) {
    match how
    case One => if rows == [] then (Row(None), rows) else (Row(Some(rows[0])), rows[1..])
    case Many(size) =>
      if size < 0 then (Raised(ValueError), rows)
      else var n := Min(size, |rows|); (Rows(rows[..n]), rows[n..])
    case All => (Rows(rows), [])
  }

  /** The same on the driver. A negative size is left to the driver, which returns no row. */
  function FetchDriver(e: Engine.State, c: Engine.Cursor, how: Fetch): (Response, Engine.Fetched) {
    match how
    case One =>
      var one := Engine.FetchOne(e, c);
      (Row(if one.rows == [] then None else Some(one.rows[0])), one)
    case Many(size) =>
      var many := Engine.FetchMany(e, c, if size < 0 then 0 else size);
      (Rows(many.rows), many)
    case All =>
      var all := Engine.FetchAll(e, c);
      (Rows(all.rows), all)
  }

  /** All fetch methods. */
  function FetchRows(w: Wrapper, c: CursorState, how: Fetch, f: Faults): Outcome {
    var g := Guard(w, f.begin);
    if g.error.Some? then Outcome(g.w, c, Raised(g.error.value))
    else if c.returning.Some? then
      var (response, rest) := FetchStored(c.returning.value, how);
      Outcome(g.w, c.(returning := Some(rest)), response)
    else if c.driver.Closed? then Outcome(StatementFailed(g.w, false), c, Raised(DatabaseError))
    else if f.statement.Fails? then
      Outcome(StatementFailed(g.w, f.statement.ends), c.(driver := Idle), Raised(DatabaseError))
    else
      var (response, fetched) := FetchDriver(g.w.engine, c.driver, how);
      Outcome(g.w.(engine := fetched.engine), c.(driver := fetched.cursor), response)
  }

  /** `close` of a cursor. */
  function CloseCursor(c: CursorState): CursorState {
    CursorState(Closed, None)
  }

  // ----- Sessions -----

  /** Every call that user code can make. `EngineAborts` is the engine ending its transaction unasked. */
  datatype Op =
    | DoExecute(cursor: nat, stmt: Stmt, execute: ExecuteFaults)
    | DoExecuteMany(cursor: nat, stmts: seq<Stmt>, batch: BatchFaults)
    | DoFetch(cursor: nat, how: Fetch, faults: Faults)
    | DoCloseCursor(cursor: nat)
    | DoCommit(fault: Fault)
    | DoRollback(fault: Fault)
    | DoSetAutocommit(autocommit: bool, beginFails: bool)
    | DoSavepointRollback(sid: nat, faults: Faults)
    | DoAtomicEnter(savepoint: bool, faults: Faults)
    | DoAtomicExit(failed: bool, exit: ExitFaults)
    | DoOnCommit
    | DoClose(inMemory: bool)
    | EngineAborts

  datatype Session = Session(w: Wrapper, cursors: map<nat, CursorState>)

  datatype Step = Step(s: Session, response: Response)

  function CursorOf(cursors: map<nat, CursorState>, id: nat): CursorState {
    if id in cursors then cursors[id] else NEW_CURSOR
  }

  function Store(s: Session, id: nat, o: Outcome): Step {
    Step(Session(o.w, s.cursors[id := o.cursor]), o.response)
  }

  function Respond(r: Reply): Response {
    if r.error.Some? then Raised(r.error.value) else Finished
  }

  /** Calls that involve the wrapper only. */
  predicate OnWrapper(op: Op) {
    !op.DoExecute? && !op.DoExecuteMany? && !op.DoFetch? && !op.DoCloseCursor?
  }

  function WrapperStep(w: Wrapper, op: Op): Reply
    requires OnWrapper(op)
  {
    match op
    case DoCommit(fault) => Commit(w, fault)
    case DoRollback(fault) => Rollback(w, fault)
    case DoSetAutocommit(autocommit, fails) => SetAutocommit(w, autocommit, false, fails)
    case DoSavepointRollback(sid, f) => SavepointRollback(w, sid, f)
    case DoAtomicEnter(savepoint, f) => AtomicEnter(w, savepoint, f)
    case DoAtomicExit(failed, f) => if w.blocks == 0 then Done(w) else AtomicExit(w, failed, f)
    case DoOnCommit => OnCommit(w)
    case DoClose(inMemory) => Done(Close(w, inMemory))
    case EngineAborts => Done(w.(engine := w.engine.(tx := None)))
  }

  /** One call. A closed connection ends the session: reconnecting starts a new one. */
  function Next(s: Session, op: Op): Step {
    if !s.w.isOpen then Step(s, Raised(ConnectionClosed))
    else
      match op
      case DoExecute(id, stmt, f) => Store(s, id, Execute(s.w, CursorOf(s.cursors, id), stmt, f))
      case DoExecuteMany(id, stmts, f) => Store(s, id, ExecuteMany(s.w, CursorOf(s.cursors, id), stmts, f))
      case DoFetch(id, how, f) => Store(s, id, FetchRows(s.w, CursorOf(s.cursors, id), how, f))
      case DoCloseCursor(id) => Step(s.(cursors := s.cursors[id := CloseCursor(CursorOf(s.cursors, id))]), Finished)
      case _ => var r := WrapperStep(s.w, op); Step(s.(w := r.w), Respond(r))
  }

  datatype Trace = Trace(s: Session, responses: seq<Response>)

  function Run(s: Session, ops: seq<Op>): Trace
    decreases |ops|
  {
    if ops == [] then Trace(s, [])
    else
      var step := Next(s, ops[0]);
      var later := Run(step.s, ops[1..]);
      Trace(later.s, [step.response] + later.responses)
  }

  /** A fresh connection on a database, in the configured autocommit mode. */
  function Start(db: Db, autocommit: bool): Session {
    Session(
      Wrapper(State(db, None, 0, 0), true, autocommit, false, true, false, [], [], false, 0, 0, 0, []),
      map[])
  }

  predicate GoodOp(op: Op) {
    && (op.DoExecute? ==> op.stmt.Good())
    && (op.DoExecuteMany? ==> forall k :: 0 <= k < |op.stmts| ==> op.stmts[k].Good())
  }

  predicate GoodOps(ops: seq<Op>) {
    forall k :: 0 <= k < |ops| ==> GoodOp(ops[k])
  }
}

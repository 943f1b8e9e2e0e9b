/** The backend refines an engine on which every write takes effect when it is executed. */
module Refinement {
  import opened Outcomes
  import opened Engine
  import opened Transactions
  import opened Sessions
  import WriteDetector

  // ----- The reference: writes take effect at execute -----

  /** Result rows at hand, or a reading statement in progress. */
  datatype RefCursor = Ready(rows: seq<Engine.Row>) | Reading(driver: Engine.Cursor)

  datatype RefSession = RefSession(w: Wrapper, cursors: map<nat, RefCursor>)
  datatype RefOutcome = RefOutcome(w: Wrapper, cursor: RefCursor, response: Response)
  datatype RefStep = RefStep(s: RefSession, response: Response)
  datatype RefTrace = RefTrace(s: RefSession, responses: seq<Response>)

  /** A cursor whose result was given up. */
  function Dropped(c: RefCursor): RefCursor {
    if c.Ready? then Reading(Idle) else c
  }

  function RefExecute(w: Wrapper, c: RefCursor, stmt: Stmt, f: ExecuteFaults): RefOutcome {
    var g := Guard(w, f.begin);
    if g.error.Some? then RefOutcome(g.w, c, Raised(g.error.value))
    else if f.binding then RefOutcome(g.w, Dropped(c), Raised(BindingError))
    else if c == Reading(Closed) then RefOutcome(StatementFailed(g.w, false), c, Raised(DatabaseError))
    else if f.run.Fails? then RefOutcome(StatementFailed(g.w, f.run.ends), Reading(Idle), Raised(DatabaseError))
    else if !stmt.returnsRows then
      RefOutcome(g.w.(engine := Executed(g.w.engine, stmt)), Reading(Idle), Finished)
    else if !stmt.ChangesRows() then RefOutcome(g.w, Reading(Pending(stmt)), Finished)
    else if f.drain.Fails? then
      RefOutcome(StatementFailed(g.w, f.drain.ends), Reading(Idle), Raised(DatabaseError))
    else
      RefOutcome(g.w.(engine := Executed(g.w.engine, stmt)),
                 Ready(RowsOf(stmt.plan(Current(g.w.engine)))), Finished)
  }

  function RefExecuteMany(w: Wrapper, c: RefCursor, stmts: seq<Stmt>, f: BatchFaults): RefOutcome {
    var g := Guard(w, f.begin);
    if g.error.Some? then RefOutcome(g.w, c, Raised(g.error.value))
    else if stmts == [] then RefOutcome(g.w, c, Finished)
    else if f.translation then RefOutcome(g.w, Dropped(c), Raised(BindingError))
    else if c == Reading(Closed) then RefOutcome(StatementFailed(g.w, false), c, Raised(DatabaseError))
    else
      var taken := if f.stop.Never? || f.taken > |stmts| then |stmts| else f.taken;
      var w1 := g.w.(engine := ExecutedAll(g.w.engine, stmts[..taken]));
      match f.stop
      case Never => RefOutcome(w1, Reading(Idle), Finished)
      case RowRejected => RefOutcome(w1, Reading(Idle), Raised(BindingError))
      case DriverStopped(ends) => RefOutcome(StatementFailed(w1, ends), Reading(Idle), Raised(DatabaseError))
  }

  function RefFetch(w: Wrapper, c: RefCursor, how: Fetch, f: Faults): RefOutcome {
    var g := Guard(w, f.begin);
    if g.error.Some? then RefOutcome(g.w, c, Raised(g.error.value))
    else
      match c
      case Ready(rows) =>
        var (response, rest) := FetchStored(rows, how);
        RefOutcome(g.w, Ready(rest), response)
      case Reading(driver) =>
        if driver.Closed? then RefOutcome(StatementFailed(g.w, false), c, Raised(DatabaseError))
        else if f.statement.Fails? then
          RefOutcome(StatementFailed(g.w, f.statement.ends), Reading(Idle), Raised(DatabaseError))
        else
          var (response, fetched) := FetchDriver(g.w.engine, driver, how);
          RefOutcome(g.w.(engine := fetched.engine), Reading(fetched.cursor), response)
  }

  function RefCursorOf(cursors: map<nat, RefCursor>, id: nat): RefCursor {
    if id in cursors then cursors[id] else Reading(Idle)
  }

  function RefStore(s: RefSession, id: nat, o: RefOutcome): RefStep {
    RefStep(RefSession(o.w, s.cursors[id := o.cursor]), o.response)
  }

  function RefNext(s: RefSession, op: Op): RefStep {
    if !s.w.isOpen then RefStep(s, Raised(ConnectionClosed))
    else
      match op
      case DoExecute(id, stmt, f) => RefStore(s, id, RefExecute(s.w, RefCursorOf(s.cursors, id), stmt, f))
      case DoExecuteMany(id, stmts, f) => RefStore(s, id, RefExecuteMany(s.w, RefCursorOf(s.cursors, id), stmts, f))
      case DoFetch(id, how, f) => RefStore(s, id, RefFetch(s.w, RefCursorOf(s.cursors, id), how, f))
      case DoCloseCursor(id) => RefStep(s.(cursors := s.cursors[id := Reading(Closed)]), Finished)
      case _ => var r := WrapperStep(s.w, op); RefStep(s.(w := r.w), Respond(r))
  }

  function RefRun(s: RefSession, ops: seq<Op>): RefTrace
    decreases |ops|
  {
    if ops == [] then RefTrace(s, [])
    else
      var step := RefNext(s, ops[0]);
      var later := RefRun(step.s, ops[1..]);
      RefTrace(later.s, [step.response] + later.responses)
  }

  // ----- The invariant and the abstraction -----

  /** Nothing is left to write, and stored rows belong to a finished statement. */
  predicate Settled(c: CursorState) {
    && !HoldsWrite(c.driver)
    && (c.returning.Some? ==> c.driver == Idle)
  }

  predicate AllSettled(s: Session) {
    forall id :: id in s.cursors ==> Settled(s.cursors[id])
  }

  function Abs(c: CursorState): RefCursor {
    if c.returning.Some? then Ready(c.returning.value) else Reading(c.driver)
  }

  function AbsSession(s: Session): RefSession {
    RefSession(s.w, map id | id in s.cursors :: Abs(s.cursors[id]))
  }

  // ----- Simulation -----

  lemma DetectorKnowsTheEngine(stmt: Stmt)
    requires stmt.Good()
    ensures WriteDetector.IsWrite(stmt.tokens) <==> stmt.ChangesRows()
  {
    WriteDetector.DetectsExactlyTheMainVerb(stmt.ast, stmt.tokens);
  }

  lemma ExecuteSimulates(w: Wrapper, c: CursorState, stmt: Stmt, f: ExecuteFaults)
    requires stmt.Good() && Settled(c)
    ensures var o, r := Execute(w, c, stmt, f), RefExecute(w, Abs(c), stmt, f);
      && Settled(o.cursor)
      && r == RefOutcome(o.w, Abs(o.cursor), o.response)
  {
    hide Guard, StatementFailed, FetchAll, Executed, RowsOf, WriteDetector.IsWrite, Stmt.ChangesRows;
    DetectorKnowsTheEngine(stmt);
    var g := Guard(w, f.begin);
    if g.error.None? && stmt.returnsRows && stmt.ChangesRows() {
      DrainIsEffect(g.w.engine, stmt);
    }
  }

  lemma {:induction false} ReadingStaysReading(e: Engine.State, c: Engine.Cursor, size: nat)
    requires !HoldsWrite(c)
    ensures FetchMany(e, c, size).engine == e && !HoldsWrite(FetchMany(e, c, size).cursor)
    decreases size
  {
    if size > 0 {
      var one := FetchOne(e, c);
      if one.rows != [] {
        ReadingStaysReading(one.engine, one.cursor, size - 1);
      }
    }
  }

  lemma {:induction false} DrainingReads(e: Engine.State, c: Engine.Cursor)
    requires !HoldsWrite(c)
    ensures FetchAll(e, c).engine == e && !HoldsWrite(FetchAll(e, c).cursor)
    decreases c.Pending?, if c.Active? then |c.rest| else 0
  {
    if c.Pending? {
      DrainingReads(e, Opened(e, c));
    } else {
      var one := FetchOne(e, c);
      if one.rows != [] {
        DrainingReads(one.engine, one.cursor);
      }
    }
  }

  lemma FetchSimulates(w: Wrapper, c: CursorState, how: Fetch, f: Faults)
    requires Settled(c)
    ensures var o, r := FetchRows(w, c, how, f), RefFetch(w, Abs(c), how, f);
      && Settled(o.cursor)
      && r == RefOutcome(o.w, Abs(o.cursor), o.response)
  {
    var g := Guard(w, f.begin);
    match how {
      case One =>
      case Many(size) => ReadingStaysReading(g.w.engine, c.driver, if size < 0 then 0 else size);
      case All => DrainingReads(g.w.engine, c.driver);
    }
  }

  lemma ExecuteManySimulates(w: Wrapper, c: CursorState, stmts: seq<Stmt>, f: BatchFaults)
    requires Settled(c)
    ensures var o, r := ExecuteMany(w, c, stmts, f), RefExecuteMany(w, Abs(c), stmts, f);
      && Settled(o.cursor)
      && r == RefOutcome(o.w, Abs(o.cursor), o.response)
  {
    hide Guard, StatementFailed, ExecutedAll;
  }

  lemma AbsOfStore(s: Session, id: nat, c: CursorState)
    ensures AbsSession(s.(cursors := s.cursors[id := c])).cursors == AbsSession(s).cursors[id := Abs(c)]
    ensures Abs(CursorOf(s.cursors, id)) == RefCursorOf(AbsSession(s).cursors, id)
  {
  }

  /** One call keeps every cursor settled and answers as the reference does. */
  lemma StepSimulates(s: Session, op: Op)
    requires AllSettled(s) && GoodOp(op)
    ensures var step, ref := Next(s, op), RefNext(AbsSession(s), op);
      && AllSettled(step.s)
      && ref == RefStep(AbsSession(step.s), step.response)
  {
    match op {
      case DoExecute(id, stmt, f) =>
        hide Execute, RefExecute;
        ExecuteSimulates(s.w, CursorOf(s.cursors, id), stmt, f);
        AbsOfStore(s, id, Execute(s.w, CursorOf(s.cursors, id), stmt, f).cursor);
      case DoExecuteMany(id, stmts, f) =>
        ExecuteManySimulates(s.w, CursorOf(s.cursors, id), stmts, f);
        hide ExecuteMany, RefExecuteMany;
        AbsOfStore(s, id, ExecuteMany(s.w, CursorOf(s.cursors, id), stmts, f).cursor);
      case DoFetch(id, how, f) =>
        hide FetchRows, RefFetch;
        FetchSimulates(s.w, CursorOf(s.cursors, id), how, f);
        AbsOfStore(s, id, FetchRows(s.w, CursorOf(s.cursors, id), how, f).cursor);
      case DoCloseCursor(id) =>
        AbsOfStore(s, id, CloseCursor(CursorOf(s.cursors, id)));
      case _ =>
    }
  }

  /** Over every run, interleaving any number of cursors with transaction control and faults, the
      backend on the delaying engine delivers the same rows and errors and reaches the same databases
      as the reference, and no cursor is ever left with an unfinished write. */
  lemma {:induction false} BackendRefinesEagerEngine(s: Session, ops: seq<Op>)
    requires AllSettled(s) && GoodOps(ops)
    ensures AllSettled(Run(s, ops).s)
    ensures RefRun(AbsSession(s), ops) == RefTrace(AbsSession(Run(s, ops).s), Run(s, ops).responses)
    decreases |ops|
  {
    if ops != [] {
      StepSimulates(s, ops[0]);
      BackendRefinesEagerEngine(Next(s, ops[0]).s, ops[1..]);
    }
  }

  /** From a fresh connection: the same committed database, the same answers. */
  lemma SameCommittedDatabase(db: Db, autocommit: bool, ops: seq<Op>)
    requires GoodOps(ops)
    ensures var run, ref := Run(Start(db, autocommit), ops), RefRun(AbsSession(Start(db, autocommit)), ops);
      && run.s.w.engine.committed == ref.s.w.engine.committed
      && run.responses == ref.responses
      && forall id :: id in run.s.cursors ==> !HoldsWrite(run.s.cursors[id].driver)
  {
    BackendRefinesEagerEngine(Start(db, autocommit), ops);
  }
}

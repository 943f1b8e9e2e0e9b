/** What reaches the committed database, and when a transaction is begun for a statement. */
module Durability {
  import opened Outcomes
  import opened Engine
  import opened Transactions
  import opened Sessions
  import Safety
  import WriteDetector

  /** The calls that send a statement of the user. */
  predicate SendsStatement(op: Op) {
    op.DoExecute? || op.DoExecuteMany? || op.DoFetch?
  }

  // ----- BEGIN -----

  /** No transaction is active although one is needed, and nobody else is responsible for it: autocommit is off
      and no atomic block has begun the transaction itself. */
  predicate MustBegin(w: Wrapper) {
    w.isOpen && !w.autocommit && w.engine.tx.None? && !w.needsRollback && !(w.inAtomicBlock && w.commitOnExit)
  }

  /** BEGIN always reaches the engine. It opens a transaction on the committed data, and the engine refuses it
      inside another one. */
  lemma BeginOpensOneTransaction(w: Wrapper, fails: bool)
    ensures var r := Begin(w, fails);
      && r.w.engine.begins == w.engine.begins + 1 && r.w.engine.committed == w.engine.committed
      && (r.error.None? <==> !fails && w.engine.tx.None?)
      && r.w.engine.tx == (if r.error.None? then Some(Tx(w.engine.committed, [])) else w.engine.tx)
  {
  }

  lemma BeginsOfGuard(w: Wrapper, fails: bool)
    requires w.isOpen
    ensures var g := Guard(w, fails);
      && g.w.engine.begins == w.engine.begins + (if MustBegin(w) then 1 else 0)
      && (g.error.None? && !w.autocommit ==> g.w.engine.tx.Some?)
      && (w.autocommit ==> g.w.engine.tx == w.engine.tx)
      && (w.needsRollback ==> g == Raise(w, TransactionManagementError))
      && g.w.engine.committed == w.engine.committed && g.w.isOpen && g.w.autocommit == w.autocommit
  {
  }

  /** A step inside a transaction, or the same step on a database without one. */
  ghost predicate Inside(e: State, e': State) {
    e'.begins == e.begins && (e'.tx.Some? <==> e.tx.Some?) && (e.tx.Some? ==> e'.committed == e.committed)
  }

  lemma {:induction false} ExecutedInside(e: State, stmts: seq<Stmt>)
    ensures Inside(e, ExecutedAll(e, stmts))
    decreases |stmts|
  {
    if stmts != [] {
      ExecutedInside(Executed(e, stmts[0]), stmts[1..]);
    }
  }

  lemma {:induction false} FetchManyInside(e: State, c: Engine.Cursor, size: nat)
    ensures Inside(e, FetchMany(e, c, size).engine)
    decreases size
  {
    if size > 0 {
      var one := FetchOne(e, c);
      if one.rows != [] {
        FetchManyInside(one.engine, one.cursor, size - 1);
      }
    }
  }

  lemma {:induction false} FetchAllInside(e: State, c: Engine.Cursor)
    ensures Inside(e, FetchAll(e, c).engine)
    decreases c.Pending?, if c.Active? then |c.rest| else 0
  {
    if c.Pending? {
      FetchAllInside(e, Opened(e, c));
    } else {
      var one := FetchOne(e, c);
      if one.rows != [] {
        FetchAllInside(one.engine, one.cursor);
      }
    }
  }

  lemma DriverInside(e: State, c: Engine.Cursor, how: Fetch)
    ensures Inside(e, FetchDriver(e, c, how).1.engine)
  {
    hide FetchAll, FetchMany;
    match how {
      case One =>
      case Many(size) => FetchManyInside(e, c, if size < 0 then 0 else size);
      case All => FetchAllInside(e, c);
    }
  }

  lemma RunInside(e: State, stmt: Stmt)
    ensures var ran := RunStatement(e, stmt);
      Inside(e, ran.engine) && Inside(e, FetchAll(ran.engine, ran.cursor).engine)
  {
    ExecutedInside(e, [stmt]);
    assert ExecutedAll(e, [stmt]) == Executed(e, stmt);
    var ran := RunStatement(e, stmt);
    hide FetchAll, Executed;
    FetchAllInside(ran.engine, ran.cursor);
  }

  /** What a call with a statement does to the transaction. */
  ghost predicate Within(w: Wrapper, o: Outcome) {
    && (w.autocommit && w.engine.tx.None? ==> o.w.engine.tx.None?)
    && o.w.engine.begins == w.engine.begins + (if MustBegin(w) then 1 else 0)
    && (!w.autocommit ==> o.w.engine.committed == w.engine.committed)
    && (!w.autocommit && !o.response.Raised? ==> o.w.engine.tx.Some?)
    && (w.needsRollback ==> o.w == w && o.response == Raised(TransactionManagementError))
    && o.w.isOpen && o.w.autocommit == w.autocommit
  }

  lemma FailedInside(w: Wrapper, ends: bool)
    ensures var w' := StatementFailed(w, ends);
      && w'.engine.begins == w.engine.begins && w'.engine.committed == w.engine.committed
      && w'.isOpen == w.isOpen && w'.autocommit == w.autocommit && (w.engine.tx.None? ==> w'.engine.tx.None?)
  {
  }

  lemma RefusedWithin(w: Wrapper, fails: bool, o: Outcome)
    requires w.isOpen && Guard(w, fails).error.Some?
    requires o.w == Guard(w, fails).w && o.response == Raised(Guard(w, fails).error.value)
    ensures Within(w, o)
  {
    BeginsOfGuard(w, fails);
  }

  lemma StepWithin(w: Wrapper, fails: bool, o: Outcome)
    requires w.isOpen && Guard(w, fails).error.None?
    requires o.w == Guard(w, fails).w.(engine := o.w.engine) && Inside(Guard(w, fails).w.engine, o.w.engine)
    ensures Within(w, o)
  {
    BeginsOfGuard(w, fails);
  }

  lemma FailureWithin(w: Wrapper, fails: bool, w1: Wrapper, ends: bool, o: Outcome)
    requires w.isOpen && Guard(w, fails).error.None?
    requires w1 == Guard(w, fails).w.(engine := w1.engine) && Inside(Guard(w, fails).w.engine, w1.engine)
    requires o.w == StatementFailed(w1, ends) && o.response.Raised?
    ensures Within(w, o)
  {
    BeginsOfGuard(w, fails);
    FailedInside(w1, ends);
    hide StatementFailed, Guard, MustBegin;
  }

  lemma ExecuteWithin(w: Wrapper, c: CursorState, stmt: Stmt, f: ExecuteFaults)
    requires w.isOpen
    ensures Within(w, Execute(w, c, stmt, f))
  {
    hide Within, Guard, StatementFailed, FetchAll, RunStatement, Inside, WriteDetector.IsWrite;
    var g, o := Guard(w, f.begin), Execute(w, c, stmt, f);
    if g.error.Some? {
      RefusedWithin(w, f.begin, o);
    } else {
      NothingIsInside(g.w.engine);
      RunInside(g.w.engine, stmt);
      if f.binding {
        StepWithin(w, f.begin, o);
      } else if c.driver.Closed? {
        FailureWithin(w, f.begin, g.w, false, o);
      } else if f.run.Fails? {
        FailureWithin(w, f.begin, g.w, f.run.ends, o);
      } else if stmt.returnsRows && WriteDetector.IsWrite(stmt.tokens) && f.drain.Fails? {
        FailureWithin(w, f.begin, g.w, f.drain.ends, o);
      } else {
        StepWithin(w, f.begin, o);
      }
    }
  }

  lemma NothingIsInside(e: State)
    ensures Inside(e, e)
  {
  }

  lemma ExecuteManyWithin(w: Wrapper, c: CursorState, stmts: seq<Stmt>, f: BatchFaults)
    requires w.isOpen
    ensures Within(w, ExecuteMany(w, c, stmts, f))
  {
    hide Within, Guard, StatementFailed, ExecutedAll, Inside;
    var g, o := Guard(w, f.begin), ExecuteMany(w, c, stmts, f);
    if g.error.Some? {
      RefusedWithin(w, f.begin, o);
    } else {
      NothingIsInside(g.w.engine);
      var taken := if f.stop.Never? || f.taken > |stmts| then |stmts| else f.taken;
      ExecutedInside(g.w.engine, stmts[..taken]);
      var w1 := g.w.(engine := ExecutedAll(g.w.engine, stmts[..taken]));
      if stmts != [] && !f.translation && c.driver.Closed? {
        FailureWithin(w, f.begin, g.w, false, o);
      } else if stmts != [] && !f.translation && f.stop.DriverStopped? {
        FailureWithin(w, f.begin, w1, f.stop.ends, o);
      } else {
        StepWithin(w, f.begin, o);
      }
    }
  }

  lemma FetchWithin(w: Wrapper, c: CursorState, how: Fetch, f: Faults)
    requires w.isOpen
    ensures Within(w, FetchRows(w, c, how, f))
  {
    hide Within, Guard, StatementFailed, FetchDriver, FetchStored, Inside;
    var g, o := Guard(w, f.begin), FetchRows(w, c, how, f);
    if g.error.Some? {
      RefusedWithin(w, f.begin, o);
    } else {
      NothingIsInside(g.w.engine);
      DriverInside(g.w.engine, c.driver, how);
      if c.returning.None? && c.driver.Closed? {
        FailureWithin(w, f.begin, g.w, false, o);
      } else if c.returning.None? && f.statement.Fails? {
        FailureWithin(w, f.begin, g.w, f.statement.ends, o);
      } else {
        StepWithin(w, f.begin, o);
      }
    }
  }

  /** A call with a statement issues one BEGIN exactly when a transaction must be begun for it. With autocommit
      off it changes nothing that is committed, and when it finishes a transaction is active. A block marked for
      rollback refuses it. */
  lemma StatementsRunInTransactions(s: Session, op: Op)
    requires s.w.isOpen && SendsStatement(op)
    ensures var step := Next(s, op);
      && step.s.w.engine.begins == s.w.engine.begins + (if MustBegin(s.w) then 1 else 0)
      && (!s.w.autocommit ==> step.s.w.engine.committed == s.w.engine.committed)
      && (!s.w.autocommit && !step.response.Raised? ==> step.s.w.engine.tx.Some?)
      && (s.w.autocommit && s.w.engine.tx.None? ==> step.s.w.engine.tx.None?)
      && (s.w.needsRollback ==> step.s.w == s.w && step.response == Raised(TransactionManagementError))
      && step.s.w.isOpen && step.s.w.autocommit == s.w.autocommit
  {
    hide Execute, ExecuteMany, FetchRows, MustBegin;
    match op {
      case DoExecute(id, stmt, f) => ExecuteWithin(s.w, CursorOf(s.cursors, id), stmt, f);
      case DoExecuteMany(id, stmts, f) => ExecuteManyWithin(s.w, CursorOf(s.cursors, id), stmts, f);
      case DoFetch(id, how, f) => FetchWithin(s.w, CursorOf(s.cursors, id), how, f);
    }
  }

  // ----- Commits -----

  /** The call commits the active transaction: a commit outside atomic blocks, or leaving, without an exception
      and without a mark, the outermost block that began it. */
  predicate Commits(w: Wrapper, op: Op) {
    && w.isOpen && w.engine.tx.Some?
    && ((op.DoCommit? && op.fault == NoFault && !w.inAtomicBlock)
        || (op.DoAtomicExit? && w.blocks > 0 && w.savepointIds == [] && !op.failed && !w.needsRollback
            && op.exit.commit == NoFault))
  }

  lemma SavepointedInside(e: State, action: SavepointAction)
    ensures var r := Savepointed(e, action); r.Some? ==> e.tx.Some? && Inside(e, r.value)
  {
  }

  lemma SavepointCommitsNothing(w: Wrapper, action: SavepointAction, f: Faults)
    ensures SavepointStatement(w, action, f).w.engine.committed == w.engine.committed
  {
    hide Savepointed, StatementFailed;
    GuardCommitsNothing(w, f.begin);
    var g := Guard(w, f.begin);
    hide Guard;
    SavepointedInside(g.w.engine, action);
    FailedInside(g.w, true);
    FailedInside(g.w, false);
  }

  lemma GuardCommitsNothing(w: Wrapper, fails: bool)
    ensures Guard(w, fails).w.engine.committed == w.engine.committed
  {
  }

  lemma LeaveByRollbackCommitsNothing(w: Wrapper, sid: Option<nat>, first: Faults, second: Faults)
    ensures LeaveByRollback(w, sid, first, second).engine.committed == w.engine.committed
  {
    hide SavepointStatement;
    if sid.Some? {
      SavepointCommitsNothing(w, RollbackTo(sid.value), first);
      var r := SavepointRollback(w, sid.value, first);
      SavepointCommitsNothing(r.w, Release(sid.value), second);
    }
  }

  lemma LeaveBySavepointCommitsNothing(w: Wrapper, sid: Option<nat>, f: ExitFaults)
    ensures LeaveBySavepoint(w, sid, f).w.engine.committed == w.engine.committed
  {
    hide SavepointStatement, LeaveByRollback;
    if sid.Some? {
      SavepointCommitsNothing(w, Release(sid.value), f.first);
      var r := SavepointCommit(w, sid.value, f.first);
      LeaveByRollbackCommitsNothing(r.w, sid, f.second, f.third);
    }
  }

  lemma UnwindKeepsEngine(r: Reply)
    ensures Unwind(r).w.engine == r.w.engine
  {
  }

  lemma ExitCommits(w: Wrapper, failed: bool, f: ExitFaults)
    requires w.isOpen && w.blocks > 0 && (w.savepointIds != [] ==> w.inAtomicBlock)
    ensures AtomicExit(w, failed, f).w.engine.committed ==
        if Commits(w, DoAtomicExit(failed, f)) then w.engine.tx.value.working else w.engine.committed
  {
    hide Unwind, LeaveBySavepoint, LeaveByRollback;
    var sid := if w.savepointIds == [] then None else w.savepointIds[|w.savepointIds| - 1];
    var w1 := PopBlock(w);
    var w2 := w1.(needsRollback := false);
    if w1.inAtomicBlock {
      LeaveBySavepointCommitsNothing(w1, sid, f);
      LeaveByRollbackCommitsNothing(w2, sid, f.first, f.second);
      UnwindKeepsEngine(LeaveBySavepoint(w1, sid, f));
      UnwindKeepsEngine(Done(LeaveByRollback(w2, sid, f.first, f.second)));
    } else {
      UnwindKeepsEngine(LeaveOutermost(w1, f));
      UnwindKeepsEngine(Done(RollbackOrDrop(w2, f.rollback)));
    }
  }

  lemma ControlCommits(w: Wrapper, op: Op)
    requires w.isOpen && OnWrapper(op) && (w.savepointIds != [] ==> w.inAtomicBlock)
    ensures WrapperStep(w, op).w.engine.committed ==
        if Commits(w, op) then w.engine.tx.value.working else w.engine.committed
  {
    hide SavepointStatement, AtomicEnter;
    match op {
      case DoSavepointRollback(sid, f) => SavepointCommitsNothing(w, RollbackTo(sid), f);
      case DoAtomicEnter(savepoint, f) => EnterCommitsNothing(w, savepoint, f);
      case DoAtomicExit(failed, f) =>
        hide AtomicExit;
        if w.blocks > 0 {
          ExitCommits(w, failed, f);
        }
      case _ =>
    }
  }

  lemma EnterCommitsNothing(w: Wrapper, savepoint: bool, f: Faults)
    ensures AtomicEnter(w, savepoint, f).w.engine.committed == w.engine.committed
  {
    hide SavepointStatement;
    var w1 :=
      if w.inAtomicBlock then w
      else w.(commitOnExit := w.autocommit, needsRollback := false, inAtomicBlock := !w.autocommit);
    SavepointCommitsNothing(w1.(nextSid := w1.nextSid + 1), Save(w1.nextSid), f);
  }

  /** With autocommit off, the committed database changes in a commit only, and then to what the transaction
      has made of it. */
  lemma OnlyCommitsCommit(s: Session, op: Op)
    requires s.w.isOpen ==> !s.w.autocommit
    requires s.w.savepointIds != [] ==> s.w.inAtomicBlock
    ensures Next(s, op).s.w.engine.committed ==
        if Commits(s.w, op) then s.w.engine.tx.value.working else s.w.engine.committed
  {
    hide Execute, ExecuteMany, FetchRows, WrapperStep, MustBegin;
    if s.w.isOpen {
      if SendsStatement(op) {
        StatementsRunInTransactions(s, op);
      } else if OnWrapper(op) {
        ControlCommits(s.w, op);
      }
    }
  }

  // ----- Every session -----

  /** Blocks are open only while autocommit is off, savepoints belong to open blocks, and autocommit means that
      no transaction is active. */
  predicate Orderly(w: Wrapper) {
    && (w.inAtomicBlock ==> !w.autocommit)
    && (w.savepointIds != [] ==> w.inAtomicBlock)
    && (w.autocommit ==> w.engine.tx.None?)
  }

  lemma OrderlyKept(w: Wrapper, w': Wrapper)
    requires Orderly(w) && Safety.Keeps(w, w') && (w.autocommit ==> w'.engine.tx.None?)
    ensures Orderly(w')
  {
  }

  lemma OrderlyMeans(w: Wrapper)
    requires Orderly(w)
    ensures w.autocommit ==> w.engine.tx.None?
  {
  }

  lemma UnwindOrderly(r: Reply)
    requires Orderly(r.w)
    ensures Orderly(Unwind(r).w)
  {
  }

  lemma ExitOrderly(w: Wrapper, failed: bool, f: ExitFaults)
    requires Orderly(w) && w.blocks > 0
    ensures Orderly(AtomicExit(w, failed, f).w)
  {
    hide Unwind, LeaveBySavepoint, LeaveByRollback, Safety.Keeps;
    var sid := if w.savepointIds == [] then None else w.savepointIds[|w.savepointIds| - 1];
    var w1 := PopBlock(w);
    var w2 := w1.(needsRollback := false);
    hide LeaveOutermost, RollbackOrDrop;
    if w1.inAtomicBlock {
      Safety.LeaveBySavepointKeeps(w1, sid, f);
      Safety.LeaveByRollbackKeeps(w2, sid, f.first, f.second);
      InBlock(w1, LeaveBySavepoint(w1, sid, f).w);
      InBlock(w2, LeaveByRollback(w2, sid, f.first, f.second));
      UnwindOrderly(LeaveBySavepoint(w1, sid, f));
      UnwindOrderly(Done(LeaveByRollback(w2, sid, f.first, f.second)));
    } else {
      LeftOrderly(w1, f);
      LeftOrderly(w2, f);
      UnwindOrderly(LeaveOutermost(w1, f));
      UnwindOrderly(Done(RollbackOrDrop(w2, f.rollback)));
    }
  }

  lemma LeftOrderly(w: Wrapper, f: ExitFaults)
    requires Orderly(w) && !w.inAtomicBlock
    ensures Orderly(LeaveOutermost(w, f).w) && Orderly(RollbackOrDrop(w, f.rollback))
  {
  }

  lemma EnterOrderly(w: Wrapper, savepoint: bool, f: Faults)
    requires Orderly(w)
    ensures Orderly(AtomicEnter(w, savepoint, f).w)
  {
    hide SavepointStatement, Safety.Keeps;
    var w1 :=
      if w.inAtomicBlock then w
      else w.(commitOnExit := w.autocommit, needsRollback := false, inAtomicBlock := !w.autocommit);
    var w2 := w1.(nextSid := w1.nextSid + 1);
    Safety.StatementKeeps(w2, Save(w1.nextSid), f);
    InBlock(w2, SavepointStatement(w2, Save(w1.nextSid), f).w);
  }

  lemma ControlOrderly(w: Wrapper, op: Op)
    requires Orderly(w) && OnWrapper(op)
    ensures Orderly(WrapperStep(w, op).w)
  {
    match op {
      case DoSavepointRollback(sid, f) =>
        hide SavepointStatement, Safety.Keeps;
        Safety.SavepointRollbackKeeps(w, sid, f);
        InBlock(w, SavepointRollback(w, sid, f).w);
      case DoAtomicEnter(savepoint, f) =>
        hide AtomicEnter;
        EnterOrderly(w, savepoint, f);
      case DoAtomicExit(failed, f) =>
        hide AtomicExit;
        if w.blocks > 0 {
          ExitOrderly(w, failed, f);
        }
      case _ =>
    }
  }

  lemma OrderlyStep(s: Session, op: Op)
    requires Orderly(s.w)
    ensures Orderly(Next(s, op).s.w)
  {
    var w := s.w;
    if w.isOpen {
      hide Orderly, Safety.Keeps;
      if SendsStatement(op) {
        StatementKept(s, op);
        StatementsRunInTransactions(s, op);
        assert w.autocommit ==> Next(s, op).s.w.engine.tx.None? by {
          assert w.autocommit ==> w.engine.tx.None? by {
            OrderlyMeans(w);
          }
        }
        OrderlyKept(w, Next(s, op).s.w);
      } else if OnWrapper(op) {
        ControlOrderly(w, op);
        hide WrapperStep;
      }
    }
  }

  lemma StatementKept(s: Session, op: Op)
    requires s.w.isOpen && SendsStatement(op)
    ensures Safety.Keeps(s.w, Next(s, op).s.w)
  {
    hide Safety.Keeps, Execute, ExecuteMany, FetchRows;
    match op {
      case DoExecute(id, stmt, f) => Safety.ExecuteKeeps(s.w, CursorOf(s.cursors, id), stmt, f);
      case DoExecuteMany(id, stmts, f) => Safety.ExecuteManyKeeps(s.w, CursorOf(s.cursors, id), stmts, f);
      case DoFetch(id, how, f) => Safety.FetchKeeps(s.w, CursorOf(s.cursors, id), how, f);
    }
  }

  lemma {:induction false} OrderlyRun(s: Session, ops: seq<Op>)
    requires Orderly(s.w)
    ensures Orderly(Run(s, ops).s.w)
    decreases |ops|
  {
    if ops != [] {
      hide Next;
      OrderlyStep(s, ops[0]);
      OrderlyRun(Next(s, ops[0]).s, ops[1..]);
    }
  }

  /** In every session: autocommit means that no transaction is active. While it is off, one call changes the
      committed database exactly when it commits, and then to what the transaction has made of it. */
  lemma OnlyCommitsCommitInRuns(db: Db, autocommit: bool, before: seq<Op>, op: Op)
    ensures var s := Run(Start(db, autocommit), before).s;
      && (s.w.autocommit ==> s.w.engine.tx.None?)
      && (!s.w.autocommit ==>
          Next(s, op).s.w.engine.committed ==
            if Commits(s.w, op) then s.w.engine.tx.value.working else s.w.engine.committed)
  {
    hide Next, Run, Commits;
    OrderlyRun(Start(db, autocommit), before);
    var s := Run(Start(db, autocommit), before).s;
    if !s.w.autocommit {
      OnlyCommitsCommit(s, op);
    }
  }

  /** Switching autocommit on outside blocks is refused, with nothing changed, exactly while a transaction is
      active. Switching it off begins a transaction unless one is active, and fails exactly when that does. */
  lemma SwitchingModes(w: Wrapper, autocommit: bool, beginFails: bool)
    requires !w.inAtomicBlock
    ensures var r := SetAutocommit(w, autocommit, false, beginFails);
      && (autocommit ==>
          (if w.engine.tx.Some? then r == Raise(w, TransactionManagementError) else r.error.None? && r.w.autocommit))
      && (!autocommit ==>
          && r.w.engine.begins == w.engine.begins + (if w.engine.tx.Some? then 0 else 1)
          && (r.error.None? <==> w.engine.tx.Some? || !beginFails)
          && (r.error.None? ==> r.w.engine.tx.Some? && !r.w.autocommit)
          && (r.error.Some? ==> r.w.autocommit == w.autocommit))
      && Current(r.w.engine) == Current(w.engine)
  {
  }

  /** Closing gives up the active work and the waiting callbacks and nothing that is committed. An in-memory
      connection stays open exactly outside blocks; a block that loses its connection is marked. */
  lemma ClosingASession(w: Wrapper, inMemory: bool)
    requires w.isOpen
    ensures var w' := Close(w, inMemory);
      && w'.engine.committed == w.engine.committed && w'.engine.tx.None? && w'.runOnCommit == []
      && w'.engine.begins == w.engine.begins && w'.ran == w.ran
      && (w'.isOpen <==> inMemory && !w.inAtomicBlock)
      && (w'.needsRollback <==> w.needsRollback || w.inAtomicBlock)
  {
  }

  // ----- A session in manual mode -----

  /** Autocommit is off, and every open block pretends to be an inner one. */
  predicate Manual(w: Wrapper) {
    && !w.autocommit && |w.savepointIds| == w.blocks
    && (w.blocks > 0 ==> w.inAtomicBlock) && (w.inAtomicBlock ==> !w.commitOnExit)
  }

  /** The call neither commits nor goes back to autocommit. */
  predicate StaysManual(op: Op) {
    !op.DoCommit? && !(op.DoSetAutocommit? && op.autocommit)
  }

  lemma ManualKept(w: Wrapper, w': Wrapper)
    requires Manual(w) && Safety.Keeps(w, w')
    ensures Manual(w')
  {
  }

  lemma ManualExit(w: Wrapper, failed: bool, f: ExitFaults)
    requires Manual(w) && w.blocks > 0
    ensures Manual(AtomicExit(w, failed, f).w)
  {
    hide LeaveBySavepoint, LeaveByRollback, Safety.Keeps;
    var sid := w.savepointIds[|w.savepointIds| - 1];
    var w1 := PopBlock(w);
    var w2 := w1.(needsRollback := false);
    Safety.LeaveBySavepointKeeps(w1, sid, f);
    Safety.LeaveByRollbackKeeps(w2, sid, f.first, f.second);
    InBlock(w1, LeaveBySavepoint(w1, sid, f).w);
    InBlock(w2, LeaveByRollback(w2, sid, f.first, f.second));
  }

  lemma InBlock(w: Wrapper, w': Wrapper)
    requires Safety.Keeps(w, w')
    ensures w'.inAtomicBlock == w.inAtomicBlock && w'.autocommit == w.autocommit && w'.blocks == w.blocks
    ensures w'.commitOnExit == w.commitOnExit && w'.savepointIds == w.savepointIds
  {
  }

  lemma ManualEnter(w: Wrapper, savepoint: bool, f: Faults)
    requires Manual(w)
    ensures Manual(AtomicEnter(w, savepoint, f).w)
  {
    hide SavepointStatement, Safety.Keeps;
    var w1 :=
      if w.inAtomicBlock then w
      else w.(commitOnExit := w.autocommit, needsRollback := false, inAtomicBlock := !w.autocommit);
    var w2 := w1.(nextSid := w1.nextSid + 1);
    Safety.StatementKeeps(w2, Save(w1.nextSid), f);
    InBlock(w2, SavepointStatement(w2, Save(w1.nextSid), f).w);
  }

  lemma ManualStep(s: Session, op: Op)
    requires Manual(s.w) && StaysManual(op)
    ensures Manual(Next(s, op).s.w)
  {
    var w := s.w;
    hide Manual, Safety.Keeps;
    if w.isOpen {
      match op {
        case DoExecute(id, stmt, f) =>
          hide Execute;
          Safety.ExecuteKeeps(w, CursorOf(s.cursors, id), stmt, f);
          ManualKept(w, Execute(w, CursorOf(s.cursors, id), stmt, f).w);
        case DoExecuteMany(id, stmts, f) =>
          hide ExecuteMany;
          Safety.ExecuteManyKeeps(w, CursorOf(s.cursors, id), stmts, f);
          ManualKept(w, ExecuteMany(w, CursorOf(s.cursors, id), stmts, f).w);
        case DoFetch(id, how, f) =>
          hide FetchRows;
          Safety.FetchKeeps(w, CursorOf(s.cursors, id), how, f);
          ManualKept(w, FetchRows(w, CursorOf(s.cursors, id), how, f).w);
        case DoCloseCursor(id) =>
        case _ =>
          hide WrapperStep;
          ManualControl(w, op);
      }
    }
  }

  lemma ManualControl(w: Wrapper, op: Op)
    requires Manual(w) && StaysManual(op) && OnWrapper(op)
    ensures Manual(WrapperStep(w, op).w)
  {
    match op {
      case DoSavepointRollback(sid, f) =>
        hide SavepointRollback;
        Safety.SavepointRollbackKeeps(w, sid, f);
        ManualKept(w, SavepointRollback(w, sid, f).w);
      case DoAtomicEnter(savepoint, f) =>
        hide AtomicEnter;
        ManualEnter(w, savepoint, f);
      case DoAtomicExit(failed, f) =>
        hide AtomicExit;
        if w.blocks > 0 {
          ManualExit(w, failed, f);
        }
      case _ =>
    }
  }

  lemma {:induction false} ManualRun(s: Session, ops: seq<Op>)
    requires Manual(s.w) && forall k :: 0 <= k < |ops| ==> StaysManual(ops[k])
    ensures Manual(Run(s, ops).s.w) && Run(s, ops).s.w.engine.committed == s.w.engine.committed
    decreases |ops|
  {
    if ops != [] {
      hide Next;
      ManualStep(s, ops[0]);
      OnlyCommitsCommit(s, ops[0]);
      ManualRun(Next(s, ops[0]).s, ops[1..]);
    }
  }

  /** A connection in manual mode: whatever is executed, fetched, rolled back, closed or wrapped in atomic
      blocks, and whatever fails, the database stays as it was until somebody commits or goes back to
      autocommit; and a rollback that succeeds makes it visible again. */
  lemma NothingIsKeptWithoutCommit(db: Db, ops: seq<Op>)
    requires forall k :: 0 <= k < |ops| ==> StaysManual(ops[k])
    ensures var s := Run(Start(db, false), ops).s;
      && s.w.engine.committed == db
      && (s.w.isOpen && !s.w.inAtomicBlock ==>
          var step := Next(s, DoRollback(NoFault));
          step.response == Finished && Current(step.s.w.engine) == db)
  {
    hide Run;
    ManualRun(Start(db, false), ops);
  }
}

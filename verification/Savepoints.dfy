/** Rolling back to a savepoint, over whole sessions: it gives back the data of the savepoint's creation. */
module Savepoints {
  import opened Outcomes
  import opened Engine
  import opened Transactions
  import opened Sessions
  import WriteDetector

  // ----- No call invents a savepoint -----

  /** Every savepoint of the later state was there before. */
  ghost predicate Fewer(e: State, e': State) {
    e'.tx.Some? ==> forall p <- e'.tx.value.savepoints :: e.tx.Some? && p in e.tx.value.savepoints
  }

  lemma FewerTwice(a: State, b: State, c: State)
    requires Fewer(a, b) && Fewer(b, c)
    ensures Fewer(a, c)
  {
  }

  lemma {:induction false} ExecutedFewer(e: State, stmts: seq<Stmt>)
    ensures Fewer(e, ExecutedAll(e, stmts))
    decreases |stmts|
  {
    if stmts != [] {
      ExecutedFewer(Executed(e, stmts[0]), stmts[1..]);
      hide ExecutedAll;
      assert Fewer(e, Executed(e, stmts[0]));
    }
  }

  lemma {:induction false} FetchManyFewer(e: State, c: Engine.Cursor, size: nat)
    ensures Fewer(e, FetchMany(e, c, size).engine)
    decreases size
  {
    if size > 0 {
      var one := FetchOne(e, c);
      if one.rows != [] {
        FetchManyFewer(one.engine, one.cursor, size - 1);
      }
    }
  }

  lemma {:induction false} FetchAllFewer(e: State, c: Engine.Cursor)
    ensures Fewer(e, FetchAll(e, c).engine)
    decreases c.Pending?, if c.Active? then |c.rest| else 0
  {
    if c.Pending? {
      FetchAllFewer(e, Opened(e, c));
    } else {
      var one := FetchOne(e, c);
      if one.rows != [] {
        FetchAllFewer(one.engine, one.cursor);
      }
    }
  }

  lemma DriverFewer(e: State, c: Engine.Cursor, how: Fetch)
    ensures Fewer(e, FetchDriver(e, c, how).1.engine)
  {
    hide FetchAll, FetchMany;
    match how {
      case One =>
      case Many(size) => FetchManyFewer(e, c, if size < 0 then 0 else size);
      case All => FetchAllFewer(e, c);
    }
  }

  lemma RunFewer(e: State, stmt: Stmt)
    ensures var ran := RunStatement(e, stmt);
      Fewer(e, ran.engine) && Fewer(e, FetchAll(ran.engine, ran.cursor).engine)
  {
    ExecutedFewer(e, [stmt]);
    assert ExecutedAll(e, [stmt]) == Executed(e, stmt);
    var ran := RunStatement(e, stmt);
    hide FetchAll, Executed;
    FetchAllFewer(ran.engine, ran.cursor);
  }

  /** A call that creates no savepoint. */
  ghost predicate Loses(w: Wrapper, w': Wrapper) {
    Fewer(w.engine, w'.engine) && w'.nextSid == w.nextSid
  }

  lemma LosesTwice(a: Wrapper, b: Wrapper, c: Wrapper)
    requires Loses(a, b) && Loses(b, c)
    ensures Loses(a, c)
  {
  }

  lemma GuardLoses(w: Wrapper, fails: bool)
    ensures Loses(w, Guard(w, fails).w)
  {
  }

  lemma FailureLoses(w: Wrapper, ends: bool)
    ensures Loses(w, w) && Loses(w, StatementFailed(w, ends))
  {
  }

  lemma EngineLoses(w: Wrapper, e: State)
    requires Fewer(w.engine, e)
    ensures Loses(w, w.(engine := e))
  {
  }

  lemma ExecuteLoses(w: Wrapper, c: CursorState, stmt: Stmt, f: ExecuteFaults)
    ensures Loses(w, Execute(w, c, stmt, f).w)
  {
    GuardLoses(w, f.begin);
    hide Loses, Guard, StatementFailed, FetchAll, RunStatement, Fewer, WriteDetector.IsWrite;
    var g := Guard(w, f.begin);
    if g.error.None? {
      FailureLoses(g.w, true);
      FailureLoses(g.w, false);
      RunFewer(g.w.engine, stmt);
      var ran := RunStatement(g.w.engine, stmt);
      EngineLoses(g.w, ran.engine);
      EngineLoses(g.w, FetchAll(ran.engine, ran.cursor).engine);
      LosesTwice(w, g.w, Execute(w, c, stmt, f).w);
    }
  }

  lemma ExecuteManyLoses(w: Wrapper, c: CursorState, stmts: seq<Stmt>, f: BatchFaults)
    ensures Loses(w, ExecuteMany(w, c, stmts, f).w)
  {
    GuardLoses(w, f.begin);
    hide Loses, Guard, StatementFailed, ExecutedAll, Fewer;
    var g := Guard(w, f.begin);
    if g.error.None? {
      var taken := if f.stop.Never? || f.taken > |stmts| then |stmts| else f.taken;
      var w1 := g.w.(engine := ExecutedAll(g.w.engine, stmts[..taken]));
      ExecutedFewer(g.w.engine, stmts[..taken]);
      EngineLoses(g.w, w1.engine);
      FailureLoses(g.w, false);
      FailureLoses(w1, true);
      FailureLoses(w1, false);
      LosesTwice(g.w, w1, StatementFailed(w1, true));
      LosesTwice(g.w, w1, StatementFailed(w1, false));
      LosesTwice(w, g.w, ExecuteMany(w, c, stmts, f).w);
    }
  }

  lemma FetchLoses(w: Wrapper, c: CursorState, how: Fetch, f: Faults)
    ensures Loses(w, FetchRows(w, c, how, f).w)
  {
    GuardLoses(w, f.begin);
    hide Loses, Guard, StatementFailed, FetchDriver, FetchStored, Fewer;
    var g := Guard(w, f.begin);
    if g.error.None? {
      FailureLoses(g.w, true);
      FailureLoses(g.w, false);
      DriverFewer(g.w.engine, c.driver, how);
      EngineLoses(g.w, FetchDriver(g.w.engine, c.driver, how).1.engine);
      LosesTwice(w, g.w, FetchRows(w, c, how, f).w);
    }
  }

  lemma StatementLoses(w: Wrapper, action: SavepointAction, f: Faults)
    requires !action.Save?
    ensures Loses(w, SavepointStatement(w, action, f).w)
  {
    GuardLoses(w, f.begin);
    hide Guard, StatementFailed;
    var g := Guard(w, f.begin);
    if g.error.None? {
      FailureLoses(g.w, true);
      FailureLoses(g.w, false);
      var e := Savepointed(g.w.engine, action);
      if e.Some? {
        EngineLoses(g.w, e.value);
      }
      hide Loses;
      LosesTwice(w, g.w, SavepointStatement(w, action, f).w);
    }
  }

  lemma LeaveByRollbackLoses(w: Wrapper, sid: Option<nat>, first: Faults, second: Faults)
    ensures Loses(w, LeaveByRollback(w, sid, first, second))
  {
    hide SavepointStatement;
    if sid.Some? {
      StatementLoses(w, RollbackTo(sid.value), first);
      var r := SavepointRollback(w, sid.value, first);
      StatementLoses(r.w, Release(sid.value), second);
    }
  }

  lemma LeaveBySavepointLoses(w: Wrapper, sid: Option<nat>, f: ExitFaults)
    ensures Loses(w, LeaveBySavepoint(w, sid, f).w)
  {
    hide SavepointStatement, LeaveByRollback;
    if sid.Some? {
      StatementLoses(w, Release(sid.value), f.first);
      var r := SavepointCommit(w, sid.value, f.first);
      LeaveByRollbackLoses(r.w, sid, f.second, f.third);
    }
  }

  lemma UnwindLoses(r: Reply)
    ensures Unwind(r).w.engine == r.w.engine && Unwind(r).w.nextSid == r.w.nextSid
  {
  }

  lemma OutermostLoses(w: Wrapper, f: ExitFaults)
    ensures Loses(w, LeaveOutermost(w, f).w)
  {
  }

  lemma DropLoses(w: Wrapper, fault: Fault)
    ensures Loses(w, RollbackOrDrop(w, fault))
  {
  }

  lemma SameEngine(w: Wrapper, w1: Wrapper, w2: Wrapper, w3: Wrapper)
    requires w1.engine == w.engine && w1.nextSid == w.nextSid && Loses(w1, w2)
    requires w3.engine == w2.engine && w3.nextSid == w2.nextSid
    ensures Loses(w, w3)
  {
  }

  lemma ExitLoses(w: Wrapper, failed: bool, f: ExitFaults)
    requires w.blocks > 0
    ensures Loses(w, AtomicExit(w, failed, f).w)
  {
    hide Unwind, LeaveBySavepoint, LeaveByRollback, LeaveOutermost, RollbackOrDrop, Loses;
    var sid := if w.savepointIds == [] then None else w.savepointIds[|w.savepointIds| - 1];
    var w1 := PopBlock(w);
    var w2 := w1.(needsRollback := false);
    var out := AtomicExit(w, failed, f).w;
    if !failed && !w1.needsRollback {
      var r := if w1.inAtomicBlock then LeaveBySavepoint(w1, sid, f) else LeaveOutermost(w1, f);
      LeaveBySavepointLoses(w1, sid, f);
      OutermostLoses(w1, f);
      UnwindLoses(r);
      SameEngine(w, w1, r.w, out);
    } else {
      var r := if w2.inAtomicBlock then LeaveByRollback(w2, sid, f.first, f.second) else RollbackOrDrop(w2, f.rollback);
      LeaveByRollbackLoses(w2, sid, f.first, f.second);
      DropLoses(w2, f.rollback);
      UnwindLoses(Done(r));
      SameEngine(w, w2, r, out);
    }
  }

  // ----- What a savepoint holds -----

  /** A savepoint and the data of the moment at which it was created. */
  datatype Mark = Mark(sid: nat, db: Db)

  /** Every savepoint has a number that was given out. Wherever the marked one is still kept, it holds the data
      of its creation. */
  ghost predicate Taken(w: Wrapper, m: Option<Mark>) {
    && (w.engine.tx.Some? ==> forall p <- w.engine.tx.value.savepoints :: p.sid < w.nextSid)
    && (m.Some? ==>
        && m.value.sid < w.nextSid
        && (w.engine.tx.Some? ==>
            forall p <- w.engine.tx.value.savepoints :: p.sid == m.value.sid ==> p.db == m.value.db))
  }

  lemma LosesKeepsTaken(w: Wrapper, w': Wrapper, m: Option<Mark>)
    requires Taken(w, m) && Loses(w, w')
    ensures Taken(w', m)
  {
  }

  /** A new savepoint has a number of its own and holds the data of this moment. */
  lemma SaveIsTaken(w: Wrapper, f: Faults, m: Option<Mark>)
    requires Taken(w, m)
    ensures var r := SavepointCreate(w, f);
      && Taken(r.w, m)
      && (r.error.None? ==> Taken(r.w, Some(Mark(w.nextSid, Current(w.engine)))))
  {
    var w1 := w.(nextSid := w.nextSid + 1);
    GuardLoses(w1, f.begin);
    GuardKeepsData(w1, f.begin);
    OneNumberMore(w, m);
    CreateInSteps(w, f);
    hide *;
    var g := Guard(w1, f.begin);
    LosesKeepsTaken(w1, g.w, m);
    FailureLoses(g.w, true);
    FailureLoses(g.w, false);
    LosesKeepsTaken(g.w, StatementFailed(g.w, true), m);
    LosesKeepsTaken(g.w, StatementFailed(g.w, false), m);
    LosesMeans(w1, g.w);
    if g.error.None? && g.w.engine.tx.Some? {
      NewestIsTaken(w, g.w, m);
    }
  }

  /** Creating a savepoint: the guard, and then a failure or one more savepoint. */
  lemma CreateInSteps(w: Wrapper, f: Faults)
    ensures var r, g := SavepointCreate(w, f), Guard(w.(nextSid := w.nextSid + 1), f.begin);
      || (g.error.Some? && r == g)
      || (r.error.Some? && (r.w == StatementFailed(g.w, true) || r.w == StatementFailed(g.w, false)))
      || (g.error.None? && g.w.engine.tx.Some? && Savepointed(g.w.engine, Save(w.nextSid)).Some?
          && r == Done(g.w.(engine := Savepointed(g.w.engine, Save(w.nextSid)).value)))
  {
    hide Guard, StatementFailed;
  }

  lemma OneNumberMore(w: Wrapper, m: Option<Mark>)
    requires Taken(w, m)
    ensures Taken(w.(nextSid := w.nextSid + 1), m)
  {
  }

  lemma LosesMeans(w: Wrapper, w': Wrapper)
    requires Loses(w, w')
    ensures Fewer(w.engine, w'.engine) && w'.nextSid == w.nextSid
  {
  }

  lemma GuardKeepsData(w: Wrapper, fails: bool)
    ensures var g := Guard(w, fails);
      g.error.None? ==> Current(g.w.engine) == Current(w.engine)
  {
  }

  lemma NewestIsTaken(w: Wrapper, w1: Wrapper, m: Option<Mark>)
    requires Taken(w, m) && Taken(w1, m) && Fewer(w.engine, w1.engine)
    requires w1.nextSid == w.nextSid + 1 && w1.engine.tx.Some? && Current(w1.engine) == Current(w.engine)
    ensures var e := Savepointed(w1.engine, Save(w.nextSid));
      && e.Some? && Taken(w1.(engine := e.value), m)
      && Taken(w1.(engine := e.value), Some(Mark(w.nextSid, Current(w.engine))))
  {
  }

  lemma EnterKeepsTaken(w: Wrapper, savepoint: bool, f: Faults, m: Option<Mark>)
    requires Taken(w, m)
    ensures Taken(AtomicEnter(w, savepoint, f).w, m)
  {
    var w1 :=
      if w.inAtomicBlock then w
      else w.(commitOnExit := w.autocommit, needsRollback := false, inAtomicBlock := !w.autocommit);
    SaveIsTaken(w1, f, m);
    hide SavepointStatement;
  }

  /** The calls of the wrapper that leave savepoints alone or end the transaction. */
  predicate LeavesSavepoints(op: Op) {
    op.DoCommit? || op.DoRollback? || op.DoSetAutocommit? || op.DoOnCommit? || op.DoClose? || op.EngineAborts?
  }

  lemma PlainLoses(w: Wrapper, op: Op)
    requires OnWrapper(op) && LeavesSavepoints(op)
    ensures Loses(w, WrapperStep(w, op).w)
  {
    hide Fewer, SetAutocommit;
    var w' := WrapperStep(w, op).w;
    if op.DoSetAutocommit? {
      SwitchLoses(w, op.autocommit, op.beginFails);
    } else {
      KeptOrEmpty(w.engine, w'.engine);
    }
  }

  lemma SwitchLoses(w: Wrapper, autocommit: bool, fails: bool)
    ensures Loses(w, SetAutocommit(w, autocommit, false, fails).w)
  {
    hide Fewer;
    KeptOrEmpty(w.engine, SetAutocommit(w, autocommit, false, fails).w.engine);
  }

  lemma KeptOrEmpty(e: State, e': State)
    requires e'.tx.None? || e'.tx == e.tx || e'.tx == Some(Tx(e.committed, []))
    ensures Fewer(e, e')
  {
  }

  lemma ControlKeepsTaken(w: Wrapper, op: Op, m: Option<Mark>)
    requires OnWrapper(op) && Taken(w, m)
    ensures Taken(WrapperStep(w, op).w, m)
  {
    hide AtomicEnter, AtomicExit, SavepointStatement, Commit, Rollback, SetAutocommit, OnCommit, Close, Taken;
    if LeavesSavepoints(op) {
      PlainLoses(w, op);
      LosesKeepsTaken(w, WrapperStep(w, op).w, m);
      return;
    }
    match op {
      case DoSavepointRollback(id, f) =>
        StatementLoses(w, RollbackTo(id), f);
        LosesKeepsTaken(w, SavepointRollback(w, id, f).w, m);
      case DoAtomicEnter(savepoint, f) => EnterKeepsTaken(w, savepoint, f, m);
      case DoAtomicExit(failed, f) =>
        if w.blocks > 0 {
          ExitLoses(w, failed, f);
          LosesKeepsTaken(w, AtomicExit(w, failed, f).w, m);
        }
      case _ =>
    }
  }

  lemma StepKeepsTaken(s: Session, op: Op, m: Option<Mark>)
    requires Taken(s.w, m)
    ensures Taken(Next(s, op).s.w, m)
  {
    var w := s.w;
    if w.isOpen {
      hide Taken, Loses, Execute, ExecuteMany, FetchRows, WrapperStep;
      match op {
        case DoExecute(id, stmt, f) =>
          ExecuteLoses(w, CursorOf(s.cursors, id), stmt, f);
          LosesKeepsTaken(w, Next(s, op).s.w, m);
        case DoExecuteMany(id, stmts, f) =>
          ExecuteManyLoses(w, CursorOf(s.cursors, id), stmts, f);
          LosesKeepsTaken(w, Next(s, op).s.w, m);
        case DoFetch(id, how, f) =>
          FetchLoses(w, CursorOf(s.cursors, id), how, f);
          LosesKeepsTaken(w, Next(s, op).s.w, m);
        case DoCloseCursor(id) =>
        case _ => ControlKeepsTaken(w, op, m);
      }
    }
  }

  lemma {:induction false} RunKeepsTaken(s: Session, ops: seq<Op>, m: Option<Mark>)
    requires Taken(s.w, m)
    ensures Taken(Run(s, ops).s.w, m)
    decreases |ops|
  {
    if ops != [] {
      hide Next;
      StepKeepsTaken(s, ops[0], m);
      RunKeepsTaken(Next(s, ops[0]).s, ops[1..], m);
    }
  }

  // ----- Rolling back -----

  lemma RollbackToTaken(w: Wrapper, f: Faults, m: Mark)
    requires Taken(w, Some(m))
    ensures var r := SavepointRollbackHook(w, m.sid, f);
      r.error.None? ==> r.w.engine.tx.Some? && Current(r.w.engine) == m.db
  {
    if w.engine.tx.Some? {
      hide StatementFailed;
      var i := FindSavepoint(w.engine.tx.value.savepoints, m.sid);
      assert i.Some? ==> w.engine.tx.value.savepoints[i.value] in w.engine.tx.value.savepoints;
    }
  }

  /** Without a transaction nothing is sent: the savepoints are reported as lost and nothing changes. */
  lemma LostSavepointsAreReported(w: Wrapper, sid: nat, f: Faults)
    requires w.engine.tx.None? && !w.autocommit
    ensures SavepointRollback(w, sid, f) == Raise(w, TransactionManagementError)
  {
  }

  /** Any session, a block entered in it with a savepoint (an inner one, or any block in manual mode), and any
      calls after that, nested blocks included. A rollback to that savepoint either raises or gives back the data of
      the moment at which it was created. */
  lemma RollbackRestoresData(
      db: Db, autocommit: bool, before: seq<Op>, enter: Faults, after: seq<Op>, rollback: Faults)
    requires var s := Run(Start(db, autocommit), before).s;
      && s.w.isOpen && (if s.w.inAtomicBlock then !s.w.needsRollback else !s.w.autocommit)
      && Next(s, DoAtomicEnter(true, enter)).response == Finished
    ensures var s := Run(Start(db, autocommit), before).s;
      var later := Run(Next(s, DoAtomicEnter(true, enter)).s, after).s;
      var step := Next(later, DoSavepointRollback(s.w.nextSid, rollback));
      later.w.isOpen && !later.w.autocommit && step.response == Finished ==>
        step.s.w.engine.tx.Some? && Current(step.s.w.engine) == Current(s.w.engine)
  {
    hide Run, Taken, SavepointCreate, SavepointRollbackHook;
    assert Taken(Start(db, autocommit).w, None) by {
      NothingTaken(db, autocommit);
    }
    RunKeepsTaken(Start(db, autocommit), before, None);
    var s := Run(Start(db, autocommit), before).s;
    SaveIsTaken(s.w, enter, None);
    var m := Mark(s.w.nextSid, Current(s.w.engine));
    var entered := Next(s, DoAtomicEnter(true, enter)).s;
    EnteredIsTaken(s.w, enter);
    RunKeepsTaken(entered, after, Some(m));
    RollbackToTaken(Run(entered, after).s.w, rollback, m);
  }

  lemma NothingTaken(db: Db, autocommit: bool)
    ensures Taken(Start(db, autocommit).w, None)
  {
  }

  lemma EnteredIsTaken(w: Wrapper, f: Faults)
    requires Taken(w, None) && (if w.inAtomicBlock then !w.needsRollback else !w.autocommit)
    requires AtomicEnter(w, true, f).error.None?
    ensures Taken(AtomicEnter(w, true, f).w, Some(Mark(w.nextSid, Current(w.engine))))
  {
    var w1 :=
      if w.inAtomicBlock then w
      else w.(commitOnExit := w.autocommit, needsRollback := false, inAtomicBlock := !w.autocommit);
    SaveIsTaken(w1, f, None);
    hide SavepointCreate;
  }

  /** Leaving a block with an exception gives back the data of its beginning, or marks the enclosing block. */
  lemma FailedBlockIsUndone(w: Wrapper, f: ExitFaults, m: Mark)
    requires w.blocks > 0 && w.inAtomicBlock && !w.autocommit && Taken(w, Some(m))
    requires w.savepointIds != [] && w.savepointIds[|w.savepointIds| - 1] == Some(m.sid)
    ensures var w' := AtomicExit(w, true, f).w;
      w'.inAtomicBlock && !w'.needsRollback ==> Current(w'.engine) == m.db
  {
    var w2 := PopBlock(w).(needsRollback := false);
    hide Unwind, LeaveByRollback, Taken;
    TakenWithout(w, w2, m);
    UndoneOrMarked(w2, f, m);
    var left := LeaveByRollback(w2, Some(m.sid), f.first, f.second);
    UnwindLoses(Done(left));
    UnwindKeepsMark(Done(left));
  }

  lemma TakenWithout(w: Wrapper, w2: Wrapper, m: Mark)
    requires Taken(w, Some(m)) && w2.engine == w.engine && w2.nextSid == w.nextSid
    ensures Taken(w2, Some(m))
  {
  }

  lemma UnwindKeepsMark(r: Reply)
    ensures Unwind(r).w.needsRollback == r.w.needsRollback
  {
  }

  lemma UndoneOrMarked(w: Wrapper, f: ExitFaults, m: Mark)
    requires !w.autocommit && Taken(w, Some(m))
    ensures var w' := LeaveByRollback(w, Some(m.sid), f.first, f.second);
      !w'.needsRollback ==> Current(w'.engine) == m.db
  {
    RollbackToTaken(w, f.first, m);
    var r := SavepointRollback(w, m.sid, f.first);
    ReleaseKeepsData(r.w, m.sid, f.second);
    hide SavepointRollbackHook, SavepointCommit;
  }

  lemma ReleaseKeepsData(w: Wrapper, sid: nat, f: Faults)
    ensures var r := SavepointCommit(w, sid, f); r.error.None? ==> Current(r.w.engine) == Current(w.engine)
  {
  }
}

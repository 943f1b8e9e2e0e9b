/** A transaction that the engine ends without any error, while an atomic block is open. */
module SilentLosses {
  import opened Outcomes
  import opened Engine
  import opened Transactions
  import opened Sessions
  import opened Safety

  /** The transaction is gone, and the wrapper does not know. */
  predicate Unnoticed(w: Wrapper) {
    w.isOpen && w.inAtomicBlock && !w.autocommit && w.engine.tx.None? && !w.needsRollback
  }

  /** The call leaves a block that has a savepoint. */
  predicate LeavesSavepoint(w: Wrapper, op: Op) {
    op.DoAtomicExit? && w.blocks > 0 && w.savepointIds != [] && w.savepointIds[|w.savepointIds| - 1].Some?
  }

  /** The call sends a statement through the guard. */
  predicate Guarded(w: Wrapper, op: Op) {
    || op.DoExecute? || op.DoExecuteMany? || op.DoFetch?
    || (op.DoAtomicEnter? && op.savepoint)
    || (LeavesSavepoint(w, op) && !op.failed)
  }

  /** The call marks the block as broken: by a guarded statement, by leaving an inner block with an exception,
      or by closing the connection. */
  predicate Notices(w: Wrapper, op: Op) {
    || Guarded(w, op)
    || (op.DoAtomicExit? && op.failed && w.blocks > 0 && w.savepointIds != [])
    || op.DoClose?
  }

  // ----- One call -----

  /** A call that does not notice the loss issues no BEGIN, and unless it leaves the outermost block, the
      loss stays unnoticed and every callback stays. */
  ghost predicate StaysUnnoticed(w: Wrapper, w': Wrapper) {
    && w'.engine.begins == w.engine.begins
    && (w'.inAtomicBlock ==>
        && Unnoticed(w') && w'.commitOnExit == w.commitOnExit && w'.ran == w.ran
        && Ids(w.runOnCommit) <= Ids(w'.runOnCommit))
  }

  lemma QuietStep(s: Session, op: Op)
    requires Unnoticed(s.w) && !Notices(s.w, op)
    ensures StaysUnnoticed(s.w, Next(s, op).s.w)
  {
    var w := s.w;
    match op {
      case DoAtomicExit(failed, f) =>
        if w.blocks > 0 {
          QuietExit(w, failed, f);
        }
      case DoOnCommit =>
        var added := OnCommit(w).w.runOnCommit;
        IdsOfAppend(w.runOnCommit, added[|added| - 1]);
      case _ =>
    }
  }

  lemma QuietExit(w: Wrapper, failed: bool, f: ExitFaults)
    requires Unnoticed(w) && w.blocks > 0 && !Notices(w, DoAtomicExit(failed, f))
    ensures StaysUnnoticed(w, AtomicExit(w, failed, f).w)
  {
    hide Ids, SavepointCommit, SavepointRollback;
    if w.savepointIds == [] {
      var w1 := PopBlock(w);
      LeavingBeginsNothing(w1, f);
      UnwindKeepsEngine(Done(RollbackOrDrop(w1.(needsRollback := false), f.rollback)));
      UnwindKeepsEngine(LeaveOutermost(w1, f));
      UnwindStaysOut(Done(RollbackOrDrop(w1.(needsRollback := false), f.rollback)));
      UnwindStaysOut(LeaveOutermost(w1, f));
      hide Unwind, LeaveOutermost, RollbackOrDrop;
    }
  }

  lemma UnwindStaysOut(r: Reply)
    requires !r.w.inAtomicBlock
    ensures !Unwind(r).w.inAtomicBlock
  {
    hide Ids;
  }

  lemma DroppingBeginsNothing(w: Wrapper, fault: Fault)
    requires !w.inAtomicBlock
    ensures var w' := RollbackOrDrop(w, fault); !w'.inAtomicBlock && w'.engine.begins == w.engine.begins
  {
  }

  lemma LeavingBeginsNothing(w: Wrapper, f: ExitFaults)
    requires !w.inAtomicBlock
    ensures var w' := LeaveOutermost(w, f).w; !w'.inAtomicBlock && w'.engine.begins == w.engine.begins
    ensures var w' := RollbackOrDrop(w, f.rollback); !w'.inAtomicBlock && w'.engine.begins == w.engine.begins
  {
    DroppingBeginsNothing(w, f.rollback);
    var r := Commit(w, f.commit);
    assert !r.w.inAtomicBlock && r.w.engine.begins == w.engine.begins;
    DroppingBeginsNothing(r.w, f.rollback);
    hide Commit, RollbackOrDrop;
  }

  /** A guarded statement notices the loss in a block that `Atomic` began, and begins a new transaction in
      manual mode. */
  ghost predicate NoticedOrBegun(w: Wrapper, w': Wrapper) {
    if w.commitOnExit then
      && Lost(w') && w'.runOnCommit == [] && w'.ran == w.ran && w'.engine == w.engine && w'.commitOnExit
    else w'.engine.begins == w.engine.begins + 1
  }

  lemma ExecuteNotices(w: Wrapper, c: CursorState, stmt: Stmt, f: ExecuteFaults)
    requires Unnoticed(w)
    ensures NoticedOrBegun(w, Execute(w, c, stmt, f).w)
    ensures w.commitOnExit ==> Execute(w, c, stmt, f).response == Raised(TransactionManagementError)
  {
    var g := Guard(w, f.begin);
    if g.error.None? {
      var ran := RunStatement(g.w.engine, stmt);
      ExecutedKeepsCounts(g.w.engine, [stmt]);
      assert ExecutedAll(g.w.engine, [stmt]) == Executed(g.w.engine, stmt);
      FetchAllKeepsCounts(ran.engine, ran.cursor);
      hide Executed, FetchAll, ExecutedAll;
    }
  }

  lemma ExecuteManyNotices(w: Wrapper, c: CursorState, stmts: seq<Stmt>, f: BatchFaults)
    requires Unnoticed(w)
    ensures NoticedOrBegun(w, ExecuteMany(w, c, stmts, f).w)
    ensures w.commitOnExit ==> ExecuteMany(w, c, stmts, f).response == Raised(TransactionManagementError)
  {
    var g := Guard(w, f.begin);
    if g.error.None? {
      var taken := if f.stop.Never? || f.taken > |stmts| then |stmts| else f.taken;
      ExecutedKeepsCounts(g.w.engine, stmts[..taken]);
      hide ExecutedAll;
    }
  }

  lemma FetchNotices(w: Wrapper, c: CursorState, how: Sessions.Fetch, f: Faults)
    requires Unnoticed(w)
    ensures NoticedOrBegun(w, FetchRows(w, c, how, f).w)
    ensures w.commitOnExit ==> FetchRows(w, c, how, f).response == Raised(TransactionManagementError)
  {
    var g := Guard(w, f.begin);
    if g.error.None? {
      FetchAllKeepsCounts(g.w.engine, c.driver);
      match how {
        case One =>
        case Many(size) => FetchManyKeepsCounts(g.w.engine, c.driver, if size < 0 then 0 else size);
        case All =>
      }
      hide FetchAll, FetchMany;
    }
  }

  lemma EnterNotices(w: Wrapper, f: Faults)
    requires Unnoticed(w)
    ensures NoticedOrBegun(w, AtomicEnter(w, true, f).w)
    ensures w.commitOnExit ==> AtomicEnter(w, true, f).error == Some(TransactionManagementError)
  {
  }

  /** Releasing a savepoint of the lost transaction: it is noticed, or a transaction without savepoints is
      begun, so that the release fails in either case. */
  lemma ReleaseNotices(w: Wrapper, sid: nat, f: Faults)
    requires Unnoticed(w)
    ensures var r := SavepointCommit(w, sid, f);
      && r.error.Some? && r.w.inAtomicBlock && !r.w.autocommit && r.w.savepointIds == w.savepointIds
      && r.w.commitOnExit == w.commitOnExit
      && (w.commitOnExit ==>
          r.error.value == TransactionManagementError && r.w == w.(needsRollback := true, runOnCommit := []))
      && (!w.commitOnExit ==> r.w.engine.begins == w.engine.begins + 1)
  {
  }

  /** A statement inside a transaction begins none; a lost transaction stays lost. */
  lemma StatementBeginsNothing(w: Wrapper, action: SavepointAction, f: Faults)
    requires w.engine.tx.Some?
    ensures var r := SavepointStatement(w, action, f);
      && r.w.engine.begins == w.engine.begins && r.w.savepointIds == w.savepointIds && r.w.autocommit == w.autocommit
      && (r.error.None? ==> r.w.engine.tx.Some?)
  {
    SavepointedKeeps(w.engine, action);
    FailureBeginsNothing(w, false);
    FailureBeginsNothing(w, f.statement.Fails? && f.statement.ends);
    hide Savepointed, StatementFailed;
  }

  lemma FailureBeginsNothing(w: Wrapper, ends: bool)
    ensures var w' := StatementFailed(w, ends);
      w'.engine.begins == w.engine.begins && w'.savepointIds == w.savepointIds && w'.autocommit == w.autocommit
  {
  }

  /** Rolling back to a savepoint never begins a transaction. */
  lemma RollbackBeginsNothing(w: Wrapper, sid: nat, first: Faults, second: Faults)
    requires w.inAtomicBlock && !w.autocommit
    ensures var w' := LeaveByRollback(w, Some(sid), first, second);
      && w'.engine.begins == w.engine.begins && w'.savepointIds == w.savepointIds
      && (w.engine.tx.None? ==> w' == w.(needsRollback := true))
  {
    hide Without, SavepointStatement;
    if w.engine.tx.Some? {
      StatementBeginsNothing(w, RollbackTo(sid), first);
      var r := SavepointRollback(w, sid, first);
      if r.error.None? {
        StatementBeginsNothing(r.w, Release(sid), second);
      }
    }
  }

  lemma ExitNotices(w: Wrapper, f: ExitFaults)
    requires Unnoticed(w) && LeavesSavepoint(w, DoAtomicExit(false, f))
    ensures NoticedOrBegun(w, AtomicExit(w, false, f).w)
    ensures w.commitOnExit ==> AtomicExit(w, false, f).error == Some(TransactionManagementError)
  {
    var sid := w.savepointIds[|w.savepointIds| - 1];
    var w1 := PopBlock(w);
    var r := SavepointCommit(w1, sid.value, f.first);
    ReleaseNotices(w1, sid.value, f.first);
    RollbackBeginsNothing(r.w, sid.value, f.second, f.third);
    var out := LeaveBySavepoint(w1, sid, f);
    hide SavepointCommit, LeaveByRollback;
    assert out == Raise(LeaveByRollback(r.w, sid, f.second, f.third), r.error.value);
    hide LeaveBySavepoint, LeaveOutermost, SetAutocommit;
    assert AtomicExit(w, false, f) == Unwind(out);
    assert Unwind(out).w.engine == out.w.engine by {
      UnwindKeepsEngine(out);
    }
  }

  lemma UnwindKeepsEngine(r: Reply)
    ensures Unwind(r).w.engine == r.w.engine
  {
  }

  lemma GuardedStep(s: Session, op: Op)
    requires Unnoticed(s.w) && Guarded(s.w, op)
    ensures NoticedOrBegun(s.w, Next(s, op).s.w)
    ensures s.w.commitOnExit ==> Next(s, op).response == Raised(TransactionManagementError)
  {
    var w := s.w;
    hide NoticedOrBegun, Execute, ExecuteMany, FetchRows, AtomicEnter, AtomicExit;
    match op {
      case DoExecute(id, stmt, f) => ExecuteNotices(w, CursorOf(s.cursors, id), stmt, f);
      case DoExecuteMany(id, stmts, f) => ExecuteManyNotices(w, CursorOf(s.cursors, id), stmts, f);
      case DoFetch(id, how, f) => FetchNotices(w, CursorOf(s.cursors, id), how, f);
      case DoAtomicEnter(savepoint, f) => EnterNotices(w, f);
      case DoAtomicExit(failed, f) => ExitNotices(w, f);
    }
  }

  // ----- A block that `Atomic` began -----

  lemma FailedExitNotices(w: Wrapper, f: ExitFaults)
    requires Unnoticed(w) && w.commitOnExit && w.blocks > 0 && w.savepointIds != []
    ensures var w' := AtomicExit(w, true, f).w; Lost(w') && w'.commitOnExit && w'.ran == w.ran && w'.engine == w.engine
  {
    var sid := w.savepointIds[|w.savepointIds| - 1];
    var w1 := PopBlock(w).(needsRollback := false);
    LeaveByRollbackMarks(w1, sid, f.first, f.second);
    hide LeaveByRollback, SetAutocommit, LeaveOutermost, RollbackOrDrop, LeaveBySavepoint;
  }

  /** Once noticed, the loss is known until the block is left. */
  lemma NoticeStep(s: Session, op: Op)
    requires Unnoticed(s.w) && s.w.commitOnExit && Notices(s.w, op)
    ensures var w' := Next(s, op).s.w;
      Lost(w') && w'.commitOnExit && w'.ran == s.w.ran && w'.engine.begins == s.w.engine.begins
  {
    if Guarded(s.w, op) {
      GuardedStep(s, op);
    } else if op.DoAtomicExit? {
      FailedExitNotices(s.w, op.exit);
      hide AtomicExit;
    }
  }

  /** From a noticed loss on no callback runs, and leaving the block forgets those that still wait. */
  ghost predicate StaysLost(w: Wrapper, w': Wrapper) {
    && w'.ran == w.ran && w'.engine.begins == w.engine.begins
    && (if w'.inAtomicBlock then Lost(w') && w'.commitOnExit else w'.runOnCommit == [])
  }

  lemma LostExit(w: Wrapper, failed: bool, f: ExitFaults)
    requires Lost(w) && w.commitOnExit && !w.autocommit && w.blocks > 0
    ensures StaysLost(w, AtomicExit(w, failed, f).w)
  {
    var sid := if w.savepointIds == [] then None else w.savepointIds[|w.savepointIds| - 1];
    var w1 := PopBlock(w);
    var w2 := w1.(needsRollback := false);
    if w2.inAtomicBlock {
      LeaveByRollbackMarks(w2, sid, f.first, f.second);
      hide LeaveByRollback, SetAutocommit, LeaveOutermost, RollbackOrDrop, LeaveBySavepoint;
    } else {
      DropForgets(w2, f.rollback);
      UnwindWithoutCallbacks(Done(RollbackOrDrop(w2, f.rollback)));
      hide Unwind, RollbackOrDrop, LeaveOutermost, LeaveBySavepoint;
    }
  }

  lemma DropForgets(w: Wrapper, fault: Fault)
    requires !w.inAtomicBlock
    ensures var w' := RollbackOrDrop(w, fault);
      !w'.inAtomicBlock && w'.runOnCommit == [] && w'.ran == w.ran && w'.engine.begins == w.engine.begins
  {
  }

  lemma UnwindWithoutCallbacks(r: Reply)
    requires !r.w.inAtomicBlock && r.w.runOnCommit == []
    ensures var w' := Unwind(r).w;
      !w'.inAtomicBlock && w'.runOnCommit == [] && w'.ran == r.w.ran && w'.engine.begins == r.w.engine.begins
  {
    EmptyIds();
    assert forall ran: seq<nat> :: ran + [] == ran;
    hide Ids;
  }

  lemma LostStep(s: Session, op: Op)
    requires Sound(s.w) && Lost(s.w) && s.w.commitOnExit
    ensures StaysLost(s.w, Next(s, op).s.w)
  {
    var w := s.w;
    hide Ids;
    match op {
      case DoExecute(id, stmt, f) =>
      case DoExecuteMany(id, stmts, f) =>
      case DoFetch(id, how, f) =>
      case DoAtomicExit(failed, f) =>
        if w.isOpen && w.blocks > 0 {
          LostExit(w, failed, f);
          hide AtomicExit;
        }
      case _ =>
    }
  }

  lemma {:induction false} LostFate(s: Session, ops: seq<Op>)
    requires Sound(s.w) && Lost(s.w) && s.w.commitOnExit && ops != [] && BlockStaysOpen(s, ops)
    requires !Run(s, ops).s.w.inAtomicBlock
    ensures StaysLost(s.w, Run(s, ops).s.w)
    decreases |ops|
  {
    hide Next, Sound;
    var next := Next(s, ops[0]).s;
    NextAllowed(s, ops[0]);
    LostStep(s, ops[0]);
    RunTail(s, ops);
    assert Sound(next.w);
    if |ops| > 1 {
      LostFate(next, ops[1..]);
    } else {
      assert Run(next, ops[1..]).s == next;
    }
  }

  // ----- Runs -----

  /** No call notices the loss. */
  predicate AllQuiet(s: Session, ops: seq<Op>)
    decreases |ops|
  {
    ops == [] || (!Notices(s.w, ops[0]) && AllQuiet(Next(s, ops[0]).s, ops[1..]))
  }

  lemma {:induction false} QuietRun(s: Session, ops: seq<Op>)
    requires Unnoticed(s.w) && AllQuiet(s, ops) && BlockStaysOpen(s, ops)
    ensures StaysUnnoticed(s.w, Run(s, ops).s.w)
    decreases |ops|
  {
    if ops != [] {
      hide Next, Notices, Ids;
      var next := Next(s, ops[0]).s;
      QuietStep(s, ops[0]);
      RunTail(s, ops);
      if |ops| > 1 {
        QuietRun(next, ops[1..]);
      } else {
        assert Run(next, ops[1..]).s == next;
      }
    }
  }

  /** The outermost block is left without an exception, and the commit succeeds. */
  predicate LeavesWell(op: Op) {
    op.DoAtomicExit? && !op.failed && op.exit.commit == NoFault
  }

  /** What has become of a callback: it ran, or it will never run. */
  ghost predicate Decided(w: Wrapper, w': Wrapper, id: nat, ran: bool) {
    w'.engine.begins == w.engine.begins && id !in Ids(w'.runOnCommit) && (id in w'.ran <==> ran)
  }

  lemma LastStep(s: Session, op: Op, id: nat)
    requires Sound(s.w) && Unnoticed(s.w) && s.w.commitOnExit && id in Ids(s.w.runOnCommit)
    requires !Next(s, op).s.w.inAtomicBlock
    ensures Decided(s.w, Next(s, op).s.w, id, LeavesWell(op))
  {
    if Notices(s.w, op) {
      NoticeStep(s, op);
      assert false;
    }
    assert op.DoAtomicExit? && s.w.blocks > 0 && s.w.savepointIds == [] by {
      hide Ids, SavepointCommit, LeaveByRollback, LeaveOutermost, RollbackOrDrop, SetAutocommit;
    }
    LeavingDecides(s.w, op.failed, op.exit, id);
    hide AtomicExit;
  }

  lemma LeavingDecides(w: Wrapper, failed: bool, f: ExitFaults, id: nat)
    requires Sound(w) && Unnoticed(w) && w.blocks > 0 && w.savepointIds == [] && id in Ids(w.runOnCommit)
    ensures Decided(w, AtomicExit(w, failed, f).w, id, LeavesWell(DoAtomicExit(failed, f)))
  {
    EmptyIds();
    var w1 := PopBlock(w);
    if failed {
      DropForgets(w1, f.rollback);
      UnwindWithoutCallbacks(Done(RollbackOrDrop(w1, f.rollback)));
      hide Ids, RollbackOrDrop, Unwind, LeaveOutermost;
    } else if f.commit.Fails? {
      DropForgets(Commit(w1, f.commit).w, f.rollback);
      UnwindWithoutCallbacks(LeaveOutermost(w1, f));
      hide Ids, RollbackOrDrop, Unwind;
    } else {
      hide Ids, RollbackOrDrop;
    }
  }

  lemma {:induction false} CallbackFate(s: Session, during: seq<Op>, last: Op, id: nat)
    requires Sound(s.w) && Unnoticed(s.w) && s.w.commitOnExit && id in Ids(s.w.runOnCommit)
    requires BlockStaysOpen(s, during + [last]) && !Run(s, during + [last]).s.w.inAtomicBlock
    ensures Decided(s.w, Run(s, during + [last]).s.w, id, AllQuiet(s, during) && LeavesWell(last))
    decreases |during|
  {
    var ops := during + [last];
    var next := Next(s, ops[0]).s;
    assert Run(s, ops).s == Run(next, ops[1..]).s;
    RunTail(s, ops);
    NextAllowed(s, ops[0]);
    if during == [] {
      assert ops[1..] == [];
      LastStep(s, last, id);
    } else {
      assert ops[0] == during[0] && ops[1..] == during[1..] + [last];
      assert next.w.inAtomicBlock;
      hide Next, Notices, Ids, LeavesWell, BlockStaysOpen, Run;
      if Notices(s.w, during[0]) {
        NoticeStep(s, during[0]);
        LostFate(next, ops[1..]);
        NoneWaits(next.w, Run(next, ops[1..]).s.w, id);
      } else {
        QuietStep(s, during[0]);
        CallbackFate(next, during[1..], last, id);
      }
    }
  }

  lemma NoneWaits(w: Wrapper, w': Wrapper, id: nat)
    requires StaysLost(w, w') && !w'.inAtomicBlock
    ensures id !in Ids(w'.runOnCommit) && (id in w'.ran <==> id in w.ran)
  {
    EmptyIds();
  }

  /** The engine ends the transaction, and the wrapper is not told. */
  lemma AbortIsUnnoticed(s: Session)
    requires Sound(s.w) && s.w.isOpen && s.w.inAtomicBlock && !s.w.needsRollback
    ensures var lost := Next(s, EngineAborts).s;
      && Unnoticed(lost.w) && lost.w == s.w.(engine := lost.w.engine) && lost.w.engine.begins == s.w.engine.begins
  {
    hide Ids;
  }

  /** The theorem for blocks that `Atomic` began. Take any session, an engine that ends the transaction
      without an error, any calls while the block stays open, and the call that leaves it. No BEGIN is issued.
      A callback that was waiting runs, then or later, exactly when no call before the last one noticed the
      loss and the block was left without an exception and with a commit that succeeded. */
  lemma SilentLossUnderAutocommit(
      db: Db, autocommit: bool, before: seq<Op>, during: seq<Op>, last: Op, later: seq<Op>, id: nat)
    requires var s := Run(Start(db, autocommit), before).s;
      && s.w.isOpen && s.w.inAtomicBlock && s.w.commitOnExit && !s.w.needsRollback && id in Ids(s.w.runOnCommit)
      && var lost := Next(s, EngineAborts).s;
         BlockStaysOpen(lost, during + [last]) && !Run(lost, during + [last]).s.w.inAtomicBlock
    ensures var s := Run(Start(db, autocommit), before).s;
      var lost := Next(s, EngineAborts).s;
      var left := Run(lost, during + [last]).s;
      && left.w.engine.begins == s.w.engine.begins
      && (id in Run(left, later).s.w.ran <==> AllQuiet(lost, during) && LeavesWell(last))
  {
    hide Next, Run, Ids, AllQuiet;
    StartIsSound(db, autocommit);
    RunIsSound(Start(db, autocommit), before);
    var s := Run(Start(db, autocommit), before).s;
    AbortIsUnnoticed(s);
    var lost := Next(s, EngineAborts).s;
    NextAllowed(s, EngineAborts);
    CallbackFate(lost, during, last, id);
    RunIsSound(lost, during + [last]);
    var left := Run(lost, during + [last]).s;
    RegisteredEarlier(s, lost, during + [last], id);
    ForgottenNeverRuns(left, later, id);
  }

  lemma RegisteredEarlier(s: Session, lost: Session, ops: seq<Op>, id: nat)
    requires Sound(s.w) && Sound(lost.w) && id in Ids(s.w.runOnCommit) && lost.w.nextCallback == s.w.nextCallback
    ensures id < Run(lost, ops).s.w.nextCallback
  {
    CountGrows(lost, ops);
  }

  lemma {:induction false} CountGrows(s: Session, ops: seq<Op>)
    requires Sound(s.w)
    ensures s.w.nextCallback <= Run(s, ops).s.w.nextCallback
    decreases |ops|
  {
    if ops != [] {
      hide Next, Sound;
      NextAllowed(s, ops[0]);
      CountGrows(Next(s, ops[0]).s, ops[1..]);
    }
  }

  /** The theorem for both modes, up to the first call that sends a statement. While no call notices the loss,
      no BEGIN is issued, no callback runs and none is forgotten. The next call issues BEGIN exactly when it
      sends a statement in manual mode. In a block that `Atomic` began it raises instead, and no callback that
      is waiting then ever runs. In manual mode even leaving the block keeps every callback waiting. */
  lemma FirstStatementAfterSilentLoss(
      db: Db, autocommit: bool, before: seq<Op>, quiet: seq<Op>, op: Op, later: seq<Op>)
    requires var s := Run(Start(db, autocommit), before).s;
      && s.w.isOpen && s.w.inAtomicBlock && !s.w.needsRollback
      && var lost := Next(s, EngineAborts).s;
         AllQuiet(lost, quiet) && BlockStaysOpen(lost, quiet) && Run(lost, quiet).s.w.inAtomicBlock
    ensures var s := Run(Start(db, autocommit), before).s;
      var here := Run(Next(s, EngineAborts).s, quiet).s;
      var step := Next(here, op);
      && here.w.engine.begins == s.w.engine.begins && here.w.ran == s.w.ran
      && Ids(s.w.runOnCommit) <= Ids(here.w.runOnCommit)
      && (step.s.w.engine.begins > here.w.engine.begins <==> Guarded(here.w, op) && !s.w.commitOnExit)
      && (Guarded(here.w, op) && s.w.commitOnExit ==>
          && step.response == Raised(TransactionManagementError)
          && forall id :: id in Ids(here.w.runOnCommit) ==> id !in Run(step.s, later).s.w.ran)
      && (!Notices(here.w, op) && !s.w.commitOnExit && here.w.savepointIds != [] ==>
          step.s.w.ran == s.w.ran && Ids(s.w.runOnCommit) <= Ids(step.s.w.runOnCommit))
  {
    hide Next, Run, Ids, AllQuiet, Guarded, Notices;
    StartIsSound(db, autocommit);
    RunIsSound(Start(db, autocommit), before);
    var s := Run(Start(db, autocommit), before).s;
    AbortIsUnnoticed(s);
    var lost := Next(s, EngineAborts).s;
    NextAllowed(s, EngineAborts);
    QuietRun(lost, quiet);
    RunIsSound(lost, quiet);
    var here := Run(lost, quiet).s;
    if Guarded(here.w, op) {
      GuardedStep(here, op);
    } else {
      UnguardedStep(here, op);
    }
    if !Notices(here.w, op) && !s.w.commitOnExit && here.w.savepointIds != [] {
      ManualModeKeepsCallbacks(here, op);
    }
    if Guarded(here.w, op) && s.w.commitOnExit {
      var after := Next(here, op).s;
      NextAllowed(here, op);
      forall id | id in Ids(here.w.runOnCommit)
        ensures id !in Run(after, later).s.w.ran
      {
        NothingWaits(after.w, id);
        ForgottenNeverRuns(after, later, id);
      }
    }
  }

  lemma ManualModeKeepsCallbacks(s: Session, op: Op)
    requires Unnoticed(s.w) && !s.w.commitOnExit && s.w.savepointIds != [] && !Notices(s.w, op)
    ensures var w' := Next(s, op).s.w; w'.ran == s.w.ran && Ids(s.w.runOnCommit) <= Ids(w'.runOnCommit)
  {
    var w := s.w;
    match op {
      case DoOnCommit =>
        var added := OnCommit(w).w.runOnCommit;
        IdsOfAppend(w.runOnCommit, added[|added| - 1]);
      case DoAtomicExit(failed, f) =>
        hide Ids, SavepointCommit, SavepointRollback, LeaveOutermost, RollbackOrDrop;
      case _ =>
    }
  }

  lemma NothingWaits(w: Wrapper, id: nat)
    requires w.runOnCommit == []
    ensures id !in Ids(w.runOnCommit)
  {
    EmptyIds();
  }

  /** A call without a guarded statement issues no BEGIN. */
  lemma UnguardedStep(s: Session, op: Op)
    requires Unnoticed(s.w) && !Guarded(s.w, op)
    ensures Next(s, op).s.w.engine.begins == s.w.engine.begins
  {
    if Notices(s.w, op) {
      if op.DoAtomicExit? {
        FailedExitBeginsNothing(s.w, op.exit);
        hide AtomicExit;
      }
    } else {
      QuietStep(s, op);
    }
  }

  lemma FailedExitBeginsNothing(w: Wrapper, f: ExitFaults)
    requires Unnoticed(w) && w.blocks > 0 && w.savepointIds != []
    ensures AtomicExit(w, true, f).w.engine.begins == w.engine.begins
  {
    var sid := w.savepointIds[|w.savepointIds| - 1];
    var w1 := PopBlock(w).(needsRollback := false);
    LeaveByRollbackMarks(w1, sid, f.first, f.second);
    UnwindKeepsEngine(Done(LeaveByRollback(w1, sid, f.first, f.second)));
    hide LeaveByRollback, Unwind, LeaveOutermost, RollbackOrDrop, LeaveBySavepoint;
  }

  // ----- Both cases are reachable -----

  const NO_FAULTS := Faults(false, NoFault)
  const CLEAN_EXIT := ExitFaults(NO_FAULTS, NO_FAULTS, NO_FAULTS, NoFault, NoFault)

  lemma RunCons(s: Session, op: Op, rest: seq<Op>)
    ensures Run(s, [op] + rest).s == Run(Next(s, op).s, rest).s
    ensures Run(s, [op] + rest).responses == [Next(s, op).response] + Run(Next(s, op).s, rest).responses
  {
    assert ([op] + rest)[1..] == rest;
  }

  lemma RunOne(s: Session, op: Op)
    ensures Run(s, [op]) == Trace(Next(s, op).s, [Next(s, op).response])
  {
    RunCons(s, op, []);
    assert [op] + [] == [op];
  }

  /** Two calls that end without an exception in states that are known. */
  lemma RunTwo(s0: Session, a: Op, b: Op, rest: seq<Op>)
    ensures var s1 := Next(s0, a).s;
      var s2 := Next(s1, b).s;
      var t := Run(s0, [a, b] + rest);
      t.s == Run(s2, rest).s && t.responses == [Next(s0, a).response, Next(s1, b).response] + Run(s2, rest).responses
  {
    hide Next;
    assert [a, b] + rest == [a] + ([b] + rest);
    RunCons(s0, a, [b] + rest);
    RunCons(Next(s0, a).s, b, rest);
  }

  /** One block and one waiting callback. */
  predicate OneCallback(w: Wrapper, savepointIds: seq<Option<nat>>, commitOnExit: bool) {
    && w.isOpen && w.inAtomicBlock && !w.autocommit && !w.needsRollback && w.blocks == 1
    && w.savepointIds == savepointIds && w.commitOnExit == commitOnExit
    && Ids(w.runOnCommit) == [0] && w.ran == []
  }

  lemma FirstCallback(w: Wrapper)
    requires w.inAtomicBlock && w.runOnCommit == [] && w.nextCallback == 0
    ensures Ids(OnCommit(w).w.runOnCommit) == [0]
  {
    var c := OnCommit(w).w.runOnCommit;
    assert c[1..] == [] && c[0].id == 0;
  }

  /** Under autocommit a block can lose its transaction and still commit without an error: the callback runs
      although nothing of the block was kept. */
  lemma UnnoticedCommitUnderAutocommit(db: Db)
    ensures var t := Run(Start(db, true), [
        DoAtomicEnter(true, NO_FAULTS), DoOnCommit, EngineAborts, DoAtomicExit(false, CLEAN_EXIT)]);
      t.responses == [Finished, Finished, Finished, Finished] && t.s.w.ran == [0] && t.s.w.engine.begins == 1
  {
    var enter, leave := DoAtomicEnter(true, NO_FAULTS), DoAtomicExit(false, CLEAN_EXIT);
    var s0 := Start(db, true);
    var s1 := Next(s0, enter).s;
    var s2 := Next(s1, DoOnCommit).s;
    var s3 := Next(s2, EngineAborts).s;
    RunTwo(s0, enter, DoOnCommit, [EngineAborts, leave]);
    RunTwo(s2, EngineAborts, leave, []);
    assert [enter, DoOnCommit] + [EngineAborts, leave] == [enter, DoOnCommit, EngineAborts, leave];
    assert [EngineAborts, leave] + [] == [EngineAborts, leave];
    assert s1.w.inAtomicBlock && s1.w.engine.begins == 1;
    FirstCallback(s1.w);
    hide Ids;
    assert OneCallback(s2.w, [], true) && s2.w.engine.begins == 1;
    CleanExitRunsCallback(s3);
  }

  lemma CleanExitRunsCallback(s: Session)
    requires OneCallback(s.w, [], true) && s.w.engine.tx.None?
    ensures var step := Next(s, DoAtomicExit(false, CLEAN_EXIT));
      step.response == Finished && step.s.w.ran == [0] && step.s.w.engine.begins == s.w.engine.begins
  {
    hide Ids;
  }

  lemma RunFour(s0: Session, a: Op, b: Op, c: Op, d: Op, rest: seq<Op>)
    ensures var s1 := Next(s0, a).s; var s2 := Next(s1, b).s; var s3 := Next(s2, c).s;
      var t := Run(s0, [a, b, c, d] + rest);
      && t.s == Run(Next(s3, d).s, rest).s
      && t.responses == [Next(s0, a).response, Next(s1, b).response, Next(s2, c).response, Next(s3, d).response]
                        + Run(Next(s3, d).s, rest).responses
  {
    hide Next, Run;
    assert [a, b, c, d] + rest == [a, b] + ([c, d] + rest);
    RunTwo(s0, a, b, [c, d] + rest);
    RunTwo(Next(Next(s0, a).s, b).s, c, d, rest);
  }

  lemma EnterManualBlock(db: Db)
    ensures var s := Next(Next(Start(db, false), DoAtomicEnter(false, NO_FAULTS)).s, DoOnCommit).s;
      && OneCallback(s.w, [None], false) && CursorOf(s.cursors, 0) == NEW_CURSOR
      && s.w.engine.tx.None? && s.w.engine.begins == 0
    ensures var enter := Next(Start(db, false), DoAtomicEnter(false, NO_FAULTS));
      enter.response == Finished && Next(enter.s, DoOnCommit).response == Finished
  {
    FirstCallback(Next(Start(db, false), DoAtomicEnter(false, NO_FAULTS)).s.w);
    hide Ids;
  }

  /** In manual mode the next statement begins a second transaction, and the callback runs with its commit. */
  lemma SecondTransactionInManualMode(db: Db)
    ensures var fetch := DoFetch(0, One, NO_FAULTS);
      var t := Run(Start(db, false), [
        DoAtomicEnter(false, NO_FAULTS), DoOnCommit, fetch, EngineAborts, fetch, DoAtomicExit(false, CLEAN_EXIT),
        DoCommit(NoFault), DoSetAutocommit(true, false)]);
      && t.s.w.engine.begins == 2 && t.s.w.ran == [0]
      && t.responses == [Finished, Finished, Row(None), Finished, Row(None), Finished, Finished, Finished]
  {
    hide Next, OneCallback;
    var fetch, enter := DoFetch(0, One, NO_FAULTS), DoAtomicEnter(false, NO_FAULTS);
    var leave := DoAtomicExit(false, CLEAN_EXIT);
    var commit, switch := DoCommit(NoFault), DoSetAutocommit(true, false);
    var s0 := Start(db, false);
    EnterManualBlock(db);
    var s2 := Next(Next(s0, enter).s, DoOnCommit).s;
    FetchLoseFetch(s2);
    var s4 := Next(Next(s2, fetch).s, EngineAborts).s;
    LeaveAndCommit(Next(s4, fetch).s);
    RunFour(s0, enter, DoOnCommit, fetch, EngineAborts, [fetch, leave, commit, switch]);
    RunFour(s4, fetch, leave, commit, switch, []);
    assert [enter, DoOnCommit, fetch, EngineAborts] + [fetch, leave, commit, switch] ==
           [enter, DoOnCommit, fetch, EngineAborts, fetch, leave, commit, switch];
    assert [fetch, leave, commit, switch] + [] == [fetch, leave, commit, switch];
  }

  lemma FetchLoseFetch(s: Session)
    requires OneCallback(s.w, [None], false) && CursorOf(s.cursors, 0) == NEW_CURSOR && s.w.engine.tx.None?
    ensures var fetch := DoFetch(0, One, NO_FAULTS);
      var first := Next(s, fetch);
      var lost := Next(first.s, EngineAborts);
      var second := Next(lost.s, fetch);
      && first.response == Row(None) && lost.response == Finished && second.response == Row(None)
      && OneCallback(second.s.w, [None], false) && second.s.w.engine.begins == s.w.engine.begins + 2
  {
    hide Ids;
  }

  lemma LeaveAndCommit(s: Session)
    requires OneCallback(s.w, [None], false)
    ensures var a := Next(s, DoAtomicExit(false, CLEAN_EXIT));
      var b := Next(a.s, DoCommit(NoFault));
      var c := Next(b.s, DoSetAutocommit(true, false));
      && a.response == Finished && b.response == Finished && c.response == Finished
      && c.s.w.ran == [0] && c.s.w.engine.begins == s.w.engine.begins
  {
    hide Ids;
  }
}

/** What happens after a failing statement has ended the transaction inside atomic blocks. */
module Safety {
  import opened Outcomes
  import opened Engine
  import opened Transactions
  import opened Sessions

  // ----- The invariant and the relation between the states around a call -----

  ghost predicate Registered(cs: seq<Callback>, next: nat) {
    forall id :: id in Ids(cs) ==> id < next
  }

  /** Inside an atomic block Django's autocommit is off; every callback was registered, and those that
      still wait have not run. */
  ghost predicate Sound(w: Wrapper) {
    && (w.inAtomicBlock ==> !w.autocommit)
    && Registered(w.runOnCommit, w.nextCallback)
    && (forall id :: id in w.ran ==> id < w.nextCallback)
    && (forall id :: id in Ids(w.runOnCommit) ==> id !in w.ran)
  }

  /** The transaction is gone, some atomic block is still open, and the wrapper knows. */
  ghost predicate Lost(w: Wrapper) {
    w.inAtomicBlock && w.engine.tx.None? && w.needsRollback
  }

  /** The callback was registered and will not run any more. */
  ghost predicate Gone(w: Wrapper, id: nat) {
    id < w.nextCallback && id !in Ids(w.runOnCommit)
  }

  /** How one call may change the wrapper as far as BEGIN, losses and callbacks are concerned. */
  ghost predicate Allowed(w: Wrapper, w': Wrapper) {
    && Sound(w')
    && w.engine.losses <= w'.engine.losses
    // a loss inside an atomic block is noticed at once and forgets the callbacks
    && (w.engine.losses < w'.engine.losses && w'.inAtomicBlock ==> Lost(w') && w'.runOnCommit == [])
    // after a loss no call begins a transaction, and only leaving the block ends that state
    && (Lost(w) ==> w'.engine.begins == w.engine.begins && w'.engine.losses == w.engine.losses)
    && (Lost(w) && w'.inAtomicBlock ==> Lost(w'))
    // callbacks run outside atomic blocks only
    && (w'.inAtomicBlock ==> w'.ran == w.ran)
    && ForgottenStays(w, w')
  }

  /** A callback that is gone stays gone and does not run. */
  ghost predicate ForgottenStays(w: Wrapper, w': Wrapper) {
    && w.nextCallback <= w'.nextCallback
    && forall id | Gone(w, id) :: Gone(w', id) && (id in w'.ran <==> id in w.ran)
  }

  ghost predicate Shrinks(cs: seq<Callback>, cs': seq<Callback>) {
    && (forall id :: id in Ids(cs') ==> id in Ids(cs))
    && (cs == [] ==> cs' == [])
  }

  /** The change made by one statement inside a call: the block structure and the mode stay. */
  ghost predicate Keeps(w: Wrapper, w': Wrapper) {
    && w'.isOpen == w.isOpen && w'.inAtomicBlock == w.inAtomicBlock && w'.autocommit == w.autocommit
    && w'.commitOnExit == w.commitOnExit && w'.savepointIds == w.savepointIds && w'.blocks == w.blocks
    && w'.nextCallback == w.nextCallback && w'.ran == w.ran
    && Shrinks(w.runOnCommit, w'.runOnCommit)
    && w.engine.losses <= w'.engine.losses
    && (w.engine.losses < w'.engine.losses && w.inAtomicBlock ==> Lost(w') && w'.runOnCommit == [])
    && (Lost(w) ==> Lost(w') && w'.engine == w.engine)
  }

  lemma KeepsIsAllowed(w: Wrapper, w': Wrapper)
    requires Sound(w) && Keeps(w, w')
    ensures Allowed(w, w')
  {
  }

  lemma KeepsTwice(w: Wrapper, w1: Wrapper, w2: Wrapper)
    requires Keeps(w, w1) && Keeps(w1, w2)
    ensures Keeps(w, w2)
  {
    hide Ids;
  }

  // ----- Single statements -----

  lemma GuardKeeps(w: Wrapper, beginFails: bool)
    ensures var g := Guard(w, beginFails);
      && Keeps(w, g.w) && g.w.engine.losses == w.engine.losses
      && (g.error.None? ==> !g.w.needsRollback)
  {
  }

  lemma FailureKeeps(w: Wrapper, ends: bool)
    requires !w.needsRollback
    ensures Keeps(w, StatementFailed(w, ends))
  {
  }

  lemma SavepointedKeeps(e: State, action: SavepointAction)
    ensures var r := Savepointed(e, action);
      r.Some? ==> r.value.begins == e.begins && r.value.losses == e.losses && r.value.tx.Some?
  {
  }

  lemma StatementKeeps(w: Wrapper, action: SavepointAction, f: Faults)
    ensures Keeps(w, SavepointStatement(w, action, f).w)
    ensures Lost(w) ==> SavepointStatement(w, action, f).error.Some?
  {
    hide Savepointed, StatementFailed, Ids;
    GuardKeeps(w, f.begin);
    var g := Guard(w, f.begin);
    if g.error.None? {
      hide Guard;
      SavepointedKeeps(g.w.engine, action);
      FailureKeeps(g.w, false);
      FailureKeeps(g.w, true);
    }
  }

  lemma {:induction false} WithoutShrinks(cs: seq<Callback>, sid: nat)
    ensures Shrinks(cs, Without(cs, sid))
  {
    if cs != [] {
      var later := Without(cs[1..], sid);
      WithoutShrinks(cs[1..], sid);
      assert Ids(cs) == [cs[0].id] + Ids(cs[1..]);
      if sid in cs[0].sids {
        assert Without(cs, sid) == later;
      } else {
        assert ([cs[0]] + later)[1..] == later;
        assert Ids([cs[0]] + later) == [cs[0].id] + Ids(later);
      }
    }
  }

  lemma SavepointRollbackKeeps(w: Wrapper, sid: nat, f: Faults)
    ensures Keeps(w, SavepointRollback(w, sid, f).w)
    ensures Lost(w) && !w.autocommit ==> SavepointRollback(w, sid, f).error.Some?
  {
    hide SavepointStatement, Ids;
    StatementKeeps(w, RollbackTo(sid), f);
    var r := SavepointRollbackHook(w, sid, f);
    WithoutShrinks(r.w.runOnCommit, sid);
  }

  lemma {:induction false} SavepointCommitKeeps(w: Wrapper, sid: nat, f: Faults)
    ensures Keeps(w, SavepointCommit(w, sid, f).w)
    ensures Lost(w) && !w.autocommit ==> SavepointCommit(w, sid, f).error.Some?
  {
    hide SavepointStatement, Ids;
    StatementKeeps(w, Release(sid), f);
  }

  // ----- Calls of a cursor -----

  lemma EngineStepKeeps(w: Wrapper, e: State)
    requires !w.needsRollback && e.losses == w.engine.losses
    ensures Keeps(w, w.(engine := e))
  {
  }

  lemma {:induction false} ExecutedKeepsCounts(e: State, stmts: seq<Stmt>)
    ensures ExecutedAll(e, stmts).losses == e.losses && ExecutedAll(e, stmts).begins == e.begins
    decreases |stmts|
  {
    if stmts != [] {
      ExecutedKeepsCounts(Executed(e, stmts[0]), stmts[1..]);
    }
  }

  lemma {:induction false} FetchManyKeepsCounts(e: State, c: Engine.Cursor, size: nat)
    ensures var e' := FetchMany(e, c, size).engine; e'.losses == e.losses && e'.begins == e.begins
    decreases size
  {
    if size > 0 {
      var one := FetchOne(e, c);
      if one.rows != [] {
        FetchManyKeepsCounts(one.engine, one.cursor, size - 1);
      }
    }
  }

  lemma {:induction false} FetchAllKeepsCounts(e: State, c: Engine.Cursor)
    ensures var e' := FetchAll(e, c).engine; e'.losses == e.losses && e'.begins == e.begins
    decreases c.Pending?, if c.Active? then |c.rest| else 0
  {
    if c.Pending? {
      FetchAllKeepsCounts(e, Opened(e, c));
    } else {
      var one := FetchOne(e, c);
      if one.rows != [] {
        FetchAllKeepsCounts(one.engine, one.cursor);
      }
    }
  }

  lemma ExecuteKeeps(w: Wrapper, c: CursorState, stmt: Stmt, f: ExecuteFaults)
    ensures Keeps(w, Execute(w, c, stmt, f).w)
  {
    hide Keeps, StatementFailed, Executed, FetchAll;
    GuardKeeps(w, f.begin);
    var g := Guard(w, f.begin);
    if g.error.None? {
      hide Guard;
      FailureKeeps(g.w, false);
      FailureKeeps(g.w, true);
      var ran := RunStatement(g.w.engine, stmt);
      ExecutedKeepsCounts(g.w.engine, [stmt]);
      assert ExecutedAll(g.w.engine, [stmt]) == Executed(g.w.engine, stmt);
      FetchAllKeepsCounts(ran.engine, ran.cursor);
      var o := Execute(w, c, stmt, f).w;
      if o.engine.losses == g.w.engine.losses {
        EngineStepKeeps(g.w, o.engine);
      }
      assert Keeps(g.w, o);
      KeepsTwice(w, g.w, o);
    }
  }

  lemma ExecuteManyKeeps(w: Wrapper, c: CursorState, stmts: seq<Stmt>, f: BatchFaults)
    ensures Keeps(w, ExecuteMany(w, c, stmts, f).w)
  {
    GuardKeeps(w, f.begin);
    var g := Guard(w, f.begin);
    if g.error.None? {
      hide Guard;
      BatchKeeps(g.w, c, stmts, f);
      hide Keeps, StatementFailed, ExecutedAll;
      KeepsTwice(w, g.w, ExecuteMany(w, c, stmts, f).w);
    }
  }

  /** The rows that the driver takes, and then the reason for which the batch stops. */
  lemma BatchKeeps(w: Wrapper, c: CursorState, stmts: seq<Stmt>, f: BatchFaults)
    requires !w.needsRollback
    ensures var taken := if f.stop.Never? || f.taken > |stmts| then |stmts| else f.taken;
      var w1 := w.(engine := ExecutedAll(w.engine, stmts[..taken]));
      && Keeps(w, w) && Keeps(w, StatementFailed(w, false)) && Keeps(w, w1)
      && Keeps(w, StatementFailed(w1, true)) && Keeps(w, StatementFailed(w1, false))
  {
    var taken := if f.stop.Never? || f.taken > |stmts| then |stmts| else f.taken;
    var w1 := w.(engine := ExecutedAll(w.engine, stmts[..taken]));
    ExecutedKeepsCounts(w.engine, stmts[..taken]);
    hide Keeps, StatementFailed, ExecutedAll;
    EngineStepKeeps(w, w.engine);
    EngineStepKeeps(w, w1.engine);
    FailureKeeps(w, false);
    FailureKeeps(w1, false);
    FailureKeeps(w1, true);
    KeepsTwice(w, w1, StatementFailed(w1, true));
    KeepsTwice(w, w1, StatementFailed(w1, false));
  }

  lemma FetchKeeps(w: Wrapper, c: CursorState, how: Fetch, f: Faults)
    ensures Keeps(w, FetchRows(w, c, how, f).w)
  {
    hide Keeps, StatementFailed, FetchMany, FetchAll;
    GuardKeeps(w, f.begin);
    var g := Guard(w, f.begin);
    if g.error.None? {
      hide Guard;
      FailureKeeps(g.w, false);
      FailureKeeps(g.w, true);
      FetchAllKeepsCounts(g.w.engine, c.driver);
      match how {
        case One =>
        case Many(size) => FetchManyKeepsCounts(g.w.engine, c.driver, if size < 0 then 0 else size);
        case All =>
      }
      var o := FetchRows(w, c, how, f).w;
      if o.engine.losses == g.w.engine.losses {
        EngineStepKeeps(g.w, o.engine);
      }
      KeepsTwice(w, g.w, o);
    }
  }

  // ----- Calls of the wrapper -----

  lemma CommitAllowed(w: Wrapper, fault: Fault)
    requires Sound(w)
    ensures Allowed(w, Commit(w, fault).w) && Allowed(w, Rollback(w, fault).w)
    ensures !w.inAtomicBlock ==> !Commit(w, fault).w.inAtomicBlock && !Rollback(w, fault).w.inAtomicBlock
  {
  }

  /** Outside atomic blocks the mode and the transaction may change freely. */
  lemma SwitchAllowed(w: Wrapper, e: State, autocommit: bool)
    requires Sound(w) && !w.inAtomicBlock && e.losses == w.engine.losses
    ensures Allowed(w, w.(engine := e))
    ensures Allowed(w, SwitchedTo(w.(engine := e), autocommit))
    ensures !SwitchedTo(w.(engine := e), autocommit).inAtomicBlock
  {
    assert Ids([]) == [] by {
      EmptyIds();
    }
    hide Ids;
  }

  lemma SetAutocommitAllowed(w: Wrapper, autocommit: bool, force: bool, beginFails: bool)
    requires Sound(w)
    ensures Allowed(w, SetAutocommit(w, autocommit, force, beginFails).w)
    ensures SetAutocommit(w, autocommit, force, beginFails).w.inAtomicBlock == w.inAtomicBlock
  {
    hide Ids;
    if w.inAtomicBlock {
      Unchanged(w);
    } else {
      var r := if force && !autocommit then Begin(w, beginFails) else SetAutocommitHook(w, autocommit, beginFails);
      assert r.w == w.(engine := r.w.engine) && r.w.engine.losses == w.engine.losses by {
        hide Sound, Allowed;
      }
      SwitchAllowed(w, r.w.engine, autocommit);
      hide Begin, SetAutocommitHook, Allowed, SwitchedTo, Sound;
    }
  }

  lemma EmptyIds()
    ensures Ids([]) == []
  {
  }

  lemma {:induction false} IdsOfAppend(a: seq<Callback>, b: Callback)
    ensures Ids(a + [b]) == Ids(a) + [b.id]
  {
    if a == [] {
      assert a + [b] == [b];
    } else {
      assert (a + [b])[1..] == a[1..] + [b];
      IdsOfAppend(a[1..], b);
    }
  }

  lemma OnCommitAllowed(w: Wrapper)
    requires Sound(w)
    ensures Allowed(w, OnCommit(w).w)
  {
    hide Ids;
    if w.inAtomicBlock {
      var added := OnCommit(w).w.runOnCommit;
      IdsOfAppend(w.runOnCommit, added[|added| - 1]);
    }
  }

  lemma AtomicEnterAllowed(w: Wrapper, savepoint: bool, f: Faults)
    requires Sound(w)
    ensures Allowed(w, AtomicEnter(w, savepoint, f).w)
  {
    hide Ids, SavepointStatement, SetAutocommit, Begin;
    var w1 :=
      if w.inAtomicBlock then w
      else w.(commitOnExit := w.autocommit, needsRollback := false, inAtomicBlock := !w.autocommit);
    if w1.inAtomicBlock {
      StatementKeeps(w1.(nextSid := w1.nextSid + 1), Save(w1.nextSid), f);
    } else {
      SetAutocommitAllowed(w1, false, true, f.begin);
      ForcedAutocommit(w1, f.begin);
    }
  }

  /** Entering the outermost block turns Django's autocommit off. */
  lemma ForcedAutocommit(w: Wrapper, beginFails: bool)
    requires !w.inAtomicBlock
    ensures var r := SetAutocommit(w, false, true, beginFails);
      && (r.error.None? ==> !r.w.autocommit)
      && r.w.runOnCommit == w.runOnCommit && r.w.ran == w.ran && r.w.engine.losses == w.engine.losses
  {
  }

  lemma LeaveByRollbackKeeps(w: Wrapper, sid: Option<nat>, first: Faults, second: Faults)
    requires w.inAtomicBlock && !w.autocommit
    ensures Keeps(w, LeaveByRollback(w, sid, first, second))
  {
    if sid.Some? {
      hide SavepointRollback, SavepointCommit, Keeps;
      SavepointRollbackKeeps(w, sid.value, first);
      var r := SavepointRollback(w, sid.value, first);
      SavepointCommitKeeps(r.w, sid.value, second);
      var r' := if r.error.Some? then r else SavepointCommit(r.w, sid.value, second);
      assert Keeps(w, r'.w) by {
        if r.error.None? {
          KeepsTwice(w, r.w, r'.w);
        }
      }
      MarkingKeeps(w, r'.w);
    }
  }

  lemma MarkingKeeps(w: Wrapper, w': Wrapper)
    requires Keeps(w, w')
    ensures Keeps(w, w'.(needsRollback := true))
  {
    hide Ids;
  }

  /** Without a transaction the rollback of a block cannot succeed, so the enclosing block is marked. */
  lemma LeaveByRollbackMarks(w: Wrapper, sid: Option<nat>, first: Faults, second: Faults)
    requires w.inAtomicBlock && !w.autocommit && w.engine.tx.None?
    ensures LeaveByRollback(w, sid, first, second) == w.(needsRollback := true)
  {
  }

  lemma LeaveBySavepointKeeps(w: Wrapper, sid: Option<nat>, f: ExitFaults)
    requires w.inAtomicBlock && !w.autocommit
    ensures Keeps(w, LeaveBySavepoint(w, sid, f).w)
  {
    if sid.Some? {
      hide SavepointCommit, LeaveByRollback, Keeps;
      SavepointCommitKeeps(w, sid.value, f.first);
      var r := SavepointCommit(w, sid.value, f.first);
      if r.error.Some? {
        SameBlock(w, r.w);
        LeaveByRollbackKeeps(r.w, sid, f.second, f.third);
        KeepsTwice(w, r.w, LeaveByRollback(r.w, sid, f.second, f.third));
      }
    } else {
      hide Ids;
    }
  }

  lemma SameBlock(w: Wrapper, w': Wrapper)
    requires Keeps(w, w')
    ensures w'.inAtomicBlock == w.inAtomicBlock && w'.autocommit == w.autocommit
  {
  }

  /** The state of the enclosing level right after the block was popped, with its mark cleared or not. */
  ghost predicate Popped(w: Wrapper, w1: Wrapper) {
    && w1 == w.(blocks := w1.blocks, savepointIds := w1.savepointIds, inAtomicBlock := w1.inAtomicBlock,
                needsRollback := w1.needsRollback)
    && (w1.inAtomicBlock ==> w.inAtomicBlock)
  }

  lemma UnwindAllowed(r: Reply)
    requires Sound(r.w)
    ensures Allowed(r.w, Unwind(r).w)
    ensures Unwind(r).w == r.w || !Unwind(r).w.inAtomicBlock
    ensures Unwind(r).w.engine == r.w.engine
  {
    SetAutocommitAllowed(r.w, true, false, false);
    assert SetAutocommit(r.w, true, false, false).w.engine == r.w.engine;
    hide SetAutocommit, Ids;
  }

  /** Leaving an inner block, or the pretended outermost block of manual mode. */
  lemma LeaveInner(w: Wrapper, w1: Wrapper, w2: Wrapper, r: Reply)
    requires Sound(w) && Popped(w, w1) && w1.inAtomicBlock && Keeps(w1, w2) && r.w == w2
    requires Lost(w) ==> Lost(w2) && w2.engine == w.engine
    ensures Allowed(w, Unwind(r).w)
  {
    KeepsIsAllowed(w1, w2);
    UnwindAllowed(r);
    hide Unwind, Ids;
  }

  /** Leaving the outermost block that `Atomic` opened under autocommit. */
  lemma LeaveOuter(w: Wrapper, w1: Wrapper, w2: Wrapper, r: Reply)
    requires Sound(w) && Popped(w, w1) && !w1.inAtomicBlock && Allowed(w1, w2) && !w2.inAtomicBlock && r.w == w2
    requires Lost(w) ==> w2.engine.begins == w.engine.begins && w2.engine.losses == w.engine.losses
    ensures Allowed(w, Unwind(r).w)
  {
    UnwindAllowed(r);
    hide Unwind, Ids;
  }

  lemma RollbackOrDropAllowed(w: Wrapper, fault: Fault)
    requires Sound(w) && !w.inAtomicBlock
    ensures var w' := RollbackOrDrop(w, fault);
      && Allowed(w, w') && !w'.inAtomicBlock && w'.engine.begins == w.engine.begins
      && (w.engine.tx.None? ==> w'.engine.losses == w.engine.losses)
  {
    EmptyIds();
    hide Ids;
  }

  lemma LeaveOutermostAllowed(w: Wrapper, f: ExitFaults)
    requires Sound(w) && !w.inAtomicBlock
    ensures Allowed(w, LeaveOutermost(w, f).w) && !LeaveOutermost(w, f).w.inAtomicBlock
  {
    CommitAllowed(w, f.commit);
    var r := Commit(w, f.commit);
    hide Commit;
    if r.error.Some? {
      RollbackOrDropAllowed(r.w, f.rollback);
      hide RollbackOrDrop, Allowed, Sound;
      OutsideTwice(w, r.w, RollbackOrDrop(r.w, f.rollback));
    }
  }

  lemma OutsideTwice(w: Wrapper, w1: Wrapper, w2: Wrapper)
    requires Allowed(w, w1) && Allowed(w1, w2) && !w.inAtomicBlock && !w1.inAtomicBlock && !w2.inAtomicBlock
    ensures Allowed(w, w2)
  {
    hide Ids, Registered;
  }

  lemma AtomicExitAllowed(w: Wrapper, failed: bool, f: ExitFaults)
    requires Sound(w) && w.blocks > 0
    ensures Allowed(w, AtomicExit(w, failed, f).w)
  {
    var sid := if w.savepointIds == [] then None else w.savepointIds[|w.savepointIds| - 1];
    var w1 := PopBlock(w);
    hide Unwind, LeaveByRollback, LeaveBySavepoint, LeaveOutermost, RollbackOrDrop, Ids;
    if !failed && !w1.needsRollback {
      if w1.inAtomicBlock {
        LeaveBySavepointKeeps(w1, sid, f);
        LeaveInner(w, w1, LeaveBySavepoint(w1, sid, f).w, LeaveBySavepoint(w1, sid, f));
      } else {
        LeaveOutermostAllowed(w1, f);
        LeaveOuter(w, w1, LeaveOutermost(w1, f).w, LeaveOutermost(w1, f));
      }
    } else {
      var w2 := w1.(needsRollback := false);
      if w2.inAtomicBlock {
        LeaveByRollbackKeeps(w2, sid, f.first, f.second);
        if w2.engine.tx.None? {
          LeaveByRollbackMarks(w2, sid, f.first, f.second);
        }
        var w3 := LeaveByRollback(w2, sid, f.first, f.second);
        LeaveInner(w, w2, w3, Done(w3));
      } else {
        RollbackOrDropAllowed(w2, f.rollback);
        var w3 := RollbackOrDrop(w2, f.rollback);
        LeaveOuter(w, w2, w3, Done(w3));
      }
    }
  }

  // ----- Whole runs -----

  /** Every call of a session stays within the relation, whatever fails. */
  lemma NextAllowed(s: Session, op: Op)
    requires Sound(s.w)
    ensures Allowed(s.w, Next(s, op).s.w)
  {
    var w := s.w;
    hide Allowed, Keeps, Sound;
    assert Allowed(w, w) by {
      Unchanged(w);
    }
    if w.isOpen {
      match op {
        case DoExecute(id, stmt, f) =>
          ExecuteKeeps(w, CursorOf(s.cursors, id), stmt, f);
          KeepsIsAllowed(w, Execute(w, CursorOf(s.cursors, id), stmt, f).w);
        case DoExecuteMany(id, stmts, f) =>
          ExecuteManyKeeps(w, CursorOf(s.cursors, id), stmts, f);
          KeepsIsAllowed(w, ExecuteMany(w, CursorOf(s.cursors, id), stmts, f).w);
        case DoFetch(id, how, f) =>
          FetchKeeps(w, CursorOf(s.cursors, id), how, f);
          KeepsIsAllowed(w, FetchRows(w, CursorOf(s.cursors, id), how, f).w);
        case DoCloseCursor(id) =>
        case _ => WrapperStepAllowed(w, op);
      }
    }
  }

  lemma Unchanged(w: Wrapper)
    requires Sound(w)
    ensures Allowed(w, w)
  {
  }

  lemma WrapperStepAllowed(w: Wrapper, op: Op)
    requires Sound(w) && OnWrapper(op)
    ensures Allowed(w, WrapperStep(w, op).w)
  {
    hide Allowed, Keeps, Sound, Commit, Rollback, SetAutocommit, SavepointRollback, AtomicEnter, AtomicExit, OnCommit;
    match op {
      case DoCommit(fault) => CommitAllowed(w, fault);
      case DoRollback(fault) => CommitAllowed(w, fault);
      case DoSetAutocommit(autocommit, fails) => SetAutocommitAllowed(w, autocommit, false, fails);
      case DoSavepointRollback(sid, f) =>
        SavepointRollbackKeeps(w, sid, f);
        KeepsIsAllowed(w, SavepointRollback(w, sid, f).w);
      case DoAtomicEnter(savepoint, f) => AtomicEnterAllowed(w, savepoint, f);
      case DoAtomicExit(failed, f) =>
        if w.blocks == 0 {
          Unchanged(w);
        } else {
          AtomicExitAllowed(w, failed, f);
        }
      case DoOnCommit => OnCommitAllowed(w);
      case DoClose(inMemory) => CloseAllowed(w, inMemory);
      case EngineAborts => CloseAllowed(w, false);
    }
  }

  lemma CloseAllowed(w: Wrapper, inMemory: bool)
    requires Sound(w)
    ensures Allowed(w, Close(w, inMemory)) && Allowed(w, w.(engine := w.engine.(tx := None)))
  {
    EmptyIds();
    hide Ids;
  }

  lemma StartIsSound(db: Db, autocommit: bool)
    ensures Sound(Start(db, autocommit).w)
  {
  }

  lemma {:induction false} RunIsSound(s: Session, ops: seq<Op>)
    requires Sound(s.w)
    ensures Sound(Run(s, ops).s.w)
    decreases |ops|
  {
    if ops != [] {
      NextAllowed(s, ops[0]);
      RunIsSound(Next(s, ops[0]).s, ops[1..]);
    }
  }

  /** A block is open in every state of the run that `ops` leaves behind, the last one excepted. */
  ghost predicate BlockStaysOpen(s: Session, ops: seq<Op>) {
    forall k :: 0 <= k < |ops| ==> Run(s, ops[..k]).s.w.inAtomicBlock
  }

  lemma {:induction false} RunTail(s: Session, ops: seq<Op>)
    requires ops != [] && BlockStaysOpen(s, ops)
    ensures BlockStaysOpen(Next(s, ops[0]).s, ops[1..])
    ensures |ops| > 1 ==> Next(s, ops[0]).s.w.inAtomicBlock
  {
    hide Next;
    forall k | 0 <= k < |ops| - 1
      ensures Run(Next(s, ops[0]).s, ops[1..][..k]).s.w.inAtomicBlock
    {
      assert ops[..k + 1][1..] == ops[1..][..k] && ops[..k + 1][0] == ops[0];
      assert Run(s, ops[..k + 1]).s.w.inAtomicBlock;
    }
    if |ops| > 1 {
      assert ops[1..][..0] == [];
    }
  }

  /** Between a loss and the end of the outermost block, leaving it included, no call issues BEGIN. */
  lemma {:induction false} NoBeginWhileLost(s: Session, ops: seq<Op>)
    requires Sound(s.w) && Lost(s.w) && BlockStaysOpen(s, ops)
    ensures Run(s, ops).s.w.engine.begins == s.w.engine.begins
    decreases |ops|
  {
    if ops != [] {
      hide Next, Sound;
      var next := Next(s, ops[0]).s;
      NextAllowed(s, ops[0]);
      RunTail(s, ops);
      assert Sound(next.w);
      if |ops| > 1 {
        NoBeginWhileLost(next, ops[1..]);
      } else {
        assert Run(next, ops[1..]).s == next;
      }
    }
  }

  /** A callback that was forgotten never runs, however the session goes on. */
  lemma {:induction false} ForgottenNeverRuns(s: Session, ops: seq<Op>, id: nat)
    requires Sound(s.w) && Gone(s.w, id)
    ensures id in Run(s, ops).s.w.ran <==> id in s.w.ran
    decreases |ops|
  {
    if ops != [] {
      hide Next, Sound;
      NextAllowed(s, ops[0]);
      ForgottenNeverRuns(Next(s, ops[0]).s, ops[1..], id);
    }
  }

  /** The safety theorem. Take any session and any call in it during which a failing statement ended
      the transaction while an atomic block stays open. Until the outermost block has been left, no
      later call issues BEGIN; and no callback that was waiting before that call ever runs. */
  lemma NothingRestartsAfterLoss(db: Db, autocommit: bool, before: seq<Op>, op: Op, after: seq<Op>)
    requires var s := Run(Start(db, autocommit), before).s;
      var lost := Next(s, op).s;
      lost.w.engine.losses > s.w.engine.losses && lost.w.inAtomicBlock
    ensures var s := Run(Start(db, autocommit), before).s;
      var lost := Next(s, op).s;
      && (BlockStaysOpen(lost, after) ==> Run(lost, after).s.w.engine.begins == lost.w.engine.begins)
      && (forall id :: id in Ids(s.w.runOnCommit) ==> id !in Run(lost, after).s.w.ran)
  {
    hide Next, Run;
    var s := Run(Start(db, autocommit), before).s;
    var lost := Next(s, op).s;
    StartIsSound(db, autocommit);
    RunIsSound(Start(db, autocommit), before);
    NextAllowed(s, op);
    if BlockStaysOpen(lost, after) {
      NoBeginWhileLost(lost, after);
    }
    EmptyIds();
    forall id | id in Ids(s.w.runOnCommit)
      ensures id !in Run(lost, after).s.w.ran
    {
      assert Gone(lost.w, id) && id !in lost.w.ran;
      ForgottenNeverRuns(lost, after, id);
    }
  }
}

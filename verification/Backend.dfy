/** The wrapper and its cursors as objects that update their fields, tied to the session model. */
module Backend {
  import opened Outcomes
  import opened Engine
  import opened Transactions
  import opened Sessions
  import WriteDetector

  /** The driver connection: the engine state behind it. */
  class Connection {
    var state: Engine.State

    constructor (db: Db)
      ensures state == State(db, None, 0, 0)
    {
      state := State(db, None, 0, 0);
    }
  }

  class DatabaseWrapper {
    const connection: Connection
    var isOpen: bool
    var autocommit: bool
    var inAtomicBlock: bool
    var commitOnExit: bool
    var needsRollback: bool
    var savepointIds: seq<Option<nat>>
    var runOnCommit: seq<Callback>
    // fields of Django's base wrapper that the backend never touches
    var hooksPending: bool
    var blocks: nat
    var nextSid: nat
    var nextCallback: nat
    var ran: seq<nat>

    constructor (connection: Connection, autocommit: bool)
      ensures this.connection == connection
      ensures connection.state == State(connection.state.committed, None, 0, 0) ==>
        View() == Start(connection.state.committed, autocommit).w
    {
      this.connection := connection;
      isOpen, this.autocommit, inAtomicBlock, commitOnExit, needsRollback := true, autocommit, false, true, false;
      savepointIds, runOnCommit, hooksPending := [], [], false;
      blocks, nextSid, nextCallback, ran := 0, 0, 0, [];
    }

    /** The state that the session model speaks about. */
    function View(): Wrapper
      reads this, connection
    {
      Wrapper(connection.state, isOpen, autocommit, inAtomicBlock, commitOnExit, needsRollback, savepointIds,
              runOnCommit, hooksPending, blocks, nextSid, nextCallback, ran)
    }

    method BeginTransaction(fails: bool) returns (error: Option<Exn>)
      modifies connection
      ensures Reply(View(), error) == Begin(old(View()), fails)
    {
      var before := connection.state;
      if fails || before.tx.Some? {
        connection.state := before.(begins := before.begins + 1);
        return Some(DatabaseError);
      }
      connection.state := before.(begins := before.begins + 1, tx := Some(Tx(before.committed, [])));
      error := None;
    }

    method EnsureOpenTransaction(beginFails: bool) returns (error: Option<Exn>)
      modifies this, connection
      ensures Reply(View(), error) == EnsureTransaction(old(View()), beginFails)
      // autocommit never begins a transaction, and without it none is missing afterwards
      ensures isOpen && autocommit ==> error.None? && connection.state == old(connection.state)
      ensures isOpen && !autocommit && error.None? ==> connection.state.tx.Some?
    {
      if !isOpen || autocommit || connection.state.tx.Some? {
        return None;
      }
      if inAtomicBlock && commitOnExit {
        needsRollback := true;
        runOnCommit := [];
        return Some(TransactionManagementError);
      }
      error := BeginTransaction(beginFails);
    }

    /** The checks that every statement and every fetch starts with. */
    method EnterGuard(beginFails: bool) returns (error: Option<Exn>)
      modifies this, connection
      ensures Reply(View(), error) == Guard(old(View()), beginFails)
    {
      if needsRollback {
        return Some(TransactionManagementError);
      }
      error := EnsureOpenTransaction(beginFails);
    }

    /** A driver error inside the guard. */
    method NoteDriverError(ends: bool)
      modifies this, connection
      ensures View() == StatementFailed(old(View()), ends)
    {
      if ends && connection.state.tx.Some? {
        connection.state := connection.state.(tx := None, losses := connection.state.losses + 1);
      }
      if inAtomicBlock && connection.state.tx.None? {
        needsRollback := true;
        runOnCommit := [];
      }
    }

    method PrepareAutocommit(enable: bool, beginFails: bool) returns (error: Option<Exn>)
      modifies connection
      ensures Reply(View(), error) == SetAutocommitHook(old(View()), enable, beginFails)
    {
      error := None;
      if enable {
        if connection.state.tx.Some? {
          return Some(TransactionManagementError);
        }
      } else if connection.state.tx.None? {
        error := BeginTransaction(beginFails);
      }
    }

    method RollbackToSavepoint(sid: nat, f: Faults) returns (error: Option<Exn>)
      modifies this, connection
      ensures Reply(View(), error) == SavepointRollbackHook(old(View()), sid, f)
    {
      if connection.state.tx.None? {
        return Some(TransactionManagementError);
      }
      error := EnterGuard(f.begin);
      if error.Some? {
        return;
      }
      if f.statement.Fails? {
        NoteDriverError(f.statement.ends);
        return Some(DatabaseError);
      }
      var moved := Savepointed(connection.state, RollbackTo(sid));
      if moved.None? {
        NoteDriverError(false);
        return Some(DatabaseError);
      }
      connection.state := moved.value;
    }

    /** A call of the environment, which rewrites the fields of the wrapper. */
    method Control(op: Op) returns (response: Response)
      requires OnWrapper(op)
      modifies this, connection
      ensures var r := WrapperStep(old(View()), op); View() == r.w && response == Respond(r)
    {
      var r := WrapperStep(View(), op);
      connection.state := r.w.engine;
      isOpen, autocommit, inAtomicBlock := r.w.isOpen, r.w.autocommit, r.w.inAtomicBlock;
      commitOnExit, needsRollback, hooksPending := r.w.commitOnExit, r.w.needsRollback, r.w.hooksPending;
      savepointIds, runOnCommit := r.w.savepointIds, r.w.runOnCommit;
      blocks, nextSid, nextCallback, ran := r.w.blocks, r.w.nextSid, r.w.nextCallback, r.w.ran;
      response := Respond(r);
    }
  }

  class TursoCursor {
    const wrapper: DatabaseWrapper
    var driver: Engine.Cursor
    var returningRows: Option<seq<Engine.Row>>

    constructor (wrapper: DatabaseWrapper)
      ensures this.wrapper == wrapper && View() == NEW_CURSOR
    {
      this.wrapper := wrapper;
      driver, returningRows := Idle, None;
    }

    ghost function View(): CursorState
      reads this
    {
      CursorState(driver, returningRows)
    }

    method Run(stmt: Stmt, f: ExecuteFaults) returns (response: Response)
      modifies this, wrapper, wrapper.connection
      ensures Outcome(wrapper.View(), View(), response) == Execute(old(wrapper.View()), old(View()), stmt, f)
    {
      var error := wrapper.EnterGuard(f.begin);
      if error.Some? {
        return Raised(error.value);
      }
      returningRows := None;
      if f.binding {
        return Raised(BindingError);
      }
      if driver.Closed? {
        wrapper.NoteDriverError(false);
        return Raised(DatabaseError);
      }
      if f.run.Fails? {
        driver := Idle;
        wrapper.NoteDriverError(f.run.ends);
        return Raised(DatabaseError);
      }
      var ran := RunStatement(wrapper.connection.state, stmt);
      var write := WriteDetector.IsWriteStatement(stmt.tokens);
      if stmt.returnsRows && write {
        if f.drain.Fails? {
          driver := Idle;
          wrapper.NoteDriverError(f.drain.ends);
          return Raised(DatabaseError);
        }
        // Complete the write now; later fetches read the stored rows.
        var all := Engine.FetchAll(ran.engine, ran.cursor);
        wrapper.connection.state, driver, returningRows := all.engine, all.cursor, Some(all.rows);
      } else {
        wrapper.connection.state, driver := ran.engine, ran.cursor;
      }
      response := Finished;
    }

    /** The batch: one parameter row after the other, until the driver or the check stops it. */
    method RunMany(stmts: seq<Stmt>, f: BatchFaults) returns (response: Response)
      modifies this, wrapper, wrapper.connection
      ensures Outcome(wrapper.View(), View(), response) == ExecuteMany(old(wrapper.View()), old(View()), stmts, f)
    {
      var error := wrapper.EnterGuard(f.begin);
      if error.Some? {
        return Raised(error.value);
      }
      if stmts == [] {
        return Finished;
      }
      returningRows := None;
      if f.translation {
        return Raised(BindingError);
      }
      if driver.Closed? {
        wrapper.NoteDriverError(false);
        return Raised(DatabaseError);
      }
      driver := Idle;
      ghost var start := wrapper.View();
      var taken := if f.stop.Never? || f.taken > |stmts| then |stmts| else f.taken;
      var i := 0;
      while i < taken
        invariant 0 <= i <= taken
        invariant driver == Idle && returningRows == None
        invariant wrapper.View() == start.(engine := wrapper.connection.state)
        invariant ExecutedAll(wrapper.connection.state, stmts[i..taken]) == ExecutedAll(start.engine, stmts[..taken])
      {
        assert stmts[i..taken][1..] == stmts[i + 1..taken];
        wrapper.connection.state := Executed(wrapper.connection.state, stmts[i]);
        i := i + 1;
      }
      match f.stop {
        case Never => response := Finished;
        case RowRejected => response := Raised(BindingError);
        case DriverStopped(ends) =>
          wrapper.NoteDriverError(ends);
          response := Raised(DatabaseError);
      }
    }

    /** Take up to `count` stored rows from the front. */
    method PopRows(count: nat) returns (rows: seq<Engine.Row>)
      requires returningRows.Some? && count <= |returningRows.value|
      modifies this
      ensures driver == old(driver)
      ensures rows == old(returningRows.value)[..count]
      ensures returningRows == Some(old(returningRows.value)[count..])
    {
      rows := [];
      var i := 0;
      ghost var all := returningRows.value;
      while i < count
        invariant 0 <= i <= count && driver == old(driver)
        invariant rows == all[..i] && returningRows == Some(all[i..])
      {
        rows := rows + [returningRows.value[0]];
        returningRows := Some(returningRows.value[1..]);
        i := i + 1;
      }
    }

    method Fetch(how: Sessions.Fetch, f: Faults) returns (response: Response)
      modifies this, wrapper, wrapper.connection
      ensures Outcome(wrapper.View(), View(), response) == FetchRows(old(wrapper.View()), old(View()), how, f)
      // stored rows are handed out from the front, and the others stay
      ensures old(returningRows).Some? ==>
        returningRows.Some? && RowsIn(response) + returningRows.value == old(returningRows.value)
      ensures old(returningRows).Some? && how.All? && !response.Raised? ==> returningRows == Some([])
    {
      var error := wrapper.EnterGuard(f.begin);
      if error.Some? {
        return Raised(error.value);
      }
      if returningRows.Some? {
        match how {
          case One =>
            if returningRows.value == [] {
              response := Row(None);
            } else {
              var popped := PopRows(1);
              response := Row(Some(popped[0]));
            }
          case Many(size) =>
            if size < 0 {
              response := Raised(ValueError);
            } else {
              var popped := PopRows(Min(size, |returningRows.value|));
              response := Rows(popped);
            }
          case All =>
            response := Rows(returningRows.value);
            returningRows := Some([]);
        }
        return;
      }
      if driver.Closed? {
        wrapper.NoteDriverError(false);
        return Raised(DatabaseError);
      }
      if f.statement.Fails? {
        driver := Idle;
        wrapper.NoteDriverError(f.statement.ends);
        return Raised(DatabaseError);
      }
      var (answer, fetched) := FetchDriver(wrapper.connection.state, driver, how);
      wrapper.connection.state, driver := fetched.engine, fetched.cursor;
      response := answer;
    }

    method Close()
      modifies this
      ensures View() == CloseCursor(old(View()))
    {
      returningRows := None;
      driver := Closed;
    }
  }
}

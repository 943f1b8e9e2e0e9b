/** The transaction state of the database wrapper.

    The first part models the backend's own hooks. The second part is the environment: Django's commit,
    rollback, savepoint and `Atomic` code, which calls those hooks. */
module Transactions {
  import opened Outcomes
  import Engine

  /** A commit callback and the savepoints that were active when it was registered. */
  datatype Callback = Callback(id: nat, sids: set<nat>)

  datatype Exn = TransactionManagementError | DatabaseError | BindingError | ValueError | ConnectionClosed

  /** The wrapper. `blocks` is the number of open atomic blocks, `hooksPending` Django's note to run
      commit hooks when autocommit comes back, and `ran` the callbacks that have run. */
  datatype Wrapper = Wrapper(
    engine: Engine.State,
    isOpen: bool,
    autocommit: bool,
    inAtomicBlock: bool,
    commitOnExit: bool,
    needsRollback: bool,
    savepointIds: seq<Option<nat>>,
    runOnCommit: seq<Callback>,
    hooksPending: bool,
    blocks: nat,
    nextSid: nat,
    nextCallback: nat,
    ran: seq<nat>)

  /** A new wrapper state, and the exception that left the call, if any. */
  datatype Reply = Reply(w: Wrapper, error: Option<Exn>)

  function Done(w: Wrapper): Reply { Reply(w, None) }
  function Raise(w: Wrapper, e: Exn): Reply { Reply(w, Some(e)) }

  /** Faults of one statement: at an implicit BEGIN, and in the statement itself. */
  datatype Faults = Faults(begin: bool, statement: Engine.Fault)

  // ----- Hooks of the backend -----

  /** `_begin`. */
  function Begin(w: Wrapper, fails: bool): Reply {
    var e := w.engine.(begins := w.engine.begins + 1);
    if fails || e.tx.Some? then Raise(w.(engine := e), DatabaseError)
    else Done(w.(engine := Engine.Begun(w.engine)))
  }

  /** `_ensure_transaction`. */
  function EnsureTransaction(w: Wrapper, beginFails: bool): Reply {
    if !w.isOpen || w.autocommit || w.engine.tx.Some? then Done(w)
    else if w.inAtomicBlock && w.commitOnExit then
      Raise(w.(needsRollback := true, runOnCommit := []), TransactionManagementError)
    else Begin(w, beginFails)
  }

  /** Entry of `_django_transaction`. */
  function Guard(w: Wrapper, beginFails: bool): Reply {
    if w.needsRollback then Raise(w, TransactionManagementError) else EnsureTransaction(w, beginFails)
  }

  /** The handler of `_django_transaction` for a driver error. */
  function AfterDriverError(w: Wrapper): Wrapper {
    if w.inAtomicBlock && w.engine.tx.None? then w.(needsRollback := true, runOnCommit := []) else w
  }

  /** A driver call that failed, with the handler applied. */
  function StatementFailed(w: Wrapper, ends: bool): Wrapper {
    AfterDriverError(w.(engine := Engine.Failed(w.engine, ends)))
  }

  /** `_set_autocommit`. */
  function SetAutocommitHook(w: Wrapper, autocommit: bool, beginFails: bool): Reply {
    if autocommit then
      if w.engine.tx.Some? then Raise(w, TransactionManagementError) else Done(w)
    else if w.engine.tx.None? then Begin(w, beginFails)
    else Done(w)
  }

  /** A savepoint statement run through a cursor of the wrapper. */
  function SavepointStatement(w: Wrapper, action: Engine.SavepointAction, f: Faults): Reply {
    var g := Guard(w, f.begin);
    if g.error.Some? then g
    else if f.statement.Fails? then Raise(StatementFailed(g.w, f.statement.ends), DatabaseError)
    else
      var e := Engine.Savepointed(g.w.engine, action);
      if e.None? then Raise(StatementFailed(g.w, false), DatabaseError)
      else Done(g.w.(engine := e.value))
  }

  /** `_savepoint_rollback`. */
  function SavepointRollbackHook(w: Wrapper, sid: nat, f: Faults): Reply {
    if w.engine.tx.None? then Raise(w, TransactionManagementError)
    else SavepointStatement(w, Engine.RollbackTo(sid), f)
  }

  /** The connection is let go, and active work with it. Django marks an open atomic block as broken. */
  function Drop(w: Wrapper): Wrapper {
    w.(engine := Engine.RolledBack(w.engine), isOpen := false, runOnCommit := [],
       needsRollback := w.needsRollback || w.inAtomicBlock)
  }

  /** `close`: outside atomic blocks the connection of an in-memory database stays and only active work is
      rolled back. */
  function Close(w: Wrapper, inMemory: bool): Wrapper {
    if w.inAtomicBlock || !inMemory then Drop(w)
    else w.(engine := Engine.RolledBack(w.engine), runOnCommit := [])
  }

  // ----- Environment: Django's base wrapper -----

  function Without(cs: seq<Callback>, sid: nat): seq<Callback> {
    if cs == [] then []
    else (if sid in cs[0].sids then [] else [cs[0]]) + Without(cs[1..], sid)
  }

  function Ids(cs: seq<Callback>): seq<nat> {
    if cs == [] then [] else [cs[0].id] + Ids(cs[1..])
  }

  function SavepointCreate(w: Wrapper, f: Faults): Reply {
    SavepointStatement(w.(nextSid := w.nextSid + 1), Engine.Save(w.nextSid), f)
  }

  function SavepointCommit(w: Wrapper, sid: nat, f: Faults): Reply {
    if w.autocommit then Done(w) else SavepointStatement(w, Engine.Release(sid), f)
  }

  function SavepointRollback(w: Wrapper, sid: nat, f: Faults): Reply {
    if w.autocommit then Done(w)
    else
      var r := SavepointRollbackHook(w, sid, f);
      if r.error.Some? then r else Done(r.w.(runOnCommit := Without(r.w.runOnCommit, sid)))
  }

  function Commit(w: Wrapper, fault: Engine.Fault): Reply {
    if w.inAtomicBlock then Raise(w, TransactionManagementError)
    else if fault.Fails? then Raise(w.(engine := Engine.Failed(w.engine, fault.ends)), DatabaseError)
    else Done(w.(engine := Engine.Committed(w.engine), hooksPending := true))
  }

  function Rollback(w: Wrapper, fault: Engine.Fault): Reply {
    if w.inAtomicBlock then Raise(w, TransactionManagementError)
    else if fault.Fails? then Raise(w.(engine := Engine.Failed(w.engine, fault.ends)), DatabaseError)
    else Done(w.(engine := Engine.RolledBack(w.engine), needsRollback := false, runOnCommit := []))
  }

  /** The mode after `set_autocommit`. Waiting hooks run when autocommit comes back. */
  function SwitchedTo(w: Wrapper, autocommit: bool): Wrapper {
    var w' := w.(autocommit := autocommit);
    if autocommit && w'.hooksPending then
      w'.(ran := w'.ran + Ids(w'.runOnCommit), runOnCommit := [], hooksPending := false)
    else w'
  }

  /** `set_autocommit`. `force` is the way `Atomic` enters its outermost block. */
  function SetAutocommit(w: Wrapper, autocommit: bool, force: bool, beginFails: bool): Reply {
    if w.inAtomicBlock then Raise(w, TransactionManagementError)
    else
      var r := if force && !autocommit then Begin(w, beginFails) else SetAutocommitHook(w, autocommit, beginFails);
      if r.error.Some? then r else Done(SwitchedTo(r.w, autocommit))
  }

  /** `transaction.on_commit`. Outside a transaction the callback runs at once. */
  function OnCommit(w: Wrapper): Reply {
    var id := w.nextCallback;
    var w' := w.(nextCallback := id + 1);
    if w.inAtomicBlock then
      var sids := set k | 0 <= k < |w.savepointIds| && w.savepointIds[k].Some? :: w.savepointIds[k].value;
      Done(w'.(runOnCommit := w.runOnCommit + [Callback(id, sids)]))
    else if !w.autocommit then Raise(w, TransactionManagementError)
    else Done(w'.(ran := w.ran + [id]))
  }

  // ----- Environment: Django's Atomic -----

  function AtomicEnter(w: Wrapper, savepoint: bool, f: Faults): Reply {
    var w1 :=
      if w.inAtomicBlock then w
      else w.(commitOnExit := w.autocommit, needsRollback := false, inAtomicBlock := !w.autocommit);
    if w1.inAtomicBlock then
      if savepoint && !w1.needsRollback then
        var r := SavepointCreate(w1, f);
        if r.error.Some? then r
        else Done(r.w.(savepointIds := r.w.savepointIds + [Some(w1.nextSid)], blocks := r.w.blocks + 1))
      else Done(w1.(savepointIds := w1.savepointIds + [None], blocks := w1.blocks + 1))
    else
      var r := SetAutocommit(w1, false, true, f.begin);
      if r.error.Some? then r else Done(r.w.(inAtomicBlock := true, blocks := r.w.blocks + 1))
  }

  /** Faults of the calls that leaving a block can make. */
  datatype ExitFaults = ExitFaults(
    first: Faults, second: Faults, third: Faults, commit: Engine.Fault, rollback: Engine.Fault)

  function PopBlock(w: Wrapper): Wrapper
    requires w.blocks > 0
  {
    var w' := w.(blocks := w.blocks - 1);
    if w.savepointIds == [] then w'.(inAtomicBlock := false)
    else w'.(savepointIds := w.savepointIds[..|w.savepointIds| - 1])
  }

  /** Roll back to the block's savepoint, or hand the rollback to the enclosing block. */
  function LeaveByRollback(w: Wrapper, sid: Option<nat>, first: Faults, second: Faults): Wrapper {
    if sid.None? then w.(needsRollback := true)
    else
      var r := SavepointRollback(w, sid.value, first);
      var r' := if r.error.Some? then r else SavepointCommit(r.w, sid.value, second);
      if r'.error.Some? then r'.w.(needsRollback := true) else r'.w
  }

  /** Release the block's savepoint; if that fails, roll back to it. */
  function LeaveBySavepoint(w: Wrapper, sid: Option<nat>, f: ExitFaults): Reply {
    if sid.None? then Done(w)
    else
      var r := SavepointCommit(w, sid.value, f.first);
      if r.error.None? then r
      else Raise(LeaveByRollback(r.w, sid, f.second, f.third), r.error.value)
  }

  /** A connection that could not roll back is dropped. */
  function RollbackOrDrop(w: Wrapper, fault: Engine.Fault): Wrapper {
    var r := Rollback(w, fault);
    if r.error.Some? then Drop(r.w) else r.w
  }

  function LeaveOutermost(w: Wrapper, f: ExitFaults): Reply {
    var r := Commit(w, f.commit);
    if r.error.None? then r else Raise(RollbackOrDrop(r.w, f.rollback), r.error.value)
  }

  /** The `finally` part: give autocommit back, or forget the pretended block of manual mode. */
  function Unwind(r: Reply): Reply {
    if !r.w.inAtomicBlock then
      if !r.w.isOpen then r
      else
        var r' := SetAutocommit(r.w, true, false, false);
        if r'.error.Some? then r' else Reply(r'.w, r.error)
    else if r.w.savepointIds == [] && !r.w.commitOnExit then
      Reply(r.w.(inAtomicBlock := false), r.error)
    else r
  }

  function AtomicExit(w: Wrapper, failed: bool, f: ExitFaults): Reply
    requires w.blocks > 0
  {
    var sid := if w.savepointIds == [] then None else w.savepointIds[|w.savepointIds| - 1];
    var w1 := PopBlock(w);
    if !failed && !w1.needsRollback then
      Unwind(if w1.inAtomicBlock then LeaveBySavepoint(w1, sid, f) else LeaveOutermost(w1, f))
    else
      var w2 := w1.(needsRollback := false);
      Unwind(Done(if w2.inAtomicBlock then LeaveByRollback(w2, sid, f.first, f.second)
                  else RollbackOrDrop(w2, f.rollback)))
  }
}

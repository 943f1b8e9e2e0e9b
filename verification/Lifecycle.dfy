/** Closing a connection, and the check between requests that may close it.

    An in-memory database lives as long as its physical connection, so a healthy connection is kept
    while one whose state is in doubt is always let go. */
module Lifecycle {
  import opened Outcomes

  type Rows = seq<int>

  /** `present`: the wrapper has a connection. `closed`: that connection was closed inside an atomic
      block, so Django keeps it until the block ends. `working` is the uncommitted state, if any. */
  datatype Life = Life(
    present: bool,
    closed: bool,
    committed: Rows,
    working: Option<Rows>,
    autocommit: bool,
    inAtomicBlock: bool,
    needsRollback: bool,
    errorsOccurred: bool,
    healthCheckEnabled: bool,
    healthCheckDone: bool,
    runOnCommit: seq<nat>)

  /** The settings of the alias. */
  datatype Settings = Settings(inMemory: bool, autocommit: bool)

  /** How the driver behaves: reading `in_transaction` can raise, before and after a rollback or in the
      drift check; a rollback can raise or leave the transaction active; `SELECT 1` can fail; and the
      physical close can raise. */
  datatype RollbackFault = RollsBack | Raises | StaysActive
  datatype Faults = Faults(
    readBefore: bool, rollback: RollbackFault, readAfter: bool, driftRead: bool, usable: bool, close: bool)

  /** The state after a call, and whether an exception left it. */
  datatype Ended = Ended(life: Life, raised: bool)

  predicate Gone(l: Life) {
    !l.present || l.closed
  }

  /** What a kept connection must look like. */
  predicate Healthy(l: Life, s: Settings) {
    && l.autocommit == s.autocommit
    && !l.errorsOccurred
    && !(l.autocommit && l.working.Some?)
  }

  // ----- Specification -----

  /** Django's base `close`, which lets the connection go at once or at the end of the atomic block, even
      when the physical close raises. */
  function ForceClosed(l: Life, f: Faults): Ended {
    var l' := l.(runOnCommit := []);
    if l.closed || !l.present then Ended(l', false)
    else if l.inAtomicBlock then Ended(l'.(working := None, closed := true, needsRollback := true), f.close)
    else Ended(l'.(working := None, present := false), f.close)
  }

  function RolledBackForClose(l: Life, f: Faults): Ended {
    if !l.present then Ended(l, false)
    else if f.readBefore then Ended(ForceClosed(l, f).life, true)
    else if l.working.None? then Ended(l, false)
    else
      match f.rollback
      case Raises => Ended(ForceClosed(l, f).life, true)
      case StaysActive => Ended(ForceClosed(l, f).life, true)
      case RollsBack =>
        var l' := l.(working := None);
        if f.readAfter then Ended(ForceClosed(l', f).life, true) else Ended(l', false)
  }

  function RolledBackAndClosed(l: Life, f: Faults): Ended {
    var r := RolledBackForClose(l, f);
    if r.raised then r else ForceClosed(r.life, f)
  }

  function Closed(l: Life, s: Settings, f: Faults): Ended {
    var l' := l.(runOnCommit := []);
    if !l.present || l.closed then Ended(l', false)
    else
      var r := RolledBackForClose(l', f);
      if r.raised then r
      else if l.inAtomicBlock || !s.inMemory then ForceClosed(r.life, f)
      else r
  }

  /** A raising close leaves the check unrecorded. */
  function HealthChecked(l: Life, f: Faults): Ended {
    if !l.present || !l.healthCheckEnabled || l.healthCheckDone then Ended(l, false)
    else
      var r := if f.usable then Ended(l, false) else ForceClosed(l, f);
      if r.raised then r else Ended(r.life.(healthCheckDone := true), false)
  }

  /** The check of an in-memory connection. The engine's own state is read under autocommit only. */
  function Checked(l: Life, s: Settings, f: Faults, expired: bool): Ended {
    if !l.present then Ended(l, false)
    else
      var l1 := l.(healthCheckDone := false);
      if l1.autocommit != s.autocommit then RolledBackAndClosed(l1, f)
      else if l1.autocommit && f.driftRead then ForceClosed(l1, f)
      else if l1.autocommit && l1.working.Some? then RolledBackAndClosed(l1, f)
      else if l1.errorsOccurred && !f.usable then ForceClosed(l1, f)
      else
        var l2 := if l1.errorsOccurred then l1.(errorsOccurred := false, healthCheckDone := true) else l1;
        Ended(if expired then l2.(healthCheckDone := true) else l2, false)
  }

  // ----- The wrapper -----

  class ConnectionHolder {
    const settings: Settings
    var present: bool
    var closed: bool
    var committed: Rows
    var working: Option<Rows>
    var autocommit: bool
    var inAtomicBlock: bool
    var needsRollback: bool
    var errorsOccurred: bool
    var healthCheckEnabled: bool
    var healthCheckDone: bool
    var runOnCommit: seq<nat>

    constructor (settings: Settings, committed: Rows)
      ensures this.settings == settings
      ensures View() == Life(true, false, committed, None, settings.autocommit, false, false, false, false, false, [])
    {
      this.settings, this.committed := settings, committed;
      present, closed, working := true, false, None;
      autocommit, inAtomicBlock, needsRollback := settings.autocommit, false, false;
      errorsOccurred, healthCheckEnabled, healthCheckDone, runOnCommit := false, false, false, [];
    }

    ghost function View(): Life
      reads this
    {
      Life(present, closed, committed, working, autocommit, inAtomicBlock, needsRollback, errorsOccurred,
           healthCheckEnabled, healthCheckDone, runOnCommit)
    }

    method ForceClose(f: Faults) returns (raised: bool)
      modifies this
      ensures Ended(View(), raised) == ForceClosed(old(View()), f)
    {
      runOnCommit := [];
      if closed || !present {
        return false;
      }
      // the physical close; what follows happens whether or not it raises
      raised := f.close;
      working := None;
      if inAtomicBlock {
        closed, needsRollback := true, true;
      } else {
        present := false;
      }
    }

    method RollbackActiveTransactionForClose(f: Faults) returns (raised: bool)
      modifies this
      ensures Ended(View(), raised) == RolledBackForClose(old(View()), f)
    {
      if !present {
        return false;
      }
      if !f.readBefore && working.None? {
        return false;
      }
      if !f.readBefore && f.rollback.RollsBack? {
        working := None;
        if !f.readAfter {
          return false;
        }
      }
      // the transaction state is unknown: the connection must not be used again
      raised := ForceClose(f);
      raised := true;
    }

    method RollbackAndForceClose(f: Faults) returns (raised: bool)
      modifies this
      ensures Ended(View(), raised) == RolledBackAndClosed(old(View()), f)
    {
      raised := RollbackActiveTransactionForClose(f);
      if !raised {
        raised := ForceClose(f);
      }
    }

    method Close(f: Faults) returns (raised: bool)
      modifies this
      ensures Ended(View(), raised) == Closed(old(View()), settings, f)
    {
      runOnCommit := [];
      if !present || closed {
        return false;
      }
      raised := RollbackActiveTransactionForClose(f);
      if raised {
        return;
      }
      if inAtomicBlock || !settings.inMemory {
        raised := ForceClose(f);
      }
    }

    method CloseIfHealthCheckFailed(f: Faults) returns (raised: bool)
      modifies this
      ensures Ended(View(), raised) == HealthChecked(old(View()), f)
    {
      raised := false;
      if !present || !healthCheckEnabled || healthCheckDone {
        return;
      }
      if !f.usable {
        raised := ForceClose(f);
        if raised {
          return;
        }
      }
      healthCheckDone := true;
    }

    /** The check between requests, for an in-memory database. */
    method CloseIfUnusableOrObsolete(f: Faults, expired: bool) returns (raised: bool)
      requires settings.inMemory
      modifies this
      ensures Ended(View(), raised) == Checked(old(View()), settings, f, expired)
    {
      raised := false;
      if !present {
        return;
      }
      healthCheckDone := false;
      if autocommit != settings.autocommit {
        raised := RollbackAndForceClose(f);
        return;
      }
      if autocommit && f.driftRead {
        raised := ForceClose(f);
        return;
      }
      if autocommit && working.Some? {
        raised := RollbackAndForceClose(f);
        return;
      }
      if errorsOccurred {
        if f.usable {
          errorsOccurred := false;
          healthCheckDone := true;
        } else {
          raised := ForceClose(f);
          return;
        }
      }
      if expired {
        healthCheckDone := true;
      }
    }
  }

  // ----- Laws -----

  lemma ForceClosedIsGone(l: Life, f: Faults)
    ensures var r := ForceClosed(l, f);
      && Gone(r.life) && r.life.committed == l.committed && r.life.runOnCommit == []
      && (!Gone(l) ==> r.life.working == None)
      && (r.raised <==> !Gone(l) && f.close)
  {
  }

  predicate RollbackWorks(l: Life, f: Faults) {
    !f.readBefore && (l.working.Some? ==> f.rollback.RollsBack? && !f.readAfter)
  }

  lemma RollbackEnds(l: Life, f: Faults)
    requires l.present
    ensures var r := RolledBackForClose(l, f);
      && (RollbackWorks(l, f) ==> r == Ended(l.(working := None), false))
      && (!RollbackWorks(l, f) ==> r.raised && Gone(r.life) && r.life.committed == l.committed
                                   && r.life.runOnCommit == [] && (!Gone(l) ==> r.life.working == None))
  {
    ForceClosedIsGone(l, f);
    ForceClosedIsGone(l.(working := None), f);
    hide ForceClosed;
  }

  lemma RollbackAndCloseIsGone(l: Life, f: Faults)
    requires l.present
    ensures var r := RolledBackAndClosed(l, f);
      && Gone(r.life) && r.life.committed == l.committed
      && (r.raised <==> !RollbackWorks(l, f) || (!l.closed && f.close))
  {
    hide RolledBackForClose, ForceClosed;
    RollbackEnds(l, f);
    ForceClosedIsGone(RolledBackForClose(l, f).life, f);
  }

  /** After the check an in-memory connection is gone or healthy, whatever failed on the way, and an
      exception means that it is gone. */
  lemma CheckedIsGoneOrHealthy(l: Life, s: Settings, f: Faults, expired: bool)
    ensures var r := Checked(l, s, f, expired);
      && (Gone(r.life) || Healthy(r.life, s))
      && (r.raised ==> Gone(r.life))
      && r.life.committed == l.committed
  {
    hide RolledBackAndClosed, ForceClosed;
    if l.present {
      var l1 := l.(healthCheckDone := false);
      RollbackAndCloseIsGone(l1, f);
      ForceClosedIsGone(l1, f);
    }
  }

  /** The check keeps exactly the connections that are healthy, apart from an error that a probe
      clears, and it leaves their data and any configured manual transaction alone. A raising read of
      the engine's state matters under autocommit only. */
  lemma CheckedKeepsHealthyConnections(l: Life, s: Settings, f: Faults, expired: bool)
    ensures var r := Checked(l, s, f, expired).life;
      && (!Gone(r) <==> !Gone(l) && !(l.autocommit && f.driftRead) && Healthy(l.(errorsOccurred := false), s)
                        && (l.errorsOccurred ==> f.usable))
      && (!Gone(r) ==> r == l.(errorsOccurred := false, healthCheckDone := l.errorsOccurred || expired))
  {
    hide RolledBackAndClosed, ForceClosed;
    if l.present {
      var l1 := l.(healthCheckDone := false);
      RollbackAndCloseIsGone(l1, f);
      ForceClosedIsGone(l1, f);
    }
  }

  /** The connection cannot be kept without ending its transaction: its mode is not the configured one, or a
      transaction is active although autocommit is on. */
  predicate MustEndWork(l: Life, s: Settings, f: Faults) {
    l.autocommit != s.autocommit || (l.autocommit && !f.driftRead && l.working.Some?)
  }

  /** The check raises only when it lets the connection go: because ending the transaction failed, or because the
      physical close did. Whatever it lets go keeps its committed data and loses its callbacks; a connection that
      is let go inside an atomic block stays with the wrapper, closed, and the block is marked. */
  lemma CheckedRaisesExactly(l: Life, s: Settings, f: Faults, expired: bool)
    requires !Gone(l)
    ensures var r := Checked(l, s, f, expired);
      && (r.raised <==> Gone(r.life) && (f.close || (MustEndWork(l, s, f) && !RollbackWorks(l, f))))
      && (Gone(r.life) ==>
          && r.life.committed == l.committed && r.life.working == None && r.life.runOnCommit == []
          && r.life.present == l.inAtomicBlock && r.life.closed == l.inAtomicBlock
          && r.life.needsRollback == (l.needsRollback || l.inAtomicBlock))
  {
    var l1 := l.(healthCheckDone := false);
    ForceClosedInBlock(l1, f);
    RollbackAndCloseInBlock(l1, f);
    RollbackAndCloseIsGone(l1, f);
    ForceClosedIsGone(l1, f);
    hide RolledBackAndClosed, ForceClosed;
  }

  lemma ForceClosedInBlock(l: Life, f: Faults)
    requires !Gone(l)
    ensures var r := ForceClosed(l, f).life;
      && r.present == l.inAtomicBlock && r.closed == l.inAtomicBlock && r.working == None && r.runOnCommit == []
      && r.needsRollback == (l.needsRollback || l.inAtomicBlock)
  {
  }

  lemma RollbackAndCloseInBlock(l: Life, f: Faults)
    requires !Gone(l)
    ensures var r := RolledBackAndClosed(l, f).life;
      && r.present == l.inAtomicBlock && r.closed == l.inAtomicBlock && r.working == None && r.runOnCommit == []
      && r.needsRollback == (l.needsRollback || l.inAtomicBlock)
  {
    ForceClosedInBlock(l, f);
    ForceClosedInBlock(l.(working := None), f);
    hide ForceClosed;
  }

  /** Closing an in-memory connection outside atomic blocks keeps it and its committed data and discards
      exactly the active work and the waiting callbacks. Every other close lets the connection go. An
      exception leaves exactly when the rollback fails, or when the connection is closed physically and
      that raises. */
  lemma ClosedKeepsCommittedData(l: Life, s: Settings, f: Faults)
    requires !Gone(l)
    ensures var r := Closed(l, s, f);
      && (r.raised <==> !RollbackWorks(l, f) || ((l.inAtomicBlock || !s.inMemory) && f.close))
      && (!Gone(r.life) <==> RollbackWorks(l, f) && s.inMemory && !l.inAtomicBlock)
      && (!Gone(r.life) ==> r.life == l.(working := None, runOnCommit := []))
      && r.life.runOnCommit == [] && r.life.committed == l.committed && r.life.working == None
  {
    hide RolledBackForClose, ForceClosed;
    var l1 := l.(runOnCommit := []);
    RollbackEnds(l1, f);
    ForceClosedIsGone(RolledBackForClose(l1, f).life, f);
  }

  /** Without a connection, when checks are off and when this request has had its check, nothing happens. */
  lemma HealthCheckIsSkipped(l: Life, f: Faults)
    requires !l.present || !l.healthCheckEnabled || l.healthCheckDone
    ensures HealthChecked(l, f) == Ended(l, false)
  {
  }

  /** A failed health check lets the connection go; otherwise it only records that it was done. */
  lemma HealthCheckLetsGo(l: Life, f: Faults)
    requires !Gone(l) && l.healthCheckEnabled && !l.healthCheckDone
    ensures var r := HealthChecked(l, f);
      && (Gone(r.life) <==> !f.usable) && (r.raised <==> !f.usable && f.close)
      && (r.life.healthCheckDone <==> !r.raised)
      && (f.usable ==> r.life == l.(healthCheckDone := true))
  {
    ForceClosedIsGone(l, f);
  }
}

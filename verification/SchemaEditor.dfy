/** The schema editor's protocol: foreign-key enforcement is switched off on entry, the schema is edited,
    every constraint is checked by hand, and enforcement and transaction mode are put back. */
module SchemaEditor {
  import opened Outcomes
  import opened ForeignKeys

  datatype Mode = Deferred | Immediate | Concurrent

  type Exn = nat

  /** What a PRAGMA statement can do: work, raise with or without having worked, or be ignored. */
  datatype Pragma = Works | RaisesBefore(e: Exn) | RaisesAfter(e: Exn) | IsIgnored

  /** Reading the state back can raise; a row that is no valid state raises as well. */
  datatype Reading = Reads | ReadRaises(e: Exn)

  /** One attempt to set the enforcement. `mismatch` is raised when the state read back is another. */
  datatype Setting = Setting(pragma: Pragma, readback: Reading, mismatch: Exn)

  /** One deferred statement: its effect, or the exception it raises. */
  datatype Statement = Runs(effect: Database -> Database) | StatementRaises(e: Exn)

  /** The body of the `with` statement: what it leaves behind, and the exception that left it. It may
      even switch the enforcement. */
  datatype Body = Body(
    effect: Database -> Database, foreignKeys: Option<bool>, deferred: seq<Statement>, error: Option<Exn>)

  /** How Django's base exit ends: the exception that leaves it, and, if it had to close the connection,
      the enforcement of the connection that is opened in its place. */
  datatype Ending = Ending(error: Option<Exn>, reopened: Option<bool>)

  /** One behaviour of the environment at every step of the protocol. The base exit commits when nothing
      failed before it and rolls back otherwise; both can fail. */
  datatype Plan = Plan(
    connect: Option<Exn>,
    refuse: Exn,
    firstRead: Reading,
    disable: Setting,
    baseEnter: Option<Exn>,
    entryRestore: Setting,
    body: Body,
    check: Option<Exn>,
    violation: Exn,
    commit: Ending,
    rollback: Ending,
    exitRestore: Setting)

  /** The first exception that is there. */
  function First(a: Option<Exn>, b: Option<Exn>): Option<Exn> {
    if a.Some? then a else b
  }

  function Unless(refused: bool, e: Exn): Option<Exn> {
    if refused then Some(e) else None
  }

  function ReadingError(r: Reading): Option<Exn> {
    if r.ReadRaises? then Some(r.e) else None
  }

  /** The exception of an attempt to set the enforcement; `already` when it is in that state. */
  function SettingError(s: Setting, already: bool): Option<Exn> {
    if s.pragma.RaisesBefore? || s.pragma.RaisesAfter? then Some(s.pragma.e)
    else First(ReadingError(s.readback), Unless(s.pragma.IsIgnored? && !already, s.mismatch))
  }

  // ----- What each part of the protocol raises -----

  /** The reasons for refusing to enter, in the order in which they are found. */
  function EntryError(p: Plan, foreignKeys: bool, mode: Mode, autocommit: bool, inAtomicBlock: bool): Option<Exn> {
    First(p.connect,
    First(Unless(mode == Concurrent && (!autocommit || inAtomicBlock), p.refuse),
    First(ReadingError(p.firstRead),
    First(Unless(foreignKeys && inAtomicBlock, p.refuse),
    First(if foreignKeys then SettingError(p.disable, false) else None,
          p.baseEnter)))))
  }

  /** The deferred statements and then the check, on a database whose constraints hold or not. */
  function SchemaErrorOf(p: Plan, statements: seq<Statement>, holds: bool): Option<Exn> {
    First(DeferredError(statements), First(p.check, Unless(!holds, p.violation)))
  }

  function EndingOf(p: Plan, failed: bool): Ending {
    if failed then p.rollback else p.commit
  }

  /** The enforcement when restoration begins. */
  function BeforeRestoration(p: Plan, failed: bool, foreignKeys: bool): bool {
    if EndingOf(p, failed).reopened.Some? then EndingOf(p, failed).reopened.value else foreignKeys
  }

  /** Everything that the protocol raises: `original` is the enforcement before it, and `holds` tells
      whether the edited schema satisfies its constraints. */
  function ErrorsOf(p: Plan, entry: Option<Exn>, original: bool, holds: bool): Errors {
    if entry.Some? then Errors(entry, None, None, None, None)
    else
      var body := p.body.error;
      var schema := if body.Some? then None else SchemaErrorOf(p, p.body.deferred, holds);
      var failed := First(body, schema).Some?;
      var edited := if p.body.foreignKeys.Some? then p.body.foreignKeys.value else false;
      Errors(None, body, schema, EndingOf(p, failed).error,
             SettingError(p.exitRestore, BeforeRestoration(p, failed, edited) == original))
  }

  /** The connection as far as schema editing touches it. `working` is the state inside the editor,
      `committed` what remains. */
  class Connection {
    var foreignKeys: bool
    var mode: Mode
    var disposed: bool
    var autocommit: bool
    var inAtomicBlock: bool
    var working: Database
    var committed: Database

    constructor (foreignKeys: bool, mode: Mode, db: Database)
      ensures this.foreignKeys == foreignKeys && this.mode == mode && !disposed
      ensures working == committed == db && autocommit && !inAtomicBlock
    {
      this.foreignKeys, this.mode, disposed := foreignKeys, mode, false;
      autocommit, inAtomicBlock := true, false;
      working, committed := db, db;
    }

    method ForceClose()
      modifies this`disposed
      ensures disposed
    {
      disposed := true;
    }
  }

  class Editor {
    const connection: Connection
    const atomic: bool
    const eq: Comparison
    /** The tables that the catalogue lists. */
    const tableNames: Database -> seq<string>
    var originalForeignKeys: Option<bool>
    var originalMode: Option<Mode>
    var deferredSql: seq<Statement>

    constructor (connection: Connection, atomic: bool, eq: Comparison, tableNames: Database -> seq<string>)
      ensures this.connection == connection && this.atomic == atomic && this.eq == eq && this.tableNames == tableNames
      ensures originalForeignKeys == None && originalMode == None
    {
      this.connection, this.atomic, this.eq, this.tableNames := connection, atomic, eq, tableNames;
      originalForeignKeys, originalMode, deferredSql := None, None, [];
    }

    /** `_foreign_key_state`: a state that is returned is the engine's own. */
    method ForeignKeyState(reading: Reading) returns (state: Result<bool, Exn>)
      ensures state.Ok? ==> state.value == connection.foreignKeys
      ensures state.Err? ==> ReadingError(reading) == Some(state.error)
      ensures state.Ok? <==> ReadingError(reading).None?
    {
      match reading {
        case ReadRaises(e) => state := Err(e);
        case Reads => state := Ok(connection.foreignKeys);
      }
    }

    /** `_set_foreign_key_state`: no exception means that the state is the requested one. */
    method SetForeignKeyState(enabled: bool, s: Setting) returns (error: Option<Exn>)
      modifies connection`foreignKeys
      ensures error.None? ==> connection.foreignKeys == enabled
      ensures error == SettingError(s, old(connection.foreignKeys) == enabled)
    {
      if s.pragma.RaisesBefore? {
        return Some(s.pragma.e);
      }
      if !s.pragma.IsIgnored? {
        connection.foreignKeys := enabled;
      }
      if s.pragma.RaisesAfter? {
        return Some(s.pragma.e);
      }
      var state := ForeignKeyState(s.readback);
      if state.Err? {
        return Some(state.error);
      }
      if state.value != enabled {
        return Some(s.mismatch);
      }
      error := None;
    }

    /** `_restore_foreign_key_state`: the original state is back, or the connection is disposed. */
    method RestoreForeignKeyState(s: Setting) returns (error: Option<Exn>)
      modifies this`originalForeignKeys, connection`foreignKeys, connection`disposed
      ensures originalForeignKeys == None
      ensures error == if old(originalForeignKeys).None? then None
                       else SettingError(s, old(connection.foreignKeys) == old(originalForeignKeys.value))
      ensures old(originalForeignKeys).None? ==>
        connection.foreignKeys == old(connection.foreignKeys) && connection.disposed == old(connection.disposed)
      ensures old(originalForeignKeys).Some? && error.None? ==>
        connection.foreignKeys == old(originalForeignKeys.value) && connection.disposed == old(connection.disposed)
      ensures error.Some? ==> connection.disposed
    {
      if originalForeignKeys.None? {
        return None;
      }
      error := SetForeignKeyState(originalForeignKeys.value, s);
      if error.Some? {
        connection.ForceClose();
      }
      originalForeignKeys := None;
    }

    /** `_restore_transaction_mode`. */
    method RestoreTransactionMode()
      modifies this`originalMode, connection`mode
      ensures originalMode == None
      ensures connection.mode == if old(originalMode).Some? then old(originalMode.value) else old(connection.mode)
    {
      if originalMode.Some? {
        connection.mode := originalMode.value;
        originalMode := None;
      }
    }

    /** `__enter__`: after an exception nothing is left to undo; otherwise enforcement is off and both
        originals are remembered. */
    method Enter(p: Plan) returns (error: Option<Exn>)
      requires originalForeignKeys == None && originalMode == None
      modifies this, connection`foreignKeys, connection`disposed, connection`mode
      ensures error.Some? ==> originalForeignKeys == None && originalMode == None
      ensures error.Some? ==> connection.mode == old(connection.mode)
      ensures error.Some? ==> connection.foreignKeys == old(connection.foreignKeys) || connection.disposed
      ensures error.None? ==> connection.disposed == old(connection.disposed)
      ensures error.None? ==> originalForeignKeys == Some(old(connection.foreignKeys)) && !connection.foreignKeys
      ensures error.None? ==> deferredSql == []
      ensures error.None? && old(connection.mode) == Concurrent ==>
        originalMode == Some(Concurrent) && connection.mode == Immediate
      ensures error.None? && old(connection.mode) != Concurrent ==>
        originalMode == None && connection.mode == old(connection.mode)
      ensures error == EntryError(p, old(connection.foreignKeys), old(connection.mode),
                                  connection.autocommit, connection.inAtomicBlock)
    {
      if p.connect.Some? {
        return p.connect;
      }
      if connection.mode == Concurrent && (!connection.autocommit || connection.inAtomicBlock) {
        return Some(p.refuse);
      }
      var state := ForeignKeyState(p.firstRead);
      if state.Err? {
        connection.ForceClose();
        return Some(state.error);
      }
      originalForeignKeys := Some(state.value);
      error := None;
      if state.value && connection.inAtomicBlock {
        error := Some(p.refuse);
      }
      if error.None? && state.value {
        error := SetForeignKeyState(false, p.disable);
      }
      if error.None? {
        if connection.mode == Concurrent {
          originalMode := Some(Concurrent);
          connection.mode := Immediate;
        }
        deferredSql := [];
        error := p.baseEnter;
      }
      if error.Some? {
        var restoration := RestoreForeignKeyState(p.entryRestore);
        RestoreTransactionMode();
      }
    }

    /** Environment: the body of the `with` statement. It may change anything but the mode. */
    method RunBody(b: Body) returns (error: Option<Exn>)
      modifies this`deferredSql, connection`working, connection`foreignKeys
      ensures connection.working == b.effect(old(connection.working))
      ensures connection.foreignKeys ==
        if b.foreignKeys.Some? then b.foreignKeys.value else old(connection.foreignKeys)
      ensures deferredSql == b.deferred && error == b.error
    {
      connection.working := b.effect(connection.working);
      connection.foreignKeys := if b.foreignKeys.Some? then b.foreignKeys.value else connection.foreignKeys;
      deferredSql := b.deferred;
      error := b.error;
    }

    /** Environment: Django's base exit. An atomic editor commits what it did or throws it away; outside
        a transaction everything is already committed. Either way it can raise, and it can close the
        connection. */
    method BaseExit(error: Option<Exn>, p: Plan) returns (exitError: Option<Exn>)
      modifies connection`committed, connection`working, connection`foreignKeys, connection`disposed
      ensures exitError == EndingOf(p, error.Some?).error
      ensures connection.committed ==
        (if !atomic || First(error, exitError).None? then old(connection.working) else old(connection.committed))
      ensures connection.foreignKeys == BeforeRestoration(p, error.Some?, old(connection.foreignKeys))
      ensures connection.disposed == (old(connection.disposed) || EndingOf(p, error.Some?).reopened.Some?)
    {
      var ending := if error.Some? then p.rollback else p.commit;
      exitError := ending.error;
      if !atomic || (error.None? && exitError.None?) {
        connection.committed := connection.working;
      }
      connection.working := connection.committed;
      if ending.reopened.Some? {
        connection.disposed := true;
        connection.foreignKeys := ending.reopened.value;
      }
    }

    /** The deferred statements, in order, until one raises. */
    method RunDeferred() returns (error: Option<Exn>)
      modifies this`deferredSql, connection`working
      ensures deferredSql == []
      ensures error == DeferredError(old(deferredSql))
      ensures connection.working == DeferredEffect(old(deferredSql), old(connection.working))
    {
      var statements := deferredSql;
      deferredSql := [];
      for i := 0 to |statements|
        invariant deferredSql == []
        invariant DeferredError(statements) == DeferredError(statements[i..])
        invariant DeferredEffect(statements, old(connection.working)) ==
            DeferredEffect(statements[i..], connection.working)
      {
        assert statements[i..][1..] == statements[i + 1..];
        match statements[i] {
          case StatementRaises(e) => return Some(e);
          case Runs(effect) => connection.working := effect(connection.working);
        }
      }
      error := None;
    }

    /** `check_constraints` on the schema as it is now. */
    method CheckSchema(p: Plan) returns (error: Option<Exn>)
      ensures error.None? ==> AllHold(connection.working, eq, tableNames(connection.working))
      ensures error ==
        First(p.check, Unless(!AllHold(connection.working, eq, tableNames(connection.working)), p.violation))
    {
      if p.check.Some? {
        return p.check;
      }
      var verdict := CheckConstraints(connection.working, eq, tableNames(connection.working));
      error := Unless(!verdict.Accepted?, p.violation);
    }

    ghost predicate ConstraintsHold(db: Database) {
      AllHold(db, eq, tableNames(db))
    }

    /** `_exit_schema`, with the errors that its steps found. */
    method ExitSchema(bodyError: Option<Exn>, p: Plan)
      returns (leaving: Option<Exn>, schemaError: Option<Exn>, exitError: Option<Exn>, restoration: Option<Exn>)
      modifies this`originalForeignKeys, this`deferredSql
      modifies connection`foreignKeys, connection`disposed, connection`working, connection`committed
      // the steps
      ensures schemaError ==
        if bodyError.Some? then None
        else SchemaErrorOf(
          p, old(deferredSql), ConstraintsHold(DeferredEffect(old(deferredSql), old(connection.working))))
      ensures exitError == EndingOf(p, First(bodyError, schemaError).Some?).error
      ensures restoration ==
        if old(originalForeignKeys).None? then None
        else SettingError(
          p.exitRestore,
          BeforeRestoration(p, First(bodyError, schemaError).Some?, old(connection.foreignKeys))
            == old(originalForeignKeys.value))
      ensures leaving == First(exitError, First(schemaError, First(bodyError, restoration)))
      // enforcement
      ensures originalForeignKeys == None
      ensures old(originalForeignKeys).Some? ==>
        connection.foreignKeys == old(originalForeignKeys.value) || connection.disposed
      ensures old(originalForeignKeys).Some? && restoration.None? ==>
        connection.foreignKeys == old(originalForeignKeys.value)
      ensures connection.disposed ==
        (old(connection.disposed) || restoration.Some?
         || EndingOf(p, First(bodyError, schemaError).Some?).reopened.Some?)
      // data
      ensures First(bodyError, First(schemaError, exitError)).None? ==>
        && connection.committed == old(DeferredEffect(deferredSql, connection.working))
        && ConstraintsHold(connection.committed)
      ensures atomic && First(bodyError, First(schemaError, exitError)).Some? ==>
        connection.committed == old(connection.committed)
    {
      schemaError := None;
      if bodyError.None? {
        schemaError := RunDeferred();
        if schemaError.None? {
          schemaError := CheckSchema(p);
        }
      }
      exitError := BaseExit(First(bodyError, schemaError), p);
      restoration := RestoreForeignKeyState(p.exitRestore);
      if restoration.Some? {
        var primary := First(exitError, First(schemaError, bodyError));
        return First(primary, restoration), schemaError, exitError, restoration;
      }
      if exitError.Some? {
        leaving := exitError;
      } else if schemaError.Some? {
        leaving := schemaError;
      } else {
        leaving := bodyError;
      }
    }

    /** The errors of the whole protocol from here on. */
    ghost function Expected(p: Plan): Errors
      reads this, connection
    {
      ErrorsOf(
        p, EntryError(p, connection.foreignKeys, connection.mode, connection.autocommit, connection.inAtomicBlock),
        connection.foreignKeys, ConstraintsHold(DeferredEffect(p.body.deferred, p.body.effect(connection.working))))
    }

    /** The whole `with` statement. Whatever combination of steps fails, at the end the transaction mode
        is the original one, and enforcement is the original one or the connection was disposed; the
        error that leaves is the first of those that occurred; and an atomic editor changes the committed
        database only to one whose constraints all hold. */
    method With(p: Plan) returns (leaving: Option<Exn>, errors: Errors)
      requires originalForeignKeys == None && originalMode == None
      modifies this
      modifies connection`foreignKeys, connection`disposed, connection`mode, connection`working, connection`committed
      ensures errors == old(Expected(p)) && leaving == errors.Leaving()
      ensures originalForeignKeys == None && originalMode == None
      ensures connection.mode == old(connection.mode)
      ensures connection.foreignKeys == old(connection.foreignKeys) || connection.disposed
      ensures errors.entry.None? ==>
        && (errors.restoration.None? ==> connection.foreignKeys == old(connection.foreignKeys))
        && (connection.disposed <==>
            || old(connection.disposed) || errors.restoration.Some?
            || EndingOf(p, First(errors.body, errors.schema).Some?).reopened.Some?)
      ensures errors.entry.Some? ==> connection.committed == old(connection.committed)
      ensures atomic && errors.Before().Some? ==> connection.committed == old(connection.committed)
      ensures errors.Before().None? ==>
        && ConstraintsHold(connection.committed)
        && connection.committed == DeferredEffect(p.body.deferred, p.body.effect(old(connection.working)))
    {
      hide ConstraintsHold, DeferredEffect, DeferredError;
      var entry := Enter(p);
      if entry.Some? {
        return entry, Errors(entry, None, None, None, None);
      }
      var bodyError := RunBody(p.body);
      var schemaError, exitError, restoration;
      leaving, schemaError, exitError, restoration := ExitSchema(bodyError, p);
      RestoreTransactionMode();
      errors := Errors(None, bodyError, schemaError, exitError, restoration);
    }
  }

  /** What every part of the protocol raised. */
  datatype Errors = Errors(
    entry: Option<Exn>, body: Option<Exn>, schema: Option<Exn>, exit: Option<Exn>, restoration: Option<Exn>)
  {
    /** Entry errors leave at once; otherwise exit, schema, body and restoration errors, in this order. */
    function Leaving(): Option<Exn> {
      First(entry, First(exit, First(schema, First(body, restoration))))
    }

    /** Anything that went wrong before restoration. */
    function Before(): Option<Exn> {
      First(entry, First(exit, First(schema, body)))
    }
  }

  /** The exception of the first deferred statement that raises. */
  function DeferredError(statements: seq<Statement>): Option<Exn> {
    if statements == [] then None
    else if statements[0].StatementRaises? then Some(statements[0].e)
    else DeferredError(statements[1..])
  }

  /** The database after the deferred statements, up to the first one that raises. */
  function DeferredEffect(statements: seq<Statement>, db: Database): Database
    decreases |statements|
  {
    if statements == [] || statements[0].StatementRaises? then db
    else DeferredEffect(statements[1..], statements[0].effect(db))
  }

  // ----- Laws -----

  /** The statement works and is read back as requested. */
  predicate Succeeds(s: Setting, already: bool) {
    (s.pragma == Works || (s.pragma == IsIgnored && already)) && s.readback == Reads
  }

  /** Entry succeeds exactly when a connection can be made, concurrent editing starts outside any transaction, the
      enforcement can be read, it is off already or can be switched off outside blocks, and the base editor
      can be entered. */
  lemma EntrySucceeds(p: Plan, foreignKeys: bool, mode: Mode, autocommit: bool, inAtomicBlock: bool)
    ensures EntryError(p, foreignKeys, mode, autocommit, inAtomicBlock).None? <==>
      && p.connect.None?
      && (mode == Concurrent ==> autocommit && !inAtomicBlock)
      && p.firstRead == Reads
      && (foreignKeys ==> !inAtomicBlock && Succeeds(p.disable, false))
      && p.baseEnter.None?
  {
  }

  /** Nothing is read or set when concurrent editing is refused, and nothing is set inside a block. */
  lemma RefusalsComeFirst(p: Plan, foreignKeys: bool, mode: Mode, autocommit: bool, inAtomicBlock: bool)
    requires p.connect.None?
    ensures mode == Concurrent && (!autocommit || inAtomicBlock) ==>
        EntryError(p, foreignKeys, mode, autocommit, inAtomicBlock) == Some(p.refuse)
    ensures foreignKeys && inAtomicBlock && p.firstRead == Reads ==>
        EntryError(p, foreignKeys, mode, autocommit, inAtomicBlock) == Some(p.refuse)
  {
  }

  /** An attempt to set the enforcement raises exactly when it does not succeed. */
  lemma SettingSucceeds(s: Setting, already: bool)
    ensures SettingError(s, already).None? <==> Succeeds(s, already)
    ensures s.pragma == IsIgnored && !already && s.readback == Reads ==> SettingError(s, already) == Some(s.mismatch)
  {
  }

  /** Deferred statements run in turn, each on what the others left, and the first that raises ends it. */
  lemma {:induction false} DeferredInTurn(a: seq<Statement>, b: seq<Statement>, db: Database)
    requires forall k :: 0 <= k < |a| ==> a[k].Runs?
    ensures DeferredError(a) == None
    ensures DeferredError(a + b) == DeferredError(b)
    ensures DeferredEffect(a + b, db) == DeferredEffect(b, DeferredEffect(a, db))
    ensures |a| == 1 ==> DeferredEffect(a, db) == a[0].effect(db)
    ensures b != [] && b[0].StatementRaises? ==>
        DeferredError(a + b) == Some(b[0].e) && DeferredEffect(a + b, db) == DeferredEffect(a, db)
    decreases |a|
  {
    if a == [] {
      assert a + b == b;
    } else {
      assert (a + b)[1..] == a[1..] + b;
      DeferredInTurn(a[1..], b, a[0].effect(db));
    }
  }

  /** A schema without errors: every deferred statement ran, the check could be made, and the constraints hold. */
  lemma SchemaIsSound(p: Plan, statements: seq<Statement>, holds: bool)
    ensures SchemaErrorOf(p, statements, holds).None? <==>
        (forall k :: 0 <= k < |statements| ==> statements[k].Runs?) && p.check.None? && holds
  {
    AllRun(statements);
  }

  lemma {:induction false} AllRun(statements: seq<Statement>)
    ensures DeferredError(statements).None? <==> forall k :: 0 <= k < |statements| ==> statements[k].Runs?
  {
    if statements != [] {
      AllRun(statements[1..]);
      assert forall k :: 0 <= k < |statements[1..]| ==> statements[1..][k] == statements[k + 1];
      assert forall k :: 0 < k < |statements| ==> statements[k] == statements[1..][k - 1];
    }
  }

  /** The base exit commits after a sound body and schema and rolls back otherwise. */
  lemma WhichExit(p: Plan, original: bool, holds: bool)
    ensures var e := ErrorsOf(p, None, original, holds);
      && (e.body.None? && e.schema.None? ==> e.exit == p.commit.error)
      && (e.body.Some? || e.schema.Some? ==> e.exit == p.rollback.error)
      && e.body == p.body.error
      && (e.body.Some? ==> e.schema.None?)
  {
  }

  /** Restoration raises exactly when the attempt does not succeed; the enforcement counts as restored already
      when the body, or the connection opened in place of a closed one, has set it. */
  lemma RestorationSucceeds(p: Plan, original: bool, holds: bool)
    ensures var e := ErrorsOf(p, None, original, holds);
      var ending := if e.body.Some? || e.schema.Some? then p.rollback else p.commit;
      var current :=
        if ending.reopened.Some? then ending.reopened.value
        else if p.body.foreignKeys.Some? then p.body.foreignKeys.value else false;
      e.restoration.None? <==> Succeeds(p.exitRestore, current == original)
  {
  }

  /** Every combination of errors occurs, a failing base exit after a failing body or schema included, so
      that the order in which they leave matters. */
  lemma EveryCombinationOccurs(
      body: Option<Exn>, schema: Option<Exn>, exit: Option<Exn>, restoration: Option<Exn>, original: bool)
      returns (p: Plan)
    requires body.None? || schema.None?
    ensures ErrorsOf(p, None, original, true) == Errors(None, body, schema, exit, restoration)
  {
    var works := Setting(Works, Reads, 0);
    var last := if restoration.Some? then Setting(RaisesBefore(restoration.value), Reads, 0) else works;
    p := Plan(None, 0, Reads, works, None, works, Body((db: Database) => db, None, [], body), schema, 0,
              Ending(exit, None), Ending(exit, None), last);
  }

  /** The first error in this order leaves, and nothing leaves only if nothing went wrong. */
  lemma LeavingOrder(p: Plan, entry: Option<Exn>, original: bool, holds: bool)
    ensures var e := ErrorsOf(p, entry, original, holds);
      && (entry.Some? ==> e.Leaving() == entry)
      && (e.exit.Some? ==> e.Leaving() == e.exit)
      && (entry.None? && e.exit.None? && e.schema.Some? ==> e.Leaving() == e.schema)
      && (entry.None? && e.exit.None? && e.body.Some? ==> e.Leaving() == e.body)
      && (e.Leaving().None? <==> e == Errors(None, None, None, None, None))
  {
  }

  /** When the catalogue lists every table, the editor leaves no foreign key of the committed database
      broken. */
  lemma NothingIsLeftBroken(editor: Editor, db: Database)
    requires editor.ConstraintsHold(db) && ListsTables(db, editor.tableNames(db))
    ensures EveryKeyHolds(db, editor.eq)
  {
    ListedConstraintsHold(db, editor.eq, editor.tableNames(db));
  }
}

/** The rows that a completed write leaves on its cursor: every fetch hands out the next of them, and none
    is lost or handed out twice. */
module StoredRows {
  import opened Outcomes
  import opened Engine
  import opened Transactions
  import opened Sessions
  import opened Refinement

  /** The rows that the fetches from one cursor have delivered. */
  function Delivered(id: nat, ops: seq<Op>, responses: seq<Response>): seq<Engine.Row>
    requires |ops| == |responses|
  {
    if ops == [] then []
    else
      (if ops[0].DoFetch? && ops[0].cursor == id then RowsIn(responses[0]) else [])
      + Delivered(id, ops[1..], responses[1..])
  }

  /** The call gives the cursor no new statement and does not close it. */
  predicate LeavesCursor(id: nat, op: Op) {
    !((op.DoExecute? || op.DoExecuteMany? || op.DoCloseCursor?) && op.cursor == id)
  }

  predicate Stores(s: Session, id: nat) {
    id in s.cursors && s.cursors[id].returning.Some?
  }

  function Stored(s: Session, id: nat): seq<Engine.Row>
    requires Stores(s, id)
  {
    s.cursors[id].returning.value
  }

  // ----- One fetch -----

  /** How many of `n` stored rows a fetch takes. */
  function Wanted(how: Fetch, n: nat): nat {
    match how
    case One => if n == 0 then 0 else 1
    case Many(size) => if size < 0 then 0 else if size < n then size else n
    case All => n
  }

  /** A fetch takes its rows from the front and leaves the others, unless it raises: then the rows stay. A
      negative size raises. `fetchone` answers with no row exactly when none is left. */
  lemma FetchTakesFromTheFront(w: Wrapper, c: CursorState, how: Fetch, f: Faults)
    requires c.returning.Some?
    ensures var o, rows := FetchRows(w, c, how, f), c.returning.value;
      && o.cursor.returning.Some?
      && RowsIn(o.response) + o.cursor.returning.value == rows
      && (!o.response.Raised? ==> |RowsIn(o.response)| == Wanted(how, |rows|))
      && (how.Many? && how.size < 0 ==> o.response.Raised?)
      && (o.response == Row(None) ==> rows == [])
  {
    hide Guard;
  }

  lemma StepDelivers(s: Session, op: Op, id: nat)
    requires Stores(s, id) && LeavesCursor(id, op)
    ensures var step := Next(s, op);
      && Stores(step.s, id)
      && (if op.DoFetch? && op.cursor == id then RowsIn(step.response) else []) + Stored(step.s, id) == Stored(s, id)
  {
    hide Execute, ExecuteMany, WrapperStep, Guard;
    if op.DoFetch? && op.cursor == id {
      FetchTakesFromTheFront(s.w, s.cursors[id], op.how, op.faults);
      hide FetchRows;
    } else {
      hide FetchRows;
    }
  }

  /** Over any run that leaves the cursor its statement, with other cursors and transaction control in between
      and any faults, the rows that its fetches deliver and then the rows still stored are the rows that were
      stored. */
  lemma {:induction false} NoRowIsLostOrRepeated(s: Session, id: nat, ops: seq<Op>)
    requires Stores(s, id) && forall k :: 0 <= k < |ops| ==> LeavesCursor(id, ops[k])
    ensures var t := Run(s, ops);
      && |t.responses| == |ops| && Stores(t.s, id)
      && Delivered(id, ops, t.responses) + Stored(t.s, id) == Stored(s, id)
    decreases |ops|
  {
    hide Next, Run, Delivered, Stored, Stores, LeavesCursor;
    if ops == [] {
      NothingDelivered(s, id);
    } else {
      var step := Next(s, ops[0]);
      StepDelivers(s, ops[0], id);
      NoRowIsLostOrRepeated(step.s, id, ops[1..]);
      var first := if ops[0].DoFetch? && ops[0].cursor == id then RowsIn(step.response) else [];
      RunDelivers(s, id, ops, first);
      var later := Run(step.s, ops[1..]);
      var more, rest := Delivered(id, ops[1..], later.responses), Stored(later.s, id);
      assert first + (more + rest) == (first + more) + rest;
    }
  }

  lemma NothingDelivered(s: Session, id: nat)
    requires Stores(s, id)
    ensures var t := Run(s, []);
      t.responses == [] && Stores(t.s, id) && Delivered(id, [], []) + Stored(t.s, id) == Stored(s, id)
  {
  }

  /** One call more in front of a run. */
  lemma RunDelivers(s: Session, id: nat, ops: seq<Op>, first: seq<Engine.Row>)
    requires ops != []
    requires first == if ops[0].DoFetch? && ops[0].cursor == id then RowsIn(Next(s, ops[0]).response) else []
    requires |Run(Next(s, ops[0]).s, ops[1..]).responses| == |ops| - 1
    ensures var t, later := Run(s, ops), Run(Next(s, ops[0]).s, ops[1..]);
      && |t.responses| == |ops| && t.s == later.s
      && Delivered(id, ops, t.responses) == first + Delivered(id, ops[1..], later.responses)
  {
    hide Next;
    var step := Next(s, ops[0]);
    var later := Run(step.s, ops[1..]);
    assert ([step.response] + later.responses)[1..] == later.responses;
  }

  // ----- The same as a reading statement -----

  /** The rows that a reading statement has not delivered yet. */
  function Unread(c: Engine.Cursor): seq<Engine.Row> {
    if c.Active? then RowsOf(c.rest) else []
  }

  lemma {:induction false} ReadManyFromFront(e: Engine.State, stmt: Stmt, rest: seq<Change>, size: nat)
    requires !stmt.ChangesRows()
    ensures var m := FetchMany(e, Active(stmt, rest), size);
      var n := Min(size, |rest|);
      && |RowsOf(rest)| == |rest| && m.engine == e
      && m.rows == RowsOf(rest)[..n] && Unread(m.cursor) == RowsOf(rest)[n..]
    decreases size
  {
    RowsOfLength(rest);
    if size > 0 && rest != [] {
      ReadManyFromFront(e, stmt, rest[1..], size - 1);
    }
  }

  lemma {:induction false} RowsOfLength(rest: seq<Change>)
    ensures |RowsOf(rest)| == |rest|
  {
    if rest != [] {
      RowsOfLength(rest[1..]);
    }
  }

  lemma {:induction false} ReadAllOfThem(e: Engine.State, stmt: Stmt, rest: seq<Change>)
    requires !stmt.ChangesRows()
    ensures FetchAll(e, Active(stmt, rest)) == Fetched(e, Idle, RowsOf(rest))
    decreases |rest|
  {
    if rest != [] {
      ReadAllOfThem(e, stmt, rest[1..]);
    }
  }

  /** Fetching from stored rows answers as the driver does for a reading statement with the same rows, and
      leaves the same rows to be read. */
  lemma StoredRowsReadLikeAQuery(e: Engine.State, stmt: Stmt, rest: seq<Change>, how: Fetch)
    requires !stmt.ChangesRows() && !(how.Many? && how.size < 0)
    ensures var (response, left) := FetchStored(RowsOf(rest), how);
      var (answer, fetched) := FetchDriver(e, Active(stmt, rest), how);
      response == answer && left == Unread(fetched.cursor) && fetched.engine == e
  {
    RowsOfLength(rest);
    match how {
      case One =>
      case Many(size) => ReadManyFromFront(e, stmt, rest, size);
      case All => ReadAllOfThem(e, stmt, rest);
    }
  }

  // ----- From the statement to its last row -----

  /** What a write with result columns leaves on its cursor when it finishes: all its rows. */
  lemma WriteStoresItsRows(w: Wrapper, c: CursorState, stmt: Stmt, f: ExecuteFaults)
    requires stmt.Good() && stmt.returnsRows && stmt.ChangesRows() && Settled(c)
    requires Execute(w, c, stmt, f).response == Finished
    ensures Execute(w, c, stmt, f).cursor.returning == Some(RowsOf(stmt.plan(Current(w.engine))))
  {
    ExecuteSimulates(w, c, stmt, f);
    hide Execute, StatementFailed, Stmt.ChangesRows, Executed, RowsOf;
  }

  /** A finished write with result columns, and then any run that leaves its cursor alone: its fetches deliver
      the rows of the statement from the first one on, each once. */
  lemma ReturningRowsAreDelivered(s: Session, id: nat, stmt: Stmt, f: ExecuteFaults, ops: seq<Op>)
    requires AllSettled(s) && stmt.Good() && stmt.returnsRows && stmt.ChangesRows()
    requires Next(s, DoExecute(id, stmt, f)).response == Finished
    requires forall k :: 0 <= k < |ops| ==> LeavesCursor(id, ops[k])
    ensures var t := Run(Next(s, DoExecute(id, stmt, f)).s, ops);
      && |t.responses| == |ops| && Stores(t.s, id)
      && Delivered(id, ops, t.responses) + Stored(t.s, id) == RowsOf(stmt.plan(Current(s.w.engine)))
  {
    WriteStoresItsRows(s.w, CursorOf(s.cursors, id), stmt, f);
    hide Execute, RowsOf, Run, Delivered, Stmt.Good, Stmt.ChangesRows;
    NoRowIsLostOrRepeated(Next(s, DoExecute(id, stmt, f)).s, id, ops);
  }
}

/** A client that drives the wrapper and any number of cursors as objects. Its runs are the runs of the
    session model, and so of the reference. */
module Clients {
  import opened Outcomes
  import opened Engine
  import opened Transactions
  import opened Sessions
  import opened Backend
  import Refinement

  ghost function Stored(s: Session, id: nat, c: CursorState): Session {
    s.(cursors := s.cursors[id := c])
  }

  class Client {
    const wrapper: DatabaseWrapper
    var cursors: map<nat, TursoCursor>

    constructor (wrapper: DatabaseWrapper)
      ensures this.wrapper == wrapper && Valid() && View() == Session(wrapper.View(), map[])
      ensures cursors == map[]
    {
      this.wrapper := wrapper;
      cursors := map[];
    }

    /** Every cursor belongs to the wrapper, and no two names share one. */
    ghost predicate Valid()
      reads this, cursors.Values
    {
      && (forall id <- cursors :: cursors[id].wrapper == wrapper)
      && (forall a <- cursors, b <- cursors :: a != b ==> cursors[a] != cursors[b])
    }

    ghost function View(): Session
      reads this, wrapper, wrapper.connection, cursors.Values
    {
      Session(wrapper.View(), map id | id in cursors :: cursors[id].View())
    }

    /** The cursor of a name, made when it is first asked for. */
    method Cursor(id: nat) returns (cursor: TursoCursor)
      requires Valid()
      modifies this
      ensures Valid() && id in cursors && cursors[id] == cursor
      ensures cursors == old(cursors)[id := cursor]
      ensures fresh(cursors.Values - old(cursors.Values))
      ensures View() == Stored(old(View()), id, CursorOf(old(View()).cursors, id))
    {
      if id !in cursors {
        cursor := new TursoCursor(wrapper);
        cursors := cursors[id := cursor];
      } else {
        cursor := cursors[id];
      }
    }

    /** A call on one cursor leaves the others as they are. */
    twostate lemma OthersStay(id: nat)
      requires old(Valid()) && old(cursors) == cursors && id in cursors
      requires forall k <- cursors | k != id :: unchanged(cursors[k])
      ensures Valid()
      ensures View().cursors == old(View()).cursors[id := cursors[id].View()]
    {
    }

    method Execute(id: nat, stmt: Stmt, f: ExecuteFaults) returns (response: Response)
      requires Valid()
      modifies this, wrapper, wrapper.connection, cursors.Values
      ensures Valid() && fresh(cursors.Values - old(cursors.Values))
      ensures var s := old(View());
        Step(View(), response) == Store(s, id, Sessions.Execute(s.w, CursorOf(s.cursors, id), stmt, f))
    {
      hide Sessions.Execute;
      var cursor := Cursor(id);
      assert cursor.View() == View().cursors[id];
      label ready:
      response := cursor.Run(stmt, f);
      OthersStay@ready(id);
    }

    method ExecuteMany(id: nat, stmts: seq<Stmt>, f: BatchFaults) returns (response: Response)
      requires Valid()
      modifies this, wrapper, wrapper.connection, cursors.Values
      ensures Valid() && fresh(cursors.Values - old(cursors.Values))
      ensures var s := old(View());
        Step(View(), response) == Store(s, id, Sessions.ExecuteMany(s.w, CursorOf(s.cursors, id), stmts, f))
    {
      hide Sessions.ExecuteMany;
      var cursor := Cursor(id);
      assert cursor.View() == View().cursors[id];
      label ready:
      response := cursor.RunMany(stmts, f);
      OthersStay@ready(id);
    }

    method Fetch(id: nat, how: Sessions.Fetch, f: Faults) returns (response: Response)
      requires Valid()
      modifies this, wrapper, wrapper.connection, cursors.Values
      ensures Valid() && fresh(cursors.Values - old(cursors.Values))
      ensures var s := old(View());
        Step(View(), response) == Store(s, id, FetchRows(s.w, CursorOf(s.cursors, id), how, f))
    {
      hide FetchRows;
      var cursor := Cursor(id);
      assert cursor.View() == View().cursors[id];
      label ready:
      response := cursor.Fetch(how, f);
      OthersStay@ready(id);
    }

    method CloseCursor(id: nat)
      requires Valid()
      modifies this, cursors.Values
      ensures Valid() && fresh(cursors.Values - old(cursors.Values))
      ensures View() == Stored(old(View()), id, CursorState(Closed, None))
    {
      var cursor := Cursor(id);
      assert cursor.View() == View().cursors[id];
      label ready:
      cursor.Close();
      OthersStay@ready(id);
    }

    method Control(op: Op) returns (response: Response)
      requires Valid() && OnWrapper(op)
      modifies wrapper, wrapper.connection
      ensures Valid()
      ensures var r := WrapperStep(old(View()).w, op);
        Step(View(), response) == Step(old(View()).(w := r.w), Respond(r))
    {
      hide WrapperStep;
      response := wrapper.Control(op);
    }

    method Perform(op: Op) returns (response: Response)
      requires Valid()
      modifies this, wrapper, wrapper.connection, cursors.Values
      ensures Valid() && fresh(cursors.Values - old(cursors.Values))
      ensures Step(View(), response) == Next(old(View()), op)
    {
      hide Sessions.Execute, Sessions.ExecuteMany, FetchRows, WrapperStep;
      if !wrapper.isOpen {
        return Raised(ConnectionClosed);
      }
      match op {
        case DoExecute(id, stmt, f) => response := Execute(id, stmt, f);
        case DoExecuteMany(id, stmts, f) => response := ExecuteMany(id, stmts, f);
        case DoFetch(id, how, f) => response := Fetch(id, how, f);
        case DoCloseCursor(id) =>
          CloseCursor(id);
          response := Finished;
        case _ => response := Control(op);
      }
    }

    method PerformAll(ops: seq<Op>) returns (responses: seq<Response>)
      requires Valid()
      modifies this, wrapper, wrapper.connection, cursors.Values
      ensures Valid() && fresh(cursors.Values - old(cursors.Values))
      ensures Trace(View(), responses) == Run(old(View()), ops)
    {
      hide Next, Run;
      responses := [];
      RunNothing(View(), ops);
      var i := 0;
      while i < |ops|
        invariant 0 <= i <= |ops| && Valid() && fresh(cursors.Values - old(cursors.Values))
        invariant var rest := Run(View(), ops[i..]);
          Run(old(View()), ops) == Trace(rest.s, responses + rest.responses)
      {
        RunNext(View(), ops, i);
        var response := Perform(ops[i]);
        responses := responses + [response];
        i := i + 1;
      }
      RunNothing(View(), ops[i..]);
    }
  }

  lemma RunNext(s: Session, ops: seq<Op>, i: nat)
    requires i < |ops|
    ensures var step := Next(s, ops[i]);
      var later := Run(step.s, ops[i + 1..]);
      Run(s, ops[i..]) == Trace(later.s, [step.response] + later.responses)
  {
    assert ops[i..][0] == ops[i] && ops[i..][1..] == ops[i + 1..];
  }

  lemma RunNothing(s: Session, ops: seq<Op>)
    ensures ops[0..] == ops && Run(s, []) == Trace(s, [])
  {
  }

  /** A whole session on objects: the database it commits and the answers it gives are those of the
      reference, in which a write takes effect when it is executed. */
  method Serve(db: Db, autocommit: bool, ops: seq<Op>) returns (committed: Db, responses: seq<Response>)
    requires GoodOps(ops)
    ensures var ref := Refinement.RefRun(Refinement.AbsSession(Start(db, autocommit)), ops);
      committed == ref.s.w.engine.committed && responses == ref.responses
  {
    var connection := new Connection(db);
    var wrapper := new DatabaseWrapper(connection, autocommit);
    var client := new Client(wrapper);
    responses := client.PerformAll(ops);
    committed := connection.state.committed;
    Refinement.SameCommittedDatabase(db, autocommit, ops);
  }
}

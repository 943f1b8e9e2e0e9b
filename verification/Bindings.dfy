/** The binding check on parameters and the row feed of `executemany`. */
module Bindings {
  import opened Outcomes
  import opened Placeholders
  import opened PlaceholderLaws
  import SqlText

  /** Parameters as a sequence or as a mapping. `V` is a driver value. */
  datatype Parameters<V> = Positions(items: seq<V>) | Mapping(entries: map<string, V>)

  datatype BindingError = ProgrammingError | KeyError

  /** `_QueryBindings.prepare_params`: the parameters to pass on, or the exception. */
  function PrepareParams<V>(b: QueryBindings, params: Parameters<V>): Result<Parameters<V>, BindingError> {
    if b.requiredNames != {} then
      if params.Positions? then Err(ProgrammingError)
      else if b.requiredNames <= params.entries.Keys then Ok(params)
      else Err(KeyError)
    else if b.positionalCount != 0 && params.Mapping? then Err(ProgrammingError)
    else if params.Positions?
        && (|params.items| < b.positionalCount
            || (!b.nativeBindings && |params.items| != b.positionalCount)) then Err(ProgrammingError)
    else Ok(params)
  }

  predicate Accepts<V>(b: QueryBindings, params: Parameters<V>) {
    PrepareParams(b, params).Ok?
  }

  /** The keys that select the translation mode. */
  function NamesOf<V>(params: Parameters<V>): ParamNames {
    match params
    case Positions(_) => None
    case Mapping(entries) => Some(entries.Keys)
  }

  /** How the batch ended. */
  datatype BatchEnd = Completed | BindingFailed(error: BindingError) | DriverFailed | TranslationFailed(name: string)

  /** The rows that the driver has taken, one at a time and in order. `failsAt` is the row, if any,
      at which the driver itself raises. */
  class Driver<V> {
    var taken: seq<Parameters<V>>
    const failsAt: Option<nat>

    constructor (failsAt: Option<nat>)
      ensures taken == [] && this.failsAt == failsAt
    {
      this.failsAt := failsAt;
      taken := [];
    }

    method Take(row: Parameters<V>) returns (ok: bool)
      modifies this
      ensures taken == old(taken) + [row]
      ensures ok <==> failsAt != Some(|old(taken)|)
    {
      ok := failsAt != Some(|taken|);
      taken := taken + [row];
    }
  }

  /** The driver took exactly the longest prefix of rows that pass the check, cut after the row at which it
      fails, and the batch ended for that reason. */
  predicate Fed<V(==)>(
    taken: seq<Parameters<V>>, failsAt: Option<nat>, b: QueryBindings, rows: seq<Parameters<V>>, end: BatchEnd)
  {
    && taken <= rows
    && (forall k :: 0 <= k < |taken| ==> Accepts(b, rows[k]))
    && (forall k :: 0 <= k < |taken| - 1 ==> failsAt != Some(k))
    && (end == Completed <==> |taken| == |rows| && failsAt != Some(|rows| - 1))
    && (end == DriverFailed <==> taken != [] && failsAt == Some(|taken| - 1))
    && (end.BindingFailed? <==>
        && |taken| < |rows| && !Accepts(b, rows[|taken|])
        && (taken != [] ==> failsAt != Some(|taken| - 1)))
    && (end.BindingFailed? ==> PrepareParams(b, rows[|taken|]) == Err(end.error))
    && !end.TranslationFailed?
  }

  /** The feed of validated rows. */
  method FeedRows<V(==)>(driver: Driver<V>, b: QueryBindings, rows: seq<Parameters<V>>) returns (end: BatchEnd)
    requires driver.taken == []
    modifies driver
    ensures Fed(driver.taken, driver.failsAt, b, rows, end)
  {
    var i := 0;
    while i < |rows|
      invariant 0 <= i <= |rows|
      invariant driver.taken == rows[..i]
      invariant forall k :: 0 <= k < i ==> Accepts(b, rows[k]) && driver.failsAt != Some(k)
    {
      var prepared := PrepareParams(b, rows[i]);
      if prepared.Err? {
        return BindingFailed(prepared.error);
      }
      var ok := driver.Take(rows[i]);
      assert driver.taken == rows[..i + 1];
      if !ok {
        return DriverFailed;
      }
      i := i + 1;
    }
    end := Completed;
  }

  /** The row has exactly as many values as the query has positional placeholders, or all its names. */
  predicate Supplies<V>(b: QueryBindings, row: Parameters<V>) {
    match row
    case Positions(items) => b.requiredNames == {} && |items| == b.positionalCount
    case Mapping(entries) => b.positionalCount == 0 && b.requiredNames <= entries.Keys
  }

  /** `executemany`: the first row selects the mode and fixes the translation for the whole batch; an
      empty batch is a no-op. Without native placeholders every row handed over supplies exactly what the
      translated query needs. */
  method ExecuteMany<V(==)>(driver: Driver<V>, query: string, rows: seq<Parameters<V>>) returns (end: BatchEnd)
    requires driver.taken == []
    modifies driver
    ensures rows == [] ==> end == Completed && driver.taken == []
    ensures rows != [] ==>
      var t := Translation(query, if rows[0].Mapping? then Some(rows[0].entries.Keys) else None);
      && (t.Err? ==> end == TranslationFailed(t.error) && driver.taken == [])
      && (t.Ok? ==> Fed(driver.taken, driver.failsAt, t.value, rows, end))
      && (t.Ok? && !t.value.nativeBindings ==>
          forall k :: 0 <= k < |driver.taken| ==> Supplies(t.value, rows[k]))
  {
    if rows == [] {
      return Completed;
    }
    var names := NamesOf(rows[0]);
    var t := ConvertPlaceholders(query, names);
    match t {
      case Err(name) => end := TranslationFailed(name);
      case Ok(bindings) =>
        end := FeedRows(driver, bindings, rows);
        forall k | 0 <= k < |driver.taken| && !bindings.nativeBindings
          ensures Supplies(bindings, rows[k])
        {
          AcceptedExactly(query, names, rows[k]);
        }
    }
  }

  // ----- Laws -----

  /** A translation uses one placeholder form only. */
  lemma {:induction false} OneFormOnly(q: string, st: SqlText.State, named: bool)
    ensures named ==> Positionals(Lex(q, st, named)) == 0
    ensures !named ==> Names(Lex(q, st, named)) == {}
    decreases |q|
  {
    if q != "" {
      BindingStep(q, st, named);
      var r := Next(q, st, named);
      OneFormOnly(q[r.width..], r.next, named);
    }
  }

  /** Without native placeholders, the check accepts a row exactly when the row supplies one value
      for each `%s` of the query, or a value for each name in it. */
  lemma AcceptedExactly<V>(query: string, names: ParamNames, row: Parameters<V>)
    requires Translation(query, names).Ok?
    requires !Translation(query, names).value.nativeBindings
    ensures var ls := Lex(query, SqlText.Sql, names.Some?);
      Accepts(Translation(query, names).value, row) <==>
        match row
        case Positions(items) => Names(ls) == {} && |items| == Positionals(ls)
        case Mapping(entries) => Positionals(ls) == 0 && Names(ls) <= entries.Keys
  {
    OneFormOnly(query, SqlText.Sql, names.Some?);
  }

  /** With native placeholders in the query the driver keeps its own rules for them, so a sequence may hold
      more values than there are `%s`, but never fewer. */
  lemma AcceptedWithNative<V>(query: string, names: ParamNames, row: Parameters<V>)
    requires Translation(query, names).Ok?
    requires Translation(query, names).value.nativeBindings
    ensures var ls := Lex(query, SqlText.Sql, names.Some?);
      Accepts(Translation(query, names).value, row) <==>
        match row
        case Positions(items) => Names(ls) == {} && |items| >= Positionals(ls)
        case Mapping(entries) => Positionals(ls) == 0 && Names(ls) <= entries.Keys
  {
    OneFormOnly(query, SqlText.Sql, names.Some?);
  }

  /** Accepted parameters are passed on as they are. A missing key is the error exactly when a mapping lacks a
      required name; every other rejection is a programming error. */
  lemma WhyRejected<V>(b: QueryBindings, row: Parameters<V>)
    ensures var r := PrepareParams(b, row);
      && (r.Ok? ==> r.value == row)
      && (r == Err(KeyError) <==> row.Mapping? && !(b.requiredNames <= row.entries.Keys))
  {
  }

  lemma {:induction false} MarksOfToken(q: string, st: SqlText.State)
    requires q != ""
    ensures var r := Next(q, st, false);
      SqlText.PlainCount(SqlText.Regions(q, st), '?') ==
        (if r.token == Plain('?') then 1 else 0) + SqlText.PlainCount(SqlText.Regions(q[r.width..], r.next), '?')
  {
    hide SqlText.Regions, SqlText.PlainCount;
    var r := Next(q, st, false);
    SqlText.PlainCountStep(q, st, '?');
    if r.token.Percent? || r.token.Positional? {
      SqlText.PlainCountStep(q[1..], st, '?');
      assert q[1..][1..] == q[2..];
    }
  }

  lemma NativeStep(q: string, st: SqlText.State)
    requires q != "" && !HasNative(Lex(q, st, false))
    ensures var r := Next(q, st, false);
      r.token != Plain('?') && !HasNative(Lex(q[r.width..], r.next, false))
  {
    var r := Next(q, st, false);
    var ls, later := Lex(q, st, false), Lex(q[r.width..], r.next, false);
    assert ls == [Lexeme(st, r.token)] + later;
    assert forall k :: 0 <= k < |later| ==> later[k] == ls[k + 1];
    assert ls[0].token == r.token;
  }

  /** A `?` in the plain text of a query always sets the native flag. */
  lemma {:induction false} QuestionMarkIsNative(q: string, st: SqlText.State)
    requires !HasNative(Lex(q, st, false))
    ensures SqlText.PlainCount(SqlText.Regions(q, st), '?') == 0
    decreases |q|
  {
    if q != "" {
      hide *;
      MarksOfToken(q, st);
      NativeStep(q, st);
      QuestionMarkIsNative(q[Next(q, st, false).width..], Next(q, st, false).next);
    }
  }

  /** Each accepted positional row fills exactly the question marks that the driver sees. */
  lemma PositionalRowsFillEveryMark<V>(query: string, row: Parameters<V>)
    requires Translation(query, None).Ok?
    requires row.Positions? && !Translation(query, None).value.nativeBindings
    ensures var t := Translation(query, None).value;
      Accepts(t, row) <==>
        |row.items| == SqlText.PlainCount(SqlText.Regions(t.query, SqlText.Sql), '?')
  {
    AcceptedExactly(query, None, row);
    OneFormOnly(query, SqlText.Sql, false);
    QuestionMarkIsNative(query, SqlText.Sql);
    QuestionMarksAreParameters(query, SqlText.Sql);
  }
}

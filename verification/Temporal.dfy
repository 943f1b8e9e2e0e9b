/** SQL for temporal extraction, truncation and casts. */
module Temporal {
  import opened Outcomes
  import opened SqlText
  import opened PlaceholderLaws
  import opened Templates

  datatype Fragment<P> = Fragment(sql: string, params: seq<P>)

  datatype NotSupported = NotSupported

  // ----- The format strings -----

  function F3(a: Shape, b: Shape, c: Shape): (s: Shape)
    ensures Copies(s) == Copies(a) + Copies(b) + Copies(c)
    ensures Good(a) && Good(b) && Good(c) && EndsNeutral(a) && StartsNeutral(c) ==> Good(s)
    ensures StartsNeutral(s) == StartsNeutral(a) && EndsNeutral(s) == EndsNeutral(c)
  {
    Cat(a, Cat(b, c))
  }

  predicate Piece(s: Shape) {
    Good(s) && StartsNeutral(s) && EndsNeutral(s)
  }

  /** `CAST(strftime(<format>, <input>) AS INTEGER)`. */
  function CastStrftime(format: string): (s: Shape)
    requires '\'' !in format
    ensures Piece(s) && Copies(s) == 1
  {
    F3(T("CAST(strftime("), Q(format), F3(T(", "), Input, T(") AS INTEGER)")))
  }

  /** Arithmetic on one component of the input, which `strftime` prints for a conversion letter. Operands are
      single digits. */
  datatype Term =
    | Part(letter: char)
    | Plus(term: Term, n: nat)
    | Minus(term: Term, n: nat)
    | Over(term: Term, n: nat)
    | Scaled(term: Term, n: nat, more: nat)

  predicate GoodTerm(t: Term) {
    match t
    case Part(letter) => letter != '\''
    case Plus(term, n) => GoodTerm(term) && n < 10
    case Minus(term, n) => GoodTerm(term) && n < 10
    case Over(term, n) => GoodTerm(term) && n < 10
    case Scaled(term, n, more) => GoodTerm(term) && n < 10 && more < 10
  }

  function Digit(n: nat): (c: char)
    requires n < 10
    ensures Neutral(c)
  {
    (n + '0' as int) as char
  }

  /** The SQL of a term. */
  function TermShape(t: Term): (s: Shape)
    requires GoodTerm(t)
    ensures Piece(s) && Copies(s) == 1
  {
    match t
    case Part(letter) => CastStrftime("%%" + [letter])
    case Plus(term, n) => F3(T("("), TermShape(term), T(" + " + [Digit(n)] + ")"))
    case Minus(term, n) => F3(F3(T("("), TermShape(term), T(" ")), O('-'), T(" " + [Digit(n)] + ")"))
    case Over(term, n) => F3(F3(T("("), TermShape(term), T(" ")), O('/'), T(" " + [Digit(n)] + ")"))
    case Scaled(term, n, more) => Cat(TermShape(term), T(" * " + [Digit(n)] + " + " + [Digit(more)]))
  }

  /** The term that extracts a component. */
  function ExtractTerm(lookup: string): (t: Option<Term>)
    ensures t.Some? ==> GoodTerm(t.value)
  {
    if lookup == "year" then Some(Part('Y'))
    else if lookup == "iso_year" then Some(Part('G'))
    else if lookup == "month" then Some(Part('m'))
    else if lookup == "day" then Some(Part('d'))
    else if lookup == "week" then Some(Part('V'))
    else if lookup == "week_day" then Some(Plus(Part('w'), 1))
    else if lookup == "iso_week_day" then Some(Part('u'))
    else if lookup == "hour" then Some(Part('H'))
    else if lookup == "minute" then Some(Part('M'))
    else if lookup == "second" then Some(Part('S'))
    else if lookup == "quarter" then Some(Over(Plus(Part('m'), 2), 3))
    else None
  }

  function ExtractShape(lookup: string): (r: Result<Shape, NotSupported>)
    ensures r.Ok? ==> Piece(r.value) && Copies(r.value) == 1
  {
    var term := ExtractTerm(lookup);
    if term.None? then Err(NotSupported) else Ok(TermShape(term.value))
  }

  /** `date(<input>, '<modifier>')`. */
  function DateModifier(modifier: string): (s: Shape)
    requires '\'' !in modifier
    ensures Piece(s) && Copies(s) == 1
  {
    F3(T("date("), Input, F3(T(", "), Q(modifier), T(")")))
  }

  /** `CASE WHEN <input> IS NULL THEN NULL ELSE <value> END`. */
  function UnlessNull(value: Shape): (s: Shape)
    requires Good(value)
    ensures Piece(s) && Copies(s) == 1 + Copies(value)
  {
    F3(T("CASE WHEN "), Input, F3(T(" IS NULL THEN NULL ELSE "), value, T(" END")))
  }

  /** `((<month> - 1) / 3) * 3 + 1`. */
  const QUARTER_MONTH := Scaled(Over(Minus(Part('m'), 1), 3), 3, 1)

  /** `(<weekday> - 1)`. */
  const DAYS_SINCE_MONDAY := Minus(Part('u'), 1)

  /** `CASE WHEN <input> IS NULL THEN NULL ELSE printf('%%04d-%%02d-01', <year>, <month>) END`. */
  function FirstOfMonth(year: Term, month: Term): (s: Shape)
    requires GoodTerm(year) && GoodTerm(month)
    ensures Piece(s) && Copies(s) == 3
  {
    var years := F3(T(", "), TermShape(year), T(", "));
    UnlessNull(F3(F3(T("printf("), Q("%%04d-%%02d-01"), years), TermShape(month), T(")")))
  }

  /** `date(<input>, '-' || <days> || ' days')`. */
  function DaysBefore(days: Term): (s: Shape)
    requires GoodTerm(days)
    ensures Piece(s) && Copies(s) == 2
  {
    var opening := F3(T("date("), Input, T(", "));
    F3(F3(opening, Q("-"), F3(T(" || "), TermShape(days), T(" || "))), Q(" days"), T(")"))
  }

  /** `date(<input>)`. */
  function DateOf(): (s: Shape)
    ensures Piece(s) && Copies(s) == 1
  {
    F3(T("date("), Input, T(")"))
  }

  /** A date computed from the input: by a modifier, from a year and a month, by going back some days, or the
      date of the input itself. */
  datatype DateTerm = Modified(modifier: string) | FirstDay(year: Term, month: Term) | Earlier(days: Term) | SameDay

  predicate GoodDate(d: DateTerm) {
    match d
    case Modified(modifier) => '\'' !in modifier
    case FirstDay(year, month) => GoodTerm(year) && GoodTerm(month)
    case Earlier(days) => GoodTerm(days)
    case SameDay => true
  }

  function DateShape(d: DateTerm): (s: Shape)
    requires GoodDate(d)
    ensures Piece(s) && Copies(s) == if d.FirstDay? then 3 else if d.Earlier? then 2 else 1
  {
    match d
    case Modified(modifier) => DateModifier(modifier)
    case FirstDay(year, month) => FirstOfMonth(year, month)
    case Earlier(days) => DaysBefore(days)
    case SameDay => DateOf()
  }

  /** The date that truncation yields. */
  function TruncatedDate(lookup: string): (d: Option<DateTerm>)
    ensures d.Some? ==> GoodDate(d.value)
  {
    if lookup == "year" then Some(Modified("start of year"))
    else if lookup == "quarter" then Some(FirstDay(Part('Y'), QUARTER_MONTH))
    else if lookup == "month" then Some(Modified("start of month"))
    else if lookup == "week" then Some(Earlier(DAYS_SINCE_MONDAY))
    else if lookup == "day" then Some(SameDay)
    else None
  }

  function DateTruncShape(lookup: string): (r: Result<Shape, NotSupported>)
    ensures r.Ok? ==> Piece(r.value)
    ensures r.Ok? ==> Copies(r.value) == if lookup == "quarter" then 3 else if lookup == "week" then 2 else 1
  {
    var date := TruncatedDate(lookup);
    if date.None? then Err(NotSupported) else Ok(DateShape(date.value))
  }

  /** `time_parse('1970-01-01T' || <argument> || 'Z')`. */
  function TimeOnlyInput(argument: Shape): (s: Shape)
    requires Good(argument)
    ensures Piece(s) && Copies(s) == Copies(argument)
  {
    F3(F3(T("time_parse("), Q("1970-01-01T"), T(" || ")), argument, F3(T(" || "), Q("Z"), T(")")))
  }

  /** `time_parse(REPLACE(<argument>, ' ', 'T') || 'Z')`. */
  function DatetimeInput(argument: Shape): (s: Shape)
    requires Good(argument)
    ensures Piece(s) && Copies(s) == Copies(argument)
  {
    F3(F3(T("time_parse(REPLACE("), argument, T(", ")), Q(" "),
       F3(T(", "), Q("T"), F3(T(") || "), Q("Z"), T(")"))))
  }

  function FormatTimeExtension(argument: Shape, timeOnly: bool): (s: Shape)
    requires Good(argument)
    ensures Piece(s) && Copies(s) == Copies(argument)
  {
    var formatted :=
      F3(F3(T("RTRIM(REPLACE(time_fmt_iso("), argument, T("), ")), Q("T"),
         F3(T(", "), Q(" "), F3(T("), "), Q("Z"), T(")"))));
    if timeOnly then F3(T("SUBSTR("), formatted, T(", 12, 15)")) else formatted
  }

  /** `time_trunc(<argument>, '<lookup>')`. */
  function TimeTrunc(argument: Shape, lookup: string): (s: Shape)
    requires Good(argument) && '\'' !in lookup
    ensures Piece(s) && Copies(s) == Copies(argument)
  {
    F3(T("time_trunc("), argument, F3(T(", "), Q(lookup), T(")")))
  }

  predicate DatetimeLookup(lookup: string) {
    lookup == "year" || lookup == "quarter" || lookup == "month" || lookup == "day" || TimeLookup(lookup)
  }

  predicate TimeLookup(lookup: string) {
    lookup == "hour" || lookup == "minute" || lookup == "second"
  }

  lemma LookupsHaveNoQuote(lookup: string)
    requires DatetimeLookup(lookup)
    ensures '\'' !in lookup
  {
  }

  function DatetimeTruncShape(lookup: string): (r: Result<Shape, NotSupported>)
    ensures r.Ok? ==> Good(r.value) && Copies(r.value) == 2
  {
    if lookup == "week" then
      Ok(F3(DaysBefore(DAYS_SINCE_MONDAY), T(" || "), Q(" 00:00:00")))
    else if DatetimeLookup(lookup) then
      LookupsHaveNoQuote(lookup);
      Ok(UnlessNull(FormatTimeExtension(TimeTrunc(DatetimeInput(Input), lookup), false)))
    else Err(NotSupported)
  }

  /** The input reduced to its time of day: `time(<input>)`. */
  function TimeOfDay(): (s: Shape)
    ensures Piece(s) && Copies(s) == 1
  {
    F3(T("time("), Input, T(")"))
  }

  function TimeTruncShape(lookup: string): (r: Result<Shape, NotSupported>)
    ensures r.Ok? ==> Piece(r.value) && Copies(r.value) == 2
  {
    if TimeLookup(lookup) then
      LookupsHaveNoQuote(lookup);
      Ok(UnlessNull(FormatTimeExtension(TimeTrunc(TimeOnlyInput(TimeOfDay()), lookup), true)))
    else Err(NotSupported)
  }

  function CastTimeShape(): (s: Shape)
    ensures Piece(s) && Copies(s) == 2
  {
    UnlessNull(FormatTimeExtension(DatetimeInput(Input), true))
  }

  // ----- The builders -----

  /** `_validate_timezone`. */
  predicate ValidTimezone(tzname: Option<string>, connectionZone: string) {
    tzname.None? || (tzname.value == "UTC" && connectionZone == tzname.value)
  }

  function Built<P>(shape: Result<Shape, NotSupported>, sql: string, params: seq<P>, times: nat)
    : Result<Fragment<P>, NotSupported>
  {
    if shape.Err? then Err(NotSupported) else Ok(Fragment(SqlOf(shape.value, sql), Repeat(params, times)))
  }

  /** The extraction, truncation and cast methods. Lookup names arrive in lower case. */
  datatype Builder =
    | DateExtract(lookup: string)
    | TimeExtract(lookup: string)
    | DatetimeExtract(lookup: string, tz: Option<string>)
    | DateTrunc(lookup: string, tz: Option<string>)
    | DatetimeTrunc(lookup: string, tz: Option<string>)
    | TimeTruncate(lookup: string, tz: Option<string>)
    | DatetimeCastDate(tz: Option<string>)
    | DatetimeCastTime(tz: Option<string>)
  {
    function Zone(): Option<string> {
      match this
      case DateExtract(_) => None
      case TimeExtract(_) => None
      case _ => tz
    }

    function Format(): (r: Result<Shape, NotSupported>)
      ensures r.Ok? ==> Good(r.value)
    {
      match this
      case DateExtract(lookup) => ExtractShape(lookup)
      case TimeExtract(lookup) => ExtractShape(lookup)
      case DatetimeExtract(lookup, _) => ExtractShape(lookup)
      case DateTrunc(lookup, _) => DateTruncShape(lookup)
      case DatetimeTrunc(lookup, _) => DatetimeTruncShape(lookup)
      case TimeTruncate(lookup, _) => TimeTruncShape(lookup)
      case DatetimeCastDate(_) => Ok(DateOf())
      case DatetimeCastTime(_) => Ok(CastTimeShape())
    }

    /** How often the method repeats its parameters. */
    function Times(): nat {
      match this
      case DateTrunc(lookup, _) => if lookup == "quarter" then 3 else if lookup == "week" then 2 else 1
      case DatetimeTrunc(_, _) => 2
      case TimeTruncate(_, _) => 2
      case DatetimeCastTime(_) => 2
      case _ => 1
    }

    function Apply<P>(sql: string, params: seq<P>, connectionZone: string): Result<Fragment<P>, NotSupported> {
      if !ValidTimezone(Zone(), connectionZone) then Err(NotSupported)
      else Built(Format(), sql, params, Times())
    }
  }

  /** Temporal expressions nested to any depth over one column or value expression. */
  datatype Expression<P> = Source(sql: string, params: seq<P>) | Node(builder: Builder, argument: Expression<P>)

  function Compile<P>(e: Expression<P>, zone: string): Result<Fragment<P>, NotSupported> {
    match e
    case Source(sql, params) => Ok(Fragment(sql, params))
    case Node(builder, argument) =>
      var inner := Compile(argument, zone);
      if inner.Err? then inner else builder.Apply(inner.value.sql, inner.value.params, zone)
  }

  predicate SourceAligned<P>(e: Expression<P>) {
    match e
    case Source(sql, params) => Aligned(sql, params)
    case Node(_, argument) => SourceAligned(argument)
  }

  /** What the expression means once bound: each format string around the bound argument. */
  function Meaning<P>(e: Expression<P>): seq<Item<P>>
    requires SourceAligned(e)
  {
    match e
    case Source(sql, params) => Bound(sql, params)
    case Node(builder, argument) =>
      var format := builder.Format();
      if format.Err? then [] else BoundOf(format.value, Meaning(argument))
  }

  /** The number of times a method repeats its parameters is the number of times its SQL repeats the
      argument. */
  lemma TimesCountsCopies(builder: Builder)
    requires builder.Format().Ok?
    ensures builder.Times() == Copies(builder.Format().value)
  {
  }

  lemma ApplyIsAligned<P>(builder: Builder, sql: string, params: seq<P>, zone: string)
    requires Aligned(sql, params) && builder.Apply(sql, params, zone).Ok?
    ensures var f := builder.Apply(sql, params, zone).value;
      && Aligned(f.sql, f.params)
      && builder.Format().Ok? && Good(builder.Format().value)
      && Bound(f.sql, f.params) == BoundOf(builder.Format().value, Bound(sql, params))
  {
    TimesCountsCopies(builder);
    BuildThenBind(builder.Format().value, sql, params);
  }

  /** Compiled SQL has one placeholder for each parameter, at every depth of nesting, and each copy of
      a placeholder is bound to the parameter of the placeholder it was copied from. */
  lemma {:induction false} CompiledSqlIsAligned<P>(e: Expression<P>, zone: string)
    requires SourceAligned(e) && Compile(e, zone).Ok?
    ensures var f := Compile(e, zone).value;
      Aligned(f.sql, f.params) && Bound(f.sql, f.params) == Meaning(e)
  {
    if e.Node? {
      var inner := Compile(e.argument, zone).value;
      CompiledSqlIsAligned(e.argument, zone);
      ApplyIsAligned(e.builder, inner.sql, inner.params, zone);
      hide Aligned, Bound, BoundOf, Builder.Apply, Builder.Format;
    }
  }

  /** The driver therefore finds exactly as many question marks as parameters. */
  lemma CompiledSqlFillsEveryMark<P>(e: Expression<P>, zone: string)
    requires SourceAligned(e) && Compile(e, zone).Ok?
    ensures var f := Compile(e, zone).value;
      PlainCount(Regions(Out(f.sql, Sql, false), Sql), '?') ==
        |f.params| + PlainCount(Regions(f.sql, Sql), '?')
  {
    CompiledSqlIsAligned(e, zone);
    QuestionMarksAreParameters(Compile(e, zone).value.sql, Sql);
  }
}

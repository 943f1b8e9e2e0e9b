/** What the temporal SQL computes: the value of each extraction, the dates that truncation arrives at, and the
    SQL text of every builder. */
module TemporalMeaning {
  import opened Outcomes
  import opened Templates
  import opened Temporal

  // ----- Moments, and what `strftime` prints for them -----

  /** A moment in time. `dayNumber` counts days from some Monday. */
  datatype Moment = Moment(
    dayNumber: int, year: int, month: int, day: int, isoYear: int, isoWeek: int,
    hour: int, minute: int, second: int)

  predicate Valid(m: Moment) {
    1 <= m.month <= 12
  }

  /** The conversion letters of `strftime`, as integers. */
  function Strftime(letter: char, m: Moment): int {
    match letter
    case 'Y' => m.year
    case 'G' => m.isoYear
    case 'm' => m.month
    case 'd' => m.day
    case 'V' => m.isoWeek
    case 'w' => (m.dayNumber + 1) % 7      // Sunday is 0
    case 'u' => m.dayNumber % 7 + 1        // Monday is 1
    case 'H' => m.hour
    case 'M' => m.minute
    case 'S' => m.second
    case _ => 0
  }

  /** Division of SQL integers, which rounds towards zero. */
  function Quotient(a: int, b: int): int
    requires b > 0
  {
    if a >= 0 then a / b else -((-a) / b)
  }

  function Evaluate(t: Term, m: Moment): int
    requires GoodTerm(t)
  {
    match t
    case Part(letter) => Strftime(letter, m)
    case Plus(term, n) => Evaluate(term, m) + n
    case Minus(term, n) => Evaluate(term, m) - n
    case Over(term, n) => if n == 0 then 0 else Quotient(Evaluate(term, m), n)
    case Scaled(term, n, more) => Evaluate(term, m) * n + more
  }

  // ----- Extraction -----

  /** Each lookup extracts its own component. Week days count from Sunday, ISO week days from Monday, and the
      quarters are the four groups of three months. */
  lemma ExtractionIsRight(lookup: string, m: Moment)
    requires Valid(m) && ExtractTerm(lookup).Some?
    ensures var value := Evaluate(ExtractTerm(lookup).value, m);
      && (lookup == "year" ==> value == m.year)
      && (lookup == "iso_year" ==> value == m.isoYear)
      && (lookup == "month" ==> value == m.month)
      && (lookup == "day" ==> value == m.day)
      && (lookup == "week" ==> value == m.isoWeek)
      && (lookup == "week_day" ==> 1 <= value <= 7 && (m.dayNumber - (value - 2)) % 7 == 0)
      && (lookup == "iso_week_day" ==> 1 <= value <= 7 && (m.dayNumber - (value - 1)) % 7 == 0)
      && (lookup == "hour" ==> value == m.hour)
      && (lookup == "minute" ==> value == m.minute)
      && (lookup == "second" ==> value == m.second)
      && (lookup == "quarter" ==> 1 <= value <= 4 && 3 * value - 2 <= m.month <= 3 * value)
  {
    assert Evaluate(Plus(Part('m'), 2), m) == m.month + 2;
    assert Evaluate(Over(Plus(Part('m'), 2), 3), m) == (m.month + 2) / 3;
    assert Evaluate(Plus(Part('w'), 1), m) == (m.dayNumber + 1) % 7 + 1;
  }

  lemma ExtractionsAreKnown(lookup: string)
    ensures ExtractTerm(lookup).Some? <==>
      lookup in {"year", "iso_year", "quarter", "month", "week", "week_day", "iso_week_day", "day", "hour",
                 "minute", "second"}
  {
  }

  // ----- Truncation of dates -----

  /** A date by its year, month and day, or by its number. */
  datatype Date = OnCalendar(year: int, month: int, day: int) | Numbered(dayNumber: int)

  /** The modifiers of `date` that truncation uses. */
  function DateOfTerm(d: DateTerm, m: Moment): Date
    requires GoodDate(d)
  {
    match d
    case Modified(modifier) =>
      OnCalendar(m.year, if modifier == "start of month" then m.month else 1, 1)
    case FirstDay(year, month) => OnCalendar(Evaluate(year, m), Evaluate(month, m), 1)
    case Earlier(days) => Numbered(m.dayNumber - Evaluate(days, m))
    case SameDay => Numbered(m.dayNumber)
  }

  /** Truncation arrives at the first day of the year, of the quarter, of the month or of the week, which begins on
      Monday, or stays on the day. */
  lemma TruncationIsRight(lookup: string, m: Moment)
    requires Valid(m) && TruncatedDate(lookup).Some?
    ensures var date := DateOfTerm(TruncatedDate(lookup).value, m);
      && (lookup == "year" ==> date == OnCalendar(m.year, 1, 1))
      && (lookup == "quarter" ==>
          date.OnCalendar? && date.year == m.year && date.day == 1
          && date.month in {1, 4, 7, 10} && date.month <= m.month <= date.month + 2)
      && (lookup == "month" ==> date == OnCalendar(m.year, m.month, 1))
      && (lookup == "week" ==>
          date.Numbered? && date.dayNumber % 7 == 0 && date.dayNumber <= m.dayNumber < date.dayNumber + 7)
      && (lookup == "day" ==> date == Numbered(m.dayNumber))
  {
    assert Evaluate(Minus(Part('m'), 1), m) == m.month - 1;
    assert Evaluate(Over(Minus(Part('m'), 1), 3), m) == (m.month - 1) / 3;
    assert Evaluate(DAYS_SINCE_MONDAY, m) == m.dayNumber % 7;
  }

  /** The supported lookups. The modifiers are the two that SQLite documents. */
  lemma TruncationsAreKnown(lookup: string)
    ensures TruncatedDate(lookup).Some? <==> lookup in {"year", "quarter", "month", "week", "day"}
    ensures TruncatedDate(lookup).Some? && TruncatedDate(lookup).value.Modified? ==>
        TruncatedDate(lookup).value.modifier == "start of " + lookup
  {
    assert lookup == "year" ==> "start of " + lookup == "start of year";
    assert lookup == "month" ==> "start of " + lookup == "start of month";
  }

  // ----- The SQL text -----

  lemma ThreeSideBySide(sql: string)
    ensures forall a, b, c {:trigger SqlOf(F3(a, b, c), sql)} ::
        SqlOf(F3(a, b, c), sql) == SqlOf(a, sql) + (SqlOf(b, sql) + SqlOf(c, sql))
  {
  }

  lemma PartText(letter: char, sql: string)
    requires letter != '\''
    ensures SqlOf(TermShape(Part(letter)), sql) ==
        "CAST(strftime(" + (("'" + ("%%" + [letter]) + "'") + (", " + (sql + ") AS INTEGER)")))
  {
    ThreeSideBySide(sql);
    hide F3;
  }

  function Numeral(n: nat): string
    requires n < 10
  {
    ["0123456789"[n]]
  }

  /** Terms are printed as they are computed. */
  lemma TermText(t: Term, n: nat, sql: string)
    requires GoodTerm(t) && n < 10
    ensures var text := SqlOf(TermShape(t), sql);
      && SqlOf(TermShape(Plus(t, n)), sql) == "(" + (text + (" + " + Numeral(n) + ")"))
      && SqlOf(TermShape(Minus(t, n)), sql) == ("(" + (text + " ")) + ("-" + (" " + Numeral(n) + ")"))
      && SqlOf(TermShape(Over(t, n)), sql) == ("(" + (text + " ")) + ("/" + (" " + Numeral(n) + ")"))
  {
    assert [Digit(n)] == Numeral(n);
    ThreeSideBySide(sql);
    hide F3;
  }

  /** The SQL of a date with a modifier. */
  lemma ModifierText(sql: string, modifier: string)
    requires '\'' !in modifier
    ensures SqlOf(DateShape(Modified(modifier)), sql) ==
        "date(" + (sql + (", " + (("'" + modifier + "'") + ")")))
  {
    ThreeSideBySide(sql);
    hide F3, DaysBefore, FirstOfMonth, DateOf;
  }

  /** An instant of the time extension as text, and its time of day. */
  lemma FormattedText(argument: Shape, sql: string)
    requires Good(argument)
    ensures SqlOf(FormatTimeExtension(argument, true), sql) ==
        "SUBSTR(" + (SqlOf(FormatTimeExtension(argument, false), sql) + ", 12, 15)")
  {
    ThreeSideBySide(sql);
    hide F3, Good, Copies, StartsNeutral, EndsNeutral, IsPlain, Piece, Repeat, Neutral;
  }

  lemma InstantText(argument: Shape, sql: string)
    requires Good(argument)
    ensures SqlOf(FormatTimeExtension(argument, false), sql) ==
        ("RTRIM(REPLACE(time_fmt_iso(" + (SqlOf(argument, sql) + "), "))
        + ("'T'" + (", " + ("' '" + ("), " + ("'Z'" + ")")))))
  {
    ThreeSideBySide(sql);
    hide F3, Good, Copies, StartsNeutral, EndsNeutral, IsPlain, Piece, Repeat, Neutral;
  }

  lemma ParsedText(argument: Shape, sql: string)
    requires Good(argument)
    ensures SqlOf(DatetimeInput(argument), sql) ==
        ("time_parse(REPLACE(" + (SqlOf(argument, sql) + ", "))
        + ("' '" + (", " + ("'T'" + (") || " + ("'Z'" + ")")))))
  {
    ThreeSideBySide(sql);
    hide F3, Good, Copies, StartsNeutral, EndsNeutral, IsPlain, Piece, Repeat, Neutral;
  }

  lemma ParsedTimeText(argument: Shape, sql: string)
    requires Good(argument)
    ensures SqlOf(TimeOnlyInput(argument), sql) ==
        ("time_parse(" + ("'1970-01-01T'" + " || ")) + (SqlOf(argument, sql) + (" || " + ("'Z'" + ")")))
  {
    ThreeSideBySide(sql);
    hide F3, Good, Copies, StartsNeutral, EndsNeutral, IsPlain, Piece, Repeat, Neutral;
  }

  lemma TruncatedText(argument: Shape, lookup: string, sql: string)
    requires Good(argument) && '\'' !in lookup
    ensures SqlOf(TimeTrunc(argument, lookup), sql) ==
        "time_trunc(" + (SqlOf(argument, sql) + (", " + (("'" + lookup + "'") + ")")))
    ensures SqlOf(UnlessNull(argument), sql) ==
        "CASE WHEN " + (sql + (" IS NULL THEN NULL ELSE " + (SqlOf(argument, sql) + " END")))
  {
    ThreeSideBySide(sql);
    hide F3, Good, Copies, StartsNeutral, EndsNeutral, IsPlain, Piece, Repeat, Neutral;
  }

  /** A date and time is parsed, truncated as the lookup says, formatted, and NULL for NULL. */
  lemma DatetimeTruncationIs(lookup: string)
    requires DatetimeTruncShape(lookup).Ok? && lookup != "week"
    ensures '\'' !in lookup
    ensures DatetimeTruncShape(lookup).value ==
        UnlessNull(FormatTimeExtension(TimeTrunc(DatetimeInput(Input), lookup), false))
  {
    LookupsHaveNoQuote(lookup);
    hide F3, Good, Copies, StartsNeutral, EndsNeutral, IsPlain, Piece, Neutral, FormatTimeExtension, TimeTrunc,
         DatetimeInput, UnlessNull, DaysBefore;
  }

  /** A time is taken from its day first. */
  lemma TimeTruncationIs(lookup: string)
    requires TimeTruncShape(lookup).Ok?
    ensures '\'' !in lookup
    ensures TimeTruncShape(lookup).value ==
        UnlessNull(FormatTimeExtension(TimeTrunc(TimeOnlyInput(TimeOfDay()), lookup), true))
    ensures CastTimeShape() == UnlessNull(FormatTimeExtension(DatetimeInput(Input), true))
  {
    LookupsHaveNoQuote(lookup);
    hide F3, Good, Copies, StartsNeutral, EndsNeutral, IsPlain, Piece, Neutral, FormatTimeExtension, TimeTrunc,
         DatetimeInput, TimeOnlyInput, UnlessNull, TimeOfDay;
  }

  // ----- Which requests are supported -----

  /** A builder yields SQL exactly for the lookups it knows, without time zone or in UTC on a UTC connection. */
  lemma SupportedExactly<P>(b: Builder, sql: string, params: seq<P>, connectionZone: string)
    ensures b.Apply(sql, params, connectionZone).Ok? <==>
      && (b.DateExtract? || b.TimeExtract? || b.tz == None || (b.tz == Some("UTC") && connectionZone == "UTC"))
      && b.Format().Ok?
    ensures b.Apply(sql, params, connectionZone).Ok? ==>
        b.Apply(sql, params, connectionZone).value.sql == SqlOf(b.Format().value, sql)
  {
  }

  /** The lookups of the time extension. */
  lemma TimeLookupsAreKnown(lookup: string)
    ensures TimeTruncShape(lookup).Ok? <==> lookup in {"hour", "minute", "second"}
    ensures DatetimeTruncShape(lookup).Ok? <==>
        TimeTruncShape(lookup).Ok? || lookup in {"year", "quarter", "month", "week", "day"}
  {
    hide FormatTimeExtension, TimeTrunc, DatetimeInput, TimeOnlyInput, UnlessNull, F3, TimeOfDay, DaysBefore;
  }

  /** Each method builds the SQL of its own kind. */
  lemma FormatsAreTheirOwn(lookup: string, tz: Option<string>)
    ensures DateExtract(lookup).Format() == TimeExtract(lookup).Format() == DatetimeExtract(lookup, tz).Format()
    ensures ExtractTerm(lookup).Some? ==> DateExtract(lookup).Format() == Ok(TermShape(ExtractTerm(lookup).value))
    ensures ExtractTerm(lookup).None? ==> DateExtract(lookup).Format() == Err(NotSupported)
    ensures DateTrunc(lookup, tz).Format() == DateTruncShape(lookup)
    ensures DatetimeTrunc(lookup, tz).Format() == DatetimeTruncShape(lookup)
    ensures TimeTruncate(lookup, tz).Format() == TimeTruncShape(lookup)
    ensures DatetimeCastDate(tz).Format() == Ok(DateOf()) && DatetimeCastTime(tz).Format() == Ok(CastTimeShape())
  {
    hide TermShape, DateTruncShape, DatetimeTruncShape, TimeTruncShape, DateOf, CastTimeShape;
  }
}

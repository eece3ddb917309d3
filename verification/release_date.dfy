/** The release-date line of a game: the earliest usable release date is
    picked and rendered according to its precision category. Date
    formatting with a locale, the zone conversion and the relative
    formatter are inputs; so are the string resources. */
module ReleaseDates {
  import opened Results
  import opened Text

  /** The release-date categories the formatter names. */
  datatype Category =
    | YYYY_MMMM_DD | YYYY_MMMM | YYYY
    | YYYYQ1 | YYYYQ2 | YYYYQ3 | YYYYQ4
    | TBD | UNKNOWN

  datatype ReleaseDate = ReleaseDate(date: Option<int>, year: Option<int>, category: Category)

  /** The string resources the formatter reads. */
  datatype Strings = Strings(
    unknown: string,
    firstQuarter: string,
    secondQuarter: string,
    thirdQuarter: string,
    fourthQuarter: string,
    yearWithQuarter: (int, string) -> string)

  /** The collaborators: locale-aware formatting of an epoch-second date as
      "MMM dd, yyyy" and as "MMMM yyyy", and the relative formatter, which
      may fail (`None`). */
  datatype Formatters = Formatters(
    completeDate: int -> string,
    daylessDate: int -> string,
    relative: int -> Option<string>)

  datatype FormatError = UnknownCategory(category: Category) | RelativeFormattingFailed

  /** A release date the formatter may show. */
  predicate Usable(d: ReleaseDate) {
    d.category != UNKNOWN && d.category != TBD && d.date.Some? && d.year.Some?
  }

  /** The usable release dates, kept in order, then the first one with the
      smallest date (`filter` followed by `minByOrNull`). */
  function FindFirstReleaseDate(dates: seq<ReleaseDate>): (r: Option<ReleaseDate>)
    ensures r.None? <==> forall i :: 0 <= i < |dates| ==> !Usable(dates[i])
    ensures r.Some? ==> Usable(r.value)
    ensures r.Some? ==> exists k :: 0 <= k < |dates| && dates[k] == r.value
                               && (forall i :: 0 <= i < k && Usable(dates[i]) ==> dates[i].date.value > r.value.date.value)
    ensures r.Some? ==> forall i :: 0 <= i < |dates| && Usable(dates[i]) ==> r.value.date.value <= dates[i].date.value
  {
    if |dates| == 0 then None
    else
      var last := dates[|dates| - 1];
      var best := FindFirstReleaseDate(dates[..|dates| - 1]);
      assert forall i :: 0 <= i < |dates| - 1 ==> dates[..|dates| - 1][i] == dates[i];
      if !Usable(last) then best
      else if best.None? || last.date.value < best.value.date.value then Some(last)
      else best
  }

  /** The quarter resource for a quarter category; any other category is an
      error. */
  function QuarterString(strings: Strings, c: Category): (r: Result<string, FormatError>)
    ensures r.Ok? <==> c in {YYYYQ1, YYYYQ2, YYYYQ3, YYYYQ4}
    ensures r.Err? ==> r.error == UnknownCategory(c)
  {
    match c
    case YYYYQ1 => Ok(strings.firstQuarter)
    case YYYYQ2 => Ok(strings.secondQuarter)
    case YYYYQ3 => Ok(strings.thirdQuarter)
    case YYYYQ4 => Ok(strings.fourthQuarter)
    case _ => Err(UnknownCategory(c))
  }

  /** Distinct quarter resources give distinct quarter strings for distinct
      quarters. */
  lemma QuarterStringsDistinct(strings: Strings, c1: Category, c2: Category)
    requires QuarterString(strings, c1).Ok? && QuarterString(strings, c2).Ok?
    requires |{strings.firstQuarter, strings.secondQuarter, strings.thirdQuarter, strings.fourthQuarter}| == 4
    ensures QuarterString(strings, c1) == QuarterString(strings, c2) <==> c1 == c2
  {
  }

  /** Rendering of one chosen release date by its category. */
  function FormatDate(strings: Strings, fmt: Formatters, d: ReleaseDate): (r: Result<string, FormatError>)
    requires d.date.Some? && d.year.Some?
    ensures d.category in {TBD, UNKNOWN} <==> r == Err(UnknownCategory(d.category))
    ensures d.category == YYYY ==> r == Ok(IntToString(d.year.value))
    ensures d.category == YYYY_MMMM ==> r == Ok(fmt.daylessDate(d.date.value))
    ensures d.category == YYYY_MMMM_DD ==>
              (r.Ok? <==> fmt.relative(d.date.value).Some?)
              && (r.Ok? ==> r.value == fmt.completeDate(d.date.value) + " (" + fmt.relative(d.date.value).value + ")")
    ensures d.category in {YYYYQ1, YYYYQ2, YYYYQ3, YYYYQ4} ==>
              r == Ok(strings.yearWithQuarter(d.year.value, QuarterString(strings, d.category).value))
  {
    match d.category
    case YYYY_MMMM_DD =>
      (match fmt.relative(d.date.value)
       case None => Err(RelativeFormattingFailed)
       case Some(rel) => Ok(fmt.completeDate(d.date.value) + " (" + rel + ")"))
    case YYYY_MMMM => Ok(fmt.daylessDate(d.date.value))
    case YYYY => Ok(IntToString(d.year.value))
    case YYYYQ1 | YYYYQ2 | YYYYQ3 | YYYYQ4 =>
      (match QuarterString(strings, d.category)
       case Ok(quarter) => Ok(strings.yearWithQuarter(d.year.value, quarter))
       case Err(e) => Err(e))
    case _ => Err(UnknownCategory(d.category))
  }

  /** `formatReleaseDate`: the "unknown" string when no date is usable,
      otherwise the chosen date rendered. */
  function FormatReleaseDate(strings: Strings, fmt: Formatters, dates: seq<ReleaseDate>): (r: Result<string, FormatError>)
    ensures (forall i :: 0 <= i < |dates| ==> !Usable(dates[i])) ==> r == Ok(strings.unknown)
    ensures FindFirstReleaseDate(dates).Some? ==> r == FormatDate(strings, fmt, FindFirstReleaseDate(dates).value)
  {
    match FindFirstReleaseDate(dates)
    case None => Ok(strings.unknown)
    case Some(d) => FormatDate(strings, fmt, d)
  }

  /** The category check's error arm is never reached: unknown and
      to-be-decided dates are filtered out first, so the only failure left
      is the relative formatter's, on a complete date. */
  lemma OnlyRelativeFormattingFails(strings: Strings, fmt: Formatters, dates: seq<ReleaseDate>)
    requires FormatReleaseDate(strings, fmt, dates).Err?
    ensures FormatReleaseDate(strings, fmt, dates).error == RelativeFormattingFailed
    ensures FindFirstReleaseDate(dates).Some? && FindFirstReleaseDate(dates).value.category == YYYY_MMMM_DD
  {
  }

  /** A year-only date reads back as its year: the output is exactly the
      decimal year. */
  lemma YearOnlyReadsBack(strings: Strings, fmt: Formatters, dates: seq<ReleaseDate>)
    requires FindFirstReleaseDate(dates).Some? && FindFirstReleaseDate(dates).value.category == YYYY
    ensures var r := FormatReleaseDate(strings, fmt, dates);
            r.Ok? && ParseInt(r.value) == FindFirstReleaseDate(dates).value.year
  {
    ParseIntToString(FindFirstReleaseDate(dates).value.year.value);
  }
}

/** Relative rendering of a date ("in 2 years", "15 days ago"): the largest
    calendar unit with a positive count wins. Calendar arithmetic
    (`ChronoUnit.between`) and the current time are inputs; the string
    resources are identified by direction and unit, and the chosen count is
    passed both as the plural quantity and as the format argument. */
module RelativeDate {
  import opened Results

  datatype Unit = Years | Months | Days | Hours | Minutes | Seconds

  /** The order in which units are tried. */
  const Units: seq<Unit> := [Years, Months, Days, Hours, Minutes, Seconds]

  /** Every unit is tried: its position in the trying order. */
  function Position(u: Unit): (i: nat)
    ensures i < |Units| && Units[i] == u
  {
    match u
    case Years => 0
    case Months => 1
    case Days => 2
    case Hours => 3
    case Minutes => 4
    case Seconds => 5
  }

  datatype Direction = Future | Past

  /** The plural resource picked, identified by direction and unit, and the
      quantity given to it. */
  datatype Relative = Relative(direction: Direction, unit: Unit, quantity: int)

  /** The exception raised when no unit has a positive count. */
  datatype Failure = CouldNotFormat(direction: Direction)

  /** `ChronoUnit.<unit>.between(start, end)` on instants given as ints. */
  type Between = (Unit, int, int) -> int

  const TwoTo32: int := 0x1_0000_0000
  const TwoTo31: int := 0x8000_0000

  /** Kotlin `Long.toInt()`: keeps the low 32 bits, two's complement. */
  function ToInt(x: int): (r: int)
    ensures -TwoTo31 <= r < TwoTo31
    ensures (r - x) % TwoTo32 == 0
    ensures -TwoTo31 <= x < TwoTo31 ==> r == x
  {
    var low := x % TwoTo32;
    if low >= TwoTo31 then low - TwoTo32 else low
  }

  /** The count for each unit, in trying order. */
  function Counts(between: Between, start: int, end: int): (cs: seq<int>)
    ensures |cs| == |Units|
    ensures forall i :: 0 <= i < |Units| ==> cs[i] == ToInt(between(Units[i], start, end))
  {
    [ToInt(between(Years, start, end)), ToInt(between(Months, start, end)),
     ToInt(between(Days, start, end)), ToInt(between(Hours, start, end)),
     ToInt(between(Minutes, start, end)), ToInt(between(Seconds, start, end))]
  }

  /** The position of the first positive count from `from` on. */
  function FirstPositive(cs: seq<int>, from: nat): (r: Option<nat>)
    requires from <= |cs|
    decreases |cs| - from
    ensures r.None? <==> forall i :: from <= i < |cs| ==> cs[i] <= 0
    ensures r.Some? ==> from <= r.value < |cs| && cs[r.value] > 0
    ensures r.Some? ==> forall i :: from <= i < r.value ==> cs[i] <= 0
  {
    if from == |cs| then None
    else if cs[from] > 0 then Some(from)
    else FirstPositive(cs, from + 1)
  }

  function Pick(direction: Direction, cs: seq<int>): (r: Result<Relative, Failure>)
    requires |cs| == |Units|
    ensures r.Err? <==> forall i :: 0 <= i < |cs| ==> cs[i] <= 0
    ensures r.Ok? ==> r.value.direction == direction && r.value.quantity > 0
    ensures r.Ok? ==> exists k :: 0 <= k < |Units| && Units[k] == r.value.unit && cs[k] == r.value.quantity
                                && forall i :: 0 <= i < k ==> cs[i] <= 0
  {
    match FirstPositive(cs, 0)
    case None => Err(CouldNotFormat(direction))
    case Some(k) => Ok(Relative(direction, Units[k], cs[k]))
  }

  /** `formatRelativeDate`: the future branch when now is strictly before
      the date, measuring from now to the date; otherwise the past branch,
      measuring from the date to now. */
  function FormatRelativeDate(between: Between, now: int, date: int): (r: Result<Relative, Failure>)
    ensures r.Ok? ==> (r.value.direction == Future <==> now < date)
    ensures r.Err? ==> (r.error.direction == Future <==> now < date)
    ensures r.Ok? ==> r.value.quantity > 0
    ensures now < date ==> (r.Err? <==> forall u :: ToInt(between(u, now, date)) <= 0)
    ensures date <= now ==> (r.Err? <==> forall u :: ToInt(between(u, date, now)) <= 0)
  {
    NoPositiveCount(between, now, date);
    NoPositiveCount(between, date, now);
    if now < date then Pick(Future, Counts(between, now, date))
    else Pick(Past, Counts(between, date, now))
  }

  lemma NoPositiveCount(between: Between, start: int, end: int)
    ensures (forall i :: 0 <= i < |Units| ==> Counts(between, start, end)[i] <= 0)
        <==> (forall u :: ToInt(between(u, start, end)) <= 0)
  {
    var cs := Counts(between, start, end);
    if forall i :: 0 <= i < |Units| ==> cs[i] <= 0 {
      forall u
        ensures ToInt(between(u, start, end)) <= 0
      {
        assert cs[Position(u)] <= 0;
      }
    }
  }

  /** The chosen unit is the largest one with a positive count: every unit
      tried before it counts zero or less, and the quantity is its count. */
  lemma LargestPositiveUnit(between: Between, now: int, date: int)
    requires FormatRelativeDate(between, now, date).Ok?
    ensures var rel := FormatRelativeDate(between, now, date).value;
            var start := if now < date then now else date;
            var end := if now < date then date else now;
            exists k :: 0 <= k < |Units| && Units[k] == rel.unit
                     && rel.quantity == ToInt(between(Units[k], start, end))
                     && forall i :: 0 <= i < k ==> ToInt(between(Units[i], start, end)) <= 0
  {
  }

  /** A date equal to now has nothing to count when every unit measures an
      empty interval as zero, so the call fails. */
  lemma SameInstantFails(between: Between, now: int)
    requires forall u :: between(u, now, now) == 0
    ensures FormatRelativeDate(between, now, now) == Err(CouldNotFormat(Past))
  {
  }

  /** The past branch is the future branch with the two instants swapped. */
  lemma PastMirrorsFuture(between: Between, now: int, date: int)
    requires date < now
    ensures FormatRelativeDate(between, now, date).Ok? <==> FormatRelativeDate(between, date, now).Ok?
    ensures FormatRelativeDate(between, now, date).Ok? ==>
              FormatRelativeDate(between, now, date).value
              == FormatRelativeDate(between, date, now).value.(direction := Past)
  {
  }

  /** Two years ahead reads as a two-year future quantity. */
  lemma TwoYearsAhead(between: Between, now: int, date: int)
    requires now < date && between(Years, now, date) == 2
    ensures FormatRelativeDate(between, now, date) == Ok(Relative(Future, Years, 2))
  {
  }

  /** Fifteen days back, with no whole month or year between, reads as a
      fifteen-day past quantity. */
  lemma FifteenDaysAgo(between: Between, now: int, date: int)
    requires date < now
    requires between(Years, date, now) == 0 && between(Months, date, now) == 0 && between(Days, date, now) == 15
    ensures FormatRelativeDate(between, now, date) == Ok(Relative(Past, Days, 15))
  {
    var cs := Counts(between, date, now);
    assert cs[0] == 0 && cs[1] == 0 && cs[2] == 15;
    assert FirstPositive(cs, 2) == Some(2);
    assert FirstPositive(cs, 1) == Some(2);
    assert FirstPositive(cs, 0) == Some(2);
  }
}

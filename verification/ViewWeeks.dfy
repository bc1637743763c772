/**
 * Week dates in the HTCondor view: week numbers and labels after section 4.1.4 of ISO 8601:2004,
 * their parser, and the choice of the data files that cover a span of time.
 */
module ViewWeeks {
  import opened Common

  // ---------------------------------------------------------------- days and years

  const DAY := 86_400_000  // milliseconds
  const WEEK := 604_800_000

  /** The day number of 1 January, counted from 1 January 1970, as ECMAScript defines it. */
  function DayFromYear(y: int): int
  {
    365 * (y - 1970) + (y - 1969) / 4 - (y - 1901) / 100 + (y - 1601) / 400
  }

  predicate Leap(y: int)
  {
    y % 4 == 0 && (y % 100 != 0 || y % 400 == 0)
  }

  lemma NextMultiple(y: int, k: int)
    requires k in {4, 100, 400}
    ensures y / k - (y - 1) / k == if y % k == 0 then 1 else 0
  {
  }

  lemma SameRemainder4(y: int)
    ensures (y - 1968) % 4 == y % 4
  {
    assert y - 1968 == 4 * (y / 4 - 492) + y % 4;
  }

  lemma SameRemainder100(y: int)
    ensures (y - 1900) % 100 == y % 100
  {
    assert y - 1900 == 100 * (y / 100 - 19) + y % 100;
  }

  lemma SameRemainder400(y: int)
    ensures (y - 1600) % 400 == y % 400
  {
    assert y - 1600 == 400 * (y / 400 - 4) + y % 400;
  }

  lemma Centuries(y: int)
    ensures y % 100 == 0 ==> y % 4 == 0
  {
    assert y == 4 * (25 * (y / 100)) + y % 100;
  }

  lemma FourCenturies(y: int)
    ensures y % 400 == 0 ==> y % 100 == 0
  {
    assert y == 100 * (4 * (y / 400)) + y % 400;
  }

  /** One more if `k` divides the number, as the leap-day counters see it. */
  function Divides(k: int, y: int): int
    requires k > 0
  {
    if y % k == 0 then 1 else 0
  }

  lemma LeapDays(y: int)
    ensures DayFromYear(y + 1) - DayFromYear(y) == 365 + Divides(4, y) - Divides(100, y) + Divides(400, y)
  {
    SameRemainder4(y);
    SameRemainder100(y);
    SameRemainder400(y);
    NextMultiple(y - 1968, 4);
    NextMultiple(y - 1900, 100);
    NextMultiple(y - 1600, 400);
  }

  lemma YearLength(y: int)
    ensures DayFromYear(y + 1) - DayFromYear(y) == if Leap(y) then 366 else 365
  {
    hide DayFromYear;
    LeapDays(y);
    Centuries(y);
    FourCenturies(y);
  }

  lemma {:induction false} YearsApart(y: int, z: int)
    requires y <= z
    ensures DayFromYear(z) - DayFromYear(y) >= 365 * (z - y)
    decreases z - y
  {
    if y < z {
      YearLength(y);
      YearsApart(y + 1, z);
    }
  }

  predicate InYear(day: int, y: int)
  {
    DayFromYear(y) <= day < DayFromYear(y + 1)
  }

  /** How far a guess is off. */
  function Off(guess: int, day: int): nat
  {
    if day < DayFromYear(guess) then DayFromYear(guess) - day
    else if day >= DayFromYear(guess + 1) then day - DayFromYear(guess + 1) + 1
    else 0
  }

  lemma Closer(guess: int, day: int)
    ensures day < DayFromYear(guess) ==> Off(guess - 1, day) < Off(guess, day)
    ensures day >= DayFromYear(guess + 1) ==> Off(guess + 1, day) < Off(guess, day)
  {
    YearLength(guess - 1);
    YearLength(guess);
    YearLength(guess + 1);
    hide DayFromYear;
  }

  /** The year of a day, found from any guess. */
  function YearFrom(guess: int, day: int): (y: int)
    ensures InYear(day, y)
    decreases Off(guess, day)
  {
    Closer(guess, day);
    if day < DayFromYear(guess) then YearFrom(guess - 1, day)
    else if day >= DayFromYear(guess + 1) then YearFrom(guess + 1, day)
    else guess
  }

  function YearOf(day: int): (y: int)
    ensures InYear(day, y)
  {
    YearFrom(1970, day)
  }

  lemma OneYear(day: int, y: int)
    requires InYear(day, y)
    ensures YearOf(day) == y
  {
    var z := YearOf(day);
    if z < y {
      YearsApart(z + 1, y);
    } else if y < z {
      YearsApart(y + 1, z);
    }
  }

  /** 0 is Sunday. */
  function WeekDay(day: int): int
  {
    (day + 4) % 7
  }

  // ---------------------------------------------------------------- weeks

  /** Monday of a day's week. */
  function Monday(day: int): int
  {
    day - (WeekDay(day) + 6) % 7
  }

  function Thursday(day: int): int
  {
    Monday(day) + 3
  }

  function FirstThursday(y: int): int
  {
    DayFromYear(y) + (11 - WeekDay(DayFromYear(y))) % 7
  }

  /** The year a week belongs to is the year of its Thursday. */
  function WeekYear(day: int): int
  {
    YearOf(Thursday(day))
  }

  function Week(day: int): int
  {
    1 + (Thursday(day) - FirstThursday(WeekYear(day))) / 7
  }

  lemma MondayIsMonday(day: int)
    ensures WeekDay(Monday(day)) == 1 && Monday(day) <= day < Monday(day) + 7
  {
  }

  lemma FirstThursdayIsFirst(y: int)
    ensures WeekDay(FirstThursday(y)) == 4 && DayFromYear(y) <= FirstThursday(y) < DayFromYear(y) + 7
  {
    hide DayFromYear;
    NextThursday(DayFromYear(y));
  }

  lemma NextThursday(d: int)
    ensures var t := d + (11 - WeekDay(d)) % 7; WeekDay(t) == 4 && d <= t < d + 7
  {
    var r := (d + 4) % 7;
    var q := (11 - r) % 7;
    assert (d + q + 4) % 7 == (r + q) % 7;
  }

  /** Days of one week have one Monday. */
  lemma SameWeek(a: int, b: int)
    requires Monday(a) <= b < Monday(a) + 7
    ensures Monday(b) == Monday(a)
  {
    MondayIsMonday(a);
    MondayIsMonday(b);
    Aligned(Monday(a), Monday(b));
  }

  /** Days with the same day of the week are whole weeks apart. */
  lemma Aligned(a: int, b: int)
    requires WeekDay(a) == WeekDay(b)
    ensures (b - a) % 7 == 0
  {
  }

  /** The week number counts Thursdays: it is between 1 and 53, and exact. */
  lemma WeekCounts(day: int)
    ensures 1 <= Week(day) <= 53
    ensures Thursday(day) == FirstThursday(WeekYear(day)) + 7 * (Week(day) - 1)
  {
    var y := WeekYear(day);
    var t, f := Thursday(day), FirstThursday(y);
    hide DayFromYear, FirstThursday, Thursday, YearOf;
    ThursdayIsThursday(day);
    FirstThursdayIsFirst(y);
    YearLength(y);
    Aligned(f, t);
    WeeksBetween(f, t);
  }

  lemma ThursdayIsThursday(day: int)
    ensures WeekDay(Thursday(day)) == 4
  {
  }

  lemma WeeksBetween(f: int, t: int)
    requires (t - f) % 7 == 0 && f - 7 < t < f + 366
    ensures 0 <= (t - f) / 7 <= 52 && t == f + 7 * ((t - f) / 7)
  {
  }

  // ---------------------------------------------------------------- parsing a week

  /** Thursday of the week of a day, Sunday being its last. */
  function FirstWeekThursday(d: int): int
  {
    d + 4 - (if WeekDay(d) == 0 then 7 else WeekDay(d))
  }

  /** The year that Date.UTC takes a number for: two digits mean the twentieth century. */
  function UtcYear(y: int): int
  {
    if 0 <= y <= 99 then 1900 + y else y
  }

  /** Monday of week `w` of year `y`, from the Thursday of the week of 1 January. */
  function WeekStart(y: int, w: int): int
  {
    var d := DayFromYear(UtcYear(y));
    var t := FirstWeekThursday(d);
    t + 7 * (w + if YearOf(t) == y then -1 else 0) - 3
  }

  lemma WeekStartFromFirst(y: int, w: int)
    requires UtcYear(y) == y
    ensures WeekStart(y, w) == FirstThursday(y) + 7 * (w - 1) - 3
  {
    var d := DayFromYear(y);
    var t := FirstWeekThursday(d);
    YearLength(y);
    YearLength(y - 1);
    hide DayFromYear, YearOf;
    if t >= d {
      OneYear(t, y);
    } else {
      OneYear(t, y - 1);
    }
  }

  /** The number and year of a day's week lead back to its Monday. */
  lemma WeekStartIsMonday(day: int)
    requires UtcYear(WeekYear(day)) == WeekYear(day)
    ensures WeekStart(WeekYear(day), Week(day)) == Monday(day)
  {
    WeekCounts(day);
    WeekStartFromFirst(WeekYear(day), Week(day));
  }

  // ---------------------------------------------------------------- labels

  function NumberText(n: int): string
  {
    if n < 0 then "-" + Decimal(-n) else Decimal(n)
  }

  /** Two digits, the first perhaps a zero. */
  lemma NumberTextReads(n: int)
    ensures n >= 0 ==> NumberText(n) == Decimal(n) && NumberOf(Decimal(n)) == n
    ensures n < 0 ==> NumberText(n)[0] == '-' && NumberText(n)[1..] == Decimal(-n) && NumberOf(Decimal(-n)) == -n
  {
    NumberOfDecimal(if n < 0 then -n else n);
  }

  function Padded(n: nat): string
  {
    ("0" + Decimal(n))[|Decimal(n)| - 1..]
  }

  /** The label of a day's week, such as 2016-W01. */
  function Label(day: int): string
  {
    WeekCounts(day);
    NumberText(WeekYear(day)) + "-W" + Padded(Week(day))
  }

  predicate IsWeekDate(s: string)
  {
    && |s| == 8 && s[4] == '-' && s[5] == 'W'
    && (forall i :: 0 <= i < 4 ==> IsDigit(s[i])) && IsDigit(s[6]) && IsDigit(s[7])
  }

  /** The day that a week date stands for; other dates are left to the host. */
  function ParseWeekDate(s: string): Option<int>
  {
    if IsWeekDate(s) then Some(WeekStart(NumberOf(s[..4]), NumberOf(s[6..]))) else None
  }

  lemma PaddedReads(n: nat)
    requires n <= 99
    ensures |Padded(n)| == 2 && IsDigit(Padded(n)[0]) && IsDigit(Padded(n)[1]) && NumberOf(Padded(n)) == n
  {
    NumberOfDecimal(n);
    if n >= 10 {
      assert Decimal(n) == Decimal(n / 10) + [DigitChar(n % 10)];
      assert ("0" + Decimal(n))[1..] == Decimal(n);
    } else {
      var s := ("0" + Decimal(n))[0..];
      assert s == ['0', DigitChar(n)] && s[..1] == "0" && "0"[..0] == "";
      assert NumberOf("0") == 0;
    }
  }

  lemma FourDigitsIff(n: int)
    ensures |NumberText(n)| == 4 && (forall i :: 0 <= i < 4 ==> IsDigit(NumberText(n)[i])) <==> 1000 <= n <= 9999
  {
    assert Pow10(1) == 10 && Pow10(2) == 100;
    assert Pow10(3) == 1000;
    assert Pow10(4) == 10000;
    if n < 0 {
      assert NumberText(n)[0] == '-';
    } else if n < 1000 {
      DecimalLength(n, 3);
    } else if n <= 9999 {
      DecimalLength(n, 4);
      DecimalLonger(n, 3);
    } else {
      DecimalLonger(n, 4);
    }
  }

  /** `s` is the week date of week `w` in year `y`. */
  predicate Spells(s: string, y: int, w: int)
  {
    IsWeekDate(s) && NumberOf(s[..4]) == y && NumberOf(s[6..]) == w
  }

  /** A year of four digits and a week of two, put together. */
  lemma SpelledOut(year: string, week: string)
    requires |year| == 4 && (forall i :: 0 <= i < 4 ==> IsDigit(year[i]))
    requires |week| == 2 && IsDigit(week[0]) && IsDigit(week[1])
    ensures Spells(year + "-W" + week, NumberOf(year), NumberOf(week))
  {
    hide NumberOf;
    var s := year + "-W" + week;
    assert s[..4] == year && s[6..] == week;
    assert s[4] == '-' && s[5] == 'W';
  }

  lemma LabelShape(day: int)
    requires 1000 <= WeekYear(day) <= 9999
    ensures Spells(Label(day), WeekYear(day), Week(day))
  {
    var y, w := WeekYear(day), Week(day);
    WeekCounts(day);
    FourDigitsIff(y);
    PaddedReads(w);
    NumberOfDecimal(y);
    assert NumberText(y) == Decimal(y);
    hide WeekYear, Week, Padded, Decimal, NumberOf, NumberText, Spells;
    SpelledOut(NumberText(y), Padded(w));
  }

  lemma LongerLabels(day: int)
    requires IsWeekDate(Label(day))
    ensures 1000 <= WeekYear(day) <= 9999
  {
    var y, w := WeekYear(day), Week(day);
    WeekCounts(day);
    PaddedReads(w);
    FourDigitsIff(y);
    hide WeekYear, Week, Padded, Decimal, NumberText;
    assert Label(day)[..4] == NumberText(y);
  }

  /** A week's label is read back, as its Monday, exactly if the week's year has four digits. */
  lemma LabelReadsBackIff(day: int)
    ensures ParseWeekDate(Label(day)) == Some(Monday(day)) <==> 1000 <= WeekYear(day) <= 9999
  {
    hide Label, WeekYear, Week, Monday, WeekStart;
    if 1000 <= WeekYear(day) <= 9999 {
      LabelShape(day);
      WeekStartIsMonday(day);
    } else if IsWeekDate(Label(day)) {
      LongerLabels(day);
    }
  }

  /** Every day of a week has the label of its Monday. */
  lemma MondayHasLabel(day: int)
    ensures Label(Monday(day)) == Label(day)
  {
    MondayIsMonday(day);
    SameWeek(day, Monday(day));
    hide Monday, YearOf, FirstThursday, NumberText, Padded;
    assert Thursday(Monday(day)) == Thursday(day);
    assert WeekYear(Monday(day)) == WeekYear(day) && Week(Monday(day)) == Week(day);
  }

  /** A year of four digits has only weeks of such years. */
  lemma WeekYearsKeepFourDigits(day: int)
    requires 1000 <= YearOf(day) <= 9999
    ensures 1000 <= WeekYear(day) <= 9999
  {
    var first, last := DayFromYear(1000), DayFromYear(10000);
    assert first == -354285 && last == 2932897;
    YearsApart(1000, YearOf(day));
    YearsApart(YearOf(day) + 1, 10000);
    var t := Thursday(day);
    assert first <= t < last;
    if WeekYear(day) < 1000 {
      YearsApart(WeekYear(day) + 1, 1000);
    } else if WeekYear(day) > 9999 {
      YearsApart(10000, WeekYear(day));
    }
  }

  /**
   * For every instant of a four-digit year: its week's label means Monday of its week, and that Monday
   * has this label.
   */
  lemma WeekLabelsRoundTrip(day: int)
    requires 1000 <= YearOf(day) <= 9999
    ensures ParseWeekDate(Label(day)) == Some(Monday(day)) && Label(Monday(day)) == Label(day)
  {
    hide Label, WeekYear, Monday;
    WeekYearsKeepFourDigits(day);
    LabelReadsBackIff(day);
    MondayHasLabel(day);
  }

  /** The calendar is anchored: 2 January 2016 is in week 53 of 2015, and 4 January begins week 1. */
  lemma NewYear2016()
    ensures DayFromYear(1970) == 0 && DayFromYear(2016) == 16801
    ensures WeekYear(16803) == 2015 && Week(16803) == 53
    ensures WeekYear(16804) == 2016 && Week(16804) == 1 && Monday(16804) == 16804
  {
    assert DayFromYear(2015) == 16436 && DayFromYear(2017) == 17167;
    assert Thursday(16803) == 16800 && Thursday(16804) == 16807;
    assert FirstThursday(2015) == 16436 && FirstThursday(2016) == 16807;
    OneYear(16800, 2015);
    OneYear(16807, 2016);
  }

  /** The Thursday in the week of a day, against the first Thursday from that day on. */
  lemma ThursdayOfFirst(d: int)
    ensures var t, first := FirstWeekThursday(d), d + (11 - WeekDay(d)) % 7;
            if t >= d then t == first < d + 4 else t == first - 7 && d + 4 <= first && d - 4 < t
  {
  }

  /**
   * A year below 100 is taken for one of the twentieth century, and a week too late if that year begins
   * in its own first week, which is from Monday to Thursday.
   */
  lemma TwoDigitYears(y: int, w: int)
    requires 0 <= y <= 99
    ensures WeekStart(y, w) ==
            WeekStart(1900 + y, if FirstThursday(1900 + y) < DayFromYear(1900 + y) + 4 then w + 1 else w)
  {
    var z := 1900 + y;
    var d := DayFromYear(z);
    var t := FirstWeekThursday(d);
    YearLength(z);
    YearLength(z - 1);
    WeekStartFromFirst(z, w);
    WeekStartFromFirst(z, w + 1);
    ThursdayOfFirst(d);
    hide DayFromYear, YearOf, FirstWeekThursday;
    assert FirstThursday(z) == d + (11 - WeekDay(d)) % 7;
    hide FirstThursday;
    if t >= d {
      OneYear(t, z);
    } else {
      OneYear(t, z - 1);
    }
  }

  // ---------------------------------------------------------------- the files that cover a span

  function Day(t: int): int
  {
    t / DAY
  }

  /** Midnight before an instant, or before the Monday of its week. */
  function Truncated(t: int, weekly: bool): int
  {
    (if weekly then Monday(Day(t)) else Day(t)) * DAY
  }

  function Span(weekly: bool): int
  {
    if weekly then WEEK else DAY
  }

  lemma TruncatedIsBefore(t: int, weekly: bool)
    ensures Truncated(t, weekly) <= t < Truncated(t, weekly) + Span(weekly)
  {
    MondayIsMonday(Day(t));
  }

  /** Truncated instants are whole steps apart. */
  lemma TruncatedAligned(a: int, b: int, weekly: bool) returns (k: int)
    ensures Truncated(b, weekly) - Truncated(a, weekly) == k * Span(weekly)
  {
    var x, y := Day(a), Day(b);
    if weekly {
      MondayIsMonday(x);
      MondayIsMonday(y);
      Aligned(Monday(x), Monday(y));
      k := (Monday(y) - Monday(x)) / 7;
      hide Monday;
      assert Monday(y) - Monday(x) == 7 * k;
    } else {
      k := y - x;
    }
  }

  /** Steps from `now` until `stop`. */
  function Steps(now: int, stop: int, step: int): seq<int>
    requires step > 0
    decreases stop - now
  {
    if now >= stop then [] else [now] + Steps(now + step, stop, step)
  }

  /** Where the files begin that the view loads for the span from `start` to `end`. */
  function Files(start: int, end: int, weekly: bool): seq<int>
  {
    Steps(Truncated(start, weekly), Truncated(end + Span(weekly) - 1, weekly), Span(weekly))
  }

  lemma {:induction false} StepsCover(now: int, stop: int, step: int, x: int)
    requires step > 0 && now <= x < stop
    ensures exists i :: 0 <= i < |Steps(now, stop, step)|
              && Steps(now, stop, step)[i] <= x < Steps(now, stop, step)[i] + step
    decreases stop - now
  {
    var s := Steps(now, stop, step);
    if x < now + step {
      assert s[0] <= x < s[0] + step;
    } else {
      var t := Steps(now + step, stop, step);
      StepsCover(now + step, stop, step, x);
      var i :| 0 <= i < |t| && t[i] <= x < t[i] + step;
      assert s[i + 1] == t[i];
    }
  }

  /** The steps are `step` apart, and end a whole step before `stop`. */
  lemma {:induction false} StepsAt(now: int, stop: int, step: int, k: int)
    requires step > 0 && stop - now == k * step
    ensures |Steps(now, stop, step)| == if k > 0 then k else 0
    ensures forall i :: 0 <= i < |Steps(now, stop, step)| ==> now <= Steps(now, stop, step)[i] <= stop - step
    decreases stop - now
  {
    if k > 0 {
      Positive(k, step);
      assert (k - 1) * step == k * step - step;
      StepsAt(now + step, stop, step, k - 1);
    } else {
      assert k * step <= 0;
    }
  }

  lemma Positive(k: int, step: int)
    requires k > 0 && step > 0
    ensures k * step >= step
  {
    assert k * step == (k - 1) * step + step;
  }

  lemma ThreeSteps(k: int, step: int)
    requires k >= 3 && step > 0
    ensures k * step >= 3 * step
  {
    Positive(k - 2, step);
    assert (k - 2) * step == k * step - 2 * step;
  }

  /** Every instant of the span is in a file. */
  lemma FilesCover(start: int, end: int, weekly: bool, x: int)
    requires start <= x < end
    ensures exists i :: 0 <= i < |Files(start, end, weekly)| &&
                        Files(start, end, weekly)[i] <= x < Files(start, end, weekly)[i] + Span(weekly)
  {
    hide Truncated, Steps;
    TruncatedIsBefore(start, weekly);
    TruncatedIsBefore(end + Span(weekly) - 1, weekly);
    StepsCover(Truncated(start, weekly), Truncated(end + Span(weekly) - 1, weekly), Span(weekly), x);
    var s := Files(start, end, weekly);
    var i :| 0 <= i < |s| && s[i] <= x < s[i] + Span(weekly);
    assert Files(start, end, weekly)[i] <= x;
  }

  /** No file is loaded in vain, and there are at most two if the span is at most one step long. */
  lemma FilesNeeded(start: int, end: int, weekly: bool)
    requires start < end
    ensures forall i :: 0 <= i < |Files(start, end, weekly)| ==>
                          Files(start, end, weekly)[i] < end && start < Files(start, end, weekly)[i] + Span(weekly)
    ensures end - start <= Span(weekly) ==> |Files(start, end, weekly)| <= 2
  {
    var first, stop, step := Truncated(start, weekly), Truncated(end + Span(weekly) - 1, weekly), Span(weekly);
    var k := TruncatedAligned(start, end + step - 1, weekly);
    TruncatedIsBefore(start, weekly);
    TruncatedIsBefore(end + step - 1, weekly);
    StepsAt(first, stop, step, k);
    hide Truncated, Steps;
    if k >= 3 {
      ThreeSteps(k, step);
    }
  }

  // ---------------------------------------------------------------- the date objects

  /** A JavaScript date: milliseconds since 1 January 1970, changed in place. */
  class JsDate {
    var time: int

    constructor (time: int)
      ensures this.time == time
    {
      this.time := time;
    }

    /** setUTCDate(getUTCDate() + n). */
    method ShiftUTCDate(n: int)
      modifies this
      ensures time == old(time) + n * DAY
    {
      time := time + n * DAY;
    }

    /** setUTCMonth(0, n): the n-th day of January, at the same time of day. */
    method SetJanuary(n: int)
      modifies this
      ensures time == (DayFromYear(YearOf(Day(old(time)))) + n - 1) * DAY + old(time) % DAY
    {
      time := (DayFromYear(YearOf(Day(time))) + n - 1) * DAY + time % DAY;
    }

    /** Moves to the first Thursday of the year, at the same time of day. */
    method SetFirstThursday()
      modifies this
      ensures time == FirstThursday(YearOf(Day(old(time)))) * DAY + old(time) % DAY
    {
      hide DayFromYear, YearOf, Day;
      ghost var y, r := YearOf(Day(time)), time % DAY;
      SetJanuary(1);
      DayOf(DayFromYear(y), r);
      YearLength(y);
      OneYear(DayFromYear(y), y);
      if WeekDay(Day(time)) != 4 {
        SetJanuary(1 + (4 - WeekDay(Day(time)) + 7) % 7);
      }
    }

    method GetUTCWeek() returns (week: int)
      ensures week == Week(Day(time))
    {
      var day := Day(time);
      ghost var r := time % DAY;
      var target := new JsDate(time);
      var dayNr := (WeekDay(day) + 6) % 7;
      target.ShiftUTCDate(3 - dayNr);
      assert target.time == Thursday(day) * DAY + r;
      DayOf(Thursday(day), r);
      WeekCounts(day);
      hide Thursday, Day, YearOf, FirstThursday, Week;
      var firstThursday := target.time;
      target.SetFirstThursday();
      week := 1 + Ceiling(firstThursday - target.time, WEEK);
      assert firstThursday - target.time == (Week(day) - 1) * WEEK;
      Whole(Week(day) - 1);
    }

    method GetUTCWeekYear() returns (year: int)
      ensures year == WeekYear(Day(time))
    {
      var target := new JsDate(time);
      target.ShiftUTCDate(3 - (WeekDay(Day(time)) + 6) % 7);
      DayOf(Thursday(Day(time)), time % DAY);
      year := YearOf(Day(target.time));
    }

    method GetUTCISOWeekDate() returns (stamp: string)
      ensures stamp == Label(Day(time))
    {
      WeekCounts(Day(time));
      var week := GetUTCWeek();
      var year := GetUTCWeekYear();
      stamp := NumberText(year) + "-W" + Padded(week);
    }
  }

  function Ceiling(a: int, b: int): int
    requires b > 0
  {
    -((-a) / b)
  }

  lemma DayOf(day: int, r: int)
    requires 0 <= r < DAY
    ensures Day(day * DAY + r) == day && (day * DAY + r) % DAY == r
  {
  }

  lemma Whole(k: int)
    ensures Ceiling(k * WEEK, WEEK) == k
  {
  }

  /** Reads a week date; midnight on the Monday of that week. */
  method ParseMore(s: string) returns (d: JsDate?)
    ensures d == null <==> ParseWeekDate(s) == None
    ensures d != null ==> fresh(d) && d.time == ParseWeekDate(s).value * DAY
  {
    hide WeekStart, NumberOf;
    if !IsWeekDate(s) {
      return null;
    }
    d := WeekDate(NumberOf(s[..4]), NumberOf(s[6..]));
  }

  /** Midnight on the Monday of a week, by its number and year. */
  method WeekDate(year: int, week: int) returns (d: JsDate)
    ensures fresh(d) && d.time == WeekStart(year, week) * DAY
  {
    ghost var first := DayFromYear(UtcYear(year));
    d := new JsDate(DayFromYear(UtcYear(year)) * DAY);
    hide DayFromYear, YearOf;
    DayOf(first, 0);
    var weekDay := WeekDay(Day(d.time));
    d.ShiftUTCDate(4 - if weekDay == 0 then 7 else weekDay);
    ghost var t := FirstWeekThursday(first);
    hide FirstWeekThursday;
    assert d.time == t * DAY;
    DayOf(t, 0);
    d.time := d.time + WEEK * (week + if year == YearOf(Day(d.time)) then -1 else 0);
    d.ShiftUTCDate(-3);
  }

  /** The data file of a day or of a week. */
  datatype File = Daily(day: int) | Weekly(stamp: string)

  /** Cuts an instant down to its day or, by way of its label, to its week. */
  method Truncate(date: JsDate, weekly: bool) returns (d: JsDate)
    requires weekly ==> 1000 <= YearOf(Day(date.time)) <= 9999
    ensures fresh(d) && d.time == Truncated(date.time, weekly)
  {
    if weekly {
      var stamp := date.GetUTCISOWeekDate();
      WeekLabelsRoundTrip(Day(date.time));
      d := ParseMore(stamp);
    } else {
      d := new JsDate(Day(date.time) * DAY);
    }
  }

  /** The files for a span; moves `end` to the last instant that is truncated. */
  method GetFilesAide(start: JsDate, end: JsDate, weekly: bool) returns (files: seq<File>)
    requires weekly ==> 1000 <= YearOf(Day(start.time)) <= 9999 && 1000 <= YearOf(Day(end.time + WEEK - 1)) <= 9999
    modifies end
    ensures end.time == old(end.time) + Span(weekly) - 1
    ensures NamesOf(old(start.time), old(end.time), weekly, files)
    ensures Complete(old(start.time), old(end.time), weekly, files)
    ensures old(start.time) < old(end.time) ==> Needed(old(start.time), old(end.time), weekly, files)
  {
    hide Truncated, Steps, Named, YearOf, FilesFrom, Complete, Needed;
    ghost var from, to := start.time, end.time;
    var step := Span(weekly);
    var now := Truncate(start, weekly);
    end.time := end.time + step - 1;
    var stop := Truncate(end, weekly);
    FilesFromSteps(now.time, stop.time, weekly);
    files := ListFiles(now, stop.time, weekly);
    assert NamesOf(from, to, weekly, files);
    hide NamesOf;
    NamesComplete(from, to, weekly, files);
    if from < to {
      NamesNeeded(from, to, weekly, files);
    }
  }

  /** One file for every step, in order. */
  ghost predicate NamesOf(start: int, end: int, weekly: bool, files: seq<File>)
  {
    && |files| == |Files(start, end, weekly)|
    && forall i :: 0 <= i < |files| ==> files[i] == Named(Files(start, end, weekly)[i], weekly)
  }

  /** Every instant of the span has the file of its day or its week in the list. */
  ghost predicate Complete(start: int, end: int, weekly: bool, files: seq<File>)
  {
    forall x :: start <= x < end ==> (if weekly then Weekly(Label(Day(x))) else Daily(Day(x))) in files
  }

  /** Every file in the list is that of the day or the week of an instant of the span. */
  ghost predicate Needed(start: int, end: int, weekly: bool, files: seq<File>)
  {
    forall f :: f in files ==>
      exists x :: start <= x < end && f == if weekly then Weekly(Label(Day(x))) else Daily(Day(x))
  }

  lemma NamesComplete(start: int, end: int, weekly: bool, files: seq<File>)
    requires NamesOf(start, end, weekly, files)
    ensures Complete(start, end, weekly, files)
  {
    hide Files, Label, Day;
    forall x | start <= x < end
      ensures (if weekly then Weekly(Label(Day(x))) else Daily(Day(x))) in files
    {
      FilesCover(start, end, weekly, x);
      var i :| 0 <= i < |files| && Files(start, end, weekly)[i] <= x < Files(start, end, weekly)[i] + Span(weekly);
      FilesAligned(start, end, weekly, i);
      NameCovers(Files(start, end, weekly)[i], weekly, x);
      assert files[i] in files;
    }
  }

  lemma NamesNeeded(start: int, end: int, weekly: bool, files: seq<File>)
    requires NamesOf(start, end, weekly, files) && start < end
    ensures Needed(start, end, weekly, files)
  {
    hide Files, Label, Day;
    forall f | f in files
      ensures exists x :: start <= x < end && f == if weekly then Weekly(Label(Day(x))) else Daily(Day(x))
    {
      var i :| 0 <= i < |files| && files[i] == f;
      var b := Files(start, end, weekly)[i];
      FilesNeeded(start, end, weekly);
      FilesAligned(start, end, weekly, i);
      var x := if start <= b then b else start;
      NameCovers(b, weekly, x);
      assert start <= x < end && f == if weekly then Weekly(Label(Day(x))) else Daily(Day(x));
    }
  }

  lemma FilesAligned(start: int, end: int, weekly: bool, i: nat)
    requires i < |Files(start, end, weekly)|
    ensures var b := Files(start, end, weekly)[i]; Truncated(b, weekly) == b
  {
    TruncatedTwice(start, weekly);
    StepsAligned(Truncated(start, weekly), Truncated(end + Span(weekly) - 1, weekly), weekly, i);
  }

  lemma TruncatedTwice(t: int, weekly: bool)
    ensures Truncated(Truncated(t, weekly), weekly) == Truncated(t, weekly)
  {
    DayOf(if weekly then Monday(Day(t)) else Day(t), 0);
    if weekly {
      MondayIsMonday(Day(t));
      SameWeek(Day(t), Monday(Day(t)));
    }
  }

  lemma {:induction false} StepsAligned(now: int, stop: int, weekly: bool, i: nat)
    requires Truncated(now, weekly) == now && i < |Steps(now, stop, Span(weekly))|
    ensures var b := Steps(now, stop, Span(weekly))[i]; Truncated(b, weekly) == b
    decreases i
  {
    if i > 0 {
      NextTruncated(now, weekly);
      StepsAligned(now + Span(weekly), stop, weekly, i - 1);
    }
  }

  lemma NextTruncated(t: int, weekly: bool)
    requires Truncated(t, weekly) == t
    ensures Truncated(t + Span(weekly), weekly) == t + Span(weekly)
  {
    var d := Day(t);
    DayOf(d, 0);
    if weekly {
      DayOf(d + 7, 0);
      MondayIsMonday(d);
      MondayIsMonday(d + 7);
    } else {
      DayOf(d + 1, 0);
    }
  }

  /** The file that begins at an aligned instant is the file of every instant within the step. */
  lemma NameCovers(begin: int, weekly: bool, x: int)
    requires Truncated(begin, weekly) == begin && begin <= x < begin + Span(weekly)
    ensures Named(begin, weekly) == if weekly then Weekly(Label(Day(x))) else Daily(Day(x))
  {
    hide Label;
    var d := Day(begin);
    DayOf(d, 0);
    if weekly {
      assert d <= Day(x) < d + 7;
      MondayIsMonday(d);
      SameWeek(d, Day(x));
      MondayHasLabel(Day(x));
    }
  }

  function FilesFrom(now: int, stop: int, weekly: bool): seq<File>
    decreases stop - now
  {
    if now >= stop then [] else [Named(now, weekly)] + FilesFrom(now + Span(weekly), stop, weekly)
  }

  lemma {:induction false} FilesFromSteps(now: int, stop: int, weekly: bool)
    ensures var begins := Steps(now, stop, Span(weekly));
            && |FilesFrom(now, stop, weekly)| == |begins|
            && forall i :: 0 <= i < |begins| ==> FilesFrom(now, stop, weekly)[i] == Named(begins[i], weekly)
    decreases stop - now
  {
    hide Named;
    if now < stop {
      FilesFromSteps(now + Span(weekly), stop, weekly);
    }
  }

  method ListFiles(now: JsDate, stop: int, weekly: bool) returns (files: seq<File>)
    modifies now
    ensures files == FilesFrom(old(now.time), stop, weekly)
  {
    hide Named;
    files := [];
    ghost var all := FilesFrom(now.time, stop, weekly);
    while now.time < stop
      invariant all == files + FilesFrom(now.time, stop, weekly)
      decreases stop - now.time
    {
      var file := NameOf(now, weekly);
      files := files + [file];
      now.time := now.time + Span(weekly);
    }
  }

  method NameOf(now: JsDate, weekly: bool) returns (file: File)
    ensures file == Named(now.time, weekly)
  {
    if weekly {
      var stamp := now.GetUTCISOWeekDate();
      file := Weekly(stamp);
    } else {
      file := Daily(Day(now.time));
    }
  }

  function Named(begin: int, weekly: bool): File
  {
    if weekly then Weekly(Label(Day(begin))) else Daily(Day(begin))
  }
}

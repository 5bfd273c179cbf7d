/** UTC days: instants in nanoseconds since the epoch, and the calendar dates they fall on. */
module Calendar {
  import opened Disk

  const DAY: nat := 86400 * NANOS

  /** A date of the Gregorian calendar. */
  datatype Date = Date(year: nat, month: nat, day: nat)
  {
    predicate Valid()
    {
      1 <= month <= 12 && 1 <= day <= DaysIn(year, month)
    }
  }

  const EPOCH: Date := Date(1970, 1, 1)

  predicate IsLeap(year: nat)
  {
    year % 4 == 0 && (year % 100 != 0 || year % 400 == 0)
  }

  function DaysIn(year: nat, month: nat): nat
  {
    if month == 2 then (if IsLeap(year) then 29 else 28)
    else if month in {4, 6, 9, 11} then 30
    else 31
  }

  function NextDay(date: Date): Date
  {
    if date.day < DaysIn(date.year, date.month) then date.(day := date.day + 1)
    else if date.month < 12 then Date(date.year, date.month + 1, 1)
    else Date(date.year + 1, 1, 1)
  }

  /** The date some days after the epoch. */
  function Civil(days: nat): Date
  {
    if days == 0 then EPOCH else NextDay(Civil(days - 1))
  }

  /** The date an instant falls on. */
  function DateAt(instant: nat): Date
  {
    Civil(instant / DAY)
  }

  /** The leap years before a year. */
  function LeapsBefore(year: nat): int
    requires year > 0
  {
    (year - 1) / 4 - (year - 1) / 100 + (year - 1) / 400
  }

  /** The days of a year before a month. */
  function DaysBefore(year: nat, month: nat): nat
  {
    if month <= 1 then 0 else DaysBefore(year, month - 1) + DaysIn(year, month - 1)
  }

  /** The number of a date in closed form: years, leap years among them, months and days. */
  function Ordinal(date: Date): int
    requires date.year > 0
  {
    365 * (date.year - 1970) + LeapsBefore(date.year) - LeapsBefore(1970) + DaysBefore(date.year, date.month)
    + date.day - 1
  }

  lemma YearHasItsDays(year: nat)
    ensures DaysBefore(year, 12) + 31 == if IsLeap(year) then 366 else 365
  {
    assert DaysBefore(year, 1) == 0;
    assert DaysBefore(year, 2) == 31;
    assert DaysBefore(year, 3) == 31 + DaysIn(year, 2);
    assert DaysBefore(year, 4) == 62 + DaysIn(year, 2);
    assert DaysBefore(year, 5) == 92 + DaysIn(year, 2);
    assert DaysBefore(year, 6) == 123 + DaysIn(year, 2);
    assert DaysBefore(year, 7) == 153 + DaysIn(year, 2);
    assert DaysBefore(year, 8) == 184 + DaysIn(year, 2);
    assert DaysBefore(year, 9) == 215 + DaysIn(year, 2);
    assert DaysBefore(year, 10) == 245 + DaysIn(year, 2);
    assert DaysBefore(year, 11) == 276 + DaysIn(year, 2);
  }

  lemma MultiplesBefore(year: nat, k: nat)
    requires year > 0 && k > 0
    ensures year / k == (year - 1) / k + if year % k == 0 then 1 else 0
  {
    var q, r := (year - 1) / k, (year - 1) % k;
    assert year == q * k + r + 1;
    if r + 1 == k {
      assert year == (q + 1) * k;
    }
    Quotient(year, k, if r + 1 == k then q + 1 else q, if r + 1 == k then 0 else r + 1);
  }

  lemma Quotient(n: nat, k: nat, q: nat, r: nat)
    requires r < k && n == q * k + r
    ensures n / k == q && n % k == r
  {
    var a := n / k;
    assert n == a * k + n % k;
    assert (q + 1) * k == q * k + k && (a + 1) * k == a * k + k;
    if a > q {
      Times(q + 1, a, k);
    } else if a < q {
      Times(a + 1, q, k);
    }
  }

  lemma Times(a: nat, b: nat, k: nat)
    requires a <= b
    ensures a * k <= b * k
  {
  }

  lemma OneMoreLeap(year: nat)
    requires year > 0
    ensures LeapsBefore(year + 1) == LeapsBefore(year) + if IsLeap(year) then 1 else 0
  {
    MultiplesBefore(year, 4);
    MultiplesBefore(year, 100);
    MultiplesBefore(year, 400);
    Multiples(year);
  }

  lemma Multiples(year: nat)
    ensures year % 400 == 0 ==> year % 100 == 0
    ensures year % 100 == 0 ==> year % 4 == 0
  {
    if year % 400 == 0 {
      Quotient(year, 100, year / 400 * 4, 0);
    }
    if year % 100 == 0 {
      Quotient(year, 4, year / 100 * 25, 0);
    }
  }

  lemma NextDayIsNext(date: Date)
    requires date.year > 0 && date.Valid()
    ensures NextDay(date).year > 0 && NextDay(date).Valid() && Ordinal(NextDay(date)) == Ordinal(date) + 1
  {
    YearHasItsDays(date.year);
    OneMoreLeap(date.year);
    hide LeapsBefore, IsLeap;
  }

  /** Counting days from the epoch one by one, by the lengths of the months, agrees with the closed form. */
  lemma {:induction false} CivilIsOrdinal(days: nat)
    ensures Civil(days).year > 0 && Civil(days).Valid() && Ordinal(Civil(days)) == days
  {
    if days > 0 {
      CivilIsOrdinal(days - 1);
      NextDayIsNext(Civil(days - 1));
    }
  }

  /** Two instants fall on the same date exactly when they fall in the same period of 86400 seconds. */
  lemma SameDate(a: nat, b: nat)
    ensures DateAt(a) == DateAt(b) <==> a / DAY == b / DAY
  {
    hide Ordinal, Civil;
    CivilIsOrdinal(a / DAY);
    CivilIsOrdinal(b / DAY);
  }

  lemma DateIsValid(instant: nat)
    ensures DateAt(instant).Valid()
  {
    CivilIsOrdinal(instant / DAY);
  }
}

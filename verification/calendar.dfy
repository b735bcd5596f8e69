/** Calendar dates as `java.time.LocalDate` treats them: the proleptic
    Gregorian calendar, `plusDays(1)` and the ISO-8601 text of `toString()`. */
module Calendar {
  import opened Text

  datatype Date = Date(year: int, month: int, day: int)

  predicate IsLeap(year: int) {
    year % 4 == 0 && (year % 100 != 0 || year % 400 == 0)
  }

  function DaysIn(year: int, month: int): int {
    if month == 2 then (if IsLeap(year) then 29 else 28)
    else if month == 4 || month == 6 || month == 9 || month == 11 then 30
    else 31
  }

  /** A date the system clock can report (years of the current era). */
  predicate Valid(d: Date) {
    d.year >= 1 && 1 <= d.month <= 12 && 1 <= d.day <= DaysIn(d.year, d.month)
  }

  /** Strict chronological order of dates. */
  predicate Before(a: Date, b: Date) {
    a.year < b.year
    || (a.year == b.year && (a.month < b.month || (a.month == b.month && a.day < b.day)))
  }

  /** `plusDays(1)`: the next calendar day, which no valid date lies strictly between. */
  function Next(d: Date): (r: Date)
    requires Valid(d)
    ensures Valid(r)
    ensures Before(d, r)
    ensures forall e :: Valid(e) && Before(d, e) ==> e == r || Before(r, e)
  {
    if d.day < DaysIn(d.year, d.month) then Date(d.year, d.month, d.day + 1)
    else if d.month < 12 then Date(d.year, d.month + 1, 1)
    else Date(d.year + 1, 1, 1)
  }

  /** The year as `LocalDate.toString()` writes it: four digits, or `+` and all
      digits beyond year 9999. */
  function YearText(year: int): (s: string)
    requires year >= 1
    ensures year <= 9999 ==> |s| == 4
    ensures year > 9999 ==> |s| >= 6
  {
    if year <= 9999 then Pad4(year)
    else
      var digits := NatText(year);
      assert |digits| >= 5 by { NatTextLength(year); }
      "+" + digits
  }

  lemma {:induction false} NatTextLength(n: nat)
    requires n >= 10000
    ensures |NatText(n)| >= 5
  {
    if n / 10 >= 10000 {
      NatTextLength(n / 10);
    } else {
      assert NatText(n / 10 / 10 / 10 / 10) == [DigitChar(n / 10 / 10 / 10 / 10)];
    }
  }

  /** `LocalDate.toString()`: `yyyy-MM-dd`. */
  function Iso(d: Date): (s: string)
    requires Valid(d)
    ensures d.year <= 9999 ==> |s| == 10
    ensures d.year > 9999 ==> |s| > 10
  {
    YearText(d.year) + "-" + Pad2(d.month) + "-" + Pad2(d.day)
  }

  /** The day the price screens and the optimisation view-model ask prices
      for: from 20:00 on, the next day's prices (already published) are shown. */
  function DisplayDay(hour: int, today: Date): (d: Date)
    requires Valid(today)
    ensures Valid(d)
    ensures d == today <==> hour < 20
    ensures d != today ==> d == Next(today)
  {
    if hour >= 20 then Next(today) else today
  }
}

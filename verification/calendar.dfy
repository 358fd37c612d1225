/** Calendar dates and instants, standing in for java.time.LocalDate and LocalDateTime. */
module Calendar {

  /** A proleptic ISO date. */
  datatype Date = Date(year: int, month: int, day: int)
  {
    /** The month lies in 1..12 and the day is at least 1 (all a valid LocalDate needs here). */
    predicate WellFormed() { 1 <= month <= 12 && 1 <= day <= 31 }
  }

  /** An instant: a date plus the time elapsed since midnight (in any fixed unit). */
  datatype DateTime = DateTime(date: Date, time: nat)

  /** `LocalDate.isAfter`: strictly later in calendar order. */
  predicate IsAfter(a: Date, b: Date)
  {
    a.year > b.year
    || (a.year == b.year && a.month > b.month)
    || (a.year == b.year && a.month == b.month && a.day > b.day)
  }

  /** Java's `int` division, which truncates toward zero. */
  function TruncDiv(n: int, d: int): (q: int)
    requires d > 0
    ensures n >= 0 ==> q == n / d
    ensures n < 0 ==> q == -((-n) / d)
  {
    if n >= 0 then n / d else -((-n) / d)
  }

  /**
   * `Period.between(start, end).getYears()`: whole months between the two dates,
   * less one when the day of the month has not been reached yet, in whole years.
   */
  function YearsBetween(start: Date, end: Date): int
  {
    var months := (end.year * 12 + end.month) - (start.year * 12 + start.month);
    var days := end.day - start.day;
    var adjusted :=
      if months > 0 && days < 0 then months - 1
      else if months < 0 && days > 0 then months + 1
      else months;
    TruncDiv(adjusted, 12)
  }

  /** Completed birthdays: the usual reading of an age in whole years. */
  function BirthdaysPassed(birth: Date, today: Date): int
  {
    var reached := today.month > birth.month || (today.month == birth.month && today.day >= birth.day);
    today.year - birth.year - (if reached then 0 else 1)
  }

  /** For a birth date not after today, the Period-based age is the number of birthdays passed. */
  lemma {:induction false} YearsBetweenIsBirthdays(birth: Date, today: Date)
    requires birth.WellFormed() && today.WellFormed()
    requires !IsAfter(birth, today)
    ensures YearsBetween(birth, today) == BirthdaysPassed(birth, today)
    ensures YearsBetween(birth, today) >= 0
  {
    var y := today.year - birth.year;
    var months := (today.year * 12 + today.month) - (birth.year * 12 + birth.month);
    assert months == 12 * y + (today.month - birth.month);
    var days := today.day - birth.day;
    var adjusted :=
      if months > 0 && days < 0 then months - 1
      else if months < 0 && days > 0 then months + 1
      else months;
    if today.month > birth.month || (today.month == birth.month && today.day >= birth.day) {
      assert 12 * y <= adjusted < 12 * y + 12;
      assert adjusted / 12 == y;
    } else {
      assert y >= 1;
      assert 12 * (y - 1) <= adjusted < 12 * y;
      assert adjusted / 12 == y - 1;
    }
  }
}

/**
 * `get_age` of the monolithic auth helpers: whole years between a birth
 * date and today, today being a parameter.
 */
module AuthUtils {
  import opened Dates

  /** `(a.month, a.day) < (b.month, b.day)`, Python's tuple comparison. */
  predicate MonthDayBefore(a: Date, b: Date)
  {
    a.month < b.month || (a.month == b.month && a.day < b.day)
  }

  /** `today.year - born.year - ((today.month, today.day) < (born.month, born.day))`. */
  function Age(today: Date, born: Date): (age: int)
    ensures !MonthDayBefore(today, born) ==> age == today.year - born.year
    ensures MonthDayBefore(today, born) ==> age == today.year - born.year - 1
  {
    today.year - born.year - (if MonthDayBefore(today, born) then 1 else 0)
  }

  /** On the day of birth the age is 0. */
  lemma AgeAtBirth(born: Date)
    ensures Age(born, born) == 0
  {
  }

  /** The age never decreases as today moves forward. */
  lemma AgeMonotone(born: Date, d1: Date, d2: Date)
    requires NotAfter(d1, d2)
    ensures Age(d1, born) <= Age(d2, born)
  {
  }

  /** From the day of birth on, the age is never negative. */
  lemma AgeNonNegative(born: Date, today: Date)
    requires NotAfter(born, today)
    ensures Age(today, born) >= 0
  {
    AgeMonotone(born, born, today);
  }

  /** The age is `n` exactly from the `n`-th birthday up to the day before the next one. */
  lemma AgeIsCompletedYears(born: Date, today: Date, n: int)
    ensures Age(today, born) >= n
      <==> NotAfter(Date(born.year + n, born.month, born.day), today)
  {
  }
}

/**
 * Proleptic Gregorian calendar dates, day numbers, one-day steps, and the
 * "YYYY-MM-DD" text forms used by the generators and the date shifter.
 */
module Calendar {
  import opened Wrappers
  import opened Decimal
  import opened Ordering

  datatype Date = Date(year: int, month: int, day: int)

  predicate IsLeap(y: int) {
    y % 4 == 0 && (y % 100 != 0 || y % 400 == 0)
  }

  function MonthLength(y: int, m: int): (n: int)
    requires 1 <= m <= 12
    ensures 28 <= n <= 31
  {
    if m == 2 then (if IsLeap(y) then 29 else 28)
    else if m == 4 || m == 6 || m == 9 || m == 11 then 30
    else 31
  }

  function YearLength(y: int): int {
    if IsLeap(y) then 366 else 365
  }

  /** A calendar date from year 1 on. */
  predicate Proper(d: Date) {
    d.year >= 1 && 1 <= d.month <= 12 && 1 <= d.day <= MonthLength(d.year, d.month)
  }

  /** A date inside 0001-01-01 ..= 9999-12-31, the range of four-digit years. */
  predicate Valid(d: Date) {
    Proper(d) && d.year <= 9999
  }

  function DaysBeforeYear(y: int): int
    requires y >= 1
  {
    365 * (y - 1) + (y - 1) / 4 - (y - 1) / 100 + (y - 1) / 400
  }

  function DaysBeforeMonth(y: int, m: int): int
    requires 1 <= m <= 12
  {
    [0, 31, 59, 90, 120, 151, 181, 212, 243, 273, 304, 334][m - 1]
      + (if m > 2 && IsLeap(y) then 1 else 0)
  }

  /** Days since 0000-12-31: 0001-01-01 is day 1 (UTC epoch milliseconds / 86400000, shifted). */
  function DayNumber(d: Date): (r: int)
    requires Proper(d)
    ensures r >= 1
  {
    DayOfYearBounds(d);
    DaysBeforeYear(d.year) + DaysBeforeMonth(d.year, d.month) + d.day
  }

  /** The last day a four-digit year can name. */
  const MaxDate: Date := Date(9999, 12, 31)

  lemma YearStep(y: int)
    requires y >= 1
    ensures DaysBeforeYear(y + 1) == DaysBeforeYear(y) + YearLength(y)
  {
    StepBy4(y);
    StepBy100(y);
    StepBy400(y);
  }

  lemma StepBy4(y: int)
    ensures y / 4 - (y - 1) / 4 == if y % 4 == 0 then 1 else 0
  {
  }

  lemma StepBy100(y: int)
    ensures y / 100 - (y - 1) / 100 == if y % 100 == 0 then 1 else 0
  {
  }

  lemma StepBy400(y: int)
    ensures y / 400 - (y - 1) / 400 == if y % 400 == 0 then 1 else 0
  {
  }

  lemma MonthStep(y: int, m: int)
    requires 1 <= m < 12
    ensures DaysBeforeMonth(y, m + 1) == DaysBeforeMonth(y, m) + MonthLength(y, m)
  {
  }

  lemma LastMonth(y: int)
    ensures DaysBeforeMonth(y, 12) + MonthLength(y, 12) == YearLength(y)
  {
  }

  /** The day after d (Kotlin: cur += 86_400_000 in UTC; Python: date + timedelta(days=1)). */
  function NextDay(d: Date): (r: Date)
    requires Proper(d)
    ensures Proper(r) && DayNumber(r) == DayNumber(d) + 1
  {
    if d.day < MonthLength(d.year, d.month) then Date(d.year, d.month, d.day + 1)
    else if d.month < 12 then MonthStep(d.year, d.month); Date(d.year, d.month + 1, 1)
    else YearStep(d.year); LastMonth(d.year); Date(d.year + 1, 1, 1)
  }

  /** The day before d. */
  function PrevDay(d: Date): (r: Date)
    requires Proper(d) && DayNumber(d) > 1
    ensures Proper(r) && DayNumber(r) == DayNumber(d) - 1
  {
    if d.day > 1 then Date(d.year, d.month, d.day - 1)
    else if d.month > 1 then
      MonthStep(d.year, d.month - 1);
      Date(d.year, d.month - 1, MonthLength(d.year, d.month - 1))
    else
      assert d.year > 1;
      YearStep(d.year - 1);
      LastMonth(d.year - 1);
      Date(d.year - 1, 12, 31)
  }

  /** d moved by n days. */
  function ShiftBy(d: Date, n: int): (r: Date)
    requires Proper(d) && DayNumber(d) + n >= 1
    ensures Proper(r) && DayNumber(r) == DayNumber(d) + n
    decreases if n >= 0 then n else -n
  {
    if n == 0 then d
    else if n > 0 then ShiftBy(NextDay(d), n - 1)
    else ShiftBy(PrevDay(d), n + 1)
  }

  lemma DayOfYearBounds(d: Date)
    requires Proper(d)
    ensures 1 <= DaysBeforeMonth(d.year, d.month) + d.day <= YearLength(d.year)
  {
  }

  lemma {:induction false} YearsMonotone(y1: int, y2: int)
    requires 1 <= y1 < y2
    ensures DaysBeforeYear(y1) + YearLength(y1) <= DaysBeforeYear(y2)
    decreases y2 - y1
  {
    YearStep(y1);
    if y1 + 1 < y2 {
      YearsMonotone(y1 + 1, y2);
    }
  }

  lemma {:induction false} MonthsMonotone(y: int, m1: int, m2: int)
    requires 1 <= m1 < m2 <= 12
    ensures DaysBeforeMonth(y, m1) + MonthLength(y, m1) <= DaysBeforeMonth(y, m2)
    decreases m2 - m1
  {
    MonthStep(y, m1);
    if m1 + 1 < m2 {
      MonthsMonotone(y, m1 + 1, m2);
    }
  }

  /** Different dates have different day numbers: a date is determined by its day number. */
  lemma DayNumberInjective(a: Date, b: Date)
    requires Proper(a) && Proper(b) && DayNumber(a) == DayNumber(b)
    ensures a == b
  {
    DayOfYearBounds(a);
    DayOfYearBounds(b);
    if a.year < b.year {
      YearsMonotone(a.year, b.year);
    } else if b.year < a.year {
      YearsMonotone(b.year, a.year);
    } else if a.month < b.month {
      MonthsMonotone(a.year, a.month, b.month);
    } else if b.month < a.month {
      MonthsMonotone(a.year, b.month, a.month);
    }
  }

  /** Day numbers start at 1. */
  /** Year 10000 and later lie beyond MaxDate's day number. */
  lemma ValidByDayNumber(d: Date)
    requires Proper(d)
    ensures Valid(d) <==> DayNumber(d) <= DayNumber(MaxDate)
  {
    DayOfYearBounds(d);
    if d.year > 9999 {
      assert DaysBeforeYear(10000) == DayNumber(MaxDate);
      if d.year > 10000 {
        YearsMonotone(10000, d.year);
      }
    } else if d.year < 9999 {
      YearsMonotone(d.year, 9999);
    }
  }

  // ---------- "YYYY-MM-DD" with a four-digit, zero-padded year ----------

  /** SimpleDateFormat("yyyy-MM-dd").format / dayjs format('YYYY-MM-DD'). */
  function Iso(d: Date): string
    requires Proper(d)
  {
    Padded(d.year, 4) + "-" + Padded(d.month, 2) + "-" + Padded(d.day, 2)
  }

  /** Strict parse of exactly "DDDD-DD-DD" naming a calendar date from year 1 on. */
  function ParseIso(s: string): (r: Option<Date>)
    ensures r.Some? ==> Proper(r.value)
  {
    if |s| == 10 && s[4] == '-' && s[7] == '-'
       && AllDigits(s[..4]) && AllDigits(s[5..7]) && AllDigits(s[8..])
    then
      var d := Date(ParseDigits(s[..4]), ParseDigits(s[5..7]), ParseDigits(s[8..]));
      if Proper(d) then Some(d) else None
    else None
  }

  lemma IsoIsFixed(d: Date)
    requires Valid(d)
    ensures Iso(d) == Fixed(d.year, 4) + "-" + Fixed(d.month, 2) + "-" + Fixed(d.day, 2)
  {
    assert Pow10(4) == 10000 && Pow10(2) == 100;
    PaddedIsFixed(d.year, 4);
    PaddedIsFixed(d.month, 2);
    PaddedIsFixed(d.day, 2);
  }

  /** Formatting then parsing gives the date back. */
  lemma ParseIsoOfIso(d: Date)
    requires Valid(d)
    ensures ParseIso(Iso(d)) == Some(d)
  {
    IsoParts(d);
    assert Pow10(4) == 10000 && Pow10(2) == 100;
    FixedOfSmall(d.year, 4);
    FixedOfSmall(d.month, 2);
    FixedOfSmall(d.day, 2);
  }

  /** Where the three fields sit in the printed date. */
  lemma IsoParts(d: Date)
    requires Valid(d)
    ensures var s := Iso(d);
      |s| == 10 && s[4] == '-' && s[7] == '-'
      && s[..4] == Fixed(d.year, 4) && s[5..7] == Fixed(d.month, 2) && s[8..] == Fixed(d.day, 2)
  {
    IsoIsFixed(d);
  }

  /** Every string the strict parser accepts is already the formatted form of its date. */
  lemma IsoOfParseIso(s: string)
    requires ParseIso(s).Some?
    ensures Valid(ParseIso(s).value) && Iso(ParseIso(s).value) == s
  {
    var d := ParseIso(s).value;
    FixedOfParse(s[..4]);
    FixedOfParse(s[5..7]);
    FixedOfParse(s[8..]);
    assert d.year < 10000 by {
      assert ParseDigits(s[..4]) < Pow10(4) by { ParseBound(s[..4]); }
    }
    IsoIsFixed(d);
    assert s == s[..4] + "-" + s[5..7] + "-" + s[8..];
  }

  lemma {:induction false} ParseBound(t: string)
    requires AllDigits(t)
    ensures ParseDigits(t) < Pow10(|t|)
  {
    if |t| > 0 {
      ParseBound(t[..|t| - 1]);
    }
  }

  /** Distinct dates print differently. */
  lemma IsoInjective(a: Date, b: Date)
    requires Valid(a) && Valid(b) && Iso(a) == Iso(b)
    ensures a == b
  {
    ParseIsoOfIso(a);
    ParseIsoOfIso(b);
  }

  // ---------- order of the text forms ----------

  lemma {:induction false} FixedLt(n: nat, m: nat, k: nat)
    requires n < m < Pow10(k)
    ensures Lt(Fixed(n, k), Fixed(m, k))
  {
    assert k >= 1;
    assert m / 10 < Pow10(k - 1);
    var dn, dm := [DigitChar(n % 10)], [DigitChar(m % 10)];
    if n / 10 < m / 10 {
      FixedLt(n / 10, m / 10, k - 1);
      LtAppend(Fixed(n / 10, k - 1), Fixed(m / 10, k - 1), dn, dm);
    } else {
      assert n / 10 == m / 10 && n % 10 < m % 10;
      assert Lt(dn, dm) by {
        assert dn[1..] == [] && dm[1..] == [];
      }
      LtSamePrefix(Fixed(n / 10, k - 1), dn, dm);
    }
  }

  /** An earlier day number means an earlier (year, month, day) triple. */
  lemma DayNumberOrder(a: Date, b: Date)
    requires Proper(a) && Proper(b) && DayNumber(a) < DayNumber(b)
    ensures a.year < b.year || (a.year == b.year && (a.month < b.month || (a.month == b.month && a.day < b.day)))
  {
    DayOfYearBounds(a);
    DayOfYearBounds(b);
    if a.year > b.year {
      YearsMonotone(b.year, a.year);
    } else if a.year == b.year && a.month > b.month {
      MonthsMonotone(a.year, b.month, a.month);
    }
  }

  lemma YearDecides(ya: string, yb: string, ra: string, rb: string)
    requires |ya| == |yb| && Lt(ya, yb)
    ensures Lt(ya + ra, yb + rb)
  {
    LtAppend(ya, yb, ra, rb);
  }

  lemma MonthDecides(y: string, ma: string, mb: string, da: string, db: string)
    requires |ma| == |mb| && Lt(ma, mb)
    ensures Lt(y + "-" + ma + "-" + da, y + "-" + mb + "-" + db)
  {
    LtAppend(ma, mb, "-" + da, "-" + db);
    LtSamePrefix(y + "-", ma + ("-" + da), mb + ("-" + db));
    assert y + "-" + ma + "-" + da == (y + "-") + (ma + ("-" + da));
    assert y + "-" + mb + "-" + db == (y + "-") + (mb + ("-" + db));
  }

  lemma DayDecides(y: string, m: string, da: string, db: string)
    requires Lt(da, db)
    ensures Lt(y + "-" + m + "-" + da, y + "-" + m + "-" + db)
  {
    LtSamePrefix(y + "-" + m + "-", da, db);
  }

  function FixedForm(d: Date): string
    requires Valid(d)
  {
    Fixed(d.year, 4) + "-" + Fixed(d.month, 2) + "-" + Fixed(d.day, 2)
  }

  lemma FixedFormLt(a: Date, b: Date)
    requires Valid(a) && Valid(b)
    requires a.year < b.year || (a.year == b.year && (a.month < b.month || (a.month == b.month && a.day < b.day)))
    ensures Lt(FixedForm(a), FixedForm(b))
  {
    if a.year < b.year {
      FixedFormLtYear(a, b);
    } else if a.month < b.month {
      FixedFormLtMonth(a, b);
    } else {
      FixedFormLtDay(a, b);
    }
  }

  lemma FixedFormLtYear(a: Date, b: Date)
    requires Valid(a) && Valid(b) && a.year < b.year
    ensures Lt(FixedForm(a), FixedForm(b))
  {
    assert Pow10(4) == 10000;
    var ya, yb := Fixed(a.year, 4), Fixed(b.year, 4);
    var ma, mb := Fixed(a.month, 2), Fixed(b.month, 2);
    var da, db := Fixed(a.day, 2), Fixed(b.day, 2);
    FixedLt(a.year, b.year, 4);
    YearDecides(ya, yb, "-" + ma + "-" + da, "-" + mb + "-" + db);
    assert FixedForm(a) == ya + ("-" + ma + "-" + da);
    assert FixedForm(b) == yb + ("-" + mb + "-" + db);
  }

  lemma FixedFormLtMonth(a: Date, b: Date)
    requires Valid(a) && Valid(b) && a.year == b.year && a.month < b.month
    ensures Lt(FixedForm(a), FixedForm(b))
  {
    assert Pow10(2) == 100;
    FixedLt(a.month, b.month, 2);
    MonthDecides(Fixed(a.year, 4), Fixed(a.month, 2), Fixed(b.month, 2), Fixed(a.day, 2), Fixed(b.day, 2));
  }

  lemma FixedFormLtDay(a: Date, b: Date)
    requires Valid(a) && Valid(b) && a.year == b.year && a.month == b.month && a.day < b.day
    ensures Lt(FixedForm(a), FixedForm(b))
  {
    assert Pow10(2) == 100;
    FixedLt(a.day, b.day, 2);
    DayDecides(Fixed(a.year, 4), Fixed(a.month, 2), Fixed(a.day, 2), Fixed(b.day, 2));
  }

  /** Text order of the formatted dates agrees with calendar order. */
  lemma IsoLt(a: Date, b: Date)
    requires Valid(a) && Valid(b) && DayNumber(a) < DayNumber(b)
    ensures Lt(Iso(a), Iso(b))
  {
    DayNumberOrder(a, b);
    IsoIsFixed(a);
    IsoIsFixed(b);
    FixedFormLt(a, b);
  }

  // ---------- inclusive day ranges ----------

  /** Day i from `first`, formatted. */
  function DayText(first: Date): nat -> string
    requires Proper(first)
  {
    (i: nat) => Iso(ShiftBy(first, i))
  }

  /** The formatted dates of n consecutive days from `first`, appended one day at a time. */
  function Days(first: Date, n: nat): (r: seq<string>)
    requires Proper(first)
    ensures |r| == n
  {
    Tabulate(n, DayText(first))
  }

  lemma DaysAt(first: Date, n: nat, i: nat)
    requires Proper(first) && i < n
    ensures Days(first, n)[i] == Iso(ShiftBy(first, i))
  {
    TabulateAt(n, DayText(first), i);
  }

  lemma DaysGrow(first: Date, k: nat)
    requires Proper(first)
    ensures Days(first, k + 1) == Days(first, k) + [Iso(ShiftBy(first, k))]
  {
    assert DayText(first)(k) == Iso(ShiftBy(first, k));
  }

  /** Consecutive days inside the four-digit range print in strictly ascending text order. */
  lemma DaysSorted(first: Date, n: nat)
    requires Proper(first) && n >= 1 && DayNumber(first) + n - 1 <= DayNumber(MaxDate)
    ensures Sorted(Days(first, n))
  {
    var r := Days(first, n);
    forall i | 0 <= i < n ensures Valid(ShiftBy(first, i)) {
      ValidByDayNumber(ShiftBy(first, i));
    }
    forall i, j | 0 <= i < j < n ensures Lt(r[i], r[j]) {
      DaysPairLt(first, n, i, j);
    }
  }

  lemma DaysPairLt(first: Date, n: nat, i: nat, j: nat)
    requires Proper(first) && i < j < n
    requires Valid(ShiftBy(first, i)) && Valid(ShiftBy(first, j))
    ensures Lt(Days(first, n)[i], Days(first, n)[j])
  {
    DaysAt(first, n, i);
    DaysAt(first, n, j);
    IsoLt(ShiftBy(first, i), ShiftBy(first, j));
  }
}

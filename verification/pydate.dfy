/**
 * Python's datetime.strptime and strftime for the formats "%Y-%m-%d" and
 * "%H:%M:%S", as the fixture generator and the date shifter use them.
 * strptime turns each directive into a regular expression, matches it at the
 * start of the string and rejects any unconverted rest; the date or time it
 * names must then exist.
 */
module PyDateTime {
  import opened Wrappers
  import opened Decimal
  import opened Calendar

  predicate InRange(c: char, lo: char, hi: char) { lo <= c <= hi }

  /** The value of a two-digit field. */
  function Two(a: char, b: char): nat
    requires IsDigit(a) && IsDigit(b)
  {
    10 * DigitValue(a) + DigitValue(b)
  }

  /** %m followed by '-': `1[0-2]|0[1-9]|[1-9]`; the month and the text after the dash. */
  function MonthField(t: string): (r: Option<(nat, string)>)
    ensures r.Some? ==> 1 <= r.value.0 <= 12
  {
    if |t| >= 3 && t[2] == '-'
       && ((t[0] == '1' && InRange(t[1], '0', '2')) || (t[0] == '0' && InRange(t[1], '1', '9')))
    then Some((Two(t[0], t[1]), t[3..]))
    else if |t| >= 2 && InRange(t[0], '1', '9') && t[1] == '-' then Some((DigitValue(t[0]), t[2..]))
    else None
  }

  /**
   * %d at the end of the string: `3[01]|[12]\d|0[1-9]|[1-9]| [1-9]`, the first
   * alternative that matches, with nothing left over.
   */
  function DayField(t: string): (r: Option<nat>)
    ensures r.Some? ==> 1 <= r.value <= 31
  {
    if |t| >= 2 && ((t[0] == '3' && InRange(t[1], '0', '1')) || (InRange(t[0], '1', '2') && IsDigit(t[1]))
                    || (t[0] == '0' && InRange(t[1], '1', '9')))
    then (if |t| == 2 then Some(Two(t[0], t[1])) else None)
    else if |t| >= 1 && InRange(t[0], '1', '9') then (if |t| == 1 then Some(DigitValue(t[0])) else None)
    else if |t| >= 2 && t[0] == ' ' && InRange(t[1], '1', '9') then (if |t| == 2 then Some(DigitValue(t[1])) else None)
    else None
  }

  /** datetime.strptime(s, "%Y-%m-%d"): None where Python raises ValueError. */
  function ParseDate(s: string): (r: Option<Date>)
    ensures r.Some? ==> Valid(r.value)
  {
    if |s| >= 5 && AllDigits(s[..4]) && s[4] == '-' then
      match MonthField(s[5..])
      case None => None
      case Some((m, rest)) =>
        match DayField(rest)
        case None => None
        case Some(day) =>
          var d := Date(ParseDigits(s[..4]), m, day);
          ParseBound(s[..4]);
          if Proper(d) then Some(d) else None
    else None
  }

  /** %H followed by ':': `2[0-3]|[0-1]\d|\d`. */
  function HourField(t: string): (r: Option<(nat, string)>)
    ensures r.Some? ==> r.value.0 <= 23
  {
    if |t| >= 3 && t[2] == ':'
       && ((t[0] == '2' && InRange(t[1], '0', '3')) || (InRange(t[0], '0', '1') && IsDigit(t[1])))
    then Some((Two(t[0], t[1]), t[3..]))
    else if |t| >= 2 && IsDigit(t[0]) && t[1] == ':' then Some((DigitValue(t[0]), t[2..]))
    else None
  }

  /** %M followed by ':': `[0-5]\d|\d`. */
  function MinuteField(t: string): (r: Option<(nat, string)>)
    ensures r.Some? ==> r.value.0 <= 59
  {
    if |t| >= 3 && t[2] == ':' && InRange(t[0], '0', '5') && IsDigit(t[1]) then Some((Two(t[0], t[1]), t[3..]))
    else if |t| >= 2 && IsDigit(t[0]) && t[1] == ':' then Some((DigitValue(t[0]), t[2..]))
    else None
  }

  /** %S at the end of the string: `6[0-1]|[0-5]\d|\d`, the first alternative that matches, with nothing left over. */
  function SecondField(t: string): (r: Option<nat>)
    ensures r.Some? ==> r.value <= 61
  {
    if |t| >= 2 && ((t[0] == '6' && InRange(t[1], '0', '1')) || (InRange(t[0], '0', '5') && IsDigit(t[1])))
    then (if |t| == 2 then Some(Two(t[0], t[1])) else None)
    else if |t| >= 1 && IsDigit(t[0]) then (if |t| == 1 then Some(DigitValue(t[0])) else None)
    else None
  }

  /** datetime.strptime(s, "%H:%M:%S").time() as seconds since midnight; seconds 60 and 61 match but name no time. */
  function ParseTime(s: string): (r: Option<nat>)
    ensures r.Some? ==> r.value < 86400
  {
    var hf := HourField(s);
    if hf.None? then None
    else
      var mf := MinuteField(hf.value.1);
      if mf.None? then None
      else
        var sf := SecondField(mf.value.1);
        if sf.None? || sf.value > 59 then None
        else Some(3600 * hf.value.0 + 60 * mf.value.0 + sf.value)
  }

  /** strftime("%H:%M:%S") of the time `sec` seconds after midnight. */
  function TimeText(sec: nat): string {
    Fixed(sec / 3600, 2) + ":" + Fixed(sec / 60 % 60, 2) + ":" + Fixed(sec % 60, 2)
  }

  // ---------- the printed forms read back ----------

  lemma FixedTwo(n: nat)
    requires n < 100
    ensures Fixed(n, 2) == [DigitChar(n / 10), DigitChar(n % 10)]
    ensures Two(DigitChar(n / 10), DigitChar(n % 10)) == n
  {
    assert Fixed(n / 10, 1) == Fixed(n / 100, 0) + [DigitChar(n / 10 % 10)];
  }

  lemma MonthFieldOf(m: nat, rest: string)
    requires 1 <= m <= 12
    ensures MonthField(Fixed(m, 2) + "-" + rest) == Some((m, rest))
  {
    FixedTwo(m);
    var t := Fixed(m, 2) + "-" + rest;
    assert t[0] == DigitChar(m / 10) && t[1] == DigitChar(m % 10) && t[2] == '-' && t[3..] == rest;
  }

  lemma DayFieldOf(day: nat)
    requires 1 <= day <= 31
    ensures DayField(Fixed(day, 2)) == Some(day)
  {
    FixedTwo(day);
  }

  lemma HourFieldOf(h: nat, rest: string)
    requires h <= 23
    ensures HourField(Fixed(h, 2) + ":" + rest) == Some((h, rest))
  {
    FixedTwo(h);
    var t := Fixed(h, 2) + ":" + rest;
    assert t[0] == DigitChar(h / 10) && t[1] == DigitChar(h % 10) && t[2] == ':' && t[3..] == rest;
  }

  lemma MinuteFieldOf(m: nat, rest: string)
    requires m <= 59
    ensures MinuteField(Fixed(m, 2) + ":" + rest) == Some((m, rest))
  {
    FixedTwo(m);
    var t := Fixed(m, 2) + ":" + rest;
    assert t[0] == DigitChar(m / 10) && t[1] == DigitChar(m % 10) && t[2] == ':' && t[3..] == rest;
  }

  lemma SecondFieldOf(x: nat)
    requires x <= 59
    ensures SecondField(Fixed(x, 2)) == Some(x)
  {
    FixedTwo(x);
  }

  /** strptime reads back every date strftime("%Y-%m-%d") prints. */
  lemma ParseDateOfIso(d: Date)
    requires Valid(d)
    ensures ParseDate(Iso(d)) == Some(d)
  {
    var s := Iso(d);
    IsoIsFixed(d);
    assert Pow10(4) == 10000;
    FixedOfSmall(d.year, 4);
    assert s[..4] == Fixed(d.year, 4) && s[4] == '-';
    assert s[5..] == Fixed(d.month, 2) + "-" + Fixed(d.day, 2);
    MonthFieldOf(d.month, Fixed(d.day, 2));
    DayFieldOf(d.day);
  }

  lemma TimeParts(sec: nat)
    requires sec < 86400
    ensures sec / 3600 <= 23 && sec / 60 % 60 <= 59 && sec % 60 <= 59
    ensures 3600 * (sec / 3600) + 60 * (sec / 60 % 60) + sec % 60 == sec
  {
    var q := sec / 60;
    assert sec == 60 * q + sec % 60;
    assert q == 60 * (q / 60) + q % 60;
    assert q / 60 == sec / 3600;
  }

  lemma ParseTimeOfFields(s: string, u: string, v: string, h: nat, m: nat, x: nat)
    requires HourField(s) == Some((h, u)) && MinuteField(u) == Some((m, v)) && SecondField(v) == Some(x) && x <= 59
    ensures ParseTime(s) == Some(3600 * h + 60 * m + x)
  {
  }

  /** strptime reads back every time of day strftime("%H:%M:%S") prints. */
  lemma ParseTimeOfText(sec: nat)
    requires sec < 86400
    ensures ParseTime(TimeText(sec)) == Some(sec)
  {
    var h, m, x := sec / 3600, sec / 60 % 60, sec % 60;
    TimeParts(sec);
    var v := Fixed(x, 2);
    var u := Fixed(m, 2) + ":" + v;
    assert TimeText(sec) == Fixed(h, 2) + ":" + u;
    HourFieldOf(h, u);
    MinuteFieldOf(m, v);
    SecondFieldOf(x);
    ParseTimeOfFields(TimeText(sec), u, v, h, m, x);
  }
}

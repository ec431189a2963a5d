/** "HH:mm" show times: parsing to minutes since midnight and formatting back. */
module TimeOfDay {
  import opened Wrappers
  import opened Decimal
  import opened Arith
  import Ordering

  /** String.split(sep): the fields between separators, at least one. */
  function Split(s: string, sep: char): (r: seq<string>)
    ensures |r| >= 1
    decreases |s|
  {
    if sep !in s then [s]
    else
      var i := Ordering.FirstIndex(s, sep);
      [s[..i]] + Split(s[i + 1..], sep)
  }

  /** Kotlin String.toIntOrNull on ASCII text: an optional sign then one or more digits 0-9, within Int range. */
  function ToIntOrNull(s: string): (r: Option<int>)
    ensures r.Some? ==> -0x8000_0000 <= r.value < 0x8000_0000
  {
    var negative := |s| > 0 && s[0] == '-';
    var body := if |s| > 0 && (s[0] == '-' || s[0] == '+') then s[1..] else s;
    if |body| == 0 || !AllDigits(body) then None
    else
      var n: int := ParseDigits(body);
      var v := if negative then -n else n;
      if -0x8000_0000 <= v < 0x8000_0000 then Some(v) else None
  }

  function OrZero(o: Option<int>): int {
    if o.Some? then o.value else 0
  }

  /** parseMinutes: hours before the first ':' and minutes after it, each 0 when missing or not a number. */
  function ParseMinutes(hhmm: string): int {
    var parts := Split(hhmm, ':');
    var h := OrZero(ToIntOrNull(parts[0]));
    var m := if |parts| > 1 then OrZero(ToIntOrNull(parts[1])) else 0;
    h * 60 + m
  }

  /** Kotlin makeShowTimes: "${(m / 60).toString().padStart(2, '0')}:${(m % 60).toString().padStart(2, '0')}". */
  function FormatHHmm(m: int): string {
    PadStart(IntToString(TruncDiv(m, 60)), 2, '0') + ":" + PadStart(IntToString(TruncRem(m, 60)), 2, '0')
  }

  /** JavaScript mkShowTimes: String(Math.floor(min / 60)).padStart(2, '0') + ':' + String(min % 60).padStart(2, '0'). */
  function JsFormatHHmm(m: int): string {
    PadStart(IntToString(FloorDiv(m, 60)), 2, '0') + ":" + PadStart(IntToString(TruncRem(m, 60)), 2, '0')
  }

  /** Exactly two digits, a colon, two digits. */
  predicate IsHHmm(s: string) {
    |s| == 5 && s[2] == ':' && AllDigits(s[..2]) && AllDigits(s[3..])
  }

  /** The zero-padded "HH:mm" text of h hours and mi minutes. */
  function HHmm(h: nat, mi: nat): string {
    Fixed(h, 2) + ":" + Fixed(mi, 2)
  }

  /** For a time before 100:00 both implementations print the zero-padded "HH:mm" form. */
  lemma FormatHHmmCanonical(m: int)
    requires 0 <= m < 6000
    ensures FormatHHmm(m) == HHmm(m / 60, m % 60)
  {
    TruncAgreesOnNatural(m, 60);
    assert Pow10(2) == 100;
    PaddedIsFixed(m / 60, 2);
    PaddedIsFixed(m % 60, 2);
  }

  /** Within 00:00..99:59 the JavaScript and Kotlin formatters agree, and print exactly "DD:DD". */
  lemma FormatsAgree(m: int)
    requires 0 <= m < 6000
    ensures JsFormatHHmm(m) == FormatHHmm(m)
    ensures IsHHmm(FormatHHmm(m))
  {
    TruncAgreesOnNatural(m, 60);
    FormatHHmmCanonical(m);
  }

  lemma ParseFixedTwo(n: nat)
    requires n < 100
    ensures ToIntOrNull(Fixed(n, 2)) == Some(n)
  {
    assert Pow10(2) == 100;
    FixedOfSmall(n, 2);
    var s := Fixed(n, 2);
    assert IsDigit(s[0]);
  }

  predicate NoColon(s: string) { forall i :: 0 <= i < |s| ==> s[i] != ':' }

  lemma SplitOneColon(hh: string, mm: string)
    requires NoColon(hh) && NoColon(mm)
    ensures Split(hh + ":" + mm, ':') == [hh, mm]
  {
    var s := hh + ":" + mm;
    assert ':' !in hh;
    assert ':' !in mm;
    assert ':' in s by { assert s[|hh|] == ':'; }
    assert s[..|hh|] == hh;
    assert Ordering.FirstIndex(s, ':') == |hh|;
    assert s[|hh| + 1..] == mm;
  }

  lemma ParseMinutesOfHHmm(s: string, h: nat, mi: nat)
    requires h < 100 && mi < 100 && s == HHmm(h, mi)
    ensures ParseMinutes(s) == h * 60 + mi
  {
    var hh := Fixed(h, 2);
    var mm := Fixed(mi, 2);
    SplitOneColon(hh, mm);
    ParseFixedTwo(h);
    ParseFixedTwo(mi);
  }

  lemma HoursAndMinutes(m: int)
    requires 0 <= m < 6000
    ensures m / 60 < 100 && m % 60 < 60 && (m / 60) * 60 + m % 60 == m
  {
  }

  /** parseMinutes reads back what the show-time formatter printed. */
  lemma ParseMinutesOfFormat(m: int)
    requires 0 <= m < 6000
    ensures ParseMinutes(FormatHHmm(m)) == m
  {
    HoursAndMinutes(m);
    FormatHHmmCanonical(m);
    ParseMinutesOfHHmm(FormatHHmm(m), m / 60, m % 60);
  }

  /** Different minutes within 00:00..99:59 give different strings. */
  lemma FormatHHmmInjective(a: int, b: int)
    requires 0 <= a < 6000 && 0 <= b < 6000 && FormatHHmm(a) == FormatHHmm(b)
    ensures a == b
  {
    ParseMinutesOfFormat(a);
    ParseMinutesOfFormat(b);
  }
}

/**
 * Building blocks of the native generator (generateAndReduce in
 * InventoryModule.kt): parameters, the language / format / cinema pools and
 * names, the inclusive date list, show-time scheduling and the per-show draws.
 */
module NativeGen {
  import opened Wrappers
  import opened Decimal
  import opened Arith
  import opened Ordering
  import opened Calendar
  import opened TimeOfDay
  import opened NativeRng
  import opened InventoryTree

  /** GenerateParams after defaulting; the seed is the two's-complement bit pattern of the Int. */
  datatype Params = Params(
    languagesCount: int,
    formatsPerLanguage: int,
    dateStart: string,
    dateEnd: string,
    cinemasCount: int,
    showsPerCinemaPerDay: int,
    includeSeatClasses: bool,
    seed: bv32,
    basePriceINR: int,
    priceJitterPct: real,
    minSeatsPerShow: int,
    maxSeatsPerShow: int,
    showtimeStart: string,
    showtimeEnd: string)

  const LangPool: seq<string> := ["en", "hi", "ta", "te", "ml", "mr", "kn", "bn", "pa", "gu"]
  const FmtPool: seq<string> := ["2d", "3d", "imax", "4dx", "screenx"]
  const Chains: seq<string> := ["PVR", "INOX", "Cinepolis", "Miraj", "Carnival"]
  const Malls: seq<string> := ["Orion", "Phoenix", "Forum", "City Centre", "Mall"]

  // ---------- languages and formats ----------

  /** Language i: the pool code for the first ten, then "l<i+1>". */
  function Language(i: nat): string {
    if i < |LangPool| then LangPool[i] else "l" + NatToString(i + 1)
  }

  function Languages(n: int): (r: seq<string>)
    ensures |r| == Max(n, 0) && forall i :: 0 <= i < |r| ==> r[i] == Language(i)
  {
    seq(Max(n, 0), i requires 0 <= i => Language(i))
  }

  /** Format fi of language li: a rotation of the pool when it is large enough, else "f<fi+1>". */
  function Format(count: int, li: nat, fi: nat): string {
    if count <= |FmtPool| then FmtPool[(li + fi) % |FmtPool|] else "f" + NatToString(fi + 1)
  }

  function Formats(count: int, li: nat): (r: seq<string>)
    ensures |r| == Max(count, 0) && forall fi :: 0 <= fi < |r| ==> r[fi] == Format(count, li, fi)
  {
    seq(Max(count, 0), fi requires 0 <= fi => Format(count, li, fi))
  }

  /** formatsByLang for the first k languages: each code mapped to the formats of its index. */
  function FormatsByLang(k: nat, fmtCount: int): (m: map<string, seq<string>>)
    ensures forall li :: 0 <= li < k ==> Language(li) in m && m[Language(li)] == Formats(fmtCount, li)
  {
    if k == 0 then map[]
    else
      LanguageFresh(k - 1);
      FormatsByLang(k - 1, fmtCount)[Language(k - 1) := Formats(fmtCount, k - 1)]
  }

  /** formatsByLang has no key beyond the first k language codes. */
  lemma {:induction false} FormatsByLangKeys(k: nat, fmtCount: int)
    ensures forall l :: l in FormatsByLang(k, fmtCount) ==> l in Languages(k)
  {
    if k > 0 {
      FormatsByLangKeys(k - 1, fmtCount);
      LanguagesGrow(k - 1);
    }
  }

  lemma LanguageFresh(k: nat)
    ensures forall li :: 0 <= li < k ==> Language(li) != Language(k)
  {
    forall li | 0 <= li < k ensures Language(li) != Language(k) {
      if Language(li) == Language(k) { LanguageInjective(li, k); }
    }
  }

  lemma LanguagesGrow(k: nat)
    ensures Languages(k + 1) == Languages(k) + [Language(k)]
  {
  }

  lemma PoolCodeShape(i: nat)
    requires i < |LangPool|
    ensures |LangPool[i]| == 2 && LangPool[i][0] != 'l'
  {
  }

  /** Different indices give different language codes. */
  lemma LanguageInjective(i: nat, j: nat)
    requires Language(i) == Language(j)
    ensures i == j
  {
    if i >= |LangPool| && j >= |LangPool| {
      assert NatToString(i + 1) == Language(i)[1..];
      assert NatToString(j + 1) == Language(j)[1..];
      NatToStringInjective(i + 1, j + 1);
    }
  }

  lemma LanguagesDistinct(n: int)
    ensures Distinct(Languages(n))
  {
    var r := Languages(n);
    forall i, j | 0 <= i < j < |r| ensures r[i] != r[j] {
      if r[i] == r[j] { LanguageInjective(i, j); }
    }
  }

  lemma FormatsDistinct(count: int, li: nat)
    ensures Distinct(Formats(count, li))
  {
    var r := Formats(count, li);
    forall i, j | 0 <= i < j < |r| ensures r[i] != r[j] {
      if count <= |FmtPool| {
        assert j - i < 5;
      } else if r[i] == r[j] {
        assert NatToString(i + 1) == r[i][1..];
        assert NatToString(j + 1) == r[j][1..];
        NatToStringInjective(i + 1, j + 1);
      }
    }
  }

  predicate ColonFree(s: string) {
    forall k :: 0 <= k < |s| ==> s[k] != ':'
  }

  /** Language codes never contain ':', so "lang::fmt" index keys cannot collide. */
  lemma LanguageColonFree(i: nat)
    ensures ColonFree(Language(i))
  {
    if i >= |LangPool| {
      var s := NatToString(i + 1);
      forall k | 0 <= k < |s| ensures s[k] != ':' { assert IsDigit(s[k]); }
      assert Language(i) == "l" + s;
    }
  }

  /** Format codes never contain ':' either. */
  lemma FormatColonFree(count: int, li: nat, fi: nat)
    ensures ColonFree(Format(count, li, fi))
  {
    if count > |FmtPool| {
      var s := NatToString(fi + 1);
      forall k | 0 <= k < |s| ensures s[k] != ':' { assert IsDigit(s[k]); }
      assert Format(count, li, fi) == "f" + s;
    } else {
      var j := (li + fi) % |FmtPool|;
      assert ColonFree(FmtPool[j]) by {
        assert ColonFree(FmtPool[0]) && ColonFree(FmtPool[1]) && ColonFree(FmtPool[2]);
        assert ColonFree(FmtPool[3]) && ColonFree(FmtPool[4]);
      }
    }
  }

  // ---------- cinemas ----------

  /** "cin_" followed by i + 1 zero-padded to three digits. */
  function CinemaId(i: nat): string {
    "cin_" + Padded(i + 1, 3)
  }

  lemma CinemaIdInjective(i: nat, j: nat)
    requires CinemaId(i) == CinemaId(j)
    ensures i == j
  {
    assert Padded(i + 1, 3) == CinemaId(i)[4..];
    assert Padded(j + 1, 3) == CinemaId(j)[4..];
    PaddedInjective(i + 1, j + 1, 3);
  }

  /** "<chain> <mall> #<i+1>". */
  function CinemaName(chain: nat, mall: nat, i: nat): string
    requires chain < |Chains| && mall < |Malls|
  {
    Chains[chain] + " " + Malls[mall] + " #" + NatToString(i + 1)
  }

  /** The state after k draws. */
  function Advance(s: bv32, k: nat): bv32 {
    if k == 0 then s else Xorshift(Advance(s, k - 1))
  }

  lemma AdvanceNonZero(s: bv32, k: nat)
    requires s != 0
    ensures Advance(s, k) != 0
  {
    if k > 0 {
      AdvanceNonZero(s, k - 1);
      XorshiftNonZero(Advance(s, k - 1));
    }
  }

  /** The cinema list drawn from state s: two picks (chain, mall) per cinema, in index order. */
  function Cinemas(s: bv32, n: nat): (r: seq<(string, string)>)
    ensures |r| == n
  {
    seq(n, i requires 0 <= i < n =>
      DrawIsUnclamped(0, 4, Advance(s, 2 * i + 1));
      DrawIsUnclamped(0, 4, Advance(s, 2 * i + 2));
      (CinemaId(i), CinemaName(Draw(0, 4, Advance(s, 2 * i + 1)), Draw(0, 4, Advance(s, 2 * i + 2)), i)))
  }

  /** Cinema ids are the padded indices, pairwise different. */
  lemma CinemasDistinct(s: bv32, n: nat)
    ensures forall i :: 0 <= i < n ==> Cinemas(s, n)[i].0 == CinemaId(i)
    ensures forall i, j :: 0 <= i < j < n ==> Cinemas(s, n)[i].0 != Cinemas(s, n)[j].0
  {
    forall i, j | 0 <= i < j < n ensures Cinemas(s, n)[i].0 != Cinemas(s, n)[j].0 {
      if CinemaId(i) == CinemaId(j) { CinemaIdInjective(i, j); }
    }
  }

  method BuildCinemas(rng: Rng, n: int) returns (cinemas: seq<(string, string)>)
    requires rng.Valid()
    modifies rng
    ensures rng.Valid()
    ensures cinemas == Cinemas(old(rng.state), Max(n, 0))
    ensures rng.state == Advance(old(rng.state), 2 * Max(n, 0))
  {
    ghost var s0 := rng.state;
    cinemas := [];
    var i := 0;
    while i < n
      invariant 0 <= i <= Max(n, 0)
      invariant rng.Valid() && rng.state == Advance(s0, 2 * i)
      invariant cinemas == Cinemas(s0, i)
    {
      var chain := rng.Pick(|Chains|);
      var mall := rng.Pick(|Malls|);
      cinemas := cinemas + [(CinemaId(i), CinemaName(chain, mall, i))];
      assert cinemas == Cinemas(s0, i + 1);
      i := i + 1;
    }
  }

  // ---------- dates ----------

  /** buildDateList as a value: the formatted days from start to end inclusive, or why there are none. */
  function DateListOf(start: string, end: string): Result<seq<string>> {
    DateListFrom(ParseIso(start), ParseIso(end))
  }

  function DateListFrom(s: Option<Date>, e: Option<Date>): Result<seq<string>>
    requires s.Some? ==> Proper(s.value)
    requires e.Some? ==> Proper(e.value)
  {
    match s
    case None => Err(InvalidDateStart)
    case Some(s) =>
      match e
      case None => Err(InvalidDateEnd)
      case Some(e) =>
        if DayNumber(s) > DayNumber(e) then Err(InvalidRange)
        else Ok(Days(s, DayNumber(e) - DayNumber(s) + 1))
  }

  lemma ShiftStep(first: Date, k: nat)
    requires Proper(first)
    ensures NextDay(ShiftBy(first, k)) == ShiftBy(first, k + 1)
  {
    DayNumberInjective(NextDay(ShiftBy(first, k)), ShiftBy(first, k + 1));
  }

  /** From s to e inclusive: starts at s, ends at e, ascending, and every entry reads back as its day. */
  lemma DaysBetween(s: Date, e: Date, n: nat)
    requires Valid(s) && Valid(e) && DayNumber(s) <= DayNumber(e) && n == DayNumber(e) - DayNumber(s) + 1
    ensures Days(s, n)[0] == Iso(s) && Days(s, n)[n - 1] == Iso(e) && Sorted(Days(s, n))
  {
    LastShift(s, e, n - 1);
    DaysAt(s, n, 0);
    DaysAt(s, n, n - 1);
    ValidByDayNumber(e);
    DaysSorted(s, n);
  }

  lemma LastShift(s: Date, e: Date, m: nat)
    requires Proper(s) && Proper(e) && m == DayNumber(e) - DayNumber(s)
    ensures ShiftBy(s, m) == e && ShiftBy(s, 0) == s
  {
    DayNumberInjective(ShiftBy(s, m), e);
  }

  /** Every entry of the list reads back as its day. */
  lemma DayReadBack(s: Date, n: nat, i: nat)
    requires Proper(s) && i < n && Valid(ShiftBy(s, i))
    ensures ParseIso(Days(s, n)[i]) == Some(ShiftBy(s, i))
  {
    DaysAt(s, n, i);
    ParseIsoOfIso(ShiftBy(s, i));
  }

  /** Each error names the first thing wrong. */
  lemma DateListErrors(start: string, end: string)
    ensures DateListOf(start, end) == Err(InvalidDateStart) <==> ParseIso(start).None?
    ensures DateListOf(start, end) == Err(InvalidDateEnd) <==> ParseIso(start).Some? && ParseIso(end).None?
    ensures DateListOf(start, end) == Err(InvalidRange) <==>
      ParseIso(start).Some? && ParseIso(end).Some? && DayNumber(ParseIso(start).value) > DayNumber(ParseIso(end).value)
  {
  }

  /** A valid range yields the list from start to end one day at a time, in ascending text order. */
  lemma DateListProperties(start: string, end: string, s: Date, e: Date, n: nat)
    requires ParseIso(start) == Some(s) && ParseIso(end) == Some(e) && DayNumber(s) <= DayNumber(e)
    requires n == DayNumber(e) - DayNumber(s) + 1
    ensures DateListOf(start, end) == Ok(Days(s, n))
    ensures Days(s, n)[0] == start && Days(s, n)[n - 1] == end && Sorted(Days(s, n))
  {
    assert DateListOf(start, end) == DateListFrom(Some(s), Some(e));
    IsoOfParseIso(start);
    IsoOfParseIso(end);
    DateListFromIs(s, e, n);
    DaysBetween(s, e, n);
  }

  lemma DateListFromIs(s: Date, e: Date, n: nat)
    requires Proper(s) && Proper(e) && DayNumber(s) <= DayNumber(e) && n == DayNumber(e) - DayNumber(s) + 1
    ensures DateListFrom(Some(s), Some(e)) == Ok(Days(s, n))
  {
  }

  /** buildDateList: parse both ends, refuse a reversed range, then step one day at a time. */
  method BuildDateList(start: string, end: string) returns (r: Result<seq<string>>)
    ensures r == DateListOf(start, end)
  {
    var s := ParseIso(start);
    if s.None? { return Err(InvalidDateStart); }
    var e := ParseIso(end);
    if e.None? { return Err(InvalidDateEnd); }
    var cur := s.value;
    var last := DayNumber(e.value);
    if DayNumber(cur) > last { return Err(InvalidRange); }
    var out: seq<string> := [];
    while DayNumber(cur) <= last
      invariant cur == ShiftBy(s.value, |out|)
      invariant DayNumber(cur) <= last + 1
      invariant out == Days(s.value, |out|)
      decreases last - DayNumber(cur)
    {
      DaysGrow(s.value, |out|);
      ShiftStep(s.value, |out|);
      out := out + [Iso(cur)];
      cur := NextDay(cur);
    }
    assert |out| == last - DayNumber(s.value) + 1;
    DateListFromIs(s.value, e.value, |out|);
    return Ok(out);
  }

  // ---------- show times ----------

  /** The spacing between shows: at least an hour, the window split into n + 1 parts otherwise. */
  function Gap(winStart: int, winEnd: int, n: int): (r: Result<int>)
    ensures r.Ok? <==> n + 1 != 0
    ensures r.Ok? ==> r.value >= 60
    ensures r.Ok? && n >= 0 ==> r.value * (n + 1) <= Max(60 * (n + 1), Max(1, winEnd - winStart))
  {
    var totalWindow := Max(1, winEnd - winStart);
    if n + 1 == 0 then Err(DivisionByZero)
    else
      var g := TruncDiv(totalWindow, n + 1);
      assert n >= 0 ==> g * (n + 1) <= totalWindow by {
        if n >= 0 { TruncAgreesOnNatural(totalWindow, n + 1); }
      }
      Ok(Max(60, g))
  }

  /** Where show i sits before jitter: floor(gap * 0.6) into the window, then i gaps on. */
  function Slot(winStart: int, gap: int, i: nat): int {
    if i == 0 then winStart + (gap * 6) / 10 else Slot(winStart, gap, i - 1) + gap
  }

  /**
   * The minute of the i-th show (before de-duplication), for the state s0 before the first jitter draw.
   * The gap is at least 60 where it is used, so `/` here agrees with Kotlin's truncating division.
   */
  function ShowMinute(s0: bv32, i: nat, winStart: int, winEnd: int, gap: int): int {
    Min(winEnd - 1, Max(winStart, Slot(winStart, gap, i) + Draw(-10, 10, Advance(s0, i + 1))))
  }

  /** The formatted show times in drawing order, before de-duplication. */
  function RawTimes(s0: bv32, n: nat, winStart: int, winEnd: int, gap: int): (r: seq<string>) {
    Tabulate(n, i => FormatHHmm(ShowMinute(s0, i, winStart, winEnd, gap)))
  }

  lemma RawTimesAt(s0: bv32, n: nat, winStart: int, winEnd: int, gap: int, i: nat)
    requires i < n
    ensures RawTimes(s0, n, winStart, winEnd, gap)[i] == FormatHHmm(ShowMinute(s0, i, winStart, winEnd, gap))
  {
    TabulateAt(n, i => FormatHHmm(ShowMinute(s0, i, winStart, winEnd, gap)), i);
  }

  /** For a non-empty window each show minute lies inside it. */
  lemma ShowMinuteInWindow(s0: bv32, i: nat, winStart: int, winEnd: int, gap: int)
    requires winStart < winEnd
    ensures winStart <= ShowMinute(s0, i, winStart, winEnd, gap) <= winEnd - 1
  {
  }

  /** makeShowTimes: distinct, at least one and at most n, exactly the drawn times. */
  lemma ShowTimesShape(s0: bv32, n: nat, winStart: int, winEnd: int, gap: int)
    ensures var raw := RawTimes(s0, n, winStart, winEnd, gap); var ts := Dedup(raw);
      Distinct(ts) && |ts| <= n && (n >= 1 ==> |ts| >= 1)
      && forall t :: t in ts <==> t in raw
  {
    var raw := RawTimes(s0, n, winStart, winEnd, gap);
    DedupProperties(raw);
    if n >= 1 {
      assert raw[0] in Dedup(raw);
    }
  }

  /** One show time inside a window within 00:00..99:59 is "HH:mm" and reads back as a window minute. */
  lemma ShowTimeInWindow(s0: bv32, i: nat, winStart: int, winEnd: int, gap: int)
    requires 0 <= winStart < winEnd <= 6000
    ensures var t := FormatHHmm(ShowMinute(s0, i, winStart, winEnd, gap));
      IsHHmm(t) && winStart <= ParseMinutes(t) <= winEnd - 1
  {
    var m := ShowMinute(s0, i, winStart, winEnd, gap);
    ShowMinuteInWindow(s0, i, winStart, winEnd, gap);
    FormatsAgree(m);
    ParseMinutesOfFormat(m);
  }

  /** Inside a window within 00:00..99:59 every show time is "HH:mm" and reads back as a window minute. */
  lemma ShowTimesInWindow(s0: bv32, n: nat, winStart: int, winEnd: int, gap: int)
    requires 0 <= winStart < winEnd <= 6000
    ensures forall t :: t in Dedup(RawTimes(s0, n, winStart, winEnd, gap)) ==>
      IsHHmm(t) && winStart <= ParseMinutes(t) <= winEnd - 1
  {
    var raw := RawTimes(s0, n, winStart, winEnd, gap);
    DedupProperties(raw);
    forall t | t in Dedup(raw) ensures IsHHmm(t) && winStart <= ParseMinutes(t) <= winEnd - 1 {
      RawTimeInWindow(s0, n, winStart, winEnd, gap, t);
    }
  }

  lemma RawTimeInWindow(s0: bv32, n: nat, winStart: int, winEnd: int, gap: int, t: string)
    requires 0 <= winStart < winEnd <= 6000 && t in RawTimes(s0, n, winStart, winEnd, gap)
    ensures IsHHmm(t) && winStart <= ParseMinutes(t) <= winEnd - 1
  {
    var raw := RawTimes(s0, n, winStart, winEnd, gap);
    var i :| 0 <= i < n && raw[i] == t;
    RawTimesAt(s0, n, winStart, winEnd, gap, i);
    ShowTimeInWindow(s0, i, winStart, winEnd, gap);
  }

  /** The show times as a linked set filled in drawing order: a time already present is not added again. */
  function ShowTimes(s0: bv32, n: nat, winStart: int, winEnd: int, gap: int): seq<string> {
    if n == 0 then []
    else
      var out := ShowTimes(s0, n - 1, winStart, winEnd, gap);
      var t := FormatHHmm(ShowMinute(s0, n - 1, winStart, winEnd, gap));
      if t in out then out else out + [t]
  }

  /** Filling the linked set is de-duplicating the drawn times, keeping first occurrences. */
  lemma {:induction false} ShowTimesAreDedup(s0: bv32, n: nat, winStart: int, winEnd: int, gap: int)
    ensures ShowTimes(s0, n, winStart, winEnd, gap) == Dedup(RawTimes(s0, n, winStart, winEnd, gap))
  {
    if n > 0 {
      ShowTimesAreDedup(s0, n - 1, winStart, winEnd, gap);
      var raw := RawTimes(s0, n, winStart, winEnd, gap);
      assert raw[..|raw| - 1] == RawTimes(s0, n - 1, winStart, winEnd, gap);
    }
  }

  /** makeShowTimes: n jittered, clamped minutes formatted as HH:mm, kept once each in insertion order. */
  method MakeShowTimes(rng: Rng, n: int, winStart: int, winEnd: int, gap: int) returns (times: seq<string>)
    requires rng.Valid()
    modifies rng
    ensures rng.Valid() && rng.state == Advance(old(rng.state), Max(n, 0))
    ensures times == ShowTimes(old(rng.state), Max(n, 0), winStart, winEnd, gap)
  {
    ghost var s0 := rng.state;
    var out: seq<string> := [];
    var cur := winStart + (gap * 6) / 10;
    var i := 0;
    while i < n
      invariant 0 <= i <= Max(n, 0)
      invariant rng.Valid() && rng.state == Advance(s0, i)
      invariant cur == Slot(winStart, gap, i)
      invariant out == ShowTimes(s0, i, winStart, winEnd, gap)
    {
      out := AddShowTime(rng, s0, i, cur, out, winStart, winEnd, gap);
      cur := cur + gap;
      i := i + 1;
    }
    assert i == Max(n, 0);
    times := out;
  }

  /** One pass of the loop: jitter the slot, clamp it into the window, add its text unless present. */
  method AddShowTime(rng: Rng, ghost s0: bv32, i: nat, cur: int, out: seq<string>, winStart: int, winEnd: int, gap: int)
    returns (next: seq<string>)
    requires rng.Valid() && rng.state == Advance(s0, i) && cur == Slot(winStart, gap, i)
    requires out == ShowTimes(s0, i, winStart, winEnd, gap)
    modifies rng
    ensures rng.Valid() && rng.state == Advance(s0, i + 1)
    ensures next == ShowTimes(s0, i + 1, winStart, winEnd, gap)
  {
    var jitter := rng.Int(-10, 10);
    var m := Min(winEnd - 1, Max(winStart, cur + jitter));
    assert m == ShowMinute(s0, i, winStart, winEnd, gap);
    var t := FormatHHmm(m);
    next := out;
    if t !in out {
      next := out + [t];
    }
  }

  // ---------- one show ----------

  /** Fixed per-format price multipliers; an unknown code prices as 2D. */
  function Multiplier(fmt: string): real {
    if fmt == "2d" then 1.0
    else if fmt == "3d" then 1.2
    else if fmt == "imax" then 1.4
    else if fmt == "4dx" then 1.5
    else if fmt == "screenx" then 1.3
    else 1.0
  }

  /** roundTo5: the nearest multiple of 5, ties between multiples going to the even quotient. */
  function RoundTo5(v: real): (r: int)
    ensures r % 5 == 0
  {
    RoundHalfEven(v / 5.0) * 5
  }

  lemma RoundTo5NonNegative(v: real)
    requires v >= 0.0
    ensures RoundTo5(v) >= 0
  {
    RoundingNonNegative(v / 5.0);
  }

  /** 1 + (2u - 1) * pct for the unit draw u = state / 2^32. */
  function Jitter(u: bv32, pct: real): real {
    1.0 + ((u as int as real / 4294967296.0) * 2.0 - 1.0) * pct
  }

  lemma JitterNonNegative(u: bv32, pct: real)
    requires 0.0 <= pct <= 1.0
    ensures Jitter(u, pct) >= 0.0
  {
    var f := u as int as real / 4294967296.0;
    assert 0.0 <= f <= 1.0;
    assert -1.0 <= f * 2.0 - 1.0 <= 1.0;
    assert -pct <= (f * 2.0 - 1.0) * pct;
  }

  /** The show price as written: the base scaled by format and jitter, divided by 5, then roundTo5. */
  function Price(base: int, fmt: string, u: bv32, pct: real): int {
    RoundTo5((base as real * Multiplier(fmt) * Jitter(u, pct)) / 5.0)
  }

  /** Silver, gold and platinum from the available seats: half, three tenths, the rest. */
  function SeatClassesOf(price: int, avail: int): (r: seq<SeatClass>)
    ensures |r| == 3 && r[0].price == price
  {
    var silver := Max(0, TruncReal(avail as real * 0.5));
    var gold := Max(0, TruncReal(avail as real * 0.3));
    var platinum := Max(0, avail - silver - gold);
    [SeatClass("silver", "Silver", price, silver),
     SeatClass("gold", "Gold", RoundTo5(price as real * 1.15), gold),
     SeatClass("platinum", "Platinum", RoundTo5(price as real * 1.30), platinum)]
  }

  /** The three classes in order, never negative, adding up to the available seats (none when negative). */
  ghost predicate SeatsOk(price: int, avail: int, sc: seq<SeatClass>) {
    |sc| == 3
    && sc[0].code == "silver" && sc[1].code == "gold" && sc[2].code == "platinum"
    && sc[0].price == price
    && (forall k :: 0 <= k < 3 ==> sc[k].price % 5 == 0 && sc[k].available >= 0)
    && sc[0].available + sc[1].available + sc[2].available == Max(avail, 0)
  }

  lemma SeatClassesConserve(price: int, avail: int)
    requires price % 5 == 0
    ensures SeatsOk(price, avail, SeatClassesOf(price, avail))
  {
    TruncRealBounds(avail as real * 0.5);
    TruncRealBounds(avail as real * 0.3);
    if avail >= 0 {
      assert TruncReal(avail as real * 0.5) as real + TruncReal(avail as real * 0.3) as real <= avail as real;
    }
  }

  /** What one show's draws produce: its capacity, its ShowInfo, and the state after them. */
  datatype Drawn = Drawn(cap: int, info: ShowInfo, next: bv32)

  /** The draw of one show from state s: capacity, availability, then one float for the price jitter. */
  function ShowFrom(p: Params, fmt: string, s: bv32): Drawn {
    var c := IntFrom(p.minSeatsPerShow, p.maxSeatsPerShow, s);
    var a := IntFrom(TruncReal(c.0 as real * 0.2), c.0, c.1);
    var u := Xorshift(a.1);
    var price := Price(p.basePriceINR, fmt, u, p.priceJitterPct);
    var sc := if p.includeSeatClasses then Some(SeatClassesOf(price, a.0)) else None;
    Drawn(c.0, ShowInfo(price, a.0, sc), u)
  }

  /** The stored facts about one generated show. */
  ghost predicate ShowOk(p: Params, info: ShowInfo) {
    info.price % 5 == 0
    && (0 <= p.minSeatsPerShow <= p.maxSeatsPerShow ==>
          p.minSeatsPerShow / 5 <= info.availableSeats <= p.maxSeatsPerShow)
    && (p.basePriceINR >= 0 && 0.0 <= p.priceJitterPct <= 1.0 ==> info.price >= 0)
    && (info.seatClasses.Some? <==> p.includeSeatClasses)
    && (info.seatClasses.Some? ==> SeatsOk(info.price, info.availableSeats, info.seatClasses.value))
  }

  /** Capacity in [min, max], availability in [cap / 5, cap], a price that is a multiple of 5, seats conserved. */
  lemma ShowFromProperties(p: Params, fmt: string, s: bv32)
    ensures var d := ShowFrom(p, fmt, s);
      (p.minSeatsPerShow <= p.maxSeatsPerShow ==> p.minSeatsPerShow <= d.cap <= p.maxSeatsPerShow)
      && (p.minSeatsPerShow >= p.maxSeatsPerShow ==> d.cap == p.minSeatsPerShow)
      && (d.cap >= 0 ==> d.cap / 5 <= d.info.availableSeats <= d.cap)
  {
    var c := IntFrom(p.minSeatsPerShow, p.maxSeatsPerShow, s);
    AvailBounds(c.0, c.1);
  }

  /** Every drawn show satisfies ShowOk. */
  lemma ShowFromOk(p: Params, fmt: string, s: bv32)
    ensures ShowOk(p, ShowFrom(p, fmt, s).info)
  {
    ShowFromProperties(p, fmt, s);
    var d := ShowFrom(p, fmt, s);
    PriceNonNegative(p.basePriceINR, fmt, d.next, p.priceJitterPct);
    if p.includeSeatClasses {
      SeatClassesConserve(d.info.price, d.info.availableSeats);
    }
  }

  /** The availability draw lies between a fifth of the capacity and the capacity. */
  lemma AvailBounds(cap: int, s: bv32)
    ensures cap >= 0 ==> cap / 5 <= IntFrom(TruncReal(cap as real * 0.2), cap, s).0 <= cap
  {
    if cap >= 0 {
      TruncRealBounds(cap as real * 0.2);
      assert (cap / 5) as real <= cap as real * 0.2 < (cap / 5) as real + 1.0;
      assert TruncReal(cap as real * 0.2) == cap / 5;
    }
  }

  /** A non-negative base with a jitter fraction in [0, 1] never gives a negative price. */
  lemma PriceNonNegative(base: int, fmt: string, u: bv32, pct: real)
    ensures base >= 0 && 0.0 <= pct <= 1.0 ==> Price(base, fmt, u, pct) >= 0
  {
    if base >= 0 && 0.0 <= pct <= 1.0 {
      JitterNonNegative(u, pct);
      assert base as real * Multiplier(fmt) * Jitter(u, pct) >= 0.0;
      RoundTo5NonNegative((base as real * Multiplier(fmt) * Jitter(u, pct)) / 5.0);
    }
  }

  /** One show's draws, in the source's order: capacity, availability, jitter float. */
  method DrawShow(rng: Rng, p: Params, fmt: string) returns (info: ShowInfo)
    requires rng.Valid()
    modifies rng
    ensures rng.Valid() && ShowOk(p, info)
    ensures info == ShowFrom(p, fmt, old(rng.state)).info && rng.state == ShowFrom(p, fmt, old(rng.state)).next
  {
    ghost var s := rng.state;
    var cap := rng.Int(p.minSeatsPerShow, p.maxSeatsPerShow);
    var avail := rng.Int(TruncReal(cap as real * 0.2), cap);
    var u := rng.Float();
    var price := Price(p.basePriceINR, fmt, u, p.priceJitterPct);
    var sc := if p.includeSeatClasses then Some(SeatClassesOf(price, avail)) else None;
    info := ShowInfo(price, avail, sc);
    assert info == ShowFrom(p, fmt, s).info;
    ShowFromOk(p, fmt, s);
  }
}

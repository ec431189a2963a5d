/**
 * Building blocks of generateBackendInventory in inventoryUtils.ts: the
 * parameters after defaulting, the language / format / cinema tables, the date
 * list, show-time scheduling, one show row and its sanitised id. All draws
 * come from one mulberry32 generator, so a specification function names a draw
 * by the starting counter and its index, Rnd(c, k).
 */
module JsGen {
  import opened Wrappers
  import opened Decimal
  import opened Arith
  import opened Ordering
  import opened TimeOfDay
  import opened InventoryTree
  import opened JsRng
  import Calendar
  import NativeGen

  /** generateBackendInventory's arguments after defaulting; the window is given in minutes. */
  datatype JsParams = JsParams(
    languagesCount: int,
    formatsPerLanguage: int,
    dateStart: string,
    dateEnd: string,
    cinemasCount: int,
    showsPerCinemaPerDay: int,
    seed: int,
    currency: string,
    basePriceINR: int,
    priceJitterPct: real,
    minSeatsPerShow: int,
    maxSeatsPerShow: int,
    winStartMin: int,
    winEndMin: int,
    includeSeatClasses: bool)

  datatype Lang = Lang(code: string, name: string)

  datatype Fmt = Fmt(code: string, name: string)

  datatype CinemaMeta = CinemaMeta(name: string, city: string)

  /** One row of the flat `items` list (lastUpdatedIso, a clock reading, is not kept). */
  datatype Item = Item(
    languageCode: string,
    formatCode: string,
    date: string,
    cinemaId: string,
    cinemaName: Option<string>,
    showId: string,
    showTime: string,
    basePrice: int,
    availableSeats: int,
    capacity: int,
    auditorium: string,
    screenType: string,
    seatClasses: Option<seq<SeatClass>>)

  const LangNames: seq<string> :=
    ["English", "Hindi", "Tamil", "Telugu", "Malayalam", "Marathi", "Kannada", "Bengali", "Punjabi", "Gujarati"]
  const FmtNames: seq<string> := ["2D", "3D", "IMAX", "4DX", "ScreenX"]
  const Cities: seq<string> := ["Bengaluru", "Mumbai", "Delhi", "Hyderabad", "Chennai", "Pune"]

  // ---------- languages and formats ----------

  /**
   * Language i: the pool code for the first ten and "l<i+1>" after (the rule the
   * native generator also follows), with the pool name of i modulo 10.
   */
  function JsLanguage(i: nat): (r: Lang)
    ensures i < |NativeGen.LangPool| ==> r.code == NativeGen.LangPool[i]
    ensures i >= |NativeGen.LangPool| ==> r.code == "l" + NatToString(i + 1)
  {
    Lang(NativeGen.Language(i), LangNames[i % |LangNames|])
  }

  function JsLanguages(n: int): (r: seq<Lang>)
    ensures |r| == Max(n, 0) && forall i :: 0 <= i < |r| ==> r[i] == JsLanguage(i)
  {
    seq(Max(n, 0), i requires 0 <= i => JsLanguage(i))
  }

  /** Format fi of language li: the rotated pool entry, its code replaced by "f<fi+1>" when more than five are asked for. */
  function JsFormat(count: int, li: nat, fi: nat): (r: Fmt)
    ensures count <= |NativeGen.FmtPool| ==> r.code == NativeGen.FmtPool[(li + fi) % |NativeGen.FmtPool|]
    ensures count > |NativeGen.FmtPool| ==> r.code == "f" + NatToString(fi + 1)
    ensures r.name == FmtNames[(li + fi) % |FmtNames|]
  {
    Fmt(NativeGen.Format(count, li, fi), FmtNames[(li + fi) % |FmtNames|])
  }

  function JsFormats(count: int, li: nat): (r: seq<Fmt>)
    ensures |r| == Max(count, 0)
  {
    seq(Max(count, 0), fi requires 0 <= fi => JsFormat(count, li, fi))
  }

  /** Both generators give language i and format (li, fi) the same codes. */
  lemma CodesAgreeWithNative(n: int, count: int, li: nat)
    ensures forall i :: 0 <= i < |JsLanguages(n)| ==> JsLanguages(n)[i].code == NativeGen.Languages(n)[i]
    ensures forall fi :: 0 <= fi < |JsFormats(count, li)| ==> JsFormats(count, li)[fi].code == NativeGen.Formats(count, li)[fi]
  {
  }

  // ---------- cinemas ----------

  /** Cinema i: chain, mall and city picked by draws k0 + 3i, k0 + 3i + 1 and k0 + 3i + 2 from the counter c. */
  function CinemaAt(c: bv32, k0: nat, i: nat): (string, CinemaMeta) {
    var k := k0 + 3 * i;
    var chain := PickOf(|NativeGen.Chains|, Rnd(c, k));
    var mall := PickOf(|NativeGen.Malls|, Rnd(c, k + 1));
    var city := PickOf(|Cities|, Rnd(c, k + 2));
    PickInRange(|NativeGen.Chains|, Rnd(c, k));
    PickInRange(|NativeGen.Malls|, Rnd(c, k + 1));
    PickInRange(|Cities|, Rnd(c, k + 2));
    (NativeGen.CinemaId(i), CinemaMeta(NativeGen.CinemaName(chain, mall, i), Cities[city]))
  }

  /** The first n cinemas, in index order. */
  function JsCinemas(c: bv32, k0: nat, n: nat): (r: seq<(string, CinemaMeta)>)
    ensures |r| == n
  {
    if n == 0 then [] else JsCinemas(c, k0, n - 1) + [CinemaAt(c, k0, n - 1)]
  }

  lemma {:induction false} JsCinemasAt(c: bv32, k0: nat, n: nat, i: nat)
    requires i < n
    ensures JsCinemas(c, k0, n)[i] == CinemaAt(c, k0, i)
  {
    if i < n - 1 {
      JsCinemasAt(c, k0, n - 1, i);
    }
  }

  /**
   * Cinema i is keyed "cin_<i+1>" zero-padded, its city comes from the city pool,
   * and different cinemas get different keys, so the `cinemas` record keeps them all.
   */
  lemma JsCinemaIds(c: bv32, k0: nat, n: nat)
    ensures forall i :: 0 <= i < n ==> JsCinemas(c, k0, n)[i].0 == NativeGen.CinemaId(i) && JsCinemas(c, k0, n)[i].1.city in Cities
    ensures Distinct(seq(n, i requires 0 <= i < n => JsCinemas(c, k0, n)[i].0))
  {
    forall i | 0 <= i < n ensures JsCinemas(c, k0, n)[i].0 == NativeGen.CinemaId(i) && JsCinemas(c, k0, n)[i].1.city in Cities {
      JsCinemasAt(c, k0, n, i);
    }
    forall i, j | 0 <= i < j < n ensures JsCinemas(c, k0, n)[i].0 != JsCinemas(c, k0, n)[j].0 {
      if NativeGen.CinemaId(i) == NativeGen.CinemaId(j) {
        NativeGen.CinemaIdInjective(i, j);
      }
    }
  }

  /** One pass of the cinema loop: chain, mall and city picks for cinema i. */
  method DrawCinema(rng: Mulberry, ghost k0: nat, i: nat) returns (cinema: (string, CinemaMeta))
    requires rng.Valid() && rng.draws == k0 + 3 * i
    modifies rng
    ensures rng.Valid() && rng.start == old(rng.start) && rng.draws == k0 + 3 * i + 3
    ensures cinema == CinemaAt(rng.start, k0, i)
  {
    var chain := rng.Pick(|NativeGen.Chains|);
    var mall := rng.Pick(|NativeGen.Malls|);
    var city := rng.Pick(|Cities|);
    cinema := (NativeGen.CinemaId(i), CinemaMeta(NativeGen.CinemaName(chain, mall, i), Cities[city]));
  }

  /** The cinema loop: `cinemas[id] = { name, city }` for i = 0 .. cinemasCount - 1, three draws each. */
  method BuildJsCinemas(rng: Mulberry, n: int) returns (cinemas: seq<(string, CinemaMeta)>)
    requires rng.Valid()
    modifies rng
    ensures rng.Valid() && rng.start == old(rng.start) && rng.draws == old(rng.draws) + 3 * Max(n, 0)
    ensures cinemas == JsCinemas(rng.start, old(rng.draws), Max(n, 0))
  {
    ghost var k0 := rng.draws;
    cinemas := [];
    var i := 0;
    while i < n
      invariant 0 <= i <= Max(n, 0)
      invariant rng.Valid() && rng.start == old(rng.start) && rng.draws == k0 + 3 * i
      invariant cinemas == JsCinemas(rng.start, k0, i)
    {
      var cinema := DrawCinema(rng, k0, i);
      cinemas := cinemas + [cinema];
      i := i + 1;
    }
  }

  // ---------- dates ----------

  /**
   * dateList: the days from dateStart to dateEnd inclusive. An unparsable date or
   * an end before the start makes the length NaN or non-positive, so the list is empty.
   */
  function JsDateList(start: string, end: string): seq<string> {
    var r := NativeGen.DateListOf(start, end);
    if r.Ok? then r.value else []
  }

  /** An end before the start, or a date that does not parse, yields no dates. */
  lemma JsDateListEmpty(start: string, end: string)
    ensures JsDateList(start, end) == [] <==> NativeGen.DateListOf(start, end).Err?
  {
    if NativeGen.DateListOf(start, end).Ok? {
      NativeGen.DateListErrors(start, end);
      var s, e := Calendar.ParseIso(start).value, Calendar.ParseIso(end).value;
      NativeGen.DateListProperties(start, end, s, e, Calendar.DayNumber(e) - Calendar.DayNumber(s) + 1);
    }
  }

  // ---------- show times ----------

  /**
   * The spacing between shows: at least an hour, the window split into n + 1 parts
   * otherwise; None stands for Infinity, the quotient by zero when n is -1.
   */
  function JsGap(winStart: int, winEnd: int, n: int): (r: Option<int>)
    ensures r.None? <==> n + 1 == 0
    ensures r.Some? ==> r.value >= 60
    ensures r.Some? && n >= 0 ==> r.value * (n + 1) <= Max(60 * (n + 1), Max(1, winEnd - winStart))
  {
    var totalWindow := Max(1, winEnd - winStart);
    if n + 1 == 0 then None
    else
      var g := FloorDiv(totalWindow, n + 1);
      assert n >= 0 ==> g * (n + 1) <= totalWindow;
      Some(Max(60, g))
  }

  /** The clamped minute of show i, jittered by draw k of the counter c. */
  function JsShowMinute(c: bv32, k: nat, i: nat, winStart: int, winEnd: int, gap: int): int {
    Min(winEnd - 1, Max(winStart, NativeGen.Slot(winStart, gap, i) + RandIntOf(-10, 10, Rnd(c, k))))
  }

  /** The `times` list of mkShowTimes before de-duplication: show i is jittered by draw k0 + i. */
  function JsRawTimes(c: bv32, k0: nat, n: nat, winStart: int, winEnd: int, gap: int): seq<string> {
    Tabulate(n, i => JsFormatHHmm(JsShowMinute(c, k0 + i, i, winStart, winEnd, gap)))
  }

  lemma JsRawTimesAt(c: bv32, k0: nat, n: nat, winStart: int, winEnd: int, gap: int, i: nat)
    requires i < n
    ensures JsRawTimes(c, k0, n, winStart, winEnd, gap)[i] == JsFormatHHmm(JsShowMinute(c, k0 + i, i, winStart, winEnd, gap))
  {
    TabulateAt(n, i => JsFormatHHmm(JsShowMinute(c, k0 + i, i, winStart, winEnd, gap)), i);
  }

  /** mkShowTimes as a value: Array.from(new Set(times)) keeps first occurrences. */
  function JsShowTimes(c: bv32, k0: nat, n: int, winStart: int, winEnd: int, gap: int): seq<string> {
    Dedup(JsRawTimes(c, k0, Max(n, 0), winStart, winEnd, gap))
  }

  /**
   * The times are pairwise different, no more than n, at least one when n >= 1,
   * and exactly the drawn ones in the order of their first appearance.
   */
  lemma JsShowTimesShape(c: bv32, k0: nat, n: int, winStart: int, winEnd: int, gap: int)
    ensures var ts := JsShowTimes(c, k0, n, winStart, winEnd, gap);
      var raw := JsRawTimes(c, k0, Max(n, 0), winStart, winEnd, gap);
      Distinct(ts) && |ts| <= Max(n, 0) && (n >= 1 ==> |ts| >= 1)
      && (forall t :: t in ts <==> t in raw)
      && (forall i, j :: 0 <= i < j < |ts| ==> FirstIndex(raw, ts[i]) < FirstIndex(raw, ts[j]))
  {
    var raw := JsRawTimes(c, k0, Max(n, 0), winStart, winEnd, gap);
    DedupProperties(raw);
    if n >= 1 {
      assert raw[0] in Dedup(raw);
    }
  }

  /** Inside a window within 00:00..99:59 every time is "HH:mm" and reads back as a minute of the window. */
  lemma JsShowTimesInWindow(c: bv32, k0: nat, n: int, winStart: int, winEnd: int, gap: int)
    requires 0 <= winStart < winEnd <= 6000
    ensures forall t :: t in JsShowTimes(c, k0, n, winStart, winEnd, gap) ==>
      IsHHmm(t) && winStart <= ParseMinutes(t) <= winEnd - 1
  {
    var raw := JsRawTimes(c, k0, Max(n, 0), winStart, winEnd, gap);
    DedupProperties(raw);
    forall t | t in Dedup(raw) ensures IsHHmm(t) && winStart <= ParseMinutes(t) <= winEnd - 1 {
      var i :| 0 <= i < |raw| && raw[i] == t;
      JsRawTimesAt(c, k0, Max(n, 0), winStart, winEnd, gap, i);
      var m := JsShowMinute(c, k0 + i, i, winStart, winEnd, gap);
      FormatsAgree(m);
      ParseMinutesOfFormat(m);
    }
  }

  /** mkShowTimes: n jittered, clamped minutes pushed as "HH:mm", then de-duplicated; one draw per show. */
  method MkShowTimes(rng: Mulberry, n: int, winStart: int, winEnd: int, gap: int) returns (times: seq<string>)
    requires rng.Valid()
    modifies rng
    ensures rng.Valid() && rng.start == old(rng.start) && rng.draws == old(rng.draws) + Max(n, 0)
    ensures times == JsShowTimes(rng.start, old(rng.draws), n, winStart, winEnd, gap)
  {
    ghost var k0 := rng.draws;
    var raw: seq<string> := [];
    var cur := winStart + (gap * 6) / 10;
    var i := 0;
    while i < n
      invariant 0 <= i <= Max(n, 0) && cur == NativeGen.Slot(winStart, gap, i)
      invariant rng.Valid() && rng.start == old(rng.start) && rng.draws == k0 + i
      invariant raw == JsRawTimes(rng.start, k0, i, winStart, winEnd, gap)
    {
      var jitter := rng.RandInt(-10, 10);
      var m := Min(winEnd - 1, Max(winStart, cur + jitter));
      assert m == JsShowMinute(rng.start, k0 + i, i, winStart, winEnd, gap);
      raw := raw + [JsFormatHHmm(m)];
      cur := cur + gap;
      i := i + 1;
    }
    times := Dedup(raw);
  }

  // ---------- one show ----------

  /** Math.round(v / 5) * 5: the nearest multiple of 5, ties upward. */
  function JsRoundTo5(v: real): (r: int)
    ensures r % 5 == 0
  {
    RoundHalfUp(v / 5.0) * 5
  }

  lemma JsRoundTo5NonNegative(v: real)
    requires v >= 0.0
    ensures JsRoundTo5(v) >= 0
  {
    RoundingNonNegative(v / 5.0);
  }

  /** The base price scaled by the format multiplier and the jitter 1 + (2u - 1) * pct, rounded to 5. */
  function JsPrice(base: int, fmt: string, u: Word, pct: real): int {
    JsRoundTo5(base as real * NativeGen.Multiplier(fmt) * (1.0 + Signed(u) * pct))
  }

  /** Silver, gold and platinum: floor of half and of three tenths of the seats, then the rest. */
  function JsSeatClassesOf(price: int, avail: int): seq<SeatClass> {
    var silver := Max(0, (avail as real * 0.5).Floor);
    var gold := Max(0, (avail as real * 0.3).Floor);
    var platinum := Max(0, avail - silver - gold);
    [SeatClass("silver", "Silver", price, silver),
     SeatClass("gold", "Gold", JsRoundTo5(price as real * 1.15), gold),
     SeatClass("platinum", "Platinum", JsRoundTo5(price as real * 1.3), platinum)]
  }

  /** The classes keep every seat, none negative, all prices multiples of 5, silver at the show price. */
  lemma JsSeatClassesConserve(price: int, avail: int)
    requires price % 5 == 0
    ensures NativeGen.SeatsOk(price, avail, JsSeatClassesOf(price, avail))
  {
    if avail >= 0 {
      var a := avail as real;
      assert (a * 0.5).Floor as real <= a * 0.5;
      assert (a * 0.3).Floor as real <= a * 0.3;
      assert 0 <= (a * 0.5).Floor && 0 <= (a * 0.3).Floor;
      assert (a * 0.5).Floor + (a * 0.3).Floor <= avail;
    }
  }

  /** [A-Za-z0-9_], the characters a show id keeps. */
  predicate IdChar(ch: char) {
    'a' <= ch <= 'z' || 'A' <= ch <= 'Z' || '0' <= ch <= '9' || ch == '_'
  }

  /** .replace(/[^a-zA-Z0-9_]/g, ''): drop every other character, keeping the order. */
  function Sanitize(s: string): (r: string)
    ensures |r| <= |s|
    ensures forall k :: 0 <= k < |r| ==> IdChar(r[k])
  {
    if |s| == 0 then ""
    else (if IdChar(s[0]) then [s[0]] else "") + Sanitize(s[1..])
  }

  /** Sanitising text made of kept characters changes nothing. */
  lemma {:induction false} SanitizeClean(s: string)
    requires forall k :: 0 <= k < |s| ==> IdChar(s[k])
    ensures Sanitize(s) == s
  {
    if |s| > 0 {
      SanitizeClean(s[1..]);
    }
  }

  /** Sanitising works piece by piece. */
  lemma {:induction false} SanitizeAppend(a: string, b: string)
    ensures Sanitize(a + b) == Sanitize(a) + Sanitize(b)
  {
    if |a| == 0 {
      assert a + b == b;
    } else {
      var keep: string := if IdChar(a[0]) then [a[0]] else "";
      assert (a + b)[0] == a[0] && (a + b)[1..] == a[1..] + b;
      SanitizeAppend(a[1..], b);
      assert Sanitize(a + b) == keep + (Sanitize(a[1..]) + Sanitize(b));
      assert Sanitize(a) == keep + Sanitize(a[1..]);
    }
  }

  /** The show id text before sanitising. */
  function RawShowId(lang: string, fmt: string, date: string, cinemaId: string, time: string): string {
    "show_" + lang + "_" + fmt + "_" + date + "_" + cinemaId + "_" + time
  }

  /** Every show id starts "show_", keeps only [A-Za-z0-9_], and sanitising it again changes nothing. */
  lemma ShowIdShape(lang: string, fmt: string, date: string, cinemaId: string, time: string)
    ensures var id := Sanitize(RawShowId(lang, fmt, date, cinemaId, time));
      |id| >= 5 && id[..5] == "show_" && (forall k :: 0 <= k < |id| ==> IdChar(id[k])) && Sanitize(id) == id
  {
    var rest := lang + "_" + fmt + "_" + date + "_" + cinemaId + "_" + time;
    assert RawShowId(lang, fmt, date, cinemaId, time) == "show_" + rest;
    SanitizeAppend("show_", rest);
    SanitizeClean("show_");
    SanitizeClean(Sanitize(RawShowId(lang, fmt, date, cinemaId, time)));
  }

  /** The show row whose four draws, capacity, availability, price jitter and auditorium, are k to k + 3. */
  function ShowRow(p: JsParams, lang: Lang, fmt: Fmt, date: string, cinemaId: string, cinemaName: string,
                   time: string, c: bv32, k: nat): Item {
    var cap := RandIntOf(p.minSeatsPerShow, p.maxSeatsPerShow, Rnd(c, k));
    var avail := RandIntOf((cap as real * 0.2).Floor, cap, Rnd(c, k + 1));
    var price := JsPrice(p.basePriceINR, fmt.code, Rnd(c, k + 2), p.priceJitterPct);
    var audi := RandIntOf(1, 7, Rnd(c, k + 3));
    Item(lang.code, fmt.code, date, cinemaId, Some(cinemaName),
         Sanitize(RawShowId(lang.code, fmt.code, date, cinemaId, time)), time, price, avail, cap,
         "Audi " + IntToString(audi), fmt.name,
         if p.includeSeatClasses then Some(JsSeatClassesOf(price, avail)) else None)
  }

  /**
   * Capacity in [min, max], availability between a fifth of the capacity (rounded down)
   * and the capacity, auditorium 1..7, a price that is a multiple of 5 (non-negative for
   * a non-negative base and a jitter of at most 100%), seats conserved across the classes.
   */
  lemma ShowRowProperties(p: JsParams, lang: Lang, fmt: Fmt, date: string, cinemaId: string, cinemaName: string,
                          time: string, c: bv32, k: nat)
    ensures var it := ShowRow(p, lang, fmt, date, cinemaId, cinemaName, time, c, k);
      (p.minSeatsPerShow <= p.maxSeatsPerShow ==> p.minSeatsPerShow <= it.capacity <= p.maxSeatsPerShow)
      && (it.capacity >= 0 ==> (it.capacity as real * 0.2).Floor <= it.availableSeats <= it.capacity)
      && it.basePrice % 5 == 0
      && (p.basePriceINR >= 0 && 0.0 <= p.priceJitterPct <= 1.0 ==> it.basePrice >= 0)
      && (exists a :: 1 <= a <= 7 && it.auditorium == "Audi " + IntToString(a))
      && (it.seatClasses.Some? <==> p.includeSeatClasses)
      && (it.seatClasses.Some? ==> NativeGen.SeatsOk(it.basePrice, it.availableSeats, it.seatClasses.value))
  {
    var it := ShowRow(p, lang, fmt, date, cinemaId, cinemaName, time, c, k);
    if p.minSeatsPerShow <= p.maxSeatsPerShow {
      RandIntInRange(p.minSeatsPerShow, p.maxSeatsPerShow, Rnd(c, k));
    }
    if it.capacity >= 0 {
      assert (it.capacity as real * 0.2).Floor <= it.capacity;
      RandIntInRange((it.capacity as real * 0.2).Floor, it.capacity, Rnd(c, k + 1));
    }
    var a := RandIntOf(1, 7, Rnd(c, k + 3));
    RandIntInRange(1, 7, Rnd(c, k + 3));
    assert it.auditorium == "Audi " + IntToString(a);
    if p.basePriceINR >= 0 && 0.0 <= p.priceJitterPct <= 1.0 {
      PriceNonNegative(p.basePriceINR, fmt.code, Rnd(c, k + 2), p.priceJitterPct);
    }
    if p.includeSeatClasses {
      JsSeatClassesConserve(it.basePrice, it.availableSeats);
    }
  }

  lemma PriceNonNegative(base: int, fmt: string, u: Word, pct: real)
    requires base >= 0 && 0.0 <= pct <= 1.0
    ensures JsPrice(base, fmt, u, pct) >= 0
  {
    JitterNonNegative(u, pct);
    ProductNonNegative(base as real, NativeGen.Multiplier(fmt));
    ProductNonNegative(base as real * NativeGen.Multiplier(fmt), 1.0 + Signed(u) * pct);
    JsRoundTo5NonNegative(base as real * NativeGen.Multiplier(fmt) * (1.0 + Signed(u) * pct));
  }

  /** A jitter of at most 100% never makes the factor negative. */
  lemma JitterNonNegative(u: Word, pct: real)
    requires 0.0 <= pct <= 1.0
    ensures 1.0 + Signed(u) * pct >= 0.0
  {
    SignedBounds(u);
    var x := Signed(u);
    ProductNonNegative(x + 1.0, pct);
    assert (x + 1.0) * pct == x * pct + pct;
  }

  lemma ProductNonNegative(a: real, b: real)
    requires a >= 0.0 && b >= 0.0
    ensures a * b >= 0.0
  {
  }

  /** One pass of the innermost loop: four draws in the source's order, then the row. */
  method DrawShowRow(rng: Mulberry, p: JsParams, lang: Lang, fmt: Fmt, date: string, cinemaId: string,
                     cinemaName: string, time: string) returns (it: Item)
    requires rng.Valid()
    modifies rng
    ensures rng.Valid() && rng.start == old(rng.start) && rng.draws == old(rng.draws) + 4
    ensures it == ShowRow(p, lang, fmt, date, cinemaId, cinemaName, time, rng.start, old(rng.draws))
  {
    var cap := rng.RandInt(p.minSeatsPerShow, p.maxSeatsPerShow);
    var avail := rng.RandInt((cap as real * 0.2).Floor, cap);
    var u := rng.Next();
    var price := JsPrice(p.basePriceINR, fmt.code, u, p.priceJitterPct);
    var showId := Sanitize(RawShowId(lang.code, fmt.code, date, cinemaId, time));
    var audi := rng.RandInt(1, 7);
    var seatClasses := if p.includeSeatClasses then Some(JsSeatClassesOf(price, avail)) else None;
    it := Item(lang.code, fmt.code, date, cinemaId, Some(cinemaName), showId, time, price, avail, cap,
               "Audi " + IntToString(audi), fmt.name, seatClasses);
  }
}

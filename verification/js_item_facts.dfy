/**
 * What every row of generateBackendInventory's `items` satisfies, and when the
 * list is empty. The loops' specification functions are in JsItems.
 */
module JsItemFacts {
  import opened Wrappers
  import opened Arith
  import opened Decimal
  import opened Ordering
  import opened TimeOfDay
  import opened JsRng
  import opened JsGen
  import opened JsItems
  import NativeGen

  /** The row belongs to a generated language and one of its formats, a listed date and a listed cinema. */
  ghost predicate KeyOk(st: Setting, it: Item) {
    (exists li: nat, fi: nat :: li < Max(st.p.languagesCount, 0) && fi < Max(st.p.formatsPerLanguage, 0)
      && it.languageCode == JsLanguage(li).code
      && it.formatCode == JsFormat(st.p.formatsPerLanguage, li, fi).code
      && it.screenType == JsFormat(st.p.formatsPerLanguage, li, fi).name)
    && it.date in st.dates
    && (exists j: nat :: j < |st.cinemas| && it.cinemaId == st.cinemas[j].0 && it.cinemaName == Some(st.cinemas[j].1.name))
  }

  /** The drawn values of the row: seat bounds, prices, auditorium, seat classes and the id's shape. */
  ghost predicate RowOk(p: JsParams, it: Item) {
    (p.minSeatsPerShow <= p.maxSeatsPerShow ==> p.minSeatsPerShow <= it.capacity <= p.maxSeatsPerShow)
    && (it.capacity >= 0 ==> (it.capacity as real * 0.2).Floor <= it.availableSeats <= it.capacity)
    && it.basePrice % 5 == 0
    && (p.basePriceINR >= 0 && 0.0 <= p.priceJitterPct <= 1.0 ==> it.basePrice >= 0)
    && (exists a :: 1 <= a <= 7 && it.auditorium == "Audi " + IntToString(a))
    && (it.seatClasses.Some? <==> p.includeSeatClasses)
    && (it.seatClasses.Some? ==> NativeGen.SeatsOk(it.basePrice, it.availableSeats, it.seatClasses.value))
    && |it.showId| >= 5 && it.showId[..5] == "show_" && (forall k :: 0 <= k < |it.showId| ==> IdChar(it.showId[k]))
  }

  /** In a window inside 00:00..99:59 the show time is "HH:mm" and falls inside the window. */
  ghost predicate TimeOk(p: JsParams, it: Item) {
    0 <= p.winStartMin < p.winEndMin <= 6000 ==>
      IsHHmm(it.showTime) && p.winStartMin <= ParseMinutes(it.showTime) <= p.winEndMin - 1
  }

  ghost predicate ItemOk(st: Setting, it: Item) {
    KeyOk(st, it) && RowOk(st.p, it) && TimeOk(st.p, it)
  }

  ghost predicate AllOk(st: Setting, items: seq<Item>) {
    forall i :: 0 <= i < |items| ==> ItemOk(st, items[i])
  }

  lemma AllOkAppend(st: Setting, a: seq<Item>, b: seq<Item>)
    requires AllOk(st, a) && AllOk(st, b)
    ensures AllOk(st, a + b)
  {
    forall i | 0 <= i < |a + b| ensures ItemOk(st, (a + b)[i]) {
      if i >= |a| {
        assert (a + b)[i] == b[i - |a|];
      }
    }
  }

  /** One row of a cell: the shown keys, the drawn values, and the time it was given. */
  lemma RowFacts(st: Setting, li: nat, fi: nat, dj: nat, cj: nat, time: string, c: bv32, k: nat)
    requires li < Max(st.p.languagesCount, 0) && fi < Max(st.p.formatsPerLanguage, 0)
    requires dj < |st.dates| && cj < |st.cinemas|
    requires 0 <= st.p.winStartMin < st.p.winEndMin <= 6000 ==>
      IsHHmm(time) && st.p.winStartMin <= ParseMinutes(time) <= st.p.winEndMin - 1
    ensures var fmt := JsFormat(st.p.formatsPerLanguage, li, fi);
      ItemOk(st, ShowRow(st.p, JsLanguage(li), fmt, st.dates[dj], st.cinemas[cj].0, st.cinemas[cj].1.name, time, c, k))
  {
    var fmt := JsFormat(st.p.formatsPerLanguage, li, fi);
    var lang := JsLanguage(li);
    var cin := st.cinemas[cj];
    var it := ShowRow(st.p, lang, fmt, st.dates[dj], cin.0, cin.1.name, time, c, k);
    ShowRowProperties(st.p, lang, fmt, st.dates[dj], cin.0, cin.1.name, time, c, k);
    ShowIdShape(lang.code, fmt.code, st.dates[dj], cin.0, time);
    assert it.cinemaId == st.cinemas[cj].0 && it.cinemaName == Some(st.cinemas[cj].1.name);
    assert it.date == st.dates[dj];
  }

  /** Every time of the list fits TimeOk's window. */
  ghost predicate TimesFit(p: JsParams, times: seq<string>) {
    0 <= p.winStartMin < p.winEndMin <= 6000 ==>
      forall t :: t in times ==> IsHHmm(t) && p.winStartMin <= ParseMinutes(t) <= p.winEndMin - 1
  }

  /** The rows built for a list of times that fit the window are well formed. */
  lemma RowsOk(st: Setting, li: nat, fi: nat, dj: nat, cj: nat, times: seq<string>, c: bv32, k: nat)
    requires li < Max(st.p.languagesCount, 0) && fi < Max(st.p.formatsPerLanguage, 0)
    requires dj < |st.dates| && cj < |st.cinemas|
    requires TimesFit(st.p, times)
    ensures AllOk(st, Rows(st.p, JsLanguage(li), JsFormat(st.p.formatsPerLanguage, li, fi),
                           st.dates[dj], st.cinemas[cj], times, |times|, c, k))
  {
    var lang := JsLanguage(li);
    var fmt := JsFormat(st.p.formatsPerLanguage, li, fi);
    var rows := Rows(st.p, lang, fmt, st.dates[dj], st.cinemas[cj], times, |times|, c, k);
    forall si | 0 <= si < |rows| ensures ItemOk(st, rows[si]) {
      RowsAt(st.p, lang, fmt, st.dates[dj], st.cinemas[cj], times, |times|, c, k, si);
      assert times[si] in times;
      RowFacts(st, li, fi, dj, cj, times[si], c, k + 4 * si);
    }
  }

  /** Every row pushed for one cinema on one date is well formed. */
  lemma CellOk(st: Setting, li: nat, fi: nat, dj: nat, cj: nat, c: bv32, k: nat)
    requires li < Max(st.p.languagesCount, 0) && fi < Max(st.p.formatsPerLanguage, 0)
    requires dj < |st.dates| && cj < |st.cinemas|
    ensures AllOk(st, CellRows(st, JsLanguage(li), JsFormat(st.p.formatsPerLanguage, li, fi),
                               st.dates[dj], st.cinemas[cj], c, k).items)
  {
    var p := st.p;
    var times := CellTimes(st, c, k);
    if st.gap.Some? && 0 <= p.winStartMin < p.winEndMin <= 6000 {
      JsShowTimesInWindow(c, k, p.showsPerCinemaPerDay, p.winStartMin, p.winEndMin, st.gap.value);
    }
    assert TimesFit(p, times);
    RowsOk(st, li, fi, dj, cj, times, c, k + Max(p.showsPerCinemaPerDay, 0));
  }

  /** A loop over keys yields well-formed rows when every step, from any draw index, does. */
  lemma {:induction false} ConcatOk<K>(st: Setting, step: (K, nat) -> Pushed, keys: seq<K>, j: nat, k: nat)
    requires j <= |keys|
    requires forall i, k' :: 0 <= i < j ==> AllOk(st, step(keys[i], k').items)
    ensures AllOk(st, Concat(step, keys, j, k).items)
  {
    if j > 0 {
      var a := Concat(step, keys, j - 1, k);
      ConcatOk(st, step, keys, j - 1, k);
      AllOkAppend(st, a.items, step(keys[j - 1], a.next).items);
    }
  }

  lemma CinemaRowsOk(st: Setting, li: nat, fi: nat, dj: nat, k: nat, c: bv32)
    requires li < Max(st.p.languagesCount, 0) && fi < Max(st.p.formatsPerLanguage, 0) && dj < |st.dates|
    ensures AllOk(st, CinemaRows(st, JsLanguage(li), JsFormat(st.p.formatsPerLanguage, li, fi), st.dates[dj], |st.cinemas|, c, k).items)
  {
    var lang := JsLanguage(li);
    var fmt := JsFormat(st.p.formatsPerLanguage, li, fi);
    var step := (cin: (string, CinemaMeta), k': nat) => CellRows(st, lang, fmt, st.dates[dj], cin, c, k');
    forall cj, k' | 0 <= cj < |st.cinemas| ensures AllOk(st, step(st.cinemas[cj], k').items) {
      CellOk(st, li, fi, dj, cj, c, k');
    }
    ConcatOk(st, step, st.cinemas, |st.cinemas|, k);
  }

  lemma DateRowsOk(st: Setting, li: nat, fi: nat, k: nat, c: bv32)
    requires li < Max(st.p.languagesCount, 0) && fi < Max(st.p.formatsPerLanguage, 0)
    ensures AllOk(st, DateRows(st, JsLanguage(li), JsFormat(st.p.formatsPerLanguage, li, fi), |st.dates|, c, k).items)
  {
    var lang := JsLanguage(li);
    var fmt := JsFormat(st.p.formatsPerLanguage, li, fi);
    var step := (date: string, k': nat) => CinemaRows(st, lang, fmt, date, |st.cinemas|, c, k');
    forall dj, k' | 0 <= dj < |st.dates| ensures AllOk(st, step(st.dates[dj], k').items) {
      CinemaRowsOk(st, li, fi, dj, k', c);
    }
    ConcatOk(st, step, st.dates, |st.dates|, k);
  }

  lemma FormatRowsOk(st: Setting, li: nat, k: nat, c: bv32)
    requires li < Max(st.p.languagesCount, 0)
    ensures AllOk(st, FormatRows(st, li, |JsFormats(st.p.formatsPerLanguage, li)|, c, k).items)
  {
    var fmts := JsFormats(st.p.formatsPerLanguage, li);
    var step := (fmt: Fmt, k': nat) => DateRows(st, JsLanguage(li), fmt, |st.dates|, c, k');
    forall fi, k' | 0 <= fi < |fmts| ensures AllOk(st, step(fmts[fi], k').items) {
      DateRowsOk(st, li, fi, k', c);
    }
    ConcatOk(st, step, fmts, |fmts|, k);
  }

  lemma LanguageRowsOk(st: Setting, k: nat, c: bv32)
    ensures AllOk(st, LanguageRows(st, Max(st.p.languagesCount, 0), c, k).items)
  {
    var n := Max(st.p.languagesCount, 0);
    var step := (li: nat, k': nat) => FormatRows(st, li, |JsFormats(st.p.formatsPerLanguage, li)|, c, k');
    forall i, k' | 0 <= i < n ensures AllOk(st, step(Indices(n)[i], k').items) {
      FormatRowsOk(st, i, k', c);
    }
    ConcatOk(st, step, Indices(n), n, k);
  }

  /**
   * Every generated row carries a generated language and one of its formats, a
   * date of the list, a generated cinema with its name, drawn values in their
   * ranges and a clean show id; in a sensible window its time is "HH:mm" inside it.
   */
  lemma GeneratedItemsOk(p: JsParams)
    ensures AllOk(SettingOf(p, StartCounter(p.seed)), JsItemsOf(p))
  {
    var c := StartCounter(p.seed);
    LanguageRowsOk(SettingOf(p, c), 3 * Max(p.cinemasCount, 0), c);
  }

  /** A loop over keys yields no rows when no step does. */
  lemma {:induction false} ConcatNone<K>(step: (K, nat) -> Pushed, keys: seq<K>, j: nat, k: nat)
    requires j <= |keys|
    requires forall i, k' :: 0 <= i < j ==> step(keys[i], k').items == []
    ensures Concat(step, keys, j, k).items == []
  {
    if j > 0 {
      ConcatNone(step, keys, j - 1, k);
    }
  }

  /** Without dates the date loop, and so every loop around it, pushes nothing. */
  lemma NoDatesNoItems(st: Setting, k: nat, c: bv32)
    requires st.dates == []
    ensures LanguageRows(st, Max(st.p.languagesCount, 0), c, k).items == []
  {
    var n := Max(st.p.languagesCount, 0);
    forall li, k' | 0 <= li < n
      ensures FormatRows(st, li, |JsFormats(st.p.formatsPerLanguage, li)|, c, k').items == []
    {
      var fmts := JsFormats(st.p.formatsPerLanguage, li);
      var dateStep := (fmt: Fmt, k'': nat) => DateRows(st, JsLanguage(li), fmt, |st.dates|, c, k'');
      ConcatNone(dateStep, fmts, |fmts|, k');
    }
    var step := (li: nat, k': nat) => FormatRows(st, li, |JsFormats(st.p.formatsPerLanguage, li)|, c, k');
    ConcatNone(step, Indices(n), n, k);
  }

  /** An end date before the start date, or one that does not parse, yields an empty `items` list. */
  lemma NoItemsWithoutDates(p: JsParams)
    requires NativeGen.DateListOf(p.dateStart, p.dateEnd).Err?
    ensures JsItemsOf(p) == []
  {
    JsDateListEmpty(p.dateStart, p.dateEnd);
    var c := StartCounter(p.seed);
    NoDatesNoItems(SettingOf(p, c), 3 * Max(p.cinemasCount, 0), c);
  }
}

/**
 * The item loops of generateBackendInventory in inventoryUtils.ts: for every
 * language, each of its formats, every date and every cinema, mkShowTimes runs
 * and one row is pushed per show time. Draws are numbered from the generator's
 * start; each specification function takes the number of the first draw it uses
 * and reports, with the rows it pushes, the number of the first draw after them.
 */
module JsItems {
  import opened Wrappers
  import opened Arith
  import opened Ordering
  import opened TimeOfDay
  import opened JsRng
  import opened JsGen

  /** What the loops share once the tables are built: parameters, cinemas, dates and the show gap. */
  datatype Setting = Setting(
    p: JsParams,
    cinemas: seq<(string, CinemaMeta)>,
    dates: seq<string>,
    gap: Option<int>)

  /** The rows a loop pushes and the number of the next draw. */
  datatype Pushed = Pushed(items: seq<Item>, next: nat)

  // ---------- one (language, format, date, cinema) ----------

  /** The show times of one cinema on one date: mkShowTimes from draw k (none for an infinite gap). */
  function CellTimes(st: Setting, c: bv32, k: nat): seq<string> {
    if st.gap.Some?
    then JsShowTimes(c, k, st.p.showsPerCinemaPerDay, st.p.winStartMin, st.p.winEndMin, st.gap.value)
    else []
  }

  /** The rows for the first j of `times`; row si uses the four draws from k + 4 * si. */
  function Rows(p: JsParams, lang: Lang, fmt: Fmt, date: string, cin: (string, CinemaMeta),
                times: seq<string>, j: nat, c: bv32, k: nat): (r: seq<Item>)
    requires j <= |times|
    ensures |r| == j
  {
    if j == 0 then []
    else Rows(p, lang, fmt, date, cin, times, j - 1, c, k) +
           [ShowRow(p, lang, fmt, date, cin.0, cin.1.name, times[j - 1], c, k + 4 * (j - 1))]
  }

  lemma {:induction false} RowsAt(p: JsParams, lang: Lang, fmt: Fmt, date: string, cin: (string, CinemaMeta),
                                  times: seq<string>, j: nat, c: bv32, k: nat, si: nat)
    requires si < j <= |times|
    ensures Rows(p, lang, fmt, date, cin, times, j, c, k)[si]
      == ShowRow(p, lang, fmt, date, cin.0, cin.1.name, times[si], c, k + 4 * si)
  {
    if si < j - 1 {
      RowsAt(p, lang, fmt, date, cin, times, j - 1, c, k, si);
    }
  }

  /** One cinema on one date: showsPerCinemaPerDay draws for the times, then four per time. */
  function CellRows(st: Setting, lang: Lang, fmt: Fmt, date: string, cin: (string, CinemaMeta), c: bv32, k: nat): Pushed {
    var times := CellTimes(st, c, k);
    var k1 := k + Max(st.p.showsPerCinemaPerDay, 0);
    Pushed(Rows(st.p, lang, fmt, date, cin, times, |times|, c, k1), k1 + 4 * |times|)
  }

  // ---------- the enclosing loops ----------

  /**
   * Every loop over keys has one shape: run `step` on the first j keys in order,
   * appending their rows and passing on the draw index each leaves behind.
   */
  function Concat<K>(step: (K, nat) -> Pushed, keys: seq<K>, j: nat, k: nat): (r: Pushed)
    requires j <= |keys|
    ensures j == 0 ==> r == Pushed([], k)
  {
    if j == 0 then Pushed([], k)
    else
      var a := Concat(step, keys, j - 1, k);
      var b := step(keys[j - 1], a.next);
      Pushed(a.items + b.items, b.next)
  }

  /** The cinema loop for one (language, format, date), over the first j cinemas. */
  function CinemaRows(st: Setting, lang: Lang, fmt: Fmt, date: string, j: nat, c: bv32, k: nat): Pushed
    requires j <= |st.cinemas|
  {
    Concat((cin: (string, CinemaMeta), k': nat) => CellRows(st, lang, fmt, date, cin, c, k'), st.cinemas, j, k)
  }

  /** The date loop for one (language, format), over the first j dates. */
  function DateRows(st: Setting, lang: Lang, fmt: Fmt, j: nat, c: bv32, k: nat): Pushed
    requires j <= |st.dates|
  {
    Concat((date: string, k': nat) => CinemaRows(st, lang, fmt, date, |st.cinemas|, c, k'), st.dates, j, k)
  }

  /** The format loop for language li, over its first j formats. */
  function FormatRows(st: Setting, li: nat, j: nat, c: bv32, k: nat): Pushed
    requires j <= |JsFormats(st.p.formatsPerLanguage, li)|
  {
    Concat((fmt: Fmt, k': nat) => DateRows(st, JsLanguage(li), fmt, |st.dates|, c, k'),
           JsFormats(st.p.formatsPerLanguage, li), j, k)
  }

  /** The indices 0 .. n - 1 in order. */
  function Indices(n: nat): (r: seq<nat>)
    ensures |r| == n && forall i :: 0 <= i < n ==> r[i] == i
  {
    seq(n, i requires 0 <= i => i)
  }

  /** The language loop over the first j languages. */
  function LanguageRows(st: Setting, j: nat, c: bv32, k: nat): Pushed
    requires j <= Max(st.p.languagesCount, 0)
  {
    Concat((li: nat, k': nat) => FormatRows(st, li, |JsFormats(st.p.formatsPerLanguage, li)|, c, k'),
           Indices(Max(st.p.languagesCount, 0)), j, k)
  }

  // ---------- the loops as written ----------

  /** `for (let si = 0; si < showTimes.length; si++)`: one row per time, four draws each. */
  method PushRows(rng: Mulberry, p: JsParams, lang: Lang, fmt: Fmt, date: string, cin: (string, CinemaMeta),
                  times: seq<string>) returns (rows: seq<Item>)
    requires rng.Valid()
    modifies rng
    ensures rng.Valid() && rng.start == old(rng.start) && rng.draws == old(rng.draws) + 4 * |times|
    ensures rows == Rows(p, lang, fmt, date, cin, times, |times|, rng.start, old(rng.draws))
  {
    ghost var k := rng.draws;
    rows := [];
    var si := 0;
    while si < |times|
      invariant 0 <= si <= |times|
      invariant rng.Valid() && rng.start == old(rng.start) && rng.draws == k + 4 * si
      invariant rows == Rows(p, lang, fmt, date, cin, times, si, rng.start, k)
    {
      rows := PushRow(rng, p, lang, fmt, date, cin, times, si, rows, k);
      si := si + 1;
    }
  }

  /** One pass of the show-time loop: draw the row for times[si] and push it. */
  method PushRow(rng: Mulberry, p: JsParams, lang: Lang, fmt: Fmt, date: string, cin: (string, CinemaMeta),
                 times: seq<string>, si: nat, rows: seq<Item>, ghost k: nat) returns (rows': seq<Item>)
    requires rng.Valid() && si < |times| && rng.draws == k + 4 * si
    requires rows == Rows(p, lang, fmt, date, cin, times, si, rng.start, k)
    modifies rng
    ensures rng.Valid() && rng.start == old(rng.start) && rng.draws == k + 4 * (si + 1)
    ensures rows' == Rows(p, lang, fmt, date, cin, times, si + 1, rng.start, k)
  {
    var row := DrawShowRow(rng, p, lang, fmt, date, cin.0, cin.1.name, times[si]);
    rows' := rows + [row];
  }

  /** One cinema on one date: mkShowTimes, then its rows. */
  method PushCell(rng: Mulberry, st: Setting, lang: Lang, fmt: Fmt, date: string, cin: (string, CinemaMeta))
    returns (rows: seq<Item>)
    requires rng.Valid() && (st.gap.None? <==> st.p.showsPerCinemaPerDay + 1 == 0)
    modifies rng
    ensures rng.Valid() && rng.start == old(rng.start)
    ensures Pushed(rows, rng.draws) == CellRows(st, lang, fmt, date, cin, rng.start, old(rng.draws))
  {
    var times: seq<string>;
    if st.gap.Some? {
      times := MkShowTimes(rng, st.p.showsPerCinemaPerDay, st.p.winStartMin, st.p.winEndMin, st.gap.value);
    } else {
      // An infinite gap comes only with showsPerCinemaPerDay == -1: no iteration, no draw.
      times := [];
    }
    rows := PushRows(rng, st.p, lang, fmt, date, cin, times);
  }

  /** `for (const cinemaId of Object.keys(cinemas))` for one (language, format, date). */
  method PushDate(rng: Mulberry, st: Setting, lang: Lang, fmt: Fmt, date: string) returns (rows: seq<Item>)
    requires rng.Valid() && (st.gap.None? <==> st.p.showsPerCinemaPerDay + 1 == 0)
    modifies rng
    ensures rng.Valid() && rng.start == old(rng.start)
    ensures Pushed(rows, rng.draws) == CinemaRows(st, lang, fmt, date, |st.cinemas|, rng.start, old(rng.draws))
  {
    ghost var k := rng.draws;
    rows := [];
    var j := 0;
    while j < |st.cinemas|
      invariant 0 <= j <= |st.cinemas|
      invariant rng.Valid() && rng.start == old(rng.start)
      invariant Pushed(rows, rng.draws) == CinemaRows(st, lang, fmt, date, j, rng.start, k)
    {
      var more := PushCell(rng, st, lang, fmt, date, st.cinemas[j]);
      rows := rows + more;
      j := j + 1;
    }
  }

  /** `for (const date of dateList)` for one (language, format). */
  method PushFormat(rng: Mulberry, st: Setting, lang: Lang, fmt: Fmt) returns (rows: seq<Item>)
    requires rng.Valid() && (st.gap.None? <==> st.p.showsPerCinemaPerDay + 1 == 0)
    modifies rng
    ensures rng.Valid() && rng.start == old(rng.start)
    ensures Pushed(rows, rng.draws) == DateRows(st, lang, fmt, |st.dates|, rng.start, old(rng.draws))
  {
    ghost var k := rng.draws;
    rows := [];
    var j := 0;
    while j < |st.dates|
      invariant 0 <= j <= |st.dates|
      invariant rng.Valid() && rng.start == old(rng.start)
      invariant Pushed(rows, rng.draws) == DateRows(st, lang, fmt, j, rng.start, k)
    {
      var more := PushDate(rng, st, lang, fmt, st.dates[j]);
      rows := rows + more;
      j := j + 1;
    }
  }

  /** `for (const fmt of formatsByLang[lang.code])` for language li. */
  method PushLanguage(rng: Mulberry, st: Setting, li: nat, formats: seq<Fmt>) returns (rows: seq<Item>)
    requires rng.Valid() && (st.gap.None? <==> st.p.showsPerCinemaPerDay + 1 == 0)
    requires formats == JsFormats(st.p.formatsPerLanguage, li)
    modifies rng
    ensures rng.Valid() && rng.start == old(rng.start)
    ensures Pushed(rows, rng.draws) == FormatRows(st, li, |formats|, rng.start, old(rng.draws))
  {
    ghost var k := rng.draws;
    ghost var c := rng.start;
    rows := [];
    var j := 0;
    while j < |formats|
      invariant 0 <= j <= |formats|
      invariant rng.Valid() && rng.start == c
      invariant Pushed(rows, rng.draws) == FormatRows(st, li, j, c, k)
    {
      rows := PushFormatAt(rng, st, li, formats, j, rows, c, k);
      j := j + 1;
    }
  }

  /** One pass of the format loop: the rows of format j appended to those of formats 0 .. j - 1. */
  method PushFormatAt(rng: Mulberry, st: Setting, li: nat, formats: seq<Fmt>, j: nat, rows: seq<Item>,
                      ghost c: bv32, ghost k: nat)
    returns (next: seq<Item>)
    requires rng.Valid() && (st.gap.None? <==> st.p.showsPerCinemaPerDay + 1 == 0)
    requires formats == JsFormats(st.p.formatsPerLanguage, li) && j < |formats|
    requires rng.start == c && Pushed(rows, rng.draws) == FormatRows(st, li, j, c, k)
    modifies rng
    ensures rng.Valid() && rng.start == c
    ensures Pushed(next, rng.draws) == FormatRows(st, li, j + 1, c, k)
  {
    FormatRowsStep(st, li, j, c, k);
    var more := PushFormat(rng, st, JsLanguage(li), formats[j]);
    next := rows + more;
  }

  // ---------- the whole generation ----------

  /** formatsByLang for the first k languages: each language code mapped to its formats. */
  function JsFormatsByLang(k: nat, count: int): (m: map<string, seq<Fmt>>)
    ensures forall li :: 0 <= li < k ==> JsLanguage(li).code in m && m[JsLanguage(li).code] == JsFormats(count, li)
  {
    if k == 0 then map[]
    else
      NativeGen.LanguageFresh(k - 1);
      JsFormatsByLang(k - 1, count)[JsLanguage(k - 1).code := JsFormats(count, k - 1)]
  }

  /** The loops' setting for parameters p and the counter c the generator starts from. */
  function SettingOf(p: JsParams, c: bv32): Setting {
    Setting(p, JsCinemas(c, 0, Max(p.cinemasCount, 0)), JsDateList(p.dateStart, p.dateEnd),
            JsGap(p.winStartMin, p.winEndMin, p.showsPerCinemaPerDay))
  }

  /** The `items` list for parameters p: the language loop after the three cinema draws each. */
  function JsItemsOf(p: JsParams): seq<Item> {
    var c := StartCounter(p.seed);
    LanguageRows(SettingOf(p, c), Max(p.languagesCount, 0), c, 3 * Max(p.cinemasCount, 0)).items
  }

  /** An object built by assigning the pairs in order: a later pair overwrites an earlier one with the same key. */
  function Assigned<V>(pairs: seq<(string, V)>): (m: map<string, V>)
    ensures forall i :: 0 <= i < |pairs| ==> pairs[i].0 in m
    ensures forall key :: key in m ==> exists i :: 0 <= i < |pairs| && pairs[i].0 == key
  {
    if |pairs| == 0 then map[]
    else
      var m := Assigned(pairs[..|pairs| - 1]);
      assert forall i :: 0 <= i < |pairs| - 1 ==> pairs[..|pairs| - 1][i] == pairs[i];
      m[pairs[|pairs| - 1].0 := pairs[|pairs| - 1].1]
  }

  /** The flattened formats of the first k languages, in language order. */
  function AllFormats(k: nat, count: int): seq<Fmt> {
    if k == 0 then [] else AllFormats(k - 1, count) + JsFormats(count, k - 1)
  }

  /** What generateBackendInventory returns, without the generatedAtIso clock reading. */
  datatype JsResponse = JsResponse(
    currency: string,
    languages: map<string, string>,
    formats: map<string, string>,
    cinemas: map<string, CinemaMeta>,
    items: seq<Item>)

  function LanguagesDict(n: int): map<string, string> {
    Assigned(seq(Max(n, 0), i requires 0 <= i => (JsLanguage(i).code, JsLanguage(i).name)))
  }

  function FormatsDict(n: int, count: int): map<string, string> {
    var fs := AllFormats(Max(n, 0), count);
    Assigned(seq(|fs|, i requires 0 <= i < |fs| => (fs[i].code, fs[i].name)))
  }

  /** `for (const lang of languages)`, the outermost item loop, over n languages. */
  method PushLanguages(rng: Mulberry, st: Setting, n: nat, formatsByLang: map<string, seq<Fmt>>)
    returns (items: seq<Item>)
    requires rng.Valid() && (st.gap.None? <==> st.p.showsPerCinemaPerDay + 1 == 0)
    requires n <= Max(st.p.languagesCount, 0) && formatsByLang == JsFormatsByLang(n, st.p.formatsPerLanguage)
    modifies rng
    ensures rng.Valid() && rng.start == old(rng.start)
    ensures Pushed(items, rng.draws) == LanguageRows(st, n, rng.start, old(rng.draws))
  {
    ghost var k := rng.draws;
    items := [];
    var li := 0;
    while li < n
      invariant 0 <= li <= n
      invariant rng.Valid() && rng.start == old(rng.start)
      invariant Pushed(items, rng.draws) == LanguageRows(st, li, rng.start, k)
    {
      LanguageRowsStep(st, li, rng.start, k);
      var more := PushLanguage(rng, st, li, formatsByLang[JsLanguage(li).code]);
      items := items + more;
      li := li + 1;
    }
  }

  /** One more pass of the language loop appends that language's rows. */
  lemma FormatRowsStep(st: Setting, li: nat, j: nat, c: bv32, k: nat)
    requires j < |JsFormats(st.p.formatsPerLanguage, li)|
    ensures var a := FormatRows(st, li, j, c, k);
            var b := DateRows(st, JsLanguage(li), JsFormats(st.p.formatsPerLanguage, li)[j], |st.dates|, c, a.next);
            FormatRows(st, li, j + 1, c, k) == Pushed(a.items + b.items, b.next)
  {
  }

  lemma LanguageRowsStep(st: Setting, li: nat, c: bv32, k: nat)
    requires li < Max(st.p.languagesCount, 0)
    ensures var a := LanguageRows(st, li, c, k);
            var b := FormatRows(st, li, |JsFormats(st.p.formatsPerLanguage, li)|, c, a.next);
            LanguageRows(st, li + 1, c, k) == Pushed(a.items + b.items, b.next)
  {
  }

  /** generateBackendInventory: build the tables, then run the item loops on one generator. */
  method GenerateBackendInventory(p: JsParams) returns (resp: JsResponse)
    ensures resp.items == JsItemsOf(p)
    ensures resp.currency == p.currency
    ensures resp.languages == LanguagesDict(p.languagesCount)
    ensures resp.formats == FormatsDict(p.languagesCount, p.formatsPerLanguage)
    ensures resp.cinemas == Assigned(JsCinemas(StartCounter(p.seed), 0, Max(p.cinemasCount, 0)))
  {
    var rng := new Mulberry(p.seed);
    var langs := JsLanguages(p.languagesCount);
    var formatsByLang := JsFormatsByLang(|langs|, p.formatsPerLanguage);
    var cinemas := BuildJsCinemas(rng, p.cinemasCount);
    var st := Setting(p, cinemas, JsDateList(p.dateStart, p.dateEnd),
                      JsGap(p.winStartMin, p.winEndMin, p.showsPerCinemaPerDay));
    assert st == SettingOf(p, rng.start) && rng.draws == 3 * Max(p.cinemasCount, 0);
    var items := PushLanguages(rng, st, |langs|, formatsByLang);
    resp := JsResponse(p.currency, LanguagesDict(p.languagesCount),
                       FormatsDict(p.languagesCount, p.formatsPerLanguage), Assigned(cinemas), items);
  }
}

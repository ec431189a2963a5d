/**
 * generateAndReduce in InventoryModule.kt, top level: build the pools, the
 * cinemas, the date list and the show spacing, then fill the tree language
 * by language and count what was inserted.
 */
module NativeGenerate {
  import opened Wrappers
  import opened Arith
  import opened Ordering
  import opened Calendar
  import opened NativeRng
  import opened InventoryTree
  import opened NativeGen
  import opened NativeFill

  /** The reduced tree, the number of shows inserted and the number of days. */
  datatype GenResult = GenResult(tree: Tree, items: int, days: int)

  /** formatsByLang[lang].orEmpty(). */
  function FmtsOf(fbl: map<string, seq<string>>, l: string): seq<string> {
    if l in fbl then fbl[l] else []
  }

  lemma FormatsByLangStep(k: nat, fmtCount: int)
    ensures FormatsByLang(k + 1, fmtCount) == FormatsByLang(k, fmtCount)[Language(k) := Formats(fmtCount, k)]
  {
  }

  /** formatsByLang: each language of the list mapped to the formats of its index, one assignment per language. */
  method BuildFormatsByLang(languagesCount: int, formatsPerLanguage: int) returns (m: map<string, seq<string>>)
    ensures m == FormatsByLang(|Languages(languagesCount)|, formatsPerLanguage)
  {
    var langs := Languages(languagesCount);
    m := map[];
    var li := 0;
    while li < |langs|
      invariant 0 <= li <= |langs|
      invariant m == FormatsByLang(li, formatsPerLanguage)
    {
      FormatsByLangStep(li, formatsPerLanguage);
      m := m[langs[li] := Formats(formatsPerLanguage, li)];
      li := li + 1;
    }
  }

  /** The cells of the first li languages: every format of each, every date, every cinema. */
  ghost function PlannedCells(langs: seq<string>, fbl: map<string, seq<string>>, li: nat, dates: seq<string>,
                              cs: seq<(string, string)>): set<Cell> {
    set a, b, di, i | 0 <= a < li && a < |langs| && 0 <= b < |FmtsOf(fbl, langs[a])| && 0 <= di < |dates| && 0 <= i < |cs|
      :: (langs[a], FmtsOf(fbl, langs[a])[b], dates[di], cs[i].0)
  }

  lemma PlannedCellsGrow(langs: seq<string>, fbl: map<string, seq<string>>, li: nat, dates: seq<string>,
                         cs: seq<(string, string)>)
    requires li < |langs|
    ensures var fmts := FmtsOf(fbl, langs[li]);
      PlannedCells(langs, fbl, li + 1, dates, cs) == PlannedCells(langs, fbl, li, dates, cs) + FormatCells(langs[li], fmts, |fmts|, dates, cs)
  {
    var l := langs[li];
    var fmts := FmtsOf(fbl, l);
    forall x | x in FormatCells(l, fmts, |fmts|, dates, cs) ensures x in PlannedCells(langs, fbl, li + 1, dates, cs) {
      var b, di, i :| 0 <= b < |fmts| && 0 <= di < |dates| && 0 <= i < |cs| && x == (l, fmts[b], dates[di], cs[i].0);
      assert x == (langs[li], FmtsOf(fbl, langs[li])[b], dates[di], cs[i].0);
    }
    forall x | x in PlannedCells(langs, fbl, li + 1, dates, cs)
      ensures x in PlannedCells(langs, fbl, li, dates, cs) + FormatCells(l, fmts, |fmts|, dates, cs)
    {
      var a, b, di, i :| 0 <= a < li + 1 && a < |langs| && 0 <= b < |FmtsOf(fbl, langs[a])| && 0 <= di < |dates| && 0 <= i < |cs|
        && x == (langs[a], FmtsOf(fbl, langs[a])[b], dates[di], cs[i].0);
      if a == li {
        assert x in FormatCells(l, fmts, |fmts|, dates, cs);
      }
    }
  }

  /** The state of the language loop after the first li languages, starting from the empty tree. */
  ghost predicate Filled(p: Params, cs: seq<(string, string)>, t: Tree, n: int, langs: seq<string>,
                         fbl: map<string, seq<string>>, dates: seq<string>, li: nat) {
    WellFormed(p, cs, t) && n == |Entries(t)|
    && Cells(t) == (if p.showsPerCinemaPerDay >= 1 then PlannedCells(langs, fbl, li, dates, cs) else {})
  }

  lemma FilledStart(p: Params, cs: seq<(string, string)>, langs: seq<string>, fbl: map<string, seq<string>>, dates: seq<string>)
    ensures Filled(p, cs, map[], 0, langs, fbl, dates, 0)
  {
    var e: Tree := map[];
    assert forall l, f, d, c :: !Has(e, l, f, d, c);
    assert Entries(e) == {};
    assert Cells(e) == {};
    assert PlannedCells(langs, fbl, 0, dates, cs) == {};
  }

  lemma FilledNext(p: Params, cs: seq<(string, string)>, t: Tree, n: int, langs: seq<string>,
                   fbl: map<string, seq<string>>, dates: seq<string>, li: nat)
    requires li < |langs| && Distinct(langs)
    requires Filled(p, cs, t, n, langs, fbl, dates, li)
    ensures FreshLanguage(t, langs[li]) && WellFormed(p, cs, t) && n == |Entries(t)|
  {
    forall x | x in Cells(t) ensures x.0 != langs[li] {
      var a, b, di, i :| 0 <= a < li && a < |langs| && 0 <= b < |FmtsOf(fbl, langs[a])| && 0 <= di < |dates| && 0 <= i < |cs|
        && x == (langs[a], FmtsOf(fbl, langs[a])[b], dates[di], cs[i].0);
      assert langs[a] != langs[li];
    }
  }

  lemma FilledStep(p: Params, cs: seq<(string, string)>, t1: Tree, t: Tree, n: int, langs: seq<string>,
                   fbl: map<string, seq<string>>, dates: seq<string>, li: nat)
    requires li < |langs|
    requires Cells(t1) == (if p.showsPerCinemaPerDay >= 1 then PlannedCells(langs, fbl, li, dates, cs) else {})
    requires var fmts := FmtsOf(fbl, langs[li]); LanguageFilled(p, cs, t1, t, n, langs[li], fmts, dates, |fmts|)
    ensures Filled(p, cs, t, n, langs, fbl, dates, li + 1)
  {
    PlannedCellsGrow(langs, fbl, li, dates, cs);
  }

  /** The formats listed for each language repeat nothing. */
  ghost predicate FormatListsDistinct(fbl: map<string, seq<string>>) {
    forall l :: l in fbl ==> Distinct(fbl[l])
  }

  /** One iteration of the language loop: every format of langs[li]. */
  method FillOneLanguage(rng: Rng, p: Params, gap: int, cs: seq<(string, string)>, dates: seq<string>,
                         langs: seq<string>, fbl: map<string, seq<string>>, t: Tree, n: int, li: nat)
    returns (t': Tree, n': int)
    requires rng.Valid() && li < |langs| && IdsDistinct(cs) && Distinct(dates) && Distinct(langs)
    requires FormatListsDistinct(fbl)
    requires Filled(p, cs, t, n, langs, fbl, dates, li)
    modifies rng
    ensures rng.Valid() && Filled(p, cs, t', n', langs, fbl, dates, li + 1)
  {
    var fmts := FmtsOf(fbl, langs[li]);
    FilledNext(p, cs, t, n, langs, fbl, dates, li);
    t', n' := FillLanguage(rng, p, gap, cs, dates, t, n, langs[li], fmts);
    FilledStep(p, cs, t, t', n', langs, fbl, dates, li);
  }

  /** The cinemas drawn for p: the first draws of a fresh generator. */
  function CinemasOf(p: Params): seq<(string, string)> {
    Cinemas(InitialState(p.seed), Max(p.cinemasCount, 0))
  }

  /** The cells generateAndReduce plans for p with the date list dates. */
  ghost function PlannedFor(p: Params, dates: seq<string>): set<Cell> {
    var langs := Languages(p.languagesCount);
    if p.showsPerCinemaPerDay >= 1
    then PlannedCells(langs, FormatsByLang(|langs|, p.formatsPerLanguage), |langs|, dates, CinemasOf(p))
    else {}
  }

  /** What a successful generation delivers. */
  ghost predicate GenOk(p: Params, dates: seq<string>, g: GenResult) {
    g.items == |Entries(g.tree)| && g.days == |dates|
    && WellFormed(p, CinemasOf(p), g.tree)
    && Cells(g.tree) == PlannedFor(p, dates)
  }

  /** The indices a planned cell was built from. */
  lemma PlannedCellIndices(langs: seq<string>, fbl: map<string, seq<string>>, li: nat, dates: seq<string>,
                           cs: seq<(string, string)>, x: Cell) returns (a: nat, b: nat, di: nat, i: nat)
    requires x in PlannedCells(langs, fbl, li, dates, cs)
    ensures a < li && a < |langs| && b < |FmtsOf(fbl, langs[a])| && di < |dates| && i < |cs|
    ensures x == (langs[a], FmtsOf(fbl, langs[a])[b], dates[di], cs[i].0)
  {
    a, b, di, i :| 0 <= a < li && a < |langs| && 0 <= b < |FmtsOf(fbl, langs[a])| && 0 <= di < |dates| && 0 <= i < |cs|
      && x == (langs[a], FmtsOf(fbl, langs[a])[b], dates[di], cs[i].0);
  }

  /** Every planned cell pairs the li-th language with its fi-th format, a listed date and the i-th cinema id. */
  lemma PlannedCellShape(p: Params, dates: seq<string>, x: Cell)
    requires x in PlannedFor(p, dates)
    ensures p.showsPerCinemaPerDay >= 1 && x.2 in dates
    ensures exists li, fi ::
      (0 <= li < p.languagesCount && 0 <= fi < p.formatsPerLanguage
       && x.0 == Language(li) && x.1 == Format(p.formatsPerLanguage, li, fi))
    ensures exists i :: 0 <= i < p.cinemasCount && x.3 == CinemaId(i)
  {
    var langs := Languages(p.languagesCount);
    var fbl := FormatsByLang(|langs|, p.formatsPerLanguage);
    var cs := CinemasOf(p);
    assert p.showsPerCinemaPerDay >= 1;
    var a, b, di, i := PlannedCellIndices(langs, fbl, |langs|, dates, cs, x);
    assert langs[a] == Language(a);
    assert FmtsOf(fbl, langs[a]) == Formats(p.formatsPerLanguage, a);
    assert x.1 == Format(p.formatsPerLanguage, a, b);
    assert x.2 == dates[di];
    CinemasDistinct(InitialState(p.seed), Max(p.cinemasCount, 0));
    assert x.3 == CinemaId(i);
  }

  /** Conversely every such combination is planned, when shows are asked for. */
  lemma PlannedCellFromIndices(p: Params, dates: seq<string>, li: nat, fi: nat, di: nat, i: nat)
    requires p.showsPerCinemaPerDay >= 1
    requires li < p.languagesCount && fi < p.formatsPerLanguage && di < |dates| && i < p.cinemasCount
    ensures (Language(li), Format(p.formatsPerLanguage, li, fi), dates[di], CinemaId(i)) in PlannedFor(p, dates)
  {
    var langs := Languages(p.languagesCount);
    var fbl := FormatsByLang(|langs|, p.formatsPerLanguage);
    var cs := CinemasOf(p);
    assert FmtsOf(fbl, langs[li]) == Formats(p.formatsPerLanguage, li);
    CinemasDistinct(InitialState(p.seed), Max(p.cinemasCount, 0));
    assert (langs[li], FmtsOf(fbl, langs[li])[fi], dates[di], cs[i].0) in PlannedCells(langs, fbl, |langs|, dates, cs);
  }

  lemma FormatsByLangDistinct(k: nat, fmtCount: int)
    ensures FormatListsDistinct(FormatsByLang(k, fmtCount))
  {
    var m := FormatsByLang(k, fmtCount);
    FormatsByLangKeys(k, fmtCount);
    forall l | l in m ensures Distinct(m[l]) {
      var li :| 0 <= li < k && Languages(k)[li] == l;
      FormatsDistinct(fmtCount, li);
    }
  }

  lemma DateListDistinct(start: string, end: string)
    requires DateListOf(start, end).Ok?
    ensures Distinct(DateListOf(start, end).value)
  {
    var s := ParseIso(start).value;
    var e := ParseIso(end).value;
    DateListErrors(start, end);
    DateListProperties(start, end, s, e, DayNumber(e) - DayNumber(s) + 1);
    SortedDistinct(DateListOf(start, end).value);
  }

  /** The four nested loops over the planned languages, from the empty tree. */
  method FillAll(rng: Rng, p: Params, gap: int, cs: seq<(string, string)>, dates: seq<string>,
                 langs: seq<string>, fbl: map<string, seq<string>>)
    returns (t: Tree, n: int)
    requires rng.Valid() && IdsDistinct(cs) && Distinct(dates) && Distinct(langs) && FormatListsDistinct(fbl)
    modifies rng
    ensures Filled(p, cs, t, n, langs, fbl, dates, |langs|)
  {
    t, n := map[], 0;
    FilledStart(p, cs, langs, fbl, dates);
    var li := 0;
    while li < |langs|
      invariant 0 <= li <= |langs| && rng.Valid()
      invariant Filled(p, cs, t, n, langs, fbl, dates, li)
    {
      t, n := FillOneLanguage(rng, p, gap, cs, dates, langs, fbl, t, n, li);
      li := li + 1;
    }
  }

  lemma FilledGenOk(p: Params, t: Tree, n: int, dates: seq<string>)
    requires var langs := Languages(p.languagesCount);
      Filled(p, CinemasOf(p), t, n, langs, FormatsByLang(|langs|, p.formatsPerLanguage), dates, |langs|)
    ensures GenOk(p, dates, GenResult(t, n, |dates|))
  {
  }

  /**
   * generateAndReduce: an invalid date range or a show count of -1 (a division
   * by zero in the spacing) fails; otherwise every planned cell is filled and
   * the count is the number of shows in the tree.
   */
  method GenerateAndReduce(p: Params) returns (r: Result<GenResult>)
    ensures DateListOf(p.dateStart, p.dateEnd).Err? ==> r == Err(DateListOf(p.dateStart, p.dateEnd).error)
    ensures DateListOf(p.dateStart, p.dateEnd).Ok? && p.showsPerCinemaPerDay + 1 == 0 ==> r == Err(DivisionByZero)
    ensures DateListOf(p.dateStart, p.dateEnd).Ok? && p.showsPerCinemaPerDay + 1 != 0 ==>
      r.Ok? && GenOk(p, DateListOf(p.dateStart, p.dateEnd).value, r.value)
  {
    var rng := new Rng(p.seed);
    var langs := Languages(p.languagesCount);
    var fbl := BuildFormatsByLang(p.languagesCount, p.formatsPerLanguage);
    var cinemas := BuildCinemas(rng, p.cinemasCount);
    var dateList := BuildDateList(p.dateStart, p.dateEnd);
    if dateList.Err? {
      return Err(dateList.error);
    }
    var dates := dateList.value;
    var g := Gap(WinStart(p), WinEnd(p), p.showsPerCinemaPerDay);
    if g.Err? {
      return Err(g.error);
    }
    LanguagesDistinct(p.languagesCount);
    FormatsByLangDistinct(|langs|, p.formatsPerLanguage);
    CinemasDistinct(InitialState(p.seed), Max(p.cinemasCount, 0));
    DateListDistinct(p.dateStart, p.dateEnd);
    var t, n := FillAll(rng, p, g.value, cinemas, dates, langs, fbl);
    FilledGenOk(p, t, n, dates);
    return Ok(GenResult(t, n, |dates|));
  }
}

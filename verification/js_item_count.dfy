/**
 * How many rows generateBackendInventory pushes, and where: the four nested
 * item loops of inventoryUtils.ts visit the (language, format, date, cinema)
 * cells in that order, and `items` is the concatenation of the rows of each
 * cell, one per show time mkShowTimes gave that cell.
 */
module JsItemCount {
  import opened Arith
  import opened Seqs
  import opened JsRng
  import opened JsGen
  import opened JsItems

  /** One pass of the innermost loop body: language index, format, date and cinema. */
  datatype Cell = Cell(li: nat, fmt: Fmt, date: string, cin: (string, CinemaMeta))

  // ---------- the cells in loop order ----------

  function CinemaCells(st: Setting, li: nat, fmt: Fmt): string -> seq<Cell> {
    date => seq(|st.cinemas|, j requires 0 <= j < |st.cinemas| => Cell(li, fmt, date, st.cinemas[j]))
  }

  function DateCells(st: Setting, li: nat): Fmt -> seq<Cell> {
    fmt => FlatMap(CinemaCells(st, li, fmt), st.dates)
  }

  function FormatCells(st: Setting): nat -> seq<Cell> {
    (li: nat) => FlatMap(DateCells(st, li), JsFormats(st.p.formatsPerLanguage, li))
  }

  /** Every cell, languages outermost and cinemas innermost. */
  function Cells(st: Setting): seq<Cell> {
    FlatMap(FormatCells(st), Indices(Max(st.p.languagesCount, 0)))
  }

  /** The body run for one cell: mkShowTimes, then one row per time. */
  function CellStep(st: Setting, c: bv32): (Cell, nat) -> Pushed {
    (cell: Cell, k: nat) => CellRows(st, JsLanguage(cell.li), cell.fmt, cell.date, cell.cin, c, k)
  }

  /** A loop over all of `keys`. */
  function Run<K>(step: (K, nat) -> Pushed, keys: seq<K>, k: nat): Pushed {
    Concat(step, keys, |keys|, k)
  }

  // ---------- loops over joined key lists ----------

  /** The first j steps depend only on the first j keys. */
  lemma {:induction false} ConcatPrefix<K>(step: (K, nat) -> Pushed, keys: seq<K>, keys': seq<K>, j: nat, k: nat)
    requires j <= |keys| && j <= |keys'| && keys[..j] == keys'[..j]
    ensures Concat(step, keys, j, k) == Concat(step, keys', j, k)
  {
    if j > 0 {
      assert keys[..j - 1] == keys[..j][..j - 1] && keys'[..j - 1] == keys'[..j][..j - 1];
      assert keys[j - 1] == keys[..j][j - 1] && keys'[j - 1] == keys'[..j][j - 1];
      ConcatPrefix(step, keys, keys', j - 1, k);
    }
  }

  /** Looping over a + b is looping over a, then over b from where a left the draws. */
  lemma {:induction false} ConcatAppend<K>(step: (K, nat) -> Pushed, a: seq<K>, b: seq<K>, k: nat)
    ensures var ra := Run(step, a, k);
            var rb := Run(step, b, ra.next);
            Run(step, a + b, k) == Pushed(ra.items + rb.items, rb.next)
    decreases |b|
  {
    var ra := Run(step, a, k);
    if b == [] {
      assert a + b == a;
    } else {
      var b' := b[..|b| - 1];
      ConcatAppend(step, a, b', k);
      assert (a + b)[..|a + b| - 1] == (a + b')[..|a + b'|];
      ConcatPrefix(step, a + b, a + b', |a + b'|, k);
      ConcatPrefix(step, b, b', |b'|, ra.next);
      assert (a + b)[|a + b| - 1] == b[|b| - 1];
    }
  }

  /** Two loops whose steps agree key by key push the same rows. */
  lemma {:induction false} ConcatMap<K, L>(step: (K, nat) -> Pushed, keys: seq<K>,
                                           step': (L, nat) -> Pushed, keys': seq<L>, j: nat, k: nat)
    requires j <= |keys| && j <= |keys'|
    requires forall i, k' :: 0 <= i < j ==> step(keys[i], k') == step'(keys'[i], k')
    ensures Concat(step, keys, j, k) == Concat(step', keys', j, k)
  {
    if j > 0 {
      ConcatMap(step, keys, step', keys', j - 1, k);
    }
  }

  /**
   * A loop whose step is itself a loop over the block inner(key) pushes what
   * one loop over all the blocks, joined in key order, pushes.
   */
  lemma {:induction false} ConcatFlat<K, L>(step: (K, nat) -> Pushed, keys: seq<K>,
                                            inner: K -> seq<L>, step': (L, nat) -> Pushed, k: nat)
    requires forall i, k' :: 0 <= i < |keys| ==> step(keys[i], k') == Run(step', inner(keys[i]), k')
    ensures Run(step, keys, k) == Run(step', FlatMap(inner, keys), k)
    decreases |keys|
  {
    if keys != [] {
      var prev := keys[..|keys| - 1];
      ConcatFlat(step, prev, inner, step', k);
      ConcatPrefix(step, keys, prev, |prev|, k);
      ConcatAppend(step', FlatMap(inner, prev), inner(keys[|keys| - 1]), k);
    }
  }

  // ---------- the nested loops are one loop over the cells ----------

  lemma CinemaLevel(st: Setting, li: nat, fmt: Fmt, date: string, c: bv32, k: nat)
    ensures CinemaRows(st, JsLanguage(li), fmt, date, |st.cinemas|, c, k)
            == Run(CellStep(st, c), CinemaCells(st, li, fmt)(date), k)
  {
    var step := (cin: (string, CinemaMeta), k': nat) => CellRows(st, JsLanguage(li), fmt, date, cin, c, k');
    ConcatMap(step, st.cinemas, CellStep(st, c), CinemaCells(st, li, fmt)(date), |st.cinemas|, k);
  }

  lemma DateLevel(st: Setting, li: nat, fmt: Fmt, c: bv32, k: nat)
    ensures DateRows(st, JsLanguage(li), fmt, |st.dates|, c, k) == Run(CellStep(st, c), DateCells(st, li)(fmt), k)
  {
    var step := (date: string, k': nat) => CinemaRows(st, JsLanguage(li), fmt, date, |st.cinemas|, c, k');
    forall i, k' | 0 <= i < |st.dates|
      ensures step(st.dates[i], k') == Run(CellStep(st, c), CinemaCells(st, li, fmt)(st.dates[i]), k')
    {
      CinemaLevel(st, li, fmt, st.dates[i], c, k');
    }
    ConcatFlat(step, st.dates, CinemaCells(st, li, fmt), CellStep(st, c), k);
  }

  lemma FormatLevel(st: Setting, li: nat, c: bv32, k: nat)
    ensures FormatRows(st, li, |JsFormats(st.p.formatsPerLanguage, li)|, c, k)
            == Run(CellStep(st, c), FormatCells(st)(li), k)
  {
    var fmts := JsFormats(st.p.formatsPerLanguage, li);
    var step := (fmt: Fmt, k': nat) => DateRows(st, JsLanguage(li), fmt, |st.dates|, c, k');
    forall i, k' | 0 <= i < |fmts|
      ensures step(fmts[i], k') == Run(CellStep(st, c), DateCells(st, li)(fmts[i]), k')
    {
      DateLevel(st, li, fmts[i], c, k');
    }
    ConcatFlat(step, fmts, DateCells(st, li), CellStep(st, c), k);
  }

  /** The four nested loops push exactly what one loop over the cells, in order, pushes. */
  lemma LanguageLevel(st: Setting, c: bv32, k: nat)
    ensures LanguageRows(st, Max(st.p.languagesCount, 0), c, k) == Run(CellStep(st, c), Cells(st), k)
  {
    var n := Max(st.p.languagesCount, 0);
    var step := (li: nat, k': nat) => FormatRows(st, li, |JsFormats(st.p.formatsPerLanguage, li)|, c, k');
    forall i, k' | 0 <= i < n
      ensures step(Indices(n)[i], k') == Run(CellStep(st, c), FormatCells(st)(Indices(n)[i]), k')
    {
      FormatLevel(st, i, c, k');
    }
    ConcatFlat(step, Indices(n), FormatCells(st), CellStep(st, c), k);
  }

  // ---------- the count ----------

  /** The draw with which cell i's mkShowTimes starts, the cells before it having run from draw k. */
  function CellDraw(st: Setting, c: bv32, cells: seq<Cell>, k: nat, i: nat): nat
    requires i <= |cells|
  {
    Concat(CellStep(st, c), cells, i, k).next
  }

  /** The show times mkShowTimes returns for cell i. */
  function CellShowTimes(st: Setting, c: bv32, cells: seq<Cell>, k: nat, i: nat): seq<string>
    requires i < |cells|
  {
    CellTimes(st, c, CellDraw(st, c, cells, k, i))
  }

  /** How many rows the first i steps of a loop push. */
  function RowCount<K>(step: (K, nat) -> Pushed, keys: seq<K>, k: nat, i: nat): nat
    requires i <= |keys|
  {
    if i == 0 then 0
    else RowCount(step, keys, k, i - 1) + |step(keys[i - 1], Concat(step, keys, i - 1, k).next).items|
  }

  /** The rows of step i lie between the counts before and after it. */
  lemma {:induction false} ConcatSlice<K>(step: (K, nat) -> Pushed, keys: seq<K>, k: nat, i: nat, m: nat)
    requires i < m <= |keys|
    ensures |Concat(step, keys, m, k).items| == RowCount(step, keys, k, m)
    ensures RowCount(step, keys, k, i) <= RowCount(step, keys, k, i + 1) <= RowCount(step, keys, k, m)
    ensures Concat(step, keys, m, k).items[RowCount(step, keys, k, i)..RowCount(step, keys, k, i + 1)]
            == step(keys[i], Concat(step, keys, i, k).next).items
  {
    if i < m - 1 {
      ConcatSlice(step, keys, k, i, m - 1);
    } else if i > 0 {
      ConcatSlice(step, keys, k, i - 1, i);
    }
  }

  /** One cell pushes one row per show time. */
  lemma CellStepLength(st: Setting, c: bv32, cells: seq<Cell>, k: nat, i: nat)
    requires i < |cells|
    ensures |CellStep(st, c)(cells[i], Concat(CellStep(st, c), cells, i, k).next).items|
            == |CellShowTimes(st, c, cells, k, i)|
  {
  }

  /** How many show times the first i cells were given, that is how many rows they push. */
  function ShowCount(st: Setting, c: bv32, cells: seq<Cell>, k: nat, i: nat): nat
    requires i <= |cells|
  {
    RowCount(CellStep(st, c), cells, k, i)
  }

  /** The first draw after the showsPerCinemaPerDay draws mkShowTimes takes from draw k. */
  function AfterTimes(st: Setting, k: nat): nat {
    k + Max(st.p.showsPerCinemaPerDay, 0)
  }

  /** A cell pushes one row per show time mkShowTimes gave it, with the draws after those times. */
  lemma CellStepRows(st: Setting, c: bv32, cell: Cell, k: nat)
    ensures CellStep(st, c)(cell, k).items
            == Rows(st.p, JsLanguage(cell.li), cell.fmt, cell.date, cell.cin, CellTimes(st, c, k),
                    |CellTimes(st, c, k)|, c, AfterTimes(st, k))
  {
  }

  /** ShowCount is the running sum of showTimes.length over the cells. */
  lemma ShowCountSum(st: Setting, c: bv32, cells: seq<Cell>, k: nat, i: nat)
    requires i <= |cells|
    ensures i == 0 ==> ShowCount(st, c, cells, k, i) == 0
    ensures i > 0 ==> ShowCount(st, c, cells, k, i)
                      == ShowCount(st, c, cells, k, i - 1) + |CellShowTimes(st, c, cells, k, i - 1)|
  {
    if i > 0 {
      CellStepLength(st, c, cells, k, i - 1);
    }
  }

  /** The setting and first draw of the item loops for parameters p. */
  function ItemSetting(p: JsParams): Setting {
    SettingOf(p, StartCounter(p.seed))
  }

  function FirstItemDraw(p: JsParams): nat {
    3 * Max(p.cinemasCount, 0)
  }

  /** `items` has one row per show time of every (language, format, date, cinema) cell. */
  lemma ItemCount(p: JsParams)
    ensures var st := ItemSetting(p);
            |JsItemsOf(p)| == ShowCount(st, StartCounter(p.seed), Cells(st), FirstItemDraw(p), |Cells(st)|)
  {
    var st, c, k := ItemSetting(p), StartCounter(p.seed), FirstItemDraw(p);
    var cells := Cells(st);
    LanguageLevel(st, c, k);
    if |cells| > 0 {
      ConcatSlice(CellStep(st, c), cells, k, 0, |cells|);
    }
  }

  /** In a loop over cells, the rows of cell i follow those of the cells before it. */
  lemma CellRunSlice(st: Setting, c: bv32, cells: seq<Cell>, k: nat, i: nat)
    requires i < |cells|
    ensures var from, to := ShowCount(st, c, cells, k, i), ShowCount(st, c, cells, k, i + 1);
            var items := Run(CellStep(st, c), cells, k).items;
            from <= to <= |items|
            && items[from..to] == CellStep(st, c)(cells[i], CellDraw(st, c, cells, k, i)).items
  {
    ConcatSlice(CellStep(st, c), cells, k, i, |cells|);
  }

  /**
   * The rows of cell i sit together in `items`, after those of every earlier
   * cell: one row per show time of that cell, in the order mkShowTimes gave them.
   */
  lemma CellItems(p: JsParams, i: nat)
    requires i < |Cells(ItemSetting(p))|
    ensures var st, c, k := ItemSetting(p), StartCounter(p.seed), FirstItemDraw(p);
            var cells := Cells(st);
            var cell, times, from := cells[i], CellShowTimes(st, c, cells, k, i), ShowCount(st, c, cells, k, i);
            from + |times| <= |JsItemsOf(p)|
            && JsItemsOf(p)[from..from + |times|]
               == Rows(p, JsLanguage(cell.li), cell.fmt, cell.date, cell.cin, times, |times|, c,
                       AfterTimes(st, CellDraw(st, c, cells, k, i)))
  {
    var st, c, k := ItemSetting(p), StartCounter(p.seed), FirstItemDraw(p);
    var cells := Cells(st);
    var d := CellDraw(st, c, cells, k, i);
    var times := CellShowTimes(st, c, cells, k, i);
    var from := ShowCount(st, c, cells, k, i);
    var rows := CellStep(st, c)(cells[i], d).items;
    assert st.p == p;
    assert JsItemsOf(p) == Run(CellStep(st, c), cells, k).items by {
      LanguageLevel(st, c, k);
    }
    assert ShowCount(st, c, cells, k, i + 1) == from + |times| by {
      ShowCountSum(st, c, cells, k, i + 1);
    }
    assert from + |times| <= |JsItemsOf(p)| && JsItemsOf(p)[from..from + |times|] == rows by {
      CellRunSlice(st, c, cells, k, i);
    }
    assert rows == Rows(p, JsLanguage(cells[i].li), cells[i].fmt, cells[i].date, cells[i].cin, times, |times|, c,
                        AfterTimes(st, d)) by {
      CellStepRows(st, c, cells[i], d);
    }
  }

  // ---------- which cell comes where ----------

  /** There are languages × formats × dates × cinemas cells. */
  lemma CellsCount(st: Setting)
    ensures |Cells(st)| == Max(st.p.languagesCount, 0) * (Max(st.p.formatsPerLanguage, 0) * (|st.dates| * |st.cinemas|))
  {
    var n, f, d, m := Max(st.p.languagesCount, 0), Max(st.p.formatsPerLanguage, 0), |st.dates|, |st.cinemas|;
    forall li: nat, fmt: Fmt ensures |DateCells(st, li)(fmt)| == d * m {
      FlatMapLength(CinemaCells(st, li, fmt), st.dates, m);
    }
    forall li: nat ensures |FormatCells(st)(li)| == f * (d * m) {
      FlatMapLength(DateCells(st, li), JsFormats(st.p.formatsPerLanguage, li), d * m);
    }
    FlatMapLength(FormatCells(st), Indices(n), f * (d * m));
  }

  /**
   * Cell (li, fi, dj, cj) sits at the mixed-radix position of its indices:
   * language, then format, then date, then cinema.
   */
  lemma CellsAt(st: Setting, li: nat, fi: nat, dj: nat, cj: nat)
    requires li < Max(st.p.languagesCount, 0) && fi < Max(st.p.formatsPerLanguage, 0)
    requires dj < |st.dates| && cj < |st.cinemas|
    ensures var f, d, m := Max(st.p.formatsPerLanguage, 0), |st.dates|, |st.cinemas|;
            var i := Place(li, f * (d * m), Place(fi, d * m, Place(dj, m, cj)));
            i < |Cells(st)|
            && Cells(st)[i] == Cell(li, JsFormat(st.p.formatsPerLanguage, li, fi), st.dates[dj], st.cinemas[cj])
  {
    var n, f, d, m := Max(st.p.languagesCount, 0), Max(st.p.formatsPerLanguage, 0), |st.dates|, |st.cinemas|;
    var fmts := JsFormats(st.p.formatsPerLanguage, li);
    var fmt := fmts[fi];
    var date := st.dates[dj];
    forall l: nat, g: Fmt ensures |DateCells(st, l)(g)| == d * m {
      FlatMapLength(CinemaCells(st, l, g), st.dates, m);
    }
    forall l: nat ensures |FormatCells(st)(l)| == f * (d * m) {
      FlatMapLength(DateCells(st, l), JsFormats(st.p.formatsPerLanguage, l), d * m);
    }
    FlatMapAt(CinemaCells(st, li, fmt), st.dates, m, dj, cj);
    FlatMapAt(DateCells(st, li), fmts, d * m, fi, Place(dj, m, cj));
    FlatMapAt(FormatCells(st), Indices(n), f * (d * m), li, Place(fi, d * m, Place(dj, m, cj)));
  }
}

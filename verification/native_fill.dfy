/**
 * The native generator's nested loops (generateAndReduce in InventoryModule.kt):
 * for every language, format, date and cinema draw the show times, then draw
 * and insert every show into the tree, counting the insertions.
 */
module NativeFill {
  import opened Wrappers
  import opened Arith
  import opened Ordering
  import opened TimeOfDay
  import opened NativeRng
  import opened InventoryTree
  import opened NativeGen

  /** A show time key: inside a window within 00:00..99:59 it is "HH:mm" and lies in the window. */
  ghost predicate SlotOk(p: Params, time: string) {
    var winStart := ParseMinutes(p.showtimeStart);
    var winEnd := ParseMinutes(p.showtimeEnd);
    0 <= winStart < winEnd <= 6000 ==> IsHHmm(time) && winStart <= ParseMinutes(time) <= winEnd - 1
  }

  /** Every stored show satisfies the per-show guarantees, under a well-formed time key. */
  ghost predicate ShowsOk(p: Params, t: Tree) {
    forall l, f, d, c, time {:trigger Node(t, l, f, d, c).shows[time]} ::
      Has(t, l, f, d, c) && time in Node(t, l, f, d, c).shows ==>
      ShowOk(p, Node(t, l, f, d, c).shows[time]) && SlotOk(p, time)
  }

  /** Every cinema node carries the name drawn for its cinema id. */
  ghost predicate NamesOk(t: Tree, cs: seq<(string, string)>) {
    forall l, f, d, c {:trigger Node(t, l, f, d, c).cinemaName} ::
      Has(t, l, f, d, c) ==> (c, Node(t, l, f, d, c).cinemaName) in cs
  }

  /** What every generation step keeps: no empty level, every show well-formed, every cinema named as drawn. */
  ghost predicate WellFormed(p: Params, cs: seq<(string, string)>, t: Tree) {
    Pruned(t) && ShowsOk(p, t) && NamesOk(t, cs)
  }

  lemma InsertedShowsOk(p: Params, t: Tree, r: Tree, l: string, f: string, d: string, c: string, name: string, time: string, info: ShowInfo)
    requires Inserted(t, r, l, f, d, c, name, time, info) && ShowsOk(p, t) && ShowOk(p, info) && SlotOk(p, time)
    ensures ShowsOk(p, r)
  {
    forall l', f', d', c', time' | Has(r, l', f', d', c') && time' in Node(r, l', f', d', c').shows
      ensures ShowOk(p, Node(r, l', f', d', c').shows[time']) && SlotOk(p, time')
    {
      if (l', f', d', c') != (l, f, d, c) {
        assert Node(r, l', f', d', c') == Node(t, l', f', d', c');
      }
    }
  }

  lemma InsertedNamesOk(t: Tree, r: Tree, cs: seq<(string, string)>, l: string, f: string, d: string, c: string, name: string, time: string, info: ShowInfo)
    requires Inserted(t, r, l, f, d, c, name, time, info) && NamesOk(t, cs) && (c, name) in cs
    ensures NamesOk(r, cs)
  {
    forall l', f', d', c' | Has(r, l', f', d', c') ensures (c', Node(r, l', f', d', c').cinemaName) in cs {
      if (l', f', d', c') != (l, f, d, c) {
        assert Node(r, l', f', d', c') == Node(t, l', f', d', c');
      }
    }
  }

  /** Inserting a show that is not yet there adds one entry. */
  lemma InsertedCounts(t: Tree, r: Tree, l: string, f: string, d: string, c: string, name: string, time: string, info: ShowInfo)
    requires Inserted(t, r, l, f, d, c, name, time, info)
    requires !Has(t, l, f, d, c) || time !in Node(t, l, f, d, c).shows
    ensures |Entries(r)| == |Entries(t)| + 1
  {
    InsertedEntries(t, r, l, f, d, c, name, time, info);
    EntriesMembership(t, (l, f, d, c, time));
  }

  /** The shows of the cell being filled are exactly the times inserted so far. */
  lemma InsertedCellShows(t: Tree, r: Tree, x: Cell, name: string, times: seq<string>, j: nat, info: ShowInfo)
    requires j < |times|
    requires Inserted(t, r, x.0, x.1, x.2, x.3, name, times[j], info)
    requires j == 0 ==> !Has(t, x.0, x.1, x.2, x.3)
    requires j > 0 ==> Has(t, x.0, x.1, x.2, x.3) && forall time :: time in Node(t, x.0, x.1, x.2, x.3).shows <==> time in times[..j]
    ensures Has(r, x.0, x.1, x.2, x.3) && forall time :: time in Node(r, x.0, x.1, x.2, x.3).shows <==> time in times[..j + 1]
  {
    assert times[..j + 1] == times[..j] + [times[j]];
  }

  /** Adding an element that may already have been added. */
  lemma UnionAgain<T>(a: set<T>, b: set<T>, c: set<T>, x: T, added: bool)
    requires b == a + (if added then {x} else {}) && c == b + {x}
    ensures c == a + {x}
  {
  }

  /** The state of the innermost loop after the first j times of one cell. */
  ghost predicate ShowsFilled(t0: Tree, t: Tree, n: int, x: Cell, times: seq<string>, j: nat)
    requires j <= |times|
  {
    n == |Entries(t)| && Cells(t) == Cells(t0) + (if j > 0 then {x} else {})
    && (j == 0 ==> !Has(t, x.0, x.1, x.2, x.3))
    && (j > 0 ==> Has(t, x.0, x.1, x.2, x.3) && forall time :: time in Node(t, x.0, x.1, x.2, x.3).shows <==> time in times[..j])
  }

  lemma FillShowsStep(t0: Tree, t: Tree, r: Tree, n: int, x: Cell, name: string, times: seq<string>, j: nat, info: ShowInfo)
    requires j < |times| && Distinct(times)
    requires ShowsFilled(t0, t, n, x, times, j)
    requires Inserted(t, r, x.0, x.1, x.2, x.3, name, times[j], info)
    ensures ShowsFilled(t0, r, n + 1, x, times, j + 1)
  {
    var time := times[j];
    assert time !in times[..j];
    InsertedCounts(t, r, x.0, x.1, x.2, x.3, name, time, info);
    InsertedCells(t, r, x.0, x.1, x.2, x.3, name, time, info);
    UnionAgain(Cells(t0), Cells(t), Cells(r), x, j > 0);
    InsertedCellShows(t, r, x, name, times, j, info);
  }

  ghost predicate FillState(p: Params, cs: seq<(string, string)>, t0: Tree, t: Tree, n: int, x: Cell, times: seq<string>, j: nat)
    requires j <= |times|
  {
    WellFormed(p, cs, t) && ShowsFilled(t0, t, n, x, times, j)
  }

  /** One iteration of the innermost loop: draw the show for times[j] and insert it. */
  method PutShow(rng: Rng, p: Params, cs: seq<(string, string)>, t0: Tree, t: Tree, n: int, x: Cell, name: string,
                 times: seq<string>, j: nat)
    returns (r: Tree)
    requires rng.Valid() && j < |times| && Distinct(times) && (x.3, name) in cs && SlotOk(p, times[j])
    requires FillState(p, cs, t0, t, n, x, times, j)
    modifies rng
    ensures rng.Valid()
    ensures FillState(p, cs, t0, r, n + 1, x, times, j + 1)
  {
    var info := DrawShow(rng, p, x.1);
    r := InsertShow(t, x.0, x.1, x.2, x.3, name, times[j], info);
    InsertedShowsOk(p, t, r, x.0, x.1, x.2, x.3, name, times[j], info);
    InsertedNamesOk(t, r, cs, x.0, x.1, x.2, x.3, name, times[j], info);
    FillShowsStep(t0, t, r, n, x, name, times, j, info);
  }

  lemma FillStart(p: Params, cs: seq<(string, string)>, t0: Tree, n0: int, x: Cell, times: seq<string>)
    requires n0 == |Entries(t0)| && WellFormed(p, cs, t0) && x !in Cells(t0)
    ensures FillState(p, cs, t0, t0, n0, x, times, 0)
  {
    CellsMembership(t0, x);
  }

  lemma FillDone(p: Params, cs: seq<(string, string)>, t0: Tree, t: Tree, n: int, x: Cell, times: seq<string>)
    requires FillState(p, cs, t0, t, n, x, times, |times|)
    ensures n == |Entries(t)| && WellFormed(p, cs, t)
    ensures Cells(t) == Cells(t0) + (if |times| > 0 then {x} else {})
  {
  }

  /**
   * The innermost loop: draw and insert one show per time of one cinema on one
   * date. The cell is new, so each distinct time adds exactly one entry.
   */
  method FillShows(rng: Rng, p: Params, t0: Tree, n0: int, cs: seq<(string, string)>,
                   l: string, f: string, d: string, c: string, name: string, times: seq<string>)
    returns (t: Tree, n: int)
    requires rng.Valid() && Distinct(times) && (c, name) in cs
    requires forall time :: time in times ==> SlotOk(p, time)
    requires n0 == |Entries(t0)| && WellFormed(p, cs, t0)
    requires (l, f, d, c) !in Cells(t0)
    modifies rng
    ensures rng.Valid()
    ensures n == |Entries(t)| && WellFormed(p, cs, t)
    ensures Cells(t) == Cells(t0) + (if |times| > 0 then {(l, f, d, c)} else {})
  {
    t, n := t0, n0;
    FillStart(p, cs, t0, n0, (l, f, d, c), times);
    var j := 0;
    while j < |times|
      invariant 0 <= j <= |times|
      invariant rng.Valid()
      invariant FillState(p, cs, t0, t, n, (l, f, d, c), times, j)
    {
      t := PutShow(rng, p, cs, t0, t, n, (l, f, d, c), name, times, j);
      n := n + 1;
      j := j + 1;
    }
    FillDone(p, cs, t0, t, n, (l, f, d, c), times);
  }

  // ---------- one date: every cinema ----------

  function WinStart(p: Params): int { ParseMinutes(p.showtimeStart) }

  function WinEnd(p: Params): int { ParseMinutes(p.showtimeEnd) }

  /** The times drawn for one cinema are distinct, present exactly when shows are asked for, and well-formed. */
  lemma ShowTimesOk(p: Params, s0: bv32, gap: int)
    ensures var ts := ShowTimes(s0, Max(p.showsPerCinemaPerDay, 0), WinStart(p), WinEnd(p), gap);
      Distinct(ts) && (|ts| > 0 <==> p.showsPerCinemaPerDay >= 1) && forall time :: time in ts ==> SlotOk(p, time)
  {
    var n := Max(p.showsPerCinemaPerDay, 0);
    ShowTimesAreDedup(s0, n, WinStart(p), WinEnd(p), gap);
    ShowTimesShape(s0, n, WinStart(p), WinEnd(p), gap);
    if 0 <= WinStart(p) < WinEnd(p) <= 6000 {
      ShowTimesInWindow(s0, n, WinStart(p), WinEnd(p), gap);
    }
  }

  /** Cinema ids are pairwise different. */
  ghost predicate IdsDistinct(cs: seq<(string, string)>) {
    forall i, k :: 0 <= i < k < |cs| ==> cs[i].0 != cs[k].0
  }

  /** The cells of the first j cinemas on one (language, format, date). */
  ghost function CinemaCells(l: string, f: string, d: string, cs: seq<(string, string)>, j: nat): set<Cell> {
    set i | 0 <= i < j && i < |cs| :: (l, f, d, cs[i].0)
  }

  lemma CinemaCellsGrow(l: string, f: string, d: string, cs: seq<(string, string)>, j: nat)
    requires j < |cs|
    ensures CinemaCells(l, f, d, cs, j + 1) == CinemaCells(l, f, d, cs, j) + {(l, f, d, cs[j].0)}
  {
    assert (l, f, d, cs[j].0) in CinemaCells(l, f, d, cs, j + 1);
  }

  lemma CinemaCellsFresh(l: string, f: string, d: string, cs: seq<(string, string)>, j: nat)
    requires j < |cs| && IdsDistinct(cs)
    ensures (l, f, d, cs[j].0) !in CinemaCells(l, f, d, cs, j)
  {
  }

  /** The state of the cinema loop after the first j cinemas. */
  ghost predicate DateFilled(p: Params, cs: seq<(string, string)>, t0: Tree, t: Tree, n: int, l: string, f: string, d: string, j: nat) {
    WellFormed(p, cs, t) && n == |Entries(t)|
    && Cells(t) == Cells(t0) + (if p.showsPerCinemaPerDay >= 1 then CinemaCells(l, f, d, cs, j) else {})
  }

  /** No cell of t lies under (l, f, d). */
  ghost predicate FreshDate(t: Tree, l: string, f: string, d: string) {
    forall x :: x in Cells(t) ==> (x.0, x.1, x.2) != (l, f, d)
  }

  lemma DateCellFresh(p: Params, cs: seq<(string, string)>, t0: Tree, t: Tree, n: int, l: string, f: string, d: string, j: nat)
    requires j < |cs| && IdsDistinct(cs) && FreshDate(t0, l, f, d)
    requires DateFilled(p, cs, t0, t, n, l, f, d, j)
    ensures (l, f, d, cs[j].0) !in Cells(t)
  {
    CinemaCellsFresh(l, f, d, cs, j);
  }

  lemma DateStep(p: Params, cs: seq<(string, string)>, t0: Tree, t: Tree, t': Tree, n': int,
                 l: string, f: string, d: string, j: nat, grew: bool)
    requires j < |cs| && Cells(t) == Cells(t0) + (if p.showsPerCinemaPerDay >= 1 then CinemaCells(l, f, d, cs, j) else {})
    requires grew <==> p.showsPerCinemaPerDay >= 1
    requires Cells(t') == Cells(t) + (if grew then {(l, f, d, cs[j].0)} else {})
    requires WellFormed(p, cs, t') && n' == |Entries(t')|
    ensures DateFilled(p, cs, t0, t', n', l, f, d, j + 1)
  {
    CinemaCellsGrow(l, f, d, cs, j);
  }

  lemma DateStart(p: Params, cs: seq<(string, string)>, t0: Tree, n0: int, l: string, f: string, d: string)
    requires WellFormed(p, cs, t0) && n0 == |Entries(t0)|
    ensures DateFilled(p, cs, t0, t0, n0, l, f, d, 0)
  {
    assert CinemaCells(l, f, d, cs, 0) == {};
  }

  /** One iteration of the cinema loop: draw the cinema's show times and fill them. */
  method FillCinema(rng: Rng, p: Params, gap: int, cs: seq<(string, string)>, t0: Tree, t: Tree, n: int,
                    l: string, f: string, d: string, j: nat)
    returns (t': Tree, n': int)
    requires rng.Valid() && j < |cs| && IdsDistinct(cs) && FreshDate(t0, l, f, d)
    requires DateFilled(p, cs, t0, t, n, l, f, d, j)
    modifies rng
    ensures rng.Valid() && DateFilled(p, cs, t0, t', n', l, f, d, j + 1)
  {
    ghost var s0 := rng.state;
    var times := MakeShowTimes(rng, p.showsPerCinemaPerDay, WinStart(p), WinEnd(p), gap);
    ShowTimesOk(p, s0, gap);
    DateCellFresh(p, cs, t0, t, n, l, f, d, j);
    t', n' := FillShows(rng, p, t, n, cs, l, f, d, cs[j].0, cs[j].1, times);
    DateStep(p, cs, t0, t, t', n', l, f, d, j, |times| > 0);
  }

  /** For one (language, format, date): draw the show times of every cinema, in list order, and fill them. */
  method FillDate(rng: Rng, p: Params, gap: int, cs: seq<(string, string)>, t0: Tree, n0: int,
                  l: string, f: string, d: string)
    returns (t: Tree, n: int)
    requires rng.Valid() && IdsDistinct(cs) && FreshDate(t0, l, f, d)
    requires WellFormed(p, cs, t0) && n0 == |Entries(t0)|
    modifies rng
    ensures rng.Valid() && DateFilled(p, cs, t0, t, n, l, f, d, |cs|)
  {
    t, n := t0, n0;
    DateStart(p, cs, t0, n0, l, f, d);
    var j := 0;
    while j < |cs|
      invariant 0 <= j <= |cs| && rng.Valid()
      invariant DateFilled(p, cs, t0, t, n, l, f, d, j)
    {
      t, n := FillCinema(rng, p, gap, cs, t0, t, n, l, f, d, j);
      j := j + 1;
    }
  }

  // ---------- one format: every date ----------

  /** The cells of the first k dates of one (language, format), every cinema on each. */
  ghost function DateCells(l: string, f: string, dates: seq<string>, k: nat, cs: seq<(string, string)>): set<Cell> {
    set di, i | 0 <= di < k && di < |dates| && 0 <= i < |cs| :: (l, f, dates[di], cs[i].0)
  }

  lemma DateCellsGrow(l: string, f: string, dates: seq<string>, k: nat, cs: seq<(string, string)>)
    requires k < |dates|
    ensures DateCells(l, f, dates, k + 1, cs) == DateCells(l, f, dates, k, cs) + CinemaCells(l, f, dates[k], cs, |cs|)
  {
    forall x | x in CinemaCells(l, f, dates[k], cs, |cs|) ensures x in DateCells(l, f, dates, k + 1, cs) {
      var i :| 0 <= i < |cs| && x == (l, f, dates[k], cs[i].0);
      assert x == (l, f, dates[k], cs[i].0);
    }
    forall x | x in DateCells(l, f, dates, k + 1, cs)
      ensures x in DateCells(l, f, dates, k, cs) + CinemaCells(l, f, dates[k], cs, |cs|)
    {
      var di, i :| 0 <= di < k + 1 && di < |dates| && 0 <= i < |cs| && x == (l, f, dates[di], cs[i].0);
      if di == k {
        assert x in CinemaCells(l, f, dates[k], cs, |cs|);
      }
    }
  }

  /** No cell of t lies under (l, f). */
  ghost predicate FreshFormat(t: Tree, l: string, f: string) {
    forall x :: x in Cells(t) ==> (x.0, x.1) != (l, f)
  }

  /** The state of the date loop after the first k dates. */
  ghost predicate FormatFilled(p: Params, cs: seq<(string, string)>, t0: Tree, t: Tree, n: int,
                               l: string, f: string, dates: seq<string>, k: nat) {
    WellFormed(p, cs, t) && n == |Entries(t)|
    && Cells(t) == Cells(t0) + (if p.showsPerCinemaPerDay >= 1 then DateCells(l, f, dates, k, cs) else {})
  }

  lemma FormatNext(p: Params, cs: seq<(string, string)>, t0: Tree, t: Tree, n: int,
                   l: string, f: string, dates: seq<string>, k: nat)
    requires k < |dates| && Distinct(dates) && FreshFormat(t0, l, f)
    requires FormatFilled(p, cs, t0, t, n, l, f, dates, k)
    ensures FreshDate(t, l, f, dates[k]) && WellFormed(p, cs, t) && n == |Entries(t)|
  {
    forall x | x in Cells(t) ensures (x.0, x.1, x.2) != (l, f, dates[k]) {
      if x in DateCells(l, f, dates, k, cs) {
        var di, i :| 0 <= di < k && di < |dates| && 0 <= i < |cs| && x == (l, f, dates[di], cs[i].0);
        assert dates[di] != dates[k];
      }
    }
  }

  lemma FormatStep(p: Params, cs: seq<(string, string)>, t0: Tree, t1: Tree, t: Tree, n: int,
                   l: string, f: string, dates: seq<string>, k: nat)
    requires k < |dates|
    requires Cells(t1) == Cells(t0) + (if p.showsPerCinemaPerDay >= 1 then DateCells(l, f, dates, k, cs) else {})
    requires DateFilled(p, cs, t1, t, n, l, f, dates[k], |cs|)
    ensures FormatFilled(p, cs, t0, t, n, l, f, dates, k + 1)
  {
    DateCellsGrow(l, f, dates, k, cs);
  }

  lemma FormatStart(p: Params, cs: seq<(string, string)>, t0: Tree, n0: int, l: string, f: string, dates: seq<string>)
    requires WellFormed(p, cs, t0) && n0 == |Entries(t0)|
    ensures FormatFilled(p, cs, t0, t0, n0, l, f, dates, 0)
  {
    assert DateCells(l, f, dates, 0, cs) == {};
  }

  /** One iteration of the date loop: every cinema on dates[k]. */
  method FillOneDate(rng: Rng, p: Params, gap: int, cs: seq<(string, string)>, dates: seq<string>, t0: Tree,
                     t: Tree, n: int, l: string, f: string, k: nat)
    returns (t': Tree, n': int)
    requires rng.Valid() && k < |dates| && IdsDistinct(cs) && Distinct(dates) && FreshFormat(t0, l, f)
    requires FormatFilled(p, cs, t0, t, n, l, f, dates, k)
    modifies rng
    ensures rng.Valid() && FormatFilled(p, cs, t0, t', n', l, f, dates, k + 1)
  {
    FormatNext(p, cs, t0, t, n, l, f, dates, k);
    t', n' := FillDate(rng, p, gap, cs, t, n, l, f, dates[k]);
    FormatStep(p, cs, t0, t, t', n', l, f, dates, k);
  }

  /** For one (language, format): every date of the list, in order. */
  method FillFormat(rng: Rng, p: Params, gap: int, cs: seq<(string, string)>, dates: seq<string>, t0: Tree, n0: int,
                    l: string, f: string)
    returns (t: Tree, n: int)
    requires rng.Valid() && IdsDistinct(cs) && Distinct(dates) && FreshFormat(t0, l, f)
    requires WellFormed(p, cs, t0) && n0 == |Entries(t0)|
    modifies rng
    ensures rng.Valid() && FormatFilled(p, cs, t0, t, n, l, f, dates, |dates|)
  {
    t, n := t0, n0;
    FormatStart(p, cs, t0, n0, l, f, dates);
    var k := 0;
    while k < |dates|
      invariant 0 <= k <= |dates| && rng.Valid()
      invariant FormatFilled(p, cs, t0, t, n, l, f, dates, k)
    {
      t, n := FillOneDate(rng, p, gap, cs, dates, t0, t, n, l, f, k);
      k := k + 1;
    }
  }

  // ---------- one language: every format ----------

  /** The cells of the first a formats of one language, every date and cinema under each. */
  ghost function FormatCells(l: string, fmts: seq<string>, a: nat, dates: seq<string>, cs: seq<(string, string)>): set<Cell> {
    set b, di, i | 0 <= b < a && b < |fmts| && 0 <= di < |dates| && 0 <= i < |cs| :: (l, fmts[b], dates[di], cs[i].0)
  }

  lemma FormatCellsGrow(l: string, fmts: seq<string>, a: nat, dates: seq<string>, cs: seq<(string, string)>)
    requires a < |fmts|
    ensures FormatCells(l, fmts, a + 1, dates, cs) == FormatCells(l, fmts, a, dates, cs) + DateCells(l, fmts[a], dates, |dates|, cs)
  {
    forall x | x in DateCells(l, fmts[a], dates, |dates|, cs) ensures x in FormatCells(l, fmts, a + 1, dates, cs) {
      var di, i :| 0 <= di < |dates| && 0 <= i < |cs| && x == (l, fmts[a], dates[di], cs[i].0);
      assert x == (l, fmts[a], dates[di], cs[i].0);
    }
    forall x | x in FormatCells(l, fmts, a + 1, dates, cs)
      ensures x in FormatCells(l, fmts, a, dates, cs) + DateCells(l, fmts[a], dates, |dates|, cs)
    {
      var b, di, i :| 0 <= b < a + 1 && b < |fmts| && 0 <= di < |dates| && 0 <= i < |cs| && x == (l, fmts[b], dates[di], cs[i].0);
      if b == a {
        assert x in DateCells(l, fmts[a], dates, |dates|, cs);
      }
    }
  }

  /** No cell of t lies under language l. */
  ghost predicate FreshLanguage(t: Tree, l: string) {
    forall x :: x in Cells(t) ==> x.0 != l
  }

  /** The state of the format loop after the first a formats. */
  ghost predicate LanguageFilled(p: Params, cs: seq<(string, string)>, t0: Tree, t: Tree, n: int,
                                 l: string, fmts: seq<string>, dates: seq<string>, a: nat) {
    WellFormed(p, cs, t) && n == |Entries(t)|
    && Cells(t) == Cells(t0) + (if p.showsPerCinemaPerDay >= 1 then FormatCells(l, fmts, a, dates, cs) else {})
  }

  lemma LanguageStart(p: Params, cs: seq<(string, string)>, t0: Tree, n0: int, l: string, fmts: seq<string>, dates: seq<string>)
    requires WellFormed(p, cs, t0) && n0 == |Entries(t0)|
    ensures LanguageFilled(p, cs, t0, t0, n0, l, fmts, dates, 0)
  {
    assert FormatCells(l, fmts, 0, dates, cs) == {};
  }

  lemma LanguageNext(p: Params, cs: seq<(string, string)>, t0: Tree, t: Tree, n: int,
                     l: string, fmts: seq<string>, dates: seq<string>, a: nat)
    requires a < |fmts| && Distinct(fmts) && FreshLanguage(t0, l)
    requires LanguageFilled(p, cs, t0, t, n, l, fmts, dates, a)
    ensures FreshFormat(t, l, fmts[a]) && WellFormed(p, cs, t) && n == |Entries(t)|
  {
    forall x | x in Cells(t) ensures (x.0, x.1) != (l, fmts[a]) {
      if x in FormatCells(l, fmts, a, dates, cs) {
        var b, di, i :| 0 <= b < a && b < |fmts| && 0 <= di < |dates| && 0 <= i < |cs| && x == (l, fmts[b], dates[di], cs[i].0);
        assert fmts[b] != fmts[a];
      }
    }
  }

  lemma LanguageStep(p: Params, cs: seq<(string, string)>, t0: Tree, t1: Tree, t: Tree, n: int,
                     l: string, fmts: seq<string>, dates: seq<string>, a: nat)
    requires a < |fmts|
    requires Cells(t1) == Cells(t0) + (if p.showsPerCinemaPerDay >= 1 then FormatCells(l, fmts, a, dates, cs) else {})
    requires FormatFilled(p, cs, t1, t, n, l, fmts[a], dates, |dates|)
    ensures LanguageFilled(p, cs, t0, t, n, l, fmts, dates, a + 1)
  {
    FormatCellsGrow(l, fmts, a, dates, cs);
  }

  /** One iteration of the format loop: every date under fmts[a]. */
  method FillOneFormat(rng: Rng, p: Params, gap: int, cs: seq<(string, string)>, dates: seq<string>, t0: Tree,
                       t: Tree, n: int, l: string, fmts: seq<string>, a: nat)
    returns (t': Tree, n': int)
    requires rng.Valid() && a < |fmts| && IdsDistinct(cs) && Distinct(dates) && Distinct(fmts) && FreshLanguage(t0, l)
    requires LanguageFilled(p, cs, t0, t, n, l, fmts, dates, a)
    modifies rng
    ensures rng.Valid() && LanguageFilled(p, cs, t0, t', n', l, fmts, dates, a + 1)
  {
    LanguageNext(p, cs, t0, t, n, l, fmts, dates, a);
    t', n' := FillFormat(rng, p, gap, cs, dates, t, n, l, fmts[a]);
    LanguageStep(p, cs, t0, t, t', n', l, fmts, dates, a);
  }

  /** For one language: every one of its formats, in order. */
  method FillLanguage(rng: Rng, p: Params, gap: int, cs: seq<(string, string)>, dates: seq<string>, t0: Tree, n0: int,
                      l: string, fmts: seq<string>)
    returns (t: Tree, n: int)
    requires rng.Valid() && IdsDistinct(cs) && Distinct(dates) && Distinct(fmts) && FreshLanguage(t0, l)
    requires WellFormed(p, cs, t0) && n0 == |Entries(t0)|
    modifies rng
    ensures rng.Valid() && LanguageFilled(p, cs, t0, t, n, l, fmts, dates, |fmts|)
  {
    t, n := t0, n0;
    LanguageStart(p, cs, t0, n0, l, fmts, dates);
    var a := 0;
    while a < |fmts|
      invariant 0 <= a <= |fmts| && rng.Valid()
      invariant LanguageFilled(p, cs, t0, t, n, l, fmts, dates, a)
    {
      t, n := FillOneFormat(rng, p, gap, cs, dates, t0, t, n, l, fmts, a);
      a := a + 1;
    }
  }
}

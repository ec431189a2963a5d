/**
 * The slice the native module returns for one (language, format, date): the
 * theatres of the day ordered by lower-cased name then id, each with its shows
 * ordered by "HH:mm", and the meta counts of theatres and shows.
 */
module NativeSlice {
  import opened Ordering
  import opened InventoryTree

  datatype ShowSlot = ShowSlot(time: string, info: ShowInfo)

  datatype Theatre = Theatre(cinemaId: string, cinemaName: string, shows: seq<ShowSlot>)

  datatype Slice = Slice(
    languageCode: string,
    formatCode: string,
    date: string,
    theatres: seq<Theatre>,
    metaTheatres: int,
    metaShows: int)

  /** The sort key of a cinema of the day: its lower-cased name, then its id. */
  function CinemaKey(day: DayNode, c: string): (string, string)
    requires c in day
  {
    (Lower(day[c].cinemaName), c)
  }

  /** The sort keys of the cinemas ids of the day. */
  function CinemaKeys(day: DayNode, ids: set<string>): set<(string, string)> {
    set c | c in ids && c in day :: CinemaKey(day, c)
  }

  /** dayNode.entries.sortedWith(compareBy({ lowercase name }, { id })), as sort keys. */
  function CinemaOrder(day: DayNode): seq<(string, string)> {
    SortedPairs(CinemaKeys(day, day.Keys))
  }

  /** Different cinemas have different sort keys, since the id is part of the key. */
  lemma {:induction false} CinemaKeysCard(day: DayNode, ids: set<string>)
    requires ids <= day.Keys
    ensures |CinemaKeys(day, ids)| == |ids|
    decreases |ids|
  {
    if ids != {} {
      var c :| c in ids;
      CinemaKeysCard(day, ids - {c});
      assert CinemaKeys(day, ids) == CinemaKeys(day, ids - {c}) + {CinemaKey(day, c)};
      assert CinemaKey(day, c) !in CinemaKeys(day, ids - {c});
    }
  }

  /** The cinema order lists every cinema of the day once, ascending by (lower-cased name, id). */
  lemma CinemaOrderSpec(day: DayNode)
    ensures var order := CinemaOrder(day);
      PairSorted(order) && |order| == |day|
      && (forall i :: 0 <= i < |order| ==> order[i].1 in day && order[i] == CinemaKey(day, order[i].1))
      && (forall c :: c in day ==> CinemaKey(day, c) in order)
  {
    SortedPairsSpec(CinemaKeys(day, day.Keys));
    CinemaKeysCard(day, day.Keys);
    var order := CinemaOrder(day);
    forall i | 0 <= i < |order| ensures order[i].1 in day && order[i] == CinemaKey(day, order[i].1) {
      assert order[i] in CinemaKeys(day, day.Keys);
    }
    forall c | c in day ensures CinemaKey(day, c) in order {
      assert CinemaKey(day, c) in CinemaKeys(day, day.Keys);
    }
  }

  /** Every entry of the cinema order names a cinema of the day. */
  lemma CinemaOrderInDay(day: DayNode)
    ensures forall i :: 0 <= i < |CinemaOrder(day)| ==> CinemaOrder(day)[i].1 in day
  {
    CinemaOrderSpec(day);
  }

  /** cinemaNode.shows.entries.sortedBy { it.key }: the shows of a cinema, earliest "HH:mm" first. */
  function ShowsOf(node: CinemaNode): seq<ShowSlot> {
    var times := SortedKeys(node.shows.Keys);
    SortedKeysSpec(node.shows.Keys);
    seq(|times|, i requires 0 <= i < |times| => ShowSlot(times[i], node.shows[times[i]]))
  }

  /** The shows of a cinema: each of its shows once, with its own info, in ascending time order. */
  lemma ShowsOfSpec(node: CinemaNode)
    ensures var r := ShowsOf(node);
      |r| == |node.shows|
      && (forall i, j :: 0 <= i < j < |r| ==> Lt(r[i].time, r[j].time))
      && (forall i :: 0 <= i < |r| ==> r[i].time in node.shows && r[i].info == node.shows[r[i].time])
      && (forall time :: time in node.shows ==> exists i :: 0 <= i < |r| && r[i].time == time)
  {
    var times := SortedKeys(node.shows.Keys);
    SortedKeysSpec(node.shows.Keys);
    var r := ShowsOf(node);
    forall time | time in node.shows ensures exists i :: 0 <= i < |r| && r[i].time == time {
      var i :| 0 <= i < |times| && times[i] == time;
      assert r[i].time == time;
    }
  }

  /** The theatre entries for the cinemas of order, in that order. */
  function TheatresOf(day: DayNode, order: seq<(string, string)>): seq<Theatre>
    requires forall i :: 0 <= i < |order| ==> order[i].1 in day
  {
    seq(|order|, i requires 0 <= i < |order| =>
      Theatre(order[i].1, day[order[i].1].cinemaName, ShowsOf(day[order[i].1])))
  }

  /** The total number of shows listed under the theatres. */
  function ShowTotal(ths: seq<Theatre>): nat {
    if |ths| == 0 then 0 else ShowTotal(ths[..|ths| - 1]) + |ths[|ths| - 1].shows|
  }

  /** getInventoryFor's answer for a tree: an empty day when any level is missing. */
  function SliceOf(t: Tree, l: string, f: string, d: string): Slice {
    var day := DayOf(t, l, f, d);
    CinemaOrderInDay(day);
    var ths := TheatresOf(day, CinemaOrder(day));
    Slice(l, f, d, ths, |day|, ShowTotal(ths))
  }

  lemma TheatresOfStep(day: DayNode, order: seq<(string, string)>, i: nat)
    requires forall k :: 0 <= k < |order| ==> order[k].1 in day
    requires i < |order|
    ensures TheatresOf(day, order[..i + 1])
         == TheatresOf(day, order[..i]) + [Theatre(order[i].1, day[order[i].1].cinemaName, ShowsOf(day[order[i].1]))]
  {
  }

  /**
   * The body of getInventoryFor: walk the day's cinemas in (lower-cased name, id)
   * order, listing each with its shows by time and adding up the shows.
   */
  method CollectSlice(t: Tree, lang: string, fmt: string, d: string) returns (s: Slice)
    ensures s == SliceOf(t, lang, fmt, d)
  {
    var day := DayOf(t, lang, fmt, d);
    var order := CinemaOrder(day);
    CinemaOrderInDay(day);
    var theatres: seq<Theatre> := [];
    var showCount := 0;
    for i := 0 to |order|
      invariant theatres == TheatresOf(day, order[..i])
      invariant showCount == ShowTotal(theatres)
    {
      var id := order[i].1;
      var shows := ShowsOf(day[id]);
      TheatresOfStep(day, order, i);
      theatres := theatres + [Theatre(id, day[id].cinemaName, shows)];
      showCount := showCount + |shows|;
    }
    assert order[..|order|] == order;
    s := Slice(lang, fmt, d, theatres, |day|, showCount);
  }

  /** A missing language, format or date yields a slice with no theatres and zero counts. */
  lemma SliceOfMissing(t: Tree, l: string, f: string, d: string)
    requires !(l in t && f in t[l] && d in t[l][f])
    ensures SliceOf(t, l, f, d).theatres == []
    ensures SliceOf(t, l, f, d).metaTheatres == 0 && SliceOf(t, l, f, d).metaShows == 0
  {
    assert DayOf(t, l, f, d) == map[];
    CinemaOrderSpec(map[]);
  }

  /** Theatres are listed by lower-cased name, ties broken by id. */
  lemma SliceTheatresSorted(t: Tree, l: string, f: string, d: string)
    ensures var ths := SliceOf(t, l, f, d).theatres;
      forall i, j :: 0 <= i < j < |ths| ==>
        PairLt((Lower(ths[i].cinemaName), ths[i].cinemaId), (Lower(ths[j].cinemaName), ths[j].cinemaId))
  {
    var day := DayOf(t, l, f, d);
    CinemaOrderSpec(day);
    var order := CinemaOrder(day);
    var ths := SliceOf(t, l, f, d).theatres;
    forall i, j | 0 <= i < j < |ths|
      ensures PairLt((Lower(ths[i].cinemaName), ths[i].cinemaId), (Lower(ths[j].cinemaName), ths[j].cinemaId))
    {
      assert (Lower(ths[i].cinemaName), ths[i].cinemaId) == order[i];
      assert (Lower(ths[j].cinemaName), ths[j].cinemaId) == order[j];
    }
  }

  /**
   * Every cinema of the day is listed exactly once, with its own name and its
   * shows, and meta.theatres is the number of theatres listed.
   */
  lemma SliceTheatresExact(t: Tree, l: string, f: string, d: string)
    ensures var s := SliceOf(t, l, f, d);
      |s.theatres| == s.metaTheatres
      && (forall i :: 0 <= i < |s.theatres| ==>
            Has(t, l, f, d, s.theatres[i].cinemaId)
            && s.theatres[i].cinemaName == Node(t, l, f, d, s.theatres[i].cinemaId).cinemaName
            && s.theatres[i].shows == ShowsOf(Node(t, l, f, d, s.theatres[i].cinemaId)))
      && (forall c :: Has(t, l, f, d, c) ==> exists i :: 0 <= i < |s.theatres| && s.theatres[i].cinemaId == c)
      && (forall i, j :: 0 <= i < j < |s.theatres| ==> s.theatres[i].cinemaId != s.theatres[j].cinemaId)
  {
    var day := DayOf(t, l, f, d);
    CinemaOrderSpec(day);
    var order := CinemaOrder(day);
    var s := SliceOf(t, l, f, d);
    forall c | Has(t, l, f, d, c) ensures exists i :: 0 <= i < |s.theatres| && s.theatres[i].cinemaId == c {
      var i :| 0 <= i < |order| && order[i] == CinemaKey(day, c);
      assert s.theatres[i].cinemaId == c;
    }
    forall i, j | 0 <= i < j < |s.theatres| ensures s.theatres[i].cinemaId != s.theatres[j].cinemaId {
      PairLtIrreflexive(order[i]);
    }
  }

  // ---------- meta.shows ----------

  /** The (cinema, time) shows of the cinemas ids of the day. */
  ghost function DayShows(day: DayNode, ids: set<string>): set<(string, string)> {
    set c, time | c in ids && c in day && time in day[c].shows :: (c, time)
  }

  /** The shows of one cinema as (cinema, time) pairs. */
  ghost function CinemaShows(c: string, times: set<string>): set<(string, string)> {
    set time | time in times :: (c, time)
  }

  lemma {:induction false} CinemaShowsCard(c: string, times: set<string>)
    ensures |CinemaShows(c, times)| == |times|
    decreases |times|
  {
    if times != {} {
      var x :| x in times;
      CinemaShowsCard(c, times - {x});
      assert CinemaShows(c, times) == CinemaShows(c, times - {x}) + {(c, x)};
    }
  }

  /** The ids of the first k cinemas of order. */
  ghost function IdsOf(order: seq<(string, string)>, k: nat): set<string>
    requires k <= |order|
  {
    set i | 0 <= i < k :: order[i].1
  }

  /** Adding one more cinema adds exactly its shows, none of them counted before. */
  lemma DayShowsStep(day: DayNode, ids: set<string>, c: string)
    requires c in day && c !in ids
    ensures |DayShows(day, ids + {c})| == |DayShows(day, ids)| + |day[c].shows|
  {
    assert DayShows(day, ids + {c}) == DayShows(day, ids) + CinemaShows(c, day[c].shows.Keys);
    assert DayShows(day, ids) !! CinemaShows(c, day[c].shows.Keys);
    CinemaShowsCard(c, day[c].shows.Keys);
  }

  /** The first k theatres list as many shows as their cinemas hold. */
  lemma {:induction false} ShowTotalPrefix(day: DayNode, order: seq<(string, string)>, k: nat)
    requires forall i :: 0 <= i < |order| ==> order[i].1 in day
    requires forall i, j :: 0 <= i < j < |order| ==> order[i].1 != order[j].1
    requires k <= |order|
    ensures ShowTotal(TheatresOf(day, order[..k])) == |DayShows(day, IdsOf(order, k))|
  {
    if k == 0 {
      assert IdsOf(order, 0) == {};
    } else {
      ShowTotalPrefix(day, order, k - 1);
      var ths := TheatresOf(day, order[..k]);
      assert ths[..k - 1] == TheatresOf(day, order[..k - 1]);
      var c := order[k - 1].1;
      ShowsOfSpec(day[c]);
      assert IdsOf(order, k) == IdsOf(order, k - 1) + {c};
      DayShowsStep(day, IdsOf(order, k - 1), c);
    }
  }

  /** The cinema order names each cinema of the day once. */
  lemma CinemaOrderIds(day: DayNode)
    ensures var order := CinemaOrder(day);
      (forall i :: 0 <= i < |order| ==> order[i].1 in day)
      && (forall i, j :: 0 <= i < j < |order| ==> order[i].1 != order[j].1)
      && IdsOf(order, |order|) == day.Keys
  {
    CinemaOrderSpec(day);
    var order := CinemaOrder(day);
    forall i, j | 0 <= i < j < |order| ensures order[i].1 != order[j].1 {
      PairLtIrreflexive(order[i]);
    }
    forall c | c in day ensures c in IdsOf(order, |order|) {
      var i :| 0 <= i < |order| && order[i] == CinemaKey(day, c);
    }
  }

  /** meta.shows counts every (cinema, time) show of the day exactly once. */
  lemma SliceShowCount(t: Tree, l: string, f: string, d: string)
    ensures SliceOf(t, l, f, d).metaShows == |DayShows(DayOf(t, l, f, d), DayOf(t, l, f, d).Keys)|
  {
    var day := DayOf(t, l, f, d);
    var order := CinemaOrder(day);
    CinemaOrderIds(day);
    ShowTotalPrefix(day, order, |order|);
    assert order[..|order|] == order;
  }
}

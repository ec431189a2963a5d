/**
 * The nested inventory tree shared by the native engine and the JavaScript
 * reducer: language -> format -> date -> cinema id -> cinema node, where a
 * cinema node carries the cinema's display name and its shows keyed by "HH:mm".
 */
module InventoryTree {
  import opened Wrappers

  datatype SeatClass = SeatClass(code: string, name: string, price: int, available: int)

  datatype ShowInfo = ShowInfo(price: int, availableSeats: int, seatClasses: Option<seq<SeatClass>>)

  datatype CinemaNode = CinemaNode(cinemaName: string, shows: map<string, ShowInfo>)

  type DayNode = map<string, CinemaNode>

  type Tree = map<string, map<string, map<string, DayNode>>>

  /** A (language, format, date, cinema) cell of the tree. */
  type Cell = (string, string, string, string)

  /** A (language, format, date, cinema, time) show entry of the tree. */
  type Entry = (string, string, string, string, string)

  predicate Has(t: Tree, l: string, f: string, d: string, c: string) {
    l in t && f in t[l] && d in t[l][f] && c in t[l][f][d]
  }

  function Node(t: Tree, l: string, f: string, d: string, c: string): CinemaNode
    requires Has(t, l, f, d, c)
  {
    t[l][f][d][c]
  }

  /** The cinemas under one (language, format, date), empty when any level is missing. */
  function DayOf(t: Tree, l: string, f: string, d: string): (r: DayNode)
    ensures forall c :: c in r <==> Has(t, l, f, d, c)
    ensures forall c :: c in r ==> r[c] == Node(t, l, f, d, c)
  {
    if l in t && f in t[l] && d in t[l][f] then t[l][f][d] else map[]
  }

  function Lookup(t: Tree, l: string, f: string, d: string, c: string, time: string): (r: Option<ShowInfo>)
    ensures r.Some? <==> Has(t, l, f, d, c) && time in Node(t, l, f, d, c).shows
  {
    if Has(t, l, f, d, c) && time in t[l][f][d][c].shows then Some(t[l][f][d][c].shows[time]) else None
  }

  /** Every cell of the tree. */
  ghost function Cells(t: Tree): set<Cell> {
    set l, f, d, c | l in t && f in t[l] && d in t[l][f] && c in t[l][f][d] :: (l, f, d, c)
  }

  /** Every show entry of the tree. */
  ghost function Entries(t: Tree): set<Entry> {
    set l, f, d, c, time | l in t && f in t[l] && d in t[l][f] && c in t[l][f][d]
                           && time in t[l][f][d][c].shows :: (l, f, d, c, time)
  }

  /** No level of the tree is empty: every key leads to at least one show. */
  ghost predicate Pruned(t: Tree) {
    (forall l :: l in t ==> exists f :: f in t[l])
    && (forall l, f :: l in t && f in t[l] ==> exists d :: d in t[l][f])
    && (forall l, f, d :: l in t && f in t[l] && d in t[l][f] ==> exists c :: c in t[l][f][d])
    && (forall l, f, d, c :: Has(t, l, f, d, c) ==> exists time :: time in Node(t, l, f, d, c).shows)
  }

  /**
   * r is t after inserting one show with getOrPut semantics: missing levels are
   * created, an existing cinema node keeps its name, a new one takes `name`, the
   * show at `time` is set (replacing any previous one), and nothing else changes.
   */
  ghost predicate Inserted(t: Tree, r: Tree, l: string, f: string, d: string, c: string, name: string, time: string, info: ShowInfo) {
    (forall l', f', d', c' :: Has(r, l', f', d', c') <==> Has(t, l', f', d', c') || (l', f', d', c') == (l, f, d, c))
    && Has(r, l, f, d, c)
    && Node(r, l, f, d, c).cinemaName == (if Has(t, l, f, d, c) then Node(t, l, f, d, c).cinemaName else name)
    && Node(r, l, f, d, c).shows == (if Has(t, l, f, d, c) then Node(t, l, f, d, c).shows else map[])[time := info]
    && (forall l', f', d', c' :: Has(t, l', f', d', c') && (l', f', d', c') != (l, f, d, c) ==>
          Node(r, l', f', d', c') == Node(t, l', f', d', c'))
  }

  /** The nested getOrPut chain down to the cinema node, then `shows[time] = info`, as a value. */
  function AddShow(t: Tree, l: string, f: string, d: string, c: string, name: string, time: string, info: ShowInfo): (r: Tree)
    ensures Inserted(t, r, l, f, d, c, name, time, info)
  {
    var fm := if l in t then t[l] else map[];
    var dm := if f in fm then fm[f] else map[];
    var cm := if d in dm then dm[d] else map[];
    var node := if c in cm then cm[c] else CinemaNode(name, map[]);
    t[l := fm[f := dm[d := cm[c := node.(shows := node.shows[time := info])]]]]
  }

  /** Inserting one show into the tree in place: the insertion, which never leaves an empty level behind. */
  method InsertShow(t: Tree, l: string, f: string, d: string, c: string, name: string, time: string, info: ShowInfo)
    returns (r: Tree)
    ensures r == AddShow(t, l, f, d, c, name, time, info)
    ensures Inserted(t, r, l, f, d, c, name, time, info)
    ensures Pruned(t) ==> Pruned(r)
  {
    r := AddShow(t, l, f, d, c, name, time, info);
    if Pruned(t) {
      AddShowPruned(t, l, f, d, c, name, time, info);
    }
  }

  lemma EntriesMembership(t: Tree, e: Entry)
    ensures e in Entries(t) <==> Has(t, e.0, e.1, e.2, e.3) && e.4 in Node(t, e.0, e.1, e.2, e.3).shows
  {
    if Has(t, e.0, e.1, e.2, e.3) && e.4 in Node(t, e.0, e.1, e.2, e.3).shows {
      assert (e.0, e.1, e.2, e.3, e.4) in Entries(t);
    }
  }

  lemma CellsMembership(t: Tree, x: Cell)
    ensures x in Cells(t) <==> Has(t, x.0, x.1, x.2, x.3)
  {
    if Has(t, x.0, x.1, x.2, x.3) {
      assert (x.0, x.1, x.2, x.3) in Cells(t);
    }
  }

  /** Inserting a show adds exactly its entry. */
  lemma InsertedEntries(t: Tree, r: Tree, l: string, f: string, d: string, c: string, name: string, time: string, info: ShowInfo)
    requires Inserted(t, r, l, f, d, c, name, time, info)
    ensures Entries(r) == Entries(t) + {(l, f, d, c, time)}
  {
    forall e: Entry ensures e in Entries(r) <==> e in Entries(t) + {(l, f, d, c, time)} {
      EntriesMembership(r, e);
      EntriesMembership(t, e);
    }
  }

  /** Inserting a show adds exactly its cell. */
  lemma InsertedCells(t: Tree, r: Tree, l: string, f: string, d: string, c: string, name: string, time: string, info: ShowInfo)
    requires Inserted(t, r, l, f, d, c, name, time, info)
    ensures Cells(r) == Cells(t) + {(l, f, d, c)}
  {
    forall x: Cell ensures x in Cells(r) <==> x in Cells(t) + {(l, f, d, c)} {
      CellsMembership(r, x);
      CellsMembership(t, x);
    }
  }

  /** Inserting a show never leaves an empty level behind. */
  lemma AddShowPruned(t: Tree, l: string, f: string, d: string, c: string, name: string, time: string, info: ShowInfo)
    requires Pruned(t)
    ensures Pruned(AddShow(t, l, f, d, c, name, time, info))
  {
    var r := AddShow(t, l, f, d, c, name, time, info);
    AddShowLanguages(t, l, f, d, c, name, time, info);
    AddShowFormats(t, l, f, d, c, name, time, info);
    AddShowDates(t, l, f, d, c, name, time, info);
    forall l', f', d', c' | Has(r, l', f', d', c') ensures exists time :: time in Node(r, l', f', d', c').shows {
      if (l', f', d', c') == (l, f, d, c) {
        assert time in Node(r, l, f, d, c).shows;
      }
    }
  }

  lemma AddShowLanguages(t: Tree, l: string, f: string, d: string, c: string, name: string, time: string, info: ShowInfo)
    requires forall l :: l in t ==> exists f :: f in t[l]
    ensures var r := AddShow(t, l, f, d, c, name, time, info); forall l' :: l' in r ==> exists f' :: f' in r[l']
  {
    var r := AddShow(t, l, f, d, c, name, time, info);
    assert f in r[l];
    forall l' | l' in r && l' != l ensures exists f' :: f' in r[l'] {
      assert r[l'] == t[l'];
    }
  }

  lemma AddShowFormats(t: Tree, l: string, f: string, d: string, c: string, name: string, time: string, info: ShowInfo)
    requires forall l, f :: l in t && f in t[l] ==> exists d :: d in t[l][f]
    ensures var r := AddShow(t, l, f, d, c, name, time, info);
      forall l', f' :: l' in r && f' in r[l'] ==> exists d' :: d' in r[l'][f']
  {
    var r := AddShow(t, l, f, d, c, name, time, info);
    assert d in r[l][f];
    forall l', f' | l' in r && f' in r[l'] && (l', f') != (l, f) ensures exists d' :: d' in r[l'][f'] {
      assert r[l'][f'] == t[l'][f'];
    }
  }

  lemma AddShowDates(t: Tree, l: string, f: string, d: string, c: string, name: string, time: string, info: ShowInfo)
    requires forall l, f, d :: l in t && f in t[l] && d in t[l][f] ==> exists c :: c in t[l][f][d]
    ensures var r := AddShow(t, l, f, d, c, name, time, info);
      forall l', f', d' :: l' in r && f' in r[l'] && d' in r[l'][f'] ==> exists c' :: c' in r[l'][f'][d']
  {
    var r := AddShow(t, l, f, d, c, name, time, info);
    assert c in r[l][f][d];
    forall l', f', d' | l' in r && f' in r[l'] && d' in r[l'][f'] && (l', f', d') != (l, f, d)
      ensures exists c' :: c' in r[l'][f'][d']
    {
      assert r[l'][f'][d'] == t[l'][f'][d'];
    }
  }

  /** In a pruned tree each cell holds at least one entry, so the cells are the entries' prefixes. */
  lemma CellsOfEntries(t: Tree)
    requires Pruned(t)
    ensures Cells(t) == set e | e in Entries(t) :: (e.0, e.1, e.2, e.3)
  {
    forall x | x in Cells(t) ensures exists e :: e in Entries(t) && x == (e.0, e.1, e.2, e.3) {
      CellsMembership(t, x);
      var time :| time in Node(t, x.0, x.1, x.2, x.3).shows;
      EntriesMembership(t, (x.0, x.1, x.2, x.3, time));
    }
    forall e | e in Entries(t) ensures (e.0, e.1, e.2, e.3) in Cells(t) {
      EntriesMembership(t, e);
      CellsMembership(t, (e.0, e.1, e.2, e.3));
    }
  }
}

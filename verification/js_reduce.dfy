/**
 * buildInventoryMap in inventoryUtils.ts: the flat `items` list folded, in
 * order, into the nested tree language -> format -> date -> cinema -> time.
 */
module JsReduce {
  import opened Wrappers
  import opened Ordering
  import opened InventoryTree
  import opened JsGen
  import opened JsItems

  /** The tree entry an item lands on. */
  function KeyOf(it: Item): Entry {
    (it.languageCode, it.formatCode, it.date, it.cinemaId, it.showTime)
  }

  /** The cinema cell an item lands in. */
  function CellOf(it: Item): Cell {
    (it.languageCode, it.formatCode, it.date, it.cinemaId)
  }

  /** What the show entry records: price, seats, and the seat classes when the item has them. */
  function InfoOf(it: Item): ShowInfo {
    ShowInfo(it.basePrice, it.availableSeats, it.seatClasses)
  }

  /** cinemaNameOf: the dictionary's name for the id, else the item's own name, else the id. */
  function CinemaNameOf(cinemas: map<string, CinemaMeta>, id: string, fallback: Option<string>): (name: string)
    ensures id in cinemas ==> name == cinemas[id].name
    ensures id !in cinemas && fallback.Some? ==> name == fallback.value
    ensures id !in cinemas && fallback.None? ==> name == id
  {
    if id in cinemas then cinemas[id].name
    else if fallback.Some? then fallback.value
    else id
  }

  /** The tree after folding the items in order. */
  function Reduced(cinemas: map<string, CinemaMeta>, items: seq<Item>): Tree {
    if |items| == 0 then map[]
    else
      var it := items[|items| - 1];
      AddShow(Reduced(cinemas, items[..|items| - 1]), it.languageCode, it.formatCode, it.date, it.cinemaId,
              CinemaNameOf(cinemas, it.cinemaId, it.cinemaName), it.showTime, InfoOf(it))
  }

  /** buildInventoryMap: one getOrPut chain and one show assignment per item. */
  method BuildInventoryMap(resp: JsResponse) returns (t: Tree)
    ensures t == Reduced(resp.cinemas, resp.items)
    ensures Pruned(t)
  {
    t := map[];
    var i := 0;
    while i < |resp.items|
      invariant 0 <= i <= |resp.items|
      invariant t == Reduced(resp.cinemas, resp.items[..i])
    {
      var it := resp.items[i];
      assert resp.items[..i + 1][..i] == resp.items[..i];
      t := AddShow(t, it.languageCode, it.formatCode, it.date, it.cinemaId,
                   CinemaNameOf(resp.cinemas, it.cinemaId, it.cinemaName), it.showTime, InfoOf(it));
      i := i + 1;
    }
    assert resp.items[..i] == resp.items;
    ReducedPruned(resp.cinemas, resp.items);
  }

  /** The keys the items carry. */
  ghost function KeysOf(items: seq<Item>): set<Entry> {
    set i | 0 <= i < |items| :: KeyOf(items[i])
  }

  lemma KeysOfSnoc(items: seq<Item>)
    requires |items| > 0
    ensures KeysOf(items) == KeysOf(items[..|items| - 1]) + {KeyOf(items[|items| - 1])}
  {
    var prev := items[..|items| - 1];
    forall e ensures e in KeysOf(items) <==> e in KeysOf(prev) + {KeyOf(items[|items| - 1])} {
      if e in KeysOf(items) {
        var i :| 0 <= i < |items| && KeyOf(items[i]) == e;
        if i < |items| - 1 {
          assert prev[i] == items[i];
        }
      }
      if e in KeysOf(prev) {
        var i :| 0 <= i < |prev| && KeyOf(prev[i]) == e;
        assert items[i] == prev[i];
      }
    }
  }

  /** The tree holds exactly one entry per distinct item key. */
  lemma {:induction false} ReducedEntries(cinemas: map<string, CinemaMeta>, items: seq<Item>)
    ensures Entries(Reduced(cinemas, items)) == KeysOf(items)
    decreases |items|
  {
    if |items| > 0 {
      var prev := items[..|items| - 1];
      var it := items[|items| - 1];
      ReducedEntries(cinemas, prev);
      InsertedEntries(Reduced(cinemas, prev), Reduced(cinemas, items), it.languageCode, it.formatCode, it.date,
                      it.cinemaId, CinemaNameOf(cinemas, it.cinemaId, it.cinemaName), it.showTime, InfoOf(it));
      KeysOfSnoc(items);
    } else {
      assert Entries(Reduced(cinemas, items)) == {};
    }
  }

  /** There are never more show entries than items: a repeated key overwrites. */
  lemma {:induction false} ReducedEntriesBound(cinemas: map<string, CinemaMeta>, items: seq<Item>)
    ensures |Entries(Reduced(cinemas, items))| <= |items|
    decreases |items|
  {
    if |items| > 0 {
      var prev := items[..|items| - 1];
      var it := items[|items| - 1];
      ReducedEntriesBound(cinemas, prev);
      InsertedEntries(Reduced(cinemas, prev), Reduced(cinemas, items), it.languageCode, it.formatCode, it.date,
                      it.cinemaId, CinemaNameOf(cinemas, it.cinemaId, it.cinemaName), it.showTime, InfoOf(it));
    } else {
      assert Entries(Reduced(cinemas, items)) == {};
    }
  }

  /** The entry of an item that no later item shares holds that item's price, seats and seat classes. */
  lemma {:induction false} LastItemWins(cinemas: map<string, CinemaMeta>, items: seq<Item>, i: nat)
    requires i < |items|
    requires forall j :: i < j < |items| ==> KeyOf(items[j]) != KeyOf(items[i])
    ensures var it := items[i];
      Lookup(Reduced(cinemas, items), it.languageCode, it.formatCode, it.date, it.cinemaId, it.showTime) == Some(InfoOf(it))
    decreases |items|
  {
    var prev := items[..|items| - 1];
    if i < |items| - 1 {
      forall j | i < j < |prev| ensures KeyOf(prev[j]) != KeyOf(prev[i]) {
        assert prev[j] == items[j];
      }
      LastItemWins(cinemas, prev, i);
      assert prev[i] == items[i];
    }
  }

  /** A cinema node keeps the name chosen when its first item arrived. */
  lemma {:induction false} FirstItemNames(cinemas: map<string, CinemaMeta>, items: seq<Item>, i: nat)
    requires i < |items|
    requires forall j :: 0 <= j < i ==> CellOf(items[j]) != CellOf(items[i])
    ensures var it := items[i];
      Has(Reduced(cinemas, items), it.languageCode, it.formatCode, it.date, it.cinemaId)
      && Node(Reduced(cinemas, items), it.languageCode, it.formatCode, it.date, it.cinemaId).cinemaName
         == CinemaNameOf(cinemas, it.cinemaId, it.cinemaName)
    decreases |items|
  {
    var prev := items[..|items| - 1];
    if i < |items| - 1 {
      forall j | 0 <= j < i ensures CellOf(prev[j]) != CellOf(prev[i]) {
        assert prev[j] == items[j];
      }
      LastItemWinsOrNew(cinemas, prev, i);
      FirstItemNames(cinemas, prev, i);
      assert prev[i] == items[i];
    } else {
      NoEarlierCell(cinemas, prev, CellOf(items[i]));
    }
  }

  /** Every item's cell is in the tree built from it. */
  lemma LastItemWinsOrNew(cinemas: map<string, CinemaMeta>, items: seq<Item>, i: nat)
    requires i < |items|
    ensures var it := items[i]; Has(Reduced(cinemas, items), it.languageCode, it.formatCode, it.date, it.cinemaId)
  {
    ReducedEntries(cinemas, items);
    EntriesMembership(Reduced(cinemas, items), KeyOf(items[i]));
  }

  /** A cell no item lands in is not in the tree. */
  lemma NoEarlierCell(cinemas: map<string, CinemaMeta>, items: seq<Item>, x: Cell)
    requires forall j :: 0 <= j < |items| ==> CellOf(items[j]) != x
    ensures !Has(Reduced(cinemas, items), x.0, x.1, x.2, x.3)
  {
    var t := Reduced(cinemas, items);
    ReducedEntries(cinemas, items);
    ReducedPruned(cinemas, items);
    if Has(t, x.0, x.1, x.2, x.3) {
      var time :| time in Node(t, x.0, x.1, x.2, x.3).shows;
      EntriesMembership(t, (x.0, x.1, x.2, x.3, time));
    }
  }

  /** The folded tree has no empty level. */
  lemma {:induction false} ReducedPruned(cinemas: map<string, CinemaMeta>, items: seq<Item>)
    ensures Pruned(Reduced(cinemas, items))
    decreases |items|
  {
    if |items| > 0 {
      var it := items[|items| - 1];
      ReducedPruned(cinemas, items[..|items| - 1]);
      AddShowPruned(Reduced(cinemas, items[..|items| - 1]), it.languageCode, it.formatCode, it.date, it.cinemaId,
                    CinemaNameOf(cinemas, it.cinemaId, it.cinemaName), it.showTime, InfoOf(it));
    }
  }

  // ---------- key order ----------

  /** The keys an item is filed under, outermost first: language, format, date, cinema. */
  function PathOf(it: Item): (p: seq<string>)
    ensures |p| == 4
  {
    [it.languageCode, it.formatCode, it.date, it.cinemaId]
  }

  /** The keys of the tree level reached by following `prefix` (none when a step is missing). */
  function KeysUnder(t: Tree, prefix: seq<string>): set<string>
    requires |prefix| < 4
  {
    if |prefix| == 0 then t.Keys
    else if prefix[0] !in t then {}
    else if |prefix| == 1 then t[prefix[0]].Keys
    else if prefix[1] !in t[prefix[0]] then {}
    else if |prefix| == 2 then t[prefix[0]][prefix[1]].Keys
    else if prefix[2] !in t[prefix[0]][prefix[1]] then {}
    else t[prefix[0]][prefix[1]][prefix[2]].Keys
  }

  /** The key an item adds at the level under `prefix`, if it is filed under that prefix. */
  function KeyBelow(it: Item, prefix: seq<string>): (r: Option<string>)
    requires |prefix| < 4
    ensures r.Some? <==> PathOf(it)[..|prefix|] == prefix
    ensures r.Some? ==> r.value == PathOf(it)[|prefix|]
  {
    if PathOf(it)[..|prefix|] == prefix then Some(PathOf(it)[|prefix|]) else None
  }

  /**
   * `Object.keys` of the level under `prefix` after the fold: the object keeps
   * its keys in creation order, and a key is created when `!map[k]` finds it missing.
   */
  function KeyOrder(cinemas: map<string, CinemaMeta>, items: seq<Item>, prefix: seq<string>): seq<string>
    requires |prefix| < 4
  {
    if |items| == 0 then []
    else
      var prev := items[..|items| - 1];
      var k := KeyBelow(items[|items| - 1], prefix);
      var order := KeyOrder(cinemas, prev, prefix);
      if k.Some? && k.value !in KeysUnder(Reduced(cinemas, prev), prefix) then order + [k.value] else order
  }

  /** The keys the items name at the level under `prefix`, one per matching item, in item order. */
  function KeysNamed(items: seq<Item>, prefix: seq<string>): seq<string>
    requires |prefix| < 4
  {
    if |items| == 0 then []
    else
      var k := KeyBelow(items[|items| - 1], prefix);
      KeysNamed(items[..|items| - 1], prefix) + (if k.Some? then [k.value] else [])
  }

  /** One insertion adds at most its own key to each level on its path, and nothing elsewhere. */
  lemma AddShowKeysUnder(t: Tree, l: string, f: string, d: string, c: string, name: string, time: string,
                         info: ShowInfo, prefix: seq<string>)
    requires |prefix| < 4
    ensures var p := [l, f, d, c];
      KeysUnder(AddShow(t, l, f, d, c, name, time, info), prefix)
      == KeysUnder(t, prefix) + (if p[..|prefix|] == prefix then {p[|prefix|]} else {})
  {
  }

  /**
   * The key order of every level is the order in which the items first name
   * its keys, it holds each key of that level of the tree once, and no other.
   */
  lemma {:induction false} KeyOrderSpec(cinemas: map<string, CinemaMeta>, items: seq<Item>, prefix: seq<string>)
    requires |prefix| < 4
    ensures KeyOrder(cinemas, items, prefix) == Dedup(KeysNamed(items, prefix))
    ensures forall k :: k in KeyOrder(cinemas, items, prefix) <==> k in KeysUnder(Reduced(cinemas, items), prefix)
    decreases |items|
  {
    if |items| > 0 {
      var prev := items[..|items| - 1];
      var it := items[|items| - 1];
      KeyOrderSpec(cinemas, prev, prefix);
      AddShowKeysUnder(Reduced(cinemas, prev), it.languageCode, it.formatCode, it.date, it.cinemaId,
                       CinemaNameOf(cinemas, it.cinemaId, it.cinemaName), it.showTime, InfoOf(it), prefix);
      var named := KeysNamed(items, prefix);
      if KeyBelow(it, prefix).Some? {
        assert named[..|named| - 1] == KeysNamed(prev, prefix);
      } else {
        assert named == KeysNamed(prev, prefix);
      }
    }
  }

  /** Each level lists its keys once, in the order the items first name them. */
  lemma KeyOrderFirstAppearance(cinemas: map<string, CinemaMeta>, items: seq<Item>, prefix: seq<string>)
    requires |prefix| < 4
    ensures var order := KeyOrder(cinemas, items, prefix);
      Distinct(order)
      && (forall k :: k in order <==> k in KeysNamed(items, prefix))
      && forall i, j :: 0 <= i < j < |order| ==>
           FirstIndex(KeysNamed(items, prefix), order[i]) < FirstIndex(KeysNamed(items, prefix), order[j])
  {
    KeyOrderSpec(cinemas, items, prefix);
    DedupProperties(KeysNamed(items, prefix));
  }
}

/**
 * BookingInventoryProcessor.processInventory in bookingInventoryProcessor.ts:
 * a product's variants give a tour table (tour -> the variants that contain it)
 * and a variant table; the availabilities are then filed under every variant of
 * their tour, by tour and start date, keeping the cheapest availability of each
 * date, one availability per start time, and the first and last dates seen.
 */
module Booking {
  import opened Wrappers

  datatype PersonPrice = PersonPrice(kind: string, retailPrice: real, listingPrice: real, extraCharges: real,
                                     inclusiveOfExtraCharges: bool, discount: real)

  datatype PriceProfile = PriceProfile(priceProfileType: string, persons: seq<PersonPrice>, people: int)

  /** The fields of an availability that processInventory reads or keeps. */
  datatype Availability = Availability(startDate: string, startTime: string, tourId: int, vendorId: int,
                                       endTime: string, priceProfile: PriceProfile)

  datatype Tour = Tour(id: int)

  datatype Variant = Variant(id: int, tours: seq<Tour>)

  /** A date as dayjs holds it: a day number, or None for dayjs's Invalid Date. */
  type Day = Option<int>

  /**
   * The library calls processInventory makes, whose code is not part of this model:
   * getPriceFromPriceProfile and dayjs(startDate).
   */
  datatype Env = Env(price: PriceProfile -> real, dayjs: string -> Day)

  /** isBefore and isAfter: an Invalid Date compares false with everything. */
  predicate IsBefore(a: Day, b: Day) {
    a.Some? && b.Some? && a.value < b.value
  }

  predicate IsAfter(a: Day, b: Day) {
    a.Some? && b.Some? && a.value > b.value
  }

  datatype TourDetails = TourDetails(tour: Tour, variantIds: seq<int>)

  datatype DateAvail = DateAvail(minPriced: Availability, timeSlots: map<string, seq<Availability>>)

  datatype TourAvail = TourAvail(tourId: int, firstDate: Day, lastDate: Day, dates: map<string, DateAvail>)

  datatype VariantAvail = VariantAvail(variantId: int, tours: map<int, TourAvail>)

  datatype Processed = Processed(variantAvailability: map<int, VariantAvail>,
                                 tourInfo: map<int, TourDetails>,
                                 variantInfo: map<int, Variant>)

  // ---------- helpers on sequences ----------

  function Rep<T>(x: T, n: nat): (r: seq<T>)
    ensures |r| == n && forall i :: 0 <= i < n ==> r[i] == x
  {
    seq(n, _ => x)
  }

  function Count(xs: seq<int>, x: int): nat {
    if |xs| == 0 then 0 else Count(xs[..|xs| - 1], x) + (if xs[|xs| - 1] == x then 1 else 0)
  }

  lemma {:induction false} CountPositive(xs: seq<int>, x: int)
    ensures Count(xs, x) > 0 <==> x in xs
    decreases |xs|
  {
    if |xs| > 0 {
      CountPositive(xs[..|xs| - 1], x);
      assert xs == xs[..|xs| - 1] + [xs[|xs| - 1]];
    }
  }

  // ---------- the tour and variant tables ----------

  /** One tour of variant vid: a known tour gets vid appended, a new one starts with [vid]. */
  function AddTour(m: map<int, TourDetails>, vid: int, tour: Tour): map<int, TourDetails> {
    if tour.id in m then m[tour.id := m[tour.id].(variantIds := m[tour.id].variantIds + [vid])]
    else m[tour.id := TourDetails(tour, [vid])]
  }

  function AddTours(m: map<int, TourDetails>, vid: int, tours: seq<Tour>): map<int, TourDetails> {
    if |tours| == 0 then m else AddTour(AddTours(m, vid, tours[..|tours| - 1]), vid, tours[|tours| - 1])
  }

  /** tourIdsInfoMap after the variants, in order. */
  function TourTable(vs: seq<Variant>): map<int, TourDetails> {
    if |vs| == 0 then map[] else AddTours(TourTable(vs[..|vs| - 1]), vs[|vs| - 1].id, vs[|vs| - 1].tours)
  }

  /** variantIdToVariantMap after the variants, in order. */
  function VariantTable(vs: seq<Variant>): map<int, Variant> {
    if |vs| == 0 then map[] else VariantTable(vs[..|vs| - 1])[vs[|vs| - 1].id := vs[|vs| - 1]]
  }

  /** How many of the tours have id t. */
  function TourCount(tours: seq<Tour>, t: int): nat {
    if |tours| == 0 then 0 else TourCount(tours[..|tours| - 1], t) + (if tours[|tours| - 1].id == t then 1 else 0)
  }

  /** The id of each variant, once for each of its tours with id t, in variant order. */
  function VariantsWith(vs: seq<Variant>, t: int): seq<int> {
    if |vs| == 0 then [] else VariantsWith(vs[..|vs| - 1], t) + Rep(vs[|vs| - 1].id, TourCount(vs[|vs| - 1].tours, t))
  }

  ghost predicate TourKeyed(m: map<int, TourDetails>) {
    forall t :: t in m ==> m[t].tour.id == t
  }

  lemma {:induction false} AddToursSpec(m: map<int, TourDetails>, vid: int, tours: seq<Tour>)
    requires TourKeyed(m)
    ensures var r := AddTours(m, vid, tours);
      TourKeyed(r)
      && forall t :: (t in r <==> t in m || TourCount(tours, t) > 0)
           && (t in r ==> r[t].variantIds == (if t in m then m[t].variantIds else []) + Rep(vid, TourCount(tours, t)))
    decreases |tours|
  {
    if |tours| > 0 {
      var prev := tours[..|tours| - 1];
      AddToursSpec(m, vid, prev);
      var r0 := AddTours(m, vid, prev);
      var r := AddTours(m, vid, tours);
      forall t | t in r
        ensures r[t].variantIds == (if t in m then m[t].variantIds else []) + Rep(vid, TourCount(tours, t))
      {
        var base := if t in m then m[t].variantIds else [];
        if t == tours[|tours| - 1].id {
          if t in r0 {
            assert Rep(vid, TourCount(prev, t)) + [vid] == Rep(vid, TourCount(tours, t));
          } else {
            assert Rep(vid, TourCount(tours, t)) == [vid];
          }
        }
      }
    }
  }

  /** tourIdsInfoMap[t] exists exactly for the tours of some variant, and lists their variants in order. */
  lemma {:induction false} TourTableSpec(vs: seq<Variant>)
    ensures var m := TourTable(vs);
      TourKeyed(m)
      && forall t :: (t in m <==> VariantsWith(vs, t) != []) && (t in m ==> m[t].variantIds == VariantsWith(vs, t))
    decreases |vs|
  {
    if |vs| > 0 {
      var prev := vs[..|vs| - 1];
      TourTableSpec(prev);
      AddToursSpec(TourTable(prev), vs[|vs| - 1].id, vs[|vs| - 1].tours);
    }
  }

  lemma {:induction false} TourCountPositive(tours: seq<Tour>, t: int)
    ensures TourCount(tours, t) > 0 <==> exists j :: 0 <= j < |tours| && tours[j].id == t
    decreases |tours|
  {
    if |tours| > 0 {
      var prev := tours[..|tours| - 1];
      TourCountPositive(prev, t);
      if exists j :: 0 <= j < |tours| && tours[j].id == t {
        var j :| 0 <= j < |tours| && tours[j].id == t;
        if j < |tours| - 1 {
          assert prev[j] == tours[j];
        }
      }
      if exists j :: 0 <= j < |prev| && prev[j].id == t {
        var j :| 0 <= j < |prev| && prev[j].id == t;
        assert tours[j] == prev[j];
      }
    }
  }

  /** A variant id is listed for tour t exactly when that variant has a tour with id t. */
  lemma {:induction false} VariantsWithMembers(vs: seq<Variant>, t: int, vid: int)
    ensures vid in VariantsWith(vs, t) <==>
      exists i, j :: 0 <= i < |vs| && 0 <= j < |vs[i].tours| && vs[i].id == vid && vs[i].tours[j].id == t
    decreases |vs|
  {
    if |vs| > 0 {
      var prev := vs[..|vs| - 1];
      var last := vs[|vs| - 1];
      VariantsWithMembers(prev, t, vid);
      TourCountPositive(last.tours, t);
      if exists i, j :: 0 <= i < |vs| && 0 <= j < |vs[i].tours| && vs[i].id == vid && vs[i].tours[j].id == t {
        var i, j :| 0 <= i < |vs| && 0 <= j < |vs[i].tours| && vs[i].id == vid && vs[i].tours[j].id == t;
        if i < |vs| - 1 {
          assert prev[i] == vs[i];
        } else {
          assert Rep(last.id, TourCount(last.tours, t))[0] == vid;
        }
      }
      if vid in VariantsWith(prev, t) {
        var i, j :| 0 <= i < |prev| && 0 <= j < |prev[i].tours| && prev[i].id == vid && prev[i].tours[j].id == t;
        assert vs[i] == prev[i];
      }
    }
  }

  /** variantIdToVariantMap holds every variant id, mapped to the last variant with that id. */
  lemma VariantTableSpec(vs: seq<Variant>)
    ensures var m := VariantTable(vs);
      (forall k :: k in m <==> exists i :: 0 <= i < |vs| && vs[i].id == k)
      && forall i :: 0 <= i < |vs| && (forall j :: i < j < |vs| ==> vs[j].id != vs[i].id) ==> m[vs[i].id] == vs[i]
  {
    VariantTableKeys(vs);
    VariantTableLast(vs);
  }

  lemma {:induction false} VariantTableKeys(vs: seq<Variant>)
    ensures forall k :: k in VariantTable(vs) <==> exists i :: 0 <= i < |vs| && vs[i].id == k
    decreases |vs|
  {
    if |vs| > 0 {
      var prev := vs[..|vs| - 1];
      VariantTableKeys(prev);
      forall k | k in VariantTable(vs) ensures exists i :: 0 <= i < |vs| && vs[i].id == k {
        if k != vs[|vs| - 1].id {
          assert k in VariantTable(prev);
          var i :| 0 <= i < |prev| && prev[i].id == k;
          assert vs[i] == prev[i];
        }
      }
      forall k | exists i :: 0 <= i < |vs| && vs[i].id == k ensures k in VariantTable(vs) {
        var i :| 0 <= i < |vs| && vs[i].id == k;
        if i < |vs| - 1 {
          assert prev[i] == vs[i];
        }
      }
    }
  }

  lemma {:induction false} VariantTableLast(vs: seq<Variant>)
    ensures forall i :: 0 <= i < |vs| && (forall j :: i < j < |vs| ==> vs[j].id != vs[i].id) ==>
      vs[i].id in VariantTable(vs) && VariantTable(vs)[vs[i].id] == vs[i]
    decreases |vs|
  {
    if |vs| > 0 {
      var prev := vs[..|vs| - 1];
      VariantTableLast(prev);
      forall i | 0 <= i < |vs| - 1 && (forall j :: i < j < |vs| ==> vs[j].id != vs[i].id)
        ensures vs[i].id in VariantTable(vs) && VariantTable(vs)[vs[i].id] == vs[i]
      {
        assert prev[i] == vs[i];
        forall j | i < j < |prev| ensures prev[j].id != prev[i].id {
          assert prev[j] == vs[j];
        }
      }
    }
  }

  // ---------- filing one availability ----------

  /** The date entry after one more availability: the cheaper of the two (a tie goes to the newcomer) and its slot. */
  function DateStep(env: Env, e: Option<DateAvail>, a: Availability): DateAvail {
    if e.None? then DateAvail(a, map[a.startTime := [a]])
    else
      var min := if env.price(e.value.minPriced.priceProfile) < env.price(a.priceProfile) then e.value.minPriced else a;
      DateAvail(min, e.value.timeSlots[a.startTime := [a]])
  }

  /** The tour entry after one more availability: its date filed, the first and last dates widened. */
  function TourStep(env: Env, e: Option<TourAvail>, a: Availability): TourAvail {
    var day := env.dayjs(a.startDate);
    if e.None? then TourAvail(a.tourId, day, day, map[a.startDate := DateStep(env, None, a)])
    else
      var ta := e.value;
      var prior := if a.startDate in ta.dates then Some(ta.dates[a.startDate]) else None;
      TourAvail(ta.tourId,
                if IsBefore(ta.firstDate, day) then ta.firstDate else day,
                if IsAfter(ta.lastDate, day) then ta.lastDate else day,
                ta.dates[a.startDate := DateStep(env, prior, a)])
  }

  /** The tour entry of variant vid for tour t, if there is one. */
  function TourView(m: map<int, VariantAvail>, vid: int, t: int): Option<TourAvail> {
    if vid in m && t in m[vid].tours then Some(m[vid].tours[t]) else None
  }

  /** Filing availability a under variant vid: the three branches on which entries already exist. */
  function FileUnder(env: Env, m: map<int, VariantAvail>, vid: int, a: Availability): (r: map<int, VariantAvail>)
    ensures forall v, t ::
              TourView(r, v, t) ==
                (if v == vid && t == a.tourId then Some(TourStep(env, TourView(m, v, t), a)) else TourView(m, v, t))
    ensures forall v :: v in r <==> v in m || v == vid
    ensures forall v :: v in m ==> r[v].variantId == m[v].variantId
    ensures vid !in m ==> r[vid].variantId == vid
  {
    if vid in m then
      var va := m[vid];
      var prior := if a.tourId in va.tours then Some(va.tours[a.tourId]) else None;
      m[vid := va.(tours := va.tours[a.tourId := TourStep(env, prior, a)])]
    else
      m[vid := VariantAvail(vid, map[a.tourId := TourStep(env, None, a)])]
  }

  /** Filing availability a under each of the variant ids in turn. */
  function FileUnderAll(env: Env, m: map<int, VariantAvail>, vids: seq<int>, a: Availability): map<int, VariantAvail> {
    if |vids| == 0 then m else FileUnder(env, FileUnderAll(env, m, vids[..|vids| - 1], a), vids[|vids| - 1], a)
  }

  /** The whole availability loop; an availability whose tour is in no variant aborts it. */
  function FileAll(env: Env, tinfo: map<int, TourDetails>, avs: seq<Availability>): Result<map<int, VariantAvail>> {
    if |avs| == 0 then Ok(map[])
    else
      var r := FileAll(env, tinfo, avs[..|avs| - 1]);
      var a := avs[|avs| - 1];
      if r.Err? then r
      else if a.tourId !in tinfo then Err(UnknownTour)
      else Ok(FileUnderAll(env, r.value, tinfo[a.tourId].variantIds, a))
  }

  /** processInventory: the tables, then the filing loop. */
  function Process(env: Env, vs: seq<Variant>, avs: seq<Availability>): Result<Processed> {
    var tinfo := TourTable(vs);
    var r := FileAll(env, tinfo, avs);
    if r.Err? then Err(r.error) else Ok(Processed(r.value, tinfo, VariantTable(vs)))
  }

  // ---------- what ends up under one variant and tour ----------

  /**
   * The availabilities filed under variant vid for tour t, in order: each availability
   * of tour t once for every time vid is listed among its tour's variants.
   */
  function Filed(tinfo: map<int, TourDetails>, avs: seq<Availability>, vid: int, t: int): seq<Availability> {
    if |avs| == 0 then []
    else
      var a := avs[|avs| - 1];
      Filed(tinfo, avs[..|avs| - 1], vid, t) +
        (if a.tourId == t && t in tinfo then Rep(a, Count(tinfo[t].variantIds, vid)) else [])
  }

  /** The tour entry built from a list of availabilities, one step each. */
  function TourOf(env: Env, xs: seq<Availability>): Option<TourAvail> {
    if |xs| == 0 then None else Some(TourStep(env, TourOf(env, xs[..|xs| - 1]), xs[|xs| - 1]))
  }

  /** The date entry built from a list of availabilities, one step each. */
  function DateOf(env: Env, ys: seq<Availability>): Option<DateAvail> {
    if |ys| == 0 then None else Some(DateStep(env, DateOf(env, ys[..|ys| - 1]), ys[|ys| - 1]))
  }

  /** The availabilities of the list that start on date d. */
  function OnDate(xs: seq<Availability>, d: string): (r: seq<Availability>)
    ensures forall y :: y in r <==> y in xs && y.startDate == d
  {
    if |xs| == 0 then []
    else OnDate(xs[..|xs| - 1], d) + (if xs[|xs| - 1].startDate == d then [xs[|xs| - 1]] else [])
  }

  function StepN(env: Env, e: Option<TourAvail>, a: Availability, n: nat): Option<TourAvail> {
    if n == 0 then e else Some(TourStep(env, StepN(env, e, a, n - 1), a))
  }

  lemma {:induction false} TourOfRep(env: Env, xs: seq<Availability>, a: Availability, n: nat)
    ensures TourOf(env, xs + Rep(a, n)) == StepN(env, TourOf(env, xs), a, n)
  {
    if n > 0 {
      TourOfRep(env, xs, a, n - 1);
      assert (xs + Rep(a, n))[..|xs| + n - 1] == xs + Rep(a, n - 1);
    } else {
      assert xs + Rep(a, n) == xs;
    }
  }

  lemma {:induction false} FileUnderAllView(env: Env, m: map<int, VariantAvail>, vids: seq<int>, a: Availability, vid: int, t: int)
    ensures TourView(FileUnderAll(env, m, vids, a), vid, t) ==
      if t == a.tourId then StepN(env, TourView(m, vid, t), a, Count(vids, vid)) else TourView(m, vid, t)
    decreases |vids|
  {
    if |vids| > 0 {
      var prev, last := vids[..|vids| - 1], vids[|vids| - 1];
      var m' := FileUnderAll(env, m, prev, a);
      FileUnderAllView(env, m, prev, a, vid, t);
      assert FileUnderAll(env, m, vids, a) == FileUnder(env, m', last, a);
      assert Count(vids, vid) == Count(prev, vid) + (if last == vid then 1 else 0);
      if last == vid && t == a.tourId {
        assert TourView(FileUnder(env, m', last, a), vid, t) == Some(TourStep(env, TourView(m', vid, t), a));
      } else {
        assert TourView(FileUnder(env, m', last, a), vid, t) == TourView(m', vid, t);
      }
    }
  }

  /** After the loop, the entry of each variant and tour is the tour entry built from what was filed there. */
  lemma {:induction false} FileAllViews(env: Env, tinfo: map<int, TourDetails>, avs: seq<Availability>, vid: int, t: int)
    requires FileAll(env, tinfo, avs).Ok?
    ensures TourView(FileAll(env, tinfo, avs).value, vid, t) == TourOf(env, Filed(tinfo, avs, vid, t))
    decreases |avs|
  {
    if |avs| > 0 {
      var prev := avs[..|avs| - 1];
      var a := avs[|avs| - 1];
      FileAllViews(env, tinfo, prev, vid, t);
      var m := FileAll(env, tinfo, prev).value;
      FileUnderAllView(env, m, tinfo[a.tourId].variantIds, a, vid, t);
      if a.tourId == t {
        TourOfRep(env, Filed(tinfo, prev, vid, t), a, Count(tinfo[t].variantIds, vid));
      } else {
        assert Filed(tinfo, avs, vid, t) == Filed(tinfo, prev, vid, t) + [] == Filed(tinfo, prev, vid, t);
      }
    }
  }

  /** The loop aborts exactly when some availability's tour is in no variant. */
  lemma {:induction false} FileAllFails(env: Env, tinfo: map<int, TourDetails>, avs: seq<Availability>)
    ensures FileAll(env, tinfo, avs).Err? <==> exists i :: 0 <= i < |avs| && avs[i].tourId !in tinfo
    ensures FileAll(env, tinfo, avs).Err? ==> FileAll(env, tinfo, avs).error == UnknownTour
    decreases |avs|
  {
    if |avs| > 0 {
      var prev := avs[..|avs| - 1];
      FileAllFails(env, tinfo, prev);
      if exists i :: 0 <= i < |avs| && avs[i].tourId !in tinfo {
        var i :| 0 <= i < |avs| && avs[i].tourId !in tinfo;
        if i < |avs| - 1 {
          assert prev[i] == avs[i];
        }
      }
      if exists i :: 0 <= i < |prev| && prev[i].tourId !in tinfo {
        var i :| 0 <= i < |prev| && prev[i].tourId !in tinfo;
        assert avs[i] == prev[i];
      }
    }
  }

  // ---------- what a tour entry and a date entry hold ----------

  /** Every availability of a known tour is filed under each variant of that tour. */
  lemma {:induction false} FiledMembers(tinfo: map<int, TourDetails>, avs: seq<Availability>, vid: int, t: int, i: nat)
    requires i < |avs| && avs[i].tourId == t && t in tinfo && vid in tinfo[t].variantIds
    ensures avs[i] in Filed(tinfo, avs, vid, t)
    decreases |avs|
  {
    var prev := avs[..|avs| - 1];
    if i < |avs| - 1 {
      assert prev[i] == avs[i];
      FiledMembers(tinfo, prev, vid, t, i);
    } else {
      CountPositive(tinfo[t].variantIds, vid);
      assert Rep(avs[i], Count(tinfo[t].variantIds, vid))[0] == avs[i];
    }
  }

  /** Everything filed under a variant and tour t belongs to tour t. */
  lemma {:induction false} FiledTour(tinfo: map<int, TourDetails>, avs: seq<Availability>, vid: int, t: int)
    ensures forall x :: x in Filed(tinfo, avs, vid, t) ==> x.tourId == t && x in avs
    decreases |avs|
  {
    if |avs| > 0 {
      var prev := avs[..|avs| - 1];
      FiledTour(tinfo, prev, vid, t);
      forall x | x in prev ensures x in avs {
        var i :| 0 <= i < |prev| && prev[i] == x;
        assert avs[i] == x;
      }
    }
  }

  /** The date entry of the tour entry ta for date d is the one built from the availabilities of xs on d. */
  ghost predicate DateBuilt(env: Env, ta: TourAvail, xs: seq<Availability>, d: string) {
    (d in ta.dates <==> OnDate(xs, d) != []) && (d in ta.dates ==> Some(ta.dates[d]) == DateOf(env, OnDate(xs, d)))
  }

  lemma DateOfSnoc(env: Env, ys: seq<Availability>, a: Availability)
    ensures DateOf(env, ys + [a]) == Some(DateStep(env, DateOf(env, ys), a))
  {
    assert (ys + [a])[..|ys|] == ys;
  }

  /** One more availability keeps every date entry built from its date's availabilities. */
  lemma TourStepDate(env: Env, prev: seq<Availability>, a: Availability, d: string)
    requires |prev| > 0 && DateBuilt(env, TourOf(env, prev).value, prev, d)
    ensures DateBuilt(env, TourOf(env, prev + [a]).value, prev + [a], d)
  {
    var xs := prev + [a];
    assert xs[..|xs| - 1] == prev;
    if d == a.startDate {
      assert OnDate(xs, d) == OnDate(prev, d) + [a];
      DateOfSnoc(env, OnDate(prev, d), a);
    } else {
      assert OnDate(xs, d) == OnDate(prev, d) + [] == OnDate(prev, d);
    }
  }

  /** A tour entry keeps its tour id and holds a date entry for exactly the start dates filed, each built from that date's availabilities. */
  lemma {:induction false} TourOfDates(env: Env, xs: seq<Availability>)
    ensures TourOf(env, xs).Some? <==> |xs| > 0
    ensures |xs| > 0 ==> TourOf(env, xs).value.tourId == xs[0].tourId
    ensures |xs| > 0 ==> forall d :: DateBuilt(env, TourOf(env, xs).value, xs, d)
    decreases |xs|
  {
    if |xs| > 1 {
      var prev := xs[..|xs| - 1];
      var a := xs[|xs| - 1];
      TourOfDates(env, prev);
      assert prev[0] == xs[0];
      assert prev + [a] == xs;
      forall d ensures DateBuilt(env, TourOf(env, xs).value, xs, d) {
        TourStepDate(env, prev, a, d);
      }
    } else if |xs| == 1 {
      assert xs[..0] == [];
      forall d ensures DateBuilt(env, TourOf(env, xs).value, xs, d) {
        assert OnDate(xs[..0], d) == [];
        if d == xs[0].startDate {
          assert OnDate(xs, d) == [xs[0]];
          DateOfSnoc(env, [], xs[0]);
        }
      }
    }
  }

  /**
   * The date entry's minPricedAvailability is one of its availabilities, no dearer than
   * any of them, and the last one at that price: every later one is strictly dearer.
   */
  lemma {:induction false} DateOfMin(env: Env, ys: seq<Availability>)
    requires |ys| > 0
    ensures var min := DateOf(env, ys).value.minPriced;
      (forall y :: y in ys ==> env.price(min.priceProfile) <= env.price(y.priceProfile))
      && exists i :: 0 <= i < |ys| && ys[i] == min
           && forall j :: i < j < |ys| ==> env.price(min.priceProfile) < env.price(ys[j].priceProfile)
    decreases |ys|
  {
    var prev := ys[..|ys| - 1];
    var a := ys[|ys| - 1];
    var min := DateOf(env, ys).value.minPriced;
    if |ys| == 1 {
      assert DateOf(env, prev) == None;
      assert ys[0] == min;
    } else {
      DateOfMin(env, prev);
      var pm := DateOf(env, prev).value.minPriced;
      forall y | y in ys ensures env.price(min.priceProfile) <= env.price(y.priceProfile) {
        if y != a {
          var k :| 0 <= k < |ys| && ys[k] == y;
          assert prev[k] == y;
        }
      }
      if min == pm && env.price(pm.priceProfile) < env.price(a.priceProfile) {
        var i :| 0 <= i < |prev| && prev[i] == pm && forall j :: i < j < |prev| ==> env.price(pm.priceProfile) < env.price(prev[j].priceProfile);
        assert ys[i] == min;
        forall j | i < j < |ys| ensures env.price(min.priceProfile) < env.price(ys[j].priceProfile) {
          if j < |ys| - 1 {
            assert prev[j] == ys[j];
          }
        }
      } else {
        assert ys[|ys| - 1] == min;
      }
    }
  }

  /** Whether some availability of the list starts at `time`. */
  ghost predicate HasTime(ys: seq<Availability>, time: string) {
    exists i :: 0 <= i < |ys| && ys[i].startTime == time
  }

  /** ys[i] starts at `time` and no later availability of the list does. */
  ghost predicate LastAt(ys: seq<Availability>, i: int, time: string) {
    0 <= i < |ys| && ys[i].startTime == time && forall j :: i < j < |ys| ==> ys[j].startTime != time
  }

  /** A slot list holding exactly the last availability of ys at `time`. */
  ghost predicate SlotOk(ys: seq<Availability>, slot: seq<Availability>, time: string) {
    |slot| == 1 && exists i :: LastAt(ys, i, time) && ys[i] == slot[0]
  }

  /** The date entry's time slots are exactly the start times filed. */
  lemma {:induction false} DateOfSlotKeys(env: Env, ys: seq<Availability>)
    requires |ys| > 0
    ensures forall time :: time in DateOf(env, ys).value.timeSlots <==> HasTime(ys, time)
    decreases |ys|
  {
    var prev := ys[..|ys| - 1];
    var a := ys[|ys| - 1];
    var slots := DateOf(env, ys).value.timeSlots;
    if |ys| == 1 {
      assert DateOf(env, prev) == None;
      assert slots == map[a.startTime := [a]];
      assert forall time :: HasTime(ys, time) <==> time == a.startTime;
    } else {
      DateOfSlotKeys(env, prev);
      var ps := DateOf(env, prev).value.timeSlots;
      assert slots == ps[a.startTime := [a]];
      forall time ensures time in slots <==> HasTime(ys, time) {
        if time != a.startTime && HasTime(ys, time) {
          var i :| 0 <= i < |ys| && ys[i].startTime == time;
          assert prev[i] == ys[i];
          assert HasTime(prev, time);
        }
        if time != a.startTime && time in ps {
          assert HasTime(prev, time);
          var i :| 0 <= i < |prev| && prev[i].startTime == time;
          assert ys[i] == prev[i];
        }
        if time == a.startTime {
          assert ys[|ys| - 1].startTime == time;
        }
      }
    }
  }

  /** Each time slot holds one availability: the last one filed at that time. */
  lemma {:induction false} DateOfSlotValues(env: Env, ys: seq<Availability>)
    requires |ys| > 0
    ensures forall time :: time in DateOf(env, ys).value.timeSlots ==> SlotOk(ys, DateOf(env, ys).value.timeSlots[time], time)
    decreases |ys|
  {
    var prev := ys[..|ys| - 1];
    var a := ys[|ys| - 1];
    var slots := DateOf(env, ys).value.timeSlots;
    if |ys| == 1 {
      assert DateOf(env, prev) == None;
      assert slots == map[a.startTime := [a]];
      assert LastAt(ys, 0, a.startTime);
    } else {
      DateOfSlotValues(env, prev);
      var ps := DateOf(env, prev).value.timeSlots;
      assert slots == ps[a.startTime := [a]];
      forall time | time in slots ensures SlotOk(ys, slots[time], time) {
        if time == a.startTime {
          assert LastAt(ys, |ys| - 1, time);
        } else {
          assert time in ps && slots[time] == ps[time];
          assert SlotOk(prev, ps[time], time);
          var i :| LastAt(prev, i, time) && prev[i] == ps[time][0];
          assert ys[i] == prev[i];
          forall j | i < j < |ys| ensures ys[j].startTime != time {
            if j < |ys| - 1 {
              assert prev[j] == ys[j];
            }
          }
          assert LastAt(ys, i, time);
        }
      }
    }
  }

  /**
   * When every filed start date is a valid date, the first and last available dates
   * are the earliest and the latest of them.
   */
  lemma {:induction false} TourOfSpan(env: Env, xs: seq<Availability>)
    requires |xs| > 0
    requires forall x :: x in xs ==> env.dayjs(x.startDate).Some?
    ensures var ta := TourOf(env, xs).value;
      ta.firstDate.Some? && ta.lastDate.Some?
      && (forall x :: x in xs ==> ta.firstDate.value <= env.dayjs(x.startDate).value <= ta.lastDate.value)
      && (exists x :: x in xs && ta.firstDate == env.dayjs(x.startDate))
      && (exists x :: x in xs && ta.lastDate == env.dayjs(x.startDate))
    decreases |xs|
  {
    var prev := xs[..|xs| - 1];
    var a := xs[|xs| - 1];
    if |xs| == 1 {
      assert a in xs;
    } else {
      forall x | x in prev ensures x in xs {
        var k :| 0 <= k < |prev| && prev[k] == x;
        assert xs[k] == x;
      }
      TourOfSpan(env, prev);
      assert a in xs;
      var ta := TourOf(env, xs).value;
      forall x | x in xs ensures ta.firstDate.value <= env.dayjs(x.startDate).value <= ta.lastDate.value {
        if x != a {
          var k :| 0 <= k < |xs| && xs[k] == x;
          assert prev[k] == x;
        }
      }
    }
  }

  // ---------- what processInventory returns ----------

  /**
   * Each variant and tour of the result holds the tour entry built from the availabilities
   * filed there, and there is an entry exactly when something was filed.
   */
  lemma ProcessViews(env: Env, vs: seq<Variant>, avs: seq<Availability>, vid: int, t: int)
    requires Process(env, vs, avs).Ok?
    ensures var m := Process(env, vs, avs).value.variantAvailability;
      TourView(m, vid, t) == TourOf(env, Filed(TourTable(vs), avs, vid, t))
      && (TourView(m, vid, t).Some? <==> Filed(TourTable(vs), avs, vid, t) != [])
  {
    FileAllViews(env, TourTable(vs), avs, vid, t);
    TourOfDates(env, Filed(TourTable(vs), avs, vid, t));
  }

  /** For every availability and every variant of its tour there is an entry for its start date. */
  lemma EveryAvailabilityFiled(env: Env, vs: seq<Variant>, avs: seq<Availability>, i: nat, vid: int)
    requires Process(env, vs, avs).Ok? && i < |avs|
    requires vid in VariantsWith(vs, avs[i].tourId)
    ensures var m := Process(env, vs, avs).value.variantAvailability;
      vid in m && avs[i].tourId in m[vid].tours && avs[i].startDate in m[vid].tours[avs[i].tourId].dates
  {
    var tinfo := TourTable(vs);
    var t := avs[i].tourId;
    TourTableSpec(vs);
    FiledMembers(tinfo, avs, vid, t, i);
    var xs := Filed(tinfo, avs, vid, t);
    FileAllViews(env, tinfo, avs, vid, t);
    TourOfDates(env, xs);
    var d := avs[i].startDate;
    assert avs[i] in OnDate(xs, d);
    assert DateBuilt(env, TourOf(env, xs).value, xs, d);
  }

  /** processInventory throws exactly when an availability's tour belongs to no variant. */
  lemma ProcessFails(env: Env, vs: seq<Variant>, avs: seq<Availability>)
    ensures Process(env, vs, avs).Err? <==> exists i :: 0 <= i < |avs| && VariantsWith(vs, avs[i].tourId) == []
    ensures Process(env, vs, avs).Err? ==> Process(env, vs, avs).error == UnknownTour
  {
    TourTableSpec(vs);
    FileAllFails(env, TourTable(vs), avs);
  }

  // ---------- the method as written ----------

  /** `variant.tours.forEach`: each tour of one variant entered in the tour table. */
  method AddVariantTours(m: map<int, TourDetails>, v: Variant) returns (r: map<int, TourDetails>)
    ensures r == AddTours(m, v.id, v.tours)
  {
    r := m;
    var j := 0;
    while j < |v.tours|
      invariant 0 <= j <= |v.tours|
      invariant r == AddTours(m, v.id, v.tours[..j])
    {
      assert v.tours[..j + 1][..j] == v.tours[..j];
      r := AddTour(r, v.id, v.tours[j]);
      j := j + 1;
    }
    assert v.tours[..j] == v.tours;
  }

  /** `tourDetails.variantIds.forEach`: one availability filed under each variant id. */
  method FileAvailability(env: Env, m: map<int, VariantAvail>, vids: seq<int>, a: Availability)
    returns (r: map<int, VariantAvail>)
    ensures r == FileUnderAll(env, m, vids, a)
  {
    r := m;
    var j := 0;
    while j < |vids|
      invariant 0 <= j <= |vids|
      invariant r == FileUnderAll(env, m, vids[..j], a)
    {
      assert vids[..j + 1][..j] == vids[..j];
      r := FileUnder(env, r, vids[j], a);
      j := j + 1;
    }
    assert vids[..j] == vids;
  }

  /** processInventory: both tables in one pass over the variants, then the availability loop. */
  method ProcessInventory(env: Env, variants: seq<Variant>, availabilities: seq<Availability>)
    returns (r: Result<Processed>)
    ensures r == Process(env, variants, availabilities)
  {
    var variantInfo: map<int, Variant> := map[];
    var tourInfo: map<int, TourDetails> := map[];
    var i := 0;
    while i < |variants|
      invariant 0 <= i <= |variants|
      invariant variantInfo == VariantTable(variants[..i]) && tourInfo == TourTable(variants[..i])
    {
      assert variants[..i + 1][..i] == variants[..i];
      variantInfo := variantInfo[variants[i].id := variants[i]];
      tourInfo := AddVariantTours(tourInfo, variants[i]);
      i := i + 1;
    }
    assert variants[..i] == variants;
    var avail: map<int, VariantAvail> := map[];
    var k := 0;
    while k < |availabilities|
      invariant 0 <= k <= |availabilities|
      invariant FileAll(env, tourInfo, availabilities[..k]) == Ok(avail)
    {
      var a := availabilities[k];
      assert availabilities[..k + 1][..k] == availabilities[..k];
      if a.tourId !in tourInfo {
        // reading variantIds of the missing entry throws
        FileAllFails(env, tourInfo, availabilities);
        return Err(UnknownTour);
      }
      var vids := tourInfo[a.tourId].variantIds;
      if |vids| > 0 {
        avail := FileAvailability(env, avail, vids, a);
      }
      k := k + 1;
    }
    assert availabilities[..k] == availabilities;
    r := Ok(Processed(avail, tourInfo, variantInfo));
  }
}

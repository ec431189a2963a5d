/**
 * generate_availabilities in generate_inventory.py: one availability record
 * for every day of the date range, every 15-minute slot of the daily time
 * window, every tour and every vendor, in that nesting order.
 */
module Fixtures {
  import opened Wrappers
  import opened Calendar
  import opened PyDateTime
  import opened Seqs

  /** One availability_item of the generated JSON. */
  datatype Record = Record(startDate: string, startTime: string, tourId: int, vendorId: int, endTime: string, price: int)

  const Price: int := 100

  // ---------- the records ----------

  /** The innermost loop: one record per vendor. */
  function VendorRecords(date: string, startTime: string, endTime: string, tour: int): int -> seq<Record> {
    v => [Record(date, startTime, tour, v, endTime, Price)]
  }

  function TourRecords(date: string, startTime: string, endTime: string, vendors: seq<int>): int -> seq<Record> {
    t => FlatMap(VendorRecords(date, startTime, endTime, t), vendors)
  }

  /** The end of a slot: three hours later, on the clock (it may wrap past midnight). */
  function EndOf(t: nat): nat {
    (t + 10800) % 86400
  }

  function SlotRecords(date: string, tours: seq<int>, vendors: seq<int>): nat -> seq<Record> {
    (t: nat) => FlatMap(TourRecords(date, TimeText(t), TimeText(EndOf(t)), vendors), tours)
  }

  /** The k-th slot of the day: the cursor moves by timedelta(minutes=15), 900 seconds. */
  function SlotStart(a: nat, k: nat): nat {
    a + 900 * k
  }

  /** Number of slots from `a` while at most `b`, 15 minutes apart. */
  function SlotCount(a: nat, b: nat): nat {
    if a <= b then (b - a) / 900 + 1 else 0
  }

  /** The slot start times of one day, in seconds after midnight. */
  function Slots(a: nat, b: nat): (r: seq<nat>)
    ensures |r| == SlotCount(a, b)
  {
    seq(SlotCount(a, b), (k: int) requires 0 <= k => SlotStart(a, k))
  }

  lemma SlotsAt(a: nat, b: nat, k: nat)
    requires k < SlotCount(a, b)
    ensures Slots(a, b)[k] == SlotStart(a, k)
  {
  }

  function DayRecords(a: nat, b: nat, tours: seq<int>, vendors: seq<int>): string -> seq<Record> {
    d => FlatMap(SlotRecords(d, tours, vendors), Slots(a, b))
  }

  /** Number of days from `s` through `e`. */
  function DayCount(s: Date, e: Date): nat
    requires Proper(s) && Proper(e)
  {
    if DayNumber(s) <= DayNumber(e) then DayNumber(e) - DayNumber(s) + 1 else 0
  }

  /**
   * What generate_availabilities produces: ParseFailure where strptime raises, and
   * DateOverflow where stepping past 9999-12-31 raises OverflowError.
   */
  function Availabilities(tourIds: seq<int>, vendorIds: seq<int>, dateStart: string, dateEnd: string,
                          timeRangeStart: string, timeRangeEnd: string): Result<seq<Record>>
  {
    var s, e, a, b := ParseDate(dateStart), ParseDate(dateEnd), ParseTime(timeRangeStart), ParseTime(timeRangeEnd);
    if s.None? || e.None? || a.None? || b.None? then Err(ParseFailure)
    else Enumerated(tourIds, vendorIds, s.value, e.value, a.value, b.value)
  }

  /** The loops over parsed bounds: a run that reaches 9999-12-31 cannot step to the next day. */
  function Enumerated(tourIds: seq<int>, vendorIds: seq<int>, s: Date, e: Date, a: nat, b: nat): Result<seq<Record>>
    requires Proper(s) && Proper(e)
  {
    if DayNumber(s) <= DayNumber(e) && e == MaxDate then Err(DateOverflow)
    else Ok(Generated(tourIds, vendorIds, s, e, a, b))
  }

  /** The records of a run whose four bounds parsed to the days s ..= e and the times a ..= b. */
  function Generated(tourIds: seq<int>, vendorIds: seq<int>, s: Date, e: Date, a: nat, b: nat): seq<Record>
    requires Proper(s) && Proper(e)
  {
    FlatMap(DayRecords(a, b, tourIds, vendorIds), Days(s, DayCount(s, e)))
  }

  /**
   * generate_availabilities fails on a bound strptime rejects, then on a range
   * that reaches 9999-12-31; otherwise it yields one record per day, slot, tour
   * and vendor.
   */
  lemma AvailabilitiesOutcome(tourIds: seq<int>, vendorIds: seq<int>, dateStart: string, dateEnd: string,
                              timeRangeStart: string, timeRangeEnd: string)
    ensures var r := Availabilities(tourIds, vendorIds, dateStart, dateEnd, timeRangeStart, timeRangeEnd);
            var s, e, a, b := ParseDate(dateStart), ParseDate(dateEnd), ParseTime(timeRangeStart), ParseTime(timeRangeEnd);
            (r == Err(ParseFailure) <==> s.None? || e.None? || a.None? || b.None?)
            && (r == Err(DateOverflow) <==>
                  s.Some? && e.Some? && a.Some? && b.Some?
                  && DayNumber(s.value) <= DayNumber(e.value) && e.value == MaxDate)
            && (r.Ok? ==> |r.value| == DayCount(s.value, e.value) * SlotCount(a.value, b.value) * |tourIds| * |vendorIds|)
  {
    var s, e, a, b := ParseDate(dateStart), ParseDate(dateEnd), ParseTime(timeRangeStart), ParseTime(timeRangeEnd);
    if s.Some? && e.Some? && a.Some? && b.Some? {
      GeneratedCount(tourIds, vendorIds, s.value, e.value, a.value, b.value);
    }
  }

  // ---------- what the records are ----------

  function Product(x: nat, y: nat): nat {
    x * y
  }

  lemma ProductAssoc(x: nat, y: nat, z: nat, u: nat)
    ensures x * Product(y, Product(z, u)) == x * y * z * u
  {
  }

  lemma DayWidth(a: nat, b: nat, tours: seq<int>, vendors: seq<int>, d: string)
    ensures |DayRecords(a, b, tours, vendors)(d)| == SlotCount(a, b) * (|tours| * |vendors|)
  {
    forall t: nat ensures |SlotRecords(d, tours, vendors)(t)| == |tours| * |vendors| {
      SlotWidth(d, tours, vendors, t);
    }
    FlatMapLength(SlotRecords(d, tours, vendors), Slots(a, b), |tours| * |vendors|);
  }

  lemma SlotWidth(date: string, tours: seq<int>, vendors: seq<int>, t: nat)
    ensures |SlotRecords(date, tours, vendors)(t)| == |tours| * |vendors|
  {
    var f := TourRecords(date, TimeText(t), TimeText(EndOf(t)), vendors);
    forall i | 0 <= i < |tours| ensures |f(tours[i])| == |vendors| {
      FlatMapLength(VendorRecords(date, TimeText(t), TimeText(EndOf(t)), tours[i]), vendors, 1);
    }
    FlatMapLength(f, tours, |vendors|);
  }

  /** The run yields one record per day, slot, tour and vendor; none when either range is empty. */
  lemma GeneratedCount(tourIds: seq<int>, vendorIds: seq<int>, s: Date, e: Date, a: nat, b: nat)
    requires Proper(s) && Proper(e)
    ensures |Generated(tourIds, vendorIds, s, e, a, b)| == DayCount(s, e) * SlotCount(a, b) * |tourIds| * |vendorIds|
    ensures DayNumber(e) < DayNumber(s) || b < a ==> Generated(tourIds, vendorIds, s, e, a, b) == []
  {
    var w := Product(SlotCount(a, b), Product(|tourIds|, |vendorIds|));
    var f := DayRecords(a, b, tourIds, vendorIds);
    var days := Days(s, DayCount(s, e));
    forall i | 0 <= i < |days| ensures |f(days[i])| == w {
      DayWidth(a, b, tourIds, vendorIds, days[i]);
    }
    FlatMapLength(f, days, w);
    ProductAssoc(DayCount(s, e), SlotCount(a, b), |tourIds|, |vendorIds|);
  }

  /** Within one slot, tour t and vendor v's record sits at Place(t, |vendors|, v). */
  lemma SlotAt(date: string, tours: seq<int>, vendors: seq<int>, slot: nat, t: nat, v: nat)
    requires t < |tours| && v < |vendors|
    ensures Place(t, |vendors|, v) < Product(|tours|, |vendors|) == |SlotRecords(date, tours, vendors)(slot)|
    ensures SlotRecords(date, tours, vendors)(slot)[Place(t, |vendors|, v)]
            == Record(date, TimeText(slot), tours[t], vendors[v], TimeText(EndOf(slot)), Price)
  {
    var st, et := TimeText(slot), TimeText(EndOf(slot));
    FlatMapAt(VendorRecords(date, st, et, tours[t]), vendors, 1, v, 0);
    var ft := TourRecords(date, st, et, vendors);
    forall i | 0 <= i < |tours| ensures |ft(tours[i])| == |vendors| {
      FlatMapLength(VendorRecords(date, st, et, tours[i]), vendors, 1);
    }
    FlatMapAt(ft, tours, |vendors|, t, v);
  }

  /** Within one day, slot k's block starts at k times the slot width. */
  lemma DayAt(a: nat, b: nat, tours: seq<int>, vendors: seq<int>, date: string, k: nat, r: nat)
    requires k < SlotCount(a, b) && r < Product(|tours|, |vendors|)
    ensures Place(k, Product(|tours|, |vendors|), r) < Product(SlotCount(a, b), Product(|tours|, |vendors|))
            == |DayRecords(a, b, tours, vendors)(date)|
    ensures r < |SlotRecords(date, tours, vendors)(SlotStart(a, k))|
    ensures DayRecords(a, b, tours, vendors)(date)[Place(k, Product(|tours|, |vendors|), r)]
            == SlotRecords(date, tours, vendors)(SlotStart(a, k))[r]
  {
    var fs := SlotRecords(date, tours, vendors);
    forall i | 0 <= i < |Slots(a, b)| ensures |fs(Slots(a, b)[i])| == Product(|tours|, |vendors|) {
      SlotWidth(date, tours, vendors, Slots(a, b)[i]);
    }
    FlatMapAt(fs, Slots(a, b), Product(|tours|, |vendors|), k, r);
    var x := Slots(a, b)[k];
    assert x == SlotStart(a, k);
    SlotWidth(date, tours, vendors, x);
    assert fs(x) == SlotRecords(date, tours, vendors)(SlotStart(a, k));
  }

  /**
   * Records run date by date, then slot by slot, then tour by tour, then vendor by
   * vendor: the record of day d, slot k, tour t and vendor v sits at the mixed-radix index.
   */
  lemma GeneratedAt(tourIds: seq<int>, vendorIds: seq<int>, s: Date, e: Date, a: nat, b: nat,
                    d: nat, k: nat, t: nat, v: nat)
    requires Proper(s) && Proper(e)
    requires d < DayCount(s, e) && k < SlotCount(a, b) && t < |tourIds| && v < |vendorIds|
    ensures DayNumber(s) + d >= 1
    ensures Place(d, Product(SlotCount(a, b), Product(|tourIds|, |vendorIds|)),
                  Place(k, Product(|tourIds|, |vendorIds|), Place(t, |vendorIds|, v)))
            < |Generated(tourIds, vendorIds, s, e, a, b)|
    ensures Generated(tourIds, vendorIds, s, e, a, b)[Place(d, Product(SlotCount(a, b), Product(|tourIds|, |vendorIds|)),
                                                            Place(k, Product(|tourIds|, |vendorIds|), Place(t, |vendorIds|, v)))]
            == Record(Iso(ShiftBy(s, d)), TimeText(SlotStart(a, k)), tourIds[t], vendorIds[v],
                      TimeText(EndOf(SlotStart(a, k))), Price)
  {
    var w := Product(|tourIds|, |vendorIds|);
    var r := Place(t, |vendorIds|, v);
    var days := Days(s, DayCount(s, e));
    DaysAt(s, DayCount(s, e), d);
    SlotAt(days[d], tourIds, vendorIds, SlotStart(a, k), t, v);
    DayAt(a, b, tourIds, vendorIds, days[d], k, r);
    var fd := DayRecords(a, b, tourIds, vendorIds);
    forall i | 0 <= i < |days| ensures |fd(days[i])| == Product(SlotCount(a, b), w) {
      DayWidth(a, b, tourIds, vendorIds, days[i]);
    }
    FlatMapAt(fd, days, Product(SlotCount(a, b), w), d, Place(k, w, r));
  }

  lemma SlotMember(date: string, tours: seq<int>, vendors: seq<int>, slot: nat, x: Record)
    requires x in SlotRecords(date, tours, vendors)(slot)
    ensures x.startDate == date && x.startTime == TimeText(slot) && x.endTime == TimeText(EndOf(slot))
    ensures x.tourId in tours && x.vendorId in vendors && x.price == Price
  {
    var st, et := TimeText(slot), TimeText(EndOf(slot));
    FlatMapMember(TourRecords(date, st, et, vendors), tours, x);
    var t :| 0 <= t < |tours| && x in TourRecords(date, st, et, vendors)(tours[t]);
    FlatMapMember(VendorRecords(date, st, et, tours[t]), vendors, x);
  }

  lemma DayMember(a: nat, b: nat, tours: seq<int>, vendors: seq<int>, date: string, x: Record)
    requires x in DayRecords(a, b, tours, vendors)(date)
    ensures x.startDate == date && x.tourId in tours && x.vendorId in vendors && x.price == Price
    ensures exists k :: 0 <= k < SlotCount(a, b) && x.startTime == TimeText(SlotStart(a, k))
                        && x.endTime == TimeText(EndOf(SlotStart(a, k)))
  {
    FlatMapMember(SlotRecords(date, tours, vendors), Slots(a, b), x);
    var k :| 0 <= k < |Slots(a, b)| && x in SlotRecords(date, tours, vendors)(Slots(a, b)[k]);
    SlotsAt(a, b, k);
    SlotMember(date, tours, vendors, SlotStart(a, k), x);
    assert 0 <= k < SlotCount(a, b) && x.startTime == TimeText(SlotStart(a, k))
           && x.endTime == TimeText(EndOf(SlotStart(a, k)));
  }

  lemma SlotReadBack(a: nat, b: nat, k: nat)
    requires k < SlotCount(a, b) && b < 86400
    ensures a <= SlotStart(a, k) <= b
    ensures ParseTime(TimeText(SlotStart(a, k))) == Some(SlotStart(a, k))
    ensures ParseTime(TimeText(EndOf(SlotStart(a, k)))) == Some(EndOf(SlotStart(a, k)))
  {
    ParseTimeOfText(SlotStart(a, k));
    ParseTimeOfText(EndOf(SlotStart(a, k)));
  }

  lemma DayReadBack(s: Date, e: Date, i: nat)
    requires Valid(s) && Valid(e) && i < DayCount(s, e)
    ensures DayNumber(s) + i >= 1
    ensures ParseDate(Iso(ShiftBy(s, i))) == Some(ShiftBy(s, i))
    ensures DayNumber(s) <= DayNumber(ShiftBy(s, i)) <= DayNumber(e)
  {
    ValidByDayNumber(e);
    ValidByDayNumber(ShiftBy(s, i));
    ParseDateOfIso(ShiftBy(s, i));
  }

  /** Every record is the record of some day of the range and some slot of the window. */
  lemma GeneratedMember(tourIds: seq<int>, vendorIds: seq<int>, s: Date, e: Date, a: nat, b: nat, x: Record)
    requires Proper(s) && Proper(e)
    requires x in Generated(tourIds, vendorIds, s, e, a, b)
    ensures x.tourId in tourIds && x.vendorId in vendorIds && x.price == Price
    ensures exists i :: 0 <= i < DayCount(s, e) && x.startDate == Days(s, DayCount(s, e))[i]
    ensures exists k :: 0 <= k < SlotCount(a, b) && x.startTime == TimeText(SlotStart(a, k))
                        && x.endTime == TimeText(EndOf(SlotStart(a, k)))
  {
    var days := Days(s, DayCount(s, e));
    FlatMapMember(DayRecords(a, b, tourIds, vendorIds), days, x);
    var i :| 0 <= i < |days| && x in DayRecords(a, b, tourIds, vendorIds)(days[i]);
    DayMember(a, b, tourIds, vendorIds, days[i], x);
  }

  /**
   * Every record reads back as a date of the range and a slot time of the window on the
   * 15-minute grid, ends three hours later on the clock, and names a given tour and vendor at price 100.
   */
  lemma GeneratedInWindow(tourIds: seq<int>, vendorIds: seq<int>, s: Date, e: Date, a: nat, b: nat, x: Record)
    requires Valid(s) && Valid(e) && b < 86400
    requires x in Generated(tourIds, vendorIds, s, e, a, b)
    ensures x.tourId in tourIds && x.vendorId in vendorIds && x.price == Price
    ensures ParseDate(x.startDate).Some? && DayNumber(s) <= DayNumber(ParseDate(x.startDate).value) <= DayNumber(e)
    ensures ParseTime(x.startTime).Some? && a <= ParseTime(x.startTime).value <= b
    ensures exists k: nat :: ParseTime(x.startTime).value == a + 900 * k
    ensures ParseTime(x.endTime) == Some(EndOf(ParseTime(x.startTime).value))
  {
    GeneratedMember(tourIds, vendorIds, s, e, a, b, x);
    GeneratedDate(tourIds, vendorIds, s, e, a, b, x);
    GeneratedTimes(tourIds, vendorIds, s, e, a, b, x);
  }

  lemma GeneratedDate(tourIds: seq<int>, vendorIds: seq<int>, s: Date, e: Date, a: nat, b: nat, x: Record)
    requires Valid(s) && Valid(e)
    requires x in Generated(tourIds, vendorIds, s, e, a, b)
    ensures ParseDate(x.startDate).Some? && DayNumber(s) <= DayNumber(ParseDate(x.startDate).value) <= DayNumber(e)
  {
    GeneratedMember(tourIds, vendorIds, s, e, a, b, x);
    var i :| 0 <= i < DayCount(s, e) && x.startDate == Days(s, DayCount(s, e))[i];
    DateInRange(s, e, i, x.startDate);
  }

  lemma GeneratedTimes(tourIds: seq<int>, vendorIds: seq<int>, s: Date, e: Date, a: nat, b: nat, x: Record)
    requires Proper(s) && Proper(e) && b < 86400
    requires x in Generated(tourIds, vendorIds, s, e, a, b)
    ensures ParseTime(x.startTime).Some? && a <= ParseTime(x.startTime).value <= b
    ensures exists k: nat :: ParseTime(x.startTime).value == a + 900 * k
    ensures ParseTime(x.endTime) == Some(EndOf(ParseTime(x.startTime).value))
  {
    GeneratedMember(tourIds, vendorIds, s, e, a, b, x);
    var k :| 0 <= k < SlotCount(a, b) && x.startTime == TimeText(SlotStart(a, k))
             && x.endTime == TimeText(EndOf(SlotStart(a, k)));
    TimeOnGrid(a, b, k, x.startTime, x.endTime);
    assert ParseTime(x.startTime).value == a + 900 * k;
  }

  lemma DateInRange(s: Date, e: Date, i: nat, date: string)
    requires Valid(s) && Valid(e) && i < DayCount(s, e) && date == Days(s, DayCount(s, e))[i]
    ensures ParseDate(date).Some? && DayNumber(s) <= DayNumber(ParseDate(date).value) <= DayNumber(e)
  {
    DaysAt(s, DayCount(s, e), i);
    DayReadBack(s, e, i);
  }

  lemma TimeOnGrid(a: nat, b: nat, k: nat, start: string, end: string)
    requires k < SlotCount(a, b) && b < 86400
    requires start == TimeText(SlotStart(a, k)) && end == TimeText(EndOf(SlotStart(a, k)))
    ensures ParseTime(start) == Some(SlotStart(a, k)) && a <= SlotStart(a, k) <= b
    ensures ParseTime(end) == Some(EndOf(SlotStart(a, k)))
  {
    SlotReadBack(a, b, k);
  }

  // ---------- the loops as written ----------

  /** `for vendor_id in vendor_ids`: one record appended per vendor. */
  method AppendTour(out0: seq<Record>, date: string, startTime: string, endTime: string, tour: int, vendors: seq<int>)
    returns (out: seq<Record>)
    ensures out == out0 + TourRecords(date, startTime, endTime, vendors)(tour)
  {
    out := out0;
    var j := 0;
    while j < |vendors|
      invariant 0 <= j <= |vendors|
      invariant out == out0 + FlatMap(VendorRecords(date, startTime, endTime, tour), vendors[..j])
    {
      FlatMapStep(VendorRecords(date, startTime, endTime, tour), vendors, j, out0, out);
      out := out + [Record(date, startTime, tour, vendors[j], endTime, Price)];
      j := j + 1;
    }
    FlatMapAll(VendorRecords(date, startTime, endTime, tour), vendors, out0, out);
  }

  /** One slot: its start and end strings, then `for tour_id in tour_ids`. */
  method AppendSlot(out0: seq<Record>, date: string, cursor: nat, tours: seq<int>, vendors: seq<int>)
    returns (out: seq<Record>)
    ensures out == out0 + SlotRecords(date, tours, vendors)(cursor)
  {
    var startTime := TimeText(cursor);
    var endTime := TimeText(EndOf(cursor));
    out := out0;
    var j := 0;
    while j < |tours|
      invariant 0 <= j <= |tours|
      invariant out == out0 + FlatMap(TourRecords(date, startTime, endTime, vendors), tours[..j])
    {
      FlatMapStep(TourRecords(date, startTime, endTime, vendors), tours, j, out0, out);
      out := AppendTour(out, date, startTime, endTime, tours[j], vendors);
      j := j + 1;
    }
    FlatMapAll(TourRecords(date, startTime, endTime, vendors), tours, out0, out);
  }

  /** The cursor is at or before the day's end exactly while slots remain. */
  lemma SlotBound(a: nat, b: nat, k: nat)
    ensures SlotStart(a, k) <= b <==> k < SlotCount(a, b)
    ensures k < SlotCount(a, b) ==> Slots(a, b)[k] == SlotStart(a, k)
  {
  }

  /** `while time_cursor <= day_end_time`, the cursor moving by 15 minutes. */
  method AppendDay(out0: seq<Record>, date: string, a: nat, b: nat, tours: seq<int>, vendors: seq<int>)
    returns (out: seq<Record>)
    ensures out == out0 + DayRecords(a, b, tours, vendors)(date)
  {
    out := out0;
    var cursor := a;
    ghost var k: nat := 0;
    while cursor <= b
      invariant cursor == SlotStart(a, k) && k <= SlotCount(a, b)
      invariant out == out0 + FlatMap(SlotRecords(date, tours, vendors), Slots(a, b)[..k])
      decreases b - cursor
    {
      SlotBound(a, b, k);
      FlatMapStep(SlotRecords(date, tours, vendors), Slots(a, b), k, out0, out);
      out := AppendSlot(out, date, cursor, tours, vendors);
      cursor := cursor + 900;
      k := k + 1;
    }
    SlotBound(a, b, k);
    FlatMapAll(SlotRecords(date, tours, vendors), Slots(a, b), out0, out);
  }

  /** generate_availabilities: the four bounds parsed, then the day loop. */
  method GenerateAvailabilities(tourIds: seq<int>, vendorIds: seq<int>, dateStart: string, dateEnd: string,
                                timeRangeStart: string, timeRangeEnd: string)
    returns (r: Result<seq<Record>>)
    ensures r == Availabilities(tourIds, vendorIds, dateStart, dateEnd, timeRangeStart, timeRangeEnd)
  {
    var s, e := ParseDate(dateStart), ParseDate(dateEnd);
    var a, b := ParseTime(timeRangeStart), ParseTime(timeRangeEnd);
    if s.None? || e.None? || a.None? || b.None? {
      return Err(ParseFailure);
    }
    r := EnumerateDays(tourIds, vendorIds, s.value, e.value, a.value, b.value);
  }

  /** What one pass of the day loop knows about the current day. */
  lemma DayLoopStep(s: Date, e: Date, current: Date, j: nat)
    requires Valid(s) && Valid(e) && Proper(current)
    requires DayNumber(current) == DayNumber(s) + j && DayNumber(current) <= DayNumber(e)
    ensures j < DayCount(s, e) && DayNumber(s) + j >= 1
    ensures Days(s, DayCount(s, e))[j] == Iso(current)
    ensures current == MaxDate ==> e == MaxDate && DayNumber(s) <= DayNumber(e)
    ensures current != MaxDate && e == MaxDate ==> DayNumber(current) < DayNumber(e)
  {
    DayNumberInjective(current, ShiftBy(s, j));
    ValidByDayNumber(e);
    if current == MaxDate {
      DayNumberInjective(e, MaxDate);
    }
    if e == MaxDate && DayNumber(current) == DayNumber(e) {
      DayNumberInjective(current, e);
    }
    DaysAt(s, DayCount(s, e), j);
  }

  /** `while current_date <= end_date`, one day's slots per pass. */
  method EnumerateDays(tourIds: seq<int>, vendorIds: seq<int>, startDate: Date, endDate: Date, a: nat, b: nat)
    returns (r: Result<seq<Record>>)
    requires Valid(startDate) && Valid(endDate)
    ensures r == Enumerated(tourIds, vendorIds, startDate, endDate, a, b)
  {
    ValidByDayNumber(endDate);
    ghost var days := Days(startDate, DayCount(startDate, endDate));
    var out: seq<Record> := [];
    var current := startDate;
    ghost var j: nat := 0;
    while DayNumber(current) <= DayNumber(endDate)
      invariant Proper(current) && DayNumber(current) == DayNumber(startDate) + j
      invariant j <= DayCount(startDate, endDate)
      invariant endDate == MaxDate && DayNumber(startDate) <= DayNumber(endDate) ==> DayNumber(current) <= DayNumber(endDate)
      invariant out == [] + FlatMap(DayRecords(a, b, tourIds, vendorIds), days[..j])
      decreases DayNumber(endDate) - DayNumber(current)
    {
      DayLoopStep(startDate, endDate, current, j);
      FlatMapStep(DayRecords(a, b, tourIds, vendorIds), days, j, [], out);
      out := AppendDay(out, Iso(current), a, b, tourIds, vendorIds);
      if current == MaxDate {
        // current_date += delta_day raises OverflowError (so would the time arithmetic of this last day)
        return Err(DateOverflow);
      }
      current := NextDay(current);
      j := j + 1;
    }
    assert j == DayCount(startDate, endDate) == |days|;
    FlatMapAll(DayRecords(a, b, tourIds, vendorIds), days, [], out);
    assert out == Generated(tourIds, vendorIds, startDate, endDate, a, b);
    return Ok(out);
  }
}

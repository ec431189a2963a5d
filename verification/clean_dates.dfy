/**
 * shift_dates in clean_inventory.py: every "%Y-%m-%d" string of a decoded JSON
 * document moved by the distance between two start dates, everything else kept.
 */
module CleanInventory {
  import opened Wrappers
  import opened Calendar
  import opened PyDateTime

  /** A decoded JSON document: json.load gives dicts (in key order), lists, str, numbers, bools and None. */
  datatype Json =
    | Null
    | Bool(b: bool)
    | Number(n: real)
    | Str(s: string)
    | Array(elems: seq<Json>)
    | Object(members: seq<Member>)

  datatype Member = Member(key: string, value: Json)

  /** The two start dates and the day distance `new_start_dt - old_start_dt` between them. */
  datatype Shift = Shift(oldStart: string, newStart: string, days: int)

  /** The start of shift_dates: both bounds through strptime, then their difference in days. */
  function ShiftOf(oldStart: string, newStart: string): (r: Result<Shift>)
    ensures r.Ok? <==> ParseDate(oldStart).Some? && ParseDate(newStart).Some?
    ensures r.Err? ==> r.error == ParseFailure
    ensures r.Ok? ==> r.value.oldStart == oldStart && r.value.newStart == newStart
                      && DayNumber(ParseDate(oldStart).value) + r.value.days == DayNumber(ParseDate(newStart).value)
  {
    match ParseDate(oldStart)
    case None => Err(ParseFailure)
    case Some(o) =>
      match ParseDate(newStart)
      case None => Err(ParseFailure)
      case Some(n) => Ok(Shift(oldStart, newStart, DayNumber(n) - DayNumber(o)))
  }

  /** Whether a parsed date moved by `days` is still a datetime (years 1 to 9999). */
  predicate Representable(d: Date, days: int)
    requires Proper(d)
  {
    1 <= DayNumber(d) + days <= DayNumber(MaxDate)
  }

  /**
   * update_date: a string strptime accepts, moved by `days` and printed by
   * strftime; any failure (ValueError, OverflowError) leaves the string as it was.
   */
  function UpdateDate(s: string, days: int): string {
    match ParseDate(s)
    case None => s
    case Some(d) => if Representable(d, days) then Iso(ShiftBy(d, days)) else s
  }

  /** A dict value: a string equal to old_start becomes new_start, any other string goes through update_date. */
  function ShiftedValue(v: Json, c: Shift): Json
    decreases v, 1
  {
    // the `k == "startDate"` branch and the generic string branch both store new_start
    if v == Str(c.oldStart) then Str(c.newStart)
    else if v.Str? then Str(UpdateDate(v.s, c.days))
    else Shifted(v, c)
  }

  /** A list element: every string goes through update_date. */
  function ShiftedElement(v: Json, c: Shift): Json
    decreases v, 1
  {
    if v.Str? then Str(UpdateDate(v.s, c.days)) else Shifted(v, c)
  }

  /** The document shift_dates returns; a string or scalar at the top is returned as it is. */
  function Shifted(j: Json, c: Shift): Json
    decreases j, 0
  {
    match j
    case Array(es) => Array(seq(|es|, i requires 0 <= i < |es| => ShiftedElement(es[i], c)))
    case Object(ms) => Object(seq(|ms|, i requires 0 <= i < |ms| => Member(ms[i].key, ShiftedValue(ms[i].value, c))))
    case _ => j
  }

  /** shift_dates(data, old_start, new_start), the bounds' ValueError included. */
  function ShiftedDocument(data: Json, oldStart: string, newStart: string): Result<Json> {
    match ShiftOf(oldStart, newStart)
    case Err(e) => Err(e)
    case Ok(c) => Ok(Shifted(data, c))
  }

  // ---------- the recursive rewrite, one slot at a time ----------

  /** The loops of shift_dates: each dict value and each list element is replaced where it stands. */
  method ShiftTree(j: Json, c: Shift) returns (r: Json)
    ensures r == Shifted(j, c)
    decreases j
  {
    match j
    case Object(ms) =>
      var out := ms;
      var i := 0;
      while i < |ms|
        invariant 0 <= i <= |ms| && |out| == |ms|
        invariant forall n :: 0 <= n < i ==> out[n] == Member(ms[n].key, ShiftedValue(ms[n].value, c))
        invariant forall n :: i <= n < |ms| ==> out[n] == ms[n]
      {
        var v := ms[i].value;
        var w;
        if v == Str(c.oldStart) {
          w := Str(c.newStart);
        } else if v.Str? {
          w := Str(UpdateDate(v.s, c.days));
        } else {
          w := ShiftTree(v, c);
        }
        out := out[i := Member(ms[i].key, w)];
        i := i + 1;
      }
      r := Object(out);
    case Array(es) =>
      var out := es;
      var i := 0;
      while i < |es|
        invariant 0 <= i <= |es| && |out| == |es|
        invariant forall n :: 0 <= n < i ==> out[n] == ShiftedElement(es[n], c)
        invariant forall n :: i <= n < |es| ==> out[n] == es[n]
      {
        var w;
        if es[i].Str? {
          w := Str(UpdateDate(es[i].s, c.days));
        } else {
          w := ShiftTree(es[i], c);
        }
        out := out[i := w];
        i := i + 1;
      }
      r := Array(out);
    case _ =>
      r := j;
  }

  /** shift_dates as a whole: parse both bounds, then rewrite the document. */
  method ShiftDates(data: Json, oldStart: string, newStart: string) returns (r: Result<Json>)
    ensures r == ShiftedDocument(data, oldStart, newStart)
  {
    var c := ShiftOf(oldStart, newStart);
    if c.Err? {
      return Err(ParseFailure);
    }
    var t := ShiftTree(data, c.value);
    r := Ok(t);
  }

  // ---------- what update_date does to one string ----------

  /**
   * A string strptime rejects, or whose shifted date leaves years 1 to 9999,
   * is kept; any other becomes the zero-padded text of the date exactly
   * `days` later, which strptime reads back.
   */
  lemma UpdateDateMeaning(s: string, days: int)
    ensures ParseDate(s).None? ==> UpdateDate(s, days) == s
    ensures ParseDate(s).Some? && !Representable(ParseDate(s).value, days) ==> UpdateDate(s, days) == s
    ensures ParseDate(s).Some? && Representable(ParseDate(s).value, days) ==>
              var r := UpdateDate(s, days);
              ParseDate(r).Some? && Iso(ParseDate(r).value) == r
              && DayNumber(ParseDate(r).value) == DayNumber(ParseDate(s).value) + days
  {
    if ParseDate(s).Some? && Representable(ParseDate(s).value, days) {
      var e := ShiftBy(ParseDate(s).value, days);
      ValidByDayNumber(e);
      ParseDateOfIso(e);
    }
  }

  /** Shifting a canonical date string forward and back again gives the string back. */
  lemma UpdateDateInverse(s: string, days: int)
    requires ParseDate(s).Some? && Iso(ParseDate(s).value) == s
    requires Representable(ParseDate(s).value, days)
    ensures UpdateDate(UpdateDate(s, days), -days) == s
  {
    var d := ParseDate(s).value;
    var e := ShiftBy(d, days);
    ValidByDayNumber(e);
    ParseDateOfIso(e);
    UpdateDateOf(s, d, days);
    RepresentableBack(d, days);
    UpdateDateOf(Iso(e), e, -days);
    DayNumberInjective(ShiftBy(e, -days), d);
  }

  lemma RepresentableBack(d: Date, days: int)
    requires Valid(d) && Representable(d, days)
    ensures Representable(ShiftBy(d, days), -days)
  {
    ValidByDayNumber(d);
  }

  lemma UpdateDateOf(s: string, d: Date, days: int)
    requires ParseDate(s) == Some(d) && Representable(d, days)
    ensures UpdateDate(s, days) == Iso(ShiftBy(d, days))
  {
  }

  /**
   * The special case for a dict value equal to old_start agrees with the
   * general rule whenever new_start is written in the form strftime prints.
   */
  lemma OldStartAgrees(oldStart: string, newStart: string)
    requires ShiftOf(oldStart, newStart).Ok?
    requires Iso(ParseDate(newStart).value) == newStart
    ensures UpdateDate(oldStart, ShiftOf(oldStart, newStart).value.days) == newStart
  {
    var c := ShiftOf(oldStart, newStart).value;
    var o, n := ParseDate(oldStart).value, ParseDate(newStart).value;
    ValidByDayNumber(n);
    assert Representable(o, c.days);
    DayNumberInjective(ShiftBy(o, c.days), n);
  }

  // ---------- the document keeps its shape ----------

  /** Same kinds in the same places: same keys in the same order, same lengths, equal non-string scalars. */
  predicate SameShape(a: Json, b: Json)
    decreases a
  {
    match a
    case Array(es) =>
      b.Array? && |b.elems| == |es| && forall i :: 0 <= i < |es| ==> SameShape(es[i], b.elems[i])
    case Object(ms) =>
      b.Object? && |b.members| == |ms|
      && forall i :: 0 <= i < |ms| ==> ms[i].key == b.members[i].key && SameShape(ms[i].value, b.members[i].value)
    case Str(_) => b.Str?
    case _ => b == a
  }

  /** shift_dates changes strings only: keys, lengths, numbers, booleans and nulls stay. */
  lemma {:induction false} ShiftedSameShape(j: Json, c: Shift)
    ensures SameShape(j, Shifted(j, c))
    decreases j, 0
  {
    match j
    case Array(es) =>
      forall i | 0 <= i < |es| ensures SameShape(es[i], Shifted(j, c).elems[i]) {
        SlotSameShape(es[i], c);
      }
    case Object(ms) =>
      forall i | 0 <= i < |ms| ensures SameShape(ms[i].value, Shifted(j, c).members[i].value) {
        SlotSameShape(ms[i].value, c);
      }
    case _ =>
  }

  lemma {:induction false} SlotSameShape(v: Json, c: Shift)
    ensures SameShape(v, ShiftedValue(v, c)) && SameShape(v, ShiftedElement(v, c))
    decreases v, 1
  {
    if !v.Str? {
      ShiftedSameShape(v, c);
    }
  }

  // ---------- every position is rewritten by its own rule ----------

  /** The value at a path of positions (list index or dict member number), if there is one. */
  function At(j: Json, p: seq<nat>): Option<Json>
    decreases |p|
  {
    if p == [] then Some(j)
    else match j
      case Array(es) => if p[0] < |es| then At(es[p[0]], p[1..]) else None
      case Object(ms) => if p[0] < |ms| then At(ms[p[0]].value, p[1..]) else None
      case _ => None
  }

  /**
   * Below the top, the value at every position of the result is the value at
   * that position of the input under the rule of its container: the dict rule
   * (old_start becomes new_start, other strings are updated) or the list rule.
   */
  lemma {:induction false} ShiftedAt(j: Json, p: seq<nat>, c: Shift)
    requires |p| > 0 && At(j, p).Some?
    ensures At(j, p[..|p| - 1]).Some?
    ensures At(Shifted(j, c), p)
            == Some(if At(j, p[..|p| - 1]).value.Object? then ShiftedValue(At(j, p).value, c)
                    else ShiftedElement(At(j, p).value, c))
    decreases |p|
  {
    var rest := p[1..];
    if rest != [] {
      assert p[..|p| - 1] == [p[0]] + rest[..|rest| - 1];
    }
    match j
    case Array(es) =>
      var v := es[p[0]];
      if rest != [] {
        assert !v.Str?;
        ShiftedAt(v, rest, c);
        AtCons(j, p[0], rest[..|rest| - 1]);
      }
    case Object(ms) =>
      var v := ms[p[0]].value;
      if rest != [] {
        assert !v.Str?;
        ShiftedAt(v, rest, c);
        AtCons(j, p[0], rest[..|rest| - 1]);
      }
  }

  lemma AtCons(j: Json, i: nat, q: seq<nat>)
    requires j.Array? || j.Object?
    ensures At(j, [i] + q)
            == if j.Array? then (if i < |j.elems| then At(j.elems[i], q) else None)
               else (if i < |j.members| then At(j.members[i].value, q) else None)
  {
    assert ([i] + q)[0] == i && ([i] + q)[1..] == q;
  }
}

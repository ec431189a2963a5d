/**
 * Lexicographic string order (Kotlin String.compareTo, the default JavaScript
 * sort), sorting a set of keys into a strictly ascending list, ASCII lower-casing,
 * and first-occurrence de-duplication (LinkedHashSet / Array.from(new Set(...))).
 */
module Ordering {

  /** a sorts strictly before b: first differing character decides, a proper prefix comes first. */
  predicate Lt(a: string, b: string)
    decreases |a|
  {
    if |a| == 0 then |b| > 0
    else |b| > 0 && (a[0] < b[0] || (a[0] == b[0] && Lt(a[1..], b[1..])))
  }

  predicate Le(a: string, b: string) { a == b || Lt(a, b) }

  lemma {:induction false} LtIrreflexive(a: string)
    ensures !Lt(a, a)
    decreases |a|
  {
    if |a| > 0 { LtIrreflexive(a[1..]); }
  }

  lemma {:induction false} LtTransitive(a: string, b: string, c: string)
    requires Lt(a, b) && Lt(b, c)
    ensures Lt(a, c)
    decreases |a|
  {
    if |a| > 0 && a[0] == b[0] && b[0] == c[0] {
      LtTransitive(a[1..], b[1..], c[1..]);
    }
  }

  lemma {:induction false} LtTotal(a: string, b: string)
    ensures a == b || Lt(a, b) || Lt(b, a)
    decreases |a|
  {
    if |a| > 0 && |b| > 0 && a[0] == b[0] {
      LtTotal(a[1..], b[1..]);
      if a[1..] == b[1..] {
        assert a == [a[0]] + a[1..] && b == [b[0]] + b[1..];
      }
    }
  }

  lemma LtAsymmetric(a: string, b: string)
    requires Lt(a, b)
    ensures !Lt(b, a)
  {
    if Lt(b, a) {
      LtTransitive(a, b, a);
      LtIrreflexive(a);
    }
  }

  /** Equal-length strings keep their order whatever follows them. */
  lemma {:induction false} LtAppend(p: string, q: string, x: string, y: string)
    requires |p| == |q| && Lt(p, q)
    ensures Lt(p + x, q + y)
    decreases |p|
  {
    assert (p + x)[0] == p[0] && (q + y)[0] == q[0];
    if p[0] == q[0] {
      assert (p + x)[1..] == p[1..] + x && (q + y)[1..] == q[1..] + y;
      LtAppend(p[1..], q[1..], x, y);
    }
  }

  /** A common prefix does not change the order. */
  lemma {:induction false} LtSamePrefix(p: string, x: string, y: string)
    requires Lt(x, y)
    ensures Lt(p + x, p + y)
    decreases |p|
  {
    if |p| > 0 {
      assert (p + x)[0] == (p + y)[0];
      assert (p + x)[1..] == p[1..] + x && (p + y)[1..] == p[1..] + y;
      LtSamePrefix(p[1..], x, y);
    } else {
      assert p + x == x && p + y == y;
    }
  }

  /** Strictly ascending, hence also free of duplicates. */
  ghost predicate Sorted(s: seq<string>) {
    forall i, j :: 0 <= i < j < |s| ==> Lt(s[i], s[j])
  }

  /** m is the least element of keys: before every other element and after none. */
  predicate IsLeast(m: string, keys: set<string>) {
    m in keys && forall y :: y in keys && y != m ==> Lt(m, y) && !Lt(y, m)
  }

  /** Every non-empty set of strings has a least element. */
  lemma {:induction false} LeastExists(keys: set<string>)
    requires keys != {}
    ensures exists m :: IsLeast(m, keys)
    decreases |keys|
  {
    var x :| x in keys;
    if keys != {x} {
      var rest := keys - {x};
      LeastExists(rest);
      var m :| IsLeast(m, rest);
      LtTotal(x, m);
      if Lt(x, m) {
        forall y | y in keys && y != x ensures Lt(x, y) && !Lt(y, x) {
          if y != m { LtTransitive(x, m, y); }
          LtAsymmetric(x, y);
        }
        assert IsLeast(x, keys);
      } else {
        LtAsymmetric(m, x);
        assert IsLeast(m, keys);
      }
    } else {
      LtIrreflexive(x);
      assert IsLeast(x, keys);
    }
  }

  /** keys.sorted(): the elements of a set of strings in ascending order, least first. */
  function SortedKeys(keys: set<string>): seq<string>
    decreases |keys|
  {
    if keys == {} then []
    else
      LeastExists(keys);
      var m :| IsLeast(m, keys);
      [m] + SortedKeys(keys - {m})
  }

  /** The sorted keys are ascending and hold every key exactly once. */
  lemma {:induction false} SortedKeysSpec(keys: set<string>)
    ensures Sorted(SortedKeys(keys)) && |SortedKeys(keys)| == |keys|
    ensures forall x :: x in SortedKeys(keys) <==> x in keys
    decreases |keys|
  {
    if keys != {} {
      LeastExists(keys);
      var m :| IsLeast(m, keys);
      var rest := SortedKeys(keys - {m});
      SortedKeysSpec(keys - {m});
      var s := [m] + rest;
      assert SortedKeys(keys) == s;
      forall i, j | 0 <= i < j < |s| ensures Lt(s[i], s[j]) {
        assert s[j] == rest[j - 1] && rest[j - 1] in keys - {m};
        if i > 0 {
          assert s[i] == rest[i - 1];
        }
      }
    }
  }

  /** There is only one sorted list of a given set: the index lists are fully determined by the keys. */
  lemma {:induction false} SortedUnique(a: seq<string>, b: seq<string>)
    requires Sorted(a) && Sorted(b)
    requires |a| == |b| && forall x :: x in a <==> x in b
    ensures a == b
    decreases |a|
  {
    if |a| > 0 {
      assert a[0] in b;
      assert |b| > 0;
      if a[0] != b[0] {
        var j :| 0 <= j < |b| && b[j] == a[0];
        assert b[0] in a;
        var i :| 0 <= i < |a| && a[i] == b[0];
        assert j > 0 && i > 0;
        LtAsymmetric(b[0], a[0]);
        assert false;
      }
      assert a == [a[0]] + a[1..] && b == [b[0]] + b[1..];
      forall x ensures x in a[1..] <==> x in b[1..] {
        if x in a[1..] {
          var i :| 0 <= i < |a[1..]| && a[1..][i] == x;
          assert Lt(a[0], a[i + 1]);
          LtIrreflexive(a[0]);
          assert x in b;
        }
        if x in b[1..] {
          var i :| 0 <= i < |b[1..]| && b[1..][i] == x;
          assert Lt(b[0], b[i + 1]);
          LtIrreflexive(b[0]);
          assert x in a;
        }
      }
      SortedUnique(a[1..], b[1..]);
    }
  }

  // ---------- pairs of strings, compared by the first component then the second ----------

  /** compareBy({ first }, { second }): the first component decides, the second breaks ties. */
  predicate PairLt(p: (string, string), q: (string, string)) {
    Lt(p.0, q.0) || (p.0 == q.0 && Lt(p.1, q.1))
  }

  lemma PairLtIrreflexive(p: (string, string))
    ensures !PairLt(p, p)
  {
    LtIrreflexive(p.0);
    LtIrreflexive(p.1);
  }

  lemma PairLtTransitive(p: (string, string), q: (string, string), r: (string, string))
    requires PairLt(p, q) && PairLt(q, r)
    ensures PairLt(p, r)
  {
    if Lt(p.0, q.0) && Lt(q.0, r.0) {
      LtTransitive(p.0, q.0, r.0);
    } else if p.0 == q.0 && q.0 == r.0 {
      LtTransitive(p.1, q.1, r.1);
    }
  }

  lemma PairLtTotal(p: (string, string), q: (string, string))
    ensures p == q || PairLt(p, q) || PairLt(q, p)
  {
    LtTotal(p.0, q.0);
    LtTotal(p.1, q.1);
  }

  lemma PairLtAsymmetric(p: (string, string), q: (string, string))
    requires PairLt(p, q)
    ensures !PairLt(q, p)
  {
    if PairLt(q, p) {
      PairLtTransitive(p, q, p);
      PairLtIrreflexive(p);
    }
  }

  ghost predicate PairSorted(s: seq<(string, string)>) {
    forall i, j :: 0 <= i < j < |s| ==> PairLt(s[i], s[j])
  }

  predicate IsLeastPair(m: (string, string), ps: set<(string, string)>) {
    m in ps && forall y :: y in ps && y != m ==> PairLt(m, y) && !PairLt(y, m)
  }

  lemma {:induction false} LeastPairExists(ps: set<(string, string)>)
    requires ps != {}
    ensures exists m :: IsLeastPair(m, ps)
    decreases |ps|
  {
    var x :| x in ps;
    if ps != {x} {
      var rest := ps - {x};
      LeastPairExists(rest);
      var m :| IsLeastPair(m, rest);
      PairLtTotal(x, m);
      if PairLt(x, m) {
        forall y | y in ps && y != x ensures PairLt(x, y) && !PairLt(y, x) {
          if y != m { PairLtTransitive(x, m, y); }
          PairLtAsymmetric(x, y);
        }
        assert IsLeastPair(x, ps);
      } else {
        PairLtAsymmetric(m, x);
        assert IsLeastPair(m, ps);
      }
    } else {
      PairLtIrreflexive(x);
      assert IsLeastPair(x, ps);
    }
  }

  /** sortedWith(compareBy(...)) over a set of pairs: the least pair first. */
  function SortedPairs(ps: set<(string, string)>): seq<(string, string)>
    decreases |ps|
  {
    if ps == {} then []
    else
      LeastPairExists(ps);
      var m :| IsLeastPair(m, ps);
      [m] + SortedPairs(ps - {m})
  }

  /** The sorted pairs are ascending and hold every pair exactly once. */
  lemma {:induction false} SortedPairsSpec(ps: set<(string, string)>)
    ensures PairSorted(SortedPairs(ps)) && |SortedPairs(ps)| == |ps|
    ensures forall x :: x in SortedPairs(ps) <==> x in ps
    decreases |ps|
  {
    if ps != {} {
      LeastPairExists(ps);
      var m :| IsLeastPair(m, ps);
      var rest := SortedPairs(ps - {m});
      SortedPairsSpec(ps - {m});
      var s := [m] + rest;
      assert SortedPairs(ps) == s;
      forall i, j | 0 <= i < j < |s| ensures PairLt(s[i], s[j]) {
        assert s[j] == rest[j - 1] && rest[j - 1] in ps - {m};
        if i > 0 {
          assert s[i] == rest[i - 1];
        }
      }
    }
  }

  /** String.lowercase(Locale.ROOT), restricted to the ASCII letters. */
  function LowerChar(c: char): char {
    if 'A' <= c <= 'Z' then (c as int + 32) as char else c
  }

  function Lower(s: string): (r: string)
    ensures |r| == |s| && forall i :: 0 <= i < |s| ==> r[i] == LowerChar(s[i])
  {
    if |s| == 0 then [] else [LowerChar(s[0])] + Lower(s[1..])
  }

  ghost predicate Distinct<T>(s: seq<T>) {
    forall i, j :: 0 <= i < j < |s| ==> s[i] != s[j]
  }

  /** A strictly ascending list repeats nothing. */
  lemma SortedDistinct(s: seq<string>)
    requires Sorted(s)
    ensures Distinct(s)
  {
    forall i, j | 0 <= i < j < |s| ensures s[i] != s[j] {
      LtIrreflexive(s[i]);
    }
  }

  /** First position of x in s. */
  function FirstIndex<T(==)>(s: seq<T>, x: T): (k: nat)
    requires x in s
    ensures k < |s| && s[k] == x && x !in s[..k]
  {
    if s[0] == x then 0 else 1 + FirstIndex(s[1..], x)
  }

  /** Insertion-ordered set semantics: keep the first occurrence of every element. */
  function Dedup<T(==)>(s: seq<T>): seq<T> {
    if |s| == 0 then []
    else
      var d := Dedup(s[..|s| - 1]);
      if s[|s| - 1] in d then d else d + [s[|s| - 1]]
  }

  /** The de-duplicated list has the same elements, no repetitions, no more entries,
      and keeps elements in the order of their first occurrence. */
  lemma {:induction false} DedupProperties<T>(s: seq<T>)
    ensures forall x :: x in Dedup(s) <==> x in s
    ensures Distinct(Dedup(s))
    ensures |Dedup(s)| <= |s|
    ensures forall i, j :: 0 <= i < j < |Dedup(s)| ==>
      FirstIndex(s, Dedup(s)[i]) < FirstIndex(s, Dedup(s)[j])
  {
    if |s| > 0 {
      var p := s[..|s| - 1];
      var x := s[|s| - 1];
      DedupProperties(p);
      assert s == p + [x];
      var d := Dedup(p);
      forall y | y in p ensures FirstIndex(s, y) == FirstIndex(p, y) {
        FirstIndexPrefix(p, x, y);
      }
      if x !in d {
        assert FirstIndex(s, x) == |p| by {
          FirstIndexLast(p, x);
        }
      }
    }
  }

  lemma {:induction false} FirstIndexPrefix<T>(p: seq<T>, x: T, y: T)
    requires y in p
    ensures FirstIndex(p + [x], y) == FirstIndex(p, y)
  {
    if p[0] != y {
      assert (p + [x])[1..] == p[1..] + [x];
      FirstIndexPrefix(p[1..], x, y);
    }
  }

  lemma {:induction false} FirstIndexLast<T>(p: seq<T>, x: T)
    requires x !in p
    ensures FirstIndex(p + [x], x) == |p|
  {
    if |p| > 0 {
      assert (p + [x])[1..] == p[1..] + [x];
      FirstIndexLast(p[1..], x);
    }
  }

  function Sum(s: seq<nat>): nat {
    if |s| == 0 then 0 else Sum(s[..|s| - 1]) + s[|s| - 1]
  }

  /** [f(0), ..., f(n - 1)], built by appending as the source's loops push. */
  function Tabulate<T>(n: nat, f: nat -> T): (r: seq<T>)
    ensures |r| == n
  {
    if n == 0 then [] else Tabulate(n - 1, f) + [f(n - 1)]
  }

  lemma {:induction false} TabulateAt<T>(n: nat, f: nat -> T, i: nat)
    requires i < n
    ensures Tabulate(n, f)[i] == f(i)
  {
    if i < n - 1 {
      TabulateAt(n - 1, f, i);
    }
  }
}

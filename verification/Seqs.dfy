/** Filtering, stable sorting and extrema of sequences. */
module Seqs {

  function Filter<T>(s: seq<T>, keep: T -> bool): (r: seq<T>)
    ensures |r| <= |s|
    ensures forall x :: x in r ==> x in s && keep(x)
    ensures forall x :: x in s && keep(x) ==> x in r
  {
    if s == [] then []
    else if keep(s[0]) then [s[0]] + Filter(s[1..], keep)
    else Filter(s[1..], keep)
  }

  lemma {:induction false} FilterConcat<T>(a: seq<T>, b: seq<T>, keep: T -> bool)
    ensures Filter(a + b, keep) == Filter(a, keep) + Filter(b, keep)
  {
    if a == [] {
      assert a + b == b;
    } else {
      assert (a + b)[1..] == a[1..] + b;
      FilterConcat(a[1..], b, keep);
    }
  }

  lemma {:induction false} FilterAll<T>(s: seq<T>, keep: T -> bool)
    requires forall x :: x in s ==> keep(x)
    ensures Filter(s, keep) == s
  {
    if s != [] {
      FilterAll(s[1..], keep);
    }
  }

  lemma {:induction false} FilterNone<T>(s: seq<T>, keep: T -> bool)
    requires forall x :: x in s ==> !keep(x)
    ensures Filter(s, keep) == []
  {
    if s != [] {
      FilterNone(s[1..], keep);
    }
  }

  /** A sequence whose first part passes the filter and whose rest does not. */
  lemma {:induction false} FilterSplit<T>(s: seq<T>, n: nat, keep: T -> bool)
    requires n <= |s|
    requires forall j :: 0 <= j < n ==> keep(s[j])
    requires forall j :: n <= j < |s| ==> !keep(s[j])
    ensures Filter(s, keep) == s[..n]
  {
    assert s == s[..n] + s[n..];
    FilterConcat(s[..n], s[n..], keep);
    FilterAll(s[..n], keep);
    FilterNone(s[n..], keep);
  }

  /** Two filters with the same verdict on every element select the same elements. */
  lemma {:induction false} FilterCongruent<T>(s: seq<T>, p: T -> bool, q: T -> bool)
    requires forall x :: x in s ==> p(x) == q(x)
    ensures Filter(s, p) == Filter(s, q)
  {
    if s != [] {
      FilterCongruent(s[1..], p, q);
    }
  }

  ghost predicate Sorted<T>(s: seq<T>, leq: (T, T) -> bool)
  {
    forall i, j :: 0 <= i < j < |s| ==> leq(s[i], s[j])
  }

  /** Python's `sorted` is stable: an element goes after those it does not precede strictly. */
  function Insert<T>(x: T, s: seq<T>, leq: (T, T) -> bool): seq<T>
  {
    if s == [] then [x]
    else if leq(x, s[0]) then [x] + s
    else [s[0]] + Insert(x, s[1..], leq)
  }

  function StableSort<T>(s: seq<T>, leq: (T, T) -> bool): seq<T>
  {
    if s == [] then [] else Insert(s[0], StableSort(s[1..], leq), leq)
  }

  ghost predicate TotalPreorder<T(!new)>(leq: (T, T) -> bool)
  {
    && (forall x, y :: leq(x, y) || leq(y, x))
    && (forall x, y, z :: leq(x, y) && leq(y, z) ==> leq(x, z))
  }

  lemma PrependSorted<T>(x: T, s: seq<T>, leq: (T, T) -> bool)
    requires Sorted(s, leq) && forall j :: 0 <= j < |s| ==> leq(x, s[j])
    ensures Sorted([x] + s, leq)
  {
  }

  lemma {:induction false} InsertKeeps<T>(x: T, s: seq<T>, leq: (T, T) -> bool)
    ensures multiset(Insert(x, s, leq)) == multiset(s) + multiset{x}
  {
    if s != [] {
      assert s == [s[0]] + s[1..];
      InsertKeeps(x, s[1..], leq);
    }
  }

  lemma {:induction false} InsertSorted<T(!new)>(x: T, s: seq<T>, leq: (T, T) -> bool)
    requires TotalPreorder(leq) && Sorted(s, leq)
    ensures Sorted(Insert(x, s, leq), leq)
  {
    if s == [] {
    } else if leq(x, s[0]) {
      forall j | 0 <= j < |s| ensures leq(x, s[j]) {
        if j > 0 {
          assert leq(s[0], s[j]);
        }
      }
      PrependSorted(x, s, leq);
    } else {
      InsertSorted(x, s[1..], leq);
      InsertKeeps(x, s[1..], leq);
      var t := Insert(x, s[1..], leq);
      forall j | 0 <= j < |t| ensures leq(s[0], t[j]) {
        assert t[j] in multiset(t);
        if t[j] != x {
          assert t[j] in s[1..];
        }
      }
      PrependSorted(s[0], t, leq);
    }
  }

  lemma {:induction false} StableSortSorts<T(!new)>(s: seq<T>, leq: (T, T) -> bool)
    requires TotalPreorder(leq)
    ensures Sorted(StableSort(s, leq), leq)
    ensures multiset(StableSort(s, leq)) == multiset(s)
  {
    if s != [] {
      StableSortSorts(s[1..], leq);
      InsertSorted(s[0], StableSort(s[1..], leq), leq);
      InsertKeeps(s[0], StableSort(s[1..], leq), leq);
      assert s == [s[0]] + s[1..];
    }
  }

  /** Sorting a list that is already in order changes nothing. */
  lemma {:induction false} SortedIsFixed<T>(s: seq<T>, leq: (T, T) -> bool)
    requires Sorted(s, leq)
    ensures StableSort(s, leq) == s
  {
    if s != [] {
      SortedIsFixed(s[1..], leq);
      assert s == [s[0]] + s[1..];
    }
  }

  function Max(a: real, b: real): real { if a >= b then a else b }

  function Min(a: real, b: real): real { if a <= b then a else b }

  function Abs(a: real): real { if a >= 0.0 then a else -a }

  /** Python's `max` of a nonempty list. */
  function MaxOf(s: seq<real>): real
    requires |s| > 0
  {
    if |s| == 1 then s[0] else Max(s[0], MaxOf(s[1..]))
  }

  /** Python's `min` of a nonempty list. */
  function MinOf(s: seq<real>): real
    requires |s| > 0
  {
    if |s| == 1 then s[0] else Min(s[0], MinOf(s[1..]))
  }

  /** The maximum is the one value that occurs in the list and that nothing in it exceeds. */
  lemma {:induction false} MaxIs(s: seq<real>, i: nat)
    requires i < |s| && forall j :: 0 <= j < |s| ==> s[j] <= s[i]
    ensures MaxOf(s) == s[i]
  {
    if |s| > 1 {
      if i == 0 {
        MaxBounded(s[1..], s[0]);
      } else {
        MaxIs(s[1..], i - 1);
      }
    }
  }

  lemma {:induction false} MaxBounded(s: seq<real>, bound: real)
    requires |s| > 0 && forall j :: 0 <= j < |s| ==> s[j] <= bound
    ensures MaxOf(s) <= bound
  {
    if |s| > 1 {
      MaxBounded(s[1..], bound);
    }
  }

  lemma {:induction false} MinIs(s: seq<real>, i: nat)
    requires i < |s| && forall j :: 0 <= j < |s| ==> s[i] <= s[j]
    ensures MinOf(s) == s[i]
  {
    if |s| > 1 {
      if i == 0 {
        MinBounded(s[1..], s[0]);
      } else {
        MinIs(s[1..], i - 1);
      }
    }
  }

  lemma {:induction false} MinBounded(s: seq<real>, bound: real)
    requires |s| > 0 && forall j :: 0 <= j < |s| ==> bound <= s[j]
    ensures bound <= MinOf(s)
  {
    if |s| > 1 {
      MinBounded(s[1..], bound);
    }
  }

  function Sum(s: seq<real>): real
  {
    if s == [] then 0.0 else Sum(s[..|s| - 1]) + s[|s| - 1]
  }
}

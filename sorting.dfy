/** Python's `sorted` on a list of integers, ascending. */
module Sorting {

  predicate Ascending(xs: seq<int>) {
    forall i, j :: 0 <= i < j < |xs| ==> xs[i] <= xs[j]
  }

  predicate StrictlyAscending(xs: seq<int>) {
    forall i, j :: 0 <= i < j < |xs| ==> xs[i] < xs[j]
  }

  predicate Distinct(xs: seq<int>) {
    forall i, j :: 0 <= i < j < |xs| ==> xs[i] != xs[j]
  }

  /** Puts `x` in front of the first element of `ys` that is not smaller. */
  function Insert(x: int, ys: seq<int>): (r: seq<int>)
    ensures multiset(r) == multiset(ys) + multiset{x}
  {
    if |ys| == 0 || x <= ys[0] then [x] + ys
    else
      assert ys == [ys[0]] + ys[1..];
      [ys[0]] + Insert(x, ys[1..])
  }

  function Sort(xs: seq<int>): (r: seq<int>)
    ensures multiset(r) == multiset(xs)
  {
    if |xs| == 0 then []
    else
      assert xs == [xs[0]] + xs[1..];
      Insert(xs[0], Sort(xs[1..]))
  }

  lemma {:induction false} InsertAscending(x: int, ys: seq<int>)
    requires Ascending(ys)
    ensures Ascending(Insert(x, ys))
  {
    if |ys| > 0 && x > ys[0] {
      InsertAscending(x, ys[1..]);
      var r := Insert(x, ys[1..]);
      forall k | 0 <= k < |r| ensures ys[0] <= r[k] {
        assert r[k] in multiset(r);
      }
    }
  }

  lemma {:induction false} InsertStrictlyAscending(x: int, ys: seq<int>)
    requires StrictlyAscending(ys) && x !in ys
    ensures StrictlyAscending(Insert(x, ys))
  {
    if |ys| > 0 && x > ys[0] {
      InsertStrictlyAscending(x, ys[1..]);
      var r := Insert(x, ys[1..]);
      forall k | 0 <= k < |r| ensures ys[0] < r[k] {
        assert r[k] in multiset(r);
      }
    }
  }

  /** The result of `sorted` is in ascending order and a permutation of its input. */
  lemma {:induction false} SortAscending(xs: seq<int>)
    ensures Ascending(Sort(xs)) && multiset(Sort(xs)) == multiset(xs)
  {
    if |xs| > 0 {
      SortAscending(xs[1..]);
      InsertAscending(xs[0], Sort(xs[1..]));
    }
  }

  /** Sorting a list without repeats gives a strictly ascending list. */
  lemma {:induction false} SortDistinct(xs: seq<int>)
    requires Distinct(xs)
    ensures StrictlyAscending(Sort(xs))
  {
    if |xs| > 0 {
      SortDistinct(xs[1..]);
      assert xs[0] !in xs[1..];
      assert xs[0] !in multiset(Sort(xs[1..]));
      InsertStrictlyAscending(xs[0], Sort(xs[1..]));
    }
  }
}

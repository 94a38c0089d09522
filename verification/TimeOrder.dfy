/** Fills are paired in time order; a stable sort keeps the recorded order of
    fills that share a timestamp. */
module TimeOrder {

  ghost predicate InTimeOrder<T>(time: T -> int, fs: seq<T>) {
    forall i, j :: 0 <= i < j < |fs| ==> time(fs[i]) <= time(fs[j])
  }

  /** The fills stamped `t`, in the order they appear. */
  function At<T>(time: T -> int, fs: seq<T>, t: int): seq<T> {
    if fs == [] then []
    else At(time, fs[..|fs| - 1], t) + (if time(fs[|fs| - 1]) == t then [fs[|fs| - 1]] else [])
  }

  /** Insert `f` after everything that is not later than it. */
  function Insert<T>(time: T -> int, fs: seq<T>, f: T): (r: seq<T>)
    ensures multiset(r) == multiset(fs) + multiset{f}
  {
    if fs == [] || time(fs[|fs| - 1]) <= time(f) then fs + [f]
    else
      assert fs == fs[..|fs| - 1] + [fs[|fs| - 1]];
      Insert(time, fs[..|fs| - 1], f) + [fs[|fs| - 1]]
  }

  function SortByTime<T>(time: T -> int, fs: seq<T>): (r: seq<T>)
    ensures multiset(r) == multiset(fs)
  {
    if fs == [] then []
    else
      assert fs == fs[..|fs| - 1] + [fs[|fs| - 1]];
      Insert(time, SortByTime(time, fs[..|fs| - 1]), fs[|fs| - 1])
  }

  /** Inserting into a run that ends with a later element leaves it at the end. */
  lemma InsertBefore<T>(time: T -> int, fs: seq<T>, last: T, f: T)
    requires time(f) < time(last)
    ensures Insert(time, fs + [last], f) == Insert(time, fs, f) + [last]
  {
    assert (fs + [last])[..|fs|] == fs;
  }

  lemma AtAppends<T>(time: T -> int, fs: seq<T>, f: T, t: int)
    ensures At(time, fs + [f], t) == At(time, fs, t) + (if time(f) == t then [f] else [])
  {
    assert (fs + [f])[..|fs|] == fs;
  }

  lemma {:induction false} InsertKeepsOrder<T>(time: T -> int, fs: seq<T>, f: T)
    requires InTimeOrder(time, fs)
    ensures InTimeOrder(time, Insert(time, fs, f))
  {
    if fs != [] && time(f) < time(fs[|fs| - 1]) {
      var init, last := fs[..|fs| - 1], fs[|fs| - 1];
      var inserted := Insert(time, init, f);
      InsertKeepsOrder(time, init, f);
      forall i | 0 <= i < |inserted|
        ensures time(inserted[i]) <= time(last)
      {
        assert inserted[i] in multiset(init) + multiset{f};
      }
    }
  }

  lemma {:induction false} InsertIsStable<T>(time: T -> int, fs: seq<T>, f: T, t: int)
    ensures At(time, Insert(time, fs, f), t) == At(time, fs, t) + (if time(f) == t then [f] else [])
  {
    if fs == [] || time(fs[|fs| - 1]) <= time(f) {
      AtAppends(time, fs, f, t);
    } else {
      InsertIsStable(time, fs[..|fs| - 1], f, t);
      AtAppends(time, Insert(time, fs[..|fs| - 1], f), fs[|fs| - 1], t);
    }
  }

  /** Sorting orders by time, keeps every fill, and never swaps two fills that
      share a timestamp. */
  lemma {:induction false} SortIsStable<T>(time: T -> int, fs: seq<T>, t: int)
    ensures InTimeOrder(time, SortByTime(time, fs))
    ensures At(time, SortByTime(time, fs), t) == At(time, fs, t)
  {
    if fs != [] {
      var sorted := SortByTime(time, fs[..|fs| - 1]);
      SortIsStable(time, fs[..|fs| - 1], t);
      InsertKeepsOrder(time, sorted, fs[|fs| - 1]);
      InsertIsStable(time, sorted, fs[|fs| - 1], t);
    }
  }
}

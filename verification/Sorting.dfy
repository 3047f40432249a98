/** Array.sort, and what its result is determined by. */
module Sorting {
  function Insert<T>(before: (T, T) -> bool, one: T, sorted: seq<T>): seq<T> {
    if sorted == [] || before(one, sorted[0]) then [one] + sorted else [sorted[0]] + Insert(before, one, sorted[1..])
  }

  function Sort<T>(before: (T, T) -> bool, all: seq<T>): seq<T> {
    if all == [] then [] else Insert(before, all[0], Sort(before, all[1..]))
  }

  ghost predicate InOrder<T>(before: (T, T) -> bool, all: seq<T>) {
    forall i, j :: 0 <= i < j < |all| ==> before(all[i], all[j])
  }

  /** Any two are one before the other. */
  ghost predicate Comparable<T>(before: (T, T) -> bool, all: seq<T>) {
    forall i, j :: 0 <= i < j < |all| ==> before(all[i], all[j]) || before(all[j], all[i])
  }

  ghost predicate IsStrict<T(!new)>(before: (T, T) -> bool) {
    && (forall a, b :: before(a, b) ==> !before(b, a))
    && (forall a, b, c :: before(a, b) && before(b, c) ==> before(a, c))
  }

  lemma {:induction false} InsertHas<T>(before: (T, T) -> bool, one: T, sorted: seq<T>, x: T)
    ensures x in Insert(before, one, sorted) <==> x == one || x in sorted
  {
    if sorted != [] && !before(one, sorted[0]) {
      InsertHas(before, one, sorted[1..], x);
      assert sorted == [sorted[0]] + sorted[1..];
    }
  }

  lemma {:induction false} SortHas<T>(before: (T, T) -> bool, all: seq<T>, x: T)
    ensures x in Sort(before, all) <==> x in all
  {
    if all != [] {
      SortHas(before, all[1..], x);
      InsertHas(before, all[0], Sort(before, all[1..]), x);
      assert all == [all[0]] + all[1..];
    }
  }

  lemma {:induction false} InsertInOrder<T(!new)>(before: (T, T) -> bool, one: T, sorted: seq<T>)
    requires IsStrict(before) && InOrder(before, sorted)
    requires forall x :: x in sorted ==> before(one, x) || before(x, one)
    ensures InOrder(before, Insert(before, one, sorted))
  {
    if sorted != [] && !before(one, sorted[0]) {
      assert forall x :: x in sorted[1..] ==> x in sorted;
      InsertInOrder(before, one, sorted[1..]);
      assert sorted[0] in sorted;
      forall x | x in Insert(before, one, sorted[1..]) ensures before(sorted[0], x) {
        InsertHas(before, one, sorted[1..], x);
      }
    }
  }

  lemma {:induction false} SortInOrder<T(!new)>(before: (T, T) -> bool, all: seq<T>)
    requires IsStrict(before) && Comparable(before, all)
    ensures InOrder(before, Sort(before, all))
  {
    if all != [] {
      var rest := all[1..];
      forall i, j | 0 <= i < j < |rest| ensures before(rest[i], rest[j]) || before(rest[j], rest[i]) {
        assert rest[i] == all[i + 1] && rest[j] == all[j + 1];
      }
      SortInOrder(before, rest);
      forall x | x in Sort(before, rest) ensures before(all[0], x) || before(x, all[0]) {
        SortHas(before, rest, x);
        var i :| 0 <= i < |rest| && rest[i] == x;
        assert all[i + 1] == x;
      }
      InsertInOrder(before, all[0], Sort(before, rest));
    }
  }

  /** What is in order is determined by what is in it. */
  lemma {:induction false} OrderIsUnique<T(!new)>(before: (T, T) -> bool, one: seq<T>, other: seq<T>)
    requires IsStrict(before) && InOrder(before, one) && InOrder(before, other)
    requires forall x :: x in one <==> x in other
    ensures one == other
  {
    if one == [] {
      assert forall i :: 0 <= i < |other| ==> other[i] in other;
    } else {
      assert one[0] in other;
      assert other[0] in one;
      assert one[0] == other[0];
      forall x ensures x in one[1..] <==> x in other[1..] {
        TailHas(before, one, x);
        TailHas(before, other, x);
      }
      OrderIsUnique(before, one[1..], other[1..]);
    }
  }

  lemma TailHas<T(!new)>(before: (T, T) -> bool, all: seq<T>, x: T)
    requires IsStrict(before) && InOrder(before, all) && all != []
    ensures x in all[1..] <==> x in all && x != all[0]
  {
    assert all == [all[0]] + all[1..];
    forall i | 0 <= i < |all| - 1 ensures all[1..][i] != all[0] {
      assert before(all[0], all[i + 1]);
    }
  }

  /** Two lists sort alike exactly when they hold the same. */
  lemma SortsAlike<T(!new)>(before: (T, T) -> bool, one: seq<T>, other: seq<T>)
    requires IsStrict(before) && Comparable(before, one) && Comparable(before, other)
    ensures Sort(before, one) == Sort(before, other) <==> forall x :: x in one <==> x in other
  {
    SortInOrder(before, one);
    SortInOrder(before, other);
    forall x ensures (x in Sort(before, one) <==> x in one) && (x in Sort(before, other) <==> x in other) {
      SortHas(before, one, x);
      SortHas(before, other, x);
    }
    if forall x :: x in one <==> x in other {
      OrderIsUnique(before, Sort(before, one), Sort(before, other));
    }
  }
}

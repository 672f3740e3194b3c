/** Shared value types, plus the few facts about sorting and summing that several modules need. */
module Basics {

  datatype Option<+T> = None | Some(value: T)

  /** The result of an operation that either completes or throws; a thrown transaction is rolled back. */
  datatype Outcome<+T> = Ok(value: T) | Rejected(reason: Rejection)

  datatype Rejection =
    | Unauthorized
    | NotFound
    | PaymentUnavailable
    | AttemptUnavailable
    | AllocationUnavailable
    | IdempotencyConflict
    | DiscountClaimHeld
    | QuoteUnavailable
    | CartUnavailable
    | MoneyOutOfRange
    | UniqueViolation          // the database refuses a second row under a unique index
    | StillReferenced          // the database refuses to delete a row that others refer to

  // ----- Sorting rows by a key -----

  ghost predicate SortedBy<T>(xs: seq<T>, key: T -> int) {
    forall i, j :: 0 <= i < j < |xs| ==> key(xs[i]) <= key(xs[j])
  }

  ghost predicate DistinctBy<T>(xs: seq<T>, key: T -> int) {
    forall i, j :: 0 <= i < j < |xs| ==> key(xs[i]) != key(xs[j])
  }

  function InsertBy<T>(x: T, xs: seq<T>, key: T -> int): (r: seq<T>) {
    if xs == [] || key(x) <= key(xs[0]) then [x] + xs else [xs[0]] + InsertBy(x, xs[1..], key)
  }

  /** ORDER BY key, stable. */
  function SortBy<T>(xs: seq<T>, key: T -> int): (r: seq<T>) {
    if xs == [] then [] else InsertBy(xs[0], SortBy(xs[1..], key), key)
  }

  lemma {:induction false} InsertByAddsOne<T>(x: T, xs: seq<T>, key: T -> int)
    ensures multiset(InsertBy(x, xs, key)) == multiset(xs) + multiset{x}
  {
    if xs == [] || key(x) <= key(xs[0]) {
    } else {
      InsertByAddsOne(x, xs[1..], key);
      assert xs == [xs[0]] + xs[1..];
    }
  }

  lemma {:induction false} InsertByStaysSorted<T>(x: T, xs: seq<T>, key: T -> int)
    requires SortedBy(xs, key)
    ensures SortedBy(InsertBy(x, xs, key), key)
  {
    if xs == [] || key(x) <= key(xs[0]) {
    } else {
      InsertByStaysSorted(x, xs[1..], key);
      var r := InsertBy(x, xs[1..], key);
      InsertByAddsOne(x, xs[1..], key);
      forall k | 0 <= k < |r| ensures key(xs[0]) <= key(r[k]) {
        assert r[k] in multiset(xs[1..]) + multiset{x};
      }
    }
  }

  lemma {:induction false} SortByIsSortedPermutation<T>(xs: seq<T>, key: T -> int)
    ensures multiset(SortBy(xs, key)) == multiset(xs)
    ensures |SortBy(xs, key)| == |xs|
    ensures SortedBy(SortBy(xs, key), key)
  {
    if xs != [] {
      SortByIsSortedPermutation(xs[1..], key);
      InsertByAddsOne(xs[0], SortBy(xs[1..], key), key);
      InsertByStaysSorted(xs[0], SortBy(xs[1..], key), key);
      assert xs == [xs[0]] + xs[1..];
    }
    assert |multiset(SortBy(xs, key))| == |multiset(xs)|;
  }

  /** Reading one bag of rows with distinct keys back in key order gives one list only. */
  lemma {:induction false} SortedRowsAreUnique<T>(xs: seq<T>, ys: seq<T>, key: T -> int)
    requires multiset(xs) == multiset(ys)
    requires SortedBy(xs, key) && SortedBy(ys, key)
    requires DistinctBy(xs, key)
    ensures xs == ys
  {
    assert |multiset(xs)| == |multiset(ys)|;
    if xs != [] {
      SmallestFirst(xs, ys, key);
      SameRest(xs, ys);
      SortedRowsAreUnique(xs[1..], ys[1..], key);
    }
  }

  lemma SmallestFirst<T>(xs: seq<T>, ys: seq<T>, key: T -> int)
    requires xs != [] && ys != [] && multiset(xs) == multiset(ys)
    requires SortedBy(xs, key) && SortedBy(ys, key)
    requires DistinctBy(xs, key)
    ensures xs[0] == ys[0]
  {
    assert xs[0] in multiset(ys) && ys[0] in multiset(xs);
    var i :| 0 <= i < |ys| && ys[i] == xs[0];
    var j :| 0 <= j < |xs| && xs[j] == ys[0];
    assert key(ys[0]) <= key(ys[i]) && key(xs[0]) <= key(xs[j]);
    assert j == 0;
  }

  lemma SameRest<T>(xs: seq<T>, ys: seq<T>)
    requires xs != [] && ys != [] && xs[0] == ys[0] && multiset(xs) == multiset(ys)
    ensures multiset(xs[1..]) == multiset(ys[1..])
  {
    assert xs == [xs[0]] + xs[1..] && ys == [ys[0]] + ys[1..];
    assert multiset(xs[1..]) == multiset(xs) - multiset{xs[0]};
    assert multiset(ys[1..]) == multiset(ys) - multiset{ys[0]};
  }

  lemma OccursOnce<T>(xs: seq<T>, a: nat, key: T -> int)
    requires DistinctBy(xs, key) && a < |xs|
    ensures multiset(xs)[xs[a]] == 1
  {
    assert xs == xs[..a] + [xs[a]] + xs[a + 1..];
    forall j | 0 <= j < |xs| && j != a ensures xs[j] != xs[a] {
      if j < a { assert key(xs[j]) != key(xs[a]); } else { assert key(xs[a]) != key(xs[j]); }
    }
    assert xs[a] !in xs[..a] && xs[a] !in xs[a + 1..];
  }

  lemma OccursTwice<T>(ys: seq<T>, i: nat, j: nat)
    requires i < j < |ys| && ys[i] == ys[j]
    ensures multiset(ys)[ys[j]] >= 2
  {
    assert ys == ys[..j] + [ys[j]] + ys[j + 1..];
    assert ys[i] == ys[..j][i];
    assert ys[j] in multiset(ys[..j]);
  }

  lemma DistinctByPermutation<T>(xs: seq<T>, ys: seq<T>, key: T -> int)
    requires multiset(xs) == multiset(ys)
    requires DistinctBy(xs, key)
    ensures DistinctBy(ys, key)
  {
    forall i, j | 0 <= i < j < |ys| ensures key(ys[i]) != key(ys[j]) {
      assert ys[i] in multiset(xs) && ys[j] in multiset(xs);
      var a :| 0 <= a < |xs| && xs[a] == ys[i];
      var b :| 0 <= b < |xs| && xs[b] == ys[j];
      if a == b {
        OccursTwice(ys, i, j);
        OccursOnce(xs, a, key);
        assert false;
      }
    }
  }

  /** Two lists of the same rows: the first row of one is somewhere in the other, and the rest agrees. */
  lemma MatchHead<T>(xs: seq<T>, ys: seq<T>) returns (i: nat)
    requires xs != [] && multiset(xs) == multiset(ys)
    ensures i < |ys| && ys[i] == xs[0]
    ensures ys == ys[..i] + ([ys[i]] + ys[i + 1..])
    ensures multiset(xs[1..]) == multiset(ys[..i] + ys[i + 1..])
  {
    assert xs[0] in multiset(ys);
    i :| 0 <= i < |ys| && ys[i] == xs[0];
    assert ys == ys[..i] + ([ys[i]] + ys[i + 1..]);
    assert xs == [xs[0]] + xs[1..];
    assert multiset(ys[..i] + ys[i + 1..]) == multiset(ys) - multiset{ys[i]};
    assert multiset(xs[1..]) == multiset(xs) - multiset{xs[0]};
  }

  // ----- Finite sums -----

  ghost function Sum(f: nat -> int, n: nat): int {
    if n == 0 then 0 else Sum(f, n - 1) + f(n - 1)
  }

  lemma {:induction false} SumAgrees(f: nat -> int, g: nat -> int, n: nat)
    requires forall j: nat :: j < n ==> f(j) == g(j)
    ensures Sum(f, n) == Sum(g, n)
  {
    if n > 0 { SumAgrees(f, g, n - 1); }
  }

  lemma {:induction false} SumChangesAt(f: nat -> int, g: nat -> int, n: nat, i: nat)
    requires i < n
    requires forall j: nat :: j < n && j != i ==> f(j) == g(j)
    ensures Sum(g, n) == Sum(f, n) - f(i) + g(i)
  {
    if i == n - 1 { SumAgrees(f, g, n - 1); } else { SumChangesAt(f, g, n - 1, i); }
  }
}

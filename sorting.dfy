/** `rows.sort((a, b) => b.qty - a.qty)`, the in-place sort every receipt
    applies to its rows: largest quantity first, rows of equal quantity in
    the order they had (the sort is stable). */
module Sorting {
  import opened Lists

  /** The order the sort leaves, built by inserting each row, from the first
      to the last, behind every earlier row of at least its quantity. */
  function SortByQty<T>(s: seq<T>, qty: T -> int): (r: seq<T>)
    ensures |r| == |s|
  {
    if s == [] then [] else Insert(SortByQty(s[..|s| - 1], qty), s[|s| - 1], qty)
  }

  /** Places `x` behind the last row whose quantity is at least its own. */
  function Insert<T>(s: seq<T>, x: T, qty: T -> int): (r: seq<T>)
    ensures |r| == |s| + 1
  {
    if s == [] || qty(s[|s| - 1]) >= qty(x) then s + [x]
    else Insert(s[..|s| - 1], x, qty) + [s[|s| - 1]]
  }

  predicate NonIncreasing<T>(s: seq<T>, qty: T -> int) {
    forall i, j :: 0 <= i < j < |s| ==> qty(s[i]) >= qty(s[j])
  }

  /** The rows of `s` that have quantity `q`, in order. */
  function WithQty<T>(s: seq<T>, qty: T -> int, q: int): seq<T> {
    if s == [] then []
    else WithQty(s[..|s| - 1], qty, q) + (if qty(s[|s| - 1]) == q then [s[|s| - 1]] else [])
  }

  // ---------------------------------------------------------------------

  lemma {:induction false} InsertMultiset<T>(s: seq<T>, x: T, qty: T -> int)
    ensures multiset(Insert(s, x, qty)) == multiset(s) + multiset{x}
  {
    if s != [] && qty(s[|s| - 1]) < qty(x) {
      var s', l := s[..|s| - 1], s[|s| - 1];
      InsertMultiset(s', x, qty);
      assert s == s' + [l];
    }
  }

  lemma {:induction false} InsertOrdered<T>(s: seq<T>, x: T, qty: T -> int)
    requires NonIncreasing(s, qty)
    ensures NonIncreasing(Insert(s, x, qty), qty)
  {
    if s != [] && qty(s[|s| - 1]) < qty(x) {
      var s', l := s[..|s| - 1], s[|s| - 1];
      InsertOrdered(s', x, qty);
      InsertMultiset(s', x, qty);
      var r' := Insert(s', x, qty);
      forall i | 0 <= i < |r'| ensures qty(r'[i]) >= qty(l) {
        assert r'[i] in multiset(s') + multiset{x};
        if r'[i] != x {
          var k :| 0 <= k < |s'| && s'[k] == r'[i];
          assert s[k] == s'[k];
        }
      }
    }
  }

  lemma {:induction false} WithQtySnoc<T>(s: seq<T>, x: T, qty: T -> int, q: int)
    ensures WithQty(s + [x], qty, q) == WithQty(s, qty, q) + (if qty(x) == q then [x] else [])
  {
    assert (s + [x])[..|s|] == s;
  }

  lemma {:induction false} InsertStable<T>(s: seq<T>, x: T, qty: T -> int, q: int)
    ensures WithQty(Insert(s, x, qty), qty, q) == WithQty(s, qty, q) + (if qty(x) == q then [x] else [])
  {
    if s == [] || qty(s[|s| - 1]) >= qty(x) {
      WithQtySnoc(s, x, qty, q);
    } else {
      var s', l := s[..|s| - 1], s[|s| - 1];
      InsertStable(s', x, qty, q);
      assert s == s' + [l];
      WithQtySnoc(Insert(s', x, qty), l, qty, q);
      WithQtySnoc(s', l, qty, q);
      assert qty(x) != q || qty(l) != q;
    }
  }

  /** The sorted rows are the input rows, each exactly as often. */
  lemma {:induction false} SortPermutation<T>(s: seq<T>, qty: T -> int)
    ensures multiset(SortByQty(s, qty)) == multiset(s)
  {
    if s != [] {
      SortPermutation(s[..|s| - 1], qty);
      InsertMultiset(SortByQty(s[..|s| - 1], qty), s[|s| - 1], qty);
      assert s == s[..|s| - 1] + [s[|s| - 1]];
    }
  }

  /** The sorted rows run from the largest quantity to the smallest. */
  lemma {:induction false} SortOrdered<T>(s: seq<T>, qty: T -> int)
    ensures NonIncreasing(SortByQty(s, qty), qty)
  {
    if s != [] {
      SortOrdered(s[..|s| - 1], qty);
      InsertOrdered(SortByQty(s[..|s| - 1], qty), s[|s| - 1], qty);
    }
  }

  /** Rows of equal quantity keep their relative order. */
  lemma {:induction false} SortStable<T>(s: seq<T>, qty: T -> int, q: int)
    ensures WithQty(SortByQty(s, qty), qty, q) == WithQty(s, qty, q)
  {
    if s != [] {
      var s', x := s[..|s| - 1], s[|s| - 1];
      SortStable(s', qty, q);
      InsertStable(SortByQty(s', qty), x, qty, q);
      WithQtySnoc(s', x, qty, q);
      assert s == s' + [x];
    }
  }

  /** Rows already in order are left as they are. */
  lemma {:induction false} SortKeepsOrdered<T>(s: seq<T>, qty: T -> int)
    requires NonIncreasing(s, qty)
    ensures SortByQty(s, qty) == s
  {
    if s != [] {
      var s' := s[..|s| - 1];
      assert NonIncreasing(s', qty);
      SortKeepsOrdered(s', qty);
      assert s == s' + [s[|s| - 1]];
    }
  }

  /** Mapping every row to another that has the same quantity commutes with
      the sort: sorting the mapped rows gives the mapped sorted rows. */
  lemma {:induction false} SortMap<T, U>(s: seq<T>, qty: T -> int, f: T -> U, qty': U -> int)
    requires forall y :: qty'(f(y)) == qty(y)
    ensures Map(SortByQty(s, qty), f) == SortByQty(Map(s, f), qty')
  {
    if s != [] {
      var s' := s[..|s| - 1];
      SortMap(s', qty, f, qty');
      InsertMap(SortByQty(s', qty), s[|s| - 1], qty, f, qty');
      assert s == s' + [s[|s| - 1]];
      MapSnoc(s', s[|s| - 1], f);
      assert (Map(s', f) + [f(s[|s| - 1])])[..|s'|] == Map(s', f);
    }
  }

  lemma {:induction false} InsertMap<T, U>(s: seq<T>, x: T, qty: T -> int, f: T -> U, qty': U -> int)
    requires forall y :: qty'(f(y)) == qty(y)
    ensures Map(Insert(s, x, qty), f) == Insert(Map(s, f), f(x), qty')
  {
    if s == [] || qty(s[|s| - 1]) >= qty(x) {
      MapSnoc(s, x, f);
    } else {
      var s', l := s[..|s| - 1], s[|s| - 1];
      assert s == s' + [l];
      InsertMap(s', x, qty, f, qty');
      MapSnoc(s', l, f);
      MapSnoc(Insert(s', x, qty), l, f);
      InsertBehind(Map(s', f), f(l), f(x), qty');
    }
  }

  /** Inserting behind a smaller last row passes over it. */
  lemma {:induction false} InsertBehind<T>(s: seq<T>, l: T, x: T, qty: T -> int)
    requires qty(l) < qty(x)
    ensures Insert(s + [l], x, qty) == Insert(s, x, qty) + [l]
  {
    assert (s + [l])[..|s|] == s;
  }

  /** The sort as it runs in place on the array: each row in turn is taken
      out and the smaller-quantity rows before it are shifted up one place. */
  method SortInPlace<T>(a: array<T>, qty: T -> int)
    modifies a
    ensures a[..] == SortByQty(old(a[..]), qty)
  {
    ghost var input := a[..];
    var i := 0;
    while i < a.Length
      invariant 0 <= i <= a.Length
      invariant a[..i] == SortByQty(input[..i], qty)
      invariant a[i..] == input[i..]
    {
      InsertNext(a, i, qty);
      assert input[..i + 1][..i] == input[..i];
      assert a[i + 1..] == input[i + 1..];
      i := i + 1;
    }
    assert input[..a.Length] == input;
  }

  /** One pass of the sort: moves `a[i]` into place among the sorted
      `a[..i]`. */
  method InsertNext<T>(a: array<T>, i: nat, qty: T -> int)
    requires i < a.Length
    modifies a
    ensures a[..i + 1] == Insert(old(a[..i]), old(a[i]), qty)
    ensures a[i + 1..] == old(a[i + 1..])
  {
    ghost var done := a[..i];
    var x := a[i];
    var j := ShiftUp(a, i, x, qty);
    a[j] := x;
    InsertAt(done, x, qty, j);
    assert a[..i + 1] == done[..j] + [x] + done[j..];
  }

  /** The inner loop of a pass: shifts up one place the rows just before
      `i` whose quantity is below `qty(x)`, and returns the place left
      free. */
  method ShiftUp<T>(a: array<T>, i: nat, x: T, qty: T -> int) returns (j: nat)
    requires i < a.Length
    modifies a
    ensures j <= i && (j == 0 || qty(old(a[j - 1])) >= qty(x))
    ensures forall k :: 0 <= k < j ==> a[k] == old(a[k])
    ensures forall k :: j < k <= i ==> a[k] == old(a[k - 1])
    ensures forall k :: i < k < a.Length ==> a[k] == old(a[k])
    ensures forall k :: j <= k < i ==> qty(old(a[k])) < qty(x)
  {
    j := i;
    while j > 0 && qty(a[j - 1]) < qty(x)
      invariant 0 <= j <= i
      invariant forall k :: 0 <= k < j ==> a[k] == old(a[k])
      invariant forall k :: j < k <= i ==> a[k] == old(a[k - 1])
      invariant forall k :: i < k < a.Length ==> a[k] == old(a[k])
      invariant forall k :: j <= k < i ==> qty(old(a[k])) < qty(x)
    {
      a[j] := a[j - 1];
      j := j - 1;
    }
  }

  /** `x` is inserted right after the last row of at least its quantity:
      behind it every row has a smaller one. */
  lemma {:induction false} InsertAt<T>(s: seq<T>, x: T, qty: T -> int, j: nat)
    requires j <= |s| && (j == 0 || qty(s[j - 1]) >= qty(x))
    requires forall k :: j <= k < |s| ==> qty(s[k]) < qty(x)
    ensures Insert(s, x, qty) == s[..j] + [x] + s[j..]
  {
    if j < |s| {
      var s', l := s[..|s| - 1], s[|s| - 1];
      InsertAt(s', x, qty, j);
      assert s'[..j] == s[..j] && s'[j..] + [l] == s[j..];
    }
  }
}

/** linqify's `Dictionary<K, number>` as the end-of-day report uses it: an
    insertion-ordered list of key/value entries with `ContainsKey`, `Get`,
    `Set`, `Add` and `ToArray`. */
module Dictionary {
  import opened Wrappers
  import opened Lists

  type Dict<K> = seq<(K, int)>

  function Keys<K>(d: Dict<K>): (ks: seq<K>)
    ensures |ks| == |d| && forall i :: 0 <= i < |d| ==> ks[i] == d[i].0
  {
    if d == [] then [] else [d[0].0] + Keys(d[1..])
  }

  predicate DistinctKeys<K(==)>(d: Dict<K>) {
    forall i, j :: 0 <= i < j < |d| ==> d[i].0 != d[j].0
  }

  function IndexOf<K(==)>(d: Dict<K>, k: K): Option<nat> {
    FirstIndex(d, (e: (K, int)) => e.0 == k)
  }

  predicate ContainsKey<K(==)>(d: Dict<K>, k: K) {
    k in Keys(d)
  }

  /** The value stored under `k`, and 0 for a key never added. */
  function Lookup<K(==)>(d: Dict<K>, k: K): int {
    match IndexOf(d, k)
    case None => 0
    case Some(i) => d[i].1
  }

  /** `if (ContainsKey(k)) Set(k, Get(k) + amount); else Add(k, amount);` */
  function Bump<K(==)>(d: Dict<K>, k: K, amount: int): Dict<K> {
    match IndexOf(d, k)
    case Some(i) => d[i := (k, d[i].1 + amount)]
    case None => d + [(k, amount)]
  }

  /** The sum of all stored values. */
  function Total<K>(d: Dict<K>): int {
    if d == [] then 0 else d[0].1 + Total(d[1..])
  }

  // ---------------------------------------------------------------------

  lemma {:induction false} IndexOfContains<K>(d: Dict<K>, k: K)
    ensures IndexOf(d, k).Some? <==> ContainsKey(d, k)
  {
    if ContainsKey(d, k) {
      var i :| 0 <= i < |d| && Keys(d)[i] == k;
      assert d[i].0 == k;
    }
  }

  /** A bump adds `amount` to its own key's value and leaves every other key's
      value as it was. */
  lemma {:induction false} BumpLookup<K>(d: Dict<K>, k: K, amount: int, j: K)
    ensures Lookup(Bump(d, k, amount), j) == Lookup(d, j) + (if j == k then amount else 0)
  {
    var d' := Bump(d, k, amount);
    var pj := (e: (K, int)) => e.0 == j;
    assert forall m :: 0 <= m < |d| && d[m].0 != k ==> d'[m] == d[m];
    match IndexOf(d, k)
    case Some(i) =>
      if j == k {
        FirstIndexAt(d', pj, i);
      } else {
        match IndexOf(d, j)
        case Some(m) => FirstIndexAt(d', pj, m);
        case None => assert forall m :: 0 <= m < |d'| ==> !pj(d'[m]);
      }
    case None =>
      if j == k {
        FirstIndexAt(d', pj, |d|);
      } else {
        match IndexOf(d, j)
        case Some(m) => FirstIndexAt(d', pj, m);
        case None => assert forall m :: 0 <= m < |d'| ==> !pj(d'[m]);
      }
  }

  /** A bump keeps the order of the keys already present and adds a new key
      at the end, so keys stay distinct. */
  lemma {:induction false} BumpKeys<K>(d: Dict<K>, k: K, amount: int)
    ensures Keys(Bump(d, k, amount)) == if ContainsKey(d, k) then Keys(d) else Keys(d) + [k]
    ensures DistinctKeys(d) ==> DistinctKeys(Bump(d, k, amount))
  {
    IndexOfContains(d, k);
    var d' := Bump(d, k, amount);
    if ContainsKey(d, k) {
      assert Keys(d') == Keys(d);
    } else {
      assert Keys(d') == Keys(d) + [k];
      assert forall i :: 0 <= i < |d| ==> d[i].0 != k;
    }
  }

  lemma {:induction false} TotalAppend<K>(d: Dict<K>, e: (K, int))
    ensures Total(d + [e]) == Total(d) + e.1
  {
    if d == [] {
      assert [e][1..] == [];
    } else {
      assert (d + [e])[1..] == d[1..] + [e];
      TotalAppend(d[1..], e);
    }
  }

  lemma {:induction false} TotalUpdate<K>(d: Dict<K>, i: nat, e: (K, int))
    requires i < |d|
    ensures Total(d[i := e]) == Total(d) - d[i].1 + e.1
  {
    if i > 0 {
      assert d[i := e][1..] == d[1..][i - 1 := e];
      TotalUpdate(d[1..], i - 1, e);
    }
  }

  /** A bump adds exactly `amount` to the total. */
  lemma {:induction false} BumpTotal<K>(d: Dict<K>, k: K, amount: int)
    ensures Total(Bump(d, k, amount)) == Total(d) + amount
  {
    match IndexOf(d, k)
    case Some(i) => TotalUpdate(d, i, (k, d[i].1 + amount));
    case None => TotalAppend(d, (k, amount));
  }
}

/** Python dictionaries, which remember the order in which keys were first inserted,
    as sequences of entries. Assigning to a present key keeps its position;
    assigning to a new key appends it; `del` removes it. */
module Dicts {
  import opened Wrappers

  datatype Entry<K, V> = Entry(key: K, value: V)

  type Dict<K, V> = seq<Entry<K, V>>

  /** Every dictionary the code builds through `Put` and `Delete` has distinct keys. */
  predicate DistinctKeys<K(==,!new), V(!new)>(d: Dict<K, V>) {
    forall i, j :: 0 <= i < j < |d| ==> d[i].key != d[j].key
  }

  /** `list(d.keys())`. */
  function Keys<K, V>(d: Dict<K, V>): (ks: seq<K>)
    ensures |ks| == |d|
    ensures forall i :: 0 <= i < |d| ==> ks[i] == d[i].key
  {
    seq(|d|, i requires 0 <= i < |d| => d[i].key)
  }

  /** The position of key `k`, if it is present. */
  function Find<K(==,!new), V(!new)>(d: Dict<K, V>, k: K): (r: Option<nat>)
    ensures r.Some? ==> r.value < |d| && d[r.value].key == k
    ensures r.Some? ==> forall i :: 0 <= i < r.value ==> d[i].key != k
    ensures r.None? <==> forall i :: 0 <= i < |d| ==> d[i].key != k
  {
    if |d| == 0 then None
    else if d[0].key == k then Some(0)
    else match Find(d[1..], k)
      case None => None
      case Some(i) => Some(i + 1)
  }

  predicate HasKey<K(==,!new), V(!new)>(d: Dict<K, V>, k: K) {
    Find(d, k).Some?
  }

  /** `d.get(k)`. */
  function Lookup<K(==,!new), V(!new)>(d: Dict<K, V>, k: K): (r: Option<V>)
    ensures r.Some? <==> HasKey(d, k)
    ensures r.Some? ==> Entry(k, r.value) in d
  {
    match Find(d, k)
    case None => None
    case Some(i) => Some(d[i].value)
  }

  /** `d[k] = v`: the value is replaced in place, or the entry is appended. */
  function Put<K(==,!new), V(!new)>(d: Dict<K, V>, k: K, v: V): (r: Dict<K, V>)
    ensures Lookup(r, k) == Some(v)
    ensures forall k' :: k' != k ==> Lookup(r, k') == Lookup(d, k')
    ensures HasKey(d, k) ==> |r| == |d| && Keys(r) == Keys(d)
    ensures !HasKey(d, k) ==> r == d + [Entry(k, v)]
    ensures DistinctKeys(d) ==> DistinctKeys(r)
    ensures forall x :: x in r ==> x == Entry(k, v) || x in d
  {
    match Find(d, k)
    case Some(i) =>
      ReplaceSpec(d, k, v, i);
      d[i := Entry(k, v)]
    case None =>
      AppendSpec(d, k, v);
      d + [Entry(k, v)]
  }

  /** Replacing the entry of a present key. */
  lemma ReplaceSpec<K(!new), V(!new)>(d: Dict<K, V>, k: K, v: V, i: nat)
    requires Find(d, k) == Some(i)
    ensures var r := d[i := Entry(k, v)];
      && Lookup(r, k) == Some(v)
      && (forall k' :: k' != k ==> Lookup(r, k') == Lookup(d, k'))
      && |r| == |d| && Keys(r) == Keys(d)
      && (DistinctKeys(d) ==> DistinctKeys(r))
      && (forall x :: x in r ==> x == Entry(k, v) || x in d)
  {
    var r := d[i := Entry(k, v)];
    assert forall j :: 0 <= j < |r| ==> r[j] == Entry(k, v) || r[j] == d[j];
    forall k' ensures Find(r, k') == Find(d, k') {
      FindSameKeys(d, r, k');
    }
  }

  /** Appending the entry of an absent key. */
  lemma AppendSpec<K(!new), V(!new)>(d: Dict<K, V>, k: K, v: V)
    requires Find(d, k).None?
    ensures var r := d + [Entry(k, v)];
      && Lookup(r, k) == Some(v)
      && (forall k' :: k' != k ==> Lookup(r, k') == Lookup(d, k'))
      && (DistinctKeys(d) ==> DistinctKeys(r))
      && (forall x :: x in r ==> x == Entry(k, v) || x in d)
  {
    var r := d + [Entry(k, v)];
    forall k' | k' != k ensures Find(r, k') == Find(d, k') {
      FindAppend(d, Entry(k, v), k');
    }
    FindAppend(d, Entry(k, v), k);
  }

  /** Two dictionaries with the same keys in the same places find every key at the same place. */
  lemma {:induction false} FindSameKeys<K(!new), V(!new)>(d: Dict<K, V>, e: Dict<K, V>, k: K)
    requires |d| == |e|
    requires forall i :: 0 <= i < |d| ==> d[i].key == e[i].key
    ensures Find(d, k) == Find(e, k)
  {
    if |d| > 0 && d[0].key != k {
      FindSameKeys(d[1..], e[1..], k);
    }
  }

  lemma {:induction false} FindAppend<K(!new), V(!new)>(d: Dict<K, V>, x: Entry<K, V>, k: K)
    ensures Find(d + [x], k) == if HasKey(d, k) then Find(d, k) else if x.key == k then Some(|d|) else None
  {
    if |d| > 0 && d[0].key != k {
      assert (d + [x])[1..] == d[1..] + [x];
      FindAppend(d[1..], x, k);
    }
  }

  /** `del d[k]` (or nothing when `k` is absent). */
  function Delete<K(==,!new), V(!new)>(d: Dict<K, V>, k: K): (r: Dict<K, V>)
    ensures !HasKey(r, k)
    ensures forall x :: x in r <==> x in d && x.key != k
    ensures |r| <= |d|
  {
    if |d| == 0 then []
    else (if d[0].key == k then [] else [d[0]]) + Delete(d[1..], k)
  }

  /** With distinct keys, looking a key up finds exactly the entry that carries it. */
  lemma LookupMember<K(!new), V(!new)>(d: Dict<K, V>, k: K, v: V)
    requires DistinctKeys(d)
    ensures Lookup(d, k) == Some(v) <==> Entry(k, v) in d
  {
    if Entry(k, v) in d {
      var i :| 0 <= i < |d| && d[i] == Entry(k, v);
      var j := Find(d, k).value;
      assert i == j;
    }
  }

  /** Deleting keeps the remaining keys distinct. */
  lemma {:induction false} DeleteDistinct<K(!new), V(!new)>(d: Dict<K, V>, k: K)
    requires DistinctKeys(d)
    ensures DistinctKeys(Delete(d, k))
  {
    if |d| > 0 {
      DeleteDistinct(d[1..], k);
      var t := Delete(d[1..], k);
      if d[0].key != k {
        var r := Delete(d, k);
        assert r == [d[0]] + t;
        forall j | 0 < j < |r| ensures r[0].key != r[j].key {
          assert r[j] in d[1..];
        }
      }
    }
  }

  /** Deleting a key removes one entry if the key is present and none otherwise. */
  lemma {:induction false} DeleteSize<K(!new), V(!new)>(d: Dict<K, V>, k: K)
    requires DistinctKeys(d)
    ensures |Delete(d, k)| == if HasKey(d, k) then |d| - 1 else |d|
  {
    if |d| > 0 {
      DeleteSize(d[1..], k);
      if d[0].key == k {
        assert !HasKey(d[1..], k);
      } else {
        assert HasKey(d, k) == HasKey(d[1..], k);
      }
    }
  }

  /** Deleting keeps the order of the remaining entries, their distinctness and their values. */
  lemma DeleteKeeps<K(!new), V(!new)>(d: Dict<K, V>, k: K)
    requires DistinctKeys(d)
    ensures DistinctKeys(Delete(d, k))
    ensures forall k' :: k' != k ==> Lookup(Delete(d, k), k') == Lookup(d, k')
    ensures |Delete(d, k)| == if HasKey(d, k) then |d| - 1 else |d|
  {
    DeleteDistinct(d, k);
    DeleteSize(d, k);
    var r := Delete(d, k);
    forall k' | k' != k ensures Lookup(r, k') == Lookup(d, k') {
      if Lookup(r, k').Some? {
        LookupMember(r, k', Lookup(r, k').value);
        LookupMember(d, k', Lookup(r, k').value);
      } else if Lookup(d, k').Some? {
        LookupMember(r, k', Lookup(d, k').value);
        LookupMember(d, k', Lookup(d, k').value);
      }
    }
  }

  /** With distinct keys, deleting the first key drops exactly the first entry. */
  lemma DeleteFirst<K(!new), V(!new)>(d: Dict<K, V>)
    requires DistinctKeys(d) && |d| > 0
    ensures Delete(d, d[0].key) == d[1..]
  {
    DeleteAbsent(d[1..], d[0].key);
  }

  lemma {:induction false} DeleteAbsent<K(!new), V(!new)>(d: Dict<K, V>, k: K)
    requires forall i :: 0 <= i < |d| ==> d[i].key != k
    ensures Delete(d, k) == d
  {
    if |d| > 0 {
      DeleteAbsent(d[1..], k);
    }
  }

  /** `for k in ks: del d[k]`. */
  function DeleteAll<K(==,!new), V(!new)>(d: Dict<K, V>, ks: seq<K>): (r: Dict<K, V>)
    ensures forall x :: x in r <==> x in d && x.key !in ks
    decreases |ks|
  {
    if |ks| == 0 then d else DeleteAll(Delete(d, ks[0]), ks[1..])
  }

  /** Deleting keys that are all present and distinct shrinks the dictionary by their number. */
  lemma {:induction false} DeleteAllSize<K(!new), V(!new)>(d: Dict<K, V>, ks: seq<K>)
    requires DistinctKeys(d)
    requires forall i, j :: 0 <= i < j < |ks| ==> ks[i] != ks[j]
    requires forall i :: 0 <= i < |ks| ==> HasKey(d, ks[i])
    ensures DistinctKeys(DeleteAll(d, ks))
    ensures |DeleteAll(d, ks)| == |d| - |ks|
    decreases |ks|
  {
    if |ks| > 0 {
      DeleteKeeps(d, ks[0]);
      var d' := Delete(d, ks[0]);
      forall i | 0 <= i < |ks[1..]| ensures HasKey(d', ks[1..][i]) {
        assert ks[1..][i] == ks[i + 1] != ks[0];
        assert Lookup(d', ks[i + 1]) == Lookup(d, ks[i + 1]);
      }
      DeleteAllSize(d', ks[1..]);
    }
  }

  /** Deleting the first `n` keys of a dictionary with distinct keys leaves the rest in order. */
  lemma {:induction false} DeleteFirstKeys<K(!new), V(!new)>(d: Dict<K, V>, n: nat)
    requires DistinctKeys(d) && n <= |d|
    ensures DeleteAll(d, Keys(d)[..n]) == d[n..]
  {
    if n > 0 {
      DeleteFirst(d);
      assert Keys(d)[..n][1..] == Keys(d[1..])[..n - 1];
      DeleteFirstKeys(d[1..], n - 1);
      assert d[1..][n - 1..] == d[n..];
    }
  }

  /** The loop `for k in ks: del d[k]`, one key at a time. */
  method DeleteEach<K(==,!new), V(!new)>(d: Dict<K, V>, ks: seq<K>) returns (r: Dict<K, V>)
    ensures r == DeleteAll(d, ks)
  {
    r := d;
    for i := 0 to |ks|
      invariant DeleteAll(r, ks[i..]) == DeleteAll(d, ks)
    {
      assert ks[i..][1..] == ks[i + 1..];
      r := Delete(r, ks[i]);
    }
    assert ks[|ks|..] == [];
  }
}

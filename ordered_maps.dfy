/**
 * PHP arrays with string keys, as ordered lists of (key, value) entries:
 * iteration follows insertion order, assigning to an existing key keeps its
 * place, assigning to a new key appends, and `unset` removes the entry.
 */
module OrderedMaps {
  import opened Wrappers

  /** The keys in order. */
  function Keys<K, V>(m: seq<(K, V)>): (ks: seq<K>)
    ensures |ks| == |m| && forall i :: 0 <= i < |m| ==> ks[i] == m[i].0
  {
    if m == [] then [] else [m[0].0] + Keys(m[1..])
  }

  lemma {:induction false} KeysAppend<K, V>(a: seq<(K, V)>, b: seq<(K, V)>)
    ensures Keys(a + b) == Keys(a) + Keys(b)
  {
    assert |Keys(a + b)| == |Keys(a) + Keys(b)|;
    forall i | 0 <= i < |a| + |b| ensures Keys(a + b)[i] == (Keys(a) + Keys(b))[i] {
      if i < |a| {
        assert (a + b)[i] == a[i];
      } else {
        assert (a + b)[i] == b[i - |a|];
      }
    }
  }

  /** A PHP array never holds a key twice. */
  predicate UniqueKeys<K(==,!new), V>(m: seq<(K, V)>) {
    forall i, j :: 0 <= i < j < |m| ==> m[i].0 != m[j].0
  }

  /** `$m[$k] ?? null`. */
  function Lookup<K(==,!new), V>(m: seq<(K, V)>, k: K): (r: Option<V>)
    ensures r.None? <==> k !in Keys(m)
  {
    if m == [] then None else if m[0].0 == k then Some(m[0].1) else Lookup(m[1..], k)
  }

  /** Every entry with key `k` gets the value `v`. */
  function Replace<K(==,!new), V>(m: seq<(K, V)>, k: K, v: V): (r: seq<(K, V)>)
    ensures Keys(r) == Keys(m)
    ensures k in Keys(m) ==> Lookup(r, k) == Some(v)
    ensures forall k' :: k' != k ==> Lookup(r, k') == Lookup(m, k')
  {
    if m == [] then []
    else [if m[0].0 == k then (k, v) else m[0]] + Replace(m[1..], k, v)
  }

  /** `$m[$k] = $v`. */
  function Set<K(==,!new), V>(m: seq<(K, V)>, k: K, v: V): (r: seq<(K, V)>)
    ensures k in Keys(m) ==> Keys(r) == Keys(m)
    ensures k !in Keys(m) ==> r == m + [(k, v)]
    ensures Lookup(r, k) == Some(v)
    ensures forall k' :: k' != k ==> Lookup(r, k') == Lookup(m, k')
    ensures UniqueKeys(m) ==> UniqueKeys(r)
  {
    if k in Keys(m) then Replace(m, k, v)
    else
      LookupAppend(m, [(k, v)], k);
      forall k' | k' != k ensures Lookup(m + [(k, v)], k') == Lookup(m, k') {
        LookupAppend(m, [(k, v)], k');
      }
      m + [(k, v)]
  }

  lemma {:induction false} LookupAppend<K(!new), V>(a: seq<(K, V)>, b: seq<(K, V)>, k: K)
    ensures Lookup(a + b, k) == if k in Keys(a) then Lookup(a, k) else Lookup(b, k)
  {
    if a != [] {
      assert (a + b)[0] == a[0];
      assert (a + b)[1..] == a[1..] + b;
      assert Keys(a) == [a[0].0] + Keys(a[1..]);
      LookupAppend(a[1..], b, k);
    } else {
      assert a + b == b;
    }
  }

  /** The entries whose keys are not in `ks`, in their order. */
  function DropKeys<K(==,!new), V>(m: seq<(K, V)>, ks: set<K>): (r: seq<(K, V)>)
    ensures |r| <= |m|
    ensures forall x :: x in Keys(r) <==> x in Keys(m) && x !in ks
  {
    if m == [] then []
    else
      var head := if m[0].0 in ks then [] else [m[0]];
      KeysAppend(head, DropKeys(m[1..], ks));
      assert Keys(m) == [m[0].0] + Keys(m[1..]);
      head + DropKeys(m[1..], ks)
  }

  /** `unset($m[$k])`. */
  function Unset<K(==,!new), V>(m: seq<(K, V)>, k: K): (r: seq<(K, V)>)
    ensures k !in Keys(r)
  {
    DropKeys(m, {k})
  }

  lemma {:induction false} DropKeysAppend<K(!new), V>(a: seq<(K, V)>, b: seq<(K, V)>, ks: set<K>)
    ensures DropKeys(a + b, ks) == DropKeys(a, ks) + DropKeys(b, ks)
  {
    if a != [] {
      assert (a + b)[0] == a[0];
      assert (a + b)[1..] == a[1..] + b;
      DropKeysAppend(a[1..], b, ks);
    } else {
      assert a + b == b;
    }
  }

  lemma {:induction false} DropKeysTwice<K(!new), V>(m: seq<(K, V)>, a: set<K>, b: set<K>)
    ensures DropKeys(DropKeys(m, a), b) == DropKeys(m, a + b)
  {
    if m != [] {
      DropKeysTwice(m[1..], a, b);
      var head := if m[0].0 in a then [] else [m[0]];
      DropKeysAppend(head, DropKeys(m[1..], a), b);
    }
  }

  lemma {:induction false} DropKeysNone<K(!new), V>(m: seq<(K, V)>, ks: set<K>)
    requires forall i :: 0 <= i < |m| ==> m[i].0 !in ks
    ensures DropKeys(m, ks) == m
  {
    if m != [] {
      DropKeysNone(m[1..], ks);
    }
  }

  lemma {:induction false} DropKeysKeepsUnique<K(!new), V>(m: seq<(K, V)>, ks: set<K>)
    requires UniqueKeys(m)
    ensures UniqueKeys(DropKeys(m, ks))
  {
    if m != [] {
      DropKeysKeepsUnique(m[1..], ks);
      var rest := DropKeys(m[1..], ks);
      assert m[0].0 !in Keys(m[1..]);
      assert forall j :: 0 <= j < |rest| ==> rest[j].0 != m[0].0 by {
        forall j | 0 <= j < |rest| ensures rest[j].0 != m[0].0 {
          assert rest[j].0 in Keys(rest);
        }
      }
    }
  }
}

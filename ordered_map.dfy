/** JavaScript's `Map` as the demos use it: entries kept in insertion order, one entry per key.
    `set` on a present key replaces its value where it stands, on a new key appends an entry;
    `delete` removes the key's entry and is a no-op on an absent key. */
module OrderedMap {
  import opened Wrappers

  datatype Entry<K, V> = Entry(key: K, value: V)

  /** The keys in entry order. */
  function Keys<K, V>(m: seq<Entry<K, V>>): (r: seq<K>)
    ensures |r| == |m| && forall i :: 0 <= i < |m| ==> r[i] == m[i].key
  {
    seq(|m|, i requires 0 <= i < |m| => m[i].key)
  }

  /** `Array.from(map.values())`: the values in entry order. */
  function Values<K, V>(m: seq<Entry<K, V>>): (r: seq<V>)
    ensures |r| == |m| && forall i :: 0 <= i < |m| ==> r[i] == m[i].value
  {
    seq(|m|, i requires 0 <= i < |m| => m[i].value)
  }

  predicate DistinctKeys<K(==), V>(m: seq<Entry<K, V>>) {
    forall i, j :: 0 <= i < j < |m| ==> m[i].key != m[j].key
  }

  /** `map.get(k)`, with `undefined` as `None`. */
  function Get<K(==), V>(m: seq<Entry<K, V>>, k: K): (r: Option<V>)
    ensures r.None? <==> k !in Keys(m)
  {
    if m == [] then None
    else if m[0].key == k then Some(m[0].value)
    else
      assert Keys(m) == [m[0].key] + Keys(m[1..]);
      Get(m[1..], k)
  }

  /** The keys of an entry in front of a map. */
  lemma KeysCons<K, V>(e: Entry<K, V>, t: seq<Entry<K, V>>)
    ensures Keys([e] + t) == [e.key] + Keys(t)
  {
    var a, b := Keys([e] + t), [e.key] + Keys(t);
    forall i | 0 <= i < |a|
      ensures a[i] == b[i]
    {
      if i > 0 {
        assert ([e] + t)[i] == t[i - 1];
      }
    }
  }

  /** `map.set(k, v)`. */
  function Set<K(==), V>(m: seq<Entry<K, V>>, k: K, v: V): (r: seq<Entry<K, V>>)
    ensures Keys(r) == if k in Keys(m) then Keys(m) else Keys(m) + [k]
  {
    if m == [] then [Entry(k, v)]
    else
      KeysCons(m[0], m[1..]);
      assert [m[0]] + m[1..] == m;
      if m[0].key == k then
        KeysCons(Entry(k, v), m[1..]);
        [Entry(k, v)] + m[1..]
      else
        var t := Set(m[1..], k, v);
        KeysCons(m[0], t);
        [m[0]] + t
  }

  /** Every entry after `set` is an old entry or the new one. */
  lemma {:induction false} SetEntries<K, V>(m: seq<Entry<K, V>>, k: K, v: V)
    ensures forall i :: 0 <= i < |Set(m, k, v)| ==> Set(m, k, v)[i] in m || Set(m, k, v)[i] == Entry(k, v)
  {
    var r := Set(m, k, v);
    if m != [] {
      if m[0].key == k {
        assert r == [Entry(k, v)] + m[1..];
        forall i | 1 <= i < |r|
          ensures r[i] in m
        {
          assert r[i] == m[i];
        }
      } else {
        var t := Set(m[1..], k, v);
        SetEntries(m[1..], k, v);
        assert r == [m[0]] + t;
        forall i | 1 <= i < |r|
          ensures r[i] in m || r[i] == Entry(k, v)
        {
          assert r[i] == t[i - 1];
          if t[i - 1] in m[1..] {
            var j :| 0 <= j < |m[1..]| && m[1..][j] == t[i - 1];
            assert m[j + 1] == t[i - 1];
          }
        }
      }
    }
  }

  /** The keys of `s` other than `k`, in their order. */
  function Without<K(==)>(s: seq<K>, k: K): (r: seq<K>)
    ensures forall i :: 0 <= i < |r| ==> r[i] in s && r[i] != k
    ensures |r| <= |s|
  {
    if s == [] then []
    else if s[0] == k then Without(s[1..], k)
    else [s[0]] + Without(s[1..], k)
  }

  /** `map.delete(k)`. A JavaScript map holds one entry per key; this drops every entry with key
      `k`, which is the same thing on such a map. The other keys keep their order. */
  function Delete<K(==), V>(m: seq<Entry<K, V>>, k: K): (r: seq<Entry<K, V>>)
    ensures Keys(r) == Without(Keys(m), k)
    ensures k !in Keys(r)
    ensures k !in Keys(m) ==> r == m
  {
    if m == [] then []
    else
      var t := Delete(m[1..], k);
      KeysCons(m[0], m[1..]);
      assert [m[0]] + m[1..] == m;
      if m[0].key == k then t
      else
        KeysCons(m[0], t);
        [m[0]] + t
  }

  /** `delete` introduces no key. */
  lemma DeleteKeys<K, V>(m: seq<Entry<K, V>>, k: K)
    ensures forall x :: x in Keys(Delete(m, k)) ==> x in Keys(m)
  {
    var s, r := Keys(m), Keys(Delete(m, k));
    forall x | x in r
      ensures x in s
    {
      var i :| 0 <= i < |r| && r[i] == x;
    }
  }

  /** `delete` only removes entries, it never creates one. */
  lemma {:induction false} DeleteEntries<K, V>(m: seq<Entry<K, V>>, k: K)
    ensures forall i :: 0 <= i < |Delete(m, k)| ==> Delete(m, k)[i] in m
  {
    if m != [] {
      DeleteEntries(m[1..], k);
    }
  }

  lemma {:induction false} GetSet<K, V>(m: seq<Entry<K, V>>, k: K, v: V, k': K)
    ensures Get(Set(m, k, v), k') == if k' == k then Some(v) else Get(m, k')
  {
    if m != [] && m[0].key != k {
      GetSet(m[1..], k, v, k');
    }
  }

  lemma {:induction false} GetDelete<K, V>(m: seq<Entry<K, V>>, k: K, k': K)
    ensures Get(Delete(m, k), k') == if k' == k then None else Get(m, k')
  {
    if m != [] {
      GetDelete(m[1..], k, k');
    }
  }

  lemma SetDistinct<K, V>(m: seq<Entry<K, V>>, k: K, v: V)
    requires DistinctKeys(m)
    ensures DistinctKeys(Set(m, k, v))
  {
    var r := Set(m, k, v);
    assert forall i :: 0 <= i < |r| ==> r[i].key == Keys(r)[i];
  }

  lemma {:induction false} DeleteDistinct<K, V>(m: seq<Entry<K, V>>, k: K)
    requires DistinctKeys(m)
    ensures DistinctKeys(Delete(m, k))
    ensures forall x :: x in Keys(Delete(m, k)) ==> x in Keys(m)
  {
    DeleteKeys(m, k);
    DistinctKeysNoDups(m);
    WithoutNoDups(Keys(m), k);
    DistinctKeysNoDups(Delete(m, k));
  }

  /** A sequence that repeats no element. */
  predicate NoDups<K(==)>(s: seq<K>) {
    forall i, j :: 0 <= i < j < |s| ==> s[i] != s[j]
  }

  lemma DistinctKeysNoDups<K, V>(m: seq<Entry<K, V>>)
    ensures DistinctKeys(m) <==> NoDups(Keys(m))
  {
  }

  lemma {:induction false} WithoutNoDups<K>(s: seq<K>, k: K)
    requires NoDups(s)
    ensures NoDups(Without(s, k))
  {
    if s != [] {
      var rest := s[1..];
      assert NoDups(rest) by {
        forall i, j | 0 <= i < j < |rest|
          ensures rest[i] != rest[j]
        {
          assert rest[i] == s[i + 1] && rest[j] == s[j + 1];
        }
      }
      WithoutNoDups(rest, k);
      if s[0] != k {
        var t := Without(rest, k);
        var r := [s[0]] + t;
        assert s[0] !in rest by {
          forall j | 0 <= j < |rest|
            ensures rest[j] != s[0]
          {
            assert rest[j] == s[j + 1];
          }
        }
        forall i, j | 0 <= i < j < |r|
          ensures r[i] != r[j]
        {
          if i == 0 {
            assert r[j] == t[j - 1] && t[j - 1] in rest;
          } else {
            assert r[i] == t[i - 1] && r[j] == t[j - 1];
          }
        }
      }
    }
  }
}

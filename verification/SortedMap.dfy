/** `BTreeMap<String, V>` as the sequence of its entries in iteration order. */
module SortedMap {
  import opened Wrappers
  import opened ByteOrder

  datatype Entry<+V> = Entry(key: string, value: V)

  ghost predicate Sorted<V>(m: seq<Entry<V>>) {
    forall i, j | 0 <= i < j < |m| :: Less(m[i].key, m[j].key)
  }

  function Get<V>(m: seq<Entry<V>>, k: string): Option<V> {
    if m == [] then None
    else if m[0].key == k then Some(m[0].value)
    else Get(m[1..], k)
  }

  /** `BTreeMap::insert`: replace the value of a present key, or insert at the key's place. */
  function Put<V>(m: seq<Entry<V>>, k: string, v: V): seq<Entry<V>> {
    if m == [] then [Entry(k, v)]
    else if k == m[0].key then [Entry(k, v)] + m[1..]
    else if Less(k, m[0].key) then [Entry(k, v)] + m
    else [m[0]] + Put(m[1..], k, v)
  }

  lemma {:induction false} GetFindsEntry<V>(m: seq<Entry<V>>, i: nat)
    requires i < |m|
    requires forall j | 0 <= j < i :: m[j].key != m[i].key
    ensures Get(m, m[i].key) == Some(m[i].value)
  {
    if i > 0 {
      assert m[0].key != m[i].key;
      assert m[1..][i - 1] == m[i];
      forall j | 0 <= j < i - 1 ensures m[1..][j].key != m[1..][i - 1].key {
        assert m[1..][j] == m[j + 1];
      }
      GetFindsEntry(m[1..], i - 1);
    }
  }

  lemma {:induction false} GetIsMember<V>(m: seq<Entry<V>>, k: string)
    ensures Get(m, k).Some? <==> exists i :: 0 <= i < |m| && m[i].key == k
    ensures Get(m, k).Some? ==> Entry(k, Get(m, k).value) in m
  {
    if m != [] && m[0].key != k {
      GetIsMember(m[1..], k);
      if i :| 0 <= i < |m| && m[i].key == k {
        assert m[1..][i - 1] == m[i];
      }
      if i :| 0 <= i < |m[1..]| && m[1..][i].key == k {
        assert m[i + 1].key == k;
      }
    }
  }

  lemma {:induction false} PutKeepsSorted<V>(m: seq<Entry<V>>, k: string, v: V)
    requires Sorted(m)
    ensures Sorted(Put(m, k, v))
    ensures forall e | e in Put(m, k, v) :: e == Entry(k, v) || e in m
  {
    if m != [] {
      LessTotal(k, m[0].key);
      assert Sorted(m[1..]);
      if Less(m[0].key, k) {
        PutKeepsSorted(m[1..], k, v);
        assert forall e | e in m[1..] :: Less(m[0].key, e.key);
      } else if Less(k, m[0].key) {
        forall i | 0 <= i < |m| ensures Less(k, m[i].key) {
          if i > 0 {
            LessTransitive(k, m[0].key, m[i].key);
          }
        }
      }
    }
  }

  lemma {:induction false} GetAfterPut<V>(m: seq<Entry<V>>, k: string, v: V, q: string)
    ensures Get(Put(m, k, v), q) == if q == k then Some(v) else Get(m, q)
  {
    if m != [] && k != m[0].key {
      GetAfterPut(m[1..], k, v, q);
      assert ([m[0]] + Put(m[1..], k, v))[1..] == Put(m[1..], k, v);
      assert ([Entry(k, v)] + m)[1..] == m;
    }
  }

  lemma {:induction false} FirstIsLeast<V>(m: seq<Entry<V>>, n: seq<Entry<V>>)
    requires Sorted(m) && Sorted(n)
    requires m != [] && Get(m, m[0].key).Some? && Get(n, m[0].key).Some?
    ensures n != [] && !Less(m[0].key, n[0].key)
  {
    GetIsMember(n, m[0].key);
    var i :| 0 <= i < |n| && n[i].key == m[0].key;
    LessTotal(m[0].key, n[0].key);
  }

  /** A sorted map is determined by what its lookups return. */
  lemma {:induction false} SortedExtensional<V>(m: seq<Entry<V>>, n: seq<Entry<V>>)
    requires Sorted(m) && Sorted(n)
    requires forall k :: Get(m, k) == Get(n, k)
    ensures m == n
  {
    if m == [] {
      assert n == [] || Get(m, n[0].key) == Get(n, n[0].key);
    } else {
      assert Get(m, m[0].key) == Get(n, m[0].key);
      FirstIsLeast(m, n);
      assert Get(m, n[0].key) == Get(n, n[0].key);
      FirstIsLeast(n, m);
      LessTotal(m[0].key, n[0].key);
      forall k ensures Get(m[1..], k) == Get(n[1..], k) {
        if k == m[0].key {
          GetIsMember(m[1..], k);
          GetIsMember(n[1..], k);
          LessTotal(k, k);
        } else {
          assert Get(m, k) == Get(n, k);
        }
      }
      SortedExtensional(m[1..], n[1..]);
      assert m == [m[0]] + m[1..] && n == [n[0]] + n[1..];
    }
  }

  lemma {:induction false} PutLength<V>(m: seq<Entry<V>>, k: string, v: V)
    requires Sorted(m)
    ensures |Put(m, k, v)| == |m| + if Get(m, k).Some? then 0 else 1
  {
    if m != [] && k != m[0].key {
      if Less(k, m[0].key) {
        if Get(m, k).Some? {
          GetIsMember(m, k);
          var i :| 0 <= i < |m| && m[i].key == k;
          LessTotal(k, m[0].key);
          assert false;
        }
      } else {
        PutLength(m[1..], k, v);
      }
    }
  }

  /** Which entries are there after an insertion. */
  lemma {:induction false} PutMembers<V>(m: seq<Entry<V>>, k: string, v: V)
    ensures Entry(k, v) in Put(m, k, v)
    ensures forall e | e in m && e.key != k :: e in Put(m, k, v)
  {
    if m != [] && k != m[0].key && !Less(k, m[0].key) {
      PutMembers(m[1..], k, v);
      assert m == [m[0]] + m[1..];
    } else if m != [] {
      assert m == [m[0]] + m[1..];
    }
  }

  lemma EntryIsGot<V>(m: seq<Entry<V>>, e: Entry<V>)
    requires Sorted(m) && e in m
    ensures Get(m, e.key) == Some(e.value)
  {
    var i :| 0 <= i < |m| && m[i] == e;
    forall j | 0 <= j < i ensures m[j].key != e.key {
      LessTotal(m[j].key, e.key);
    }
    GetFindsEntry(m, i);
  }
}

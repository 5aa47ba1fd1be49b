/** Mapping, adding up and stable sorting: what the collectors of the source do to vectors. */
module Lists {
  import opened ByteOrder
  import opened SortedMap

  function Map<T, U>(f: T -> U, s: seq<T>): seq<U> {
    if s == [] then [] else [f(s[0])] + Map(f, s[1..])
  }

  function Sum<T>(s: seq<T>, f: T -> nat): nat {
    if s == [] then 0 else f(s[0]) + Sum(s[1..], f)
  }

  lemma {:induction false} MapAt<T, U>(f: T -> U, s: seq<T>)
    ensures |Map(f, s)| == |s|
    ensures forall i | 0 <= i < |s| :: Map(f, s)[i] == f(s[i])
  {
    if s != [] {
      MapAt(f, s[1..]);
    }
  }

  lemma {:induction false} SumAppend<T>(s: seq<T>, x: T, f: T -> nat)
    ensures Sum(s + [x], f) == Sum(s, f) + f(x)
  {
    if s == [] {
      assert [] + [x] == [x] && [x][1..] == [];
    } else {
      SumAppend(s[1..], x, f);
      assert (s + [x])[1..] == s[1..] + [x];
    }
  }

  lemma {:induction false} SumPrefix<T>(s: seq<T>, t: seq<T>, f: T -> nat)
    requires s <= t
    ensures Sum(s, f) <= Sum(t, f)
  {
    if s != [] {
      SumPrefix(s[1..], t[1..], f);
    }
  }

  lemma {:induction false} SumMap<T, U>(f: T -> U, g: U -> nat, h: T -> nat, s: seq<T>)
    requires forall i | 0 <= i < |s| :: h(s[i]) == g(f(s[i]))
    ensures Sum(Map(f, s), g) == Sum(s, h)
  {
    if s != [] {
      forall i | 0 <= i < |s[1..]| ensures h(s[1..][i]) == g(f(s[1..][i])) {
        assert s[1..][i] == s[i + 1];
      }
      SumMap(f, g, h, s[1..]);
    }
  }

  /** Inserting into a sorted map adds what the new entry weighs and removes what the old one weighed. */
  lemma {:induction false} SumPut<V>(m: seq<Entry<V>>, k: string, v: V, f: Entry<V> -> nat)
    requires Sorted(m)
    ensures Sum(Put(m, k, v), f) + (if Get(m, k).Some? then f(Entry(k, Get(m, k).value)) else 0)
            == Sum(m, f) + f(Entry(k, v))
  {
    if m == [] {
      assert [Entry(k, v)][1..] == [];
    } else if k == m[0].key {
      assert ([Entry(k, v)] + m[1..])[1..] == m[1..];
    } else if Less(k, m[0].key) {
      assert ([Entry(k, v)] + m)[1..] == m;
      LessTotal(k, k);
      BelowIsAbsent(m, k);
    } else {
      SumPut(m[1..], k, v, f);
      assert ([m[0]] + Put(m[1..], k, v))[1..] == Put(m[1..], k, v);
    }
  }

  lemma BelowIsAbsent<V>(m: seq<Entry<V>>, k: string)
    requires Sorted(m) && m != [] && Less(k, m[0].key)
    ensures Get(m, k).None?
  {
    GetIsMember(m, k);
    if i :| 0 <= i < |m| && m[i].key == k {
      LessTotal(k, m[0].key);
      LessTotal(k, k);
    }
  }

  // ----- stable sorting -----

  function InsertBefore<T>(x: T, s: seq<T>, before: (T, T) -> bool): seq<T> {
    if s == [] || !before(s[0], x) then [x] + s else [s[0]] + InsertBefore(x, s[1..], before)
  }

  /** `sort_by`: elements that compare equal keep their order. */
  function StableSort<T>(s: seq<T>, before: (T, T) -> bool): seq<T> {
    if s == [] then [] else InsertBefore(s[0], StableSort(s[1..], before), before)
  }

  /** `before` compares keys. */
  ghost predicate WeakOrder<T(!new)>(before: (T, T) -> bool) {
    && (forall x, y :: before(x, y) ==> !before(y, x))
    && (forall x, y, z :: before(x, z) ==> before(x, y) || before(y, z))
  }

  ghost predicate Ascending<T>(s: seq<T>, before: (T, T) -> bool) {
    forall i, j | 0 <= i < j < |s| :: !before(s[j], s[i])
  }

  /** The element, if its key is that of `p`. */
  function Peer<T>(x: T, p: T, before: (T, T) -> bool): seq<T> {
    if before(x, p) || before(p, x) then [] else [x]
  }

  /** The elements whose key is that of `p`, in order. */
  function Peers<T>(s: seq<T>, p: T, before: (T, T) -> bool): seq<T> {
    if s == [] then [] else Peer(s[0], p, before) + Peers(s[1..], p, before)
  }

  lemma {:induction false} InsertPermutes<T>(x: T, s: seq<T>, before: (T, T) -> bool)
    ensures multiset(InsertBefore(x, s, before)) == multiset(s) + multiset{x}
  {
    if s != [] && before(s[0], x) {
      InsertPermutes(x, s[1..], before);
      assert s == [s[0]] + s[1..];
    }
  }

  lemma {:induction false} InsertSorts<T(!new)>(x: T, s: seq<T>, before: (T, T) -> bool)
    requires WeakOrder(before) && Ascending(s, before)
    ensures Ascending(InsertBefore(x, s, before), before)
  {
    if s != [] && before(s[0], x) {
      InsertSorts(x, s[1..], before);
      InsertPermutes(x, s[1..], before);
      var t := InsertBefore(x, s[1..], before);
      assert s == [s[0]] + s[1..];
      forall j | 0 <= j < |t| ensures !before(t[j], s[0]) {
        assert t[j] in multiset(t);
      }
    } else if s != [] {
      forall j | 0 <= j < |s| ensures !before(s[j], x) {
        assert !before(s[0], x) && (j > 0 ==> !before(s[j], s[0]));
      }
    }
  }

  lemma PeersCons<T>(x: T, s: seq<T>, p: T, before: (T, T) -> bool)
    ensures Peers([x] + s, p, before) == Peer(x, p, before) + Peers(s, p, before)
  {
    assert ([x] + s)[1..] == s;
  }

  lemma {:induction false} InsertKeepsPeers<T(!new)>(x: T, s: seq<T>, before: (T, T) -> bool, p: T)
    requires WeakOrder(before)
    ensures Peers(InsertBefore(x, s, before), p, before) == Peers([x] + s, p, before)
  {
    if s != [] && before(s[0], x) {
      var first, rest := s[0], s[1..];
      InsertKeepsPeers(x, rest, before, p);
      assert s == [first] + rest;
      PeersCons(first, InsertBefore(x, rest, before), p, before);
      PeersCons(x, s, p, before);
      PeersCons(x, rest, p, before);
      PeersCons(first, rest, p, before);
      hide Peers, InsertBefore;
      assert Peer(first, p, before) == [] || Peer(x, p, before) == [];
    }
  }

  /** Sorting arranges by key, keeps every element, and keeps elements with equal keys in order. */
  lemma {:induction false} SortIsStable<T(!new)>(s: seq<T>, before: (T, T) -> bool, p: T)
    requires WeakOrder(before)
    ensures Ascending(StableSort(s, before), before)
    ensures multiset(StableSort(s, before)) == multiset(s)
    ensures Peers(StableSort(s, before), p, before) == Peers(s, p, before)
  {
    if s != [] {
      var t := StableSort(s[1..], before);
      SortIsStable(s[1..], before, p);
      InsertSorts(s[0], t, before);
      InsertPermutes(s[0], t, before);
      InsertKeepsPeers(s[0], t, before, p);
      assert s == [s[0]] + s[1..] && ([s[0]] + t)[1..] == t;
    }
  }

  lemma {:induction false} SumInsert<T>(x: T, s: seq<T>, before: (T, T) -> bool, f: T -> nat)
    ensures Sum(InsertBefore(x, s, before), f) == f(x) + Sum(s, f)
    ensures |InsertBefore(x, s, before)| == |s| + 1
  {
    if s != [] && before(s[0], x) {
      SumInsert(x, s[1..], before, f);
      var t := InsertBefore(x, s[1..], before);
      assert ([s[0]] + t)[1..] == t;
    } else {
      assert ([x] + s)[1..] == s;
    }
  }

  lemma {:induction false} SumSort<T>(s: seq<T>, before: (T, T) -> bool, f: T -> nat)
    ensures Sum(StableSort(s, before), f) == Sum(s, f)
    ensures |StableSort(s, before)| == |s|
  {
    if s != [] {
      SumSort(s[1..], before, f);
      SumInsert(s[0], StableSort(s[1..], before), before, f);
    }
  }

  lemma {:induction false} SortMembers<T>(s: seq<T>, before: (T, T) -> bool, x: T)
    ensures x in StableSort(s, before) <==> x in s
  {
    if s != [] {
      SortMembers(s[1..], before, x);
      InsertMembers(s[0], StableSort(s[1..], before), before, x);
    }
  }

  lemma {:induction false} InsertMembers<T>(x: T, s: seq<T>, before: (T, T) -> bool, y: T)
    ensures y in InsertBefore(x, s, before) <==> y == x || y in s
  {
    if s != [] && before(s[0], x) {
      InsertMembers(x, s[1..], before, y);
    }
  }
}

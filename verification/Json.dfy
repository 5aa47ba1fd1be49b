/** `serde_json::Value`, its compact printing, and the canonical form of protocol.rs. */
module Json {
  import opened Wrappers
  import opened ByteOrder
  import opened SortedMap

  /** An object keeps its members in the order they were inserted; numbers are the unsigned integers
      the protocol uses. */
  datatype Json =
    | Null
    | Bool(b: bool)
    | Num(n: nat)
    | Str(s: string)
    | Arr(items: seq<Json>)
    | Obj(members: seq<Entry<Json>>)

  function TextOrNull(s: Option<string>): Json {
    match s case None => Null case Some(t) => Str(t)
  }

  ghost predicate DistinctKeys(ms: seq<Entry<Json>>) {
    forall i, j | 0 <= i < j < |ms| :: ms[i].key != ms[j].key
  }

  /** No object, at any depth, has a key twice: what every parsed or built value satisfies. */
  ghost predicate WellFormed(j: Json) {
    match j
    case Arr(items) => forall x | x in items :: WellFormed(x)
    case Obj(ms) => DistinctKeys(ms) && forall m | m in ms :: WellFormed(m.value)
    case _ => true
  }

  // ----- canonical form -----

  function Canonicalize(j: Json): Json
    decreases j, 1
  {
    match j
    case Arr(items) => Arr(CanonicalItems(items))
    case Obj(ms) => Obj(CanonicalMembers(ms))
    case _ => j
  }

  function CanonicalItems(items: seq<Json>): seq<Json>
    decreases items, 0
  {
    if items == [] then [] else [Canonicalize(items[0])] + CanonicalItems(items[1..])
  }

  function CanonicalMembers(ms: seq<Entry<Json>>): seq<Entry<Json>>
    decreases ms, 0
  {
    if ms == [] then []
    else
      assert ms[0].value < ms[0];
      Put(CanonicalMembers(ms[1..]), ms[0].key, Canonicalize(ms[0].value))
  }

  /** The recursive routine of the source, which fills a fresh map member by member. */
  method CanonicalizeValue(j: Json) returns (r: Json)
    ensures r == Canonicalize(j)
    decreases j
  {
    match j {
      case Arr(items) =>
        var out := [];
        for i := |items| downto 0
          invariant out == CanonicalItems(items[i..])
        {
          var x := CanonicalizeValue(items[i]);
          assert items[i..][1..] == items[i + 1..];
          out := [x] + out;
        }
        assert items[0..] == items;
        return Arr(out);
      case Obj(ms) =>
        var out := [];
        for i := |ms| downto 0
          invariant out == CanonicalMembers(ms[i..])
        {
          assert ms[i].value < ms[i];
          var x := CanonicalizeValue(ms[i].value);
          assert ms[i..][1..] == ms[i + 1..];
          out := Put(out, ms[i].key, x);
        }
        assert ms[0..] == ms;
        return Obj(out);
      case _ =>
        return j;
    }
  }

  /** Equal up to the order of object members, at every depth. */
  ghost predicate Same(a: Json, b: Json) {
    match (a, b)
    case (Arr(xs), Arr(ys)) => |xs| == |ys| && forall i | 0 <= i < |xs| :: Same(xs[i], ys[i])
    case (Obj(ms), Obj(ns)) => |ms| == |ns| && forall i | 0 <= i < |ms| :: SameMember(ms[i], ns)
    case _ => a == b
  }

  ghost predicate SameMember(m: Entry<Json>, ns: seq<Entry<Json>>) {
    exists k :: 0 <= k < |ns| && ns[k].key == m.key && Same(m.value, ns[k].value)
  }

  lemma {:induction false} CanonicalItemsAre(items: seq<Json>)
    ensures |CanonicalItems(items)| == |items|
    ensures forall i | 0 <= i < |items| :: CanonicalItems(items)[i] == Canonicalize(items[i])
  {
    if items != [] {
      CanonicalItemsAre(items[1..]);
    }
  }

  /** Every member survives with its canonical value; no member is added. */
  lemma {:induction false} CanonicalMembersAre(ms: seq<Entry<Json>>, k: string)
    ensures Sorted(CanonicalMembers(ms))
    ensures Get(CanonicalMembers(ms), k) ==
            match Get(ms, k) case Some(v) => Some(Canonicalize(v)) case None => None
  {
    if ms != [] {
      CanonicalMembersAre(ms[1..], k);
      assert ms[0].value < ms[0];
      PutKeepsSorted(CanonicalMembers(ms[1..]), ms[0].key, Canonicalize(ms[0].value));
      GetAfterPut(CanonicalMembers(ms[1..]), ms[0].key, Canonicalize(ms[0].value), k);
    }
  }

  function Keys(ms: seq<Entry<Json>>): set<string> {
    set m | m in ms :: m.key
  }

  lemma {:induction false} DistinctKeysCount(ms: seq<Entry<Json>>)
    requires DistinctKeys(ms)
    ensures |Keys(ms)| == |ms|
    ensures |CanonicalMembers(ms)| == |ms|
  {
    if ms != [] {
      DistinctKeysCount(ms[1..]);
      assert Keys(ms) == {ms[0].key} + Keys(ms[1..]);
      CanonicalMembersAre(ms[1..], ms[0].key);
      GetIsMember(ms[1..], ms[0].key);
      assert ms[0].value < ms[0];
      PutLength(CanonicalMembers(ms[1..]), ms[0].key, Canonicalize(ms[0].value));
    }
  }

  /** The value stored under a key of a well-formed object. */
  lemma MemberLookup(ms: seq<Entry<Json>>, i: nat)
    requires DistinctKeys(ms) && i < |ms|
    ensures Get(ms, ms[i].key) == Some(ms[i].value)
  {
    GetFindsEntry(ms, i);
  }

  lemma SameKeys(ms: seq<Entry<Json>>, ns: seq<Entry<Json>>)
    requires DistinctKeys(ms) && DistinctKeys(ns)
    requires Same(Obj(ms), Obj(ns))
    ensures Keys(ms) == Keys(ns)
  {
    DistinctKeysCount(ms);
    DistinctKeysCount(ns);
    forall k | k in Keys(ms) ensures k in Keys(ns) {
      var i :| 0 <= i < |ms| && ms[i].key == k;
      assert SameMember(ms[i], ns);
    }
    SubsetOfEqualSize(Keys(ms), Keys(ns));
  }

  lemma SubsetOfEqualSize<T>(a: set<T>, b: set<T>)
    requires a <= b && |a| == |b|
    ensures a == b
  {
    assert |b - a| == |b| - |a|;
  }

  lemma {:induction false} SameImpliesEqualCanonical(a: Json, b: Json)
    requires WellFormed(a) && WellFormed(b) && Same(a, b)
    ensures Canonicalize(a) == Canonicalize(b)
    decreases a
  {
    match a {
      case Arr(xs) =>
        CanonicalItemsAre(xs);
        CanonicalItemsAre(b.items);
        forall i | 0 <= i < |xs| ensures Canonicalize(xs[i]) == Canonicalize(b.items[i]) {
          SameImpliesEqualCanonical(xs[i], b.items[i]);
        }
      case Obj(ms) =>
        var ns := b.members;
        SameKeys(ms, ns);
        CanonicalMembersAre(ms, "");
        CanonicalMembersAre(ns, "");
        forall k ensures Get(CanonicalMembers(ms), k) == Get(CanonicalMembers(ns), k) {
          CanonicalMembersAre(ms, k);
          CanonicalMembersAre(ns, k);
          GetIsMember(ms, k);
          GetIsMember(ns, k);
          if k in Keys(ms) {
            var i :| 0 <= i < |ms| && ms[i].key == k;
            MemberLookup(ms, i);
            assert SameMember(ms[i], ns);
            var n :| 0 <= n < |ns| && ns[n].key == k && Same(ms[i].value, ns[n].value);
            MemberLookup(ns, n);
            assert ms[i].value < ms[i];
            SameImpliesEqualCanonical(ms[i].value, ns[n].value);
          } else {
            assert forall i | 0 <= i < |ms| :: ms[i].key in Keys(ms);
            assert forall i | 0 <= i < |ns| :: ns[i].key in Keys(ns);
          }
        }
        SortedExtensional(CanonicalMembers(ms), CanonicalMembers(ns));
      case _ =>
    }
  }

  lemma {:induction false} EqualCanonicalImpliesSame(a: Json, b: Json)
    requires WellFormed(a) && WellFormed(b) && Canonicalize(a) == Canonicalize(b)
    ensures Same(a, b)
    decreases a
  {
    match a {
      case Arr(xs) =>
        CanonicalItemsAre(xs);
        CanonicalItemsAre(b.items);
        forall i | 0 <= i < |xs| ensures Same(xs[i], b.items[i]) {
          EqualCanonicalImpliesSame(xs[i], b.items[i]);
        }
      case Obj(ms) =>
        var ns := b.members;
        DistinctKeysCount(ms);
        DistinctKeysCount(ns);
        forall i | 0 <= i < |ms| ensures SameMember(ms[i], ns) {
          var k := ms[i].key;
          MemberLookup(ms, i);
          CanonicalMembersAre(ms, k);
          CanonicalMembersAre(ns, k);
          GetIsMember(ns, k);
          var n :| 0 <= n < |ns| && ns[n] == Entry(k, Get(ns, k).value);
          assert ms[i].value < ms[i];
          EqualCanonicalImpliesSame(ms[i].value, ns[n].value);
        }
      case _ =>
    }
  }

  /** Canonical JSON depends on meaning only: it is equal exactly for values that agree up to the order
      of object members. */
  lemma CanonicalDependsOnMeaning(a: Json, b: Json)
    requires WellFormed(a) && WellFormed(b)
    ensures Canonicalize(a) == Canonicalize(b) <==> Same(a, b)
  {
    if Same(a, b) {
      SameImpliesEqualCanonical(a, b);
    } else if Canonicalize(a) == Canonicalize(b) {
      EqualCanonicalImpliesSame(a, b);
    }
  }

  /** Keys strictly increase in byte order in every object, at every depth. */
  ghost predicate Canonical(j: Json) {
    match j
    case Arr(items) => forall x | x in items :: Canonical(x)
    case Obj(ms) => Sorted(ms) && forall m | m in ms :: Canonical(m.value)
    case _ => true
  }

  lemma {:induction false} CanonicalizeIsCanonical(j: Json)
    ensures Canonical(Canonicalize(j))
    decreases j
  {
    match j {
      case Arr(items) =>
        CanonicalItemsAre(items);
        forall x | x in CanonicalItems(items) ensures Canonical(x) {
          var i :| 0 <= i < |items| && CanonicalItems(items)[i] == x;
          CanonicalizeIsCanonical(items[i]);
        }
      case Obj(ms) =>
        CanonicalMembersAre(ms, "");
        var out := CanonicalMembers(ms);
        forall m | m in out ensures Canonical(m.value) {
          var i :| 0 <= i < |out| && out[i] == m;
          forall k | 0 <= k < i ensures out[k].key != out[i].key {
            LessTotal(out[k].key, out[i].key);
          }
          GetFindsEntry(out, i);
          CanonicalMembersAre(ms, m.key);
          GetIsMember(ms, m.key);
          var e := Entry(m.key, Get(ms, m.key).value);
          assert e in ms && e.value < e;
          CanonicalizeIsCanonical(e.value);
        }
      case _ =>
    }
  }

  lemma {:induction false} CanonicalIsFixed(j: Json)
    requires Canonical(j)
    ensures Canonicalize(j) == j
    decreases j
  {
    match j {
      case Arr(items) =>
        CanonicalItemsAre(items);
        forall i | 0 <= i < |items| ensures Canonicalize(items[i]) == items[i] {
          CanonicalIsFixed(items[i]);
        }
      case Obj(ms) =>
        CanonicalMembersAre(ms, "");
        forall k ensures Get(CanonicalMembers(ms), k) == Get(ms, k) {
          CanonicalMembersAre(ms, k);
          GetIsMember(ms, k);
          if Get(ms, k).Some? {
            var e := Entry(k, Get(ms, k).value);
            assert e in ms && e.value < e;
            CanonicalIsFixed(e.value);
          }
        }
        SortedExtensional(CanonicalMembers(ms), ms);
      case _ =>
    }
  }

  /** The canonical values are exactly the fixed points, so canonicalization is idempotent. */
  lemma CanonicalizeIdempotent(j: Json)
    ensures Canonicalize(j) == j <==> Canonical(j)
    ensures Canonicalize(Canonicalize(j)) == Canonicalize(j)
  {
    CanonicalizeIsCanonical(j);
    CanonicalIsFixed(Canonicalize(j));
    if Canonical(j) {
      CanonicalIsFixed(j);
    }
  }
}

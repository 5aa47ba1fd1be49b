/** Compact JSON text as `serde_json` writes it, and its length in bytes. */
module JsonText {
  import opened ByteOrder
  import opened SortedMap
  import opened Json
  import HandleId

  /** RFC 8259 section 7: the two-character escapes, `\u00xx` for the other control bytes, and every
      other byte as it is. */
  function EscapeByte(c: char): string {
    if c == '"' then "\\\""
    else if c == '\\' then "\\\\"
    else if c == 8 as char then "\\b"
    else if c == '\t' then "\\t"
    else if c == '\n' then "\\n"
    else if c == 12 as char then "\\f"
    else if c == '\r' then "\\r"
    else if c < ' ' then "\\u00" + HandleId.Hex(c as int, 2)
    else [c]
  }

  function Escape(s: string): string {
    Joined(seq(|s|, i requires 0 <= i < |s| => EscapeByte(s[i])))
  }

  function Joined(parts: seq<string>): string {
    if parts == [] then "" else parts[0] + Joined(parts[1..])
  }

  function Quote(s: string): string {
    "\"" + Escape(s) + "\""
  }

  function Decimal(n: nat): string {
    (if n < 10 then "" else Decimal(n / 10)) + [('0' as int + n % 10) as char]
  }

  function Print(j: Json): string
    decreases j, 1
  {
    match j
    case Null => "null"
    case Bool(b) => if b then "true" else "false"
    case Num(n) => Decimal(n)
    case Str(s) => Quote(s)
    case Arr(items) => "[" + PrintItems(items) + "]"
    case Obj(ms) => "{" + PrintMembers(ms) + "}"
  }

  function PrintItems(items: seq<Json>): string
    decreases items, 0
  {
    if items == [] then ""
    else Print(items[0]) + (if |items| == 1 then "" else "," + PrintItems(items[1..]))
  }

  function PrintMembers(ms: seq<Entry<Json>>): string
    decreases ms, 0
  {
    if ms == [] then ""
    else
      assert ms[0].value < ms[0];
      Quote(ms[0].key) + ":" + Print(ms[0].value) + (if |ms| == 1 then "" else "," + PrintMembers(ms[1..]))
  }

  // ----- lengths -----

  function CanonicalLength(j: Json): nat {
    |Print(Canonicalize(j))|
  }

  function MemberLength(m: Entry<Json>): nat {
    |Quote(m.key)| + 1 + |Print(m.value)|
  }

  function MemberTotal(ms: seq<Entry<Json>>): nat {
    if ms == [] then 0 else MemberLength(ms[0]) + MemberTotal(ms[1..])
  }

  function ItemTotal(items: seq<Json>): nat {
    if items == [] then 0 else |Print(items[0])| + ItemTotal(items[1..])
  }

  function Commas(n: nat): nat {
    if n == 0 then 0 else n - 1
  }

  lemma {:induction false} MembersLength(ms: seq<Entry<Json>>)
    ensures |PrintMembers(ms)| == MemberTotal(ms) + Commas(|ms|)
  {
    if ms != [] {
      MembersLength(ms[1..]);
    }
  }

  lemma {:induction false} ItemsLength(items: seq<Json>)
    ensures |PrintItems(items)| == ItemTotal(items) + Commas(|items|)
  {
    if items != [] {
      ItemsLength(items[1..]);
    }
  }

  lemma {:induction false} ItemTotalConcat(a: seq<Json>, b: seq<Json>)
    ensures ItemTotal(a + b) == ItemTotal(a) + ItemTotal(b)
  {
    if a == [] {
      assert a + b == b;
    } else {
      ItemTotalConcat(a[1..], b);
      assert (a + b)[1..] == a[1..] + b;
    }
  }

  lemma {:induction false} PutAddsLength(ms: seq<Entry<Json>>, k: string, v: Json)
    requires Sorted(ms) && Get(ms, k).None?
    ensures MemberTotal(Put(ms, k, v)) == MemberTotal(ms) + MemberLength(Entry(k, v))
  {
    if ms != [] && !Less(k, ms[0].key) {
      PutAddsLength(ms[1..], k, v);
      assert ([ms[0]] + Put(ms[1..], k, v))[1..] == Put(ms[1..], k, v);
    } else if ms != [] {
      assert ([Entry(k, v)] + ms)[1..] == ms;
    }
  }

  lemma {:induction false} CanonicalMembersLength(ms: seq<Entry<Json>>)
    requires DistinctKeys(ms) && forall m | m in ms :: WellFormed(m.value)
    ensures MemberTotal(CanonicalMembers(ms)) == MemberTotal(ms)
    decreases ms, 0
  {
    if ms != [] {
      assert ms[0].value < ms[0];
      LengthKeptByCanonical(ms[0].value);
      CanonicalMembersLength(ms[1..]);
      CanonicalMembersAre(ms[1..], ms[0].key);
      GetIsMember(ms[1..], ms[0].key);
      PutAddsLength(CanonicalMembers(ms[1..]), ms[0].key, Canonicalize(ms[0].value));
    }
  }

  lemma {:induction false} CanonicalItemsLength(items: seq<Json>)
    requires forall x | x in items :: WellFormed(x)
    ensures ItemTotal(CanonicalItems(items)) == ItemTotal(items)
    decreases items, 0
  {
    if items != [] {
      LengthKeptByCanonical(items[0]);
      CanonicalItemsLength(items[1..]);
    }
  }

  /** Sorting the keys of every object does not change how long the text is, so a byte budget on the
      canonical form is a budget on the value. */
  lemma {:induction false} LengthKeptByCanonical(j: Json)
    requires WellFormed(j)
    ensures CanonicalLength(j) == |Print(j)|
    decreases j, 1
  {
    match j {
      case Arr(items) =>
        CanonicalItemsAre(items);
        CanonicalItemsLength(items);
        ItemsLength(items);
        ItemsLength(CanonicalItems(items));
      case Obj(ms) =>
        DistinctKeysCount(ms);
        CanonicalMembersLength(ms);
        MembersLength(ms);
        MembersLength(CanonicalMembers(ms));
      case _ =>
    }
  }

  lemma EscapeStep(s: string)
    requires s != ""
    ensures Escape(s) == EscapeByte(s[0]) + Escape(s[1..])
  {
    var parts := seq(|s|, i requires 0 <= i < |s| => EscapeByte(s[i]));
    assert parts[1..] == seq(|s[1..]|, i requires 0 <= i < |s[1..]| => EscapeByte(s[1..][i]));
  }

  lemma EscapesDiffer(c: char, d: char, x: string, y: string)
    requires EscapeByte(c) + x == EscapeByte(d) + y
    ensures c == d && x == y
  {
    var a, b := EscapeByte(c), EscapeByte(d);
    assert (a + x)[0] == a[0] && (b + y)[0] == b[0];
    assert |a| > 1 ==> (a + x)[1] == a[1];
    assert |b| > 1 ==> (b + y)[1] == b[1];
    if |a| == 6 && |b| == 6 {
      assert (a + x)[4] == a[4] && (a + x)[5] == a[5] && (b + y)[4] == b[4] && (b + y)[5] == b[5];
      HexPairsDiffer(c as nat, d as nat);
    }
    assert (a + x)[|a|..] == x && (b + y)[|b|..] == y;
  }

  lemma HexPairsDiffer(m: nat, n: nat)
    requires m < 32 && n < 32 && HandleId.Hex(m, 2) == HandleId.Hex(n, 2)
    ensures m == n
  {
    assert HandleId.Shift(m, 1) == m / 16 && HandleId.Shift(n, 1) == n / 16;
    assert HandleId.Hex(m, 2)[0] == HandleId.Digit(m, 1) && HandleId.Hex(m, 2)[1] == HandleId.Digit(m, 0);
    assert HandleId.Hex(n, 2)[0] == HandleId.Digit(n, 1) && HandleId.Hex(n, 2)[1] == HandleId.Digit(n, 0);
  }

  /** Escaping loses nothing: different texts have different escaped forms. */
  lemma {:induction false} EscapeIsInjective(s: string, t: string)
    requires Escape(s) == Escape(t)
    ensures s == t
  {
    if s != "" {
      EscapeStep(s);
    }
    if t != "" {
      EscapeStep(t);
    }
    if s != "" && t != "" {
      EscapesDiffer(s[0], t[0], Escape(s[1..]), Escape(t[1..]));
      EscapeIsInjective(s[1..], t[1..]);
      assert s == [s[0]] + s[1..] && t == [t[0]] + t[1..];
    }
  }

  /** Bytes that need no escape. */
  predicate Plain(c: char) {
    c >= ' ' && c != '"' && c != '\\'
  }

  lemma {:induction false} PlainText(s: string)
    requires forall i | 0 <= i < |s| :: Plain(s[i])
    ensures Escape(s) == s && |Quote(s)| == |s| + 2
  {
    if s != "" {
      EscapeStep(s);
      assert Plain(s[0]);
      PlainText(s[1..]);
    }
  }

  lemma ArrayLength(items: seq<Json>)
    ensures |Print(Arr(items))| == 2 + ItemTotal(items) + Commas(|items|)
  {
    ItemsLength(items);
  }

  lemma OneMember(a: Entry<Json>)
    ensures |Print(Obj([a]))| == 2 + MemberLength(a)
  {
    MembersLength([a]);
    assert [a][1..] == [];
  }

  lemma TwoMembers(a: Entry<Json>, b: Entry<Json>)
    ensures |Print(Obj([a, b]))| == 3 + MemberLength(a) + MemberLength(b)
  {
    MembersLength([a, b]);
    assert [a, b][1..] == [b] && [b][1..] == [];
    assert MemberTotal([b]) == MemberLength(b);
  }

  lemma FourMembers(a: Entry<Json>, b: Entry<Json>, c: Entry<Json>, d: Entry<Json>)
    ensures |Print(Obj([a, b, c, d]))| ==
            5 + MemberLength(a) + MemberLength(b) + MemberLength(c) + MemberLength(d)
  {
    var ms := [a, b, c, d];
    MembersLength(ms);
    assert MemberTotal([d]) == MemberLength(d);
    assert [c, d][1..] == [d] && [b, c, d][1..] == [c, d] && ms[1..] == [b, c, d];
    assert MemberTotal([c, d]) == MemberLength(c) + MemberLength(d);
    assert MemberTotal([b, c, d]) == MemberLength(b) + MemberTotal([c, d]);
  }
}

/** A reader of compact JSON written from RFC 8259 alone, for the values the protocol uses, and the proof that it
    reads back whatever is printed. */
module JsonReading {
  import opened Wrappers
  import opened SortedMap
  import opened Json
  import opened JsonText
  import HandleId

  // ----- the reader -----

  predicate IsDigit(c: char) {
    '0' <= c <= '9'
  }

  /** A hexadecimal digit's value (section 7: either case). */
  function HexValue(c: char): Option<nat> {
    if '0' <= c <= '9' then Some(c as nat - '0' as nat)
    else if 'a' <= c <= 'f' then Some(c as nat - 'a' as nat + 10)
    else if 'A' <= c <= 'F' then Some(c as nat - 'A' as nat + 10)
    else None
  }

  /** The byte for the letter after a backslash. */
  function Short(c: char): Option<char> {
    match c
    case '"' => Some('"')
    case '\\' => Some('\\')
    case '/' => Some('/')
    case 'b' => Some(8 as char)
    case 'f' => Some(12 as char)
    case 'n' => Some(10 as char)
    case 'r' => Some(13 as char)
    case 't' => Some(9 as char)
    case _ => None
  }

  /** `uXXXX`, for the code points of one byte. */
  function Long(t: string): Option<char> {
    if |t| < 5 || t[0] != 'u' || t[1] != '0' || t[2] != '0' then None
    else match (HexValue(t[3]), HexValue(t[4]))
         case (Some(a), Some(b)) => if a < 8 then Some((16 * a + b) as char) else None
         case _ => None
  }

  /** One byte of a string and what follows it. */
  function ReadByte(t: string): (r: Option<(char, string)>)
    ensures r.Some? ==> |r.value.1| < |t|
  {
    if t == "" || t[0] < ' ' || t[0] == '"' then None
    else if t[0] != '\\' then Some((t[0], t[1..]))
    else if |t| > 1 && Short(t[1]).Some? then Some((Short(t[1]).value, t[2..]))
    else match Long(t[1..]) case Some(c) => Some((c, t[6..])) case None => None
  }

  /** The rest of a string after its opening quote, and what follows its closing one. */
  function ReadString(t: string): (r: Option<(string, string)>)
    ensures r.Some? ==> |r.value.1| < |t|
    decreases |t|
  {
    if t != "" && t[0] == '"' then Some(("", t[1..]))
    else
      match ReadByte(t)
      case None => None
      case Some((c, more)) =>
        match ReadString(more)
        case None => None
        case Some((s, rest)) => Some(([c] + s, rest))
  }

  /** How many digits a text begins with. */
  function DigitRun(t: string): (n: nat)
    ensures n <= |t|
  {
    if t != "" && IsDigit(t[0]) then 1 + DigitRun(t[1..]) else 0
  }

  /** What digits count, from the left. */
  function Counted(digits: string, so: nat): nat {
    if digits == "" then so
    else if !IsDigit(digits[0]) then so
    else Counted(digits[1..], 10 * so + (digits[0] as nat - '0' as nat))
  }

  function ReadNumber(t: string): Option<(nat, string)> {
    var n := DigitRun(t);
    if n == 0 || (n > 1 && t[0] == '0') then None else Some((Counted(t[..n], 0), t[n..]))
  }

  function ReadValue(t: string): (r: Option<(Json, string)>)
    ensures r.Some? ==> |r.value.1| < |t|
    decreases |t|, 2
  {
    if t == "" then None
    else if "null" <= t then Some((Null, t[4..]))
    else if "true" <= t then Some((Bool(true), t[4..]))
    else if "false" <= t then Some((Bool(false), t[5..]))
    else if t[0] == '"' then
      match ReadString(t[1..]) case Some((s, rest)) => Some((Str(s), rest)) case None => None
    else if t[0] == '[' then
      if |t| > 1 && t[1] == ']' then Some((Arr([]), t[2..]))
      else match ReadItems(t[1..]) case Some((items, rest)) => Some((Arr(items), rest)) case None => None
    else if t[0] == '{' then
      if |t| > 1 && t[1] == '}' then Some((Obj([]), t[2..]))
      else match ReadMembers(t[1..]) case Some((ms, rest)) => Some((Obj(ms), rest)) case None => None
    else
      match ReadNumber(t) case Some((n, rest)) => Some((Num(n), rest)) case None => None
  }

  /** The items of an array up to its closing bracket. */
  function ReadItems(t: string): (r: Option<(seq<Json>, string)>)
    ensures r.Some? ==> |r.value.1| < |t|
    decreases |t|, 3
  {
    match ReadValue(t)
    case None => None
    case Some((item, more)) =>
      if more == "" then None
      else if more[0] == ']' then Some(([item], more[1..]))
      else if more[0] != ',' then None
      else match ReadItems(more[1..]) case Some((items, rest)) => Some(([item] + items, rest)) case None => None
  }

  function ReadMember(t: string): (r: Option<(Entry<Json>, string)>)
    ensures r.Some? ==> |r.value.1| < |t|
    decreases |t|, 0
  {
    if t == "" || t[0] != '"' then None
    else
      match ReadString(t[1..])
      case None => None
      case Some((key, more)) =>
        if more == "" || more[0] != ':' then None
        else match ReadValue(more[1..]) case Some((j, rest)) => Some((Entry(key, j), rest)) case None => None
  }

  function ReadMembers(t: string): (r: Option<(seq<Entry<Json>>, string)>)
    ensures r.Some? ==> |r.value.1| < |t|
    decreases |t|, 1
  {
    match ReadMember(t)
    case None => None
    case Some((m, more)) =>
      if more == "" then None
      else if more[0] == '}' then Some(([m], more[1..]))
      else if more[0] != ',' then None
      else match ReadMembers(more[1..]) case Some((ms, rest)) => Some(([m] + ms, rest)) case None => None
  }

  // ----- strings -----

  lemma HexRead(c: char)
    requires c < ' '
    ensures |HandleId.Hex(c as nat, 2)| == 2
    ensures HexValue(HandleId.Hex(c as nat, 2)[0]) == Some(c as nat / 16)
    ensures HexValue(HandleId.Hex(c as nat, 2)[1]) == Some(c as nat % 16)
  {
    var n := c as nat;
    assert HandleId.Shift(n, 1) == n / 16;
    assert HandleId.Hex(n, 2)[0] == HandleId.Digit(n, 1) && HandleId.Hex(n, 2)[1] == HandleId.Digit(n, 0);
  }

  lemma ShortRead(c: char, y: string)
    requires |EscapeByte(c)| == 2
    ensures ReadByte(EscapeByte(c) + y) == Some((c, y))
  {
    var t := EscapeByte(c) + y;
    assert t[0] == '\\' && t[1] == EscapeByte(c)[1] && t[2..] == y;
  }

  lemma LongRead(c: char, y: string)
    requires c < ' ' && |EscapeByte(c)| == 6
    ensures ReadByte(EscapeByte(c) + y) == Some((c, y))
  {
    var e, h := EscapeByte(c), HandleId.Hex(c as nat, 2);
    var t := e + y;
    HexRead(c);
    assert e == "\\u00" + h;
    assert t[0] == '\\' && t[1] == 'u' && t[2] == '0' && t[3] == '0' && t[4] == h[0] && t[5] == h[1] && t[6..] == y;
    assert t[1..][0] == 'u' && t[1..][1] == '0' && t[1..][2] == '0' && t[1..][3] == h[0] && t[1..][4] == h[1];
    assert 16 * (c as nat / 16) + c as nat % 16 == c as nat;
  }

  lemma ByteSizes(c: char)
    ensures |EscapeByte(c)| == 1 || |EscapeByte(c)| == 2 || (|EscapeByte(c)| == 6 && c < ' ')
    ensures |EscapeByte(c)| == 1 ==> EscapeByte(c) == [c] && c >= ' ' && c != '"' && c != '\\'
    ensures EscapeByte(c)[0] != '"'
  {
    if c < ' ' {
      HexRead(c);
    }
  }

  lemma ByteRead(c: char, y: string)
    ensures ReadByte(EscapeByte(c) + y) == Some((c, y))
    ensures EscapeByte(c) + y != "" && (EscapeByte(c) + y)[0] != '"'
  {
    ByteSizes(c);
    if |EscapeByte(c)| == 1 {
      assert ([c] + y)[0] == c && ([c] + y)[1..] == y;
    } else if |EscapeByte(c)| == 2 {
      ShortRead(c, y);
    } else {
      LongRead(c, y);
    }
  }

  lemma {:induction false} StringRead(s: string, x: string)
    ensures ReadString(Escape(s) + ("\"" + x)) == Some((s, x))
  {
    var q := "\"" + x;
    assert q[0] == '"' && q[1..] == x;
    if s == "" {
      assert Escape("") + q == q;
    } else {
      EscapeStep(s);
      var more := Escape(s[1..]) + q;
      assert Escape(s) + q == EscapeByte(s[0]) + more;
      ByteRead(s[0], more);
      StringRead(s[1..], x);
      assert s == [s[0]] + s[1..];
    }
  }

  lemma QuotedRead(s: string, x: string)
    ensures Quote(s) + x != "" && (Quote(s) + x)[0] == '"'
    ensures ReadString((Quote(s) + x)[1..]) == Some((s, x))
  {
    StringRead(s, x);
    assert Quote(s) + x == "\"" + (Escape(s) + ("\"" + x));
  }

  // ----- numbers -----

  lemma {:induction false} CountedAppend(digits: string, so: nat, c: char)
    requires (forall i | 0 <= i < |digits| :: IsDigit(digits[i])) && IsDigit(c)
    ensures Counted(digits + [c], so) == 10 * Counted(digits, so) + (c as nat - '0' as nat)
  {
    if digits == "" {
      assert [c][1..] == "" && "" + [c] == [c];
    } else {
      CountedAppend(digits[1..], 10 * so + (digits[0] as nat - '0' as nat), c);
      assert (digits + [c])[1..] == digits[1..] + [c];
    }
  }

  lemma {:induction false} DecimalCounts(n: nat)
    ensures Decimal(n) != "" && forall i | 0 <= i < |Decimal(n)| :: IsDigit(Decimal(n)[i])
    ensures Counted(Decimal(n), 0) == n
    ensures n > 0 ==> Decimal(n)[0] != '0'
    ensures n == 0 ==> Decimal(n) == "0"
  {
    var last := ('0' as int + n % 10) as char;
    if n < 10 {
      assert Decimal(n) == [last] && [last][1..] == "";
    } else {
      DecimalCounts(n / 10);
      CountedAppend(Decimal(n / 10), 0, last);
      assert Decimal(n) == Decimal(n / 10) + [last];
    }
  }

  lemma {:induction false} RunEnds(digits: string, x: string)
    requires (forall i | 0 <= i < |digits| :: IsDigit(digits[i])) && (x != "" ==> !IsDigit(x[0]))
    ensures DigitRun(digits + x) == |digits|
  {
    if digits == "" {
      assert "" + x == x;
    } else {
      RunEnds(digits[1..], x);
      assert (digits + x)[1..] == digits[1..] + x;
    }
  }

  lemma NumberRead(n: nat, x: string)
    requires x != "" ==> !IsDigit(x[0])
    ensures ReadNumber(Decimal(n) + x) == Some((n, x))
  {
    var d := Decimal(n);
    DecimalCounts(n);
    RunEnds(d, x);
    assert (d + x)[..|d|] == d && (d + x)[|d|..] == x && (d + x)[0] == d[0];
  }

  // ----- values -----

  /** What may follow a value: nothing, or the separator or bracket after it. */
  predicate Closes(s: string) {
    s == "" || s[0] == ',' || s[0] == ']' || s[0] == '}'
  }

  lemma Regroup(a: string, b: string, c: string)
    ensures (a + b) + c == a + (b + c)
  {}

  lemma Prefixed(a: string, b: string)
    ensures a <= a + b && (a + b)[|a|..] == b
    ensures a != "" ==> a + b != "" && (a + b)[0] == a[0]
  {}

  lemma WordsDiffer(t: string)
    requires t != ""
    ensures "null" <= t ==> t[0] == 'n'
    ensures "true" <= t ==> t[0] == 't'
    ensures "false" <= t ==> t[0] == 'f'
  {}

  /** The first byte of a value is none that closes or separates. */
  lemma FirstByte(j: Json)
    ensures Print(j) != "" && !Closes(Print(j)) && Print(j)[0] != '\0'
  {
    if j.Num? {
      DecimalCounts(j.n);
    }
  }

  lemma WordRead(j: Json, x: string)
    requires j.Null? || j.Bool?
    ensures ReadValue(Print(j) + x) == Some((j, x))
  {
    Prefixed(Print(j), x);
    WordsDiffer(Print(j) + x);
    assert "null"[0] == 'n' && "true"[0] == 't' && "false"[0] == 'f';
  }

  lemma NumRead(n: nat, x: string)
    requires Closes(x)
    ensures ReadValue(Decimal(n) + x) == Some((Num(n), x))
  {
    var t := Decimal(n) + x;
    DecimalCounts(n);
    Prefixed(Decimal(n), x);
    WordsDiffer(t);
    NumberRead(n, x);
  }

  lemma StrRead(s: string, x: string)
    ensures ReadValue(Quote(s) + x) == Some((Str(s), x))
  {
    QuotedRead(s, x);
    WordsDiffer(Quote(s) + x);
  }

  lemma ArrayText(items: seq<Json>, x: string)
    ensures Print(Arr(items)) + x == "[" + (PrintItems(items) + ("]" + x))
  {}

  lemma ObjectText(ms: seq<Entry<Json>>, x: string)
    ensures Print(Obj(ms)) + x == "{" + (PrintMembers(ms) + ("}" + x))
  {}

  function AfterItem(items: seq<Json>, x: string): string
    requires items != []
  {
    if |items| == 1 then "]" + x else "," + (PrintItems(items[1..]) + ("]" + x))
  }

  function AfterMember(ms: seq<Entry<Json>>, x: string): string
    requires ms != []
  {
    if |ms| == 1 then "}" + x else "," + (PrintMembers(ms[1..]) + ("}" + x))
  }

  lemma ItemsText(items: seq<Json>, x: string)
    requires items != []
    ensures PrintItems(items) + ("]" + x) == Print(items[0]) + AfterItem(items, x) && Closes(AfterItem(items, x))
  {
    var head, end := Print(items[0]), "]" + x;
    if |items| == 1 {
      assert head + "" + end == head + end;
    } else {
      Regroup(head, "," + PrintItems(items[1..]), end);
      Regroup(",", PrintItems(items[1..]), end);
    }
  }

  lemma MembersText(ms: seq<Entry<Json>>, x: string)
    requires ms != []
    ensures PrintMembers(ms) + ("}" + x) == Quote(ms[0].key) + (":" + (Print(ms[0].value) + AfterMember(ms, x)))
    ensures Closes(AfterMember(ms, x))
  {
    hide Quote;
    var key, head, end := Quote(ms[0].key), Print(ms[0].value), "}" + x;
    var rest := if |ms| == 1 then "" else "," + PrintMembers(ms[1..]);
    assert PrintMembers(ms) == key + ":" + head + rest;
    hide PrintMembers, Print;
    Regroup(key + ":" + head, rest, end);
    Regroup(key + ":", head, rest + end);
    Regroup(key, ":", head + (rest + end));
    if |ms| == 1 {
      assert rest + end == end;
    } else {
      Regroup(",", PrintMembers(ms[1..]), end);
    }
  }

  lemma HeadAndTail<T>(s: seq<T>)
    requires s != []
    ensures s == [s[0]] + s[1..]
  {}

  lemma {:induction false} ItemsRead(items: seq<Json>, x: string)
    requires items != []
    ensures ReadItems(PrintItems(items) + ("]" + x)) == Some((items, x))
    decreases items, 0
  {
    var after := AfterItem(items, x);
    ItemsText(items, x);
    ValueRead(items[0], after);
    HeadAndTail(items);
    if |items| == 1 {
      Prefixed("]", x);
      assert items == [items[0]];
    } else {
      ItemsRead(items[1..], x);
      Prefixed(",", PrintItems(items[1..]) + ("]" + x));
    }
    hide PrintItems, Print, ReadValue;
  }

  lemma {:induction false} MemberRead(m: Entry<Json>, x: string)
    requires Closes(x)
    ensures ReadMember(Quote(m.key) + (":" + (Print(m.value) + x))) == Some((m, x))
    decreases m, 1
  {
    hide Quote, Print, ReadString, ReadValue, Closes;
    QuotedRead(m.key, ":" + (Print(m.value) + x));
    Prefixed(":", Print(m.value) + x);
    assert m.value < m;
    ValueRead(m.value, x);
  }

  lemma {:induction false} MembersRead(ms: seq<Entry<Json>>, x: string)
    requires ms != []
    ensures ReadMembers(PrintMembers(ms) + ("}" + x)) == Some((ms, x))
    decreases ms, 0
  {
    var after := AfterMember(ms, x);
    MembersText(ms, x);
    MemberRead(ms[0], after);
    HeadAndTail(ms);
    if |ms| == 1 {
      Prefixed("}", x);
      assert ms == [ms[0]];
    } else {
      MembersRead(ms[1..], x);
      Prefixed(",", PrintMembers(ms[1..]) + ("}" + x));
    }
    hide PrintMembers, Print, Quote, ReadMember;
  }

  /** Reading a printed value gives the value back, and what follows it untouched. */
  lemma {:induction false} ValueRead(j: Json, x: string)
    requires Closes(x)
    ensures ReadValue(Print(j) + x) == Some((j, x))
    decreases j, 1
  {
    match j {
      case Num(n) => NumRead(n, x);
      case Str(s) => StrRead(s, x);
      case Arr(items) => ArrRead(items, x);
      case Obj(ms) => ObjRead(ms, x);
      case _ => WordRead(j, x);
    }
  }

  lemma {:induction false} ArrRead(items: seq<Json>, x: string)
    requires Closes(x)
    ensures ReadValue(Print(Arr(items)) + x) == Some((Arr(items), x))
    decreases items, 1
  {
    var inner := PrintItems(items) + ("]" + x);
    var t := "[" + inner;
    ArrayText(items, x);
    Prefixed("[", inner);
    WordsDiffer(t);
    if items == [] {
      assert inner == "]" + x;
      assert t[1] == ']' && t[2..] == x;
    } else {
      ItemsText(items, x);
      FirstByte(items[0]);
      Prefixed(Print(items[0]), AfterItem(items, x));
      assert t[1] == inner[0];
      ItemsRead(items, x);
    }
  }

  lemma {:induction false} ObjRead(ms: seq<Entry<Json>>, x: string)
    requires Closes(x)
    ensures ReadValue(Print(Obj(ms)) + x) == Some((Obj(ms), x))
    decreases ms, 1
  {
    var inner := PrintMembers(ms) + ("}" + x);
    var t := "{" + inner;
    ObjectText(ms, x);
    Prefixed("{", inner);
    WordsDiffer(t);
    if ms == [] {
      assert inner == "}" + x;
      assert t[1] == '}' && t[2..] == x;
    } else {
      MembersText(ms, x);
      QuotedRead(ms[0].key, ":" + (Print(ms[0].value) + AfterMember(ms, x)));
      assert t[1] == inner[0];
      MembersRead(ms, x);
    }
  }

  /** The whole text of a value is read as that value. */
  lemma TextIsRead(j: Json)
    ensures ReadValue(Print(j)) == Some((j, ""))
  {
    ValueRead(j, "");
    assert Print(j) + "" == Print(j);
  }

  // ----- no shorter text -----

  lemma NoShorterByte(t: string)
    requires ReadByte(t).Some?
    ensures var (c, rest) := ReadByte(t).value; |EscapeByte(c)| + |rest| <= |t|
  {
    var (c, rest) := ReadByte(t).value;
    ByteSizes(c);
    if t[0] == '\\' && !(|t| > 1 && Short(t[1]).Some?) {
      assert |t| == |rest| + 6;
    }
  }

  /** Escaping is the shortest way to write a string: whatever text reads as it, up to its closing quote, is at least as
      long. */
  lemma {:induction false} NoShorterString(t: string)
    requires ReadString(t).Some?
    ensures var (s, rest) := ReadString(t).value; |Escape(s)| + 1 + |rest| <= |t|
    decreases |t|
  {
    if !(t != "" && t[0] == '"') {
      var (c, more) := ReadByte(t).value;
      NoShorterByte(t);
      NoShorterString(more);
      var (s, rest) := ReadString(more).value;
      assert ([c] + s)[1..] == s;
      EscapeStep([c] + s);
    }
  }
}

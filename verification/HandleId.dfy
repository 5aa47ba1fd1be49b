/** Handle names: `h-` and the 64-bit counter as sixteen lower-case hexadecimal digits.

    The registry model names handles by their counter; the theorems here say that nothing is lost by that. */
module HandleId {
  import opened Wrappers
  import opened ByteOrder

  const U64_MAX: nat := 0xffff_ffff_ffff_ffff
  const DIGITS: nat := 16

  function HexDigit(d: nat): char
    requires d < 16
  {
    if d < 10 then ('0' as int + d) as char else ('a' as int + d - 10) as char
  }

  /** `n` without its last `digits` hexadecimal digits. */
  function Shift(n: nat, digits: nat): nat {
    if digits == 0 then n else Shift(n / 16, digits - 1)
  }

  /** The hexadecimal digit of `n` with `place` digits after it. */
  function Digit(n: nat, place: nat): char {
    HexDigit(Shift(n, place) % 16)
  }

  /** `width` hexadecimal digits of `n`, most significant first and padded with zeros. */
  function Hex(n: nat, width: nat): string {
    seq(width, i requires 0 <= i < width => Digit(n, width - 1 - i))
  }

  lemma NextDigit(n: nat, place: nat)
    ensures Digit(n, place + 1) == Digit(n / 16, place)
  {}

  lemma LastDigit(n: nat, width: nat)
    requires width > 0
    ensures Hex(n, width) == Hex(n / 16, width - 1) + [HexDigit(n % 16)]
  {
    hide Digit;
    var s, t := Hex(n, width), Hex(n / 16, width - 1);
    forall i | 0 <= i < width - 1 ensures s[i] == t[i] {
      NextDigit(n, width - 2 - i);
    }
    UnitsDigit(n);
    assert s[width - 1] == Digit(n, 0);
  }

  lemma UnitsDigit(n: nat)
    ensures Digit(n, 0) == HexDigit(n % 16)
  {}

  function Power16(width: nat): nat {
    if width == 0 then 1 else 16 * Power16(width - 1)
  }

  function HandleName(counter: nat): string {
    "h-" + Hex(counter, DIGITS)
  }

  lemma {:induction false} HexIncreasing(m: nat, n: nat, width: nat)
    requires m < n < Power16(width)
    ensures Less(Hex(m, width), Hex(n, width))
  {
    var p, q := Hex(m / 16, width - 1), Hex(n / 16, width - 1);
    var a, b := [HexDigit(m % 16)], [HexDigit(n % 16)];
    LastDigit(m, width);
    LastDigit(n, width);
    if m / 16 < n / 16 {
      HexIncreasing(m / 16, n / 16, width - 1);
      LessByPrefix(p, q, a, b);
    } else {
      assert m / 16 == n / 16 && m % 16 < n % 16;
      LessAfterPrefix(p, a, b);
    }
  }

  /** What a lower-case hexadecimal digit stands for. */
  function DigitValue(c: char): Option<nat> {
    if '0' <= c <= '9' then Some(c as nat - '0' as nat)
    else if 'a' <= c <= 'f' then Some(10 + c as nat - 'a' as nat)
    else None
  }

  /** The number a text of hexadecimal digits stands for. */
  function Reading(s: string): Option<nat> {
    if s == "" then Some(0)
    else match (Reading(s[..|s| - 1]), DigitValue(s[|s| - 1]))
         case (Some(high), Some(low)) => Some(16 * high + low)
         case _ => None
  }

  lemma {:induction false} HexIsRead(n: nat, width: nat)
    requires n < Power16(width)
    ensures Reading(Hex(n, width)) == Some(n)
  {
    if width > 0 {
      LastDigit(n, width);
      HexIsRead(n / 16, width - 1);
      var s := Hex(n, width);
      assert s[..width - 1] == Hex(n / 16, width - 1) && s[width - 1] == HexDigit(n % 16);
      assert DigitValue(HexDigit(n % 16)) == Some(n % 16);
    }
  }

  /** A name is `h-` and sixteen digits that stand for the counter. */
  lemma NameTellsCounter(counter: nat)
    requires counter <= U64_MAX
    ensures |HandleName(counter)| == 18 && HandleName(counter)[0] == 'h' && HandleName(counter)[1] == '-'
    ensures Reading(HandleName(counter)[2..]) == Some(counter)
  {
    U64FitsDigits();
    HexIsRead(counter, DIGITS);
    assert HandleName(counter)[2..] == Hex(counter, DIGITS);
  }

  lemma U64FitsDigits()
    ensures U64_MAX + 1 == Power16(DIGITS)
  {
    assert Power16(4) == 0x1_0000;
    assert Power16(8) == 0x1_0000_0000;
    assert Power16(12) == 0x1_0000_0000_0000;
  }

  /** Byte order of handle names is the order in which the counters were allocated; in particular the
      names of different 64-bit counters differ. */
  lemma NamesInAllocationOrder(m: nat, n: nat)
    requires m <= U64_MAX && n <= U64_MAX
    ensures Less(HandleName(m), HandleName(n)) <==> m < n
    ensures HandleName(m) == HandleName(n) <==> m == n
    ensures |HandleName(m)| == 18
  {
    U64FitsDigits();
    LessAfterPrefix("h-", Hex(m, DIGITS), Hex(n, DIGITS));
    LessTotal(HandleName(m), HandleName(n));
    if m < n {
      HexIncreasing(m, n, DIGITS);
    } else if n < m {
      HexIncreasing(n, m, DIGITS);
      LessAfterPrefix("h-", Hex(n, DIGITS), Hex(m, DIGITS));
    }
  }
}

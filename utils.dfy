/**
 * `format_size` (utils.py): a byte count as text with a binary unit. Below
 * 1024 the count itself with "B", below 1024**2 the whole number of KiB with
 * "KB", and above that one decimal of MB, GB or TB.
 */
module Utils {
  import opened Decimal
  import Paths

  datatype Unit = B | KB | MB | GB | TB

  function Name(u: Unit): string {
    match u
    case B => "B"
    case KB => "KB"
    case MB => "MB"
    case GB => "GB"
    case TB => "TB"
  }

  /** The position of a unit in the order B < KB < MB < GB < TB. */
  function Rank(u: Unit): nat {
    match u
    case B => 0
    case KB => 1
    case MB => 2
    case GB => 3
    case TB => 4
  }

  /** The number of bytes one unit stands for: 1024 to the power of its rank. */
  function Scale(u: Unit): (s: nat)
    ensures s >= 1
  {
    match u
    case B => 1
    case KB => 1024
    case MB => 1024 * 1024
    case GB => 1024 * 1024 * 1024
    case TB => 1024 * 1024 * 1024 * 1024
  }

  /** The guards of `format_size`, tried in order. */
  function UnitOf(n: int): Unit {
    if n < 1024 then B
    else if n < 1024 * 1024 then KB
    else if n < 1024 * 1024 * 1024 then MB
    else if n < 1024 * 1024 * 1024 * 1024 then GB
    else TB
  }

  /** `n` lies in the range of `u`: from one `u` (none below B) to just under 1024 of them (none above TB). */
  predicate InRange(u: Unit, n: int) {
    (u == B || Scale(u) <= n) && (u == TB || n < 1024 * Scale(u))
  }

  /** Exactly one unit applies to each number, and it is the one `format_size` picks. */
  lemma UnitIsUnique(n: int, u: Unit)
    ensures InRange(u, n) <==> u == UnitOf(n)
  {
  }

  /** A larger number never gets a smaller unit. */
  lemma UnitOfMonotone(m: int, n: int)
    requires m <= n
    ensures Rank(UnitOf(m)) <= Rank(UnitOf(n))
  {
  }

  /**
   * `num / den` rounded to the nearest integer, ties to the even one: how
   * `%.1f` rounds a value that is exactly representable.
   */
  function RoundHalfEven(num: nat, den: nat): (q: nat)
    requires den > 0
    ensures 2 * (num - q * den) <= den && 2 * (q * den - num) <= den
    ensures 2 * (num - q * den) == den || 2 * (q * den - num) == den ==> q % 2 == 0
  {
    var q, r := num / den, num % den;
    DivisionSplit(num, den);
    if 2 * r < den then q
    else if 2 * r > den then q + 1
    else if q % 2 == 0 then q
    else q + 1
  }

  lemma DivisionSplit(num: nat, den: nat)
    requires den > 0
    ensures num - (num / den) * den == num % den < den
    ensures (num / den + 1) * den - num == den - num % den
  {
    assert (num / den + 1) * den == (num / den) * den + den;
  }

  /** `"%.1f" % (n / scale)`, from the rounded number of tenths. */
  function OneDecimal(tenths: nat): string {
    NatToString(tenths / 10) + "." + [DigitChar(tenths % 10)]
  }

  /** `format_size(num_bytes)`. */
  function FormatSize(n: int): (s: string)
    ensures Paths.EndsWith(s, Name(UnitOf(n)))
  {
    if n < 1024 then IntToString(n) + "B"
    else if n < 1024 * 1024 then NatToString(n / 1024) + "KB"
    else
      var u := UnitOf(n);
      OneDecimal(RoundHalfEven(10 * n, Scale(u))) + Name(u)
  }

  /** Below 1024 bytes the text is the decimal digits of `n` (read back as `n`) followed by "B". */
  lemma FormatSizeBytes(n: nat)
    requires n < 1024
    ensures var s := FormatSize(n);
      && |s| >= 2 && s[|s| - 1] == 'B'
      && AllDigits(s[..|s| - 1]) && ParseNat(s[..|s| - 1]) == n
  {
    var s := FormatSize(n);
    assert s[..|s| - 1] == NatToString(n);
    ParseNatToString(n);
  }

  /** A negative count is shown with its minus sign and "B". */
  lemma FormatSizeNegative(n: int)
    requires n < 0
    ensures var s := FormatSize(n); s[0] == '-' && s[|s| - 1] == 'B'
  {
  }

  /** From 1024 bytes to just under 1024 KiB, the text is the whole number of KiB, between 1 and 1023, then "KB". */
  lemma FormatSizeKilo(n: int)
    requires 1024 <= n < 1024 * 1024
    ensures var s := FormatSize(n);
      && |s| >= 3 && s[|s| - 2..] == "KB"
      && AllDigits(s[..|s| - 2]) && ParseNat(s[..|s| - 2]) == n / 1024
      && 1 <= ParseNat(s[..|s| - 2]) <= 1023
  {
    var s := FormatSize(n);
    assert s[..|s| - 2] == NatToString(n / 1024);
    ParseNatToString(n / 1024);
  }

  /**
   * From 1024 KiB up, the text is a whole part, a point and one digit, then
   * the unit; the number shown is within half a tenth of the exact quotient.
   */
  lemma FormatSizeScaled(n: int)
    requires n >= 1024 * 1024
    ensures var u := UnitOf(n);
      && Rank(u) >= 2
      && exists whole: nat, digit: nat ::
           && digit < 10
           && FormatSize(n) == NatToString(whole) + "." + [DigitChar(digit)] + Name(u)
           && 2 * (10 * n - (10 * whole + digit) * Scale(u)) <= Scale(u)
           && 2 * ((10 * whole + digit) * Scale(u) - 10 * n) <= Scale(u)
  {
    var u := UnitOf(n);
    var t := RoundHalfEven(10 * n, Scale(u));
    assert t == 10 * (t / 10) + t % 10;
    assert FormatSize(n) == NatToString(t / 10) + "." + [DigitChar(t % 10)] + Name(u);
  }
}

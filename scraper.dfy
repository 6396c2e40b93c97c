/**
 * The string rules of the HTML scraper (beep_downloader/remote/scraper.py):
 * the group id read out of a course link, and the size, date and record of
 * each file row of a folder listing. The HTML itself is not modelled: a
 * listing arrives here as the sequence of its rows, each reduced to the
 * attributes and cell texts the scraper reads.
 */
module Scraper {
  import opened Wrappers
  import opened Entities
  import opened Decimal
  import Paths

  /* ---------------------------------------------------------------------- */
  /* extract_site_id                                                         */
  /* ---------------------------------------------------------------------- */

  /** The literal text the regular expression `groupId=(\d+)` opens with. */
  const GroupIdKey: string := "groupId="

  /** The length of the longest prefix of `s` made of digits. */
  function DigitRun(s: string): (n: nat)
    ensures n <= |s|
    ensures forall i :: 0 <= i < n ==> IsDigit(s[i])
    ensures n < |s| ==> !IsDigit(s[n])
  {
    if s == [] || !IsDigit(s[0]) then 0 else 1 + DigitRun(s[1..])
  }

  /** The regular expression matches at position `p`: `groupId=` followed by at least one digit. */
  predicate IdAt(h: string, p: nat) {
    && p + |GroupIdKey| < |h|
    && h[p..p + |GroupIdKey|] == GroupIdKey
    && IsDigit(h[p + |GroupIdKey|])
  }

  /** The group of a match: `\d+` is greedy, so it is the whole run of digits after the key. */
  function IdDigitsAt(h: string, p: nat): (digits: string)
    requires IdAt(h, p)
    ensures |digits| >= 1 && AllDigits(digits)
  {
    var start := p + |GroupIdKey|;
    h[start..start + DigitRun(h[start..])]
  }

  function SearchIdFrom(h: string, p: nat): (r: Option<string>)
    ensures r.Some? ==> |r.value| >= 1 && AllDigits(r.value)
    decreases |h| - p
  {
    if p >= |h| then None
    else if IdAt(h, p) then Some(IdDigitsAt(h, p))
    else SearchIdFrom(h, p + 1)
  }

  /**
   * `extract_site_id(href)`: `int` of the group of the leftmost match. None
   * stands for the AttributeError raised when nothing matches (`res` is
   * None), so the function never returns Python's None.
   */
  function ExtractSiteId(href: string): (r: Option<nat>)
    ensures r.None? <==> SearchIdFrom(href, 0).None?
  {
    match SearchIdFrom(href, 0)
    case None => None
    case Some(digits) => Some(ParseNat(digits))
  }

  /** Searching from `p` finds nothing exactly when no match starts at `p` or later, and otherwise the leftmost one. */
  lemma {:induction false} SearchIdFromIsLeftmost(h: string, p: nat)
    ensures SearchIdFrom(h, p).None? <==> forall q :: p <= q < |h| ==> !IdAt(h, q)
    ensures SearchIdFrom(h, p).Some? ==>
              exists q :: p <= q < |h| && IdAt(h, q) && SearchIdFrom(h, p).value == IdDigitsAt(h, q)
                          && forall q' :: p <= q' < q ==> !IdAt(h, q')
    decreases |h| - p
  {
    if p >= |h| {
      assert SearchIdFrom(h, p) == None;
    } else if IdAt(h, p) {
      assert SearchIdFrom(h, p) == Some(IdDigitsAt(h, p));
    } else {
      assert SearchIdFrom(h, p) == SearchIdFrom(h, p + 1);
      SearchIdFromIsLeftmost(h, p + 1);
    }
  }

  /**
   * The link yields an id exactly when `groupId=` followed by a digit occurs
   * in it; the id is the number written by the digits after the leftmost
   * such occurrence.
   */
  lemma ExtractSiteIdIsLeftmost(href: string)
    ensures ExtractSiteId(href).None? <==> forall q :: 0 <= q < |href| ==> !IdAt(href, q)
    ensures ExtractSiteId(href).Some? ==>
              exists q :: 0 <= q < |href| && IdAt(href, q) && ExtractSiteId(href).value == ParseNat(IdDigitsAt(href, q))
                          && forall q' :: 0 <= q' < q ==> !IdAt(href, q')
  {
    SearchIdFromIsLeftmost(href, 0);
  }

  /** Positions where no match starts can be skipped. */
  lemma {:induction false} SearchIdSkips(h: string, p: nat, q: nat)
    requires p <= q <= |h|
    requires forall i :: p <= i < q ==> !IdAt(h, i)
    ensures SearchIdFrom(h, p) == SearchIdFrom(h, q)
    decreases q - p
  {
    if p < q {
      SearchIdSkips(h, p + 1, q);
    }
  }

  /**
   * A link that writes the group id after `groupId=`, with no earlier match
   * and no digit right after the number, gives that id back.
   */
  lemma ExtractSiteIdReadsWrittenId(before: string, g: nat, after: string)
    requires after == [] || !IsDigit(after[0])
    requires forall i :: 0 <= i < |before| ==> !IdAt(before + GroupIdKey + NatToString(g) + after, i)
    ensures ExtractSiteId(before + GroupIdKey + NatToString(g) + after) == Some(g)
  {
    var digits := NatToString(g);
    var h := before + GroupIdKey + digits + after;
    var p := |before|;
    var start := p + |GroupIdKey|;
    assert h[p..start] == GroupIdKey;
    assert h[start..] == digits + after;
    assert IdAt(h, p);
    assert DigitRun(h[start..]) == |digits| by {
      DigitRunOfDigits(digits, after);
    }
    assert IdDigitsAt(h, p) == digits;
    SearchIdSkips(h, 0, p);
    ParseNatToString(g);
  }

  lemma {:induction false} DigitRunOfDigits(digits: string, after: string)
    requires AllDigits(digits)
    requires after == [] || !IsDigit(after[0])
    ensures DigitRun(digits + after) == |digits|
  {
    if digits != [] {
      assert (digits + after)[1..] == digits[1..] + after;
      DigitRunOfDigits(digits[1..], after);
    } else {
      assert digits + after == after;
    }
  }

  /* ---------------------------------------------------------------------- */
  /* The size and date cells of a file row                                   */
  /* ---------------------------------------------------------------------- */

  /** The characters that can occur somewhere in a literal `float()` accepts (digits, point, signs, exponent, underscore, inf, nan). */
  predicate FloatChar(c: char) {
    IsDigit(c) || c in "._+-eEiInNfFtTyYaA"
  }

  predicate IsAscii(c: char) {
    c as int < 128
  }

  /** Every whole number up to 2^53 is a double exactly; `float()` rounds some larger ones. */
  const MaxExactWhole: nat := 0x20_0000_0000_0000

  /** ASCII letters folded to lower case, as `float()` compares `inf`, `infinity` and `nan`. */
  function LowerAscii(s: string): (r: string)
    ensures |r| == |s|
    ensures forall i :: 0 <= i < |s| ==> r[i] == s[i] || ('A' <= s[i] <= 'Z' && r[i] as int == s[i] as int + 32)
  {
    seq(|s|, i requires 0 <= i < |s| => if 'A' <= s[i] <= 'Z' then (s[i] as int + 32) as char else s[i])
  }

  /** A run of digits in which every `_` stands between two digits. */
  predicate DigitPart(s: string) {
    && s != []
    && forall i :: 0 <= i < |s| ==> IsDigit(s[i]) || Separator(s, i)
  }

  /** An `_` with a digit on each side. */
  predicate Separator(s: string, i: int)
    requires 0 <= i < |s|
  {
    s[i] == '_' && 0 < i < |s| - 1 && IsDigit(s[i - 1]) && IsDigit(s[i + 1])
  }

  /** The first position of a character of `cs` in `s`, or `|s|` when there is none. */
  function IndexOfAny(s: string, cs: string): (k: nat)
    ensures k <= |s| && (k < |s| ==> s[k] in cs)
    ensures forall i :: 0 <= i < k ==> s[i] !in cs
  {
    if s == [] || s[0] in cs then 0 else 1 + IndexOfAny(s[1..], cs)
  }

  /** Digits with at most one point, and at least one digit on some side of it. */
  predicate Mantissa(m: string) {
    var d := IndexOfAny(m, ".");
    if d == |m| then DigitPart(m)
    else
      var whole, frac := m[..d], m[d + 1..];
      && (whole != [] || frac != [])
      && (whole == [] || DigitPart(whole))
      && (frac == [] || DigitPart(frac))
  }

  /** Nothing, or `e`/`E`, an optional sign and digits. */
  predicate Exponent(x: string) {
    x == [] || (x[0] in "eE" && var y := x[1..]; DigitPart(if y != [] && y[0] in "+-" then y[1..] else y))
  }

  /**
   * The ASCII text `float()` accepts once surrounding whitespace is gone: an
   * optional sign, then `inf`, `infinity` or `nan` in any case, or a decimal
   * mantissa with an optional exponent.
   */
  predicate FloatLiteral(s: string) {
    SpecialWord(Unsigned(s)) || DecimalForm(Unsigned(s))
  }

  /** The text after a leading sign, if there is one. */
  function Unsigned(s: string): (t: string)
    ensures if s != [] && s[0] in "+-" then t == s[1..] else t == s
  {
    if s != [] && s[0] in "+-" then s[1..] else s
  }

  predicate SpecialWord(t: string) {
    LowerAscii(t) in ["inf", "infinity", "nan"]
  }

  /** A mantissa, then an exponent from the first `e` or `E` on. */
  predicate DecimalForm(t: string) {
    var k := IndexOfAny(t, "eE");
    Mantissa(t[..k]) && Exponent(t[k..])
  }

  /** The multiplier the last character of the size text stands for. */
  function Scale(unit: char): (s: nat)
    ensures s == 1024 || s == 1
    ensures s == 1024 <==> unit == 'k'
  {
    if unit == 'k' then 1024 else 1
  }

  /**
   * The size `extract_folder` records for a file row. The `col-3` cell's
   * text is stripped, its commas removed, and its last character taken as
   * the unit; the rest, read by `float`, is scaled by 1024 for `k`. A
   * missing cell, an empty text (IndexError) and a rest `float` rejects give
   * 0, as the bare `except` does. A rest holding an ASCII character no float
   * literal has is rejected whatever else it holds. Otherwise a rest with a
   * character outside ASCII gives None: `float()` reads any Unicode decimal
   * digit, which this model does not evaluate. An ASCII rest is judged by
   * `FloatLiteral`; among the literals it accepts, a whole number up to
   * 2^53 is read exactly, and None stands for any other value (a fraction,
   * an exponent, a sign, underscores, inf, nan or a larger number).
   */
  function SizeFromCell(cell: Option<string>): (r: Option<nat>)
    ensures cell.None? ==> r == Some(0)
  {
    match cell
    case None => Some(0)
    case Some(text) =>
      var s := Paths.Remove(Paths.Strip(text), ',');
      if s == [] then Some(0) else NumberSize(Paths.Strip(s[..|s| - 1]), s[|s| - 1])
  }

  /** What `float(num) * scale` gives for the stripped rest `num` and the unit character, as `SizeFromCell` describes. */
  function NumberSize(num: string, unit: char): (r: Option<nat>)
    ensures num == [] ==> r == Some(0)
  {
    if num == [] || exists i :: 0 <= i < |num| && IsAscii(num[i]) && !FloatChar(num[i]) then Some(0)
    else if exists i :: 0 <= i < |num| && !IsAscii(num[i]) then None
    else if !FloatLiteral(num) then Some(0)
    else if AllDigits(num) && ParseNat(num) <= MaxExactWhole then Some(ParseNat(num) * Scale(unit))
    else None
  }

  /** A non-empty run of ASCII digits is a float literal: a mantissa with neither point nor exponent. */
  lemma DigitsAreFloatLiteral(num: string)
    requires num != [] && AllDigits(num)
    ensures FloatLiteral(num)
  {
    assert forall i :: 0 <= i < |num| ==> IsDigit(num[i]) && num[i] !in "eE" && num[i] !in ".";
    assert IndexOfAny(num, "eE") == |num|;
    assert IndexOfAny(num, ".") == |num|;
    assert num[..|num|] == num;
    assert DigitPart(num);
  }

  /** Every character of a float literal is a `FloatChar`: a rest holding any other ASCII character cannot be a number. */
  lemma FloatLiteralChars(s: string)
    requires FloatLiteral(s)
    ensures forall i :: 0 <= i < |s| ==> FloatChar(s[i])
  {
    var t := Unsigned(s);
    if SpecialWord(t) {
      SpecialWordChars(t);
    } else {
      DecimalFormChars(t);
    }
    forall i | 0 <= i < |s|
      ensures FloatChar(s[i])
    {
      if |t| < |s| && i > 0 {
        assert s[i] == t[i - 1];
      } else if |t| == |s| {
        assert s[i] == t[i];
      }
    }
  }

  lemma SpecialWordChars(t: string)
    requires SpecialWord(t)
    ensures forall i :: 0 <= i < |t| ==> FloatChar(t[i])
  {
    forall i | 0 <= i < |t|
      ensures FloatChar(t[i])
    {
      assert LowerAscii(t)[i] in "infinity" || LowerAscii(t)[i] in "nan";
    }
  }

  lemma DecimalFormChars(t: string)
    requires DecimalForm(t)
    ensures forall i :: 0 <= i < |t| ==> FloatChar(t[i])
  {
    var k := IndexOfAny(t, "eE");
    MantissaChars(t[..k]);
    ExponentChars(t[k..]);
    forall i | 0 <= i < |t|
      ensures FloatChar(t[i])
    {
      if i < k {
        assert t[i] == t[..k][i];
      } else {
        assert t[i] == t[k..][i - k];
      }
    }
  }

  lemma DigitPartChars(s: string)
    requires DigitPart(s)
    ensures forall i :: 0 <= i < |s| ==> FloatChar(s[i])
  {
  }

  lemma MantissaChars(m: string)
    requires Mantissa(m)
    ensures forall i :: 0 <= i < |m| ==> FloatChar(m[i])
  {
    var d := IndexOfAny(m, ".");
    if d == |m| {
      DigitPartChars(m);
    } else {
      var whole, frac := m[..d], m[d + 1..];
      if whole != [] {
        DigitPartChars(whole);
      }
      if frac != [] {
        DigitPartChars(frac);
      }
      forall i | 0 <= i < |m|
        ensures FloatChar(m[i])
      {
        if i < d {
          assert m[i] == whole[i];
        } else if i > d {
          assert m[i] == frac[i - d - 1];
        }
      }
    }
  }

  lemma ExponentChars(x: string)
    requires Exponent(x)
    ensures forall i :: 0 <= i < |x| ==> FloatChar(x[i])
  {
    if x != [] {
      var y := x[1..];
      var signed := y != [] && y[0] in "+-";
      var digits := if signed then y[1..] else y;
      DigitPartChars(digits);
      forall i | 0 <= i < |x|
        ensures FloatChar(x[i])
      {
        if signed && i >= 2 {
          assert x[i] == digits[i - 2];
        } else if !signed && i >= 1 {
          assert x[i] == digits[i - 1];
        }
      }
    }
  }

  /** A whole number of kilobytes up to 2^53, written with its `k`, is that many times 1024 bytes; any other unit letter counts bytes. */
  lemma SizeOfWholeNumber(n: nat, unit: char)
    requires n <= MaxExactWhole
    requires !Paths.IsSpace(unit) && unit != ','
    ensures SizeFromCell(Some(NatToString(n) + [unit])) == Some(n * Scale(unit))
  {
    var text := NatToString(n) + [unit];
    assert text[..|text| - 1] == NatToString(n);
    ParseNatToString(n);
    SizeOfDigits(text);
  }

  /** A size text of digits and then one unit character: the digits are read as a whole number and scaled. */
  lemma SizeOfDigits(text: string)
    requires |text| >= 2 && AllDigits(text[..|text| - 1]) && ParseNat(text[..|text| - 1]) <= MaxExactWhole
    requires !Paths.IsSpace(text[|text| - 1]) && text[|text| - 1] != ','
    ensures SizeFromCell(Some(text)) == Some(ParseNat(text[..|text| - 1]) * Scale(text[|text| - 1]))
  {
    var num := text[..|text| - 1];
    forall i | 0 <= i < |text|
      ensures !Paths.IsSpace(text[i]) && text[i] != ','
    {
      if i < |num| {
        assert IsDigit(num[i]);
      }
    }
    SizeOfPlainText(text);
    NumberSizeOfDigits(num, text[|text| - 1]);
  }

  /** A size text with neither whitespace nor commas: its last character is the unit and the rest is the number. */
  lemma SizeOfPlainText(text: string)
    requires text != [] && forall i :: 0 <= i < |text| ==> !Paths.IsSpace(text[i]) && text[i] != ','
    ensures SizeFromCell(Some(text)) == NumberSize(text[..|text| - 1], text[|text| - 1])
  {
    assert Paths.Remove(Paths.Strip(text), ',') == text by {
      assert Paths.Strip(text) == text;
      assert ',' !in text;
    }
    var num := text[..|text| - 1];
    assert Paths.Strip(num) == num by {
      assert forall i :: 0 <= i < |num| ==> num[i] == text[i];
    }
  }

  /** A whole number up to 2^53 written in ASCII digits is read exactly and scaled by its unit. */
  lemma NumberSizeOfDigits(num: string, unit: char)
    requires num != [] && AllDigits(num) && ParseNat(num) <= MaxExactWhole
    ensures NumberSize(num, unit) == Some(ParseNat(num) * Scale(unit))
  {
    assert forall i :: 0 <= i < |num| ==> FloatChar(num[i]) && IsAscii(num[i]);
    DigitsAreFloatLiteral(num);
  }

  /** A size text with no unit loses its last digit: that digit is taken for the unit. */
  lemma SizeWithoutUnitDropsLastDigit(n: nat)
    requires n >= 10 && n / 10 <= MaxExactWhole
    ensures SizeFromCell(Some(NatToString(n))) == Some(n / 10)
  {
    var text := NatToString(n);
    LastDigitIsByteUnit(n);
    assert text[..|text| - 1] == NatToString(n / 10);
    ParseNatToString(n / 10);
    SizeOfDigits(text);
  }

  /** The last digit of a number of two digits or more, read as a unit character, counts bytes. */
  lemma LastDigitIsByteUnit(n: nat)
    requires n >= 10
    ensures NatToString(n) == NatToString(n / 10) + [DigitChar(n % 10)]
    ensures !Paths.IsSpace(DigitChar(n % 10)) && DigitChar(n % 10) != ',' && Scale(DigitChar(n % 10)) == 1
  {
  }

  /** A rest holding an ASCII character no float literal has gives size 0, as the bare `except` does. */
  lemma SizeOfNonNumberIsZero(text: string, c: char)
    requires var s := Paths.Remove(Paths.Strip(text), ','); s != [] && c in Paths.Strip(s[..|s| - 1])
    requires IsAscii(c) && !FloatChar(c)
    ensures SizeFromCell(Some(text)) == Some(0)
  {
    var s := Paths.Remove(Paths.Strip(text), ',');
    var num := Paths.Strip(s[..|s| - 1]);
    assert SizeFromCell(Some(text)) == NumberSize(num, s[|s| - 1]);
    var i :| 0 <= i < |num| && num[i] == c;
    assert IsAscii(num[i]) && !FloatChar(num[i]);
  }

  /** An ASCII rest that is not a float literal (a lone sign or point, `--`, `tea`) gives size 0, as the bare `except` does. */
  lemma SizeOfNonLiteralIsZero(text: string)
    requires var s := Paths.Remove(Paths.Strip(text), ','); s != []
    requires var s := Paths.Remove(Paths.Strip(text), ','); var num := Paths.Strip(s[..|s| - 1]);
             (forall i :: 0 <= i < |num| ==> IsAscii(num[i])) && !FloatLiteral(num)
    ensures SizeFromCell(Some(text)) == Some(0)
  {
    var s := Paths.Remove(Paths.Strip(text), ',');
    var num := Paths.Strip(s[..|s| - 1]);
    assert SizeFromCell(Some(text)) == NumberSize(num, s[|s| - 1]);
    NumberSizeOfNonLiteral(num, s[|s| - 1]);
  }

  lemma NumberSizeOfNonLiteral(num: string, unit: char)
    requires (forall i :: 0 <= i < |num| ==> IsAscii(num[i])) && !FloatLiteral(num)
    ensures NumberSize(num, unit) == Some(0)
  {
    assert !exists i :: 0 <= i < |num| && !IsAscii(num[i]);
  }

  /** A lone sign is no float literal, so the rest `-` reads as 0. */
  lemma LoneSignIsNoLiteral(unit: char)
    ensures !FloatLiteral("-")
    ensures NumberSize("-", unit) == Some(0)
  {
    var sign := "-";
    assert Unsigned(sign) == [];
    assert IndexOfAny([], "eE") == 0;
    assert IndexOfAny([], ".") == 0;
    assert !FloatLiteral(sign);
    assert IsAscii(sign[0]) && FloatChar(sign[0]);
  }

  /** A lone sign reads as size 0: it is taken for the unit and leaves no number. */
  lemma SizeOfLoneSign()
    ensures SizeFromCell(Some("-")) == Some(0)
  {
    SizeOfPlainText("-");
  }

  /** A sign and a unit after it (`-k`, `--`) read as size 0: a lone sign is no number. */
  lemma SizeOfSignAndUnit(unit: char)
    requires !Paths.IsSpace(unit) && unit != ','
    ensures SizeFromCell(Some(['-', unit])) == Some(0)
  {
    var text := ['-', unit];
    SizeOfPlainText(text);
    assert text[..1] == "-";
    LoneSignIsNoLiteral(unit);
  }

  /** A decimal fraction is a float literal but no run of digits, so its size is left unevaluated. */
  lemma FractionIsLiteral(unit: char)
    ensures FloatLiteral("1.5") && !AllDigits("1.5")
    ensures NumberSize("1.5", unit) == None
  {
    var num := "1.5";
    assert Unsigned(num) == num;
    assert IndexOfAny(num, "eE") == 3;
    assert IndexOfAny(num, ".") == 1;
    assert num[..3] == num && num[3..] == [];
    assert num[..1] == "1" && num[2..] == "5";
    assert IsDigit(num[0]) && IsDigit(num[2]);
    assert Mantissa(num) && Exponent([]);
    assert !IsDigit(num[1]);
    assert forall i :: 0 <= i < |num| ==> IsAscii(num[i]) && FloatChar(num[i]);
  }

  /** A fraction is a literal `float()` accepts, but not a whole number: its size, 1.5 times the scale, is left unevaluated. */
  lemma SizeOfFraction(unit: char)
    requires !Paths.IsSpace(unit) && unit != ','
    ensures SizeFromCell(Some("1.5" + [unit])) == None
  {
    var text := "1.5" + [unit];
    SizeOfPlainText(text);
    assert text[..3] == "1.5";
    FractionIsLiteral(unit);
  }

  /** A full-width digit, which `float()` reads as 5, is left unevaluated. */
  lemma SizeOfFullWidthDigit()
    ensures SizeFromCell(Some("\U{FF15}k")) == None
  {
    var num := "\U{FF15}";
    assert !IsAscii(num[0]) && !FloatChar(num[0]);
    assert NumberSize(num, 'k') == None;
    assert "\U{FF15}k"[..1] == num;
    SizeOfPlainText("\U{FF15}k");
  }

  /** The `col-5` cell: absent, text `strptime` rejects, or the timestamp of the date it reads. */
  datatype DateCell = NoDateCell | Unparseable | Timestamp(seconds: int)

  function DateFromCell(cell: DateCell): (r: int)
    ensures cell.Timestamp? ==> r == cell.seconds
    ensures !cell.Timestamp? ==> r == 0
  {
    match cell
    case Timestamp(seconds) => seconds
    case _ => 0
  }

  /* ---------------------------------------------------------------------- */
  /* The file records of one listing                                         */
  /* ---------------------------------------------------------------------- */

  /** A `results-row` of a folder listing. */
  datatype Row =
      /** A row with `data-folder-id`: a subfolder, visited recursively. */
    | FolderRow(folderId: int, title: string)
      /** A row with `data-title` only: a file, its link's `data-file-entry-id`, and its size and date cells. */
    | FileRow(title: string, fileEntryId: int, sizeCell: Option<string>, dateCell: DateCell)
      /** Any other row, which contributes nothing. */
    | OtherRow

  /** Every file row's size is one this model evaluates. */
  predicate SizesModelled(rows: seq<Row>) {
    forall i :: 0 <= i < |rows| && rows[i].FileRow? ==> SizeFromCell(rows[i].sizeCell).Some?
  }

  /** The dictionary `extract_folder` appends for a file row. */
  function FileRecord(row: Row, groupId: int, folderId: int): (f: RemoteFile)
    requires row.FileRow? && SizeFromCell(row.sizeCell).Some?
    ensures f.size >= 0 && f.extension == ""
  {
    RemoteFile(row.fileEntryId, row.title, DateFromCell(row.dateCell), SizeFromCell(row.sizeCell).value, groupId, folderId, "")
  }

  /** The file rows of a listing, in order. */
  function FileRows(rows: seq<Row>): (r: seq<Row>)
    ensures forall i :: 0 <= i < |r| ==> r[i].FileRow? && r[i] in rows
  {
    if rows == [] then []
    else
      var last := rows[|rows| - 1];
      FileRows(rows[..|rows| - 1]) + (if last.FileRow? then [last] else [])
  }

  /** The `files` list of `extract_folder`: one record per file row, in order. */
  function FilesOf(rows: seq<Row>, groupId: int, folderId: int): seq<RemoteFile>
    requires SizesModelled(rows)
  {
    if rows == [] then []
    else
      var init := rows[..|rows| - 1];
      var last := rows[|rows| - 1];
      FilesOf(init, groupId, folderId) + (if last.FileRow? then [FileRecord(last, groupId, folderId)] else [])
  }

  /**
   * The k-th record describes the k-th file row: its title, entry id, size
   * and date, the group and folder passed in, and an empty extension.
   */
  lemma {:induction false} FilesOfDescribesFileRows(rows: seq<Row>, groupId: int, folderId: int)
    requires SizesModelled(rows)
    ensures var files, fileRows := FilesOf(rows, groupId, folderId), FileRows(rows);
      && |files| == |fileRows|
      && forall k :: 0 <= k < |files| ==>
           && files[k].title == fileRows[k].title && files[k].fileEntryId == fileRows[k].fileEntryId
           && files[k].size == SizeFromCell(fileRows[k].sizeCell).value
           && files[k].modifiedDate == DateFromCell(fileRows[k].dateCell)
           && files[k].groupId == groupId && files[k].folderId == folderId && files[k].extension == ""
  {
    if rows != [] {
      FilesOfDescribesFileRows(rows[..|rows| - 1], groupId, folderId);
    }
  }

  /** No scraped size is negative: the scraper gives a folder's own files what the size bounds of the download list need. */
  lemma {:induction false} ScrapedSizesNonNegative(rows: seq<Row>, groupId: int, folderId: int)
    requires SizesModelled(rows)
    ensures forall f :: f in FilesOf(rows, groupId, folderId) ==> f.size >= 0
  {
    if rows != [] {
      ScrapedSizesNonNegative(rows[..|rows| - 1], groupId, folderId);
    }
  }

  /**
   * The file side of the `for tr in ...` loop of `extract_folder`: a record
   * appended for each file row; folder rows and other rows append nothing.
   */
  method ExtractFiles(rows: seq<Row>, groupId: int, folderId: int) returns (files: seq<RemoteFile>)
    requires SizesModelled(rows)
    ensures files == FilesOf(rows, groupId, folderId)
  {
    files := [];
    for i := 0 to |rows|
      invariant files == FilesOf(rows[..i], groupId, folderId)
    {
      assert rows[..i + 1][..i] == rows[..i];
      var row := rows[i];
      if row.FileRow? {
        var size := SizeFromCell(row.sizeCell);
        var modifiedDate := DateFromCell(row.dateCell);
        files := files + [RemoteFile(row.fileEntryId, row.title, modifiedDate, size.value, groupId, folderId, "")];
      }
    }
    assert rows[..|rows|] == rows;
  }
}

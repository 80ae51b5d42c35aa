/**
 * The copyright notice `get_copyright_notice` builds from a year and an
 * optional manufacturer, the parser that reads a notice back, and the
 * default the command line applies when no copyright text is given.
 */
module Copyright {
  import opened Options

  const NoticePrefix: string := "Copyright \U{A9} "
  const NoticeSuffix: string := ". All Rights Reserved."

  predicate IsDigit(c: char) {
    '0' <= c <= '9'
  }

  predicate AllDigits(s: string) {
    forall i :: 0 <= i < |s| ==> IsDigit(s[i])
  }

  function DigitChar(d: nat): (c: char)
    requires d < 10
    ensures IsDigit(c)
  {
    ('0' as int + d) as char
  }

  /** Python's `str(n)` for a non-negative integer: its decimal digits. */
  function DecimalText(n: nat): (r: string)
    ensures |r| >= 1 && AllDigits(r)
    ensures r[0] == '0' ==> n == 0
  {
    if n < 10 then [DigitChar(n)] else DecimalText(n / 10) + [DigitChar(n % 10)]
  }

  /** The number a string of decimal digits denotes. */
  function DecimalValue(s: string): nat
    requires AllDigits(s)
  {
    if s == [] then 0
    else DecimalValue(s[..|s| - 1]) * 10 + (s[|s| - 1] as int - '0' as int)
  }

  lemma {:induction false} DecimalRoundTrip(n: nat)
    ensures DecimalValue(DecimalText(n)) == n
  {
    if n >= 10 {
      var t := DecimalText(n / 10) + [DigitChar(n % 10)];
      assert t[..|t| - 1] == DecimalText(n / 10);
      DecimalRoundTrip(n / 10);
    }
  }

  /** The length of the longest run of digits at the start of `s`. */
  function DigitRun(s: string): (n: nat)
    ensures n <= |s| && AllDigits(s[..n])
    ensures n < |s| ==> !IsDigit(s[n])
  {
    if s == [] || !IsDigit(s[0]) then 0
    else
      var n := 1 + DigitRun(s[1..]);
      assert s[..n] == [s[0]] + s[1..][..n - 1];
      n
  }

  lemma {:induction false} DigitRunOf(d: string, t: string)
    requires AllDigits(d)
    requires t == [] || !IsDigit(t[0])
    ensures DigitRun(d + t) == |d|
  {
    if d == [] {
      assert d + t == t;
    } else {
      assert (d + t)[0] == d[0];
      assert (d + t)[1..] == d[1..] + t;
      DigitRunOf(d[1..], t);
    }
  }

  /** What a notice says: its year, and its holder when it names one. */
  datatype Notice = Notice(year: nat, holder: Option<string>)

  /** Reads a notice of the shape `get_copyright_notice` writes. */
  function ParseNotice(r: string): Option<Notice> {
    if |r| < |NoticePrefix| + |NoticeSuffix|
       || r[..|NoticePrefix|] != NoticePrefix
       || r[|r| - |NoticeSuffix|..] != NoticeSuffix
    then None
    else ParseNoticeBody(r[|NoticePrefix|..|r| - |NoticeSuffix|])
  }

  /**
   * Reads what stands between the prefix and the suffix: a year written as
   * `str` writes it (no leading zero), then optionally a space and a
   * non-empty holder.
   */
  function ParseNoticeBody(middle: string): Option<Notice> {
    var n := DigitRun(middle);
    if n == 0 || (n > 1 && middle[0] == '0') then None
    else if n == |middle| then Some(Notice(DecimalValue(middle), None))
    else if middle[n] == ' ' && n + 1 < |middle| then Some(Notice(DecimalValue(middle[..n]), Some(middle[n + 1..])))
    else None
  }

  /** A digit string without a leading zero is the decimal text of its value. */
  lemma {:induction false} DecimalTextOfValue(d: string)
    requires |d| >= 1 && AllDigits(d) && (|d| > 1 ==> d[0] != '0')
    ensures DecimalText(DecimalValue(d)) == d
  {
    var last := d[|d| - 1];
    var digit := last as int - '0' as int;
    assert DigitChar(digit) == last;
    if |d| > 1 {
      var p := d[..|d| - 1];
      assert p[0] == d[0];
      DecimalTextOfValue(p);
      var v := DecimalValue(d);
      assert DecimalValue(p) != 0 by {
        assert DecimalText(0) == "0" != p;
      }
      assert v / 10 == DecimalValue(p) && v % 10 == digit;
      assert p + [last] == d;
    }
  }

  /** The parser strips exactly the prefix and the suffix. */
  lemma NoticeFraming(middle: string)
    ensures ParseNotice(NoticePrefix + middle + NoticeSuffix) == ParseNoticeBody(middle)
  {
    var r := NoticePrefix + middle + NoticeSuffix;
    assert r[..|NoticePrefix|] == NoticePrefix;
    assert r[|r| - |NoticeSuffix|..] == NoticeSuffix;
    assert r[|NoticePrefix|..|r| - |NoticeSuffix|] == middle;
  }

  /**
   * `get_copyright_notice(manufacturer)` with the current year passed in:
   * "Copyright © {year} {manufacturer}. All Rights Reserved." when the
   * manufacturer is non-empty, "Copyright © {year}. All Rights Reserved."
   * otherwise.
   */
  function CopyrightNotice(manufacturer: Option<string>, year: nat): string {
    if Truthy(manufacturer) then
      NoticePrefix + DecimalText(year) + " " + manufacturer.value + NoticeSuffix
    else
      NoticePrefix + DecimalText(year) + NoticeSuffix
  }

  /**
   * A notice names its year and, exactly when the manufacturer is non-empty,
   * that manufacturer: reading it back recovers both.
   */
  lemma NoticeRoundTrip(manufacturer: Option<string>, year: nat)
    ensures ParseNotice(CopyrightNotice(manufacturer, year)) ==
            Some(Notice(year, if Truthy(manufacturer) then manufacturer else None))
  {
    var y := DecimalText(year);
    if Truthy(manufacturer) {
      var middle := y + " " + manufacturer.value;
      assert CopyrightNotice(manufacturer, year) == NoticePrefix + middle + NoticeSuffix;
      NoticeFraming(middle);
      HolderBodyRoundTrip(year, manufacturer.value);
    } else {
      assert CopyrightNotice(manufacturer, year) == NoticePrefix + y + NoticeSuffix;
      NoticeFraming(y);
      DigitRunOf(y, []);
      assert y + [] == y;
      DecimalRoundTrip(year);
    }
  }

  /** The body of a notice with a holder reads back as that year and that holder. */
  lemma HolderBodyRoundTrip(year: nat, holder: string)
    requires holder != ""
    ensures ParseNoticeBody(DecimalText(year) + " " + holder) == Some(Notice(year, Some(holder)))
  {
    var y := DecimalText(year);
    var middle := y + " " + holder;
    assert middle == y + (" " + holder);
    DigitRunOf(y, " " + holder);
    DecimalRoundTrip(year);
    assert middle[|y|] == ' ';
    assert middle[..|y|] == y;
    assert middle[|y| + 1..] == holder;
  }

  /**
   * The parser accepts nothing but notices: whatever it reads back as a
   * year and a holder is exactly the notice printed for them, so a notice is
   * pinned by what it reads as.
   */
  lemma NoticeParsePrint(r: string)
    ensures ParseNotice(r).Some? ==>
              && (ParseNotice(r).value.holder.Some? ==> ParseNotice(r).value.holder.value != "")
              && r == CopyrightNotice(ParseNotice(r).value.holder, ParseNotice(r).value.year)
  {
    if ParseNotice(r).Some? {
      var middle := r[|NoticePrefix|..|r| - |NoticeSuffix|];
      assert r == NoticePrefix + middle + NoticeSuffix;
      var n := DigitRun(middle);
      var y := middle[..n];
      DecimalTextOfValue(y);
      if n == |middle| {
        assert y == middle;
      } else {
        assert middle == y + " " + middle[n + 1..];
      }
    }
  }

  /**
   * The copyright value the command line puts in the configuration: the
   * given text when there is one (the empty string included), otherwise a
   * notice for a non-empty manufacturer, otherwise nothing.
   */
  function DefaultCopyright(copyrightText: Option<string>, manufacturer: Option<string>, year: nat): (r: Option<string>)
    ensures copyrightText.Some? ==> r == copyrightText
    ensures copyrightText.None? && Truthy(manufacturer) ==>
              r.Some? && ParseNotice(r.value) == Some(Notice(year, manufacturer))
    ensures copyrightText.None? && !Truthy(manufacturer) ==> r.None?
  {
    if copyrightText.Some? then copyrightText
    else if Truthy(manufacturer) then
      NoticeRoundTrip(manufacturer, year);
      Some(CopyrightNotice(manufacturer, year))
    else None
  }
}

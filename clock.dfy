/**
 * Decimal rendering of whole numbers and the `minutes:seconds` clock text
 * shared by the track header and the progress bar, together with an
 * independent reader for that text.
 */
module Clock {
  import opened Wrappers

  predicate IsDigit(c: char) { '0' <= c <= '9' }

  predicate IsDigits(s: string) { forall i :: 0 <= i < |s| ==> IsDigit(s[i]) }

  function DigitChar(d: nat): (c: char)
    requires d < 10
    ensures IsDigit(c) && DigitValue(c) == d
  {
    (('0' as int) + d) as char
  }

  function DigitValue(c: char): nat
    requires IsDigit(c)
  {
    c as int - '0' as int
  }

  /** The value of a string of decimal digits, most significant first. */
  function ParseDigits(s: string): nat
    requires IsDigits(s)
  {
    if s == [] then 0 else ParseDigits(s[..|s| - 1]) * 10 + DigitValue(s[|s| - 1])
  }

  /** `String(n)` for a whole number: its shortest decimal form. */
  function NatToString(n: nat): (s: string)
    ensures IsDigits(s) && |s| >= 1
    ensures s[0] == '0' <==> n == 0
    ensures |s| == 1 <==> n < 10
    ensures 10 <= n < 100 ==> |s| == 2
    decreases n
  {
    if n < 10 then [DigitChar(n)] else NatToString(n / 10) + [DigitChar(n % 10)]
  }

  lemma {:induction false} ParseNatToString(n: nat)
    ensures ParseDigits(NatToString(n)) == n
    decreases n
  {
    if n >= 10 {
      var s := NatToString(n);
      assert s[..|s| - 1] == NatToString(n / 10);
      ParseNatToString(n / 10);
    }
  }

  /** Two decimal renderings are equal only for equal numbers. */
  lemma NatToStringInjective(a: nat, b: nat)
    requires NatToString(a) == NatToString(b)
    ensures a == b
  {
    ParseNatToString(a);
    ParseNatToString(b);
  }

  /** Non-empty, and no leading zero unless it is the single digit 0. */
  predicate NoLeadingZero(s: string)
  {
    |s| >= 1 && (s[0] == '0' ==> |s| == 1)
  }

  /** A shortest decimal form. */
  predicate Canonical(s: string)
  {
    IsDigits(s) && NoLeadingZero(s)
  }

  /** Every shortest decimal form is the rendering of its own value. */
  lemma {:induction false} CanonicalIsNatToString(s: string)
    requires Canonical(s)
    ensures NatToString(ParseDigits(s)) == s
    decreases |s|
  {
    var n := ParseDigits(s);
    if |s| == 1 {
      assert s[..0] == [];
      assert n == DigitValue(s[0]) < 10;
      assert NatToString(n) == [DigitChar(n)];
      assert DigitChar(n) == s[0];
    } else {
      var p := s[..|s| - 1];
      assert p[0] == s[0] != '0';
      CanonicalIsNatToString(p);
      var q := ParseDigits(p);
      assert q != 0;
      assert n == q * 10 + DigitValue(s[|s| - 1]) >= 10;
      assert n / 10 == q && n % 10 == DigitValue(s[|s| - 1]);
      assert DigitChar(n % 10) == s[|s| - 1];
      assert NatToString(n) == p + [s[|s| - 1]];
    }
  }

  /** `s.padStart(2, "0")`. */
  function PadStart2(s: string): string
  {
    if |s| == 0 then "00" else if |s| == 1 then "0" + s else s
  }

  /** Padding gives at least two characters, keeps `s` as the tail and puts only zeros in front. */
  lemma PadStart2Pads(s: string)
    ensures var r := PadStart2(s);
      |r| == (if |s| < 2 then 2 else |s|) && r[|r| - |s|..] == s &&
      forall i :: 0 <= i < |r| - |s| ==> r[i] == '0'
  {
  }

  lemma PadStart2Digits(n: nat)
    requires n < 100
    ensures |PadStart2(NatToString(n))| == 2 && IsDigits(PadStart2(NatToString(n)))
    ensures ParseDigits(PadStart2(NatToString(n))) == n
  {
    var d := NatToString(n);
    ParseNatToString(n);
    if |d| == 1 {
      var p := "0" + d;
      assert p[..1] == "0";
      assert ParseDigits(p[..1]) == 0;
      assert p[..0] == [];
    }
  }

  /** `minutes` in decimal, a colon, and `seconds` padded to two digits. */
  function ClockText(minutes: nat, seconds: nat): (r: string)
    requires seconds < 60
    ensures |r| >= 4 && r[|r| - 3] == ':'
    ensures IsDigits(r[..|r| - 3]) && IsDigits(r[|r| - 2..])
    ensures ParseDigits(r[..|r| - 3]) == minutes
    ensures ParseDigits(r[|r| - 2..]) == seconds
    ensures Canonical(r[..|r| - 3])
  {
    var m := NatToString(minutes);
    var sec := PadStart2(NatToString(seconds));
    ParseNatToString(minutes);
    PadStart2Digits(seconds);
    JoinFields(m, sec);
    var r := m + ":" + sec;
    assert r[..|r| - 3] == m && r[|r| - 2..] == sec;
    assert Canonical(m) && ParseDigits(m) == minutes;
    assert IsDigits(sec) && ParseDigits(sec) == seconds;
    r
  }

  lemma JoinFields(m: string, sec: string)
    requires |sec| == 2
    ensures var r := m + ":" + sec;
      |r| == |m| + 3 && r[..|r| - 3] == m && r[|r| - 3] == ':' && r[|r| - 2..] == sec
  {
    var r := m + ":" + sec;
    assert r[..|m|] == m;
    assert r[|m| + 1..] == sec;
  }

  /**
   * The text `${Math.floor(s / 60)}:${(s % 60).toString().padStart(2, "0")}`
   * for whole seconds `s`: the minutes in shortest decimal form, a colon, and
   * exactly two digits of seconds below 60.
   */
  function MinutesSeconds(s: nat): (r: string)
    ensures |r| >= 4 && r[|r| - 3] == ':'
    ensures IsDigits(r[..|r| - 3]) && IsDigits(r[|r| - 2..])
    ensures ParseDigits(r[..|r| - 3]) == s / 60
    ensures ParseDigits(r[|r| - 2..]) == s % 60 < 60
    ensures NoLeadingZero(r[..|r| - 3]) && r[..|r| - 3] == NatToString(s / 60)
  {
    var r := ClockText(s / 60, s % 60);
    assert Canonical(r[..|r| - 3]) && ParseDigits(r[..|r| - 3]) == s / 60;
    assert ParseDigits(r[|r| - 2..]) == s % 60;
    CanonicalValue(r[..|r| - 3], s / 60);
    r
  }

  /** A shortest decimal form with value `n` is the rendering of `n`. */
  lemma CanonicalValue(x: string, n: nat)
    requires Canonical(x) && ParseDigits(x) == n
    ensures x == NatToString(n)
  {
    CanonicalIsNatToString(x);
  }

  /**
   * Reads `minutes:ss` text back into a number of seconds: a non-empty run of
   * digits, a colon, and two digits that denote a value below 60.
   */
  function ParseClock(r: string): Option<nat>
  {
    if |r| >= 4 && r[|r| - 3] == ':' && IsDigits(r[..|r| - 3]) && IsDigits(r[|r| - 2..])
       && ParseDigits(r[|r| - 2..]) < 60
    then Some(ParseDigits(r[..|r| - 3]) * 60 + ParseDigits(r[|r| - 2..]))
    else None
  }

  lemma ClockRoundTrip(s: nat)
    ensures ParseClock(MinutesSeconds(s)) == Some(s)
  {
  }

  /** Two two-digit strings with the same value are the same string. */
  lemma TwoDigitsUnique(x: string, y: string)
    requires |x| == 2 && |y| == 2 && IsDigits(x) && IsDigits(y)
    requires ParseDigits(x) == ParseDigits(y)
    ensures x == y
  {
    FirstOfTwo(x);
    FirstOfTwo(y);
  }

  lemma FirstOfTwo(x: string)
    requires |x| == 2 && IsDigits(x)
    ensures ParseDigits(x) == DigitValue(x[0]) * 10 + DigitValue(x[1])
  {
    var h := x[..1];
    assert h[..0] == [] && h[0] == x[0];
    assert ParseDigits(h) == DigitValue(x[0]);
  }

  /**
   * The rendering is the only text the reader maps to `s` whose minutes
   * field is a shortest decimal form.
   */
  lemma ClockCanonical(r: string, s: nat)
    requires ParseClock(r) == Some(s) && NoLeadingZero(r[..|r| - 3])
    ensures r == MinutesSeconds(s)
  {
    var m, sec := r[..|r| - 3], r[|r| - 2..];
    var a, b := ParseDigits(m), ParseDigits(sec);
    SplitSixty(a, b, s);
    ClockTextCanonical(r);
  }

  /** Canonical clock text is the `ClockText` of its two fields' values. */
  lemma ClockTextCanonical(r: string)
    requires |r| >= 4 && r[|r| - 3] == ':' && Canonical(r[..|r| - 3])
    requires IsDigits(r[|r| - 2..]) && ParseDigits(r[|r| - 2..]) < 60
    ensures r == ClockText(ParseDigits(r[..|r| - 3]), ParseDigits(r[|r| - 2..]))
  {
    var m, sec := r[..|r| - 3], r[|r| - 2..];
    var t := ClockText(ParseDigits(m), ParseDigits(sec));
    CanonicalIsNatToString(m);
    TwoDigitsUnique(sec, t[|t| - 2..]);
    SplitAtColon(r);
    SplitAtColon(t);
  }

  lemma SplitAtColon(r: string)
    requires |r| >= 4 && r[|r| - 3] == ':'
    ensures r == r[..|r| - 3] + ":" + r[|r| - 2..]
  {
    assert r == r[..|r| - 3] + r[|r| - 3..];
    assert r[|r| - 3..] == [r[|r| - 3]] + r[|r| - 2..];
  }

  lemma SplitSixty(a: nat, b: nat, s: nat)
    requires b < 60 && s == a * 60 + b
    ensures s / 60 == a && s % 60 == b
  {
  }

  lemma ClockInjective(a: nat, b: nat)
    requires MinutesSeconds(a) == MinutesSeconds(b)
    ensures a == b
  {
    ClockRoundTrip(a);
    ClockRoundTrip(b);
  }
}

/** The calendar day as Go's time.Format("2006-01-02") writes it. */
module Dates {

  type Month = m: nat | 1 <= m <= 12 witness 1
  type DayOfMonth = d: nat | 1 <= d <= 31 witness 1

  /** A calendar day; which days exist in which month is not modelled. */
  datatype Date = Date(year: nat, month: Month, day: DayOfMonth)

  predicate IsDigit(c: char) {
    '0' <= c <= '9'
  }

  predicate AllDigits(s: string) {
    forall i :: 0 <= i < |s| ==> IsDigit(s[i])
  }

  /** The number a string of decimal digits denotes, most significant digit first. */
  function Value(s: string): nat
    requires AllDigits(s)
  {
    if s == [] then 0 else Value(s[..|s| - 1]) * 10 + (s[|s| - 1] as int - '0' as int)
  }

  /** The decimal digits of n, most significant first, without leading zeros. */
  function Digits(n: nat): (r: string)
    ensures 1 <= |r| && AllDigits(r)
    ensures Value(r) == n
    ensures |r| > 1 ==> r[0] != '0'
    ensures |r| <= 2 <==> n < 100
    decreases n
  {
    if n < 10 then ['0' + n as char]
    else
      var r := Digits(n / 10) + ['0' + (n % 10) as char];
      assert r[..|r| - 1] == Digits(n / 10);
      r
  }

  /** s left-padded with '0' to at least `width` characters. */
  function ZeroPad(s: string, width: nat): (r: string)
    ensures |r| == if |s| < width then width else |s|
    ensures r[|r| - |s|..] == s
    ensures forall i :: 0 <= i < |r| - |s| ==> r[i] == '0'
  {
    var zeros := if |s| < width then width - |s| else 0;
    seq(zeros, _ => '0') + s
  }

  /** The name of the day directory: a year of at least four digits, then two-digit month and
      day, joined by '-'. */
  function DayName(d: Date): (r: string)
    ensures |r| >= 10 && r[|r| - 6] == '-' && r[|r| - 3] == '-'
  {
    var year := ZeroPad(Digits(d.year), 4);
    var month := ZeroPad(Digits(d.month), 2);
    var day := ZeroPad(Digits(d.day), 2);
    DashJoinedFields(year, month, day);
    year + "-" + month + "-" + day
  }

  /** r holds the day's fields at the places DayName writes them, each reading back as its number:
      the year before the sixth character from the end, the month and the day after the dashes. */
  predicate ReadsAs(r: string, d: Date) {
    |r| >= 10 &&
    AllDigits(r[..|r| - 6]) && Value(r[..|r| - 6]) == d.year &&
    AllDigits(r[|r| - 5..|r| - 3]) && Value(r[|r| - 5..|r| - 3]) == d.month &&
    AllDigits(r[|r| - 2..]) && Value(r[|r| - 2..]) == d.day
  }

  /** The three fields of a day name read back as the year, the month and the day. */
  lemma DayNameFields(d: Date)
    ensures ReadsAs(DayName(d), d)
  {
    PaddedValue(Digits(d.year), 4);
    PaddedValue(Digits(d.month), 2);
    PaddedValue(Digits(d.day), 2);
    JoinedFieldValues(ZeroPad(Digits(d.year), 4), ZeroPad(Digits(d.month), 2), ZeroPad(Digits(d.day), 2), d);
  }

  /** Different days have different directory names. */
  lemma DayNameInjective(d: Date, e: Date)
    requires DayName(d) == DayName(e)
    ensures d == e
  {
    DayNameFields(d);
    DayNameFields(e);
    FieldsDetermineDate(DayName(d), d, e);
  }

  lemma FieldsDetermineDate(r: string, d: Date, e: Date)
    requires ReadsAs(r, d) && ReadsAs(r, e)
    ensures d == e
  {
  }

  lemma JoinedFieldValues(a: string, b: string, c: string, d: Date)
    requires |a| >= 4 && |b| == 2 && |c| == 2
    requires AllDigits(a) && Value(a) == d.year
    requires AllDigits(b) && Value(b) == d.month
    requires AllDigits(c) && Value(c) == d.day
    ensures ReadsAs(a + "-" + b + "-" + c, d)
  {
    DashJoinedFields(a, b, c);
  }

  /** A day directory name starts with a digit and is a single path element. */
  lemma DayNameShape(d: Date)
    ensures |DayName(d)| >= 10
    ensures IsDigit(DayName(d)[0])
    ensures '/' !in DayName(d)
  {
    DigitsPadded(Digits(d.year), 4);
    DigitsPadded(Digits(d.month), 2);
    DigitsPadded(Digits(d.day), 2);
    DashJoinedShape(ZeroPad(Digits(d.year), 4), ZeroPad(Digits(d.month), 2), ZeroPad(Digits(d.day), 2));
  }

  lemma DashJoinedShape(a: string, b: string, c: string)
    requires AllDigits(a) && AllDigits(b) && AllDigits(c) && a != []
    ensures IsDigit((a + "-" + b + "-" + c)[0])
    ensures '/' !in a + "-" + b + "-" + c
  {
    var r := a + "-" + b + "-" + c;
    assert r[0] == a[0];
    forall i | 0 <= i < |r| ensures r[i] != '/' {
      if i < |a| {
        assert r[i] == a[i];
      } else if |a| < i < |a| + 1 + |b| {
        assert r[i] == b[i - |a| - 1];
      } else if i > |a| + 1 + |b| {
        assert r[i] == c[i - |a| - 2 - |b|];
      }
    }
  }

  /** The three fields of a + "-" + b + "-" + c, for two-character b and c, sit at fixed
      distances from the end. */
  lemma DashJoinedFields(a: string, b: string, c: string)
    requires |a| >= 4 && |b| == 2 && |c| == 2
    ensures var r := a + "-" + b + "-" + c;
            r[|r| - 6] == '-' && r[|r| - 3] == '-' &&
            r[..|r| - 6] == a && r[|r| - 5..|r| - 3] == b && r[|r| - 2..] == c
  {
    var r := a + "-" + b + "-" + c;
    assert r == a + ("-" + b + "-" + c);
    assert r[..|a|] == a;
    assert r[|a| + 1..|a| + 3] == b;
    assert r[|a| + 4..] == c;
  }

  /** Leading zeros change neither the digits property nor the value. */
  lemma PaddedValue(s: string, width: nat)
    requires AllDigits(s)
    ensures AllDigits(ZeroPad(s, width)) && Value(ZeroPad(s, width)) == Value(s)
  {
    DigitsPadded(s, width);
    var zeros := if |s| < width then width - |s| else 0;
    LeadingZeros(zeros, s);
  }

  lemma {:induction false} LeadingZeros(k: nat, s: string)
    requires AllDigits(s)
    ensures AllDigits(seq(k, _ => '0') + s) && Value(seq(k, _ => '0') + s) == Value(s)
    decreases |s|
  {
    var z := seq(k, _ => '0');
    assert AllDigits(z + s) by {
      forall i | 0 <= i < |z + s| ensures IsDigit((z + s)[i]) {
        if i >= |z| { assert (z + s)[i] == s[i - |z|]; }
      }
    }
    if s == [] {
      assert z + s == z;
      ZerosValue(k);
    } else {
      var init := s[..|s| - 1];
      assert AllDigits(init) by {
        forall i | 0 <= i < |init| ensures IsDigit(init[i]) { assert init[i] == s[i]; }
      }
      assert (z + s)[..|z + s| - 1] == z + init;
      assert (z + s)[|z + s| - 1] == s[|s| - 1];
      LeadingZeros(k, init);
    }
  }

  lemma {:induction false} ZerosValue(k: nat)
    ensures AllDigits(seq(k, _ => '0')) && Value(seq(k, _ => '0')) == 0
  {
    if k > 0 {
      assert seq(k, _ => '0')[..k - 1] == seq(k - 1, _ => '0');
      ZerosValue(k - 1);
    }
  }

  lemma DigitsPadded(s: string, width: nat)
    requires AllDigits(s)
    ensures AllDigits(ZeroPad(s, width))
  {
    var r := ZeroPad(s, width);
    forall i | 0 <= i < |r| ensures IsDigit(r[i]) {
      if i >= |r| - |s| {
        assert r[i] == r[|r| - |s|..][i - (|r| - |s|)];
      }
    }
  }
}

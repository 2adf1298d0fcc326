/** The clock text of the count-up timer: whole seconds shown as hours,
    minutes and seconds, each at least two digits, separated by colons. */
module CountUpTimer {

  datatype Option<T> = None | Some(value: T)

  /** The three clock fields of a count of seconds. */
  function Fields(total: nat): (f: (nat, nat, nat))
    ensures f.1 < 60 && f.2 < 60
    ensures f.0 * 3600 + f.1 * 60 + f.2 == total
  {
    (total / 3600, (total % 3600) / 60, total % 60)
  }

  predicate IsDigit(c: char)
  {
    '0' <= c <= '9'
  }

  predicate AllDigits(s: string)
  {
    forall i :: 0 <= i < |s| ==> IsDigit(s[i])
  }

  function DigitChar(d: nat): (c: char)
    requires d < 10
    ensures IsDigit(c)
  {
    (48 + d) as char
  }

  /** The decimal numeral of `n`, without leading zeros. */
  function Decimal(n: nat): (s: string)
    ensures 1 <= |s| && AllDigits(s)
    ensures n < 10 ==> |s| == 1
    ensures 10 <= n < 100 ==> |s| == 2
    ensures s[0] == '0' <==> n == 0
  {
    if n < 10 then [DigitChar(n)] else Decimal(n / 10) + [DigitChar(n % 10)]
  }

  /** The number a string of digits denotes. */
  function DigitsValue(s: string): nat
    requires AllDigits(s)
  {
    if s == [] then 0
    else DigitsValue(s[..|s| - 1]) * 10 + (s[|s| - 1] as int - '0' as int)
  }

  /** Reading back the numeral of `n` gives `n`. */
  lemma {:induction false} DecimalRoundTrip(n: nat)
    ensures DigitsValue(Decimal(n)) == n
    decreases n
  {
    var s := Decimal(n);
    if n >= 10 {
      DecimalRoundTrip(n / 10);
      assert s[..|s| - 1] == Decimal(n / 10);
    }
  }

  /** A leading zero does not change the number a string of digits denotes. */
  lemma {:induction false} LeadingZero(s: string)
    requires AllDigits(s)
    ensures AllDigits("0" + s) && DigitsValue("0" + s) == DigitsValue(s)
    decreases |s|
  {
    if s != [] {
      var z := "0" + s;
      assert z[..|z| - 1] == "0" + s[..|s| - 1];
      LeadingZero(s[..|s| - 1]);
    }
  }

  /** `k` zero characters. */
  function Zeros(k: nat): (z: string)
    ensures |z| == k && forall i :: 0 <= i < k ==> z[i] == '0'
  {
    seq(k, _ => '0')
  }

  /** Left-padding with '0' to at least two characters: the text is kept
      whole, behind as many zeros as it is short of two. */
  function PadStart2(s: string): (r: string)
    ensures |r| == (if |s| < 2 then 2 else |s|)
    ensures r == Zeros(|r| - |s|) + s
  {
    if |s| >= 2 then s else Zeros(2 - |s|) + s
  }

  /** Padding a numeral keeps it a numeral of the same number. */
  lemma {:induction false} PaddedValue(n: nat)
    ensures AllDigits(PadStart2(Decimal(n)))
    ensures DigitsValue(PadStart2(Decimal(n))) == n
  {
    var d := Decimal(n);
    DecimalRoundTrip(n);
    if |d| == 1 {
      LeadingZero(d);
    }
  }

  /** The two digits of a number below 100. */
  function TwoDigits(n: nat): (r: string)
    requires n < 100
    ensures |r| == 2 && AllDigits(r)
  {
    [DigitChar(n / 10), DigitChar(n % 10)]
  }

  /** Below 100, the padded numeral is exactly the two digits. */
  lemma {:induction false} PaddedIsTwoDigits(n: nat)
    requires n < 100
    ensures PadStart2(Decimal(n)) == TwoDigits(n)
  {
    if n >= 10 {
      assert Decimal(n / 10) == [DigitChar(n / 10)];
    }
  }

  /** Where the fields sit in a text `h:m:s` with two-character `m` and `s`. */
  lemma {:induction false} ClockShape(h: string, m: string, s: string)
    requires |m| == 2 && |s| == 2
    ensures var r := h + ":" + m + ":" + s;
            |r| == |h| + 6 && r[|r| - 3] == ':' && r[|r| - 6] == ':' &&
            r[|r| - 5..|r| - 3] == m && r[|r| - 2..] == s
  {
  }

  /** The clock text of three field values, each padded to two digits. */
  function Clock(hours: nat, minutes: nat, seconds: nat): string
  {
    PadStart2(Decimal(hours)) + ":" + PadStart2(Decimal(minutes)) + ":" + PadStart2(Decimal(seconds))
  }

  /** `hours:minutes:seconds`, each field padded to two digits. */
  function FormatTime(total: nat): string
  {
    var f := Fields(total);
    Clock(f.0, f.1, f.2)
  }

  /** The clock text has its colons at fixed places from the end, the minutes
      and seconds as exactly two digits each, and is eight characters long
      below 100 hours; longer hours are printed in full. */
  lemma {:induction false} FormatTimeShape(total: nat)
    ensures var r := FormatTime(total);
            |r| >= 8 && r[|r| - 3] == ':' && r[|r| - 6] == ':' &&
            (total < 360000 ==> |r| == 8) &&
            r[|r| - 5..|r| - 3] == TwoDigits(Fields(total).1) &&
            r[|r| - 2..] == TwoDigits(Fields(total).2)
  {
    var f := Fields(total);
    var h := PadStart2(Decimal(f.0));
    assert FormatTime(total) == h + ":" + TwoDigits(f.1) + ":" + TwoDigits(f.2) by {
      PaddedIsTwoDigits(f.1);
      PaddedIsTwoDigits(f.2);
    }
    assert total < 360000 ==> |h| == 2 by {
      assert total < 360000 ==> f.0 < 100;
    }
    ClockShape(h, TwoDigits(f.1), TwoDigits(f.2));
  }

  /** The colon-separated parts of a string. */
  function SplitOnColon(s: string): (parts: seq<string>)
    ensures |parts| >= 1
  {
    if s == [] then [""]
    else if s[0] == ':' then [""] + SplitOnColon(s[1..])
    else
      var rest := SplitOnColon(s[1..]);
      [[s[0]] + rest[0]] + rest[1..]
  }

  lemma {:induction false} SplitAfterWord(a: string, b: string)
    requires AllDigits(a)
    ensures SplitOnColon(a) == [a]
    ensures SplitOnColon(a + ":" + b) == [a] + SplitOnColon(b)
    decreases |a|
  {
    if a == [] {
      assert a + ":" + b == [':'] + b;
      assert ([':'] + b)[1..] == b;
    } else {
      SplitAfterWord(a[1..], b);
      assert (a + ":" + b)[1..] == a[1..] + ":" + b;
      assert [a[0]] + a[1..] == a;
    }
  }

  /** Reading a clock text back into seconds: three non-empty digit fields. */
  function ParseTime(s: string): (r: Option<nat>)
    ensures r.Some? ==> |SplitOnColon(s)| == 3
  {
    var parts := SplitOnColon(s);
    if |parts| == 3 && parts[0] != [] && parts[1] != [] && parts[2] != [] &&
       AllDigits(parts[0]) && AllDigits(parts[1]) && AllDigits(parts[2])
    then Some(DigitsValue(parts[0]) * 3600 + DigitsValue(parts[1]) * 60 + DigitsValue(parts[2]))
    else None
  }

  /** Reading back `h:m:s` for three numerals gives the seconds they denote. */
  lemma {:induction false} JoinedRoundTrip(h: string, m: string, s: string)
    requires h != [] && m != [] && s != []
    requires AllDigits(h) && AllDigits(m) && AllDigits(s)
    ensures ParseTime(h + ":" + m + ":" + s)
            == Some(DigitsValue(h) * 3600 + DigitsValue(m) * 60 + DigitsValue(s))
  {
    assert SplitOnColon(h + ":" + m + ":" + s) == [h, m, s] by {
      SplitAfterWord(s, "");
      SplitAfterWord(m, s);
      SplitAfterWord(h, m + ":" + s);
      assert h + ":" + m + ":" + s == h + ":" + (m + ":" + s);
    }
  }

  /** The clock text determines the count: reading it back gives the seconds
      it was made from. */
  lemma {:induction false} FormatParseRoundTrip(total: nat)
    ensures ParseTime(FormatTime(total)) == Some(total)
  {
    var f := Fields(total);
    var h, m, s := PadStart2(Decimal(f.0)), PadStart2(Decimal(f.1)), PadStart2(Decimal(f.2));
    PaddedValue(f.0);
    PaddedValue(f.1);
    PaddedValue(f.2);
    assert FormatTime(total) == h + ":" + m + ":" + s;
    JoinedRoundTrip(h, m, s);
  }

  lemma Midnight()
    ensures FormatTime(0) == "00:00:00"
  {
    assert Fields(0) == (0, 0, 0);
    assert PadStart2(Decimal(0)) == "00";
  }

  lemma OneHourOneMinuteOneSecond()
    ensures FormatTime(3661) == "01:01:01"
  {
    assert Fields(3661) == (1, 1, 1);
    assert PadStart2(Decimal(1)) == "01";
  }
}

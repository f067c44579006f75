/** `CMTime.toTimeString()` of the video player: a whole number of seconds
    shown as `MM:SS`, or `HH:MM:SS` from one hour on, every field printed with
    `%02d`. The input is the already rounded number of seconds. A small
    parser for the clock strings it produces is the formatter's partner. */
module PlayerTime {
  import opened Options

  function Hours(s: nat): nat { s / 3600 }
  function Minutes(s: nat): nat { (s % 3600) / 60 }
  function Seconds(s: nat): nat { s % 60 }

  /** The three fields are a mixed-radix decomposition of the seconds. */
  lemma ClockFields(s: nat)
    ensures Minutes(s) < 60 && Seconds(s) < 60
    ensures Hours(s) * 3600 + Minutes(s) * 60 + Seconds(s) == s
    ensures Hours(s) > 0 <==> s >= 3600
  {
    var r := s % 3600;
    assert s == Hours(s) * 3600 + r;
    assert r == Minutes(s) * 60 + r % 60;
    assert s == (Hours(s) * 60 + Minutes(s)) * 60 + r % 60;
    assert r % 60 == Seconds(s);
  }

  predicate IsDigit(c: char) { '0' <= c <= '9' }

  predicate AllDigits(t: string) { forall i :: 0 <= i < |t| ==> IsDigit(t[i]) }

  function DigitChar(d: nat): (c: char)
    requires d < 10
    ensures IsDigit(c) && c != ':'
  {
    (('0' as int) + d) as char
  }

  function DigitValue(c: char): (d: nat)
    requires IsDigit(c)
    ensures d < 10
  {
    (c as int) - ('0' as int)
  }

  /** `%d`: the decimal digits of `n`, with no leading zero. */
  function Decimal(n: nat): (t: string)
    ensures |t| >= 1 && AllDigits(t)
    ensures n < 10 <==> |t| == 1
    ensures n >= 10 ==> t[0] != '0'
    decreases n
  {
    if n < 10 then [DigitChar(n)] else Decimal(n / 10) + [DigitChar(n % 10)]
  }

  /** `%02d`: the decimal digits of `n`, padded with a zero to two characters. */
  function Pad2(n: nat): (t: string)
    ensures |t| >= 2 && AllDigits(t) && ':' !in t
    ensures n < 100 ==> |t| == 2
  {
    if n < 10 then "0" + Decimal(n) else Decimal(n)
  }

  /** `toTimeString()`. */
  function ToTimeString(s: nat): string
  {
    var hours, min, sec := Hours(s), Minutes(s), Seconds(s);
    if hours > 0 then Pad2(hours) + ":" + Pad2(min) + ":" + Pad2(sec)
    else Pad2(min) + ":" + Pad2(sec)
  }

  // ---- The partner: reading a clock string back ----

  /** A decimal field read back as a number. */
  function ParseDecimal(t: string): nat
    requires AllDigits(t)
    decreases |t|
  {
    if t == [] then 0 else ParseDecimal(t[..|t| - 1]) * 10 + DigitValue(t[|t| - 1])
  }

  /** The fields of `t` between its colons. */
  function Split(t: string): (fields: seq<string>)
    ensures |fields| >= 1
    decreases |t|
  {
    if t == [] then [[]]
    else if t[0] == ':' then [[]] + Split(t[1..])
    else
      var rest := Split(t[1..]);
      [[t[0]] + rest[0]] + rest[1..]
  }

  /** Reads `MM:SS` or `HH:MM:SS` back as seconds; any other text is refused. */
  function ParseClock(t: string): Option<nat>
  {
    var f := Split(t);
    if |f| == 3 && AllDigits(f[0]) && AllDigits(f[1]) && AllDigits(f[2]) then
      Some(ParseDecimal(f[0]) * 3600 + ParseDecimal(f[1]) * 60 + ParseDecimal(f[2]))
    else if |f| == 2 && AllDigits(f[0]) && AllDigits(f[1]) then
      Some(ParseDecimal(f[0]) * 60 + ParseDecimal(f[1]))
    else None
  }

  lemma {:induction false} ParseDecimalOfDecimal(n: nat)
    ensures ParseDecimal(Decimal(n)) == n
    decreases n
  {
    if n >= 10 {
      var t := Decimal(n);
      assert t[..|t| - 1] == Decimal(n / 10);
      ParseDecimalOfDecimal(n / 10);
    }
  }

  lemma {:induction false} ParseDecimalLeadingZero(t: string)
    requires AllDigits(t)
    ensures AllDigits("0" + t) && ParseDecimal("0" + t) == ParseDecimal(t)
    decreases |t|
  {
    var z := "0" + t;
    if t != [] {
      assert z[..|z| - 1] == "0" + t[..|t| - 1];
      ParseDecimalLeadingZero(t[..|t| - 1]);
    }
  }

  /** A `%02d` field reads back as the number printed. */
  lemma ParsePad2(n: nat)
    ensures ParseDecimal(Pad2(n)) == n
  {
    ParseDecimalOfDecimal(n);
    if n < 10 {
      ParseDecimalLeadingZero(Decimal(n));
    }
  }

  lemma {:induction false} SplitNoColon(a: string)
    requires ':' !in a
    ensures Split(a) == [a]
    decreases |a|
  {
    if a != [] {
      assert a[0] in a;
      assert forall c :: c in a[1..] ==> c in a;
      SplitNoColon(a[1..]);
      assert [a[0]] + a[1..] == a;
    }
  }

  lemma {:induction false} SplitColon(a: string, b: string)
    requires ':' !in a
    ensures Split(a + ":" + b) == [a] + Split(b)
    decreases |a|
  {
    if a == [] {
      assert a + ":" + b == [':'] + b;
      assert (a + ":" + b)[1..] == b;
    } else {
      var t := a + ":" + b;
      assert a[0] in a && t[0] == a[0] && t[1..] == a[1..] + ":" + b;
      SplitColon(a[1..], b);
      assert [a[0]] + a[1..] == a;
    }
  }

  /** The fields of the clock string: three exactly from one hour on, two
      below; each is the zero-padded hours, minutes or seconds. */
  lemma ClockStringFields(s: nat)
    ensures s >= 3600 ==> Split(ToTimeString(s)) == [Pad2(Hours(s)), Pad2(Minutes(s)), Pad2(Seconds(s))]
    ensures s < 3600 ==> Split(ToTimeString(s)) == [Pad2(Minutes(s)), Pad2(Seconds(s))]
    ensures |Split(ToTimeString(s))| == 3 <==> s >= 3600
    ensures |Split(ToTimeString(s))| == 2 <==> s < 3600
    ensures forall f :: f in Split(ToTimeString(s)) ==> |f| >= 2 && AllDigits(f)
  {
    ClockFields(s);
    var h, m, c := Pad2(Hours(s)), Pad2(Minutes(s)), Pad2(Seconds(s));
    SplitNoColon(c);
    SplitColon(m, c);
    if s >= 3600 {
      assert ToTimeString(s) == h + ":" + (m + ":" + c);
      SplitColon(h, m + ":" + c);
    } else {
      assert ToTimeString(s) == m + ":" + c;
    }
  }

  /** Below one hour the string is exactly `MM:SS`: five characters with the
      colon in the middle. */
  lemma ShortClockShape(s: nat)
    requires s < 3600
    ensures |ToTimeString(s)| == 5 && ToTimeString(s)[2] == ':'
  {
    ClockFields(s);
  }

  /** Reading the clock string back yields the seconds it was made from. */
  lemma ParseClockRoundTrip(s: nat)
    ensures ParseClock(ToTimeString(s)) == Some(s)
  {
    ClockFields(s);
    ClockStringFields(s);
    ParsePad2(Hours(s));
    ParsePad2(Minutes(s));
    ParsePad2(Seconds(s));
  }
}

/** humanDuration of api.go, and a parser that inverts it. */
module HumanDuration {
  import opened Text
  import opened ClipBounds

  /** The shapes printed for a positive duration of `h` hours, `m` minutes and `s` seconds. */
  function Print(h: nat, m: nat, s: nat): string {
    if h > 0 then
      Itoa(h) + "h" + if s == 0 then Pad2(m) + "m" else Pad2(m) + "m" + (Pad2(s) + "s")
    else if m > 0 then
      if s == 0 then Itoa(m) + "m" else Itoa(m) + "m" + (Pad2(s) + "s")
    else Itoa(s) + "s"
  }

  function HumanDuration(seconds: int): string {
    if seconds <= 0 then "0s" else Print(seconds / 3600, seconds % 3600 / 60, seconds % 60)
  }

  /** The five shapes; minutes after hours, and seconds after minutes, have two digits. */
  lemma FiveShapes(n: nat)
    ensures var h, m, s := n / 3600, n % 3600 / 60, n % 60;
      && |Pad2(m)| == 2 && |Pad2(s)| == 2
      && (h > 0 && s > 0 ==> HumanDuration(n) == Itoa(h) + "h" + (Pad2(m) + "m" + (Pad2(s) + "s")))
      && (h > 0 && s == 0 ==> HumanDuration(n) == Itoa(h) + "h" + (Pad2(m) + "m"))
      && (h == 0 && m > 0 && s > 0 ==> HumanDuration(n) == Itoa(m) + "m" + (Pad2(s) + "s"))
      && (h == 0 && m > 0 && s == 0 ==> HumanDuration(n) == Itoa(m) + "m")
      && (h == 0 && m == 0 ==> HumanDuration(n) == Itoa(s) + "s")
  {
    Pad2IsTwoDigits(n % 3600 / 60);
    Pad2IsTwoDigits(n % 60);
    DigitsAreThemselves();
  }

  /** Length of the longest prefix of digits. */
  function DigitRun(t: string): (k: nat)
    ensures k <= |t| && AllDigits(t[..k])
  {
    if t != "" && IsDigit(t[0]) then
      assert forall i | 1 <= i < 1 + DigitRun(t[1..]) :: t[i] == t[1..][..DigitRun(t[1..])][i - 1];
      1 + DigitRun(t[1..])
    else 0
  }

  function InSeconds(n: nat, unit: char): nat {
    if unit == 'h' then n * 3600 else if unit == 'm' then n * 60 else n
  }

  /** Reads numerals, each followed by a one-letter unit, and adds them up. */
  function ReadDuration(t: string): nat {
    var k := DigitRun(t);
    if k == |t| then 0 else InSeconds(Numeral(t[..k]), t[k]) + ReadDuration(t[k + 1..])
  }

  lemma {:induction false} DigitRunStops(d: string, c: char, rest: string)
    requires AllDigits(d) && !IsDigit(c)
    ensures DigitRun(d + [c] + rest) == |d|
    decreases |d|
  {
    if d != "" {
      assert (d + [c] + rest)[1..] == d[1..] + [c] + rest;
      DigitRunStops(d[1..], c, rest);
    }
  }

  lemma ReadOne(d: string, c: char, rest: string)
    requires AllDigits(d) && !IsDigit(c)
    ensures ReadDuration(d + [c] + rest) == InSeconds(Numeral(d), c) + ReadDuration(rest)
  {
    DigitRunStops(d, c, rest);
    assert (d + [c] + rest)[..|d|] == d && (d + [c] + rest)[|d| + 1..] == rest;
  }

  lemma ReadLast(d: string, c: char)
    requires AllDigits(d) && !IsDigit(c)
    ensures ReadDuration(d + [c]) == InSeconds(Numeral(d), c)
  {
    ReadOne(d, c, "");
    assert d + [c] + "" == d + [c];
  }

  lemma ReadMinutes(d: string)
    requires AllDigits(d)
    ensures ReadDuration(d + "m") == Numeral(d) * 60
  {
    ReadLast(d, 'm');
  }

  lemma ReadMinutesSeconds(d: string, e: string)
    requires AllDigits(d) && AllDigits(e)
    ensures ReadDuration(d + "m" + (e + "s")) == Numeral(d) * 60 + Numeral(e)
  {
    ReadLast(e, 's');
    ReadOne(d, 'm', e + "s");
  }

  lemma ReadHours(h: nat, rest: string)
    ensures ReadDuration(Itoa(h) + "h" + rest) == h * 3600 + ReadDuration(rest)
  {
    NumeralOfItoa(h);
    ReadOne(Itoa(h), 'h', rest);
  }

  lemma ReadFields(h: nat, m: nat, s: nat)
    ensures ReadDuration(Print(h, m, s)) == h * 3600 + m * 60 + s
  {
    NumeralOfItoa(m);
    NumeralOfPad2(m);
    NumeralOfPad2(s);
    if h > 0 {
      ReadMinutes(Pad2(m));
      ReadMinutesSeconds(Pad2(m), Pad2(s));
      ReadHours(h, if s == 0 then Pad2(m) + "m" else Pad2(m) + "m" + (Pad2(s) + "s"));
    } else if m > 0 {
      ReadMinutes(Itoa(m));
      ReadMinutesSeconds(Itoa(m), Pad2(s));
    } else {
      NumeralOfItoa(s);
      ReadLast(Itoa(s), 's');
    }
  }

  lemma ReadZero()
    ensures ReadDuration("0s") == 0
  {
    ReadLast("0", 's');
    assert "0" + ['s'] == "0s";
    assert "0"[..0] == "";
  }

  /** Every printed duration can be read back. */
  lemma ReadInvertsPrint(n: nat)
    ensures ReadDuration(HumanDuration(n)) == n
  {
    if n == 0 {
      ReadZero();
    } else {
      var h, m, s := ClockFields(n);
      ReadFields(h, m, s);
    }
  }

  /**
    In the "video too long" message the printed limit and the printed duration differ
    whenever the numbers do; below 1 everything prints as 0s.
   */
  lemma PrintedDurationsDiffer(a: int, b: int)
    ensures HumanDuration(a) == HumanDuration(b) <==> a == b || (a <= 0 && b <= 0)
  {
    ReadInvertsPrint(if a < 0 then 0 else a);
    ReadInvertsPrint(if b < 0 then 0 else b);
  }
}

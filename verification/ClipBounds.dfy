/**
  Clip bounds of url.go: ParseClipBounds with its inner toSec, and the text that
  the web page prints for a number of seconds.
 */
module ClipBounds {
  import opened Options
  import opened Text

  /** A field that Atoi accepts and that lies in 0 .. limit. */
  function Field(s: string, limit: int): (r: Option<int>)
    ensures r.Some? ==> 0 <= r.value <= limit && Atoi(s) == r
  {
    match Atoi(s)
    case None => None
    case Some(v) => if 0 <= v <= limit then Some(v) else None
  }

  /** The number of seconds that a non-empty clock text denotes, without any bound on its size. */
  function ClockValue(parts: seq<string>): (r: Option<int>)
    ensures r.Some? ==> r.value >= 0
  {
    if |parts| == 3 then
      match (Field(parts[0], MAX_INT64), Field(parts[1], 59), Field(parts[2], 59))
      case (Some(h), Some(m), Some(s)) => Some(h * 3600 + m * 60 + s)
      case _ => None
    else if |parts| == 2 then
      match (Field(parts[0], MAX_INT64), Field(parts[1], 59))
      case (Some(m), Some(s)) => Some(m * 60 + s)
      case _ => None
    else None
  }

  /** The seconds denoted by a bound: the empty text stands for 0. */
  function Seconds(t: string): (r: Option<int>)
    ensures r.Some? ==> r.value >= 0
  {
    var t := TrimSpace(t);
    if t == "" then Some(0) else ClockValue(Split(t, ':'))
  }

  /** h*3600 + m*60 + s, every product and every sum in int64. */
  function Total64(h: int, m: int, s: int): int {
    Wrap64(Wrap64(Wrap64(h * 3600) + Wrap64(m * 60)) + s)
  }

  function ClockValue64(parts: seq<string>): Option<int> {
    if |parts| == 3 then
      match (Field(parts[0], MAX_INT64), Field(parts[1], 59), Field(parts[2], 59))
      case (Some(h), Some(m), Some(s)) => Some(Total64(h, m, s))
      case _ => None
    else if |parts| == 2 then
      match (Field(parts[0], MAX_INT64), Field(parts[1], 59))
      case (Some(m), Some(s)) => Some(Total64(0, m, s))
      case _ => None
    else None
  }

  /** toSec. */
  function ToSec(t: string): Option<int> {
    var t := TrimSpace(t);
    if t == "" then Some(0) else ClockValue64(Split(t, ':'))
  }

  /** ParseClipBounds; a maximum or a total of 0 or less means unknown. */
  function ParseClipBounds(start: string, end: string, maxSeconds: int, total: int): Option<(int, int)> {
    match (ToSec(start), ToSec(end))
    case (Some(ss), Some(ee)) =>
      if ee > 0 && ee <= ss then None
      else if total > 0 && ss >= total then None
      else if total > 0 && ee > 0 && ee > total then None
      else
        var clipLen := if ee > 0 then Wrap64(ee - ss) else if total > 0 then Wrap64(total - ss) else 0;
        if maxSeconds > 0 && clipLen > maxSeconds then None else Some((ss, ee))
    case _ => None
  }

  /** Wrapping the terms before adding them changes nothing in the end. */
  lemma WrapAbsorbs(a: int, b: int)
    ensures Wrap64(Wrap64(a) + b) == Wrap64(a + b)
  {
  }

  lemma TotalWrapsOnce(h: int, m: int, s: int)
    ensures Total64(h, m, s) == Wrap64(h * 3600 + m * 60 + s)
  {
    WrapAbsorbs(h * 3600, Wrap64(m * 60));
    WrapAbsorbs(m * 60, h * 3600);
    WrapAbsorbs(h * 3600 + m * 60, s);
  }

  /** The exact number, if any, as an int64. */
  function Wrapped(n: Option<int>): Option<int> {
    match n
    case None => None
    case Some(v) => Some(Wrap64(v))
  }

  lemma ClockWrapsOnce(parts: seq<string>)
    ensures ClockValue64(parts) == Wrapped(ClockValue(parts))
  {
    if |parts| == 3 {
      match (Field(parts[0], MAX_INT64), Field(parts[1], 59), Field(parts[2], 59))
      case (Some(h), Some(m), Some(s)) => TotalWrapsOnce(h, m, s);
      case _ =>
    } else if |parts| == 2 {
      match (Field(parts[0], MAX_INT64), Field(parts[1], 59))
      case (Some(m), Some(s)) => TotalWrapsOnce(0, m, s);
      case _ =>
    }
  }

  /** toSec yields the exact number of seconds, wrapped once, however often the sum wraps on the way. */
  lemma ToSecWrapsOnce(t: string)
    ensures ToSec(t) == Wrapped(Seconds(t))
  {
    ClockWrapsOnce(Split(TrimSpace(t), ':'));
  }

  /** Neither bound denotes more seconds than an int64 holds. */
  predicate NoOverflow(start: string, end: string) {
    && (Seconds(start).Some? ==> Seconds(start).value <= MAX_INT64)
    && (Seconds(end).Some? ==> Seconds(end).value <= MAX_INT64)
  }

  /** What a clip should satisfy; an end of 0 means "to the end of the video". */
  predicate ProperClip(ss: int, ee: int, maxSeconds: int, total: int) {
    && 0 <= ss && 0 <= ee
    && (ee > 0 ==> ss < ee)
    && (total > 0 ==> ss < total && ee <= total)
    && (maxSeconds > 0 && ee > 0 ==> ee - ss <= maxSeconds)
    && (maxSeconds > 0 && ee == 0 && total > 0 ==> total - ss <= maxSeconds)
  }

  /**
    Without overflow the check is exact: it accepts precisely the readable bounds that
    denote a proper clip, and returns the seconds they denote.
   */
  lemma AcceptsExactlyProperClips(start: string, end: string, maxSeconds: int, total: int)
    requires NoOverflow(start, end) && total <= MAX_INT64
    ensures ParseClipBounds(start, end, maxSeconds, total) ==
      if Seconds(start).Some? && Seconds(end).Some?
         && ProperClip(Seconds(start).value, Seconds(end).value, maxSeconds, total)
      then Some((Seconds(start).value, Seconds(end).value)) else None
  {
    ToSecWrapsOnce(start);
    ToSecWrapsOnce(end);
  }

  /** The same with the conditions written out; 0 stands for no limit, no known length and no end. */
  lemma AcceptanceInNumbers(start: string, end: string, maxSeconds: int, total: int)
    requires NoOverflow(start, end) && total <= MAX_INT64
    ensures var accepted := ParseClipBounds(start, end, maxSeconds, total).Some?;
      && (Seconds(start).None? || Seconds(end).None? ==> !accepted)
      && (Seconds(start).Some? && Seconds(end).Some? ==>
            var ss, ee := Seconds(start).value, Seconds(end).value;
            accepted <==>
              && (ee > 0 ==> ss < ee) && (total > 0 ==> ss < total && ee <= total)
              && (maxSeconds > 0 && ee > 0 ==> ee - ss <= maxSeconds)
              && (maxSeconds > 0 && ee == 0 && total > 0 ==> total - ss <= maxSeconds))
  {
    AcceptsExactlyProperClips(start, end, maxSeconds, total);
  }

  /** What an accepted request is told is right exactly when neither bound overflows. */
  lemma AcceptedIsRightIffNoOverflow(start: string, end: string, maxSeconds: int, total: int)
    requires total <= MAX_INT64 && ParseClipBounds(start, end, maxSeconds, total).Some?
    ensures Seconds(start).Some? && Seconds(end).Some?
    ensures var (ss, ee) := ParseClipBounds(start, end, maxSeconds, total).value;
      (ss == Seconds(start).value && ee == Seconds(end).value && ProperClip(ss, ee, maxSeconds, total))
      <==> NoOverflow(start, end)
  {
    ToSecWrapsOnce(start);
    ToSecWrapsOnce(end);
  }

  /** toSec is right exactly when the denoted seconds fit in an int64. */
  lemma ToSecExactUnlessOverflow(t: string)
    requires Seconds(t).Some?
    ensures ToSec(t) == Seconds(t) <==> Seconds(t).value <= MAX_INT64
  {
    ToSecWrapsOnce(t);
  }

  // ---------------------------------------------------------------- round trip

  /** The clock text of `h` hours, `m` minutes and `s` seconds. */
  function LongClock(h: nat, m: nat, s: nat): string {
    Itoa(h) + ":" + (Pad2(m) + ":" + Pad2(s))
  }

  function ShortClock(m: nat, s: nat): string {
    Itoa(m) + ":" + Pad2(s)
  }

  /** formatDuration of the web page. */
  function FormatDuration(n: nat): string {
    if n / 3600 > 0 then LongClock(n / 3600, n % 3600 / 60, n % 60) else ShortClock(n % 3600 / 60, n % 60)
  }

  /** formatDuration writes seconds, and minutes after hours, with two digits. */
  lemma TwoDigitFields(n: nat)
    ensures var h, m, s := n / 3600, n % 3600 / 60, n % 60;
      && |Pad2(m)| == 2 && |Pad2(s)| == 2
      && FormatDuration(n) == if h > 0 then Itoa(h) + ":" + (Pad2(m) + ":" + Pad2(s)) else Itoa(m) + ":" + Pad2(s)
  {
    Pad2IsTwoDigits(n % 3600 / 60);
    Pad2IsTwoDigits(n % 60);
  }

  lemma NoSeparator(s: string)
    requires AllDigits(s)
    ensures ':' !in s
    ensures s != "" ==> !IsSpace(s[0]) && !IsSpace(s[|s| - 1])
  {
  }

  lemma ClockTextShort(a: string, b: string)
    requires a != "" && b != "" && AllDigits(a) && AllDigits(b)
    ensures TrimSpace(a + ":" + b) == a + ":" + b && Split(a + ":" + b, ':') == [a, b]
  {
    NoSeparator(a);
    NoSeparator(b);
    TrimOfTight(a + ":" + b);
    SplitFirst(a, b, ':');
    SplitOfTight(b, ':');
  }

  lemma ClockTextParts(a: string, b: string, c: string)
    requires a != "" && b != "" && c != "" && AllDigits(a) && AllDigits(b) && AllDigits(c)
    ensures var t := a + ":" + (b + ":" + c);
      TrimSpace(t) == t && Split(t, ':') == [a, b, c] && a + ":" + b + ":" + c == t
  {
    var t := a + ":" + (b + ":" + c);
    NoSeparator(a);
    NoSeparator(c);
    assert t[0] == a[0] && t[|t| - 1] == c[|c| - 1];
    TrimOfTight(t);
    ClockTextShort(b, c);
    SplitFirst(a, b + ":" + c, ':');
  }

  lemma FieldOfPrinted(n: nat, limit: int)
    requires 0 <= limit <= MAX_INT64
    ensures Field(Itoa(n), limit) == if n <= limit then Some(n) else None
    ensures Field(Pad2(n), limit) == if n <= limit then Some(n) else None
  {
    NumeralOfItoa(n);
    NumeralOfPad2(n);
    AtoiOfDigits(Itoa(n));
    AtoiOfDigits(Pad2(n));
  }

  lemma SecondsOfLongClock(a: string, b: string, c: string)
    requires a != "" && b != "" && c != "" && AllDigits(a) && AllDigits(b) && AllDigits(c)
    ensures Seconds(a + ":" + (b + ":" + c)) == ClockValue([a, b, c])
  {
    ClockTextParts(a, b, c);
  }

  lemma SecondsOfShortClock(a: string, b: string)
    requires a != "" && b != "" && AllDigits(a) && AllDigits(b)
    ensures Seconds(a + ":" + b) == ClockValue([a, b])
  {
    ClockTextShort(a, b);
  }

  lemma ClockOfFields(a: string, b: string, c: string, h: nat, m: nat, s: nat)
    requires Field(a, MAX_INT64) == (if h <= MAX_INT64 then Some(h) else None)
    requires Field(b, 59) == Some(m) && Field(c, 59) == Some(s)
    ensures ClockValue([a, b, c]) == if h <= MAX_INT64 then Some(h * 3600 + m * 60 + s) else None
    ensures ClockValue([a, c]) == if h <= MAX_INT64 then Some(h * 60 + s) else None
  {
  }

  lemma ReadLongClock(h: nat, m: nat, s: nat)
    requires m < 60 && s < 60
    ensures Seconds(LongClock(h, m, s)) ==
      if h <= MAX_INT64 then Some(h * 3600 + m * 60 + s) else None
  {
    SecondsOfLongClock(Itoa(h), Pad2(m), Pad2(s));
    FieldOfPrinted(h, MAX_INT64);
    FieldOfPrinted(m, 59);
    FieldOfPrinted(s, 59);
    ClockOfFields(Itoa(h), Pad2(m), Pad2(s), h, m, s);
  }

  lemma ReadShortClock(m: nat, s: nat)
    requires m < 60 && s < 60
    ensures Seconds(ShortClock(m, s)) == Some(m * 60 + s)
  {
    SecondsOfShortClock(Itoa(m), Pad2(s));
    FieldOfPrinted(m, MAX_INT64);
    FieldOfPrinted(m, 59);
    FieldOfPrinted(s, 59);
    ClockOfFields(Itoa(m), Itoa(m), Pad2(s), m, m, s);
  }

  /** The hours, minutes and seconds of a number of seconds. */
  lemma ClockFields(n: nat) returns (h: nat, m: nat, s: nat)
    ensures h == n / 3600 && m == n % 3600 / 60 && s == n % 60
    ensures m < 60 && s < 60 && n == h * 3600 + m * 60 + s
  {
    h, m, s := n / 3600, n % 3600 / 60, n % 60;
  }

  lemma ReadClock(t: string, n: nat, h: nat, m: nat, s: nat)
    requires n == h * 3600 + m * 60 + s && m < 60 && s < 60
    requires t == if h > 0 then LongClock(h, m, s) else ShortClock(m, s)
    ensures Seconds(t) == Some(n) || (Seconds(t).None? && n > 2 * MAX_INT64 + 1)
  {
    if h > 0 {
      ReadLongClock(h, m, s);
    } else {
      ReadShortClock(m, s);
    }
  }

  lemma ReadFormatted(n: nat)
    ensures Seconds(FormatDuration(n)) == Some(n) || (Seconds(FormatDuration(n)).None? && n > 2 * MAX_INT64 + 1)
  {
    var h, m, s := ClockFields(n);
    ReadClock(FormatDuration(n), n, h, m, s);
  }

  /** Reading back the printed duration gives the same seconds, exactly for those that fit in an int64. */
  lemma FormatThenParse(n: nat)
    ensures ToSec(FormatDuration(n)) == Some(n) <==> n <= MAX_INT64
  {
    ReadFormatted(n);
    ToSecOfSeconds(FormatDuration(n), n);
  }

  lemma ToSecOfSeconds(t: string, n: nat)
    requires Seconds(t) == Some(n) || (Seconds(t).None? && n > MAX_INT64)
    ensures ToSec(t) == Some(n) <==> n <= MAX_INT64
  {
    ToSecWrapsOnce(t);
  }

  /**
    Clock texts that denote just over an int64 are still accepted, as a negative start: for
    9223372036854775808 seconds, or 2562047788015215:30:08, the answer is not a proper clip.
   */
  lemma OverflowIsAccepted(n: nat)
    requires MAX_INT64 < n <= 2 * MAX_INT64 + 1
    ensures exists ss :: ParseClipBounds(FormatDuration(n), "", 0, 0) == Some((ss, 0)) && ss < 0
  {
    ReadFormatted(n);
    ToSecWrapsOnce(FormatDuration(n));
    WrapsToNegative(n);
    EmptyBound("");
    NoEnd(FormatDuration(n), "", 0, 0);
  }

  lemma NoEnd(start: string, end: string, maxSeconds: int, total: int)
    requires ToSec(start).Some? && ToSec(end) == Some(0) && maxSeconds <= 0 && total <= 0
    ensures ParseClipBounds(start, end, maxSeconds, total) == Some((ToSec(start).value, 0))
  {
  }

  lemma EmptyBound(t: string)
    requires t == ""
    ensures ToSec(t) == Some(0)
  {
  }

  lemma WrapsToNegative(n: int)
    requires MAX_INT64 < n <= 2 * MAX_INT64 + 1
    ensures Wrap64(n) < 0
  {
  }

  // ----------------------------------------------------- which texts are bounds

  lemma NumberText(p: string)
    requires Atoi(p).Some?
    ensures p != "" && ':' !in p && !IsSpace(p[0]) && !IsSpace(p[|p| - 1])
  {
    AtoiReadsDigits(p);
    assert p[0] in p && p[|p| - 1] in p;
  }

  lemma SpacedText(a: string, u: string, b: string)
    requires AllSpace(a) && AllSpace(b) && Tight(u)
    ensures TrimSpace(a + u + b) == u
  {
    SpaceIsIgnored(a, u, b);
    var c, d := TrimSplits(u);
    assert "" + u + "" == u;
    CoreUnique("", u, "", c, TrimSpace(u), d);
  }

  /** White space alone is the empty bound. */
  lemma SecondsOfSpace(a: string)
    requires AllSpace(a)
    ensures Seconds(a) == Some(0)
  {
    SpacedText(a, "", "");
    assert a + "" + "" == a;
  }

  /** A tight core between white space is read by its parts. */
  lemma SecondsOfCore(a: string, u: string, b: string, parts: seq<string>)
    requires AllSpace(a) && AllSpace(b) && u != "" && Tight(u) && Split(u, ':') == parts
    ensures Seconds(a + u + b) == ClockValue(parts)
  {
    SpacedText(a, u, b);
  }

  lemma ClockOfTwo(p: string, q: string)
    requires Atoi(p).Some? && Atoi(q).Some?
    ensures var m, s := Atoi(p).value, Atoi(q).value;
      ClockValue([p, q]) == if 0 <= m && 0 <= s <= 59 then Some(60 * m + s) else None
  {
    AtoiInRange(p);
  }

  lemma ClockOfThree(p: string, q: string, r: string)
    requires Atoi(p).Some? && Atoi(q).Some? && Atoi(r).Some?
    ensures var h, m, s := Atoi(p).value, Atoi(q).value, Atoi(r).value;
      ClockValue([p, q, r]) == if 0 <= h && 0 <= m <= 59 && 0 <= s <= 59 then Some(3600 * h + 60 * m + s) else None
  {
    AtoiInRange(p);
  }

  lemma AtoiInRange(p: string)
    requires Atoi(p).Some?
    ensures MIN_INT64 <= Atoi(p).value <= MAX_INT64
  {
  }

  lemma CoreOfTwo(p: string, q: string)
    requires Atoi(p).Some? && Atoi(q).Some?
    ensures var u := p + ":" + q; u != "" && Tight(u) && Split(u, ':') == [p, q]
  {
    NumberText(p);
    NumberText(q);
    SplitFirst(p, q, ':');
    SplitOfTight(q, ':');
  }

  lemma CoreOfThree(p: string, q: string, r: string)
    requires Atoi(p).Some? && Atoi(q).Some? && Atoi(r).Some?
    ensures var u := p + ":" + (q + ":" + r); u != "" && Tight(u) && Split(u, ':') == [p, q, r]
  {
    NumberText(p);
    CoreOfTwo(q, r);
    var v := q + ":" + r;
    SplitFirst(p, v, ':');
    assert (p + ":" + v)[|p + ":" + v| - 1] == v[|v| - 1];
  }

  /** Minutes and seconds, with white space around them or not. */
  lemma SecondsOfTwo(a: string, p: string, q: string, b: string)
    requires AllSpace(a) && AllSpace(b) && Atoi(p).Some? && Atoi(q).Some?
    ensures var m, s := Atoi(p).value, Atoi(q).value;
      Seconds(a + (p + ":" + q) + b) == if 0 <= m && 0 <= s <= 59 then Some(60 * m + s) else None
  {
    CoreOfTwo(p, q);
    SecondsOfCore(a, p + ":" + q, b, [p, q]);
    ClockOfTwo(p, q);
  }

  /** Hours, minutes and seconds. */
  lemma SecondsOfThree(a: string, p: string, q: string, r: string, b: string)
    requires AllSpace(a) && AllSpace(b) && Atoi(p).Some? && Atoi(q).Some? && Atoi(r).Some?
    ensures var h, m, s := Atoi(p).value, Atoi(q).value, Atoi(r).value;
      Seconds(a + (p + ":" + (q + ":" + r)) + b) ==
        if 0 <= h && 0 <= m <= 59 && 0 <= s <= 59 then Some(3600 * h + 60 * m + s) else None
  {
    CoreOfThree(p, q, r);
    SecondsOfCore(a, p + ":" + (q + ":" + r), b, [p, q, r]);
    ClockOfThree(p, q, r);
  }

  /** And nothing else is readable: every bound is one of these three, between white space. */
  lemma ReadableBounds(t: string) returns (a: string, parts: seq<string>, b: string)
    requires Seconds(t).Some?
    ensures AllSpace(a) && AllSpace(b) && forall i | 0 <= i < |parts| :: Atoi(parts[i]).Some?
    ensures |parts| == 0 || |parts| == 2 || |parts| == 3
    ensures t == a + (if |parts| == 0 then "" else if |parts| == 2 then parts[0] + ":" + parts[1]
                      else parts[0] + ":" + (parts[1] + ":" + parts[2])) + b
  {
    var u := TrimSpace(t);
    a, b := TrimSplits(t);
    parts := [];
    if u != "" {
      parts := Split(u, ':');
      SplitJoins(u, ':');
      forall i | 0 <= i < |parts| ensures Atoi(parts[i]).Some? {
        ReadableField(parts, i);
      }
      assert Join(parts, ':') == u;
      JoinShort(parts);
    }
  }

  lemma JoinShort(parts: seq<string>)
    ensures |parts| == 2 ==> Join(parts, ':') == parts[0] + ":" + parts[1]
    ensures |parts| == 3 ==> Join(parts, ':') == parts[0] + ":" + (parts[1] + ":" + parts[2])
  {
    if |parts| == 2 {
      assert Join(parts[1..], ':') == parts[1];
    }
    if |parts| == 3 {
      assert parts[1..][1..] == [parts[2]];
      assert Join(parts[1..], ':') == parts[1] + [':'] + Join(parts[1..][1..], ':');
    }
  }

  /** White space around a bound makes no difference. */
  lemma ToSecIgnoresSpace(a: string, t: string, b: string)
    requires AllSpace(a) && AllSpace(b)
    ensures ToSec(a + t + b) == ToSec(t) && Seconds(a + t + b) == Seconds(t)
  {
    SpaceIsIgnored(a, t, b);
  }

  // ------------------------------------------------------ what a bound contains

  predicate ClockChar(c: char) {
    IsSpace(c) || IsDigit(c) || IsSign(c) || c == ':'
  }

  lemma ReadableField(parts: seq<string>, i: nat)
    requires ClockValue(parts).Some? && i < |parts|
    ensures Atoi(parts[i]).Some?
  {
  }

  /** An accepted bound consists of digits, signs, colons and surrounding space only. */
  lemma AcceptedTextIsClock(t: string)
    requires Seconds(t).Some?
    ensures forall c | c in t :: ClockChar(c)
  {
    var u := TrimSpace(t);
    TrimDropsSpace(t);
    forall c | c in u ensures ClockChar(c) {
      if c != ':' {
        SplitKeepsText(u, ':', c);
        var parts := Split(u, ':');
        var i :| 0 <= i < |parts| && c in parts[i];
        ReadableField(parts, i);
        AtoiReadsDigits(parts[i]);
      }
    }
  }
}

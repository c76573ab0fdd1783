/**
  The string operations that url.go and api.go rely on: decimal numerals as
  printed by fmt and read by strconv.Atoi, strings.TrimSpace and strings.Split.
 */
module Text {
  import opened Options

  const MIN_INT64 := -0x8000_0000_0000_0000
  const MAX_INT64 := 0x7fff_ffff_ffff_ffff

  /** The int64 that two's-complement arithmetic leaves for an exact result. */
  function Wrap64(n: int): (r: int)
    ensures MIN_INT64 <= r <= MAX_INT64
    ensures (n - r) % 0x1_0000_0000_0000_0000 == 0
    ensures r == n <==> MIN_INT64 <= n <= MAX_INT64
  {
    (n - MIN_INT64) % 0x1_0000_0000_0000_0000 + MIN_INT64
  }

  // ------------------------------------------------------------------ numerals

  predicate IsDigit(c: char) {
    '0' <= c <= '9'
  }

  predicate AllDigits(s: string) {
    forall i | 0 <= i < |s| :: IsDigit(s[i])
  }

  function Digit(d: nat): (c: char)
    requires d < 10
    ensures IsDigit(c)
  {
    ('0' as int + d) as char
  }

  /** `%d` of a natural number. */
  function Itoa(n: nat): (s: string)
    ensures s != "" && AllDigits(s)
  {
    if n < 10 then [Digit(n)] else Itoa(n / 10) + [Digit(n % 10)]
  }

  /** `%02d` of a natural number, and padStart(2, '0') of its text. */
  function Pad2(n: nat): (s: string)
    ensures s != "" && AllDigits(s)
  {
    if n < 10 then "0" + Itoa(n) else Itoa(n)
  }

  function Numeral(s: string): nat
    requires AllDigits(s)
  {
    if s == "" then 0 else Numeral(s[..|s| - 1]) * 10 + (s[|s| - 1] as int - '0' as int)
  }

  lemma {:induction false} NumeralOfItoa(n: nat)
    ensures Numeral(Itoa(n)) == n
    decreases n
  {
    if n >= 10 {
      NumeralOfItoa(n / 10);
      assert Itoa(n)[..|Itoa(n)| - 1] == Itoa(n / 10);
    } else {
      assert Itoa(n)[..0] == "";
    }
  }

  lemma NumeralOfPad2(n: nat)
    ensures Numeral(Pad2(n)) == n
  {
    NumeralOfItoa(n);
    if n < 10 {
      assert Pad2(n)[..1] == "0";
      assert Numeral("0") == 0 by { assert "0"[..0] == ""; }
    }
  }

  /** Decimal notation, in its own words: no leading zero, and every digit stands for its value. */
  lemma {:induction false} ItoaIsDecimal(n: nat)
    ensures Itoa(0) == "0" && (n > 0 ==> Itoa(n)[0] != '0')
    ensures Itoa(10 * n + 7) == (if n == 0 then "7" else Itoa(n) + "7")
    decreases n
  {
    if n >= 10 {
      ItoaIsDecimal(n / 10);
    }
    assert (10 * n + 7) / 10 == n && (10 * n + 7) % 10 == 7;
  }

  lemma DigitsAreThemselves()
    ensures Itoa(1) == "1" && Itoa(2) == "2" && Itoa(3) == "3" && Itoa(4) == "4" && Itoa(5) == "5"
    ensures Itoa(6) == "6" && Itoa(7) == "7" && Itoa(8) == "8" && Itoa(9) == "9" && Itoa(10) == "10"
  {
    assert Itoa(10) == Itoa(1) + [Digit(0)];
  }

  /** Two digits below 100, and the plain numeral from there on. */
  lemma Pad2IsTwoDigits(n: nat)
    ensures n < 10 ==> Pad2(n) == "0" + Itoa(n) && |Pad2(n)| == 2
    ensures 10 <= n < 100 ==> Pad2(n) == Itoa(n) && |Pad2(n)| == 2
    ensures n >= 100 ==> Pad2(n) == Itoa(n)
  {
  }

  predicate IsSign(c: char) {
    c == '+' || c == '-'
  }

  /** strconv.Atoi on a 64-bit platform: an optional sign, at least one digit, and in range. */
  function Atoi(s: string): Option<int> {
    var digits := if s != "" && IsSign(s[0]) then s[1..] else s;
    if digits == "" || !AllDigits(digits) then None else
      var v: int := if s[0] == '-' then 0 - Numeral(digits) else Numeral(digits);
      if MIN_INT64 <= v <= MAX_INT64 then Some(v) else None
  }

  lemma AtoiReadsDigits(s: string)
    requires Atoi(s).Some?
    ensures forall c | c in s :: IsDigit(c) || IsSign(c)
  {
    assert forall i | 1 <= i < |s| :: s[i] == s[1..][i - 1];
  }

  lemma AtoiOfDigits(s: string)
    requires s != "" && AllDigits(s)
    ensures Atoi(s) == if Numeral(s) <= MAX_INT64 then Some(Numeral(s)) else None
  {
    assert IsDigit(s[0]);
  }

  /** strconv.Atoi, exactly: digits, or a sign and digits, that denote an int64. */
  lemma AtoiExact(s: string, v: int)
    ensures Atoi(s) == Some(v) <==>
      && MIN_INT64 <= v <= MAX_INT64
      && exists digits: string | digits != "" && AllDigits(digits) ::
           (s == digits && v == Numeral(digits)) || (s == "+" + digits && v == Numeral(digits))
           || (s == "-" + digits && v == 0 - Numeral(digits))
  {
    var rest := if s != "" && IsSign(s[0]) then s[1..] else s;
    if Atoi(s) == Some(v) {
      assert rest != "" && AllDigits(rest);
      assert s == rest || s == [s[0]] + rest;
    }
    forall digits: string | digits != "" && AllDigits(digits)
      ensures s == digits || s == "+" + digits || s == "-" + digits ==> rest == digits
    {
      assert IsDigit(digits[0]);
      assert ("+" + digits)[1..] == digits && ("-" + digits)[1..] == digits;
    }
  }

  // ------------------------------------------------------------------ trimming

  /** unicode.IsSpace. */
  predicate IsSpace(c: char) {
    var n := c as int;
    || 9 <= n <= 13 || n == 32 || n == 0x85 || n == 0xA0 || n == 0x1680 || 0x2000 <= n <= 0x200A
    || n == 0x2028 || n == 0x2029 || n == 0x202F || n == 0x205F || n == 0x3000
  }

  /** Among the ASCII characters: the blank, and tab to carriage return. */
  lemma AsciiSpaces(c: char)
    requires (c as int) < 128
    ensures IsSpace(c) <==> c == ' ' || c == '\t' || c == '\n' || c == '\r' || c as int == 11 || c as int == 12
  {
  }

  function TrimLeft(s: string): string {
    if s != "" && IsSpace(s[0]) then TrimLeft(s[1..]) else s
  }

  function TrimRight(s: string): string {
    if s != "" && IsSpace(s[|s| - 1]) then TrimRight(s[..|s| - 1]) else s
  }

  function TrimSpace(s: string): string {
    TrimRight(TrimLeft(s))
  }

  lemma {:induction false} TrimLeftDropsSpace(s: string)
    ensures forall c | c in s :: IsSpace(c) || c in TrimLeft(s)
    decreases |s|
  {
    if s != "" && IsSpace(s[0]) {
      TrimLeftDropsSpace(s[1..]);
      assert s == [s[0]] + s[1..];
    }
  }

  lemma {:induction false} TrimRightDropsSpace(s: string)
    ensures forall c | c in s :: IsSpace(c) || c in TrimRight(s)
    decreases |s|
  {
    if s != "" && IsSpace(s[|s| - 1]) {
      TrimRightDropsSpace(s[..|s| - 1]);
      assert s == s[..|s| - 1] + [s[|s| - 1]];
    }
  }

  /** Only white space is trimmed away. */
  lemma TrimDropsSpace(s: string)
    ensures forall c | c in s :: IsSpace(c) || c in TrimSpace(s)
  {
    TrimLeftDropsSpace(s);
    TrimRightDropsSpace(TrimLeft(s));
  }

  lemma TrimOfTight(s: string)
    requires s != "" && !IsSpace(s[0]) && !IsSpace(s[|s| - 1])
    ensures TrimSpace(s) == s
  {
  }

  predicate AllSpace(s: string) {
    forall i | 0 <= i < |s| :: IsSpace(s[i])
  }

  predicate Tight(s: string) {
    s != "" ==> !IsSpace(s[0]) && !IsSpace(s[|s| - 1])
  }

  lemma {:induction false} TrimLeftSplits(s: string) returns (k: nat)
    ensures k <= |s| && TrimLeft(s) == s[k..] && AllSpace(s[..k]) && (k < |s| ==> !IsSpace(s[k]))
    decreases |s|
  {
    k := 0;
    if s != "" && IsSpace(s[0]) {
      var m := TrimLeftSplits(s[1..]);
      k := m + 1;
      assert s[1..][m..] == s[k..];
      assert forall i | 1 <= i < k :: s[i] == s[1..][..m][i - 1];
    }
  }

  lemma {:induction false} TrimRightSplits(s: string) returns (k: nat)
    ensures k <= |s| && TrimRight(s) == s[..k] && AllSpace(s[k..]) && (k > 0 ==> !IsSpace(s[k - 1]))
    decreases |s|
  {
    k := |s|;
    if s != "" && IsSpace(s[|s| - 1]) {
      k := TrimRightSplits(s[..|s| - 1]);
      assert s[..|s| - 1][..k] == s[..k];
      assert forall i | k <= i < |s| - 1 :: s[i] == s[..|s| - 1][k..][i - k];
    }
  }

  /** A text is white space, a core that is tight, and white space; the core is what TrimSpace returns. */
  lemma TrimSplits(s: string) returns (a: string, b: string)
    ensures s == a + TrimSpace(s) + b && AllSpace(a) && AllSpace(b) && Tight(TrimSpace(s))
  {
    var i := TrimLeftSplits(s);
    var j := TrimRightSplits(s[i..]);
    a, b := s[..i], s[i..][j..];
    assert s == s[..i] + (s[i..][..j] + s[i..][j..]);
  }

  /** There is only one tight core. */
  lemma CoreUnique(a: string, u: string, b: string, a': string, u': string, b': string)
    requires a + u + b == a' + u' + b' && AllSpace(a) && AllSpace(b) && AllSpace(a') && AllSpace(b')
    requires Tight(u) && Tight(u')
    ensures u == u'
  {
    var s := a + u + b;
    assert forall i | 0 <= i < |a| :: s[i] == a[i];
    assert forall i | 0 <= i < |u| :: s[|a| + i] == u[i];
    assert forall i | 0 <= i < |b| :: s[|a| + |u| + i] == b[i];
    assert forall i | 0 <= i < |a'| :: s[i] == a'[i];
    assert forall i | 0 <= i < |u'| :: s[|a'| + i] == u'[i];
    assert forall i | 0 <= i < |b'| :: s[|a'| + |u'| + i] == b'[i];
    CoreEmpty(s, a, u, b, a', u', b');
    if u != "" && u' != "" {
      FirstInk(s, a, u, b, a', u', b');
      assert u == s[|a|..|a| + |u|] && u' == s[|a'|..|a'| + |u'|];
    }
  }

  lemma CoreEmpty(s: string, a: string, u: string, b: string, a': string, u': string, b': string)
    requires s == a + u + b == a' + u' + b' && AllSpace(a) && AllSpace(b) && AllSpace(a') && AllSpace(b')
    requires Tight(u) && Tight(u')
    ensures u == "" <==> u' == ""
  {
    SpaceThroughout(s, a, u, b);
    SpaceThroughout(s, a', u', b');
  }

  lemma SpaceThroughout(s: string, a: string, u: string, b: string)
    requires s == a + u + b && AllSpace(a) && AllSpace(b) && Tight(u)
    ensures u == "" <==> AllSpace(s)
  {
    if u == "" {
      forall i | 0 <= i < |s| ensures IsSpace(s[i]) {
        assert s[i] == if i < |a| then a[i] else b[i - |a|];
      }
    } else {
      assert s[|a|] == u[0];
    }
  }

  lemma FirstInk(s: string, a: string, u: string, b: string, a': string, u': string, b': string)
    requires s == a + u + b == a' + u' + b' && AllSpace(a) && AllSpace(b) && AllSpace(a') && AllSpace(b')
    requires Tight(u) && Tight(u') && u != "" && u' != ""
    ensures |a| == |a'| && |u| == |u'|
  {
    var e, e' := |a| + |u|, |a'| + |u'|;
    assert s[|a|] == u[0] && s[|a'|] == u'[0] && s[e - 1] == u[|u| - 1] && s[e' - 1] == u'[|u'| - 1];
    assert forall i | 0 <= i < |a| :: s[i] == a[i];
    assert forall i | 0 <= i < |a'| :: s[i] == a'[i];
    assert forall i | e <= i < |s| :: s[i] == b[i - e];
    assert forall i | e' <= i < |s| :: s[i] == b'[i - e'];
    assert |a| == |a'| && e == e';
  }

  lemma AllSpaceJoins(a: string, b: string)
    requires AllSpace(a) && AllSpace(b)
    ensures AllSpace(a + b)
  {
  }

  /** White space around a text makes no difference to TrimSpace. */
  lemma SpaceIsIgnored(a: string, s: string, b: string)
    requires AllSpace(a) && AllSpace(b)
    ensures TrimSpace(a + s + b) == TrimSpace(s)
  {
    var c, d := TrimSplits(s);
    var e, f := TrimSplits(a + s + b);
    var u := TrimSpace(s);
    assert a + s + b == (a + c) + u + (d + b);
    AllSpaceJoins(a, c);
    AllSpaceJoins(d, b);
    CoreUnique(a + c, u, d + b, e, TrimSpace(a + s + b), f);
  }

  // ----------------------------------------------------------------- splitting

  /** strings.Join on a one-character separator. */
  function Join(parts: seq<string>, sep: char): string
    requires parts != []
  {
    if |parts| == 1 then parts[0] else parts[0] + [sep] + Join(parts[1..], sep)
  }

  /** strings.Split, exactly: its parts are free of separators, and joining them gives the text back. */
  lemma {:induction false} SplitJoins(s: string, sep: char)
    ensures Join(Split(s, sep), sep) == s
    ensures forall i | 0 <= i < |Split(s, sep)| :: sep !in Split(s, sep)[i]
    decreases |s|
  {
    if s != "" {
      var parts, rest := Split(s, sep), Split(s[1..], sep);
      SplitJoins(s[1..], sep);
      assert s == [s[0]] + s[1..];
      if s[0] == sep {
        assert parts[1..] == rest;
        assert forall i | 1 <= i < |parts| :: parts[i] == rest[i - 1];
      } else {
        assert parts[1..] == rest[1..];
        assert forall i | 1 <= i < |parts| :: parts[i] == rest[i];
      }
    }
  }

  lemma {:induction false} SplitOfJoin(parts: seq<string>, sep: char)
    requires parts != [] && forall i | 0 <= i < |parts| :: sep !in parts[i]
    ensures Split(Join(parts, sep), sep) == parts
    decreases |parts|
  {
    if |parts| == 1 {
      SplitOfTight(parts[0], sep);
    } else {
      SplitOfJoin(parts[1..], sep);
      SplitFirst(parts[0], Join(parts[1..], sep), sep);
    }
  }

  /** strings.Split on a one-character separator. */
  function Split(s: string, sep: char): (parts: seq<string>)
    ensures |parts| >= 1
  {
    if s == "" then [""]
    else
      var rest := Split(s[1..], sep);
      if s[0] == sep then [""] + rest else [[s[0]] + rest[0]] + rest[1..]
  }

  /** Only separators are lost by splitting. */
  lemma {:induction false} SplitKeepsText(s: string, sep: char, c: char)
    requires c in s && c != sep
    ensures exists i :: 0 <= i < |Split(s, sep)| && c in Split(s, sep)[i]
    decreases |s|
  {
    var parts, rest := Split(s, sep), Split(s[1..], sep);
    if c == s[0] {
      assert c in parts[0];
    } else {
      assert s == [s[0]] + s[1..];
      SplitKeepsText(s[1..], sep, c);
      var i :| 0 <= i < |rest| && c in rest[i];
      var k := if s[0] == sep then i + 1 else i;
      assert c in parts[k];
    }
  }

  lemma {:induction false} SplitOfTight(s: string, sep: char)
    requires sep !in s
    ensures Split(s, sep) == [s]
    decreases |s|
  {
    if s != "" {
      SplitOfTight(s[1..], sep);
      assert s == [s[0]] + s[1..];
    }
  }

  lemma {:induction false} SplitFirst(a: string, b: string, sep: char)
    requires sep !in a
    ensures Split(a + [sep] + b, sep) == [a] + Split(b, sep)
    decreases |a|
  {
    if a == "" {
      assert (a + [sep] + b)[1..] == b;
    } else {
      var t := a + [sep] + b;
      assert t[1..] == a[1..] + [sep] + b;
      SplitFirst(a[1..], b, sep);
      assert a == [a[0]] + a[1..];
    }
  }
}

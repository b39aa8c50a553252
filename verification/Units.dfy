/**
 onedriveui/units.py: the bandwidth conversion, rclone's size strings, and the scaling of byte
 counts.  Strings are ASCII.  The number of a size is rounded to a float as Python rounds it, and
 one that has no float raises; everywhere else `float` is exact rational arithmetic.
 */
module Units {
  import opened Basics

  const KB := 1000
  const KIB := 1024
  const MIB := 0x10_0000
  const GIB := 0x4000_0000
  const TIB := 0x100_0000_0000
  const PIB := 0x4_0000_0000_0000
  const EIB := 0x1000_0000_0000_0000

  // ---------------------------------------------------------------------------------------------
  // Rounding

  /** Python's `round` of a quotient: to the nearest integer, ties to the even one. */
  function RoundHalfEven(n: nat, d: nat): nat
    requires d > 0
  {
    var q, r := n / d, n % d;
    if 2 * r < d || (2 * r == d && q % 2 == 0) then q else q + 1
  }

  function KbToKib(kb: int): nat {
    if kb <= 0 then 0 else RoundHalfEven(kb * KB, KIB)
  }

  function KibToKb(kib: int): nat {
    if kib <= 0 then 0 else RoundHalfEven(kib * KIB, KB)
  }

  /** The rounded quotient is nearest to the exact one, and of two as near it is the even one. */
  lemma RoundNearest(n: nat, d: nat)
    requires d > 0
    ensures var off: int := 2 * (d * RoundHalfEven(n, d) - n);
      0 <= off + d <= 2 * d && (off + d == 0 || off == d ==> RoundHalfEven(n, d) % 2 == 0)
  {
    var q, r := n / d, n % d;
    assert n == d * q + r;
    assert d * (q + 1) == d * q + d;
  }

  /** Of two KiB values as near as each other it is the even one. */
  lemma NearestKib(kb: nat)
    ensures var off := 2 * (KIB * KbToKib(kb) - KB * kb);
      -KIB <= off <= KIB && (off == -KIB || off == KIB ==> KbToKib(kb) % 2 == 0)
  {
    RoundNearest(kb * KB, KIB);
    hide RoundHalfEven;
  }

  lemma NothingBelowZero(x: int)
    requires x <= 0
    ensures KbToKib(x) == 0 && KibToKb(x) == 0
  {
  }

  lemma NearestKb(kib: nat)
    ensures -KB < 2 * (KB * KibToKb(kib) - KIB * kib) < KB
  {
    var r := kib * KIB % KB;
    assert 2 * r != KB by {
      assert kib * KIB == KB * (kib * KIB / KB) + r;
    }
  }

  /** A limit read back from rclone and sent again is unchanged. */
  lemma EchoIsStable(kib: nat)
    ensures KbToKib(KibToKb(kib)) == kib
  {
    NearestKb(kib);
    NearestKib(KibToKb(kib));
  }

  /** So no two KiB values share a KB value, although the documentation fears they could. */
  lemma KibToKbInjective(a: nat, b: nat)
    requires KibToKb(a) == KibToKb(b)
    ensures a == b
  {
    EchoIsStable(a);
    EchoIsStable(b);
  }

  /** The other way round the setting is off by at most one. */
  lemma EchoWithinOne(kb: nat)
    ensures -1 <= KibToKb(KbToKib(kb)) - kb <= 1
  {
    NearestKib(kb);
    NearestKb(KbToKib(kb));
  }

  lemma ConversionsMonotone(a: int, b: int)
    requires a <= b
    ensures KbToKib(a) <= KbToKib(b) && KibToKb(a) <= KibToKb(b)
  {
    if a > 0 {
      RoundMonotone(a * KB, b * KB, KIB);
      RoundMonotone(a * KIB, b * KIB, KB);
    }
  }

  lemma DivMonotone(m: nat, n: nat, d: nat)
    requires d > 0 && m <= n
    ensures m / d <= n / d
  {
    var gap := m / d - n / d;
    assert m == d * (m / d) + m % d && n == d * (n / d) + n % d;
    assert d * gap == d * (m / d) - d * (n / d) < d;
    Below(d, gap);
  }

  lemma Below(d: nat, gap: int)
    requires d * gap < d
    ensures gap <= 0
  {
  }

  lemma RoundMonotone(m: nat, n: nat, d: nat)
    requires d > 0 && m <= n
    ensures RoundHalfEven(m, d) <= RoundHalfEven(n, d)
  {
    var q, p := m / d, n / d;
    assert m == d * q + m % d && n == d * p + n % d;
    DivMonotone(m, n, d);
    if q < p {
      assert RoundHalfEven(m, d) <= q + 1 <= p;
    }
  }

  // ---------------------------------------------------------------------------------------------
  // Decimal digits

  function DigitChar(d: nat): char
    requires d < 10
  {
    (('0' as int) + d) as char
  }

  predicate IsDigit(c: char) {
    '0' <= c <= '9'
  }

  function DigitValue(c: char): nat
    requires IsDigit(c)
  {
    c as int - '0' as int
  }

  function Digits(n: nat): (text: string)
    ensures text != "" && forall c :: c in text ==> IsDigit(c)
  {
    if n < 10 then [DigitChar(n)] else Digits(n / 10) + [DigitChar(n % 10)]
  }

  function NumberOf(text: string): nat
    requires forall c :: c in text ==> IsDigit(c)
  {
    if text == "" then 0
    else 10 * NumberOf(text[..|text| - 1]) + DigitValue(text[|text| - 1])
  }

  lemma {:induction false} DigitsRoundTrip(n: nat)
    ensures NumberOf(Digits(n)) == n
  {
    if n < 10 {
      assert Digits(n)[..0] == "";
    } else {
      DigitsRoundTrip(n / 10);
      assert Digits(n)[..|Digits(n)| - 1] == Digits(n / 10);
    }
  }

  // ---------------------------------------------------------------------------------------------
  // Floats

  const MANTISSA: nat := 0x20_0000_0000_0000   // 2^53

  /** The nearest number with a 53-bit mantissa, for numbers with an exponent of `unit` or more. */
  function ToFloat(n: nat, unit: nat): nat
    requires unit > 0
    decreases n - MANTISSA * unit
  {
    if n < MANTISSA * unit then RoundHalfEven(n, unit) * unit else ToFloat(n, 2 * unit)
  }

  /** `float` of a whole number, were there no largest float. */
  function Float(n: nat): nat {
    ToFloat(n, 1)
  }

  function Power(base: nat, k: nat): (p: nat)
    ensures base > 0 ==> p > 0
  {
    if k == 0 then 1 else base * Power(base, k - 1)
  }

  /** 2^1024: what rounds to it or beyond has no float. */
  const FLOAT_LIMIT: nat := MANTISSA * Power(2, 971)

  lemma {:induction false} PowersGrow(j: nat, k: nat)
    requires j <= k
    ensures 0 < Power(2, j) <= Power(2, k)
  {
    if j < k {
      PowersGrow(j, k - 1);
    }
  }

  lemma {:induction false} ToFloatAtLeast(n: nat, unit: nat)
    requires unit > 0 && n >= MANTISSA * unit
    ensures ToFloat(n, unit) >= MANTISSA * unit
    decreases n - MANTISSA * unit
  {
    if n < MANTISSA * (2 * unit) {
      var q := n / (2 * unit);
      assert n == 2 * unit * q + n % (2 * unit);
      QuotientAtLeast(n, 2 * unit, q, MANTISSA / 2);
      Scale(MANTISSA / 2, RoundHalfEven(n, 2 * unit), 2 * unit);
    } else {
      ToFloatAtLeast(n, 2 * unit);
    }
  }

  lemma QuotientAtLeast(n: nat, d: nat, q: nat, least: nat)
    requires d > 0 && n == d * q + n % d && n >= least * d
    ensures q >= least
  {
    if q < least {
      Scale(q + 1, least, d);
      assert false;
    }
  }

  lemma Scale(a: nat, b: nat, m: nat)
    requires a <= b
    ensures a * m <= b * m
  {
  }

  /** Which whole numbers have no float: those from half a step below 2^1024 on. */
  lemma {:induction false} NoFloatIff(n: nat, k: nat)
    requires k <= 971
    ensures ToFloat(n, Power(2, k)) >= FLOAT_LIMIT <==> n >= FLOAT_LIMIT - Power(2, 970)
    decreases 971 - k
  {
    var unit := Power(2, k);
    PowersGrow(k, 971);
    assert Power(2, 971) == 2 * Power(2, 970);
    if n >= MANTISSA * unit {
      if k < 971 {
        assert Power(2, k + 1) == 2 * unit;
        NoFloatIff(n, k + 1);
      } else {
        ToFloatAtLeast(n, unit);
      }
    } else {
      LastStep(n, k, RoundHalfEven(n, unit));
    }
  }

  lemma LastStep(n: nat, k: nat, rounded: nat)
    requires k <= 971 && n < MANTISSA * Power(2, k) && Power(2, k) > 0
    requires rounded == RoundHalfEven(n, Power(2, k))
    ensures rounded * Power(2, k) >= FLOAT_LIMIT <==> n >= FLOAT_LIMIT - Power(2, 970)
  {
    var unit := Power(2, k);
    RoundedBelow(n, unit);
    Scale(rounded, MANTISSA, unit);
    assert Power(2, 971) == 2 * Power(2, 970);
    if k < 971 {
      PowersGrow(k, 970);
      PowersGrow(0, k);
      Scale(unit, Power(2, 970), MANTISSA);
    } else if rounded < MANTISSA {
      Scale(rounded, MANTISSA - 1, unit);
    }
  }

  /** Rounding reaches the mantissa's end from half a step below it on, ties going to the even end. */
  lemma RoundedBelow(n: nat, unit: nat)
    requires unit > 0 && n < MANTISSA * unit
    ensures RoundHalfEven(n, unit) <= MANTISSA
    ensures RoundHalfEven(n, unit) == MANTISSA <==> 2 * n >= (2 * MANTISSA - 1) * unit
  {
    var q, r := n / unit, n % unit;
    assert n == unit * q + r;
    if q >= MANTISSA {
      Scale(MANTISSA, q, unit);
      assert false;
    }
    if q < MANTISSA - 1 {
      Scale(q + 2, MANTISSA, unit);
    }
  }

  lemma FloatExact(n: nat)
    requires n <= MANTISSA
    ensures Float(n) == n
  {
    if n < MANTISSA {
      assert n / 1 == n && n % 1 == 0;
    } else {
      assert ToFloat(n, 1) == ToFloat(n, 2) == RoundHalfEven(n, 2) * 2;
    }
  }

  // ---------------------------------------------------------------------------------------------
  // parse_size

  predicate IsSpace(c: char) {
    9 <= c as int <= 13 || 28 <= c as int <= 32
  }

  function SkipSpace(s: string): (rest: string)
    ensures |rest| <= |s|
  {
    if s != "" && IsSpace(s[0]) then SkipSpace(s[1..]) else s
  }

  function TrimEnd(s: string): string {
    if s != "" && IsSpace(s[|s| - 1]) then TrimEnd(s[..|s| - 1]) else s
  }

  function Strip(s: string): string {
    TrimEnd(SkipSpace(s))
  }

  predicate Blank(s: string) {
    forall i :: 0 <= i < |s| ==> IsSpace(s[i])
  }

  predicate Trimmed(s: string) {
    s == "" || (!IsSpace(s[0]) && !IsSpace(s[|s| - 1]))
  }

  lemma {:induction false} SkipSpaceIs(s: string) returns (a: string)
    ensures s == a + SkipSpace(s) && Blank(a)
    ensures SkipSpace(s) == "" || !IsSpace(SkipSpace(s)[0])
  {
    a := "";
    if s != "" && IsSpace(s[0]) {
      var b := SkipSpaceIs(s[1..]);
      a := [s[0]] + b;
    }
  }

  lemma {:induction false} TrimEndIs(s: string) returns (b: string)
    ensures s == TrimEnd(s) + b && Blank(b)
    ensures TrimEnd(s) == "" || !IsSpace(TrimEnd(s)[|TrimEnd(s)| - 1])
  {
    b := "";
    if s != "" && IsSpace(s[|s| - 1]) {
      var a := TrimEndIs(s[..|s| - 1]);
      b := a + [s[|s| - 1]];
    }
  }

  /** What `strip` takes away is blank, and it takes all of it. */
  lemma StripIs(s: string) returns (a: string, b: string)
    ensures s == a + Strip(s) + b && Blank(a) && Blank(b) && Trimmed(Strip(s))
  {
    a := SkipSpaceIs(s);
    b := TrimEndIs(SkipSpace(s));
    var t := Strip(s);
    assert SkipSpace(s) == t + b;
    assert t != "" ==> t[0] == SkipSpace(s)[0];
  }

  lemma {:induction false} StripOf(a: string, s: string, b: string)
    requires Blank(a) && Blank(b) && Trimmed(s)
    ensures Strip(a + s + b) == s
  {
    if s != "" {
      SkipBlank(a, s + b);
      assert a + s + b == a + (s + b);
      assert SkipSpace(s + b) == s + b;
      TrimBlank(s, b);
    } else {
      SkipAll(a + b);
      assert a + s + b == a + b;
    }
  }

  lemma {:induction false} SkipBlank(a: string, s: string)
    requires Blank(a)
    ensures SkipSpace(a + s) == SkipSpace(s)
  {
    if a == "" {
      assert a + s == s;
    } else {
      assert (a + s)[1..] == a[1..] + s;
      SkipBlank(a[1..], s);
    }
  }

  lemma {:induction false} SkipAll(s: string)
    requires Blank(s)
    ensures SkipSpace(s) == ""
  {
    SkipBlank(s, "");
    assert s + "" == s;
  }

  lemma {:induction false} TrimBlank(s: string, b: string)
    requires Blank(b) && s != "" && !IsSpace(s[|s| - 1])
    ensures TrimEnd(s + b) == s
  {
    if b == "" {
      assert s + b == s;
    } else {
      assert (s + b)[..|s + b| - 1] == s + b[..|b| - 1];
      TrimBlank(s, b[..|b| - 1]);
    }
  }

  lemma BlankIff(s: string)
    ensures Strip(s) == "" <==> Blank(s)
  {
    var a, b := StripIs(s);
    if Blank(s) {
      StripOf(s, "", "");
      assert s + "" + "" == s;
    }
  }

  /** How many of the first characters are digits. */
  function Run(s: string): (n: nat)
    ensures n <= |s| && forall i :: 0 <= i < n ==> IsDigit(s[i])
  {
    if s != "" && IsDigit(s[0]) then 1 + Run(s[1..]) else 0
  }

  function Lower(s: string): string {
    seq(|s|, i requires 0 <= i < |s| =>
      if 'A' <= s[i] <= 'Z' then (s[i] as int + 32) as char else s[i])
  }

  /** Each capital of ASCII becomes its small letter, and nothing else changes. */
  lemma LowerIs(s: string, i: nat)
    requires i < |s|
    ensures |Lower(s)| == |s|
    ensures if 65 <= s[i] as int <= 90 then Lower(s)[i] - s[i] == 'a' - 'A' else Lower(s)[i] == s[i]
  {
  }

  /** The multiplier of a suffix letter, if it is one. */
  function Multiplier(c: char): Option<nat> {
    if c == 'k' || c == 'K' then Some(KIB)
    else if c == 'm' || c == 'M' then Some(MIB)
    else if c == 'g' || c == 'G' then Some(GIB)
    else if c == 't' || c == 'T' then Some(TIB)
    else if c == 'p' || c == 'P' then Some(PIB)
    else if c == 'e' || c == 'E' then Some(EIB)
    else None
  }

  /** What may follow the number: a suffix letter, an `i`, a `B`, with spaces between. */
  function ParseSuffix(s: string): Option<nat> {
    var s0 := SkipSpace(s);
    var mult := if s0 == "" then None else Multiplier(s0[0]);
    var s1 := SkipSpace(if mult.Some? then s0[1..] else s0);
    var s2 := SkipSpace(if s1 != "" && s1[0] == 'i' then s1[1..] else s1);
    var s3 := SkipSpace(if s2 != "" && (s2[0] == 'b' || s2[0] == 'B') then s2[1..] else s2);
    if s3 != "" then None else Some(if mult.Some? then mult.value else 1)
  }

  /** The power of two that brings a quotient to 53 bits before the point. */
  function Shift(n: nat, d: nat): (s: nat)
    requires n > 0 && d > 0
    ensures s > 0
    decreases MANTISSA / 2 * d - n
  {
    if n >= MANTISSA / 2 * d then 1 else 2 * Shift(2 * n, d)
  }

  /** A number as numerator and denominator. */
  datatype Quotient = Quotient(n: nat, d: nat)

  /** `float` of the digits before and after the point. */
  function FloatOfDigits(whole: string, fraction: string): (q: Quotient)
    requires forall c :: c in whole ==> IsDigit(c)
    requires forall c :: c in fraction ==> IsDigit(c)
    ensures q.d > 0
  {
    var d := Power(10, |fraction|);
    var n := NumberOf(whole) * d + NumberOf(fraction);
    if fraction == "" || n == 0 then Quotient(Float(NumberOf(whole)), 1)
    else
      var s := Shift(n, d);
      Quotient(ToFloat(n * s, d), d * s)
  }

  lemma RunDigits(s: string, n: nat)
    requires n <= Run(s)
    ensures forall c :: c in s[..n] ==> IsDigit(c)
  {
  }

  /** `parse_size`: a size, the `ValueError`, or the `OverflowError` of `int` on an infinite float. */
  datatype Parsed = Size(value: int) | NotASize | Overflow

  function ParseSize(text: string): Parsed {
    var raw := Strip(text);
    if raw == "" || Lower(raw) == "off" || Lower(raw) == "unlimited" then Size(-1)
    else
      var negative := raw[0] == '-';
      var s := if raw[0] == '+' || raw[0] == '-' then raw[1..] else raw;
      var n := Run(s);
      if n == 0 then NotASize
      else
        var rest := s[n..];
        var f := if rest != "" && rest[0] == '.' then Run(rest[1..]) else 0;
        RunDigits(s, n);
        var tail := if f > 0 then rest[1 + f..] else rest;
        var fraction := if f > 0 then (RunDigits(rest[1..], f); rest[1..][..f]) else "";
        var mult := ParseSuffix(tail);
        if mult.None? then NotASize else Bytes(FloatOfDigits(s[..n], fraction), mult.value, negative)
  }

  /** `int(number * multiplier)`. */
  function Bytes(number: Quotient, mult: nat, negative: bool): Parsed
    requires number.d > 0
  {
    if number.n * mult >= FLOAT_LIMIT * number.d then Overflow
    else
      var size: int := number.n * mult / number.d;
      Size(if negative then -size else size)
  }

  // ---------------------------------------------------------------------------------------------
  // format_size, format_rate

  datatype Suffix = Suffix(text: string, mult: nat)

  const PLAIN := Suffix("", 1)

  /** The first suffix of the table that divides the number, or none. */
  function Chosen(n: nat, table: seq<Suffix>): Suffix
    requires forall s :: s in table ==> s.mult > 0
  {
    if table == [] then PLAIN
    else if n >= table[0].mult && n % table[0].mult == 0 then table[0]
    else Chosen(n, table[1..])
  }

  lemma {:induction false} ChosenDivides(n: nat, table: seq<Suffix>)
    requires forall s :: s in table ==> s.mult > 0
    ensures var c := Chosen(n, table);
      (c == PLAIN || (c in table && n >= c.mult)) && c.mult > 0 && n % c.mult == 0 && n / c.mult * c.mult == n
  {
    if table != [] && !(n >= table[0].mult && n % table[0].mult == 0) {
      ChosenDivides(n, table[1..]);
    }
    var m := Chosen(n, table).mult;
    assert n == m * (n / m) + n % m;
  }

  /** With the table in descending order, no larger suffix divides the number. */
  lemma {:induction false} ChosenIsLargest(n: nat, table: seq<Suffix>, s: Suffix)
    requires forall t :: t in table ==> t.mult > 0
    requires forall i, j :: 0 <= i < j < |table| ==> table[i].mult > table[j].mult
    requires s in table && n >= s.mult && n % s.mult == 0
    ensures s.mult <= Chosen(n, table).mult
  {
    if !(n >= table[0].mult && n % table[0].mult == 0) {
      assert s in table[1..];
      ChosenIsLargest(n, table[1..], s);
    }
  }

  function Render(n: nat, table: seq<Suffix>): string
    requires forall s :: s in table ==> s.mult > 0
  {
    var c := Chosen(n, table);
    ChosenDivides(n, table);
    Digits(n / c.mult) + c.text
  }

  const SIZE_SUFFIXES: seq<Suffix> := [
    Suffix("E", EIB), Suffix("P", PIB), Suffix("T", TIB),
    Suffix("G", GIB), Suffix("M", MIB), Suffix("k", KIB)]

  const RATE_SUFFIXES: seq<Suffix> := [
    Suffix("Pi", PIB), Suffix("Ti", TIB), Suffix("Gi", GIB),
    Suffix("Mi", MIB), Suffix("Ki", KIB)]

  function FormatSize(n: int): string {
    if n < 0 then "off" else Render(n, SIZE_SUFFIXES)
  }

  function FormatRate(kb: Option<int>): string {
    if kb.None? || KbToKib(kb.value) == 0 then "off"
    else Render(KbToKib(kb.value) * KIB, RATE_SUFFIXES)
  }

  function FormatBwlimit(down: Option<int>, up: Option<int>): string {
    var u, d := FormatRate(up), FormatRate(down);
    if u == "off" && d == "off" then "off" else if u == d then u else u + ":" + d
  }

  // ---------------------------------------------------------------------------------------------
  // Round trips

  lemma {:induction false} RunOfDigits(d: string, s: string)
    requires forall c :: c in d ==> IsDigit(c)
    requires s == "" || !IsDigit(s[0])
    ensures Run(d + s) == |d|
  {
    if d == "" {
      assert d + s == s;
    } else {
      RunOfDigits(d[1..], s);
      assert d[0] in d;
      assert (d + s)[1..] == d[1..] + s;
    }
  }

  /** A suffix as the formatters print it. */
  predicate Printed(s: Suffix) {
    s == PLAIN || s in SIZE_SUFFIXES || s in RATE_SUFFIXES
  }

  lemma LetterParses(c: char)
    requires Multiplier(c).Some?
    ensures ParseSuffix([c]) == Multiplier(c) && ParseSuffix([c, 'i']) == Multiplier(c)
    ensures c != '.' && c != ':' && !IsDigit(c) && !IsSpace(c)
  {
    assert [c][1..] == "" && [c, 'i'][1..] == ['i'] && ['i'][1..] == "";
  }

  predicate Lettered(s: Suffix) {
    |s.text| in {1, 2} && Multiplier(s.text[0]) == Some(s.mult) && (|s.text| == 2 ==> s.text[1] == 'i')
  }

  lemma PrintedIsLettered(s: Suffix)
    requires Printed(s)
    ensures s == PLAIN || Lettered(s)
  {
  }

  lemma SuffixParses(s: Suffix)
    requires Printed(s)
    ensures ParseSuffix(s.text) == Some(s.mult)
    ensures s.text == "" || (!IsDigit(s.text[0]) && s.text[0] != '.' && s.text[0] != ':')
    ensures s.text == "" || !IsSpace(s.text[|s.text| - 1])
    ensures ':' !in s.text
  {
    PrintedIsLettered(s);
    if s != PLAIN {
      hide ParseSuffix, Multiplier;
      LetterParses(s.text[0]);
      assert s.text == [s.text[0]] || s.text == [s.text[0], 'i'];
    }
  }

  lemma StripNothing(s: string)
    requires s != "" && !IsSpace(s[0]) && !IsSpace(s[|s| - 1])
    ensures Strip(s) == s
  {
  }

  lemma NotAWord(text: string)
    requires text != "" && IsDigit(text[0]) && !IsSpace(text[|text| - 1])
    ensures Strip(text) == text && Lower(text) != "off" && Lower(text) != "unlimited"
  {
    StripNothing(text);
    assert Lower(text)[0] == text[0] && "off"[0] == 'o' && "unlimited"[0] == 'u';
  }

  /** What a whole number with a suffix is read as. */
  function TokenSize(q: nat, mult: nat): Parsed {
    if Float(q) * mult >= FLOAT_LIMIT then Overflow else Size(Float(q) * mult)
  }

  lemma TokenParses(q: nat, s: Suffix)
    requires Printed(s)
    ensures ParseSize(Digits(q) + s.text) == TokenSize(q, s.mult)
  {
    hide Multiplier, Printed, ParseSuffix, Float, Strip, Lower, Digits, Run, Power, FLOAT_LIMIT;
    var d := Digits(q);
    var text := d + s.text;
    SuffixParses(s);
    RunOfDigits(d, s.text);
    DigitsRoundTrip(q);
    assert d[0] in d && d[|d| - 1] in d;
    assert text[0] == d[0];
    NotAWord(text);
    assert text[..|d|] == d && text[|d|..] == s.text;
    assert Bytes(Quotient(Float(q), 1), s.mult, false) == TokenSize(q, s.mult);
  }

  /**
   Parsing what was printed gives the number back exactly when the printed quotient is a float and
   the number is below 2^1024; it overflows exactly when the rounded quotient is that large.
   */
  ghost predicate ReadBack(n: nat, c: Suffix, parsed: Parsed)
    requires c.mult > 0
  {
    && (parsed == Size(n) <==> Float(n / c.mult) == n / c.mult && n < FLOAT_LIMIT)
    && (parsed == Overflow <==> Float(n / c.mult) * c.mult >= FLOAT_LIMIT)
    && parsed != NotASize
    && (n / c.mult <= MANTISSA ==> parsed == Size(n))
  }

  lemma RenderParses(n: nat, table: seq<Suffix>)
    requires table == SIZE_SUFFIXES || table == RATE_SUFFIXES
    ensures var c := Chosen(n, table);
      c.mult > 0 && n % c.mult == 0 && ReadBack(n, c, ParseSize(Render(n, table)))
  {
    hide ParseSize, FLOAT_LIMIT, Power, Float, Digits, ReadBack, TokenSize;
    ChosenDivides(n, table);
    var c := Chosen(n, table);
    hide Chosen;
    TokenParses(n / c.mult, c);
    TokenReadBack(n, n / c.mult, c);
  }

  lemma TokenReadBack(n: nat, q: nat, c: Suffix)
    requires 0 < c.mult <= EIB && n == q * c.mult && q == n / c.mult
    ensures ReadBack(n, c, TokenSize(q, c.mult))
  {
    hide FLOAT_LIMIT, Power, Float;
    if q <= MANTISSA {
      FloatExact(q);
      ShortIsBelow(q, c.mult);
    }
    if Float(q) * c.mult == q * c.mult {
      SameFactor(Float(q), q, c.mult);
    }
  }

  /** What has at most 53 bits and a suffix is far from overflowing. */
  lemma ShortIsBelow(q: nat, mult: nat)
    requires q <= MANTISSA && mult <= EIB
    ensures q * mult < FLOAT_LIMIT
  {
    SixtyBits();
    PowersGrow(60, 970);
    assert Power(2, 971) == 2 * Power(2, 970);
    hide Power;
    Scale(q, MANTISSA, mult);
    Scale(mult, EIB, MANTISSA);
  }

  lemma SixtyBits()
    ensures Power(2, 60) == EIB
  {
    PowerAdd(30, 30);
    PowerAdd(15, 15);
    PowerAdd(5, 10);
    PowerAdd(5, 5);
    assert Power(2, 5) == 32;
  }

  lemma {:induction false} DoubleProduct(a: nat, b: nat)
    ensures 2 * (a * b) == a * (2 * b)
  {
  }

  lemma {:induction false} PowerStep(k: nat)
    ensures Power(2, k + 1) == 2 * Power(2, k)
  {
  }

  lemma {:induction false} PowerAdd(j: nat, k: nat)
    ensures Power(2, j + k) == Power(2, j) * Power(2, k)
  {
    if k == 0 {
      assert Power(2, 0) == 1;
    } else {
      PowerAdd(j, k - 1);
      PowerStep(j + (k - 1));
      PowerStep(k - 1);
      hide Power;
      DoubleProduct(Power(2, j), Power(2, k - 1));
    }
  }

  lemma SizeRoundTrip(n: int)
    ensures n < 0 ==> ParseSize(FormatSize(n)) == Size(-1)
    ensures n >= 0 ==> var c := Chosen(n, SIZE_SUFFIXES);
      c.mult > 0 && ReadBack(n, c, ParseSize(FormatSize(n)))
  {
    hide ReadBack, ParseSize;
    OffParses();
    if n >= 0 {
      RenderParses(n, SIZE_SUFFIXES);
    }
  }

  /** The least number that does not survive: odd, so printed in full, and too long for a float. */
  lemma FirstLostSize()
    ensures ParseSize(FormatSize(MANTISSA + 1)) == Size(MANTISSA)
  {
    hide ParseSize, Chosen, FLOAT_LIMIT, Power;
    var n := MANTISSA + 1;
    OddIsPlain(n, SIZE_SUFFIXES);
    TokenParses(n, PLAIN);
    assert FormatSize(n) == Digits(n) + PLAIN.text;
    assert ToFloat(n, 1) == ToFloat(n, 2) == RoundHalfEven(n, 2) * 2;
    ShortIsBelow(MANTISSA, 1);
  }

  /** Of the numbers written without a suffix, these and only these raise. */
  lemma DigitsOverflowIff(n: nat)
    ensures ParseSize(Digits(n)) == Overflow <==> n >= FLOAT_LIMIT - Power(2, 970)
  {
    hide ParseSize;
    TokenParses(n, PLAIN);
    assert Digits(n) + PLAIN.text == Digits(n);
    NoFloatIff(n, 0);
  }

  lemma {:induction false} StepsUp(n: nat, k: nat, j: nat)
    requires k <= j && n >= MANTISSA * Power(2, j)
    ensures ToFloat(n, Power(2, k)) >= MANTISSA * Power(2, j)
    decreases j - k
  {
    PowersGrow(k, j);
    if k < j {
      Scale(Power(2, k), Power(2, j), MANTISSA);
      assert Power(2, k + 1) == 2 * Power(2, k);
      StepsUp(n, k + 1, j);
    } else {
      ToFloatAtLeast(n, Power(2, k));
    }
  }

  lemma LimitInExbibytes() returns (q: nat)
    ensures FLOAT_LIMIT == q * EIB && Float(q) >= q && q >= 1
  {
    var p := Power(2, 911);
    q := MANTISSA * p;
    SixtyBits();
    PowerAdd(911, 60);
    StepsUp(q, 0, 911);
    hide Power, ToFloat;
  }

  lemma WholeExbibytes(q: nat)
    requires q >= 1
    ensures FormatSize(q * EIB) == Digits(q) + "E" && Printed(Suffix("E", EIB))
  {
    hide Digits;
    Divides(q, EIB);
    Scale(1, q, EIB);
    assert SIZE_SUFFIXES[0] == Suffix("E", EIB) && Suffix("E", EIB) in SIZE_SUFFIXES;
  }

  /** 2^1024 is printed with the largest suffix, and reading that back raises. */
  lemma LargeSizeRaises()
    ensures ParseSize(FormatSize(FLOAT_LIMIT)) == Overflow
  {
    hide ParseSize, FormatSize, FLOAT_LIMIT, Float, Printed;
    var q := LimitInExbibytes();
    WholeExbibytes(q);
    TokenParses(q, Suffix("E", EIB));
    Scale(q, Float(q), EIB);
  }

  lemma Divides(q: nat, m: nat)
    requires m > 0
    ensures q * m % m == 0 && q * m / m == q
  {
    var n := q * m;
    assert n == m * (n / m) + n % m;
    if n / m != q {
      if n / m < q {
        Scale(n / m + 1, q, m);
      } else {
        Scale(q + 1, n / m, m);
      }
      assert false;
    }
  }

  lemma {:induction false} OddIsPlain(n: nat, table: seq<Suffix>)
    requires forall s :: s in table ==> s.mult > 0 && s.mult % 2 == 0
    requires n % 2 == 1
    ensures Chosen(n, table) == PLAIN
  {
    if table != [] {
      var m := table[0].mult;
      assert table[0] in table;
      var h, q := m / 2, n / m;
      assert n == m * q + n % m && m * q == 2 * (h * q);
      OddIsPlain(n, table[1..]);
    }
  }

  lemma SameFactor(a: nat, b: nat, m: nat)
    requires m > 0 && a * m == b * m
    ensures a == b
  {
  }

  lemma OffParses()
    ensures ParseSize("off") == Size(-1)
  {
    StripNothing("off");
    assert Lower("off") == "off";
  }

  /** A whole number of KiB is always printed with a suffix, so no rate is read as bare bytes. */
  lemma KibHasSuffix(kib: nat)
    requires kib > 0
    ensures Chosen(kib * KIB, RATE_SUFFIXES) in RATE_SUFFIXES
  {
    hide Chosen;
    var least := RATE_SUFFIXES[4];
    assert least in RATE_SUFFIXES && kib * KIB % KIB == 0;
    ChosenIsLargest(kib * KIB, RATE_SUFFIXES, least);
    ChosenDivides(kib * KIB, RATE_SUFFIXES);
  }

  /** The token of a limit means exactly `kb_to_kib` KiB, where the printed quotient is a float. */
  lemma RateMeansKib(kb: Option<int>)
    ensures kb.None? || KbToKib(kb.value) == 0 ==> ParseSize(FormatRate(kb)) == Size(-1)
    ensures kb.Some? && KbToKib(kb.value) > 0 ==>
      var total := KbToKib(kb.value) * KIB;
      var c := Chosen(total, RATE_SUFFIXES);
      c in RATE_SUFFIXES && c.mult > 0 && ReadBack(total, c, ParseSize(FormatRate(kb)))
  {
    hide ParseSize, Chosen, KbToKib, Render, ReadBack;
    OffParses();
    if kb.Some? && KbToKib(kb.value) > 0 {
      KibHasSuffix(KbToKib(kb.value));
      RenderParses(KbToKib(kb.value) * KIB, RATE_SUFFIXES);
    }
  }

  /** How rclone reads a `--bwlimit`: upload and download around a colon, or one rate for both. */
  function ReadBwlimit(text: string): (Parsed, Parsed) {
    var i := Colon(text);
    if i == |text| then (ParseSize(text), ParseSize(text))
    else (ParseSize(text[..i]), ParseSize(text[i + 1..]))
  }

  function Colon(text: string): (i: nat)
    ensures i <= |text| && (i < |text| ==> text[i] == ':') && ':' !in text[..i]
  {
    if text == "" || text[0] == ':' then 0
    else
      var i := Colon(text[1..]);
      assert text[..i + 1] == [text[0]] + text[1..][..i];
      i + 1
  }

  lemma RateHasNoColon(kb: Option<int>)
    ensures ':' !in FormatRate(kb)
  {
    if kb.Some? && KbToKib(kb.value) > 0 {
      var total := KbToKib(kb.value) * KIB;
      ChosenDivides(total, RATE_SUFFIXES);
      SuffixParses(Chosen(total, RATE_SUFFIXES));
    }
  }

  /** The two sides arrive where they belong: upload first, download second. */
  lemma BwlimitReadsBack(down: Option<int>, up: Option<int>)
    ensures ReadBwlimit(FormatBwlimit(down, up)) == (ParseSize(FormatRate(up)), ParseSize(FormatRate(down)))
  {
    hide ParseSize, FormatRate, Colon;
    var u, d := FormatRate(up), FormatRate(down);
    RateHasNoColon(up);
    RateHasNoColon(down);
    var text := FormatBwlimit(down, up);
    if u != d {
      assert text == u + ":" + d;
      assert text[|u|] == ':' && text[..|u|] == u && text[|u| + 1..] == d;
      ColonAt(u, ":" + d);
      assert text == u + (":" + d);
    } else {
      ColonAt(u, "");
      assert text == u + "";
    }
  }

  lemma {:induction false} ColonAt(u: string, rest: string)
    requires ':' !in u
    requires rest == "" || rest[0] == ':'
    ensures Colon(u + rest) == |u|
  {
    if u == "" {
      assert u + rest == rest;
    } else {
      assert u[0] in u && (u + rest)[1..] == u[1..] + rest;
      ColonAt(u[1..], rest);
    }
  }

  // ---------------------------------------------------------------------------------------------
  // human_bytes

  function RealPower(base: real, k: nat): real {
    if k == 0 then 1.0 else base * RealPower(base, k - 1)
  }

  /**
   The loop of `human_bytes`: the value and the suffix that are printed.  The value is exact, and is
   below 999.95 unless there is no larger suffix, so that one decimal place never shows 1000.0.
   */
  method Humanise(n: int, base: nat) returns (value: real, index: nat)
    requires base == KB || base == KIB
    ensures index <= 6
    ensures value * RealPower(base as real, index) == Magnitude(n)
    ensures value * RealPower(base as real, index) == if n <= 0 then 0.0 - n as real else n as real
    ensures index < 6 ==> value < 999.95 || (index == 0 && value < base as real)
    ensures index > 0 ==> value >= 999.95 / base as real
    ensures index == 0 <==> Magnitude(n) < base as real
  {
    hide RealPower;
    var b := base as real;
    value, index := Magnitude(n), 0;
    NoPower(value, b);
    if value < b {
      return;
    }
    while value >= b && index < 6
      invariant index <= 6
      invariant value * RealPower(b, index) == Magnitude(n)
      invariant if index == 0 then value >= b else value >= 1.0
      decreases 6 - index
    {
      Rescale(value, b, index);
      value, index := value / b, index + 1;
    }
    if value >= 999.95 && index < 6 {
      Rescale(value, b, index);
      value, index := value / b, index + 1;
    }
  }

  function Magnitude(n: int): real {
    (if n < 0 then -n else n) as real
  }

  lemma NoPower(value: real, base: real)
    ensures value * RealPower(base, 0) == value
  {
  }

  lemma Rescale(value: real, base: real, index: nat)
    requires base >= 1.0
    ensures value / base * RealPower(base, index + 1) == value * RealPower(base, index)
    ensures value >= base ==> value / base >= 1.0
    ensures base <= 1024.0 && value >= 999.95 ==> value / base >= 999.95 / base
  {
    var p := RealPower(base, index);
    Cancel(value, base, p);
    if value >= base {
      assert value / base >= base / base;
    }
  }

  lemma Cancel(value: real, base: real, p: real)
    requires base >= 1.0
    ensures value / base * (base * p) == value * p
  {
    var v := value / base;
    assert v * base == value;
    assert v * (base * p) == (v * base) * p;
  }
}

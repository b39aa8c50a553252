/**
 onedriveui/units.py: which texts `parse_size` reads, as the grammar of its regular expression has
 them, and which number it makes of their digits.
 */
module SizeTexts {
  import opened Basics
  import opened Units

  // ---------------------------------------------------------------------------------------------
  // The suffix

  /** The letter of a suffix in either case stands for a power of 1024, no letter for one. */
  ghost predicate LetterIs(letter: string, mult: nat) {
    || (letter == "" && mult == 1)
    || exists k :: 1 <= k <= 6 && Lower(letter) == ["", "k", "m", "g", "t", "p", "e"][k] && mult == Power(1024, k)
  }

  lemma PowersOfKib()
    ensures Power(1024, 1) == KIB && Power(1024, 2) == MIB && Power(1024, 3) == GIB
    ensures Power(1024, 4) == TIB && Power(1024, 5) == PIB && Power(1024, 6) == EIB
  {
    assert Power(1024, 0) == 1;
  }

  lemma LetterIff(letter: string, mult: nat)
    ensures letter != "" ==> (LetterIs(letter, mult) <==> |letter| == 1 && Multiplier(letter[0]) == Some(mult))
  {
    PowersOfKib();
    hide Power;
    if |letter| == 1 {
      assert Lower(letter) == [Lower(letter)[0]];
      forall k | 1 <= k <= 6
        ensures Lower(letter) == ["", "k", "m", "g", "t", "p", "e"][k] <==> Lower(letter)[0] == "?kmgtpe"[k]
      {
      }
    }
  }

  /** What may follow the number: a letter, an `i` and a `B`, with blanks anywhere between. */
  datatype Tail = Tail(a: string, letter: string, b: string, i: string, c: string, byte: string, d: string) {
    function Text(): string {
      a + (letter + (b + (i + (c + (byte + d)))))
    }

    ghost predicate Means(mult: nat) {
      && Blank(a) && Blank(b) && Blank(c) && Blank(d)
      && LetterIs(letter, mult) && i in {"", "i"} && byte in {"", "b", "B"}
    }
  }

  function AfterI(s: string): string {
    SkipSpace(if s != "" && s[0] == 'i' then s[1..] else s)
  }

  function AfterB(s: string): string {
    SkipSpace(if s != "" && (s[0] == 'b' || s[0] == 'B') then s[1..] else s)
  }

  lemma SkipTwice(s: string)
    ensures SkipSpace(SkipSpace(s)) == SkipSpace(s)
  {
    var a := SkipSpaceIs(s);
  }

  lemma SuffixSteps(s: string)
    ensures var s0 := SkipSpace(s);
      var mult := if s0 == "" then None else Multiplier(s0[0]);
      ParseSuffix(s) == if AfterB(AfterI(SkipSpace(if mult.Some? then s0[1..] else s0))) != "" then None
                        else Some(if mult.Some? then mult.value else 1)
  {
  }

  lemma BytesEnd(byte: string, d: string)
    requires byte in {"", "b", "B"} && Blank(d)
    ensures AfterB(SkipSpace(byte + d)) == ""
    ensures SkipSpace(byte + d) == "" || SkipSpace(byte + d)[0] in "bB"
  {
    if byte == "" {
      assert byte + d == d;
      SkipAll(d);
    } else {
      assert (byte + d)[1..] == d && (byte + d)[0] == byte[0];
      SkipAll(d);
    }
  }

  lemma BinaryEnd(i: string, c: string, byte: string, d: string)
    requires i in {"", "i"} && Blank(c) && byte in {"", "b", "B"} && Blank(d)
    ensures var s := SkipSpace(i + (c + (byte + d)));
      AfterB(AfterI(s)) == "" && (s == "" || s[0] in "ibB")
  {
    var rest := byte + d;
    BytesEnd(byte, d);
    SkipBlank(c, rest);
    if i == "" {
      assert i + (c + rest) == c + rest;
      SkipTwice(rest);
    } else {
      assert (i + (c + rest))[1..] == c + rest && (i + (c + rest))[0] == 'i';
    }
  }

  lemma NotALetter(c: char)
    requires c in "ibB"
    ensures Multiplier(c) == None
  {
  }

  lemma NoLetterReads(a: string, rest: string)
    requires Blank(a) && (SkipSpace(rest) == "" || SkipSpace(rest)[0] in "ibB") && AfterB(AfterI(SkipSpace(rest))) == ""
    ensures ParseSuffix(a + rest) == Some(1)
  {
    hide ParseSuffix, AfterI, AfterB, SkipSpace, Multiplier;
    SuffixSteps(a + rest);
    SkipBlank(a, rest);
    SkipTwice(rest);
    if SkipSpace(rest) != "" {
      NotALetter(SkipSpace(rest)[0]);
    }
  }

  lemma LetterStays(letter: string, rest: string)
    requires |letter| == 1 && Multiplier(letter[0]).Some?
    ensures SkipSpace(letter + rest) == letter + rest
    ensures (letter + rest)[0] == letter[0] && (letter + rest)[1..] == rest
  {
  }

  lemma LetterReads(a: string, letter: string, b: string, rest: string, mult: nat)
    requires Blank(a) && Blank(b) && |letter| == 1 && Multiplier(letter[0]) == Some(mult)
    requires AfterB(AfterI(SkipSpace(rest))) == ""
    ensures ParseSuffix(a + (letter + (b + rest))) == Some(mult)
  {
    hide ParseSuffix, AfterI, AfterB, SkipSpace, Multiplier;
    SuffixSteps(a + (letter + (b + rest)));
    SkipBlank(a, letter + (b + rest));
    SkipBlank(b, rest);
    LetterStays(letter, b + rest);
  }

  /** Every such suffix is read as its multiplier. */
  lemma TailReads(t: Tail, mult: nat)
    requires t.Means(mult)
    ensures ParseSuffix(t.Text()) == Some(mult)
  {
    var rest := t.i + (t.c + (t.byte + t.d));
    BinaryEnd(t.i, t.c, t.byte, t.d);
    hide ParseSuffix, AfterI, AfterB;
    if t.letter == "" {
      SkipBlank(t.b, rest);
      NoLetterReads(t.a, t.b + rest);
      assert t.letter + (t.b + rest) == t.b + rest;
    } else {
      LetterIff(t.letter, mult);
      LetterReads(t.a, t.letter, t.b, rest, mult);
    }
  }

  /** And nothing else is read. */
  lemma TailIsRead(s: string) returns (t: Tail)
    requires ParseSuffix(s).Some?
    ensures t.Means(ParseSuffix(s).value) && t.Text() == s
  {
    var mult := ParseSuffix(s).value;
    SuffixSteps(s);
    hide ParseSuffix, SkipSpace, Multiplier;
    var a := SkipSpaceIs(s);
    var s0 := SkipSpace(s);
    var letter := if s0 != "" && Multiplier(s0[0]).Some? then s0[..1] else "";
    LetterIff(letter, mult);
    var s1 := s0[|letter|..];
    assert s0[0..] == s0;
    var b := SkipSpaceIs(s1);
    var i, c, byte, d := EndIsRead(SkipSpace(s1));
    t := Tail(a, letter, b, i, c, byte, d);
    assert s0 == letter + s1;
    hide LetterIs;
  }

  lemma EndIsRead(s: string) returns (i: string, c: string, byte: string, d: string)
    requires AfterB(AfterI(s)) == ""
    ensures s == i + (c + (byte + d)) && i in {"", "i"} && Blank(c) && byte in {"", "b", "B"} && Blank(d)
  {
    i := if s != "" && s[0] == 'i' then "i" else "";
    var s1 := s[|i|..];
    assert s == i + s1;
    c := SkipSpaceIs(s1);
    assert AfterI(s) == SkipSpace(s1) by {
      assert s[0..] == s;
    }
    hide AfterI;
    byte, d := ByteIsRead(SkipSpace(s1));
  }

  lemma ByteIsRead(s: string) returns (byte: string, d: string)
    requires AfterB(s) == ""
    ensures s == byte + d && byte in {"", "b", "B"} && Blank(d)
  {
    byte := if s != "" && (s[0] == 'b' || s[0] == 'B') then [s[0]] else "";
    var rest := s[|byte|..];
    assert s == byte + rest && s[0..] == s;
    d := SkipSpaceIs(rest);
  }

  // ---------------------------------------------------------------------------------------------
  // The whole text

  datatype Parts = Parts(sign: string, whole: string, fraction: string, tail: Tail)

  predicate AllDigits(s: string) {
    forall i :: 0 <= i < |s| ==> IsDigit(s[i])
  }

  ghost predicate Reads(text: string, p: Parts, mult: nat) {
    && p.sign in {"", "+", "-"} && p.whole != "" && AllDigits(p.whole) && AllDigits(p.fraction) && p.tail.Means(mult)
    && Strip(text) == p.sign + (p.whole + (Point(p.fraction) + p.tail.Text()))
  }

  /** A fraction, if there is one, behind its point. */
  function Point(fraction: string): string {
    if fraction == "" then "" else "." + fraction
  }

  predicate Unlimited(text: string) {
    Lower(Strip(text)) in {"", "off", "unlimited"}
  }

  lemma DigitsInText(s: string)
    ensures AllDigits(s) <==> forall c :: c in s ==> IsDigit(c)
  {
    if AllDigits(s) {
      forall c | c in s ensures IsDigit(c) {
        var i :| 0 <= i < |s| && s[i] == c;
      }
    }
    if forall c :: c in s ==> IsDigit(c) {
      forall i | 0 <= i < |s| ensures IsDigit(s[i]) {
        assert s[i] in s;
      }
    }
  }

  /** Behind the digits of the number comes no other digit, and no point that a digit follows. */
  lemma TailStarts(t: Tail, mult: nat)
    requires t.Means(mult)
    ensures t.Text() == "" || (!IsDigit(t.Text()[0]) && t.Text()[0] != '.')
  {
    TailReads(t, mult);
    var s := t.Text();
    if s != "" && (IsDigit(s[0]) || s[0] == '.') {
      NoSuffix(s);
    }
  }

  lemma NoSuffix(s: string)
    requires s != "" && (IsDigit(s[0]) || s[0] == '.')
    ensures ParseSuffix(s) == None
  {
    SuffixSteps(s);
    assert AfterB(AfterI(SkipSpace(s))) == s;
  }

  /** `parse_size` on what is behind the sign. */
  function Unsigned(s: string, negative: bool): Parsed {
    var n := Run(s);
    if n == 0 then NotASize
    else
      var rest := s[n..];
      var f := if rest != "" && rest[0] == '.' then Run(rest[1..]) else 0;
      RunDigits(s, n);
      var fraction := if f > 0 then (RunDigits(rest[1..], f); rest[1..][..f]) else "";
      var mult := ParseSuffix(if f > 0 then rest[1 + f..] else rest);
      if mult.None? then NotASize else Bytes(FloatOfDigits(s[..n], fraction), mult.value, negative)
  }

  function SignOf(raw: string): string {
    if raw != "" && (raw[0] == '+' || raw[0] == '-') then raw[..1] else ""
  }

  lemma ParseSteps(text: string)
    ensures Unlimited(text) ==> ParseSize(text) == Size(-1)
    ensures var raw := Strip(text);
      !Unlimited(text) ==> raw != "" && ParseSize(text) == Unsigned(raw[|SignOf(raw)|..], SignOf(raw) == "-")
  {
    hide ParseSize, Unsigned, Strip, Lower, Unlimited, SignOf;
    UnlimitedIs(text);
    ParseIsUnsigned(text);
    if !Unlimited(text) {
      SignIs(Strip(text));
    }
  }

  lemma ParseIsUnsigned(text: string)
    ensures var raw := Strip(text);
      if raw == "" || Lower(raw) == "off" || Lower(raw) == "unlimited" then ParseSize(text) == Size(-1)
      else ParseSize(text) == Unsigned(if raw[0] == '+' || raw[0] == '-' then raw[1..] else raw, raw[0] == '-')
  {
    hide ParseSuffix, FloatOfDigits, Bytes, Strip, Lower, Run;
  }

  lemma UnlimitedIs(text: string)
    ensures var raw := Strip(text);
      Unlimited(text) <==> raw == "" || Lower(raw) == "off" || Lower(raw) == "unlimited"
  {
    hide Strip;
    assert |Lower(Strip(text))| == |Strip(text)|;
  }

  lemma SignIs(raw: string)
    requires raw != ""
    ensures raw[|SignOf(raw)|..] == if raw[0] == '+' || raw[0] == '-' then raw[1..] else raw
    ensures SignOf(raw) == "-" <==> raw[0] == '-'
  {
    assert raw[0..] == raw && raw[..1] == [raw[0]];
  }

  lemma UnsignedReads(whole: string, fraction: string, end: string, mult: nat, negative: bool)
    requires whole != "" && (forall c :: c in whole ==> IsDigit(c)) && (forall c :: c in fraction ==> IsDigit(c))
    requires ParseSuffix(end) == Some(mult) && (end == "" || (!IsDigit(end[0]) && end[0] != '.'))
    ensures Unsigned(whole + (Point(fraction) + end), negative) == Bytes(FloatOfDigits(whole, fraction), mult, negative)
  {
    var rest := Point(fraction) + end;
    var s := whole + rest;
    RunOfDigits(whole, rest);
    RunOfDigits(fraction, end);
    hide ParseSuffix, FloatOfDigits, Bytes, Run, Point;
    assert s[..|whole|] == whole && s[|whole|..] == rest;
    PointIs(fraction, end);
  }

  lemma PointIs(fraction: string, end: string)
    ensures var rest := Point(fraction) + end;
      if fraction == "" then rest == end
      else rest != "" && rest[0] == '.' && rest[1..] == fraction + end
           && rest[1..][..|fraction|] == fraction && rest[1 + |fraction|..] == end
  {
    if fraction != "" {
      assert Point(fraction) + end == "." + (fraction + end);
    }
  }

  /** What a number in the form of the regular expression is read as. */
  lemma SizeReads(text: string, p: Parts, mult: nat)
    requires Reads(text, p, mult)
    ensures !Unlimited(text)
    ensures (forall c :: c in p.whole ==> IsDigit(c)) && (forall c :: c in p.fraction ==> IsDigit(c))
    ensures ParseSize(text) == Bytes(FloatOfDigits(p.whole, p.fraction), mult, p.sign == "-")
  {
    ParseSteps(text);
    DigitsInText(p.whole);
    DigitsInText(p.fraction);
    TailReads(p.tail, mult);
    TailStarts(p.tail, mult);
    var raw, s := Strip(text), p.whole + (Point(p.fraction) + p.tail.Text());
    hide ParseSize, ParseSuffix, FloatOfDigits, Bytes, Strip, Unsigned, Point, Unlimited;
    NotUnlimited(text, p.sign, s);
    UnsignedReads(p.whole, p.fraction, p.tail.Text(), mult, p.sign == "-");
    Signed(p.sign, s);
  }

  lemma Signed(sign: string, s: string)
    requires sign in {"", "+", "-"} && s != "" && IsDigit(s[0])
    ensures SignOf(sign + s) == sign && (sign + s)[|sign|..] == s
  {
    if sign == "" {
      assert sign + s == s;
    } else {
      assert (sign + s)[..1] == sign;
    }
  }

  lemma NotUnlimited(text: string, sign: string, s: string)
    requires sign in {"", "+", "-"} && s != "" && IsDigit(s[0]) && Strip(text) == sign + s
    ensures !Unlimited(text)
  {
    hide Strip;
    var raw := Strip(text);
    assert raw[0] == if sign == "" then s[0] else sign[0];
    assert Lower(raw)[0] == raw[0];
  }

  lemma UnsignedIsRead(s: string, negative: bool) returns (whole: string, fraction: string, end: string)
    requires Unsigned(s, negative) != NotASize
    ensures whole != "" && AllDigits(whole) && AllDigits(fraction) && ParseSuffix(end).Some?
    ensures s == whole + (Point(fraction) + end)
  {
    hide ParseSuffix, FloatOfDigits, Bytes;
    var n := Run(s);
    var rest := s[n..];
    var f := if rest != "" && rest[0] == '.' then Run(rest[1..]) else 0;
    whole, fraction := s[..n], if f > 0 then rest[1..][..f] else "";
    end := if f > 0 then rest[1 + f..] else rest;
    hide Run;
    if f > 0 {
      assert rest == "." + fraction + end;
    } else {
      assert rest == "" + end;
    }
    assert s == whole + rest;
  }

  /** And everything that is read, but for the words for no limit, has that form. */
  lemma SizeIsRead(text: string) returns (p: Parts, mult: nat)
    requires ParseSize(text) != NotASize && !Unlimited(text)
    ensures Reads(text, p, mult)
  {
    ParseSteps(text);
    var raw := Strip(text);
    var sign := SignOf(raw);
    hide ParseSize, ParseSuffix, Strip, Unsigned, Point, Unlimited;
    var whole, fraction, end := UnsignedIsRead(raw[|sign|..], sign == "-");
    var tail := TailIsRead(end);
    mult := ParseSuffix(end).value;
    p := Parts(sign, whole, fraction, tail);
    assert raw == sign + raw[|sign|..];
    assert sign == "" || sign == [raw[0]];
  }

  /** The white space among the ASCII characters. */
  lemma SpaceIs(c: char)
    requires c as int < 128
    ensures IsSpace(c) <==> c in " \t\n\r" || c as int in {11, 12, 28, 29, 30, 31}
  {
  }

  // ---------------------------------------------------------------------------------------------
  // The number

  /** Twice as far apart as they are. */
  function Apart(a: int, b: int): nat {
    if a < b then 2 * (b - a) else 2 * (a - b)
  }

  /** `m` steps of size `step` are nearest to `n`, and of two as near the even one. */
  ghost predicate NearestSteps(n: nat, m: nat, step: nat) {
    Apart(m * step, n) <= step && (Apart(m * step, n) == step ==> m % 2 == 0)
  }

  lemma RoundIsNearest(n: nat, d: nat)
    requires d > 0
    ensures NearestSteps(n, RoundHalfEven(n, d), d)
  {
    RoundNearest(n, d);
    hide RoundHalfEven;
    assert d * RoundHalfEven(n, d) == RoundHalfEven(n, d) * d;
  }

  /** Rounding to 53 bits, as IEEE 754 has it: to nearest, ties to even. */
  lemma {:induction false} ToFloatIsNearest(n: nat, unit: nat) returns (m: nat, k: nat)
    requires unit > 0
    ensures ToFloat(n, unit) == m * (unit * Power(2, k)) && m <= MANTISSA
    ensures NearestSteps(n, m, unit * Power(2, k))
    ensures k > 0 || n >= MANTISSA / 2 * unit ==> m >= MANTISSA / 2
    decreases n - MANTISSA * unit
  {
    if n < MANTISSA * unit {
      m, k := RoundHalfEven(n, unit), 0;
      assert Power(2, 0) == 1 && unit * 1 == unit;
      RoundIsNearest(n, unit);
      RoundedBelow(n, unit);
      if n >= MANTISSA / 2 * unit {
        assert n == unit * (n / unit) + n % unit;
        QuotientAtLeast(n, unit, n / unit, MANTISSA / 2);
      }
    } else {
      m, k := ToFloatIsNearest(n, 2 * unit);
      assert n >= MANTISSA / 2 * (2 * unit);
      PowerStep(k);
      DoubleUnit(unit, Power(2, k));
      k := k + 1;
    }
  }

  lemma DoubleUnit(unit: nat, p: nat)
    ensures 2 * unit * p == unit * (2 * p)
  {
  }

  lemma {:induction false} ShiftIsPower(n: nat, d: nat) returns (j: nat)
    requires n > 0 && d > 0
    ensures Shift(n, d) == Power(2, j) && n * Shift(n, d) >= MANTISSA / 2 * d
    decreases MANTISSA / 2 * d - n
  {
    j := 0;
    if n < MANTISSA / 2 * d {
      var i := ShiftIsPower(2 * n, d);
      j := i + 1;
      assert n * (2 * Shift(2 * n, d)) == 2 * n * Shift(2 * n, d);
    }
  }

  /**
   `q` is the float nearest to the quotient of `n` and `d`: `m` with 53 bits, times and divided by powers
   of two.  With fewer bits it is exact.
   */
  ghost predicate NearestFloat(q: Quotient, n: nat, d: nat, m: nat, i: nat, j: nat) {
    && q.n * Power(2, j) == m * Power(2, i) * q.d && m <= MANTISSA
    && NearestSteps(n * Power(2, j), m, Power(2, i) * d)
    && (m >= MANTISSA / 2 || n * Power(2, j) == m * (Power(2, i) * d))
  }

  lemma NumberIsNearest(whole: string, fraction: string) returns (m: nat, i: nat, j: nat)
    requires (forall c :: c in whole ==> IsDigit(c)) && (forall c :: c in fraction ==> IsDigit(c))
    ensures var d := Power(10, |fraction|);
      NearestFloat(FloatOfDigits(whole, fraction), NumberOf(whole) * d + NumberOf(fraction), d, m, i, j)
  {
    var d := Power(10, |fraction|);
    var n := NumberOf(whole) * d + NumberOf(fraction);
    hide NearestFloat, Shift, ToFloat, NumberOf;
    if fraction != "" && n != 0 {
      m, i, j := QuotientIsNearest(n, d);
    } else {
      NothingBehind(NumberOf(whole), d, NumberOf(fraction), fraction == "");
      j := 0;
      m, i := WholeIsNearest(NumberOf(whole), d);
    }
  }

  lemma NothingBehind(whole: nat, d: nat, fraction: nat, none: bool)
    requires d > 0 && (none ==> d == 1 && fraction == 0) && (!none ==> whole * d + fraction == 0)
    ensures fraction == 0 && (d == 1 || whole == 0) && whole * d + fraction == whole
  {
  }

  lemma WholeIsNearest(n: nat, d: nat) returns (m: nat, i: nat)
    requires d > 0 && (d == 1 || n == 0)
    ensures NearestFloat(Quotient(Float(n), 1), n, d, m, i, 0)
  {
    assert Power(2, 0) == 1;
    if n == 0 {
      FloatExact(0);
      m, i := 0, 0;
    } else {
      m, i := ToFloatIsNearest(n, 1);
    }
  }

  lemma QuotientIsNearest(n: nat, d: nat) returns (m: nat, i: nat, j: nat)
    requires n > 0 && d > 0
    ensures NearestFloat(Quotient(ToFloat(n * Shift(n, d), d), d * Shift(n, d)), n, d, m, i, j)
  {
    j := ShiftIsPower(n, d);
    m, i := ToFloatIsNearest(n * Power(2, j), d);
    hide Shift, ToFloat;
    Regroup(m, d, Power(2, i), Power(2, j));
  }

  /**
   The product with the multiplier loses its fraction towards zero, and has no `int` at all exactly where
   it has no float.
   */
  lemma BytesIs(number: Quotient, mult: nat, negative: bool)
    requires number.d > 0
    ensures match Bytes(number, mult, negative)
      case NotASize => false
      case Overflow => number.n * mult >= FLOAT_LIMIT * number.d
      case Size(v) =>
        var size := if negative then -v else v;
        size * number.d <= number.n * mult < (size + 1) * number.d && number.n * mult < FLOAT_LIMIT * number.d
  {
    hide Power;
    WholePart(number.n * mult, number.d);
  }

  lemma WholePart(n: nat, d: nat)
    requires d > 0
    ensures n / d * d <= n < (n / d + 1) * d
  {
    assert n == d * (n / d) + n % d;
  }

  lemma Regroup(m: nat, d: nat, up: nat, down: nat)
    ensures m * (d * up) * down == m * up * (d * down)
    ensures d * up == up * d
  {
  }
}

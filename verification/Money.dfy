/** The decimal text layer of packages/shared/money.mjs: amounts are whole cents, and text is
    parsed and printed without going through floating point. */
module Money {
  import opened Basics

  const SCALE := 100

  // ---------------------------------------------------------------- digits

  predicate IsDigit(c: char) {
    '0' <= c <= '9'
  }

  predicate AllDigits(s: string) {
    forall i :: 0 <= i < |s| ==> IsDigit(s[i])
  }

  function DigitValue(c: char): (d: nat)
    requires IsDigit(c)
    ensures d < 10
  {
    c as int - '0' as int
  }

  /** `BigInt(text)` on a run of digits. */
  function ParseNat(s: string): nat
    requires AllDigits(s)
  {
    if s == "" then 0 else 10 * ParseNat(s[..|s| - 1]) + DigitValue(s[|s| - 1])
  }

  function DigitChar(d: nat): (c: char)
    requires d < 10
    ensures IsDigit(c) && DigitValue(c) == d
  {
    ('0' as int + d) as char
  }

  /** `String(n)` for a non-negative integer. */
  function PrintNat(n: nat): (s: string)
    ensures s != "" && AllDigits(s) && ParseNat(s) == n
  {
    if n < 10 then [DigitChar(n)] else PrintNat(n / 10) + [DigitChar(n % 10)]
  }

  function Pow10(k: nat): (p: nat)
    ensures p >= 1
  {
    if k == 0 then 1 else 10 * Pow10(k - 1)
  }

  lemma {:induction false} ParseConcat(a: string, b: string)
    requires AllDigits(a) && AllDigits(b)
    ensures AllDigits(a + b)
    ensures ParseNat(a + b) == ParseNat(a) * Pow10(|b|) + ParseNat(b)
  {
    if b == "" {
      assert a + b == a;
    } else {
      var front := b[..|b| - 1];
      ParseConcat(a, front);
      assert (a + b)[..|a + b| - 1] == a + front;
      assert (a + b)[|a + b| - 1] == b[|b| - 1];
      var d := DigitValue(b[|b| - 1]);
      assert ParseNat(a + b) == 10 * ParseNat(a + front) + d;
      OneMoreDigit(ParseNat(a), Pow10(|front|), ParseNat(front), d);
    }
  }

  lemma OneMoreDigit(a: nat, p: nat, f: nat, d: nat)
    ensures 10 * (a * p + f) + d == a * (10 * p) + (10 * f + d)
  {
  }

  lemma {:induction false} ParseBound(s: string)
    requires AllDigits(s)
    ensures ParseNat(s) < Pow10(|s|)
  {
    if s != "" {
      ParseBound(s[..|s| - 1]);
    }
  }

  // ---------------------------------------------------------------- text format

  /** The characters the cleaning step removes: commas and whatever `\s` matches. */
  predicate IsStripped(c: char) {
    c == ',' || c == ' ' || '\U{0009}' <= c <= '\U{000D}' || c == '\U{00A0}' || c == '\U{1680}'
    || '\U{2000}' <= c <= '\U{200A}' || c == '\U{2028}' || c == '\U{2029}' || c == '\U{202F}'
    || c == '\U{205F}' || c == '\U{3000}' || c == '\U{FEFF}'
  }

  function Clean(s: string): string {
    if s == "" then ""
    else if IsStripped(s[0]) then Clean(s[1..])
    else [s[0]] + Clean(s[1..])
  }

  function Unsigned(s: string): string {
    if s != "" && s[0] == '-' then s[1..] else s
  }

  /** The text before the first dot, and the text after it. */
  function BeforeDot(s: string): (r: string)
    ensures |r| <= |s| && r == s[..|r|]
    ensures |r| < |s| ==> s[|r|] == '.'
    ensures '.' !in r
  {
    if s == "" || s[0] == '.' then "" else [s[0]] + BeforeDot(s[1..])
  }

  function AfterDot(s: string): string {
    var whole := BeforeDot(s);
    if |whole| < |s| then s[|whole| + 1..] else ""
  }

  /** The format `parseMoneyInput` accepts: an optional minus, digits, and optionally a dot
      followed by at least one digit. */
  predicate IsMoneyText(s: string) {
    var body := Unsigned(s);
    && BeforeDot(body) != ""
    && AllDigits(BeforeDot(body))
    && AllDigits(AfterDot(body))
    && (|BeforeDot(body)| < |body| ==> AfterDot(body) != "")
  }

  function PadEnd(s: string, width: nat): (r: string)
    ensures |r| >= width && |r| >= |s| && r[..|s|] == s
    ensures forall i :: |s| <= i < |r| ==> r[i] == '0'
    ensures |s| >= width ==> r == s
    decreases width - |s|
  {
    if |s| >= width then s else PadEnd(s + "0", width)
  }

  /** `BigInt(text)` on the part before the dot, minus sign included. */
  function SignedPart(s: string): int
    requires AllDigits(Unsigned(s))
  {
    if s != "" && s[0] == '-' then -(ParseNat(s[1..]) as int) else ParseNat(s)
  }

  // ---------------------------------------------------------------- parse and print

  /** `Money.fromString` on accepted text. Only the third decimal digit decides the rounding. */
  function FromString(clean: string): int
    requires IsMoneyText(clean)
  {
    var whole := SignedPart(BeforeDot(clean));
    var frac3 := PadEnd(AfterDot(clean), 3);
    var carry := if frac3[2] >= '5' then 1 else 0;
    var frac := ParseNat(frac3[..2]) + carry;
    var sign := if whole < 0 || clean[0] == '-' then -1 else 1;
    sign * (Abs(whole) * SCALE + frac)
  }

  datatype MoneyError = EmptyValue | InvalidFormat

  /** `parseMoneyInput` on text. */
  function ParseMoneyInput(value: string): Result<int, MoneyError> {
    if value == "" then Err(EmptyValue)
    else if !IsMoneyText(Clean(value)) then Err(InvalidFormat)
    else Ok(FromString(Clean(value)))
  }

  function PadStart2(s: string): string {
    if |s| >= 2 then s else if |s| == 1 then "0" + s else "00"
  }

  /** `Money.toString`. */
  function ToString(cents: int): string {
    var magnitude := Abs(cents);
    (if cents < 0 then "-" else "") + PrintNat(magnitude / SCALE) + "." + PadStart2(PrintNat(magnitude % SCALE))
  }

  // ---------------------------------------------------------------- what the text means

  /** The number an accepted decimal text denotes. */
  function Value(clean: string): real
    requires IsMoneyText(clean)
  {
    var body := Unsigned(clean);
    var digits := BeforeDot(body) + AfterDot(body);
    var magnitude := ParseNat(digits) as real / Pow10(|AfterDot(body)|) as real;
    if clean[0] == '-' then -magnitude else magnitude
  }

  /** Rounding to the nearest integer, halves away from zero. */
  function RoundHalfAway(x: real): int {
    if x >= 0.0 then (x + 0.5).Floor else -((-x + 0.5).Floor)
  }

  lemma FloorIs(x: real, n: int)
    requires n as real <= x < n as real + 1.0
    ensures x.Floor == n
  {
  }

  /** cents is n/p rounded to the nearest hundredth, in integers only. */
  predicate Rounds(n: nat, p: nat, cents: nat) {
    2 * p * cents <= 200 * n + p < 2 * p * cents + 2 * p
  }

  /** The rounding condition once products are plain variables: wq = w * q and so on. */
  lemma ThirdDigitLinear(wq: int, fq: int, dq: int, rest: int, q: int, up: bool)
    requires 0 <= rest < q && if up then 5 * q <= dq <= 9 * q else 0 <= dq <= 4 * q
    ensures
      var doubled := 200000 * wq + 2000 * fq + (if up then 2000 * q else 0);
      doubled <= 200 * (1000 * wq + 10 * fq + dq + rest) + 1000 * q < doubled + 2000 * q
  {
  }

  lemma NumeratorProducts(w: nat, f2: nat, q: nat)
    ensures w * (1000 * q) + f2 * (10 * q) == 1000 * (w * q) + 10 * (f2 * q)
  {
  }

  lemma CentsProducts(w: nat, f2: nat, carry: nat, q: nat)
    ensures 2 * (1000 * q) * (w * SCALE + f2 + carry) == 200000 * (w * q) + 2000 * (f2 * q) + 2000 * (carry * q)
  {
    assert (w * SCALE + f2 + carry) * q == SCALE * (w * q) + f2 * q + carry * q;
  }

  lemma DigitBounds(d: nat, q: nat)
    requires d < 10
    ensures if d >= 5 then 5 * q <= d * q <= 9 * q else 0 <= d * q <= 4 * q
  {
  }

  /** The integer core of the rounding rule: with p = 10^k, k >= 3, and the fraction split after
      its third digit, deciding on that digit alone is rounding the whole fraction. */
  lemma ThirdDigitDecides(w: nat, f2: nat, d3: nat, rest: nat, q: nat)
    requires q >= 1 && d3 < 10 && rest < q
    ensures Rounds(w * (1000 * q) + f2 * (10 * q) + d3 * q + rest, 1000 * q,
                   w * SCALE + f2 + (if d3 >= 5 then 1 else 0))
  {
    var carry := if d3 >= 5 then 1 else 0;
    NumeratorProducts(w, f2, q);
    CentsProducts(w, f2, carry, q);
    DigitBounds(d3, q);
    ThirdDigitLinear(w * q, f2 * q, d3 * q, rest, q, d3 >= 5);
  }

  lemma {:induction false} ZerosParse(s: string)
    requires forall i :: 0 <= i < |s| ==> s[i] == '0'
    ensures AllDigits(s) && ParseNat(s) == 0
  {
    if s != "" {
      ZerosParse(s[..|s| - 1]);
    }
  }

  lemma {:induction false} Pow10Adds(a: nat, b: nat)
    ensures Pow10(a + b) == Pow10(a) * Pow10(b)
  {
    if a > 0 {
      Pow10Adds(a - 1, b);
      assert Pow10(a + b) == 10 * Pow10(a - 1 + b);
    }
  }

  /** The digits of a decimal read as one integer. */
  function Numerator(w: nat, f: string): nat
    requires AllDigits(f)
  {
    w * Pow10(|f|) + ParseNat(f)
  }

  /** Padding the fraction with zeros scales numerator and denominator by the same power. */
  lemma PaddingScales(w: nat, f: string) returns (z: nat)
    requires AllDigits(f)
    ensures z >= 1
    ensures
      var g := PadEnd(f, 3);
      AllDigits(g) && Pow10(|g|) == Pow10(|f|) * z &&
      Numerator(w, g) == Numerator(w, f) * z
  {
    var g := PadEnd(f, 3);
    var zeros := g[|f|..];
    assert g == f + zeros;
    ZerosParse(zeros);
    ParseConcat(f, zeros);
    z := Pow10(|zeros|);
    Pow10Adds(|f|, |zeros|);
    Distribute(w, Pow10(|f|), ParseNat(f), z);
  }

  lemma Distribute(w: nat, p: nat, f: nat, z: nat)
    ensures w * (p * z) + (f * z + 0) == (w * p + f) * z
  {
    assert w * (p * z) == (w * p) * z;
  }

  lemma RoundsUnscaled(nz: nat, pz: nat, n: nat, p: nat, z: nat, cents: nat)
    requires z >= 1 && nz == n * z && pz == p * z && Rounds(nz, pz, cents)
    ensures Rounds(n, p, cents)
  {
    var a, b := 2 * p * cents, 200 * n + p;
    assert 2 * (p * z) * cents == a * z;
    assert 200 * (n * z) + p * z == b * z;
    assert 2 * (p * z) * cents + 2 * (p * z) == (a + 2 * p) * z;
  }

  /** A fraction of three digits or more, split after its third digit. */
  lemma SplitFraction(g: string)
    requires AllDigits(g) && |g| >= 3
    ensures
      var q := Pow10(|g| - 3);
      Pow10(|g|) == 1000 * q &&
      ParseNat(g[3..]) < q &&
      ParseNat(g) == ParseNat(g[..2]) * (10 * q) + DigitValue(g[2]) * q + ParseNat(g[3..])
  {
    var q := Pow10(|g| - 3);
    ParseBound(g[3..]);
    assert g == g[..2] + g[2..];
    ParseConcat(g[..2], g[2..]);
    assert g[2..] == [g[2]] + g[3..];
    ParseConcat([g[2]], g[3..]);
    assert ParseNat([g[2]]) == DigitValue(g[2]);
    assert Pow10(|g| - 2) == 10 * q;
    assert Pow10(|g| - 1) == 10 * Pow10(|g| - 2);
  }

  /** The cents of an unsigned text, as `fromString` computes them. */
  function Magnitude(w: nat, f: string): nat
    requires AllDigits(f)
  {
    var g := PadEnd(f, 3);
    w * SCALE + ParseNat(g[..2]) + (if g[2] >= '5' then 1 else 0)
  }

  lemma PaddedRounds(w: nat, g: string)
    requires AllDigits(g) && |g| >= 3
    ensures Rounds(Numerator(w, g), Pow10(|g|),
                   w * SCALE + ParseNat(g[..2]) + (if g[2] >= '5' then 1 else 0))
  {
    SplitFraction(g);
    ThirdDigitDecides(w, ParseNat(g[..2]), DigitValue(g[2]), ParseNat(g[3..]), Pow10(|g| - 3));
  }

  lemma PaddedMagnitudeRounds(w: nat, f: string)
    requires AllDigits(f) && AllDigits(PadEnd(f, 3))
    ensures Rounds(Numerator(w, PadEnd(f, 3)), Pow10(|PadEnd(f, 3)|), Magnitude(w, f))
  {
    PaddedRounds(w, PadEnd(f, 3));
  }

  /** Digits w and a fraction f: the cents the code computes are the rounded value. */
  lemma MagnitudeRounds(w: nat, f: string)
    requires AllDigits(f)
    ensures Rounds(Numerator(w, f), Pow10(|f|), Magnitude(w, f))
  {
    var z := PaddingScales(w, f);
    var g := PadEnd(f, 3);
    PaddedMagnitudeRounds(w, f);
    RoundsUnscaled(Numerator(w, g), Pow10(|g|), Numerator(w, f), Pow10(|f|), z, Magnitude(w, f));
  }

  /** The integer form of rounding agrees with the floor of the real quotient. */
  lemma RoundsIsFloor(n: nat, p: nat, cents: nat)
    requires p >= 1 && Rounds(n, p, cents)
    ensures n as real / p as real >= 0.0
    ensures (100.0 * (n as real / p as real) + 0.5).Floor == cents
  {
    var x, pr := n as real / p as real, p as real;
    var y := 100.0 * x + 0.5;
    assert y * pr == 100.0 * (x * pr) + 0.5 * pr;
    FloorByScaling(y, pr, n, p, cents);
  }

  lemma FloorByScaling(y: real, pr: real, n: nat, p: nat, cents: nat)
    requires p >= 1 && pr == p as real && Rounds(n, p, cents)
    requires y * pr == 100.0 * n as real + 0.5 * pr
    ensures y.Floor == cents
  {
    var c := cents as real;
    RealScaleLe(c, y, pr);
    RealScaleLe(c + 1.0, y, pr);
    FloorIs(y, cents);
  }

  lemma RealScaleLe(a: real, b: real, z: real)
    requires z > 0.0
    ensures a * z <= b * z <==> a <= b
  {
    if a < b {
      assert (b - a) * z > 0.0;
    } else if b < a {
      assert (a - b) * z > 0.0;
    }
  }

  // ---------------------------------------------------------------- main results

  /** On accepted text of any length, parsing is rounding to the nearest cent, halves away from
      zero, although only one digit is inspected. */
  lemma ParsingRounds(clean: string)
    requires IsMoneyText(clean)
    ensures FromString(clean) == RoundHalfAway(100.0 * Value(clean))
  {
    UnsignedRounds(BeforeDot(Unsigned(clean)), AfterDot(Unsigned(clean)));
    FromStringBySign(clean);
    var x := 100.0 * Value(clean);
    if clean[0] == '-' {
      NegatedRounds(-x);
    }
  }

  lemma NegatedRounds(x: real)
    requires x >= 0.0
    ensures RoundHalfAway(-x) == -RoundHalfAway(x)
  {
    if x == 0.0 {
      FloorIs(x + 0.5, 0);
    }
  }

  /** The digits before and after the dot, read as a number, round to the cents the code computes. */
  lemma UnsignedRounds(whole: string, f: string)
    requires AllDigits(whole) && AllDigits(f)
    ensures AllDigits(whole + f)
    ensures
      var v := ParseNat(whole + f) as real / Pow10(|f|) as real;
      v >= 0.0 && RoundHalfAway(100.0 * v) == Magnitude(ParseNat(whole), f)
  {
    var w := ParseNat(whole);
    ParseConcat(whole, f);
    MagnitudeRounds(w, f);
    RoundsIsFloor(Numerator(w, f), Pow10(|f|), Magnitude(w, f));
  }

  lemma FromStringBySign(clean: string)
    requires IsMoneyText(clean)
    ensures
      var body := Unsigned(clean);
      var cents := Magnitude(ParseNat(BeforeDot(body)), AfterDot(body));
      FromString(clean) == if clean[0] == '-' then -(cents as int) else cents
  {
    var body := Unsigned(clean);
    if clean[0] == '-' {
      assert BeforeDot(clean)[1..] == BeforeDot(body);
    }
  }

  /** The parsed amount is never more than half a cent off. */
  lemma ParsingErrorAtMostHalfACent(clean: string)
    requires IsMoneyText(clean)
    ensures -0.5 <= FromString(clean) as real - 100.0 * Value(clean) <= 0.5
  {
    ParsingRounds(clean);
    var x := 100.0 * Value(clean);
    if x >= 0.0 {
      assert (x + 0.5).Floor as real <= x + 0.5 < (x + 0.5).Floor as real + 1.0;
    } else {
      assert (-x + 0.5).Floor as real <= -x + 0.5 < (-x + 0.5).Floor as real + 1.0;
    }
  }

  /** A larger decimal never parses to fewer cents. */
  lemma ParsingIsMonotone(a: string, b: string)
    requires IsMoneyText(a) && IsMoneyText(b) && Value(a) <= Value(b)
    ensures FromString(a) <= FromString(b)
  {
    ParsingRounds(a);
    ParsingRounds(b);
  }

  lemma {:induction false} BeforeDotOfConcat(digits: string, tail: string)
    requires AllDigits(digits)
    ensures BeforeDot(digits + "." + tail) == digits
  {
    var s := digits + "." + tail;
    if digits != "" {
      assert s[1..] == digits[1..] + "." + tail;
      BeforeDotOfConcat(digits[1..], tail);
    }
  }

  lemma {:induction false} CleanKeepsDigits(s: string)
    requires forall i :: 0 <= i < |s| ==> IsDigit(s[i]) || s[i] == '.' || s[i] == '-'
    ensures Clean(s) == s
  {
    if s != "" {
      CleanKeepsDigits(s[1..]);
    }
  }

  lemma PadStart2Parses(n: nat)
    requires n < 100
    ensures var s := PadStart2(PrintNat(n)); |s| == 2 && AllDigits(s) && ParseNat(s) == n
  {
    if n < 10 {
      var t := PrintNat(n);
      ParseConcat("0", t);
      assert ParseNat("0") == 0;
    } else {
      assert PrintNat(n / 10) == [DigitChar(n / 10)];
      assert PrintNat(n) == [DigitChar(n / 10)] + [DigitChar(n % 10)];
    }
  }

  /** Printing any number of cents gives accepted text that parses back to exactly that number. */
  lemma PrintThenParse(cents: int)
    ensures ParseMoneyInput(ToString(cents)) == Ok(cents)
  {
    PrintedIsAccepted(cents);
    FromStringBySign(ToString(cents));
    PrintedMagnitude(Abs(cents));
    PadStart2Parses(Abs(cents) % SCALE);
    PrintedIsClean(cents);
  }

  lemma PrintedParts(whole: string, frac: string)
    requires AllDigits(whole)
    ensures BeforeDot(whole + "." + frac) == whole && AfterDot(whole + "." + frac) == frac
  {
    BeforeDotOfConcat(whole, frac);
  }

  /** Printed text is of the accepted format, with the printed cents in its two parts. */
  lemma PrintedIsAccepted(cents: int)
    ensures
      var text, m := ToString(cents), Abs(cents);
      && IsMoneyText(text) && (text[0] == '-' <==> cents < 0)
      && BeforeDot(Unsigned(text)) == PrintNat(m / SCALE) && AfterDot(Unsigned(text)) == PadStart2(PrintNat(m % SCALE))
  {
    var m := Abs(cents);
    var whole, frac := PrintNat(m / SCALE), PadStart2(PrintNat(m % SCALE));
    PadStart2Parses(m % SCALE);
    SignOfPrinted(cents, whole + "." + frac);
    PrintedParts(whole, frac);
  }

  lemma PrintedIsClean(cents: int)
    ensures Clean(ToString(cents)) == ToString(cents)
  {
    PadStart2Parses(Abs(cents) % SCALE);
    CleanKeepsDigits(ToString(cents));
  }

  lemma PrintedMagnitude(m: nat)
    ensures
      var frac := PadStart2(PrintNat(m % SCALE));
      AllDigits(frac) && Magnitude(ParseNat(PrintNat(m / SCALE)), frac) == m
  {
    var frac := PadStart2(PrintNat(m % SCALE));
    PadStart2Parses(m % SCALE);
    var g := PadEnd(frac, 3);
    assert g[..2] == frac && g[2] == '0';
  }

  lemma SignOfPrinted(cents: int, body: string)
    requires body == PrintNat(Abs(cents) / SCALE) + "." + PadStart2(PrintNat(Abs(cents) % SCALE))
    ensures ToString(cents) != "" && (ToString(cents)[0] == '-' <==> cents < 0)
    ensures Unsigned(ToString(cents)) == body
  {
    var text := ToString(cents);
    if cents < 0 {
      assert text == "-" + body;
      assert text[1..] == body;
    } else {
      assert text == body;
      assert body[0] == PrintNat(Abs(cents) / SCALE)[0];
    }
  }
}

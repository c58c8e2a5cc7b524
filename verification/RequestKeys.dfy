/** What the canonical form of a request makes of its keys, and which requests are empty
    (services/payment-service/src/idempotency.mjs:7-23). */
module RequestKeys {
  import opened Basics
  import opened RequestHash
  import Money

  /** The first character of a text that differs from another decides, and of a text and its prefix the prefix is less. */
  lemma {:induction false} LexByFirstDifference(a: string, b: string, k: nat)
    requires k <= |a| && k <= |b| && a[..k] == b[..k]
    ensures k < |a| && k < |b| && a[k] != b[k] ==> (LexLess(a, b) <==> a[k] < b[k])
    ensures k == |a| ==> (LexLess(a, b) <==> |a| < |b|)
    decreases k
  {
    if k > 0 {
      assert a[0] == a[..k][0] && b[0] == b[..k][0];
      assert a[1..][..k - 1] == a[..k][1..] && b[1..][..k - 1] == b[..k][1..];
      LexByFirstDifference(a[1..], b[1..], k - 1);
    }
  }

  // ---------------------------------------------------------------- array indices

  lemma DigitsAreDigits(s: string)
    ensures Digits(s) <==> Money.AllDigits(s)
  {
  }

  predicate NoLeadingZero(s: string) {
    s == "0" || (s != [] && s[0] != '0')
  }

  lemma {:induction false} PrintedHasNoLeadingZero(n: nat)
    ensures NoLeadingZero(Money.PrintNat(n)) && (n > 0 ==> Money.PrintNat(n)[0] != '0')
  {
    if n >= 10 {
      PrintedHasNoLeadingZero(n / 10);
    }
  }

  /** A decimal numeral without leading zeros is the one that is printed for its value. */
  lemma {:induction false} ParseThenPrint(s: string)
    requires Money.AllDigits(s) && s != [] && s[0] != '0'
    ensures Money.ParseNat(s) > 0 && Money.PrintNat(Money.ParseNat(s)) == s
  {
    var front, last := s[..|s| - 1], s[|s| - 1];
    assert s == front + [last];
    if front == [] {
      assert Money.ParseNat(s) == Money.DigitValue(last);
    } else {
      ParseThenPrint(front);
      assert Money.ParseNat(s) / 10 == Money.ParseNat(front) && Money.ParseNat(s) % 10 == Money.DigitValue(last);
    }
    assert Money.DigitChar(Money.DigitValue(last)) == last;
  }

  lemma {:induction false} PowersGrow(a: nat, b: nat)
    requires a <= b
    ensures Money.Pow10(a) <= Money.Pow10(b)
    decreases b - a
  {
    if a < b {
      PowersGrow(a, b - 1);
    }
  }

  lemma AtLeastPower(d: nat, p: nat, rest: nat)
    requires d >= 1
    ensures d * p + rest >= p
  {
    assert d * p == (d - 1) * p + p && (d - 1) * p >= 0;
  }

  /** A longer numeral has a greater value. */
  lemma LongerIsGreater(a: string, b: string)
    requires Money.AllDigits(a) && Money.AllDigits(b) && NoLeadingZero(b) && 0 < |a| < |b|
    ensures Money.ParseNat(a) < Money.ParseNat(b)
  {
    Money.ParseBound(a);
    PowersGrow(|a|, |b| - 1);
    FirstDigitCounts(b);
    AtLeastPower(Money.DigitValue(b[0]), Money.Pow10(|b| - 1), Money.ParseNat(b[1..]));
  }

  lemma FirstDigitCounts(s: string)
    requires Money.AllDigits(s) && s != []
    ensures Money.ParseNat(s) == Money.DigitValue(s[0]) * Money.Pow10(|s| - 1) + Money.ParseNat(s[1..])
  {
    assert s == [s[0]] + s[1..];
    Money.ParseConcat([s[0]], s[1..]);
    assert Money.ParseNat([s[0]]) == Money.DigitValue(s[0]) by { assert [s[0]][..0] == []; }
  }

  lemma HighDigitDecides(x: nat, u: nat, y: nat, v: nat, p: nat)
    requires u < p && v < p
    ensures x * p + u < y * p + v <==> x < y || (x == y && u < v)
  {
    if x < y {
      assert (x + 1) * p <= y * p;
    } else if y < x {
      assert (y + 1) * p <= x * p;
    }
  }

  /** Numerals of one length are ordered by their digits. */
  lemma {:induction false} SameLengthByDigits(a: string, b: string)
    requires Money.AllDigits(a) && Money.AllDigits(b) && |a| == |b|
    ensures LexLess(a, b) <==> Money.ParseNat(a) < Money.ParseNat(b)
    decreases |a|
  {
    if a != [] {
      FirstDigitCounts(a);
      FirstDigitCounts(b);
      Money.ParseBound(a[1..]);
      Money.ParseBound(b[1..]);
      SameLengthByDigits(a[1..], b[1..]);
      HighDigitDecides(
        Money.DigitValue(a[0]), Money.ParseNat(a[1..]), Money.DigitValue(b[0]), Money.ParseNat(b[1..]), Money.Pow10(|a| - 1));
    }
  }

  lemma NumeralsInOrder(a: string, b: string)
    requires Money.AllDigits(a) && Money.AllDigits(b) && NoLeadingZero(a) && NoLeadingZero(b)
    ensures Money.ParseNat(a) < Money.ParseNat(b) <==> |a| < |b| || (|a| == |b| && LexLess(a, b))
  {
    if |a| < |b| {
      LongerIsGreater(a, b);
    } else if |b| < |a| {
      LongerIsGreater(b, a);
    } else {
      SameLengthByDigits(a, b);
    }
  }

  lemma NextDigit(n: nat, d: nat)
    requires n > 0 && d < 10
    ensures Money.PrintNat(10 * n + d) == Money.PrintNat(n) + [Money.DigitChar(d)]
  {
    assert (10 * n + d) / 10 == n && (10 * n + d) % 10 == d;
  }

  lemma LimitPrints()
    ensures Money.PrintNat(4294967295) == "4294967295"
  {
    NextDigit(4, 2);
    NextDigit(42, 9);
    NextDigit(429, 4);
    NextDigit(4294, 9);
    NextDigit(42949, 6);
    NextDigit(429496, 7);
    NextDigit(4294967, 2);
    NextDigit(42949672, 9);
    NextDigit(429496729, 5);
    assert Money.PrintNat(4) == "4";
  }

  lemma LimitParses()
    ensures Money.AllDigits("4294967295") && NoLeadingZero("4294967295") && Money.ParseNat("4294967295") == 4294967295
  {
    LimitPrints();
  }

  lemma NumeralOfItsValue(s: string)
    requires Money.AllDigits(s) && NoLeadingZero(s)
    ensures s == Money.PrintNat(Money.ParseNat(s))
  {
    if s == "0" {
      assert s[..0] == [] && Money.ParseNat(s) == 0;
    } else {
      ParseThenPrint(s);
    }
  }

  /** An array index is the decimal form of a number below 2^32 - 1. */
  lemma IndexExactlyWhen(s: string)
    ensures IsIndex(s) <==> exists n: nat :: n < 4294967295 && s == Money.PrintNat(n)
  {
    DigitsAreDigits(s);
    LimitParses();
    if Digits(s) && NoLeadingZero(s) {
      NumeralsInOrder(s, "4294967295");
      NumeralOfItsValue(s);
      assert IsIndex(s) <==> Money.ParseNat(s) < 4294967295;
    }
    if n: nat :| n < 4294967295 && s == Money.PrintNat(n) {
      PrintedHasNoLeadingZero(n);
    }
  }

  /** Keys that are array indices come first, by their value; all others follow, by their characters. */
  lemma KeysInOrder(m: nat, n: nat, a: string, b: string)
    requires m < 4294967295 && n < 4294967295 && !IsIndex(a) && !IsIndex(b)
    ensures Before(Money.PrintNat(m), Money.PrintNat(n)) <==> m < n
    ensures Before(Money.PrintNat(m), a) && !Before(a, Money.PrintNat(m))
    ensures Before(a, b) <==> LexLess(a, b)
  {
    IndexExactlyWhen(Money.PrintNat(m));
    IndexExactlyWhen(Money.PrintNat(n));
    PrintedHasNoLeadingZero(m);
    PrintedHasNoLeadingZero(n);
    NumeralsInOrder(Money.PrintNat(m), Money.PrintNat(n));
  }

  // ---------------------------------------------------------------- requests without a body

  /** A request without a body counts as an empty object, any other as what it is: the fingerprint of a
      null body is shared exactly by objects that hold nothing but "__proto__" members. */
  lemma NoBodyIsEmptyObject(x: Json)
    requires WellFormed(x)
    ensures Canonical(x) == Canonical(Null) <==> x == Null || Strip(x) == Obj(NoFields)
    ensures x != Null ==> (Canonical(x) == SortKeys(x))
  {
    assert SortFields(NoFields) == NoFields && Strip(Obj(NoFields)) == Obj(NoFields);
    SameCanonicalExactlyWhenPermuted(x, Null);
  }
}

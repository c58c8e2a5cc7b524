/** Which texts are amounts: the cleaning step and the accepted format, character by character
    (packages/shared/money.mjs:36 and 118-142). */
module MoneyText {
  import opened Basics
  import opened Money

  /** White space and line ends as ECMAScript has them (WhiteSpace and LineTerminator of its lexical grammar). */
  const SPACES: set<int> := {
    0x9, 0xA, 0xB, 0xC, 0xD, 0x20, 0xA0, 0x1680,
    0x2000, 0x2001, 0x2002, 0x2003, 0x2004, 0x2005, 0x2006, 0x2007, 0x2008, 0x2009, 0x200A,
    0x2028, 0x2029, 0x202F, 0x205F, 0x3000, 0xFEFF}

  /** What cleaning takes out of a text: commas and white space. */
  lemma StrippedExactlyWhen(c: char)
    ensures IsStripped(c) <==> c == ',' || c as int in SPACES
  {
  }

  /** The cleaned text is what is left of each character, in order. */
  lemma {:induction false} CleanedInOrder(a: string, b: string)
    ensures Clean(a + b) == Clean(a) + Clean(b)
    ensures forall c: char :: Clean([c]) == if c == ',' || c as int in SPACES then "" else [c]
    decreases |a|
  {
    forall c: char ensures Clean([c]) == if c == ',' || c as int in SPACES then "" else [c] {
      StrippedExactlyWhen(c);
      assert [c][1..] == "";
    }
    if a == "" {
      assert a + b == b;
    } else {
      assert (a + b)[1..] == a[1..] + b;
      CleanedInOrder(a[1..], b);
    }
  }

  /** An optional minus, digits, and optionally a dot with digits after it. */
  function Written(minus: bool, whole: string, frac: string): string {
    (if minus then "-" else "") + whole + (if frac == "" then "" else "." + frac)
  }

  lemma {:induction false} DigitsBeforeDot(whole: string, tail: string)
    requires AllDigits(whole) && (tail == "" || tail[0] == '.')
    ensures BeforeDot(whole + tail) == whole
    decreases |whole|
  {
    if whole != "" {
      assert (whole + tail)[1..] == whole[1..] + tail;
      DigitsBeforeDot(whole[1..], tail);
    } else {
      assert whole + tail == tail;
    }
  }

  lemma WrittenIsMoney(minus: bool, whole: string, frac: string)
    requires whole != "" && AllDigits(whole) && AllDigits(frac)
    ensures IsMoneyText(Written(minus, whole, frac))
  {
    var tail := if frac == "" then "" else "." + frac;
    var s := Written(minus, whole, frac);
    assert Unsigned(s) == whole + tail by {
      if minus {
        assert s == "-" + (whole + tail);
      }
    }
    DigitsBeforeDot(whole, tail);
    assert AfterDot(whole + tail) == frac;
  }

  lemma AroundTheDot(body: string)
    requires |BeforeDot(body)| < |body|
    ensures body == BeforeDot(body) + ("." + AfterDot(body))
  {
  }

  lemma BodyIsWritten(body: string)
    requires |BeforeDot(body)| < |body| ==> AfterDot(body) != ""
    ensures body == Written(false, BeforeDot(body), AfterDot(body))
  {
    if |BeforeDot(body)| < |body| {
      AroundTheDot(body);
    } else {
      assert AfterDot(body) == "";
    }
  }

  lemma MoneyIsWritten(s: string)
    requires IsMoneyText(s)
    ensures
      var body := Unsigned(s);
      s == Written(s != body, BeforeDot(body), AfterDot(body))
  {
    BodyIsWritten(Unsigned(s));
    if s != Unsigned(s) {
      assert s == "-" + Unsigned(s);
    }
  }

  /** The answers of `parseMoneyInput` to a text, each exactly when. */
  lemma AnswersExactlyWhen(value: string)
    ensures ParseMoneyInput(value) == Err(EmptyValue) <==> value == ""
    ensures ParseMoneyInput(value).Ok? <==>
      exists minus, whole, frac :: whole != "" && AllDigits(whole) && AllDigits(frac) && Clean(value) == Written(minus, whole, frac)
    ensures ParseMoneyInput(value).Err? && value != "" ==> ParseMoneyInput(value) == Err(InvalidFormat)
  {
    if ParseMoneyInput(value).Ok? {
      MoneyIsWritten(Clean(value));
    }
    if minus, whole, frac :| whole != "" && AllDigits(whole) && AllDigits(frac) && Clean(value) == Written(minus, whole, frac) {
      WrittenIsMoney(minus, whole, frac);
    }
  }
}

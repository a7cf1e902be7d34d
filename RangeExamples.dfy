/**
 * The range reader on concrete expressions: what each kind of expression
 * reads as, and the errors for malformed ones.
 */
module RangeExamples {
  import opened Wrappers
  import opened Expectations
  import opened CharReader
  import opened ExpectRange
  import opened RangeProperties
  import Specs

  /** The values of the digit strings the examples use. */
  lemma DigitValues()
    ensures DigitsValue("10") == 10 && DigitsValue("20") == 20
    ensures DigitsValue("50") == 50 && DigitsValue("100") == 100
  {
    assert "100"[..2] == "10" && "10"[..1] == "1" && "20"[..1] == "2" && "50"[..1] == "5";
    assert "1"[..0] == "" && "2"[..0] == "" && "5"[..0] == "";
  }

  /** A point may start or end a number; a text without digits is not a number. */
  lemma ParseDoubleExamples()
    ensures ParseDouble("2.5") == Some(2.5)
    ensures ParseDouble(".") == None && ParseDouble("") == None
  {
    assert "2.5"[0] == '2' && PointIndex("2.5") == 1;
    assert "2.5"[..1] == "2" && "2.5"[2..] == "5";
    assert "2"[..0] == "" && "5"[..0] == "";
    assert !HasDigit(".") by { assert "."[0] == '.'; }
  }

  /** Digits after at most one prefix symbol and before `px` read as their value; the cursor stops on the `p`. */
  lemma NumberBeforePx(s: string, p: nat, j: nat)
    requires p <= 1 && p < j && j + 2 == |s|
    requires AllNumeric(s[p..j]) && s[j..] == "px"
    requires p == 1 ==> !IsNumeric(s[0]) && s[0] != '.'
    ensures DoubleAt(s, 0) == Ok(Scanned(DigitsValue(s[p..j]) as real, j))
  {
    forall k | p <= k < j ensures IsNumeric(s[k]) {
      assert s[k] == s[p..j][k - p];
    }
    assert s[j] == s[j..][0] == 'p';
    IntegerAt(s, 0, p, j);
  }

  /** A trailing `px` reads as the unit word and ends the text. */
  lemma PxAt(s: string, i: nat)
    requires i + 2 == |s| && s[i..] == "px"
    ensures NonNumericAt(s, i) == Scanned("px", |s|)
  {
    assert s[i] == s[i..][0] == 'p' && s[i + 1] == s[i..][1] == 'x';
    NonNumericWordAt(s, i, |s|);
    assert s[i..|s|] == s[i..];
  }

  /** `100px` is exactly 100. */
  lemma ExactPixels(s: string)
    requires s == "100px"
    ensures RangeAt(s, 0) == Ok(Scanned(Specs.Range(Specs.Exact(100.0), None), 5))
  {
    DigitValues();
    assert s[0..3] == "100" && s[3..] == "px";
    NumberBeforePx(s, 0, 3);
    PxAt(s, 3);
    assert FirstNonWhitespace(s, 0) == Some('1');
    PxEndsRange(s, 0);
  }

  /** `~100px` is 100 with the tolerance 1 on each side. */
  lemma ApproximateHundred(s: string)
    requires s == "~100px"
    ensures RangeAt(s, 0) == Ok(Scanned(Specs.Range(Specs.Between(99.0, 101.0), None), 6))
  {
    DigitValues();
    assert s[1..4] == "100" && s[4..] == "px";
    NumberBeforePx(s, 1, 4);
    PxAt(s, 4);
    assert FirstNonWhitespace(s, 0) == Some('~');
    PxEndsRange(s, 0);
    assert CreateRange(100.0, Approximate) == Specs.Between(99.0, 101.0);
  }

  /** `~50px`: half a pixel would be under the floor of 1, so the tolerance is 1. */
  lemma ApproximateFifty(s: string)
    requires s == "~50px"
    ensures RangeAt(s, 0) == Ok(Scanned(Specs.Range(Specs.Between(49.0, 51.0), None), 5))
  {
    DigitValues();
    assert s[1..3] == "50" && s[3..] == "px";
    NumberBeforePx(s, 1, 3);
    PxAt(s, 3);
    assert FirstNonWhitespace(s, 0) == Some('~');
    PxEndsRange(s, 0);
    assert CreateRange(50.0, Approximate) == Specs.Between(49.0, 51.0);
  }

  /** `>10px` is anything greater than 10. */
  lemma GreaterThanTen(s: string)
    requires s == ">10px"
    ensures RangeAt(s, 0) == Ok(Scanned(Specs.Range(Specs.GreaterThan(10.0), None), 5))
  {
    DigitValues();
    assert s[1..3] == "10" && s[3..] == "px";
    NumberBeforePx(s, 1, 3);
    PxAt(s, 3);
    assert FirstNonWhitespace(s, 0) == Some('>');
    PxEndsRange(s, 0);
  }

  /** `<10px` is anything less than 10. */
  lemma LessThanTen(s: string)
    requires s == "<10px"
    ensures RangeAt(s, 0) == Ok(Scanned(Specs.Range(Specs.LessThan(10.0), None), 5))
  {
    DigitValues();
    assert s[1..3] == "10" && s[3..] == "px";
    NumberBeforePx(s, 1, 3);
    PxAt(s, 3);
    assert FirstNonWhitespace(s, 0) == Some('<');
    PxEndsRange(s, 0);
  }

  /** `10 to 20px` is the closed range from 10 to 20. */
  lemma TenToTwentyPixels(s: string)
    requires s == "10 to 20px"
    ensures RangeAt(s, 0) == Ok(Scanned(Specs.Range(Specs.Between(10.0, 20.0), None), 10))
  {
    TenToTwentyAt(s);
    PxAt(s, 8);
    assert FirstNonWhitespace(s, 0) == Some('1');
    ToGivesBetween(s, 0);
  }

  /** `10 to 20%` with nothing after it lacks the value path of the relative range. */
  lemma TenToTwentyPercentWithoutPath(s: string)
    requires s == "10 to 20%"
    ensures RangeAt(s, 0) == Err(SyntaxException(MissingValuePath, NoCause))
  {
    TenToTwentyAt(s);
    PercentWithoutPathAt(s);
    assert FirstNonWhitespace(s, 0) == Some('1');
  }

  /** After `10 to 20%` there is no `of` clause. */
  lemma PercentWithoutPathAt(s: string)
    requires s == "10 to 20%"
    ensures NonNumericAt(s, 8) == Scanned("%", 9)
    ensures PercentageOfAt(s, 9).Err?
  {
    NonNumericWordAt(s, 8, 9);
    assert s[8..9] == "%";
    assert NonNumericAt(s, 9).value == "";
  }

  /** The common part of `10 to 20px` and `10 to 20%`: two numbers joined by `to`. */
  lemma TenToTwentyAt(s: string)
    requires |s| > 8 && s[..8] == "10 to 20" && !IsNumeric(s[8]) && !IsDelimiter(s[8]) && s[8] != '.'
    ensures DoubleAt(s, 0) == Ok(Scanned(10.0, 3))
    ensures NonNumericAt(s, 3) == Scanned("to", 6)
    ensures DoubleAt(s, 6) == Ok(Scanned(20.0, 8))
  {
    assert s[0] == '1' && s[1] == '0' && s[2] == ' ' && s[3] == 't' && s[4] == 'o' && s[5] == ' ';
    assert s[6] == '2' && s[7] == '0';
    DigitValues();
    IntegerAt(s, 0, 0, 2);
    assert s[0..2] == "10";
    NonNumericWordAt(s, 3, 5);
    assert s[3..5] == "to";
    IntegerAt(s, 6, 6, 8);
    assert s[6..8] == "20";
  }

  /** `50% of width` is exactly 50 percent of the quantity `width`. */
  lemma FiftyPercentOfWidth(s: string)
    requires s == "50% of width"
    ensures RangeAt(s, 0) == Ok(Scanned(Specs.Range(Specs.Exact(50.0), Some("width")), 12))
  {
    FiftyPercentAt(s);
    OfWidthAt(s);
    assert FirstNonWhitespace(s, 0) == Some('5');
  }

  /** The number and the unit word of `50% of width`. */
  lemma FiftyPercentAt(s: string)
    requires s == "50% of width"
    ensures DoubleAt(s, 0) == Ok(Scanned(50.0, 2))
    ensures NonNumericAt(s, 2) == Scanned("%", 4)
  {
    DigitValues();
    IntegerAt(s, 0, 0, 2);
    assert s[0..2] == "50";
    NonNumericWordAt(s, 2, 3);
    assert s[2..3] == "%";
  }

  /** The `of` clause of `50% of width`. */
  lemma OfWidthAt(s: string)
    requires s == "50% of width"
    ensures PercentageOfAt(s, 4) == Ok(Scanned("width", 12))
  {
    NonNumericWordAt(s, 4, 6);
    assert s[4..6] == "of";
    AnyWordAtWord(s, 7, 12);
    assert s[7..12] == "width";
    assert TrimStart("width", 0) == 0 && TrimEnd("width", 0, 5) == 5;
    assert Trim("width") == "width";
  }

  /** `1.2.3px` holds a second decimal point. */
  lemma SecondPoint(s: string)
    requires s == "1.2.3px"
    ensures RangeAt(s, 0) == Err(SyntaxException(MsgFor("."), NoCause))
  {
    assert [] + ['1'] == "1" && "1" + ['.'] == "1." && "1." + ['2'] == "1.2";
    assert DoubleFrom(s, 2, true, true, "1.") == DoubleFrom(s, 3, true, true, "1.2");
    assert DoubleFrom(s, 1, true, false, "1") == DoubleFrom(s, 2, true, true, "1.");
    assert DoubleFrom(s, 0, false, false, "") == DoubleFrom(s, 1, true, false, "1");
  }

  /** `~10 to 20px` combines a prefix with `to`, which the grammar does not allow. */
  lemma PrefixWithTo(s: string)
    requires s == "~10 to 20px"
    ensures RangeAt(s, 0) == Err(SyntaxException(MsgFor("to"), NoCause))
  {
    TildeTenToAt(s);
    assert FirstNonWhitespace(s, 0) == Some('~');
    PrefixNeedsUnit(s, 0);
  }

  /** The number and the connector of `~10 to 20px`. */
  lemma TildeTenToAt(s: string)
    requires s == "~10 to 20px"
    ensures DoubleAt(s, 0) == Ok(Scanned(10.0, 4))
    ensures NonNumericAt(s, 4) == Scanned("to", 7)
  {
    TildeTenAt(s);
    NonNumericWordAt(s, 4, 6);
    assert s[4..6] == "to";
  }

  /** The number of `~10 to 20px`, after the prefix symbol it skips. */
  lemma TildeTenAt(s: string)
    requires s == "~10 to 20px"
    ensures DoubleAt(s, 0) == Ok(Scanned(10.0, 4))
  {
    DigitValues();
    IntegerAt(s, 0, 1, 3);
    assert s[1..3] == "10";
  }
}

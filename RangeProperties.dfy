/** What the range reader promises, stated over its specification functions. */
module RangeProperties {
  import opened Wrappers
  import opened Expectations
  import opened CharReader
  import opened ExpectRange
  import Specs

  /** The number scanner passes over a run of digits in one go, appending all of it. */
  lemma {:induction false} DoubleFromDigits(s: string, i: nat, j: nat, started: bool, hadPoint: bool, buf: string)
    requires i < j <= |s|
    requires forall k :: i <= k < j ==> IsNumeric(s[k])
    ensures DoubleFrom(s, i, started, hadPoint, buf) == DoubleFrom(s, j, true, hadPoint, buf + s[i..j])
    decreases j - i
  {
    assert buf + s[i..j] == (buf + [s[i]]) + s[i + 1..j];
    assert DoubleFrom(s, i, started, hadPoint, buf) == DoubleFrom(s, i + 1, true, hadPoint, buf + [s[i]]);
    if i + 1 < j {
      DoubleFromDigits(s, i + 1, j, true, hadPoint, buf + [s[i]]);
    } else {
      assert buf + s[i..j] == buf + [s[i]];
    }
  }

  /** The non-numeric scanner passes over a run of symbols that are neither digits nor delimiters in one go. */
  lemma {:induction false} NonNumericFromWord(s: string, i: nat, j: nat, started: bool, buf: string)
    requires i < j <= |s|
    requires forall k :: i <= k < j ==> !IsNumeric(s[k]) && !IsDelimiter(s[k])
    ensures NonNumericFrom(s, i, started, buf) == NonNumericFrom(s, j, true, buf + s[i..j])
    decreases j - i
  {
    assert buf + s[i..j] == (buf + [s[i]]) + s[i + 1..j];
    assert NonNumericFrom(s, i, started, buf) == NonNumericFrom(s, i + 1, true, buf + [s[i]]);
    if i + 1 < j {
      NonNumericFromWord(s, i + 1, j, true, buf + [s[i]]);
    } else {
      assert buf + s[i..j] == buf + [s[i]];
    }
  }

  /** The any-word scanner passes over a run of non-delimiters in one go. */
  lemma {:induction false} AnyWordFromWord(s: string, i: nat, j: nat, started: bool, buf: string)
    requires i < j <= |s|
    requires forall k :: i <= k < j ==> !IsDelimiter(s[k])
    ensures AnyWordFrom(s, i, started, buf) == AnyWordFrom(s, j, true, buf + s[i..j])
    decreases j - i
  {
    assert buf + s[i..j] == (buf + [s[i]]) + s[i + 1..j];
    assert AnyWordFrom(s, i, started, buf) == AnyWordFrom(s, i + 1, true, buf + [s[i]]);
    if i + 1 < j {
      AnyWordFromWord(s, i + 1, j, true, buf + [s[i]]);
    } else {
      assert buf + s[i..j] == buf + [s[i]];
    }
  }

  /** Before the first digit or point, the number scanner skips every other symbol, delimiters included. */
  lemma {:induction false} DoubleFromSkips(s: string, i: nat, p: nat, hadPoint: bool, buf: string)
    requires i <= p <= |s|
    requires forall k :: i <= k < p ==> !IsNumeric(s[k]) && s[k] != '.'
    ensures DoubleFrom(s, i, false, hadPoint, buf) == DoubleFrom(s, p, false, hadPoint, buf)
    decreases p - i
  {
    if i < p {
      DoubleFromSkips(s, i + 1, p, hadPoint, buf);
    }
  }

  /**
   * A whole number written after symbols that are neither digits nor points
   * reads as its value; a delimiter right after it is consumed with it.
   */
  lemma IntegerAt(s: string, i: nat, p: nat, j: nat)
    requires i <= p < j <= |s|
    requires forall k :: i <= k < p ==> !IsNumeric(s[k]) && s[k] != '.'
    requires forall k :: p <= k < j ==> IsNumeric(s[k])
    requires j == |s| || (!IsNumeric(s[j]) && s[j] != '.')
    ensures DoubleAt(s, i) == Ok(Scanned(DigitsValue(s[p..j]) as real, if j < |s| && IsDelimiter(s[j]) then j + 1 else j))
  {
    DoubleFromSkips(s, i, p, false, []);
    DoubleFromDigits(s, p, j, false, false, []);
    assert [] + s[p..j] == s[p..j];
    var t := s[p..j];
    assert IsNumeric(t[0]);
    assert t[..PointIndex(t)] == t;
    assert ParseDouble(t) == Some(DigitsValue(t) as real);
  }

  /**
   * A word of symbols that are neither digits nor delimiters reads whole; it
   * ends at a digit, which stays unread, or at a delimiter, which is consumed.
   */
  lemma NonNumericWordAt(s: string, i: nat, j: nat)
    requires i < j <= |s|
    requires forall k :: i <= k < j ==> !IsNumeric(s[k]) && !IsDelimiter(s[k])
    requires j == |s| || IsNumeric(s[j]) || IsDelimiter(s[j])
    ensures NonNumericAt(s, i) == Scanned(s[i..j], if j < |s| && IsDelimiter(s[j]) then j + 1 else j)
  {
    NonNumericFromWord(s, i, j, false, []);
    assert [] + s[i..j] == s[i..j];
  }

  /** A word of non-delimiters reads whole, and the delimiter that ends it is consumed. */
  lemma AnyWordAtWord(s: string, i: nat, j: nat)
    requires i < j <= |s|
    requires forall k :: i <= k < j ==> !IsDelimiter(s[k])
    requires j == |s| || IsDelimiter(s[j])
    ensures AnyWordAt(s, i) == Scanned(s[i..j], if j < |s| then j + 1 else j)
  {
    AnyWordFromWord(s, i, j, false, []);
    assert [] + s[i..j] == s[i..j];
  }

  /** Every symbol NonDelimiters keeps comes from its argument. */
  lemma {:induction false} NonDelimitersFrom(w: string)
    ensures forall k :: 0 <= k < |NonDelimiters(w)| ==> NonDelimiters(w)[k] in w
  {
    if w != [] {
      NonDelimitersFrom(w[1..]);
      var head := if IsDelimiter(w[0]) then [] else [w[0]];
      assert NonDelimiters(w) == head + NonDelimiters(w[1..]);
      forall k | 0 <= k < |NonDelimiters(w)| ensures NonDelimiters(w)[k] in w {
        if k >= |head| {
          assert NonDelimiters(w)[k] == NonDelimiters(w[1..])[k - |head|];
          assert NonDelimiters(w)[k] in w[1..];
        }
      }
    }
  }

  /**
   * expectNonNumeric returns a word without delimiters and without digits;
   * when a digit stopped it, that digit is under the cursor again; it stops
   * after the first delimiter that follows a symbol of the word.
   */
  lemma NonNumericWord(s: string, i: nat)
    requires i <= |s|
    ensures var r := NonNumericAt(s, i);
            && (forall k :: 0 <= k < |r.value| ==> !IsDelimiter(r.value[k]) && !IsNumeric(r.value[k]))
            && (forall k :: i <= k < r.cursor ==> !IsNumeric(s[k]))
            && (r.cursor == |s| || IsNumeric(s[r.cursor]) || (r.value != [] && i < r.cursor && IsDelimiter(s[r.cursor - 1])))
            && (forall k :: i <= k < r.cursor - 1 && NonDelimiters(s[i..k]) != [] ==> !IsDelimiter(s[k]))
  {
    NonNumericFromShape(s, i, false, []);
    var r := NonNumericAt(s, i);
    forall k | i <= k < r.cursor - 1 && NonDelimiters(s[i..k]) != [] ensures !IsDelimiter(s[k]) {
      assert [] + NonDelimiters(s[i..k]) == NonDelimiters(s[i..k]);
    }
    var w := s[i..r.cursor];
    NonDelimitersFrom(w);
    assert r.value == NonDelimiters(w);
    forall k | 0 <= k < |r.value| ensures !IsNumeric(r.value[k]) {
      assert r.value[k] in w;
      var j :| 0 <= j < |w| && w[j] == r.value[k];
      assert s[i + j] == w[j];
    }
  }

  /**
   * expectAnyWord returns a word without delimiters, ended by the end of the
   * text or by the first delimiter that follows a symbol of the word.
   */
  lemma AnyWord(s: string, i: nat)
    requires i <= |s|
    ensures var r := AnyWordAt(s, i);
            && (forall k :: 0 <= k < |r.value| ==> !IsDelimiter(r.value[k]))
            && (r.cursor == |s| || (r.value != [] && i < r.cursor && IsDelimiter(s[r.cursor - 1])))
            && (forall k :: i <= k < r.cursor - 1 && NonDelimiters(s[i..k]) != [] ==> !IsDelimiter(s[k]))
  {
    AnyWordFromShape(s, i, false, []);
    var r := AnyWordAt(s, i);
    forall k | i <= k < r.cursor - 1 && NonDelimiters(s[i..k]) != [] ensures !IsDelimiter(s[k]) {
      assert [] + NonDelimiters(s[i..k]) == NonDelimiters(s[i..k]);
    }
  }

  /** The value path of a relative range is never empty and never holds a delimiter. */
  lemma PercentOfPath(s: string, i: nat)
    requires i <= |s|
    requires RangeAt(s, i).Ok? && RangeAt(s, i).value.value.percentOf.Some?
    ensures var path := RangeAt(s, i).value.value.percentOf.value;
            path != [] && forall k :: 0 <= k < |path| ==> !IsDelimiter(path[k])
  {
    var first := DoubleAt(s, i).value;
    var text := NonNumericAt(s, first.cursor);
    if text.value == "%" {
      assert PercentageOfAt(s, text.cursor).Ok?;
    } else {
      var second := DoubleAt(s, text.cursor).value;
      var end := NonNumericAt(s, second.cursor);
      assert end.value == "%" && PercentageOfAt(s, end.cursor).Ok?;
    }
  }

  /**
   * No range bound can be negative except the lower bound of an approximate
   * range (a `~` prefix): the number scanner has no sign.
   */
  lemma NoNegativeBounds(s: string, i: nat)
    requires i <= |s|
    requires RangeAt(s, i).Ok?
    ensures match RangeAt(s, i).value.value.bounds
            case Exact(v) => 0.0 <= v
            case GreaterThan(v) => 0.0 <= v
            case LessThan(v) => 0.0 <= v
            case Between(a, b) =>
              && 0.0 <= b
              && (0.0 <= a || (RangeTypeOf(FirstNonWhitespace(s, i)).Approximate? && a < b))
  {
    var first := DoubleAt(s, i).value;
    var rangeType := RangeTypeOf(FirstNonWhitespace(s, i));
    var text := NonNumericAt(s, first.cursor);
    var bounds := RangeAt(s, i).value.value.bounds;
    if text.value == "%" || text.value == "px" {
      assert bounds == CreateRange(first.value, rangeType);
    } else {
      var second := DoubleAt(s, text.cursor).value;
      assert bounds == Specs.Between(first.value, second.value);
    }
  }

  /** `px` after the first number ends the range, whatever the prefix, without a percent-of path. */
  lemma PxEndsRange(s: string, i: nat)
    requires i <= |s| && DoubleAt(s, i).Ok?
    requires NonNumericAt(s, DoubleAt(s, i).value.cursor).value == "px"
    ensures var first := DoubleAt(s, i).value;
            var rangeType := RangeTypeOf(FirstNonWhitespace(s, i));
            RangeAt(s, i) == Ok(Scanned(Specs.Range(CreateRange(first.value, rangeType), None),
                                        NonNumericAt(s, first.cursor).cursor))
  {
  }

  /** `%` after the first number gives the same range, made relative to the path of the `of` clause. */
  lemma PercentEndsRange(s: string, i: nat)
    requires i <= |s| && DoubleAt(s, i).Ok?
    requires NonNumericAt(s, DoubleAt(s, i).value.cursor).value == "%"
    ensures var first := DoubleAt(s, i).value;
            var rangeType := RangeTypeOf(FirstNonWhitespace(s, i));
            var path := PercentageOfAt(s, NonNumericAt(s, first.cursor).cursor);
            RangeAt(s, i) == if path.Ok?
                             then Ok(Scanned(Specs.Range(CreateRange(first.value, rangeType), Some(path.value.value)), path.value.cursor))
                             else Err(SyntaxException(MissingValuePath, NoCause))
  {
  }

  /** With a prefix, any connector but `px` and `%` is rejected with a message naming it; nothing more is read. */
  lemma PrefixNeedsUnit(s: string, i: nat)
    requires i <= |s| && DoubleAt(s, i).Ok?
    requires RangeTypeOf(FirstNonWhitespace(s, i)) != Nothing
    requires NonNumericAt(s, DoubleAt(s, i).value.cursor).value !in {"px", "%"}
    ensures RangeAt(s, i) == Err(SyntaxException(MsgFor(NonNumericAt(s, DoubleAt(s, i).value.cursor).value), NoCause))
  {
  }

  /**
   * Without a prefix, the second number is read before the connector is
   * looked at: a bad second number wins over a bad connector, and a connector
   * other than `to` is rejected with a message naming it.
   */
  lemma NoPrefixReadsSecondNumber(s: string, i: nat)
    requires i <= |s| && DoubleAt(s, i).Ok?
    requires RangeTypeOf(FirstNonWhitespace(s, i)) == Nothing
    requires NonNumericAt(s, DoubleAt(s, i).value.cursor).value !in {"px", "%"}
    ensures var text := NonNumericAt(s, DoubleAt(s, i).value.cursor);
            && (DoubleAt(s, text.cursor).Err? ==> RangeAt(s, i) == Err(DoubleAt(s, text.cursor).error))
            && (DoubleAt(s, text.cursor).Ok? && text.value != "to" ==>
                  RangeAt(s, i) == Err(SyntaxException(MsgFor(text.value), NoCause)))
  {
  }

  /**
   * `a to b` gives Between(a, b) when it ends in `px`, the same range made
   * relative when it ends in `%` and an `of` clause, and "Missing ending" otherwise.
   */
  lemma ToGivesBetween(s: string, i: nat)
    requires i <= |s| && DoubleAt(s, i).Ok?
    requires RangeTypeOf(FirstNonWhitespace(s, i)) == Nothing
    requires NonNumericAt(s, DoubleAt(s, i).value.cursor).value == "to"
    requires DoubleAt(s, NonNumericAt(s, DoubleAt(s, i).value.cursor).cursor).Ok?
    ensures var first := DoubleAt(s, i).value;
            var second := DoubleAt(s, NonNumericAt(s, first.cursor).cursor).value;
            var end := NonNumericAt(s, second.cursor);
            var between := Specs.Between(first.value, second.value);
            && (end.value == "px" ==> RangeAt(s, i) == Ok(Scanned(Specs.Range(between, None), end.cursor)))
            && (end.value == "%" ==>
                  RangeAt(s, i) == match PercentageOfAt(s, end.cursor)
                                   case Ok(path) => Ok(Scanned(Specs.Range(between, Some(path.value)), path.cursor))
                                   case Err(e) => Err(e))
            && (end.value !in {"px", "%"} ==> RangeAt(s, i) == Err(SyntaxException(MissingEnding, NoCause)))
  {
  }
}

/**
 * The range-expression reader of the spec language: `10px`, `~50px`, `>3px`,
 * `<3px`, `10 to 20px`, `50% of parent/width`, ...
 *
 * Each scanner is given twice: a specification function over the text and a
 * start position (NonNumericAt, AnyWordAt, DoubleAt, PercentageOfAt, RangeAt),
 * and the method that runs the source's loop over a StringCharReader and is
 * proved to return what the function says and to leave the cursor where the
 * function says.
 */
module ExpectRange {
  import opened Wrappers
  import opened Expectations
  import opened CharReader
  import Specs

  /** What the first non-whitespace symbol says about the range. */
  datatype RangeType = Nothing | Approximate | LessThan | GreaterThan

  /** Why a syntax error was raised, besides its message. */
  datatype Cause = NoCause | NumberFormat(input: string)

  /** The parser's only error; its line is always the "unknown line" sentinel, so no position is kept. */
  datatype SyntaxException = SyntaxException(message: string, cause: Cause)

  /** A scanned value together with the cursor position the scan ends at. */
  datatype Scanned<T> = Scanned(value: T, cursor: nat)

  const CannotParseRange: string := "Cannot parse range: \""
  const MissingValuePath: string := "Missing value path for relative range"
  const MissingEnding: string := "Missing ending: \"px\" or \"%\""

  /** The message naming a token the grammar does not accept; the token can be read back from it. */
  function MsgFor(text: string): (m: string)
    ensures |m| == |CannotParseRange| + |text| + 1
    ensures m[..|CannotParseRange|] == CannotParseRange
    ensures m[|CannotParseRange|..|m| - 1] == text && m[|m| - 1] == '"'
  {
    CannotParseRange + text + "\""
  }

  /** The error raised when the accumulated number text is not a number. */
  function NumberValueError(text: string): SyntaxException {
    SyntaxException("Cannot parse range value: \"" + text + "\"", NumberFormat(text))
  }

  /** The text with its delimiters removed. */
  function NonDelimiters(w: string): (r: string)
    ensures |r| <= |w|
    ensures forall k :: 0 <= k < |r| ==> !IsDelimiter(r[k])
  {
    if w == [] then []
    else (if IsDelimiter(w[0]) then [] else [w[0]]) + NonDelimiters(w[1..])
  }

  predicate IsNumberSymbol(c: char) {
    IsNumeric(c) || c == '.'
  }

  /** The digits and decimal points of the text, in order. */
  function NumberSymbols(w: string): (r: string)
    ensures |r| <= |w|
    ensures forall k :: 0 <= k < |r| ==> IsNumberSymbol(r[k])
  {
    if w == [] then []
    else (if IsNumberSymbol(w[0]) then [w[0]] else []) + NumberSymbols(w[1..])
  }

  predicate HasDigit(t: string) {
    exists k :: 0 <= k < |t| && IsNumeric(t[k])
  }

  /** Digits with at most one decimal point: all the number scanner ever accumulates. */
  predicate NumberText(t: string) {
    && (forall k :: 0 <= k < |t| ==> IsNumberSymbol(t[k]))
    && (forall j, k :: 0 <= j < k < |t| && t[j] == '.' ==> t[k] != '.')
  }

  predicate AllNumeric(d: string) {
    forall k :: 0 <= k < |d| ==> IsNumeric(d[k])
  }

  /** The value of a string of decimal digits (0 for the empty string). */
  function DigitsValue(d: string): nat
    requires AllNumeric(d)
  {
    if d == [] then 0
    else 10 * DigitsValue(d[..|d| - 1]) + (d[|d| - 1] as int - '0' as int)
  }

  function Pow10(n: nat): (p: nat)
    ensures 1 <= p
  {
    if n == 0 then 1 else 10 * Pow10(n - 1)
  }

  /** The number written with the digits of a before the point and the n digits of b after it. */
  function PointValue(a: nat, b: nat, n: nat): real {
    a as real + b as real / Pow10(n) as real
  }

  /** The position of the first decimal point, or the length when there is none. */
  function PointIndex(t: string): (k: nat)
    ensures k <= |t|
    ensures forall j :: 0 <= j < k ==> t[j] != '.'
    ensures k < |t| ==> t[k] == '.'
  {
    if t == [] || t[0] == '.' then 0 else 1 + PointIndex(t[1..])
  }

  /**
   * The decimal number written by digits and at most one point. Like the
   * platform's double parser on such texts, it fails exactly when there is no
   * digit at all ("" or "."); "5." and ".5" are numbers. No sign can occur,
   * so every value is non-negative.
   */
  function ParseDouble(t: string): (r: Option<real>)
    requires NumberText(t)
    ensures r.Some? <==> HasDigit(t)
    ensures r.Some? ==> 0.0 <= r.value
  {
    if !HasDigit(t) then None
    else
      var k := PointIndex(t);
      var whole := t[..k];
      var fraction := if k < |t| then t[k + 1..] else [];
      assert AllNumeric(whole);
      assert AllNumeric(fraction) by {
        forall j | 0 <= j < |fraction| ensures IsNumeric(fraction[j]) {
          assert fraction[j] == t[k + 1 + j];
        }
      }
      Some(PointValue(DigitsValue(whole), DigitsValue(fraction), |fraction|))
  }

  /** Digits written one after the other: the value of the first part is shifted by the length of the second. */
  lemma {:induction false} DigitsValueConcat(d: string, f: string)
    requires AllNumeric(d) && AllNumeric(f)
    ensures AllNumeric(d + f)
    ensures DigitsValue(d + f) == DigitsValue(d) * Pow10(|f|) + DigitsValue(f)
    decreases |f|
  {
    var t := d + f;
    assert AllNumeric(t) by {
      forall k | 0 <= k < |t| ensures IsNumeric(t[k]) {
        if k < |d| { assert t[k] == d[k]; } else { assert t[k] == f[k - |d|]; }
      }
    }
    if f == [] {
      assert t == d;
    } else {
      var f' := f[..|f| - 1];
      assert AllNumeric(f') by {
        forall k | 0 <= k < |f'| ensures IsNumeric(f'[k]) { assert f'[k] == f[k]; }
      }
      assert t[..|t| - 1] == d + f';
      assert t[|t| - 1] == f[|f| - 1];
      DigitsValueConcat(d, f');
      ShiftDigit(DigitsValue(d), Pow10(|f'|), DigitsValue(f'), f[|f| - 1] as int - '0' as int);
    }
  }

  /** One more digit after a shifted number: 10 (a b + c) + l == a (10 b) + (10 c + l). */
  lemma ShiftDigit(a: nat, b: nat, c: nat, l: int)
    ensures 10 * (a * b + c) + l == a * (10 * b) + (10 * c + l)
  {
  }

  /** The first point of `d.f`, where d is all digits, is right after d. */
  lemma {:induction false} PointAfterDigits(d: string, f: string)
    requires AllNumeric(d)
    ensures PointIndex(d + "." + f) == |d|
  {
    if d != [] {
      assert (d + "." + f)[1..] == d[1..] + "." + f;
      PointAfterDigits(d[1..], f);
    }
  }

  /** A non-empty run of digits parses to the whole number it writes. */
  lemma ParseDoubleWhole(d: string)
    requires AllNumeric(d) && d != []
    ensures NumberText(d) && ParseDouble(d) == Some(DigitsValue(d) as real)
  {
    assert IsNumeric(d[0]);
    assert NumberText(d) by {
      forall k | 0 <= k < |d| ensures IsNumberSymbol(d[k]) && d[k] != '.' {
        assert IsNumeric(d[k]);
      }
    }
    assert PointIndex(d) == |d|;
    assert d[..|d|] == d;
    assert Pow10(0) == 1;
    assert PointValue(DigitsValue(d), 0, 0) == DigitsValue(d) as real;
  }

  /** The text `d.f` for runs of digits d and f, as the number scanner sees it. */
  lemma FractionText(d: string, f: string)
    requires AllNumeric(d) && AllNumeric(f) && d + f != []
    ensures var t := d + "." + f;
            && NumberText(t) && HasDigit(t)
            && PointIndex(t) == |d| && t[..|d|] == d && t[|d| + 1..] == f
  {
    var t := d + "." + f;
    forall k | 0 <= k < |t| ensures IsNumberSymbol(t[k]) && (t[k] == '.' <==> k == |d|) {
      if k < |d| { assert t[k] == d[k]; } else if k > |d| { assert t[k] == f[k - |d| - 1]; }
    }
    if d != [] {
      assert IsNumeric(t[0]);
    } else {
      assert IsNumeric(t[1]);
    }
    PointAfterDigits(d, f);
  }

  /** a + b / 10^n is the number a 10^n + b scaled down by 10^n. */
  lemma ShiftFraction(a: nat, b: nat, n: nat, m: nat)
    requires m == a * Pow10(n) + b
    ensures PointValue(a, b, n) == m as real / Pow10(n) as real
  {
    var p := Pow10(n);
    assert m as real == a as real * p as real + b as real;
    DivideSum(a as real, b as real, p as real);
  }

  /** (x p + y) / p splits into x + y / p. */
  lemma DivideSum(x: real, y: real, p: real)
    requires 0.0 < p
    ensures (x * p + y) / p == x + y / p
  {
    assert (x * p + y) / p == x * p / p + y / p;
  }

  /** A number text whose first point is at k parses to the digits before it plus the digits after it, scaled down. */
  lemma ParsePointed(t: string, k: nat)
    requires NumberText(t) && HasDigit(t) && k < |t| && PointIndex(t) == k
    ensures AllNumeric(t[..k]) && AllNumeric(t[k + 1..])
    ensures ParseDouble(t) == Some(PointValue(DigitsValue(t[..k]), DigitsValue(t[k + 1..]), |t| - k - 1))
  {
    var whole, fraction := t[..k], t[k + 1..];
    assert AllNumeric(whole) by {
      forall j | 0 <= j < |whole| ensures IsNumeric(whole[j]) {
        assert whole[j] == t[j] && t[j] != '.';
      }
    }
    assert AllNumeric(fraction) by {
      forall j | 0 <= j < |fraction| ensures IsNumeric(fraction[j]) {
        assert fraction[j] == t[k + 1 + j] && t[k + 1 + j] != '.';
      }
    }
  }

  /** Digits d, a point, then digits f parse to d plus f scaled down by 10 to the |f|. */
  lemma ParseFractionText(d: string, f: string)
    requires AllNumeric(d) && AllNumeric(f) && d + f != []
    ensures NumberText(d + "." + f)
    ensures ParseDouble(d + "." + f) == Some(PointValue(DigitsValue(d), DigitsValue(f), |f|))
  {
    var t := d + "." + f;
    FractionText(d, f);
    ParsePointed(t, |d|);
    assert DigitsValue(t[..|d|]) == DigitsValue(d);
    assert DigitsValue(t[|d| + 1..]) == DigitsValue(f);
    assert Pow10(|t| - |d| - 1) == Pow10(|f|);
  }

  /**
   * Digits d, a point, then digits f parse to the whole number the digits of
   * d and f write together, scaled down by 10 to the |f|.
   */
  lemma ParseDoubleFraction(d: string, f: string)
    requires AllNumeric(d) && AllNumeric(f) && d + f != []
    ensures NumberText(d + "." + f) && AllNumeric(d + f)
    ensures ParseDouble(d + "." + f) == Some(DigitsValue(d + f) as real / Pow10(|f|) as real)
  {
    ParseFractionText(d, f);
    DigitsValueConcat(d, f);
    ShiftFraction(DigitsValue(d), DigitsValue(f), |f|, DigitsValue(d + f));
  }

  /** The loop state of the number scanner: the buffer, and whether it holds a digit and a point. */
  predicate DoubleState(started: bool, hadPoint: bool, buf: string) {
    NumberText(buf) && started == HasDigit(buf) && hadPoint == ('.' in buf)
  }

  /**
   * The number scanner from position i with its loop state (started,
   * hadPointAlready, the buffer): skips everything before the first digit
   * except points, appends digits and the first point, fails on a second
   * point, stops after a delimiter once started, and stops in front of any
   * other symbol once started (that symbol is pushed back).
   */
  function DoubleFrom(s: string, i: nat, started: bool, hadPoint: bool, buf: string): (r: Result<Scanned<string>, SyntaxException>)
    requires i <= |s|
    ensures r.Ok? ==> i <= r.value.cursor <= |s|
    decreases |s| - i
  {
    if i == |s| then Ok(Scanned(buf, i))
    else
      var c := s[i];
      if started && IsDelimiter(c) then Ok(Scanned(buf, i + 1))
      else if c == '.' then
        if hadPoint then Err(SyntaxException(MsgFor("."), NoCause))
        else DoubleFrom(s, i + 1, started, true, buf + [c])
      else if IsNumeric(c) then DoubleFrom(s, i + 1, true, hadPoint, buf + [c])
      else if started then Ok(Scanned(buf, i))
      else DoubleFrom(s, i + 1, started, hadPoint, buf)
  }

  /** What the number scanner accumulates is the digits and points it passed over. */
  lemma {:induction false} DoubleFromContents(s: string, i: nat, started: bool, hadPoint: bool, buf: string)
    requires i <= |s|
    ensures var r := DoubleFrom(s, i, started, hadPoint, buf);
            r.Ok? ==> r.value.value == buf + NumberSymbols(s[i..r.value.cursor])
    decreases |s| - i
  {
    if i < |s| {
      var c := s[i];
      var r := DoubleFrom(s, i, started, hadPoint, buf);
      if started && IsDelimiter(c) {
        assert s[i..i + 1] == [c];
      } else if c == '.' && hadPoint {
      } else if IsNumberSymbol(c) {
        var hadPoint' := hadPoint || c == '.';
        var started' := started || IsNumeric(c);
        assert r == DoubleFrom(s, i + 1, started', hadPoint', buf + [c]);
        DoubleFromContents(s, i + 1, started', hadPoint', buf + [c]);
        if r.Ok? {
          NumberSymbolsStep(s, i, r.value.cursor);
          assert r.value.value == buf + ([c] + NumberSymbols(s[i + 1..r.value.cursor]));
        }
      } else if !started {
        assert r == DoubleFrom(s, i + 1, started, hadPoint, buf);
        DoubleFromContents(s, i + 1, started, hadPoint, buf);
        if r.Ok? {
          NumberSymbolsStep(s, i, r.value.cursor);
        }
      }
    }
  }

  /** The number scanner never accumulates a second point: its text is always digits and at most one point. */
  lemma {:induction false} DoubleFromNumberText(s: string, i: nat, started: bool, hadPoint: bool, buf: string)
    requires i <= |s| && DoubleState(started, hadPoint, buf)
    ensures var r := DoubleFrom(s, i, started, hadPoint, buf);
            r.Ok? ==> NumberText(r.value.value)
    decreases |s| - i
  {
    if i < |s| {
      var c := s[i];
      if started && IsDelimiter(c) {
      } else if c == '.' {
        if !hadPoint {
          AppendNumberSymbol(buf, c);
          DoubleFromNumberText(s, i + 1, started, true, buf + [c]);
        }
      } else if IsNumeric(c) {
        AppendNumberSymbol(buf, c);
        DoubleFromNumberText(s, i + 1, true, hadPoint, buf + [c]);
      } else if !started {
        DoubleFromNumberText(s, i + 1, started, hadPoint, buf);
      }
    }
  }

  /**
   * The number scanner fails only on a second point, and it stops only at the
   * end of the text or, once it holds a digit, after a delimiter or in front
   * of a symbol that is neither a delimiter nor part of a number (that symbol
   * is left under the cursor). It stops at the first such place: once it
   * holds a digit, every symbol it passed over is part of the number, except
   * that the last one may be the delimiter that ended it.
   */
  lemma DoubleFromStop(s: string, i: nat, started: bool, hadPoint: bool, buf: string)
    requires i <= |s| && started == HasDigit(buf)
    ensures var r := DoubleFrom(s, i, started, hadPoint, buf);
            && (r.Ok? && r.value.cursor < |s| ==>
                  && HasDigit(r.value.value)
                  && ((i < r.value.cursor && IsDelimiter(s[r.value.cursor - 1])) ||
                      !(IsDelimiter(s[r.value.cursor]) || IsNumberSymbol(s[r.value.cursor]))))
            && (r.Err? ==> r.error == SyntaxException(MsgFor("."), NoCause))
            && (r.Ok? ==> forall k :: i <= k < r.value.cursor && HasDigit(buf + NumberSymbols(s[i..k])) ==>
                         IsNumberSymbol(s[k]) || (k == r.value.cursor - 1 && IsDelimiter(s[k])))
  {
    DoubleFromStopsAt(s, i, started, hadPoint, buf);
    DoubleFromFirstStop(s, i, started, hadPoint, buf);
  }

  /** Where the number scanner may stop, and the one error it raises itself. */
  lemma {:induction false} DoubleFromStopsAt(s: string, i: nat, started: bool, hadPoint: bool, buf: string)
    requires i <= |s| && started == HasDigit(buf)
    ensures var r := DoubleFrom(s, i, started, hadPoint, buf);
            && (r.Ok? && r.value.cursor < |s| ==>
                  && HasDigit(r.value.value)
                  && ((i < r.value.cursor && IsDelimiter(s[r.value.cursor - 1])) ||
                      !(IsDelimiter(s[r.value.cursor]) || IsNumberSymbol(s[r.value.cursor]))))
            && (r.Err? ==> r.error == SyntaxException(MsgFor("."), NoCause))
    decreases |s| - i
  {
    if i < |s| {
      var c := s[i];
      var t := buf + [c];
      if started && IsDelimiter(c) {
      } else if c == '.' {
        if !hadPoint {
          if HasDigit(buf) {
            var k :| 0 <= k < |buf| && IsNumeric(buf[k]);
            assert t[k] == buf[k];
          }
          if HasDigit(t) {
            var k :| 0 <= k < |t| && IsNumeric(t[k]);
            assert buf[k] == t[k];
          }
          DoubleFromStopsAt(s, i + 1, started, true, t);
        }
      } else if IsNumeric(c) {
        assert t[|buf|] == c;
        DoubleFromStopsAt(s, i + 1, true, hadPoint, t);
      } else if !started {
        DoubleFromStopsAt(s, i + 1, started, hadPoint, buf);
      }
    }
  }

  /**
   * The number scanner does not run past its first stop: once the text it
   * holds has a digit, every symbol it passes over is a digit or a point,
   * except that the last one may be the delimiter that ended the number.
   */
  lemma {:induction false} DoubleFromFirstStop(s: string, i: nat, started: bool, hadPoint: bool, buf: string)
    requires i <= |s| && started == HasDigit(buf)
    ensures var r := DoubleFrom(s, i, started, hadPoint, buf);
            r.Ok? ==> forall k :: i <= k < r.value.cursor && HasDigit(buf + NumberSymbols(s[i..k])) ==>
                         IsNumberSymbol(s[k]) || (k == r.value.cursor - 1 && IsDelimiter(s[k]))
    decreases |s| - i
  {
    if i < |s| {
      var c := s[i];
      var r := DoubleFrom(s, i, started, hadPoint, buf);
      if started && IsDelimiter(c) {
        assert r == Ok(Scanned(buf, i + 1));
        assert buf + NumberSymbols(s[i..i]) == buf;
      } else if c == '.' && hadPoint {
      } else if IsNumberSymbol(c) || !started {
        var buf' := if IsNumberSymbol(c) then buf + [c] else buf;
        NextDoubleState(buf, c, started);
        var started', hadPoint' := started || IsNumeric(c), hadPoint || c == '.';
        assert r == DoubleFrom(s, i + 1, started', hadPoint', buf');
        DoubleFromFirstStop(s, i + 1, started', hadPoint', buf');
        if r.Ok? {
          NumberStopStep(s, i, r.value.cursor, buf, buf');
        }
      }
    }
  }

  /**
   * The number scanner fails only at a point that follows another point it
   * kept, before it reached any place it would stop at.
   */
  lemma {:induction false} DoubleFromSecondPoint(s: string, i: nat, started: bool, hadPoint: bool, buf: string)
    requires i <= |s| && started == HasDigit(buf) && hadPoint == ('.' in buf)
    ensures var r := DoubleFrom(s, i, started, hadPoint, buf);
            r.Err? ==> exists j :: && i <= j < |s| && s[j] == '.' && '.' in buf + NumberSymbols(s[i..j])
                                   && forall k :: i <= k < j && HasDigit(buf + NumberSymbols(s[i..k])) ==> IsNumberSymbol(s[k])
    decreases |s| - i
  {
    if i < |s| {
      var c := s[i];
      var r := DoubleFrom(s, i, started, hadPoint, buf);
      if started && IsDelimiter(c) {
      } else if c == '.' && hadPoint {
        assert buf + NumberSymbols(s[i..i]) == buf;
      } else if IsNumberSymbol(c) || !started {
        var buf' := if IsNumberSymbol(c) then buf + [c] else buf;
        NextDoubleState(buf, c, started);
        var started', hadPoint' := started || IsNumeric(c), hadPoint || c == '.';
        assert r == DoubleFrom(s, i + 1, started', hadPoint', buf');
        DoubleFromSecondPoint(s, i + 1, started', hadPoint', buf');
        if r.Err? {
          var j :| && i + 1 <= j < |s| && s[j] == '.' && '.' in buf' + NumberSymbols(s[i + 1..j])
                   && forall k :: i + 1 <= k < j && HasDigit(buf' + NumberSymbols(s[i + 1..k])) ==> IsNumberSymbol(s[k]);
          NumberPrefixStep(s, i, j, buf, buf');
        }
      }
    }
  }

  /**
   * Stepping back over one symbol the number scanner kept or skipped: the
   * text held before each position is the old buffer plus the number
   * symbols passed over, and only number symbols follow a digit.
   */
  lemma NumberPrefixStep(s: string, i: nat, j: nat, buf: string, buf': string)
    requires i < j <= |s|
    requires buf' == if IsNumberSymbol(s[i]) then buf + [s[i]] else buf
    requires HasDigit(buf) ==> IsNumberSymbol(s[i])
    requires forall k :: i + 1 <= k < j && HasDigit(buf' + NumberSymbols(s[i + 1..k])) ==> IsNumberSymbol(s[k])
    ensures buf + NumberSymbols(s[i..j]) == buf' + NumberSymbols(s[i + 1..j])
    ensures forall k :: i <= k < j && HasDigit(buf + NumberSymbols(s[i..k])) ==> IsNumberSymbol(s[k])
  {
    NumberSymbolsStep(s, i, j);
    forall k | i <= k < j && HasDigit(buf + NumberSymbols(s[i..k]))
      ensures IsNumberSymbol(s[k])
    {
      if k == i {
        assert buf + NumberSymbols(s[i..k]) == buf;
      } else {
        NumberSymbolsStep(s, i, k);
        assert buf + NumberSymbols(s[i..k]) == buf' + NumberSymbols(s[i + 1..k]);
      }
    }
  }

  /**
   * Stepping back over one symbol the number scanner kept or skipped, for a
   * scan that ends at c: after a digit only number symbols are passed over,
   * save a delimiter as the very last symbol read.
   */
  lemma NumberStopStep(s: string, i: nat, c: nat, buf: string, buf': string)
    requires i < c <= |s|
    requires buf' == if IsNumberSymbol(s[i]) then buf + [s[i]] else buf
    requires HasDigit(buf) ==> IsNumberSymbol(s[i])
    requires forall k :: i + 1 <= k < c && HasDigit(buf' + NumberSymbols(s[i + 1..k])) ==>
                         IsNumberSymbol(s[k]) || (k == c - 1 && IsDelimiter(s[k]))
    ensures forall k :: i <= k < c && HasDigit(buf + NumberSymbols(s[i..k])) ==>
                        IsNumberSymbol(s[k]) || (k == c - 1 && IsDelimiter(s[k]))
  {
    forall k | i <= k < c && HasDigit(buf + NumberSymbols(s[i..k]))
      ensures IsNumberSymbol(s[k]) || (k == c - 1 && IsDelimiter(s[k]))
    {
      if k == i {
        assert buf + NumberSymbols(s[i..k]) == buf;
      } else {
        NumberSymbolsStep(s, i, k);
        assert buf + NumberSymbols(s[i..k]) == buf' + NumberSymbols(s[i + 1..k]);
      }
    }
  }

  /** The loop state after the number scanner keeps or skips one more symbol. */
  lemma NextDoubleState(buf: string, c: char, started: bool)
    requires started == HasDigit(buf)
    ensures var buf' := if IsNumberSymbol(c) then buf + [c] else buf;
            && (started || IsNumeric(c)) == HasDigit(buf')
            && ('.' in buf') == ('.' in buf || c == '.')
  {
    HasDigitConcat(buf, [c]);
    assert HasDigit([c]) <==> IsNumeric(c) by { assert [c][0] == c; }
  }

  /** Appending a digit, or a point to a text without one, keeps the loop state consistent. */
  lemma AppendNumberSymbol(buf: string, c: char)
    requires NumberText(buf) && IsNumberSymbol(c)
    requires c == '.' ==> '.' !in buf
    ensures NumberText(buf + [c])
    ensures HasDigit(buf + [c]) == (HasDigit(buf) || IsNumeric(c))
    ensures ('.' in buf + [c]) == ('.' in buf || c == '.')
  {
    var t := buf + [c];
    if HasDigit(buf) {
      var k :| 0 <= k < |buf| && IsNumeric(buf[k]);
      assert t[k] == buf[k];
    }
    if IsNumeric(c) {
      assert t[|buf|] == c;
    }
    if HasDigit(t) && !IsNumeric(c) {
      var k :| 0 <= k < |t| && IsNumeric(t[k]);
      assert buf[k] == t[k];
    }
  }

  /** One step of a scan: the number symbols of s[i..k] are s[i], when it is one, then those of s[i + 1..k]. */
  lemma NumberSymbolsStep(s: string, i: nat, k: nat)
    requires i < k <= |s|
    ensures NumberSymbols(s[i..k]) == (if IsNumberSymbol(s[i]) then [s[i]] else []) + NumberSymbols(s[i + 1..k])
  {
    assert s[i..k][1..] == s[i + 1..k];
  }

  /** One step of a scan: the non-delimiters of s[i..k] are s[i], when it is one, then those of s[i + 1..k]. */
  lemma NonDelimitersStep(s: string, i: nat, k: nat)
    requires i < k <= |s|
    ensures NonDelimiters(s[i..k]) == (if IsDelimiter(s[i]) then [] else [s[i]]) + NonDelimiters(s[i + 1..k])
  {
    assert s[i..k][1..] == s[i + 1..k];
  }

  lemma HasDigitConcat(a: string, b: string)
    ensures HasDigit(a + b) <==> HasDigit(a) || HasDigit(b)
  {
    if HasDigit(a) {
      var k :| 0 <= k < |a| && IsNumeric(a[k]);
      assert (a + b)[k] == a[k];
    }
    if HasDigit(b) {
      var k :| 0 <= k < |b| && IsNumeric(b[k]);
      assert (a + b)[|a| + k] == b[k];
    }
    if HasDigit(a + b) {
      var k :| 0 <= k < |a + b| && IsNumeric((a + b)[k]);
      if k < |a| { assert a[k] == (a + b)[k]; } else { assert b[k - |a|] == (a + b)[k]; }
    }
  }

  /** Keeping only the digits and points of a text keeps all its digits. */
  lemma {:induction false} HasDigitNumberSymbols(w: string)
    ensures HasDigit(NumberSymbols(w)) <==> HasDigit(w)
  {
    if w != [] {
      HasDigitNumberSymbols(w[1..]);
      var head := if IsNumberSymbol(w[0]) then [w[0]] else [];
      assert NumberSymbols(w) == head + NumberSymbols(w[1..]);
      HasDigitConcat(head, NumberSymbols(w[1..]));
      assert w == [w[0]] + w[1..];
      HasDigitConcat([w[0]], w[1..]);
      assert HasDigit([w[0]]) <==> IsNumeric(w[0]) by { assert [w[0]][0] == w[0]; }
      assert HasDigit(head) <==> IsNumeric(w[0]) by {
        if head != [] { assert head[0] == w[0]; }
      }
    }
  }

  /** A digit in a prefix of the rest is a digit in the rest. */
  lemma HasDigitPrefix(s: string, i: nat, c: nat)
    requires i <= c <= |s| && HasDigit(s[i..c])
    ensures HasDigit(s[i..])
  {
    var k :| 0 <= k < c - i && IsNumeric(s[i..c][k]);
    assert s[i..][k] == s[i..c][k];
  }

  /**
   * The number scanner from position i with an empty buffer, on success:
   * what it keeps, and where it stops.
   */
  lemma DoubleScanOk(s: string, i: nat)
    requires i <= |s|
    ensures var r := DoubleFrom(s, i, false, false, []);
            r.Ok? ==> && r.value.value == NumberSymbols(s[i..r.value.cursor])
                      && NumberText(r.value.value)
                      && (HasDigit(r.value.value) ==> HasDigit(s[i..]))
                      && (!HasDigit(r.value.value) ==> r.value.value == NumberSymbols(s[i..]) && !HasDigit(s[i..]))
                      && (r.value.cursor < |s| ==>
                            (i < r.value.cursor && IsDelimiter(s[r.value.cursor - 1])) ||
                            !(IsDelimiter(s[r.value.cursor]) || IsNumberSymbol(s[r.value.cursor])))
  {
    var r := DoubleFrom(s, i, false, false, []);
    assert NumberText([]) && !HasDigit([]);
    DoubleFromContents(s, i, false, false, []);
    DoubleFromNumberText(s, i, false, false, []);
    DoubleFromStopsAt(s, i, false, false, []);
    if r.Ok? {
      var c := r.value.cursor;
      assert r.value.value == NumberSymbols(s[i..c]);
      HasDigitNumberSymbols(s[i..c]);
      if HasDigit(r.value.value) {
        HasDigitPrefix(s, i, c);
      } else {
        assert s[i..c] == s[i..];
      }
    }
  }

  /** With an empty buffer, the scanner's first stop is stated over the text itself. */
  lemma DoubleScanFirstStop(s: string, i: nat)
    requires i <= |s|
    ensures var r := DoubleFrom(s, i, false, false, []);
            r.Ok? ==> forall k :: i <= k < r.value.cursor && HasDigit(s[i..k]) ==>
                         IsNumberSymbol(s[k]) || (k == r.value.cursor - 1 && IsDelimiter(s[k]))
  {
    DoubleFromFirstStop(s, i, false, false, []);
    forall k | i <= k <= |s|
      ensures HasDigit([] + NumberSymbols(s[i..k])) <==> HasDigit(s[i..k])
    {
      assert [] + NumberSymbols(s[i..k]) == NumberSymbols(s[i..k]);
      HasDigitNumberSymbols(s[i..k]);
    }
  }

  /** With an empty buffer, the scanner fails only on a second point it meets before its first stop. */
  lemma DoubleScanErr(s: string, i: nat)
    requires i <= |s|
    ensures var r := DoubleFrom(s, i, false, false, []);
            r.Err? ==> && r.error == SyntaxException(MsgFor("."), NoCause)
                       && exists j :: && i <= j < |s| && s[j] == '.' && '.' in NumberSymbols(s[i..j])
                                      && forall k :: i <= k < j && HasDigit(s[i..k]) ==> IsNumberSymbol(s[k])
  {
    var r := DoubleFrom(s, i, false, false, []);
    DoubleFromStopsAt(s, i, false, false, []);
    DoubleFromSecondPoint(s, i, false, false, []);
    if r.Err? {
      var j :| && i <= j < |s| && s[j] == '.' && '.' in [] + NumberSymbols(s[i..j])
               && forall k :: i <= k < j && HasDigit([] + NumberSymbols(s[i..k])) ==> IsNumberSymbol(s[k]);
      assert [] + NumberSymbols(s[i..j]) == NumberSymbols(s[i..j]);
      forall k | i <= k < j && HasDigit(s[i..k])
        ensures IsNumberSymbol(s[k])
      {
        assert [] + NumberSymbols(s[i..k]) == NumberSymbols(s[i..k]);
        HasDigitNumberSymbols(s[i..k]);
      }
    }
  }

  /** The number scanner run from position i (the source's expectDouble), with the parse of what it read. */
  function DoubleAt(s: string, i: nat): (r: Result<Scanned<real>, SyntaxException>)
    requires i <= |s|
    ensures r.Ok? ==> i <= r.value.cursor <= |s| && 0.0 <= r.value.value
    ensures r.Ok? ==> && NumberText(NumberSymbols(s[i..r.value.cursor]))
                      && ParseDouble(NumberSymbols(s[i..r.value.cursor])) == Some(r.value.value)
    ensures r.Ok? && r.value.cursor < |s| ==>
              (i < r.value.cursor && IsDelimiter(s[r.value.cursor - 1])) ||
              !(IsDelimiter(s[r.value.cursor]) || IsNumberSymbol(s[r.value.cursor]))
    ensures r.Ok? ==> forall k :: i <= k < r.value.cursor && HasDigit(s[i..k]) ==>
                         IsNumberSymbol(s[k]) || (k == r.value.cursor - 1 && IsDelimiter(s[k]))
    ensures !HasDigit(s[i..]) ==> r.Err?
    ensures r.Err? && r.error.cause.NumberFormat? ==>
              && r.error == NumberValueError(NumberSymbols(s[i..]))
              && NumberText(NumberSymbols(s[i..])) && !HasDigit(s[i..])
    ensures r.Err? && !r.error.cause.NumberFormat? ==>
              && r.error == SyntaxException(MsgFor("."), NoCause)
              && exists j :: && i <= j < |s| && s[j] == '.' && '.' in NumberSymbols(s[i..j])
                             && forall k :: i <= k < j && HasDigit(s[i..k]) ==> IsNumberSymbol(s[k])
  {
    DoubleScanOk(s, i);
    DoubleScanFirstStop(s, i);
    DoubleScanErr(s, i);
    match DoubleFrom(s, i, false, false, [])
    case Err(e) => Err(e)
    case Ok(scan) =>
      match ParseDouble(scan.value)
      case None => Err(NumberValueError(scan.value))
      case Some(v) => Ok(Scanned(v, scan.cursor))
  }

  /**
   * The non-numeric word scanner from position i with its loop state: skips
   * leading delimiters, appends every other symbol, stops after a delimiter
   * once started, and stops in front of a digit (the digit is pushed back).
   */
  function NonNumericFrom(s: string, i: nat, started: bool, buf: string): (r: Scanned<string>)
    requires i <= |s|
    ensures i <= r.cursor <= |s|
    decreases |s| - i
  {
    if i == |s| then Scanned(buf, i)
    else
      var c := s[i];
      if started && IsDelimiter(c) then Scanned(buf, i + 1)
      else if IsNumeric(c) then Scanned(buf, i)
      else if !IsDelimiter(c) then NonNumericFrom(s, i + 1, true, buf + [c])
      else NonNumericFrom(s, i + 1, started, buf)
  }

  /**
   * The non-numeric scanner returns the non-delimiter symbols it passed over,
   * never passes over a digit, and stops only at the end of the text, in
   * front of a digit (the pushed-back symbol is under the cursor), or after a
   * delimiter that ends a non-empty word. It stops after the first delimiter
   * that follows a symbol of the word.
   */
  lemma NonNumericFromShape(s: string, i: nat, started: bool, buf: string)
    requires i <= |s| && started == (buf != [])
    ensures var r := NonNumericFrom(s, i, started, buf);
            && r.value == buf + NonDelimiters(s[i..r.cursor])
            && (forall k :: i <= k < r.cursor ==> !IsNumeric(s[k]))
            && (|| r.cursor == |s|
                || IsNumeric(s[r.cursor])
                || (i < r.cursor && r.value != [] && IsDelimiter(s[r.cursor - 1])))
            && (forall k :: i <= k < r.cursor - 1 && buf + NonDelimiters(s[i..k]) != [] ==> !IsDelimiter(s[k]))
  {
    NonNumericFromContents(s, i, started, buf);
    NonNumericFromStop(s, i, started, buf);
    NonNumericFromFirstStop(s, i, started, buf);
  }

  /** The word is the non-delimiters passed over, and no digit is passed over. */
  lemma {:induction false} NonNumericFromContents(s: string, i: nat, started: bool, buf: string)
    requires i <= |s|
    ensures var r := NonNumericFrom(s, i, started, buf);
            && r.value == buf + NonDelimiters(s[i..r.cursor])
            && (forall k :: i <= k < r.cursor ==> !IsNumeric(s[k]))
    decreases |s| - i
  {
    if i < |s| {
      var c := s[i];
      if started && IsDelimiter(c) {
        assert s[i..i + 1] == [c];
        assert NonDelimiters([c]) == [] + NonDelimiters([c][1..]);
        assert [c][1..] == [];
      } else if IsNumeric(c) {
        assert s[i..i] == [];
      } else {
        var started', buf' := started || !IsDelimiter(c), if IsDelimiter(c) then buf else buf + [c];
        NonNumericFromContents(s, i + 1, started', buf');
        var r := NonNumericFrom(s, i + 1, started', buf');
        assert NonNumericFrom(s, i, started, buf) == r;
        var t := s[i..r.cursor];
        assert t[0] == c && t[1..] == s[i + 1..r.cursor];
        assert NonDelimiters(t) == (if IsDelimiter(c) then [] else [c]) + NonDelimiters(t[1..]);
      }
    }
  }

  /** The scan ends at the end of the text, in front of a digit, or after the delimiter that ends a non-empty word. */
  lemma {:induction false} NonNumericFromStop(s: string, i: nat, started: bool, buf: string)
    requires i <= |s| && started == (buf != [])
    ensures var r := NonNumericFrom(s, i, started, buf);
            || r.cursor == |s|
            || IsNumeric(s[r.cursor])
            || (i < r.cursor && r.value != [] && IsDelimiter(s[r.cursor - 1]))
    decreases |s| - i
  {
    if i < |s| {
      var c := s[i];
      if !(started && IsDelimiter(c)) && !IsNumeric(c) {
        var started', buf' := started || !IsDelimiter(c), if IsDelimiter(c) then buf else buf + [c];
        NonNumericFromStop(s, i + 1, started', buf');
        assert NonNumericFrom(s, i, started, buf) == NonNumericFrom(s, i + 1, started', buf');
      }
    }
  }

  /**
   * Stepping back over one symbol a word scanner kept or skipped: once the
   * word has a symbol, no delimiter is passed over before the last symbol.
   */
  lemma WordPrefixStep(s: string, i: nat, j: nat, buf: string, buf': string)
    requires i < j <= |s|
    requires buf' == if IsDelimiter(s[i]) then buf else buf + [s[i]]
    requires buf != [] ==> !IsDelimiter(s[i])
    requires forall k :: i + 1 <= k < j && buf' + NonDelimiters(s[i + 1..k]) != [] ==> !IsDelimiter(s[k])
    ensures forall k :: i <= k < j && buf + NonDelimiters(s[i..k]) != [] ==> !IsDelimiter(s[k])
  {
    forall k | i <= k < j && buf + NonDelimiters(s[i..k]) != []
      ensures !IsDelimiter(s[k])
    {
      if k == i {
        assert buf + NonDelimiters(s[i..k]) == buf;
      } else {
        NonDelimitersStep(s, i, k);
        assert buf + NonDelimiters(s[i..k]) == buf' + NonDelimiters(s[i + 1..k]);
      }
    }
  }

  /** The non-numeric scanner does not run past the first delimiter after a symbol of its word. */
  lemma {:induction false} NonNumericFromFirstStop(s: string, i: nat, started: bool, buf: string)
    requires i <= |s| && started == (buf != [])
    ensures var r := NonNumericFrom(s, i, started, buf);
            forall k :: i <= k < r.cursor - 1 && buf + NonDelimiters(s[i..k]) != [] ==> !IsDelimiter(s[k])
    decreases |s| - i
  {
    if i < |s| {
      var c := s[i];
      if !(started && IsDelimiter(c)) && !IsNumeric(c) {
        var started', buf' := started || !IsDelimiter(c), if IsDelimiter(c) then buf else buf + [c];
        NonNumericFromFirstStop(s, i + 1, started', buf');
        var r := NonNumericFrom(s, i + 1, started', buf');
        assert NonNumericFrom(s, i, started, buf) == r;
        if i < r.cursor - 1 {
          WordPrefixStep(s, i, r.cursor - 1, buf, buf');
        }
      }
    }
  }

  /** The any-word scanner does not run past the first delimiter after a symbol of its word. */
  lemma {:induction false} AnyWordFromFirstStop(s: string, i: nat, started: bool, buf: string)
    requires i <= |s| && started == (buf != [])
    ensures var r := AnyWordFrom(s, i, started, buf);
            forall k :: i <= k < r.cursor - 1 && buf + NonDelimiters(s[i..k]) != [] ==> !IsDelimiter(s[k])
    decreases |s| - i
  {
    if i < |s| {
      var c := s[i];
      if !(started && IsDelimiter(c)) {
        var started', buf' := started || !IsDelimiter(c), if IsDelimiter(c) then buf else buf + [c];
        AnyWordFromFirstStop(s, i + 1, started', buf');
        var r := AnyWordFrom(s, i + 1, started', buf');
        assert AnyWordFrom(s, i, started, buf) == r;
        if i < r.cursor - 1 {
          WordPrefixStep(s, i, r.cursor - 1, buf, buf');
        }
      }
    }
  }

  /** The source's expectNonNumeric run from position i. */
  function NonNumericAt(s: string, i: nat): Scanned<string>
    requires i <= |s|
  {
    NonNumericFrom(s, i, false, [])
  }

  /**
   * The any-word scanner from position i with its loop state: skips leading
   * delimiters, appends every other symbol, stops after a delimiter once started.
   */
  function AnyWordFrom(s: string, i: nat, started: bool, buf: string): (r: Scanned<string>)
    requires i <= |s|
    ensures i <= r.cursor <= |s|
    decreases |s| - i
  {
    if i == |s| then Scanned(buf, i)
    else
      var c := s[i];
      if started && IsDelimiter(c) then Scanned(buf, i + 1)
      else if !IsDelimiter(c) then AnyWordFrom(s, i + 1, true, buf + [c])
      else AnyWordFrom(s, i + 1, started, buf)
  }

  /**
   * The any-word scanner returns the non-delimiter symbols it passed over and
   * stops only at the end of the text or after a delimiter that ends a
   * non-empty word, the first delimiter that follows a symbol of the word.
   */
  lemma AnyWordFromShape(s: string, i: nat, started: bool, buf: string)
    requires i <= |s| && started == (buf != [])
    ensures var r := AnyWordFrom(s, i, started, buf);
            && r.value == buf + NonDelimiters(s[i..r.cursor])
            && (r.cursor == |s| || (i < r.cursor && r.value != [] && IsDelimiter(s[r.cursor - 1])))
            && (forall k :: i <= k < r.cursor - 1 && buf + NonDelimiters(s[i..k]) != [] ==> !IsDelimiter(s[k]))
  {
    AnyWordFromContents(s, i, started, buf);
    AnyWordFromStop(s, i, started, buf);
    AnyWordFromFirstStop(s, i, started, buf);
  }

  /** The word is the non-delimiters passed over. */
  lemma {:induction false} AnyWordFromContents(s: string, i: nat, started: bool, buf: string)
    requires i <= |s|
    ensures var r := AnyWordFrom(s, i, started, buf);
            r.value == buf + NonDelimiters(s[i..r.cursor])
    decreases |s| - i
  {
    if i < |s| {
      var c := s[i];
      if started && IsDelimiter(c) {
        NonDelimitersStep(s, i, i + 1);
        assert s[i + 1..i + 1] == [];
      } else {
        var started', buf' := started || !IsDelimiter(c), if IsDelimiter(c) then buf else buf + [c];
        AnyWordFromContents(s, i + 1, started', buf');
        var r := AnyWordFrom(s, i + 1, started', buf');
        assert AnyWordFrom(s, i, started, buf) == r;
        NonDelimitersStep(s, i, r.cursor);
      }
    }
  }

  /** The scan ends at the end of the text or after the delimiter that ends a non-empty word. */
  lemma {:induction false} AnyWordFromStop(s: string, i: nat, started: bool, buf: string)
    requires i <= |s| && started == (buf != [])
    ensures var r := AnyWordFrom(s, i, started, buf);
            r.cursor == |s| || (i < r.cursor && r.value != [] && IsDelimiter(s[r.cursor - 1]))
    decreases |s| - i
  {
    if i < |s| {
      var c := s[i];
      if !(started && IsDelimiter(c)) {
        var started', buf' := started || !IsDelimiter(c), if IsDelimiter(c) then buf else buf + [c];
        AnyWordFromStop(s, i + 1, started', buf');
        assert AnyWordFrom(s, i, started, buf) == AnyWordFrom(s, i + 1, started', buf');
      }
    }
  }

  /** The source's expectAnyWord run from position i. */
  function AnyWordAt(s: string, i: nat): Scanned<string>
    requires i <= |s|
  {
    AnyWordFrom(s, i, false, [])
  }

  /** The first position from st on whose symbol is above the space character, or the length. */
  function TrimStart(w: string, st: nat): (k: nat)
    requires st <= |w|
    ensures st <= k <= |w|
    ensures forall j :: st <= j < k ==> w[j] <= ' '
    ensures k < |w| ==> w[k] > ' '
    decreases |w| - st
  {
    if st < |w| && w[st] <= ' ' then TrimStart(w, st + 1) else st
  }

  /** The end of the kept part: len moved back over symbols up to the space character, never below st. */
  function TrimEnd(w: string, st: nat, len: nat): (k: nat)
    requires st <= len <= |w|
    ensures st <= k <= len
    ensures forall j :: k <= j < len ==> w[j] <= ' '
    ensures st < k ==> w[k - 1] > ' '
    decreases len
  {
    if st < len && w[len - 1] <= ' ' then TrimEnd(w, st, len - 1) else len
  }

  /** How many symbols trimming drops at the front. */
  function TrimmedFront(w: string): nat {
    TrimStart(w, 0)
  }

  /** The platform's string trim: drops control characters and spaces at both ends, keeps the middle. */
  function Trim(w: string): (r: string)
    ensures TrimmedFront(w) + |r| <= |w| && r == w[TrimmedFront(w)..TrimmedFront(w) + |r|]
    ensures r == [] || (r[0] > ' ' && r[|r| - 1] > ' ')
    ensures forall k :: 0 <= k < TrimmedFront(w) ==> w[k] <= ' '
    ensures forall k :: TrimmedFront(w) + |r| <= k < |w| ==> w[k] <= ' '
  {
    var st := TrimStart(w, 0);
    w[st..TrimEnd(w, st, |w|)]
  }

  /** The source's readPercentageOf from position i: the word `of` and then a non-empty value path. */
  function PercentageOfAt(s: string, i: nat): (r: Result<Scanned<string>, SyntaxException>)
    requires i <= |s|
    ensures var first := NonNumericAt(s, i);
            r.Ok? <==> first.value == "of" && Trim(AnyWordAt(s, first.cursor).value) != []
    ensures var first := NonNumericAt(s, i);
            r.Ok? ==> r.value == Scanned(Trim(AnyWordAt(s, first.cursor).value), AnyWordAt(s, first.cursor).cursor)
    ensures r.Ok? ==> i <= r.value.cursor <= |s| && r.value.value != []
    ensures r.Ok? ==> forall k :: 0 <= k < |r.value.value| ==> !IsDelimiter(r.value.value[k])
    ensures r.Err? ==> r.error == SyntaxException(MissingValuePath, NoCause)
  {
    var first := NonNumericAt(s, i);
    if first.value == "of" then
      var word := AnyWordAt(s, first.cursor);
      AnyWordFromShape(s, first.cursor, false, []);
      var valuePath := Trim(word.value);
      assert forall k :: 0 <= k < |valuePath| ==> valuePath[k] == word.value[TrimmedFront(word.value) + k];
      if valuePath == [] then Err(SyntaxException(MissingValuePath, NoCause))
      else Ok(Scanned(valuePath, word.cursor))
    else Err(SyntaxException(MissingValuePath, NoCause))
  }

  /** The range type named by the first non-whitespace symbol. */
  function RangeTypeOf(first: Option<char>): (t: RangeType)
    ensures t == Approximate <==> first == Some('~')
    ensures t == GreaterThan <==> first == Some('>')
    ensures t == LessThan <==> first == Some('<')
    ensures t == Nothing <==> first.None? || first.value !in "~><"
  {
    if first == Some('~') then Approximate
    else if first == Some('>') then GreaterThan
    else if first == Some('<') then LessThan
    else Nothing
  }

  function Abs(x: real): real {
    if x < 0.0 then -x else x
  }

  /**
   * The bounds a single value stands for under a range type. An approximate
   * value v gets the tolerance max(|v| / 100, 1) on each side.
   */
  function CreateRange(v: real, t: RangeType): (b: Specs.Bounds)
    ensures t == Approximate ==>
              && b.Between?
              && b.from < v < b.to
              && b.to - v == v - b.from
              && 1.0 <= b.to - v && Abs(v) / 100.0 <= b.to - v
              && (b.to - v == 1.0 || b.to - v == Abs(v) / 100.0)
    ensures t == GreaterThan ==> b == Specs.GreaterThan(v)
    ensures t == LessThan ==> b == Specs.LessThan(v)
    ensures t == Nothing ==> b == Specs.Exact(v)
  {
    match t
    case Approximate =>
      var delta := if Abs(v) / 100.0 < 1.0 then 1.0 else Abs(v) / 100.0;
      Specs.Between(v - delta, v + delta)
    case GreaterThan => Specs.GreaterThan(v)
    case LessThan => Specs.LessThan(v)
    case Nothing => Specs.Exact(v)
  }

  /**
   * The source's read from position i: the range a range expression
   * denotes and the cursor after it, or the syntax error it raises.
   */
  function RangeAt(s: string, i: nat): Result<Scanned<Specs.Range>, SyntaxException>
    requires i <= |s|
  {
    var rangeType := RangeTypeOf(FirstNonWhitespace(s, i));
    match DoubleAt(s, i)
    case Err(e) => Err(e)
    case Ok(first) =>
      var text := NonNumericAt(s, first.cursor);
      if text.value == "%" then
        match PercentageOfAt(s, text.cursor)
        case Err(e) => Err(e)
        case Ok(path) => Ok(Scanned(Specs.Range(CreateRange(first.value, rangeType), Some(path.value)), path.cursor))
      else if text.value == "px" then
        Ok(Scanned(Specs.Range(CreateRange(first.value, rangeType), None), text.cursor))
      else if rangeType == Nothing then
        match DoubleAt(s, text.cursor)
        case Err(e) => Err(e)
        case Ok(second) =>
          if text.value != "to" then Err(SyntaxException(MsgFor(text.value), NoCause))
          else
            var range := Specs.Between(first.value, second.value);
            var end := NonNumericAt(s, second.cursor);
            if end.value == "px" then Ok(Scanned(Specs.Range(range, None), end.cursor))
            else if end.value == "%" then
              match PercentageOfAt(s, end.cursor)
              case Err(e) => Err(e)
              case Ok(path) => Ok(Scanned(Specs.Range(range, Some(path.value)), path.cursor))
            else Err(SyntaxException(MissingEnding, NoCause))
      else Err(SyntaxException(MsgFor(text.value), NoCause))
  }

  /** expectNonNumeric: the word before the next digit or delimiter. */
  method ExpectNonNumeric(reader: StringCharReader) returns (word: string)
    requires reader.Valid()
    modifies reader
    ensures reader.Valid()
    ensures Scanned(word, reader.cursor) == NonNumericAt(reader.text, old(reader.cursor))
  {
    var started := false;
    var buffer := "";
    while reader.HasMore()
      invariant reader.Valid()
      invariant started == (buffer != [])
      invariant NonNumericFrom(reader.text, reader.cursor, started, buffer) == NonNumericAt(reader.text, old(reader.cursor))
      decreases |reader.text| - reader.cursor
    {
      var symbol := reader.Next();
      if started && IsDelimiter(symbol) {
        break;
      } else if IsNumeric(symbol) {
        reader.Back();
        break;
      } else if !IsDelimiter(symbol) {
        buffer := buffer + [symbol];
        started := true;
      }
    }
    word := buffer;
  }

  /** expectAnyWord: the next word, whatever symbols it holds. */
  method ExpectAnyWord(reader: StringCharReader) returns (word: string)
    requires reader.Valid()
    modifies reader
    ensures reader.Valid()
    ensures Scanned(word, reader.cursor) == AnyWordAt(reader.text, old(reader.cursor))
  {
    var started := false;
    var buffer := "";
    while reader.HasMore()
      invariant reader.Valid()
      invariant started == (buffer != [])
      invariant AnyWordFrom(reader.text, reader.cursor, started, buffer) == AnyWordAt(reader.text, old(reader.cursor))
      decreases |reader.text| - reader.cursor
    {
      var symbol := reader.Next();
      if started && IsDelimiter(symbol) {
        break;
      } else if !IsDelimiter(symbol) {
        buffer := buffer + [symbol];
        started := true;
      }
    }
    word := buffer;
  }

  /** expectDouble: the next number. */
  method ExpectDouble(reader: StringCharReader) returns (r: Result<real, SyntaxException>)
    requires reader.Valid()
    modifies reader
    ensures reader.Valid()
    ensures var spec := DoubleAt(reader.text, old(reader.cursor));
            if spec.Ok? then r == Ok(spec.value.value) && reader.cursor == spec.value.cursor
            else r == Err(spec.error)
  {
    var started := false;
    var hadPointAlready := false;
    var buffer := "";
    assert NumberText(buffer);
    while reader.HasMore()
      invariant reader.Valid()
      invariant NumberText(buffer) && started == HasDigit(buffer) && hadPointAlready == ('.' in buffer)
      invariant DoubleFrom(reader.text, reader.cursor, started, hadPointAlready, buffer) ==
                DoubleFrom(reader.text, old(reader.cursor), false, false, [])
      decreases |reader.text| - reader.cursor
    {
      var symbol := reader.Next();
      if started && IsDelimiter(symbol) {
        break;
      } else if symbol == '.' {
        if hadPointAlready {
          return Err(SyntaxException(MsgFor([symbol]), NoCause));
        }
        AppendNumberSymbol(buffer, symbol);
        hadPointAlready := true;
        buffer := buffer + [symbol];
      } else if IsNumeric(symbol) {
        AppendNumberSymbol(buffer, symbol);
        buffer := buffer + [symbol];
        started := true;
      } else if started {
        reader.Back();
        break;
      }
    }
    var doubleText := buffer;
    var parsed := ParseDouble(doubleText);
    if parsed.None? {
      return Err(NumberValueError(doubleText));
    }
    return Ok(parsed.value);
  }

  /** readPercentageOf: `of` followed by the value path the range is relative to. */
  method ReadPercentageOf(reader: StringCharReader) returns (r: Result<string, SyntaxException>)
    requires reader.Valid()
    modifies reader
    ensures reader.Valid()
    ensures var spec := PercentageOfAt(reader.text, old(reader.cursor));
            if spec.Ok? then r == Ok(spec.value.value) && reader.cursor == spec.value.cursor
            else r == Err(spec.error)
  {
    var firstWord := ExpectNonNumeric(reader);
    if firstWord == "of" {
      var word := ExpectAnyWord(reader);
      var valuePath := Trim(word);
      if valuePath == [] {
        r := Err(SyntaxException(MissingValuePath, NoCause));
      } else {
        r := Ok(valuePath);
      }
    } else {
      r := Err(SyntaxException(MissingValuePath, NoCause));
    }
  }

  /** read: the range expression at the reader's cursor. */
  method Read(reader: StringCharReader) returns (r: Result<Specs.Range, SyntaxException>)
    requires reader.Valid()
    modifies reader
    ensures reader.Valid()
    ensures var spec := RangeAt(reader.text, old(reader.cursor));
            if spec.Ok? then r == Ok(spec.value.value) && reader.cursor == spec.value.cursor
            else r == Err(spec.error)
  {
    var rangeType := RangeTypeOf(reader.FirstNonWhiteSpaceSymbol());
    var firstValue := ExpectDouble(reader);
    if firstValue.Err? {
      return Err(firstValue.error);
    }
    var text := ExpectNonNumeric(reader);
    if text == "%" {
      var path := ReadPercentageOf(reader);
      if path.Err? {
        return Err(path.error);
      }
      return Ok(Specs.Range(CreateRange(firstValue.value, rangeType), Some(path.value)));
    }
    if text == "px" {
      return Ok(Specs.Range(CreateRange(firstValue.value, rangeType), None));
    } else if rangeType == Nothing {
      var secondValue := ExpectDouble(reader);
      if secondValue.Err? {
        return Err(secondValue.error);
      }
      if text != "to" {
        return Err(SyntaxException(MsgFor(text), NoCause));
      }
      var range := Specs.Between(firstValue.value, secondValue.value);
      var end := ExpectNonNumeric(reader);
      if end == "px" {
        return Ok(Specs.Range(range, None));
      } else if end == "%" {
        var path := ReadPercentageOf(reader);
        if path.Err? {
          return Err(path.error);
        }
        return Ok(Specs.Range(range, Some(path.value)));
      } else {
        return Err(SyntaxException(MissingEnding, NoCause));
      }
    } else {
      return Err(SyntaxException(MsgFor(text), NoCause));
    }
  }
}

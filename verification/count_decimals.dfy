/** `_count_n_decimals` of fleur/_utils/count_decimals.py, over the textual
    form `f"{f}"` of the argument rather than the float itself. */
module Decimals {
  import opened Errors
  import opened Text

  /** The argument: an instance of `numbers.Number`, given by its textual
      form, or any other Python value. */
  datatype Arg = Number(text: string) | NonNumber

  /** Digits after the point with trailing zeros stripped. */
  function SignificantFraction(fraction: string): (n: nat)
    ensures n <= |fraction|
    ensures forall k :: n <= k < |fraction| ==> fraction[k] == '0'
    ensures n == 0 || fraction[n - 1] != '0'
  {
    |RStrip(fraction, '0')|
  }

  /** `_count_n_decimals(f)`. */
  function CountDecimals(f: Arg): (r: Result<nat>)
    ensures f.NonNumber? <==> r == Err(TypeError)
    ensures f.Number? && '.' !in f.text ==> r == Ok(0)
  {
    match f
    case NonNumber => Err(TypeError)
    case Number(s) =>
      if '.' in s then
        var parts := Split(s, '.');
        // `integer_part, decimal_part = s.split(".")` needs exactly two pieces
        if |parts| == 2 then Ok(SignificantFraction(parts[1])) else Err(ValueError)
      else Ok(0)
  }

  lemma {:induction false} OccurrencesZero(s: string, c: char)
    ensures Occurrences(s, c) == 0 <==> c !in s
  {
    if s != [] {
      OccurrencesZero(s[1..], c);
      assert s == [s[0]] + s[1..];
    }
  }

  /** With a single point, the result is the number of digits after it once
      trailing zeros are stripped; it ignores the integer part. */
  lemma OnePoint(intPart: string, fraction: string)
    requires '.' !in intPart && '.' !in fraction
    ensures CountDecimals(Number(intPart + "." + fraction)) == Ok(SignificantFraction(fraction))
  {
    var s := intPart + "." + fraction;
    assert s[|intPart|] == '.';
    var parts := Split(s, '.');
    SplitShape(s, '.');
    SplitJoin(s, '.');
    OccurrencesConcat(intPart, ".", '.');
    OccurrencesConcat(intPart + ".", fraction, '.');
    OccurrencesZero(intPart, '.');
    OccurrencesZero(fraction, '.');
    assert |parts| == 2;
    assert s == parts[0] + "." + parts[1];
    PointPosition(intPart, fraction, parts[0], parts[1]);
  }

  /** In `a + "." + b` with no point in `a`, the first point is at `|a|`. */
  lemma FirstPoint(a: string, b: string)
    requires '.' !in a
    ensures (a + "." + b)[|a|] == '.'
    ensures forall k :: 0 <= k < |a| ==> (a + "." + b)[k] != '.'
  {
    forall k | 0 <= k < |a| ensures (a + "." + b)[k] != '.' {
      assert (a + "." + b)[k] == a[k];
    }
  }

  /** A string with one point splits around it in only one way. */
  lemma PointPosition(a: string, b: string, c: string, d: string)
    requires '.' !in a && '.' !in b && '.' !in c && '.' !in d
    requires a + "." + b == c + "." + d
    ensures a == c && b == d
  {
    var s := a + "." + b;
    FirstPoint(a, b);
    FirstPoint(c, d);
    assert |a| == |c|;
    assert a == s[..|a|] == c;
    assert b == s[|a| + 1..] == d;
  }

  /** Two or more points (as in the text of a complex number) make the
      two-name unpacking raise ValueError. */
  lemma ManyPoints(s: string)
    requires Occurrences(s, '.') >= 2
    ensures CountDecimals(Number(s)) == Err(ValueError)
  {
    SplitShape(s, '.');
    OccurrencesZero(s, '.');
  }

  /** The result lies between 0 and the number of digits after the point. */
  lemma Bounded(intPart: string, fraction: string)
    requires '.' !in intPart && '.' !in fraction
    ensures CountDecimals(Number(intPart + "." + fraction)).Ok?
    ensures CountDecimals(Number(intPart + "." + fraction)).value <= |fraction|
  {
    OnePoint(intPart, fraction);
  }

  /** Appending a trailing zero after the point changes nothing. */
  lemma TrailingZeroIgnored(intPart: string, fraction: string)
    requires '.' !in intPart && '.' !in fraction
    ensures CountDecimals(Number(intPart + "." + fraction + "0")) ==
            CountDecimals(Number(intPart + "." + fraction))
  {
    OnePoint(intPart, fraction);
    assert intPart + "." + fraction + "0" == intPart + "." + (fraction + "0");
    OnePoint(intPart, fraction + "0");
    assert (fraction + "0")[..|fraction|] == fraction;
  }

  /** The integer part does not matter. */
  lemma IntegerPartIgnored(a: string, b: string, fraction: string)
    requires '.' !in a && '.' !in b && '.' !in fraction
    ensures CountDecimals(Number(a + "." + fraction)) == CountDecimals(Number(b + "." + fraction))
  {
    OnePoint(a, fraction);
    OnePoint(b, fraction);
  }

  /** The fractional values of tests/test_utils.py:16-19, one per lemma. */
  lemma ExampleFourDigits()
    ensures CountDecimals(Number("12.3456")) == Ok(4)
  {
    assert "12" + "." + "3456" == "12.3456";
    OnePoint("12", "3456");
    assert RStrip("3456", '0') == "3456";
  }

  lemma ExampleThreeDigits()
    ensures CountDecimals(Number("0.123")) == Ok(3)
  {
    assert "0" + "." + "123" == "0.123";
    OnePoint("0", "123");
    assert RStrip("123", '0') == "123";
  }

  lemma ExampleLeadingZeros()
    ensures CountDecimals(Number("0.0001")) == Ok(4)
  {
    assert "0" + "." + "0001" == "0.0001";
    OnePoint("0", "0001");
    assert RStrip("0001", '0') == "0001";
  }

  lemma ExampleSixDigits()
    ensures CountDecimals(Number("123.456789")) == Ok(6)
  {
    assert "123" + "." + "456789" == "123.456789";
    OnePoint("123", "456789");
    assert RStrip("456789", '0') == "456789";
  }

  /** The whole values of tests/test_utils.py:20-24 (`100.000` prints as
      `100.0`) and the rejected arguments of tests/test_utils.py:27-32. */
  lemma ExamplesWithoutDigits()
    ensures CountDecimals(Number("2.0")) == Ok(0)
    ensures CountDecimals(Number("100.0")) == Ok(0)
    ensures CountDecimals(Number("500")) == Ok(0)
    ensures CountDecimals(Number("0.0")) == Ok(0)
    ensures CountDecimals(Number("1.0")) == Ok(0)
    ensures CountDecimals(NonNumber) == Err(TypeError)
  {
    assert "2" + "." + "0" == "2.0";
    OnePoint("2", "0");
    assert RStrip("0", '0') == "";
    assert "100" + "." + "0" == "100.0";
    OnePoint("100", "0");
    assert RStrip("0", '0') == "";
    assert "0" + "." + "0" == "0.0";
    OnePoint("0", "0");
    assert RStrip("0", '0') == "";
    assert "1" + "." + "0" == "1.0";
    OnePoint("1", "0");
    assert RStrip("0", '0') == "";
    assert '.' !in "500";
  }
}

/**
 * Values and string operations of the Java runtime that the rest of the
 * model relies on: optional (nullable) values, `String.trim`, decimal
 * rendering of integers and the decimal parsing behind `Integer.parseInt`
 * and its siblings.
 */
module Common {

  /** A Java reference that may be null. */
  datatype Option<+T> = None | Some(value: T)

  /** `String.trim` removes every leading and trailing character up to ' '. */
  predicate IsTrimmable(c: char) { c <= ' ' }

  function TrimStart(s: string): (r: string)
    ensures |r| <= |s| && r == s[|s| - |r|..]
    ensures r == [] || !IsTrimmable(r[0])
    ensures forall i :: 0 <= i < |s| - |r| ==> IsTrimmable(s[i])
  {
    if |s| > 0 && IsTrimmable(s[0]) then TrimStart(s[1..]) else s
  }

  function TrimEnd(s: string): (r: string)
    ensures |r| <= |s| && r == s[..|r|]
    ensures r == [] || !IsTrimmable(r[|r| - 1])
    ensures forall i :: |r| <= i < |s| ==> IsTrimmable(s[i])
  {
    if |s| > 0 && IsTrimmable(s[|s| - 1]) then TrimEnd(s[..|s| - 1]) else s
  }

  /** Java's `s.trim()`. */
  function Trim(s: string): string
  {
    TrimEnd(TrimStart(s))
  }

  /**
   * A blank string: nothing but trimmable characters, which is what
   * `s.trim().length() == 0` tests (`BlankIffTrimEmpty`).
   */
  predicate IsBlank(s: string)
  {
    forall i :: 0 <= i < |s| ==> IsTrimmable(s[i])
  }

  /** `s.trim()` is empty exactly when the string is blank. */
  lemma BlankIffTrimEmpty(s: string)
    ensures IsBlank(s) <==> |Trim(s)| == 0
  {
    var t := TrimStart(s);
    if |Trim(s)| == 0 {
      assert t == [];
    } else {
      var r := TrimEnd(t);
      assert r[0] == t[0];
      if |t| == |s| {
        assert s[0] == t[0];
      } else {
        assert s[|s| - |t|] == t[0];
      }
    }
  }

  /** A trimmed string starts and ends with a non-trimmable character. */
  lemma TrimmedEndsAreKept(s: string)
    ensures var r := Trim(s); r == [] || (!IsTrimmable(r[0]) && !IsTrimmable(r[|r| - 1]))
  {
    var t := TrimStart(s);
    var r := TrimEnd(t);
    if r != [] {
      assert r[0] == t[0];
    }
  }

  // ----- decimal text -----

  predicate IsDigit(c: char) { '0' <= c <= '9' }

  predicate AllDigits(s: string) { forall i :: 0 <= i < |s| ==> IsDigit(s[i]) }

  function DigitChar(d: nat): (c: char)
    requires d < 10
    ensures IsDigit(c) && c as int - '0' as int == d
  {
    (d + '0' as int) as char
  }

  /** The decimal digits of `n` without leading zeros (`Long.toString` of a non-negative value). */
  function NatToString(n: nat): (s: string)
    ensures |s| > 0 && AllDigits(s)
    decreases n
  {
    if n < 10 then [DigitChar(n)] else NatToString(n / 10) + [DigitChar(n % 10)]
  }

  /** `Long.toString(i)`, also what `i + ""` yields. */
  function IntToString(i: int): (s: string)
    ensures |s| > 0
    ensures i < 0 <==> s[0] == '-'
  {
    if i < 0 then "-" + NatToString(-i) else NatToString(i)
  }

  /** The value of a non-empty run of decimal digits. */
  function DigitsValue(s: string): nat
    requires AllDigits(s)
  {
    if s == [] then 0 else DigitsValue(s[..|s| - 1]) * 10 + (s[|s| - 1] as int - '0' as int)
  }

  /**
   * Decimal parsing of the `parseXxx` methods of the Java wrapper classes
   * before their range check, restricted to ASCII: an optional '-'
   * followed by at least one ASCII digit; anything else is a
   * `NumberFormatException` (None). Java also accepts a leading '+' and
   * the other Unicode decimal digits.
   */
  function ParseDecimal(s: string): (r: Option<int>)
    ensures r.Some? ==> |s| > 0
    ensures r.Some? && r.value < 0 ==> s[0] == '-'
  {
    if |s| > 1 && s[0] == '-' && AllDigits(s[1..]) then Some(0 - DigitsValue(s[1..]) as int)
    else if |s| > 0 && AllDigits(s) then Some(DigitsValue(s))
    else None
  }

  lemma {:induction false} DigitsOfNat(n: nat)
    ensures DigitsValue(NatToString(n)) == n
    decreases n
  {
    if n >= 10 {
      DigitsOfNat(n / 10);
      var s := NatToString(n);
      assert s[..|s| - 1] == NatToString(n / 10);
    }
  }

  /** Rendering an integer in decimal and parsing it back yields the integer. */
  lemma DecimalRoundTrip(i: int)
    ensures ParseDecimal(IntToString(i)) == Some(i)
  {
    if i < 0 {
      DigitsOfNat(-i);
      assert IntToString(i)[1..] == NatToString(-i);
    } else {
      DigitsOfNat(i);
    }
  }

  /** Java's string concatenation renders a null string as "null". */
  function JavaText(s: Option<string>): string
  {
    if s.Some? then s.value else "null"
  }
}

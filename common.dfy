/// Small building blocks shared by the models: Python's `None`-or-value,
/// results that carry an exception instead of raising it, and the few
/// string operations the sources rely on (`startswith`, truthiness of an
/// optional string, `str()` of an integer).
module Common {

  datatype Option<T> = None | Some(value: T)

  datatype Result<T, E> = Success(value: T) | Failure(error: E)

  /** Python's `s.startswith(prefix)`. */
  predicate StartsWith(s: string, prefix: string) {
    |prefix| <= |s| && s[..|prefix|] == prefix
  }

  /** Python truthiness of a value that is either `None` or a string. */
  predicate Given(o: Option<string>) {
    o.Some? && o.value != ""
  }

  /** `"%s" % o`: the text of the string, or `None` for a missing one. */
  function TextOf(o: Option<string>): (r: string)
    ensures o.Some? ==> r == o.value
    ensures o.None? ==> r == "None"
  {
    if o.Some? then o.value else "None"
  }

  predicate IsDigit(c: char) {
    '0' <= c <= '9'
  }

  function DigitChar(d: nat): (c: char)
    requires d < 10
    ensures IsDigit(c) && c as int - '0' as int == d
  {
    ('0' as int + d) as char
  }

  /** The number a string of decimal digits denotes. */
  function DigitsValue(s: string): nat
    requires forall i :: 0 <= i < |s| ==> IsDigit(s[i])
    decreases |s|
  {
    if s == [] then 0
    else
      var last := s[|s| - 1];
      assert IsDigit(last);
      DigitsValue(s[..|s| - 1]) * 10 + (last as int - '0' as int)
  }

  /** Decimal digits of a natural number, as Python's `str` writes them. */
  function NatString(n: nat): (r: string)
    ensures |r| >= 1
    ensures forall i :: 0 <= i < |r| ==> IsDigit(r[i])
    ensures n >= 10 ==> r[0] != '0'
    decreases n
  {
    if n < 10 then [DigitChar(n)] else NatString(n / 10) + [DigitChar(n % 10)]
  }

  /** The digits `NatString` writes denote the number again. */
  lemma {:induction false} NatStringValue(n: nat)
    ensures DigitsValue(NatString(n)) == n
    decreases n
  {
    var r := NatString(n);
    if n < 10 {
      assert r[..0] == [];
    } else {
      NatStringValue(n / 10);
      assert r[..|r| - 1] == NatString(n / 10);
    }
  }

  /** Python's `"{}".format(n)` for an integer. */
  function IntString(n: int): (r: string)
    ensures |r| >= 1
    ensures n < 0 <==> r[0] == '-'
  {
    if n < 0 then "-" + NatString(-n) else NatString(n)
  }

  /** `IntString` writes the magnitude's digits, after a `-` for a negative number. */
  lemma IntStringValue(n: int)
    ensures n >= 0 ==> IntString(n) == NatString(n)
    ensures n < 0 ==> IntString(n) == "-" + NatString(-n)
    ensures n >= 0 ==> DigitsValue(IntString(n)) == n
    ensures n < 0 ==> DigitsValue(IntString(n)[1..]) == -n
  {
    if n < 0 {
      NatStringValue(-n);
      assert IntString(n)[1..] == NatString(-n);
    } else {
      NatStringValue(n);
    }
  }
}

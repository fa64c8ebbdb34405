/**
 * The C library's `atoi`, which the uplink router uses to read its boolean
 * configuration values: skip leading white space, take an optional sign and
 * the decimal digits that follow, ignore everything after them; no digits
 * at all read as 0.
 */
module CAtoi {

  /** `isspace` in the C locale: space, tab, line feed, vertical tab, form feed, carriage return. */
  predicate IsSpace(c: char)
  {
    c == ' ' || (9 <= c as int <= 13)
  }

  predicate IsDigit(c: char)
  {
    '0' <= c <= '9'
  }

  predicate AllDigits(s: string)
  {
    forall i :: 0 <= i < |s| ==> IsDigit(s[i])
  }

  predicate AllZeros(s: string)
  {
    forall i :: 0 <= i < |s| ==> s[i] == '0'
  }

  /** `s` without its leading white space. */
  function SkipSpace(s: string): (r: string)
    ensures |r| <= |s| && r == s[|s| - |r|..]
    ensures forall i :: 0 <= i < |s| - |r| ==> IsSpace(s[i])
    ensures r == [] || !IsSpace(r[0])
  {
    if |s| > 0 && IsSpace(s[0]) then SkipSpace(s[1..]) else s
  }

  /** The longest prefix of `s` made of decimal digits. */
  function LeadingDigits(s: string): (r: string)
    ensures |r| <= |s| && r == s[..|r|]
    ensures AllDigits(r)
    ensures |r| == |s| || !IsDigit(s[|r|])
  {
    if |s| > 0 && IsDigit(s[0]) then [s[0]] + LeadingDigits(s[1..]) else []
  }

  /** The digits of the number `s` starts with: after white space and an optional sign. */
  function NumberDigits(s: string): (r: string)
    ensures AllDigits(r)
  {
    var t := SkipSpace(s);
    if |t| > 0 && (t[0] == '-' || t[0] == '+') then LeadingDigits(t[1..]) else LeadingDigits(t)
  }

  /** Whether the number `s` starts with is negative. */
  predicate IsNegative(s: string)
  {
    var t := SkipSpace(s);
    |t| > 0 && t[0] == '-'
  }

  /** The value of a string of decimal digits, most significant first. */
  function DigitsValue(ds: string): (v: nat)
    requires AllDigits(ds)
  {
    if ds == [] then 0
    else DigitsValue(ds[..|ds| - 1]) * 10 + (ds[|ds| - 1] as int - '0' as int)
  }

  /**
   * `atoi(s)`; overflow, which C leaves undefined, is not modelled. The value
   * is 0 exactly when the digits read are all '0' (or there are none), and
   * its sign is the sign read.
   */
  function Atoi(s: string): (v: int)
    ensures v == 0 <==> AllZeros(NumberDigits(s))
    ensures IsNegative(s) ==> v <= 0
    ensures !IsNegative(s) ==> v >= 0
  {
    DigitsValueZeroIff(NumberDigits(s));
    var d: int := DigitsValue(NumberDigits(s));
    if IsNegative(s) then -d else d
  }

  /** A string of digits has the value 0 exactly when every digit is '0'. */
  lemma {:induction false} DigitsValueZeroIff(ds: string)
    requires AllDigits(ds)
    ensures DigitsValue(ds) == 0 <==> AllZeros(ds)
  {
    if ds != [] {
      var init := ds[..|ds| - 1];
      DigitsValueZeroIff(init);
      if AllZeros(ds) {
        assert AllZeros(init) by {
          forall i | 0 <= i < |init| ensures init[i] == '0' {
            assert init[i] == ds[i];
          }
        }
      } else if AllZeros(init) {
        forall i | 0 <= i < |ds| ensures ds[i] == '0' || i == |ds| - 1 {
          if i < |init| {
            assert init[i] == ds[i];
          }
        }
      }
    }
  }
}

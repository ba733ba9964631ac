/**
  Shared vocabulary of the model: the exceptions the observing package raises
  (its own error classes plus the Python built-ins that its code paths can
  raise), a Result type for every operation that can raise, and the small
  string and integer helpers that the command builders and parsers use.
 */
module Base {

  datatype Option<T> = None | Some(value: T)

  /** Every exception a modelled operation can end with. */
  datatype Error =
    // the package's own exception classes
    | FilterNotRecognizedError
    | TargetNotUpError
    | EndOfNightError
    | TargetUptimeError
    | DayTimeError
    // Python built-ins reached by the code as written
    | ValueError
    | AssertionError
    | KeyError
    | IndexError
    | AttributeError
    | TypeError
    | UnboundLocalError
    | ZeroDivisionError
    | OverflowError
    | FileNotFoundError

  datatype Result<T> = Ok(value: T) | Err(error: Error)

  /** A numeric argument together with the text Python prints for it
      (`5.0` for the float 5.0, `5` for the int 5). */
  datatype Number = Number(value: real, text: string)

  // ---------------------------------------------------------------- strings

  predicate StartsWith(s: string, prefix: string)
  {
    |prefix| <= |s| && s[..|prefix|] == prefix
  }

  predicate IsDigit(c: char)
  {
    '0' <= c <= '9'
  }

  predicate AllDigits(s: string)
  {
    forall i :: 0 <= i < |s| ==> IsDigit(s[i])
  }

  function UpperChar(c: char): char
  {
    if IsLower(c) then (c as int - 32) as char else c
  }

  predicate IsLower(c: char)
  {
    'a' <= c <= 'z'
  }

  /** `str.upper()` restricted to ASCII letters: no lower-case letter is
      left, each one becomes its capital (32 code points down), and every
      other character stays where it was. */
  function ToUpper(s: string): (u: string)
    ensures |u| == |s|
    ensures forall i :: 0 <= i < |u| ==> !IsLower(u[i])
    ensures forall i :: 0 <= i < |s| && IsLower(s[i]) ==> u[i] as int == s[i] as int - 32 && 'A' <= u[i] <= 'Z'
    ensures forall i :: 0 <= i < |s| && !IsLower(s[i]) ==> u[i] == s[i]
  {
    seq(|s|, i requires 0 <= i < |s| => UpperChar(s[i]))
  }

  /** Upper-casing twice is upper-casing once. */
  lemma ToUpperIdempotent(s: string)
    ensures ToUpper(ToUpper(s)) == ToUpper(s)
  {
  }

  /** The text before the first occurrence of `c` (the whole string when
      there is none): `s.split(c)[0]`. */
  function FirstField(s: string, c: char): (f: string)
    ensures |f| <= |s| && f == s[..|f|]
    ensures c !in f
    ensures |f| < |s| ==> s[|f|] == c
  {
    if s == [] then []
    else if s[0] == c then []
    else [s[0]] + FirstField(s[1..], c)
  }

  /** `sep` occurs in `s` starting at index `j`. */
  predicate MatchAt(s: string, sep: string, j: int)
  {
    0 <= j && j + |sep| <= |s| && s[j..j + |sep|] == sep
  }

  lemma MatchShift(s: string, sep: string, j: int)
    requires |s| >= 1 && 1 <= j
    ensures MatchAt(s, sep, j) <==> MatchAt(s[1..], sep, j - 1)
  {
    if j + |sep| <= |s| {
      assert s[1..][j - 1..j - 1 + |sep|] == s[j..j + |sep|];
    }
  }

  /** Index of the first occurrence of `sep` in `s`, if any. */
  function IndexOf(s: string, sep: string): (r: Option<nat>)
    requires |sep| > 0
    ensures r.Some? ==> MatchAt(s, sep, r.value)
    ensures r.Some? ==> forall j :: 0 <= j < r.value ==> !MatchAt(s, sep, j)
    ensures r.None? ==> forall j :: !MatchAt(s, sep, j)
    decreases |s|
  {
    if |s| < |sep| then None
    else if s[..|sep|] == sep then Some(0)
    else
      assert !MatchAt(s, sep, 0);
      assert forall j :: 1 <= j ==> (MatchAt(s, sep, j) <==> MatchAt(s[1..], sep, j - 1)) by {
        forall j | 1 <= j { MatchShift(s, sep, j); }
      }
      match IndexOf(s[1..], sep)
      case None => None
      case Some(k) => Some(k + 1)
  }

  /** `s.split(sep)[1]`: the text between the first and the second
      occurrence of `sep`, or None when `sep` does not occur (IndexError). */
  function SecondField(s: string, sep: string): Option<string>
    requires |sep| > 0
  {
    match IndexOf(s, sep)
    case None => None
    case Some(k) =>
      var rest := s[k + |sep|..];
      match IndexOf(rest, sep)
      case None => Some(rest)
      case Some(j) => Some(rest[..j])
  }

  // --------------------------------------------------------------- integers

  function DigitChar(d: nat): (c: char)
    requires d < 10
    ensures IsDigit(c)
  {
    "0123456789"[d]
  }

  function DigitValue(c: char): (d: nat)
    requires IsDigit(c)
    ensures d < 10
  {
    c as int - '0' as int
  }

  /** Decimal text of a natural number, as Python's `str` prints it. */
  function NatToString(n: nat): (s: string)
    ensures |s| >= 1 && AllDigits(s)
    ensures n < 10 <==> |s| == 1
    decreases n
  {
    if n < 10 then [DigitChar(n)] else NatToString(n / 10) + [DigitChar(n % 10)]
  }

  function IntToString(i: int): string
  {
    if i < 0 then "-" + NatToString(-i) else NatToString(i)
  }

  /** Value of a non-empty run of decimal digits. */
  function DigitsValue(s: string): nat
    requires AllDigits(s)
    decreases |s|
  {
    if s == [] then 0 else DigitsValue(s[..|s| - 1]) * 10 + DigitValue(s[|s| - 1])
  }

  /** Python's `int(s)` for an optional sign followed by decimal digits;
      anything else is a ValueError (None). */
  function ParseInt(s: string): (r: Option<int>)
    ensures r.Some? ==> |s| >= 1
  {
    if |s| >= 2 && s[0] == '-' && AllDigits(s[1..]) then Some(0 - DigitsValue(s[1..]))
    else if |s| >= 2 && s[0] == '+' && AllDigits(s[1..]) then Some(DigitsValue(s[1..]))
    else if |s| >= 1 && AllDigits(s) then Some(DigitsValue(s))
    else None
  }

  lemma DigitRoundTrip(d: nat)
    requires d < 10
    ensures DigitValue(DigitChar(d)) == d
  {
  }

  /** Printing a natural number and parsing it back gives the number. */
  lemma {:induction false} DigitsValueOfNatToString(n: nat)
    ensures DigitsValue(NatToString(n)) == n
    decreases n
  {
    var s := NatToString(n);
    if n < 10 {
      DigitRoundTrip(n);
      assert s[..|s| - 1] == [];
    } else {
      DigitsValueOfNatToString(n / 10);
      DigitRoundTrip(n % 10);
      assert s[..|s| - 1] == NatToString(n / 10);
    }
  }

  /** Different numbers print differently. */
  lemma NatToStringInjective(m: nat, n: nat)
    requires m != n
    ensures NatToString(m) != NatToString(n)
  {
    DigitsValueOfNatToString(m);
    DigitsValueOfNatToString(n);
  }

  lemma PrefixCancels(p: string, a: string, b: string)
    requires a != b
    ensures p + a != p + b
  {
    assert (p + a)[|p|..] == a;
    assert (p + b)[|p|..] == b;
  }

  /** A run of digits reads as its value. */
  lemma ParseDigits(t: string)
    requires |t| >= 1 && AllDigits(t)
    ensures ParseInt(t) == Some(DigitsValue(t))
  {
    assert IsDigit(t[0]);
  }

  /** A minus sign before a run of digits negates its value. */
  lemma ParseNegatedDigits(t: string)
    requires |t| >= 1 && AllDigits(t)
    ensures ParseInt("-" + t) == Some(0 - DigitsValue(t))
  {
    var s := "-" + t;
    assert s[0] == '-' && s[1..] == t;
  }

  lemma ParseIntOfNegative(i: int)
    requires i < 0
    ensures ParseInt(IntToString(i)) == Some(i)
  {
    var n: nat := -i;
    assert IntToString(i) == "-" + NatToString(n);
    ParseNegatedDigits(NatToString(n));
    DigitsValueOfNatToString(n);
  }

  lemma ParseIntOfNatural(i: int)
    requires i >= 0
    ensures ParseInt(IntToString(i)) == Some(i)
  {
    ParseDigits(NatToString(i));
    DigitsValueOfNatToString(i);
  }

  lemma ParseIntOfIntToString(i: int)
    ensures ParseInt(IntToString(i)) == Some(i)
  {
    if i < 0 { ParseIntOfNegative(i); } else { ParseIntOfNatural(i); }
  }

  /** Python's `a // b` (and `int(np.floor(a / b))` for ints): rounds
      toward negative infinity; dividing by zero is an error. */
  function FloorDiv(a: int, b: int): (r: Result<int>)
    ensures b == 0 <==> r == Err(ZeroDivisionError)
    ensures b > 0 ==> r.Ok? && r.value * b <= a < r.value * b + b
    ensures b < 0 ==> r.Ok? && r.value * b + b < a <= r.value * b
  {
    if b == 0 then Err(ZeroDivisionError)
    else if b > 0 then Ok(a / b)
    else Ok((-a) / (-b))
  }

  function Abs(x: real): real
  {
    if x < 0.0 then -x else x
  }
}

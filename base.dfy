/** Shared vocabulary: optional values, query parameters, money, instants and
    the small string operations the views rely on (case-insensitive equality
    and containment, prefix tests, decimal rendering of counters). */
module Base {

  datatype Option<T> = None | Some(value: T)

  /** The outcome of an operation that may fail with a named error. */
  datatype Result<T> = Ok(value: T) | Err(error: string)

  /** A query-string parameter after the view has looked at it: not usable as
      given (the views that test the text for truth treat the empty string the
      same way as a missing one), well-formed, or present but rejected by the
      conversion the view applies to it. */
  datatype Param<T> = Missing | Given(value: T) | Malformed

  /** Decimal amounts are exact in the source, so they are modelled as reals. */
  type Money = real

  /** An instant, in seconds; a calendar date, as a day number. */
  type DateTime = int
  type Date = int

  const SecondsPerDay: int := 86400

  /** The date part of an instant (`__date` lookups, `TruncDate`). */
  function DateOf(t: DateTime): (d: Date)
    ensures d * SecondsPerDay <= t < d * SecondsPerDay + SecondsPerDay
  {
    t / SecondsPerDay
  }

  /** `x or 0` for a nullable decimal. */
  function OrZero(x: Option<Money>): Money
  {
    if x.Some? then x.value else 0.0
  }

  /** Python truthiness of a nullable text field. */
  predicate Truthy(s: Option<string>)
  {
    s.Some? && s.value != ""
  }

  function LowerChar(c: char): char
  {
    if 'A' <= c <= 'Z' then (c as int + 32) as char else c
  }

  /** Case folding used by the database's `iexact` and `icontains` lookups
      (ASCII letters only). */
  function Lower(s: string): (r: string)
    ensures |r| == |s|
    ensures forall i :: 0 <= i < |s| ==> r[i] == LowerChar(s[i])
  {
    if s == [] then [] else [LowerChar(s[0])] + Lower(s[1..])
  }

  /** `field__iexact=value`. */
  predicate EqualsIgnoringCase(a: string, b: string)
  {
    Lower(a) == Lower(b)
  }

  predicate StartsWith(s: string, prefix: string)
  {
    |prefix| <= |s| && s[..|prefix|] == prefix
  }

  predicate OccursAt(s: string, part: string, i: int)
  {
    0 <= i <= |s| - |part| && s[i..i + |part|] == part
  }

  predicate Contains(s: string, part: string)
  {
    exists i | 0 <= i <= |s| - |part| :: OccursAt(s, part, i)
  }

  /** `field__icontains=value`. */
  predicate ContainsIgnoringCase(s: string, part: string)
  {
    Contains(Lower(s), Lower(part))
  }

  function DigitChar(d: nat): char
    requires d < 10
  {
    "0123456789"[d]
  }

  /** Decimal rendering of a counter, as an f-string prints an `int`. */
  function NatToString(n: nat): (r: string)
    ensures |r| >= 1
  {
    if n < 10 then [DigitChar(n)] else NatToString(n / 10) + [DigitChar(n % 10)]
  }

  /** Decimal rendering of an `int`, with a leading minus sign when negative. */
  function IntToString(i: int): string
  {
    if i < 0 then "-" + NatToString(-i) else NatToString(i)
  }

  /** The value of a text of decimal digits. */
  function DigitsValue(s: string): nat
  {
    if s == [] then 0
    else
      var c := s[|s| - 1];
      10 * DigitsValue(s[..|s| - 1]) + (if '0' <= c <= '9' then (c as int - '0' as int) else 0)
  }

  /** The rendering is made of digits only, and reads back as the number. */
  lemma {:induction false} NatToStringRoundTrip(n: nat)
    ensures forall i :: 0 <= i < |NatToString(n)| ==> '0' <= NatToString(n)[i] <= '9'
    ensures DigitsValue(NatToString(n)) == n
  {
    if n >= 10 {
      NatToStringRoundTrip(n / 10);
      var r := NatToString(n);
      assert r[..|r| - 1] == NatToString(n / 10);
    }
  }
}

/** The slice of the Java platform the telemetry core relies on: `double`
    values with their non-finite cases, `long`, `Math.round`, and the
    `String` operations the code calls (`isBlank`, `trim`, `replace`,
    `Integer.parseInt`). */
module Java {
  import opened Wrappers

  /** The exceptions the core throws or lets escape. */
  datatype JavaException =
    | NullPointer(what: string)
    | IllegalArgument(message: string)
    | IllegalState(message: string)

  /** An slf4j `Logger`; only whether one was supplied matters. */
  datatype Logger = Logger

  /** The outcome of a host query whose exception the caller catches
      (the exception's type is irrelevant there). */
  datatype Fallible<+T> = Throws | Returns(value: T)

  // ---------------------------------------------------------------------
  // Numbers
  // ---------------------------------------------------------------------

  const LONG_MIN: int := -0x8000_0000_0000_0000
  const LONG_MAX: int := 0x7FFF_FFFF_FFFF_FFFF
  const INT_MIN: int := -0x8000_0000
  const INT_MAX: int := 0x7FFF_FFFF

  /** Java `long`. */
  newtype Long = x: int | -0x8000_0000_0000_0000 <= x <= 0x7FFF_FFFF_FFFF_FFFF

  /** A Java `double`: a real number (rounding of IEEE arithmetic is not
      modelled) or one of the three non-finite values. */
  datatype Double = Finite(r: real) | NaN | PosInf | NegInf

  /** `java.util.OptionalDouble`. */
  datatype OptionalDouble = Empty | Present(value: Double)

  /** `!d.isNaN() && !d.isInfinite()`. */
  predicate IsFinite(d: Double) {
    d.Finite?
  }

  /** `d <= 0.0` under IEEE comparison: false for NaN. */
  predicate AtMostZero(d: Double) {
    match d
    case Finite(x) => x <= 0.0
    case NegInf => true
    case PosInf => false
    case NaN => false
  }

  /** `d * k` and `d / (1/k)` for a positive finite constant `k`. */
  function Scale(d: Double, k: real): (e: Double)
    requires k > 0.0
    ensures e.Finite? <==> d.Finite?
    ensures d.Finite? ==> e.r == d.r * k
    ensures !d.Finite? ==> e == d
  {
    match d
    case Finite(x) => Finite(x * k)
    case _ => d
  }

  function ClampToLong(n: int): int {
    if n < LONG_MIN then LONG_MIN else if n > LONG_MAX then LONG_MAX else n
  }

  /** `Math.round(double)`: the closest `long`, ties towards positive
      infinity; NaN gives 0 and values beyond the `long` range saturate. */
  function Round(d: Double): (n: int)
    ensures LONG_MIN <= n <= LONG_MAX
    ensures d.NaN? ==> n == 0
    ensures d.PosInf? ==> n == LONG_MAX
    ensures d.NegInf? ==> n == LONG_MIN
    ensures d.Finite? && LONG_MIN as real <= d.r + 0.5 < LONG_MAX as real + 1.0 ==>
              d.r - 0.5 < n as real <= d.r + 0.5
  {
    match d
    case NaN => 0
    case PosInf => LONG_MAX
    case NegInf => LONG_MIN
    case Finite(x) => ClampToLong((x + 0.5).Floor)
  }

  // ---------------------------------------------------------------------
  // Strings
  // ---------------------------------------------------------------------

  /** `Character.isWhitespace`: Unicode space, line and paragraph separators
      other than the three no-break spaces, plus the ASCII controls
      U+0009..U+000D and U+001C..U+001F. */
  predicate IsWhitespace(c: char) {
    || ('\U{0009}' <= c <= '\U{000D}')
    || ('\U{001C}' <= c <= '\U{0020}')
    || c == '\U{1680}'
    || ('\U{2000}' <= c <= '\U{200A}' && c != '\U{2007}')
    || c == '\U{2028}' || c == '\U{2029}' || c == '\U{205F}' || c == '\U{3000}'
  }

  /** `String.isBlank`: empty or whitespace only. */
  predicate IsBlank(s: string) {
    forall i :: 0 <= i < |s| ==> IsWhitespace(s[i])
  }

  /** The characters `String.trim` removes: every code point up to U+0020. */
  predicate IsTrimmed(c: char) {
    c <= '\U{0020}'
  }

  function TrimStart(s: string): (t: string)
    ensures |t| <= |s| && t == s[|s| - |t|..]
    ensures t == [] || !IsTrimmed(t[0])
    ensures forall i :: 0 <= i < |s| - |t| ==> IsTrimmed(s[i])
  {
    if s != [] && IsTrimmed(s[0]) then TrimStart(s[1..]) else s
  }

  function TrimEnd(s: string): (t: string)
    ensures |t| <= |s| && t == s[..|t|]
    ensures t == [] || !IsTrimmed(t[|t| - 1])
    ensures forall i :: |t| <= i < |s| ==> IsTrimmed(s[i])
  {
    if s != [] && IsTrimmed(s[|s| - 1]) then TrimEnd(s[..|s| - 1]) else s
  }

  /** `t` is the slice `s[a..b]`, and every character of `s` outside it is
      at most U+0020. */
  predicate TrimmedAround(s: string, t: string, a: int, b: int) {
    0 <= a <= b <= |s| && t == s[a..b] &&
    (forall i :: 0 <= i < a ==> IsTrimmed(s[i])) &&
    (forall i :: b <= i < |s| ==> IsTrimmed(s[i]))
  }

  /** `String.trim`: the longest slice of `s` that neither starts nor ends
      with a character up to U+0020. */
  function Trim(s: string): (t: string)
    ensures |t| <= |s|
    ensures forall c :: c in t ==> c in s
    ensures t == [] || (!IsTrimmed(t[0]) && !IsTrimmed(t[|t| - 1]))
    ensures t == [] <==> forall i :: 0 <= i < |s| ==> IsTrimmed(s[i])
    ensures exists a, b :: TrimmedAround(s, t, a, b)
  {
    var start := TrimStart(s);
    var t := TrimEnd(start);
    PrefixOfSuffix(s, start, t);
    t
  }

  /** A prefix of a suffix of `s` is a slice of `s`; what the two cuts
      drop lies outside it. */
  lemma PrefixOfSuffix(s: string, start: string, t: string)
    requires |start| <= |s| && start == s[|s| - |start|..]
    requires |t| <= |start| && t == start[..|t|]
    requires forall i :: 0 <= i < |s| - |start| ==> IsTrimmed(s[i])
    requires forall i :: |t| <= i < |start| ==> IsTrimmed(start[i])
    ensures TrimmedAround(s, t, |s| - |start|, |s| - |start| + |t|)
  {
    var a := |s| - |start|;
    forall i | a + |t| <= i < |s|
      ensures IsTrimmed(s[i])
    {
      assert s[i] == start[i - a];
    }
  }

  /** Trimming a string that neither starts nor ends with a trimmed
      character leaves it alone, so trimming twice is trimming once. */
  lemma TrimIdempotent(s: string)
    ensures Trim(Trim(s)) == Trim(s)
  {
    var t := Trim(s);
    if t != [] {
      assert TrimStart(t) == t;
      assert TrimEnd(t) == t;
    }
  }

  /** `s.replace("-", "")`. */
  function RemoveDashes(s: string): (t: string)
    ensures '-' !in t
    ensures |t| <= |s|
    ensures forall c :: c in t <==> c in s && c != '-'
  {
    if s == [] then []
    else if s[0] == '-' then RemoveDashes(s[1..])
    else [s[0]] + RemoveDashes(s[1..])
  }

  lemma {:induction false} RemoveDashesKeepsDashFree(s: string)
    requires '-' !in s
    ensures RemoveDashes(s) == s
  {
    if s != [] {
      assert s[0] in s;
      assert '-' !in s[1..] by {
        forall i | 0 <= i < |s| - 1 ensures s[1..][i] != '-' { assert s[1..][i] == s[i + 1]; }
      }
      RemoveDashesKeepsDashFree(s[1..]);
    }
  }

  /** Removing dashes twice is removing them once. */
  lemma RemoveDashesIdempotent(s: string)
    ensures RemoveDashes(RemoveDashes(s)) == RemoveDashes(s)
  {
    RemoveDashesKeepsDashFree(RemoveDashes(s));
  }

  /** `replace` works piece by piece: the dashes of a concatenation are
      removed from each part. */
  lemma {:induction false} RemoveDashesAppend(a: string, b: string)
    ensures RemoveDashes(a + b) == RemoveDashes(a) + RemoveDashes(b)
  {
    if a == [] {
      assert a + b == b;
    } else {
      assert (a + b)[0] == a[0];
      assert (a + b)[1..] == a[1..] + b;
      RemoveDashesAppend(a[1..], b);
    }
  }

  /** One dash between two dash-free parts: the parts are joined. */
  lemma RemoveOneDash(a: string, b: string)
    requires '-' !in a && '-' !in b
    ensures RemoveDashes(a + "-" + b) == a + b
  {
    var dash: string := "-";
    assert RemoveDashes(dash) == [] by { assert dash[0] == '-' && dash[1..] == []; }
    calc {
      RemoveDashes(a + dash + b);
    == { RemoveDashesAppend(a + dash, b); }
      RemoveDashes(a + dash) + RemoveDashes(b);
    == { RemoveDashesAppend(a, dash); }
      RemoveDashes(a) + RemoveDashes(dash) + RemoveDashes(b);
    == { RemoveDashesKeepsDashFree(a); RemoveDashesKeepsDashFree(b); }
      a + [] + b;
    == { assert a + [] == a; }
      a + b;
    }
  }

  /** The number of dashes in `s`. */
  function Dashes(s: string): nat {
    if s == [] then 0 else (if s[0] == '-' then 1 else 0) + Dashes(s[1..])
  }

  /** Exactly the dashes go: the canonical 36-character UUID text with its
      four dashes becomes the 32-digit form. */
  lemma {:induction false} RemoveDashesLength(s: string)
    ensures |RemoveDashes(s)| == |s| - Dashes(s)
  {
    if s != [] { RemoveDashesLength(s[1..]); }
  }

  // ---------------------------------------------------------------------
  // Integer.parseInt
  // ---------------------------------------------------------------------

  predicate IsDigit(c: char) {
    '0' <= c <= '9'
  }

  predicate AllDigits(s: string) {
    forall i :: 0 <= i < |s| ==> IsDigit(s[i])
  }

  /** The value of a string of decimal digits, most significant first. */
  function DigitsValue(s: string): nat
    requires AllDigits(s)
  {
    if s == [] then 0
    else 10 * DigitsValue(s[..|s| - 1]) + (s[|s| - 1] as int - '0' as int)
  }

  /** What follows an optional leading sign. */
  function Unsigned(s: string): string {
    if s != [] && (s[0] == '-' || s[0] == '+') then s[1..] else s
  }

  /** The value of a signed digit string: the digits' value, negated
      after a leading minus. */
  function SignedValue(s: string): int
    requires Unsigned(s) != [] && AllDigits(Unsigned(s))
  {
    var magnitude: int := DigitsValue(Unsigned(s));
    if s[0] == '-' then -magnitude else magnitude
  }

  /** `Integer.parseInt(s)`: an optional sign followed by at least one
      decimal digit, with a value in the 32-bit range; anything else is a
      `NumberFormatException`, written `None`. */
  function ParseInt(s: string): (r: Option<int>)
    ensures r.Some? ==> INT_MIN <= r.value <= INT_MAX
    ensures r.Some? ==> Unsigned(s) != [] && AllDigits(Unsigned(s)) && r.value == SignedValue(s)
    ensures r.None? <==> Unsigned(s) == [] || !AllDigits(Unsigned(s)) || !(INT_MIN <= SignedValue(s) <= INT_MAX)
  {
    var negative := s != [] && s[0] == '-';
    var digits := Unsigned(s);
    if digits == [] || !AllDigits(digits) then None
    else
      var magnitude: int := DigitsValue(digits);
      var v := if negative then -magnitude else magnitude;
      if INT_MIN <= v <= INT_MAX then Some(v) else None
  }

  /** `Integer.toString(n)` for a non-negative `n`. */
  function DecimalText(n: nat): (s: string)
    ensures s != [] && AllDigits(s)
  {
    if n < 10 then [('0' as int + n) as char]
    else DecimalText(n / 10) + [('0' as int + n % 10) as char]
  }

  /** `String.valueOf(n)` for any `int`. */
  function IntText(n: int): string {
    if n < 0 then "-" + DecimalText(-n) else DecimalText(n)
  }

  lemma {:induction false} DecimalTextValue(n: nat)
    ensures DigitsValue(DecimalText(n)) == n
  {
    if n >= 10 {
      var s := DecimalText(n);
      assert s[..|s| - 1] == DecimalText(n / 10);
      DecimalTextValue(n / 10);
    }
  }

  /** parseInt reads back what toString writes. */
  lemma ParseIntOfDecimalText(n: nat)
    requires n <= INT_MAX
    ensures ParseInt(DecimalText(n)) == Some(n)
  {
    DecimalTextValue(n);
  }

  /** A trailing non-digit and a doubled sign are both refused. */
  lemma ParseIntRejects()
    ensures ParseInt("1x") == None
    ensures ParseInt("+-3") == None
    ensures ParseInt("-") == None
  {
    assert !IsDigit("1x"[1]);
    assert !IsDigit(Unsigned("+-3")[0]);
  }

  /** The same for every `int`, negative ones included. */
  lemma ParseIntOfIntText(n: int)
    requires INT_MIN <= n <= INT_MAX
    ensures ParseInt(IntText(n)) == Some(n)
  {
    if n < 0 {
      var digits := DecimalText(-n);
      var text := "-" + digits;
      assert text[0] == '-' && text[1..] == digits;
      DecimalTextValue(-n);
    } else {
      DecimalTextValue(n);
    }
  }
}

/** Shared vocabulary of the model: optional values, Kotlin's `Result`, JVM exceptions
    reduced to their (nullable) message, decimal rendering of integers, and Kotlin's
    notion of whitespace and blank strings. */
module Base {

  datatype Option<+T> = None | Some(value: T) {
    function GetOr(default: T): T {
      match this
      case Some(v) => v
      case None => default
    }
  }

  /** A JVM exception as the program observes it: only `e.message` is ever read, and it may be null. */
  datatype Exception = Exception(message: Option<string>)

  /** kotlin.Result<T>: a success value or the exception that was caught. */
  datatype Result<+T> = Success(value: T) | Failure(error: Exception)

  /** A Kotlin string template renders a null reference as the four characters "null". */
  function MessageText(e: Exception): string {
    e.message.GetOr("null")
  }

  // ---------------------------------------------------------------------------
  // Decimal rendering (Int.toString / Long.toString)
  // ---------------------------------------------------------------------------

  predicate IsDigit(c: char) {
    '0' <= c <= '9'
  }

  function DigitChar(d: nat): (c: char)
    requires d < 10
    ensures IsDigit(c)
  {
    (48 + d) as char
  }

  function DigitValue(c: char): (d: nat)
    requires IsDigit(c)
    ensures d < 10
  {
    c as int - 48
  }

  /** Base-10 digits of `n`, most significant first, without leading zeros. */
  function NatToString(n: nat): (s: string)
    ensures 1 <= |s|
    ensures forall i :: 0 <= i < |s| ==> IsDigit(s[i])
    ensures |s| > 1 ==> s[0] != '0'
  {
    if n < 10 then [DigitChar(n)] else NatToString(n / 10) + [DigitChar(n % 10)]
  }

  /** The value of a string of decimal digits; the independent reading of `NatToString`. */
  function DecimalValue(s: string): nat
    requires forall i :: 0 <= i < |s| ==> IsDigit(s[i])
  {
    if |s| == 0 then 0 else 10 * DecimalValue(s[..|s| - 1]) + DigitValue(s[|s| - 1])
  }

  lemma {:induction false} DecimalRoundTrip(n: nat)
    ensures DecimalValue(NatToString(n)) == n
  {
    var s := NatToString(n);
    if n >= 10 {
      DecimalRoundTrip(n / 10);
      assert s[..|s| - 1] == NatToString(n / 10);
    }
  }

  /** Distinct numbers render as distinct strings. */
  lemma NatToStringInjective(m: nat, n: nat)
    requires NatToString(m) == NatToString(n)
    ensures m == n
  {
    DecimalRoundTrip(m);
    DecimalRoundTrip(n);
  }

  /** Long.toString: an optional minus sign followed by the digits of the magnitude. */
  function IntToString(x: int): (s: string)
    ensures 1 <= |s|
  {
    if x < 0 then "-" + NatToString(-x) else NatToString(x)
  }

  /** Reads back what `IntToString` writes (a sign, then at least one digit). */
  function ParseInt(s: string): Option<int> {
    if |s| >= 2 && s[0] == '-' && (forall i :: 1 <= i < |s| ==> IsDigit(s[i])) then
      var magnitude: int := DecimalValue(s[1..]);
      Some(-magnitude)
    else if |s| >= 1 && forall i :: 0 <= i < |s| ==> IsDigit(s[i]) then
      Some(DecimalValue(s))
    else
      None
  }

  lemma IntStringRoundTrip(x: int)
    ensures ParseInt(IntToString(x)) == Some(x)
  {
    if x < 0 {
      var d := NatToString(-x);
      assert IntToString(x)[1..] == d;
      DecimalRoundTrip(-x);
    } else {
      DecimalRoundTrip(x);
    }
  }

  // ---------------------------------------------------------------------------
  // Whitespace (Kotlin/JVM Char.isWhitespace, CharSequence.isBlank)
  // ---------------------------------------------------------------------------

  /** Kotlin's Char.isWhitespace on the JVM: Character.isWhitespace or Character.isSpaceChar,
      i.e. the control whitespace U+0009..U+000D and U+001C..U+001F, and the Unicode space,
      line and paragraph separators. */
  predicate IsWhitespace(c: char) {
    var k := c as int;
    (9 <= k <= 13) || (28 <= k <= 32) || k == 0xA0 || k == 0x1680
    || (0x2000 <= k <= 0x200A) || k == 0x2028 || k == 0x2029 || k == 0x202F
    || k == 0x205F || k == 0x3000
  }

  /** CharSequence.isBlank: empty or whitespace only. */
  predicate IsBlank(s: string) {
    forall i :: 0 <= i < |s| ==> IsWhitespace(s[i])
  }

  /** A string with a non-whitespace character at `k` is not blank, and neither is anything it is part of. */
  lemma NotBlankWitness(s: string, k: nat)
    requires k < |s| && !IsWhitespace(s[k])
    ensures !IsBlank(s)
  {
  }

  lemma NotBlankConcat(a: string, b: string)
    requires !IsBlank(a)
    ensures !IsBlank(a + b) && !IsBlank(b + a)
  {
    var k :| 0 <= k < |a| && !IsWhitespace(a[k]);
    assert (a + b)[k] == a[k];
    assert (b + a)[|b| + k] == a[k];
  }

  /** Concatenation regroups freely; stated once so that larger proofs need not rediscover it. */
  lemma AppendAssoc<T>(a: seq<T>, b: seq<T>, c: seq<T>)
    ensures (a + b) + c == a + (b + c)
  {
  }
}

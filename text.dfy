/**
 * String helpers of the node: ASCII case-insensitive comparison (the `...AllIgnoreCase` queries),
 * Kotlin's `String.toLong()` and `Long.toString()` on decimal ids, the bearer-token extraction of
 * an `Authorization` header, and the shape of generated UUID tokens.
 */
module Text {
  import opened Wrappers

  /** A token made by `generateUUIDv4Token`: only its 36-character length is assumed. */
  type Uuid = s: string | |s| == 36 witness "00000000-0000-0000-0000-000000000000"

  /** ASCII lower-casing; every other character is kept. */
  function LowerChar(c: char): char {
    if 'A' <= c <= 'Z' then (c as int - 'A' as int + 'a' as int) as char else c
  }

  function Lower(s: string): (r: string)
    ensures |r| == |s|
  {
    seq(|s|, i requires 0 <= i < |s| => LowerChar(s[i]))
  }

  predicate EqualsIgnoreCase(a: string, b: string) {
    Lower(a) == Lower(b)
  }

  predicate IsDigit(c: char) {
    '0' <= c <= '9'
  }

  predicate AllDigits(s: string) {
    forall i :: 0 <= i < |s| ==> IsDigit(s[i])
  }

  /** Value of a string of decimal digits, most significant digit first. */
  function DigitsValue(s: string): nat
    requires AllDigits(s)
    decreases |s|
  {
    if s == [] then 0 else DigitsValue(s[..|s| - 1]) * 10 + (s[|s| - 1] as int - '0' as int)
  }

  const MinLong: int := -0x8000_0000_0000_0000
  const MaxLong: int := 0x7FFF_FFFF_FFFF_FFFF

  /** The text carries a leading `+` or `-`. */
  predicate Signed(s: string) {
    |s| > 0 && (s[0] == '+' || s[0] == '-')
  }

  /** The text after the optional sign. */
  function Digits(s: string): (d: string)
    ensures Signed(s) ==> s == [s[0]] + d
    ensures !Signed(s) ==> d == s
  {
    if Signed(s) then s[1..] else s
  }

  /** -1 after a leading `-`, 1 otherwise. */
  function Sign(s: string): (k: int)
    ensures k == -1 <==> Signed(s) && s[0] == '-'
    ensures k == 1 || k == -1
  {
    if Signed(s) && s[0] == '-' then -1 else 1
  }

  /**
   * `String.toLong()`: an optional `+` or `-` followed by at least one ASCII digit, whose value lies
   * in the signed 64-bit range; everything else is rejected (Kotlin throws NumberFormatException).
   */
  function ParseLong(s: string): (r: Option<int>)
    ensures r.Some? <==>
      Digits(s) != [] && AllDigits(Digits(s)) && MinLong <= Sign(s) * DigitsValue(Digits(s)) <= MaxLong
    ensures r.Some? ==> r.value == Sign(s) * DigitsValue(Digits(s))
    ensures r.Some? ==> MinLong <= r.value <= MaxLong
    ensures r.Some? ==> exists k :: 0 <= k < |s| && IsDigit(s[k])
    ensures (exists k :: 0 < k < |s| && !IsDigit(s[k])) ==> r.None?
    ensures |s| > 0 && !IsDigit(s[0]) && !Signed(s) ==> r.None?
    ensures r.Some? && !Signed(s) ==> 0 <= r.value
  {
    var digits := if Signed(s) then s[1..] else s;
    var sign := if Signed(s) && s[0] == '-' then -1 else 1;
    if digits != [] && AllDigits(digits) && MinLong <= sign * DigitsValue(digits) <= MaxLong
    then (assert IsDigit(s[|s| - 1]); Some(sign * DigitsValue(digits)))
    else None
  }

  function DigitChar(d: nat): char
    requires d < 10
  {
    ('0' as int + d) as char
  }

  /** Decimal rendering of a non-negative id, as string interpolation of a Long prints it. */
  function NatToString(n: nat): (s: string)
    ensures |s| > 0 && AllDigits(s)
    decreases n
  {
    if n < 10 then [DigitChar(n)] else NatToString(n / 10) + [DigitChar(n % 10)]
  }

  lemma {:induction false} DigitsValueOfNatToString(n: nat)
    ensures DigitsValue(NatToString(n)) == n
    decreases n
  {
    if n >= 10 {
      var s := NatToString(n);
      assert s[..|s| - 1] == NatToString(n / 10);
      DigitsValueOfNatToString(n / 10);
    }
  }

  /** Printing an id and parsing it back gives the id again: page links can be followed. */
  lemma ParseLongOfNatToString(n: nat)
    requires n <= MaxLong
    ensures ParseLong(NatToString(n)) == Some(n)
  {
    DigitsValueOfNatToString(n);
  }

  /** Start of the text after the last space of `s` (0 when `s` has no space). */
  function TokenStart(s: string): (k: nat)
    ensures k <= |s| && ' ' !in s[k..]
    ensures k > 0 ==> s[k - 1] == ' '
    decreases |s|
  {
    if s == [] then 0
    else if s[|s| - 1] == ' ' then |s|
    else
      var k := TokenStart(s[..|s| - 1]);
      assert s[k..] == s[..|s| - 1][k..] + [s[|s| - 1]];
      k
  }

  /**
   * `split(" ").last()` on an `Authorization` header: the text after the last space, or the whole
   * header when it has no space. For `Token <value>` this strips the scheme.
   */
  function ExtractToken(authorization: string): (t: string)
    ensures ' ' !in t
    ensures |t| <= |authorization| && authorization[|authorization| - |t|..] == t
    ensures |t| < |authorization| ==> authorization[|authorization| - |t| - 1] == ' '
  {
    authorization[TokenStart(authorization)..]
  }

  /** The token of `Token <value>` is `<value>` whenever the value itself has no space. */
  lemma ExtractTokenOfScheme(value: string)
    requires ' ' !in value
    ensures ExtractToken("Token " + value) == value
  {
  }
}

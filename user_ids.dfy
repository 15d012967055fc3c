/** The identifier a new user receives: `user_`, the current time in
    milliseconds written in decimal, `_`, and at most nine characters taken from
    position 2 of the base-36 rendering of a random number in [0, 1). The clock
    reading and the rendering are parameters. */
module UserIds {

  predicate IsDigit(c: char) {
    '0' <= c <= '9'
  }

  /** The characters of a lower-case base-36 rendering. */
  predicate IsBase36(c: char) {
    '0' <= c <= '9' || 'a' <= c <= 'z'
  }

  predicate AllDigits(s: string) {
    forall i :: 0 <= i < |s| ==> IsDigit(s[i])
  }

  predicate AllBase36(s: string) {
    forall i :: 0 <= i < |s| ==> IsBase36(s[i])
  }

  // ---------------------------------------------------------------------------
  // Decimal rendering of the clock
  // ---------------------------------------------------------------------------

  function DigitChar(d: nat): char
    requires d < 10
  {
    ('0' as int + d) as char
  }

  /** The decimal rendering of `n`, without leading zeros. */
  function DecimalDigits(n: nat): (s: string)
    ensures |s| >= 1 && AllDigits(s)
    ensures |s| > 1 ==> s[0] != '0'
    decreases n
  {
    if n < 10 then [DigitChar(n)] else DecimalDigits(n / 10) + [DigitChar(n % 10)]
  }

  /** The number a string of decimal digits denotes. */
  function DecimalValue(s: string): nat
    requires AllDigits(s)
  {
    if s == [] then 0 else 10 * DecimalValue(s[..|s| - 1]) + (s[|s| - 1] as int - '0' as int)
  }

  /** Reading back the decimal rendering gives the number. */
  lemma {:induction false} DecimalRoundTrip(n: nat)
    ensures DecimalValue(DecimalDigits(n)) == n
  {
    if n >= 10 {
      DecimalRoundTrip(n / 10);
      var s := DecimalDigits(n);
      assert s[..|s| - 1] == DecimalDigits(n / 10);
    }
  }

  // ---------------------------------------------------------------------------
  // The random suffix
  // ---------------------------------------------------------------------------

  /** How a number in [0, 1) renders in base 36: `0` for zero, otherwise `0.`
      followed by at least one base-36 digit. */
  predicate IsFractionRendering(t: string) {
    t == "0" || (|t| >= 3 && t[..2] == "0." && AllBase36(t[2..]))
  }

  /** At most `length` characters of `s` from position `start`; nothing when `start` is past the end. */
  function Substr(s: string, start: nat, length: nat): (r: string)
    ensures start >= |s| ==> r == []
    ensures start < |s| ==> |r| == (if start + length <= |s| then length else |s| - start)
    ensures forall i :: 0 <= i < |r| ==> start + i < |s| && r[i] == s[start + i]
  {
    if start >= |s| then []
    else if start + length <= |s| then s[start..start + length]
    else s[start..]
  }

  /** The generated user identifier. The suffix holds at most nine characters,
      and exactly nine when the rendering is long enough to supply them. */
  function GeneratedUserId(millis: nat, rendering: string): (id: string)
    ensures |DecimalDigits(millis)| + 6 <= |id| <= |DecimalDigits(millis)| + 15
    ensures |rendering| >= 11 ==> |id| == |DecimalDigits(millis)| + 15
    ensures |rendering| <= 2 ==> |id| == |DecimalDigits(millis)| + 6
  {
    "user_" + DecimalDigits(millis) + "_" + Substr(rendering, 2, 9)
  }

  /** The identifier shape `^user_\d+_[a-z0-9]+$`. */
  predicate MatchesUserIdPattern(id: string) {
    |id| >= 5 && id[..5] == "user_" && DigitsThenSuffix(id[5..])
  }

  /** One or more digits, `_`, then one or more base-36 characters. */
  predicate DigitsThenSuffix(s: string) {
    exists k :: 1 <= k && k + 1 < |s| && s[k] == '_' && AllDigits(s[..k]) && AllBase36(s[k + 1..])
  }

  /** The generated identifier has the documented shape exactly when the random
      number was not zero: a zero renders as `0`, which leaves the part after the
      second `_` empty. */
  lemma GeneratedIdShape(millis: nat, rendering: string)
    requires IsFractionRendering(rendering)
    ensures MatchesUserIdPattern(GeneratedUserId(millis, rendering)) <==> |rendering| > 2
  {
    var d := DecimalDigits(millis);
    var x := Substr(rendering, 2, 9);
    var id := GeneratedUserId(millis, rendering);
    var s := d + "_" + x;
    assert id == "user_" + s;
    assert id[5..] == s;
    if |rendering| > 2 {
      assert s[..|d|] == d;
      assert s[|d| + 1..] == x;
      assert AllBase36(x) by {
        forall i | 0 <= i < |x| ensures IsBase36(x[i]) {
          assert x[i] == rendering[2..][i];
        }
      }
      assert s[|d|] == '_';
    } else {
      assert x == [];
    }
  }

  /** In digits, `_` and a suffix, the first `_` is the one after the digits. */
  lemma UnderscoreEndsDigits(d: string, x: string)
    requires AllDigits(d)
    ensures (d + "_" + x)[|d|] == '_'
    ensures forall k :: 0 <= k < |d| ==> (d + "_" + x)[k] != '_'
  {
    forall k | 0 <= k < |d| ensures (d + "_" + x)[k] != '_' {
      assert (d + "_" + x)[k] == d[k];
    }
  }

  /** After the `user_` prefix come the digits, `_` and the suffix. */
  lemma AfterPrefix(millis: nat, rendering: string)
    ensures GeneratedUserId(millis, rendering)[5..] == DecimalDigits(millis) + "_" + Substr(rendering, 2, 9)
  {
  }

  /** Two generated identifiers are equal only when the clock readings and the suffixes are. */
  lemma UserIdInjective(m1: nat, r1: string, m2: nat, r2: string)
    requires GeneratedUserId(m1, r1) == GeneratedUserId(m2, r2)
    ensures m1 == m2 && Substr(r1, 2, 9) == Substr(r2, 2, 9)
  {
    var d1, d2 := DecimalDigits(m1), DecimalDigits(m2);
    var x1, x2 := Substr(r1, 2, 9), Substr(r2, 2, 9);
    AfterPrefix(m1, r1);
    AfterPrefix(m2, r2);
    var s := d1 + "_" + x1;
    assert s == d2 + "_" + x2;
    UnderscoreEndsDigits(d1, x1);
    UnderscoreEndsDigits(d2, x2);
    assert |d1| == |d2|;
    assert d1 == s[..|d1|] == d2;
    assert x1 == s[|d1| + 1..] == x2;
    DecimalRoundTrip(m1);
    DecimalRoundTrip(m2);
  }
}

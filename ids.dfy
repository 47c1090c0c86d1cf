/**
 * Contact identifiers as they arrive from the window: `idValido` (main.js:144-147)
 * decides whether a key may be bound into the lookup query, and the table then
 * compares it with the INTEGER primary key, reading the digits as a number.
 */
module Ids {

  /** JavaScript's `\d`: the ASCII digits only. */
  predicate IsDigit(c: char) {
    '0' <= c <= '9'
  }

  predicate AllDigits(s: string) {
    forall i :: 0 <= i < |s| ==> IsDigit(s[i])
  }

  /**
   * `/^\d+$/.test(id)`, read the way the pattern is built: one digit, then
   * either the end of the input or another run of digits. Without the `m` flag,
   * `$` matches only at the very end, so a trailing newline is refused too.
   */
  function IdValido(id: string): (ok: bool)
    ensures ok <==> |id| > 0 && AllDigits(id)
  {
    |id| > 0 && IsDigit(id[0]) && (|id| == 1 || IdValido(id[1..]))
  }

  function DigitValue(c: char): (d: nat)
    requires IsDigit(c)
    ensures d < 10
  {
    (c as int) - ('0' as int)
  }

  function DigitChar(d: nat): (c: char)
    requires d < 10
    ensures IsDigit(c) && DigitValue(c) == d
  {
    (('0' as int) + d) as char
  }

  function Pow10(k: nat): (p: nat)
    ensures p >= 1
  {
    if k == 0 then 1 else 10 * Pow10(k - 1)
  }

  /**
   * The number a digit string stands for when SQLite gives it the INTEGER
   * affinity of the `id` column; leading zeros are allowed and the empty string
   * reads as 0.
   */
  function ParseId(s: string): (n: nat)
    requires AllDigits(s)
    ensures n < Pow10(|s|)
    decreases |s|
  {
    if s == [] then 0 else 10 * ParseId(s[..|s| - 1]) + DigitValue(s[|s| - 1])
  }

  /**
   * The decimal text of a non-negative integer, with no leading zero: what
   * `regex.test` sees when the window passes a numeric id, which it turns into
   * a string first.
   */
  function ShowNat(n: nat): (s: string)
    ensures |s| > 0 && AllDigits(s)
    ensures s[0] != '0' || n == 0
  {
    if n < 10 then [DigitChar(n)] else ShowNat(n / 10) + [DigitChar(n % 10)]
  }

  /** A numeric id always passes `idValido` and reads back as itself. */
  lemma {:induction false} ParseShowNat(n: nat)
    ensures IdValido(ShowNat(n))
    ensures ParseId(ShowNat(n)) == n
  {
    if n >= 10 {
      ParseShowNat(n / 10);
      var s := ShowNat(n);
      assert s[..|s| - 1] == ShowNat(n / 10);
    }
  }

  /** A string with no superfluous leading zero. */
  predicate Canonical(s: string) {
    |s| > 0 && (s[0] != '0' || |s| == 1)
  }

  lemma {:induction false} ParseIdPositive(s: string)
    requires AllDigits(s) && |s| > 0 && s[0] != '0'
    ensures ParseId(s) > 0
  {
    if |s| > 1 {
      ParseIdPositive(s[..|s| - 1]);
    }
  }

  /** Reading a canonical digit string and writing the number back gives the same string. */
  lemma {:induction false} ShowParseId(s: string)
    requires AllDigits(s) && Canonical(s)
    ensures ShowNat(ParseId(s)) == s
  {
    if |s| > 1 {
      var init := s[..|s| - 1];
      ShowParseId(init);
      ParseIdPositive(init);
      var d := DigitValue(s[|s| - 1]);
      assert ParseId(s) == 10 * ParseId(init) + d;
      assert ParseId(s) / 10 == ParseId(init) && ParseId(s) % 10 == d;
      assert DigitChar(d) == s[|s| - 1];
      assert s == init + [s[|s| - 1]];
    } else {
      assert DigitChar(DigitValue(s[0])) == s[0];
    }
  }

  /** A leading zero does not change the number: "007" and "7" name the same row. */
  lemma {:induction false} LeadingZero(s: string)
    requires AllDigits(s)
    ensures AllDigits(['0'] + s)
    ensures ParseId(['0'] + s) == ParseId(s)
  {
    var z := ['0'] + s;
    if s != [] {
      LeadingZero(s[..|s| - 1]);
      assert z[..|z| - 1] == ['0'] + s[..|s| - 1];
    }
  }
}

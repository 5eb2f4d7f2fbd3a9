/** Decimal numerals and file-name pieces, shared by the encodings and the name searches. */
module Text {
  function Digit(n: nat): char
    requires n < 10
  {
    "0123456789"[n]
  }

  predicate IsDigit(c: char) {
    '0' <= c <= '9'
  }

  /** String(n) of a non-negative safe integer. */
  function Decimal(n: nat): (text: string)
    ensures text != [] && forall k | 0 <= k < |text| :: IsDigit(text[k])
  {
    if n < 10 then [Digit(n)] else Decimal(n / 10) + [Digit(n % 10)]
  }

  lemma {:induction false} DecimalInjective(m: nat, n: nat)
    requires Decimal(m) == Decimal(n)
    ensures m == n
    decreases m + n
  {
    var a, b := Decimal(m), Decimal(n);
    assert a[|a| - 1] == Digit(m % 10) && b[|b| - 1] == Digit(n % 10);
    if m >= 10 && n >= 10 {
      assert a[..|a| - 1] == Decimal(m / 10) && b[..|b| - 1] == Decimal(n / 10);
      DecimalInjective(m / 10, n / 10);
    }
  }

  /** Index of the last '.', or -1. */
  function LastDot(name: string): (k: int)
    ensures -1 <= k < |name|
    ensures k >= 0 ==> name[k] == '.'
    ensures forall j | k < j < |name| :: name[j] != '.'
  {
    if name == [] then -1
    else if name[|name| - 1] == '.' then |name| - 1
    else LastDot(name[..|name| - 1])
  }

  /** extname: from the last '.', unless that is the first character. */
  function Extension(name: string): string {
    var dot := LastDot(name);
    if dot > 0 then name[dot..] else ""
  }

  function Stem(name: string): (stem: string)
    ensures stem + Extension(name) == name
  {
    var dot := LastDot(name);
    if dot > 0 then name[..dot] else name
  }

  /** A name in its two parts: the extension begins with the last dot, unless that is the
      first character of the name, and is empty if there is no such dot. */
  predicate Splits(name: string, stem: string, extension: string) {
    && name == stem + extension
    && if extension == "" then forall k | 0 < k < |name| :: name[k] != '.'
       else stem != "" && extension[0] == '.' && forall k | 0 < k < |extension| :: extension[k] != '.'
  }

  lemma SplitsOnce(name: string, stem: string, extension: string)
    ensures Splits(name, stem, extension) <==> stem == Stem(name) && extension == Extension(name)
  {
    if Splits(name, stem, extension) && extension != "" {
      assert name[|stem|] == '.';
      assert forall k | |stem| < k < |name| :: name[k] == extension[k - |stem|];
    }
  }
}

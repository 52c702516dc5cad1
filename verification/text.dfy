/** Python string operations the core relies on: the `in` operator on two
    strings, and the integer text that pandas' numeric coercion accepts. */
module Text {
  import opened Wrappers

  /** `p` occurs in `s` starting at index `i`. */
  predicate OccursAt(s: string, p: string, i: nat) {
    i + |p| <= |s| && s[i..i + |p|] == p
  }

  /** Python's `p in s` on two strings: case-sensitive substring containment.
      The empty string occurs in every string. */
  predicate Contains(s: string, p: string) {
    exists i: nat | i <= |s| :: OccursAt(s, p, i)
  }

  /** A string occurs wherever it is written: `p in a + p + b`. */
  lemma {:induction false} ContainsInfix(a: string, p: string, b: string)
    ensures Contains(a + p + b, p)
  {
    assert (a + p + b)[|a|..|a| + |p|] == p;
    assert OccursAt(a + p + b, p, |a|);
  }

  /** Containment is transitive: a piece of a piece of `s` is a piece of `s`. */
  lemma {:induction false} ContainsTransitive(s: string, q: string, p: string)
    requires Contains(s, q) && Contains(q, p)
    ensures Contains(s, p)
  {
    var i: nat :| i <= |s| && OccursAt(s, q, i);
    var j: nat :| j <= |q| && OccursAt(q, p, j);
    forall k | 0 <= k < |p|
      ensures s[i + j + k] == p[k]
    {
      assert s[i..i + |q|][j + k] == s[i + j + k];
      assert q[j..j + |p|][k] == q[j + k];
    }
    assert s[i + j..i + j + |p|] == p;
    assert OccursAt(s, p, i + j);
  }

  /** Every character of a contained string is a character of the container.
      Its contrapositive is how the case-sensitivity of the match shows on
      concrete text: a query without a lower-case `m` cannot contain "manager". */
  lemma {:induction false} ContainedCharacters(s: string, p: string)
    ensures Contains(s, p) ==> forall c :: c in p ==> c in s
  {
    if Contains(s, p) {
      var i: nat :| i <= |s| && OccursAt(s, p, i);
      forall c | c in p
        ensures c in s
      {
        var j :| 0 <= j < |p| && p[j] == c;
        assert s[i..i + |p|][j] == s[i + j];
      }
    }
  }

  /** A string lacking one of the characters of `p` does not contain `p`. */
  lemma {:induction false} MissingCharacter(s: string, p: string, c: char)
    requires c in p && c !in s
    ensures !Contains(s, p)
  {
    ContainedCharacters(s, p);
  }

  // ---------------------------------------------------------------------
  // Integer text, as pandas' `to_numeric` coerces it.

  predicate IsDigit(c: char) {
    '0' <= c <= '9'
  }

  predicate AllDigits(s: string) {
    forall i :: 0 <= i < |s| ==> IsDigit(s[i])
  }

  function DigitValue(c: char): (d: nat)
    requires IsDigit(c)
    ensures d < 10
  {
    c as int - '0' as int
  }

  function DigitChar(d: nat): (c: char)
    requires d < 10
    ensures IsDigit(c) && DigitValue(c) == d
  {
    ('0' as int + d) as char
  }

  /** The value of a string of decimal digits, most significant first. */
  function DigitsValue(s: string): nat
    requires AllDigits(s)
  {
    if s == [] then 0 else 10 * DigitsValue(s[..|s| - 1]) + DigitValue(s[|s| - 1])
  }

  /** The decimal spelling of a natural number, without leading zeros. */
  function ShowNat(n: nat): (s: string)
    ensures s != [] && AllDigits(s)
    ensures n < 10 <==> |s| == 1
  {
    if n < 10 then [DigitChar(n)] else ShowNat(n / 10) + [DigitChar(n % 10)]
  }

  /** Python's `str` of an integer. */
  function ShowInt(n: int): (s: string)
    ensures s != []
  {
    if n < 0 then "-" + ShowNat(-n) else ShowNat(n)
  }

  /** Integer text as a numeric coercion reads it: an optional sign followed by
      at least one decimal digit; anything else is not a number. */
  function ParseInt(s: string): (r: Option<int>)
    ensures r.Some? ==> s != [] && (AllDigits(s) || (s[0] in "+-" && AllDigits(s[1..])))
  {
    if s == [] then None
    else if s[0] == '-' || s[0] == '+' then
      var digits := s[1..];
      if digits != [] && AllDigits(digits) then
        Some(if s[0] == '-' then -(DigitsValue(digits) as int) else DigitsValue(digits))
      else None
    else if AllDigits(s) then Some(DigitsValue(s))
    else None
  }

  lemma {:induction false} DigitsOfShowNat(n: nat)
    ensures DigitsValue(ShowNat(n)) == n
  {
    var s := ShowNat(n);
    if n >= 10 {
      DigitsOfShowNat(n / 10);
      assert s[..|s| - 1] == ShowNat(n / 10);
    }
  }

  /** Reading back the spelling of any integer gives the integer. */
  lemma {:induction false} ParseShowInt(n: int)
    ensures ParseInt(ShowInt(n)) == Some(n)
  {
    if n < 0 {
      var digits := ShowNat(-n);
      DigitsOfShowNat(-n);
      assert ("-" + digits)[1..] == digits;
      assert ParseInt("-" + digits) == Some(-(DigitsValue(digits) as int));
    } else {
      var digits := ShowNat(n);
      DigitsOfShowNat(n);
      assert IsDigit(digits[0]);
      assert ParseInt(digits) == Some(DigitsValue(digits) as int);
    }
  }
}

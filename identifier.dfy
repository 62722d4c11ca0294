/** The identifier normaliser shared by the handlers that expect a tax-ID-shaped
    number (CNPJ, CPF): `''.join(filter(str.isdigit, x))`, which keeps the digit
    characters of `x` in order and drops everything else.  Also the decimal
    rendering of an integer, used where a status code is written into a
    message. */
module Identifier {

  /** A decimal digit.  Python's `str.isdigit` also accepts non-ASCII digits;
      this model keeps to '0'..'9'. */
  predicate IsDigit(c: char)
  {
    '0' <= c <= '9'
  }

  predicate AllDigits(s: string)
  {
    forall i :: 0 <= i < |s| ==> IsDigit(s[i])
  }

  /** `t` can be obtained from `s` by deleting characters: `t`'s characters
      occur in `s` in the same relative order. */
  ghost predicate IsSubsequence(t: string, s: string)
    decreases |s|
  {
    t == [] ||
    (s != [] && ((t[0] == s[0] && IsSubsequence(t[1..], s[1..])) || IsSubsequence(t, s[1..])))
  }

  /** `''.join(filter(str.isdigit, raw))`: only digits, at most as long as the
      input, and every digit of the input is kept. */
  function Normalize(raw: string): (r: string)
    ensures AllDigits(r)
    ensures |r| <= |raw|
    ensures forall c :: IsDigit(c) ==> multiset(r)[c] == multiset(raw)[c]
    ensures forall c :: !IsDigit(c) ==> multiset(r)[c] == 0
  {
    if raw == [] then []
    else
      var rest := Normalize(raw[1..]);
      assert raw == [raw[0]] + raw[1..];
      assert multiset(raw) == multiset{raw[0]} + multiset(raw[1..]);
      if IsDigit(raw[0]) then [raw[0]] + rest else rest
  }

  /** The normaliser distributes over concatenation: the digits of a string
      are the digits of its front followed by the digits of its back. */
  lemma {:induction false} NormalizeAppend(a: string, b: string)
    ensures Normalize(a + b) == Normalize(a) + Normalize(b)
  {
    if a == [] {
      assert a + b == b;
    } else {
      assert (a + b)[0] == a[0];
      assert (a + b)[1..] == a[1..] + b;
      NormalizeAppend(a[1..], b);
    }
  }

  /** Nothing but digits is left unchanged, and only such a string is. */
  lemma {:induction false} NormalizeFixpoint(s: string)
    ensures Normalize(s) == s <==> AllDigits(s)
  {
    if s != [] {
      NormalizeFixpoint(s[1..]);
      if !IsDigit(s[0]) {
        assert |Normalize(s)| <= |s[1..]| < |s|;
      }
    }
  }

  /** Normalising twice is normalising once. */
  lemma NormalizeIdempotent(s: string)
    ensures Normalize(Normalize(s)) == Normalize(s)
  {
    NormalizeFixpoint(Normalize(s));
  }

  /** The kept digits appear in the input in the same relative order. */
  lemma {:induction false} NormalizePreservesOrder(s: string)
    ensures IsSubsequence(Normalize(s), s)
  {
    if s != [] {
      NormalizePreservesOrder(s[1..]);
      var rest := Normalize(s[1..]);
      if IsDigit(s[0]) {
        assert Normalize(s) == [s[0]] + rest;
        assert Normalize(s)[1..] == rest;
      } else {
        assert Normalize(s) == rest;
      }
    }
  }

  /** Together, the facts above pin the normaliser down: a string made of
      digits that keeps every digit of `s` the right number of times and in
      `s`'s order is the normalised `s`. */
  lemma {:induction false} NormalizeUnique(t: string, s: string)
    requires AllDigits(t)
    requires IsSubsequence(t, s)
    requires forall c :: IsDigit(c) ==> multiset(t)[c] == multiset(s)[c]
    ensures t == Normalize(s)
    decreases |s|
  {
    if s != [] {
      assert s == [s[0]] + s[1..];
      assert multiset(s) == multiset{s[0]} + multiset(s[1..]);
      if t != [] && t[0] == s[0] && IsSubsequence(t[1..], s[1..]) {
        assert t == [t[0]] + t[1..];
        assert multiset(t) == multiset{t[0]} + multiset(t[1..]);
        NormalizeUnique(t[1..], s[1..]);
      } else if t == [] {
        assert multiset(s)[s[0]] > 0 == multiset(t)[s[0]];
        NormalizeUnique(t, s[1..]);
      } else {
        assert IsSubsequence(t, s[1..]);
        SubsequenceMultiset(t, s[1..]);
        assert multiset(t)[s[0]] <= multiset(s[1..])[s[0]] < multiset(s)[s[0]];
        NormalizeUnique(t, s[1..]);
      }
    }
  }

  lemma {:induction false} SubsequenceMultiset(t: string, s: string)
    requires IsSubsequence(t, s)
    ensures multiset(t) <= multiset(s)
    decreases |s|
  {
    if t != [] {
      assert s == [s[0]] + s[1..];
      if t[0] == s[0] && IsSubsequence(t[1..], s[1..]) {
        SubsequenceMultiset(t[1..], s[1..]);
        assert t == [t[0]] + t[1..];
      } else {
        SubsequenceMultiset(t, s[1..]);
      }
    }
  }

  /** Python's `str(n)` for an integer. */
  function DecimalString(n: int): (r: string)
    ensures n >= 0 ==> r != [] && AllDigits(r)
    ensures n < 0 ==> |r| >= 2 && r[0] == '-' && AllDigits(r[1..])
    ensures n >= 0 ==> DecimalValue(r) == n
  {
    if n >= 0 then DecimalRoundTrip(n); NatDigits(n)
    else "-" + NatDigits(-n)
  }

  function NatDigits(n: nat): (r: string)
    ensures r != [] && AllDigits(r)
    ensures r[0] == '0' ==> n == 0
  {
    if n < 10 then [DigitChar(n)]
    else NatDigits(n / 10) + [DigitChar(n % 10)]
  }

  function DigitChar(d: nat): (c: char)
    requires d < 10
    ensures IsDigit(c)
  {
    ['0', '1', '2', '3', '4', '5', '6', '7', '8', '9'][d]
  }

  /** The value of a string of decimal digits. */
  function DecimalValue(s: string): (n: nat)
    requires AllDigits(s)
  {
    if s == [] then 0
    else DecimalValue(s[..|s| - 1]) * 10 + (s[|s| - 1] as int - '0' as int)
  }

  /** Reading back what `str(n)` wrote gives `n`: a status code placed in a
      message can be recovered from it. */
  lemma {:induction false} DecimalRoundTrip(n: nat)
    ensures DecimalValue(NatDigits(n)) == n
  {
    if n >= 10 {
      DecimalRoundTrip(n / 10);
      var s := NatDigits(n);
      assert s[..|s| - 1] == NatDigits(n / 10);
    }
  }
}

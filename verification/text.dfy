/**
 Text as the operator prints and reads it: decimal integers, words, and the few facts
 about concatenation that the names of resources rest on.
 */
module Text {

  datatype Option<+T> = None | Some(value: T)

  // ----- Concatenation -----

  lemma SameTail(a: string, b: string, tail: string)
    requires a + tail == b + tail
    ensures a == b
  {
    assert |a| == |b|;
    assert a == (a + tail)[..|a|];
    assert b == (b + tail)[..|b|];
  }

  lemma SameHead(head: string, a: string, b: string)
    requires head + a == head + b
    ensures a == b
  {
    assert a == (head + a)[|head|..];
    assert b == (head + b)[|head|..];
  }

  // ----- Decimal integers -----

  predicate IsDigit(c: char) {
    '0' <= c <= '9'
  }

  predicate AllDigits(s: string) {
    forall i :: 0 <= i < |s| ==> IsDigit(s[i])
  }

  function Digit(d: nat): (c: char)
    requires d < 10
    ensures IsDigit(c)
  {
    '0' + d as char
  }

  function Decimal(n: nat): (s: string)
    ensures 0 < |s| && AllDigits(s)
  {
    if n < 10 then [Digit(n)] else Decimal(n / 10) + [Digit(n % 10)]
  }

  function DigitsValue(s: string): nat
    requires AllDigits(s)
  {
    if s == "" then 0
    else 10 * DigitsValue(s[..|s| - 1]) + (s[|s| - 1] - '0') as nat
  }

  lemma {:induction false} DecimalRoundTrip(n: nat)
    ensures DigitsValue(Decimal(n)) == n
  {
    if n < 10 {
      assert Decimal(n)[..0] == "";
    } else {
      DecimalRoundTrip(n / 10);
      assert Decimal(n)[..|Decimal(n)| - 1] == Decimal(n / 10);
    }
  }

  // Go's %d and fmt.Sprint of an integer.
  function Print(n: int): (s: string)
    ensures 0 < |s|
  {
    if n < 0 then "-" + Decimal(-n) else Decimal(n)
  }

  function ReadInt(s: string): Option<int> {
    if s != "" && AllDigits(s) then Some(DigitsValue(s))
    else if 1 < |s| && s[0] == '-' && AllDigits(s[1..]) then Some(-(DigitsValue(s[1..]) as int))
    else None
  }

  lemma ReadIntPrint(n: int)
    ensures ReadInt(Print(n)) == Some(n)
  {
    if n < 0 {
      DecimalRoundTrip(-n);
      assert Print(n)[1..] == Decimal(-n);
      assert !IsDigit(Print(n)[0]);
    } else {
      DecimalRoundTrip(n);
    }
  }

  // The canonical numeral: no leading zero, except for zero itself.
  predicate Canonical(s: string) {
    s != "" && AllDigits(s) && (s[0] == '0' ==> |s| == 1)
  }

  lemma {:induction false} DecimalIsCanonical(n: nat)
    ensures Canonical(Decimal(n))
    ensures Decimal(n)[0] == '0' <==> n == 0
    ensures |Decimal(n)| == 1 <==> n < 10
  {
    if n < 10 {
    } else {
      DecimalIsCanonical(n / 10);
    }
  }

  /** Decimal prints the one canonical numeral of its argument, and no other. */
  lemma {:induction false} CanonicalIsDecimal(s: string)
    requires Canonical(s)
    ensures s == Decimal(DigitsValue(s))
  {
    if |s| == 1 {
      assert s[..0] == "" && s == [s[0]];
    } else {
      var front := s[..|s| - 1];
      assert front[0] == s[0];
      CanonicalIsDecimal(front);
      DecimalIsCanonical(DigitsValue(front));
      assert 1 <= DigitsValue(front);
      assert s == front + [s[|s| - 1]];
    }
  }

  lemma DecimalInjective(m: nat, n: nat)
    requires Decimal(m) == Decimal(n)
    ensures m == n
  {
    DecimalRoundTrip(m);
    DecimalRoundTrip(n);
  }

  // ----- Words -----

  predicate IsSpace(c: char) {
    c == ' ' || c == '\n' || c == '\t' || c == '\r'
  }

  predicate NoSpace(s: string) {
    forall i :: 0 <= i < |s| ==> !IsSpace(s[i])
  }

  // The length of the text's first word: everything before its first blank.
  function WordLength(s: string): (n: nat)
    ensures n <= |s| && NoSpace(s[..n])
    ensures n < |s| ==> IsSpace(s[n])
  {
    if s == "" || IsSpace(s[0]) then 0 else 1 + WordLength(s[1..])
  }

  lemma WordStops(word: string, rest: string)
    requires NoSpace(word) && rest != "" && IsSpace(rest[0])
    ensures WordLength(word + rest) == |word|
    ensures (word + rest)[..|word|] == word && (word + rest)[|word|..] == rest
  {
    var s := word + rest;
    assert s[|word|] == rest[0];
    assert forall i :: 0 <= i < |word| ==> s[i] == word[i];
  }

  lemma PrintHasNoSpace(n: int)
    ensures NoSpace(Print(n))
  {
    var digits := Decimal(if n < 0 then -n else n);
    forall i | 0 <= i < |Print(n)|
      ensures !IsSpace(Print(n)[i])
    {
      assert Print(n)[i] == '-' || Print(n)[i] in digits;
    }
  }
}

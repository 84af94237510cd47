/** Decimal text as strconv and fmt write and read it. */
module Decimal {
  import opened Options

  predicate IsDigit(c: char) { '0' <= c <= '9' }

  function DigitChar(d: nat): (c: char)
    requires d < 10
    ensures IsDigit(c) && DigitValue(c) == d
  {
    '0' + d as char
  }

  function DigitValue(c: char): (d: nat)
    requires IsDigit(c)
    ensures d < 10
  {
    c as nat - '0' as nat
  }

  predicate AllDigits(s: string) {
    forall i :: 0 <= i < |s| ==> IsDigit(s[i])
  }

  // %d of a non-negative number.
  function Print(n: nat): (s: string)
    ensures s != "" && AllDigits(s)
    decreases n
  {
    if n < 10 then [DigitChar(n)] else Print(n / 10) + [DigitChar(n % 10)]
  }

  function Value(s: string): nat
    requires AllDigits(s)
  {
    if s == "" then 0 else 10 * Value(s[..|s| - 1]) + DigitValue(s[|s| - 1])
  }

  lemma {:induction false} ValueOfPrint(n: nat)
    ensures Value(Print(n)) == n
    decreases n
  {
    if n >= 10 {
      ValueOfPrint(n / 10);
      var s := Print(n);
      assert s[..|s| - 1] == Print(n / 10);
    } else {
      assert Print(n)[..0] == "";
    }
  }

  // Digits without a superfluous leading zero.
  predicate Canonical(s: string) {
    s != "" && AllDigits(s) && (s[0] == '0' ==> |s| == 1)
  }

  lemma {:induction false} ValueIsPositive(s: string)
    requires Canonical(s) && s[0] != '0'
    ensures Value(s) > 0
  {
    if |s| > 1 {
      ValueIsPositive(s[..|s| - 1]);
    }
  }

  // Printing the value gives the text back exactly for canonical text.
  lemma {:induction false} PrintOfValue(s: string)
    requires s != "" && AllDigits(s)
    ensures Print(Value(s)) == s <==> Canonical(s)
  {
    if |s| == 1 {
      assert s[..0] == "";
      assert s == [s[0]];
      assert Value(s) == DigitValue(s[0]);
    } else {
      var h, d := s[..|s| - 1], DigitValue(s[|s| - 1]);
      assert s == h + [s[|s| - 1]];
      PrintOfValue(h);
      if Canonical(s) {
        ValueIsPositive(h);
        assert Value(s) / 10 == Value(h) && Value(s) % 10 == d;
      } else {
        PrintIsCanonical(Value(s));
      }
    }
  }

  lemma {:induction false} PrintIsCanonical(n: nat)
    ensures Canonical(Print(n))
    ensures n > 0 ==> Print(n)[0] != '0'
    decreases n
  {
    if n >= 10 {
      PrintIsCanonical(n / 10);
    }
  }

  // strconv.ParseUint(s, 10, bits): digits only, in range.
  function ParseUint(s: string, limit: nat): Option<nat> {
    if s != "" && AllDigits(s) && Value(s) < limit then Some(Value(s)) else None
  }

  // strconv.ParseInt(s, 10, 64): an optional sign, digits, in range.
  function ParseInt(s: string, limit: nat): Option<int> {
    if s == "" then None
    else
      var neg := s[0] == '-';
      var body := if s[0] == '+' || s[0] == '-' then s[1..] else s;
      if body == "" || !AllDigits(body) then None
      else
        var v: int := Value(body);
        if neg then (if v <= limit then Some(-v) else None)
        else if v < limit then Some(v) else None
  }

  // A printed number parses back to itself if and only if it is within the
  // width, and to nothing otherwise.
  lemma ParseOfPrint(n: nat, limit: nat)
    ensures ParseUint(Print(n), limit) == if n < limit then Some(n) else None
    ensures ParseInt(Print(n), limit) == if n < limit then Some(n) else None
  {
    ValueOfPrint(n);
  }

  // With a plus sign likewise, and with a minus sign down to the limit itself.
  lemma ParseOfSigned(n: nat, limit: nat)
    ensures ParseInt("+" + Print(n), limit) == if n < limit then Some(n) else None
    ensures ParseInt("-" + Print(n), limit) == if n <= limit then Some(0 - n) else None
  {
    ValueOfPrint(n);
    assert ("+" + Print(n))[1..] == Print(n) && ("-" + Print(n))[1..] == Print(n);
  }

  // Nothing else parses: what does has at most one sign, in front of digits.
  lemma ParsedIntShape(s: string, limit: nat)
    requires ParseInt(s, limit).Some?
    ensures 0 - limit <= ParseInt(s, limit).value && (ParseInt(s, limit).value < limit || limit == 0)
    ensures s != "" && (AllDigits(s) || ((s[0] == '+' || s[0] == '-') && s[1..] != "" && AllDigits(s[1..])))
  {
  }
}

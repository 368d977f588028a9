/** Decimal rendering of non-negative integers (Go's strconv.Itoa on the
    values rand.Intn can return) and the mock identifiers built from it. */
module Decimal {

  /** Exclusive upper bound of the random number behind a generated id. */
  const MaxId: nat := 10000000

  /** Number of characters a generated id can have at most. */
  const IdWidth: nat := 7

  function Pow10(k: nat): (p: nat)
    ensures p >= 1
  {
    if k == 0 then 1 else 10 * Pow10(k - 1)
  }

  predicate IsDigit(c: char) {
    '0' <= c <= '9'
  }

  function Digit(d: nat): (c: char)
    requires d < 10
    ensures IsDigit(c)
  {
    ('0' as int + d) as char
  }

  function DigitValue(c: char): (d: nat)
    requires IsDigit(c)
    ensures d < 10 && Digit(d) == c
  {
    c as int - '0' as int
  }

  predicate AllDigits(s: string) {
    forall i :: 0 <= i < |s| ==> IsDigit(s[i])
  }

  /** The canonical decimal form: non-empty, only digits, and no leading
      zero unless the whole string is "0". */
  predicate IsDecimal(s: string) {
    |s| >= 1 && AllDigits(s) && (s[0] == '0' ==> |s| == 1)
  }

  /** A string that the id generator can produce. */
  predicate IsGeneratedId(s: string) {
    IsDecimal(s) && |s| <= IdWidth
  }

  /** Reference reading of a digit string, most significant digit first. */
  function DecimalValue(s: string): nat
    requires AllDigits(s)
  {
    if s == [] then 0
    else DecimalValue(s[..|s| - 1]) * 10 + DigitValue(s[|s| - 1])
  }

  /** strconv.Itoa restricted to non-negative arguments. */
  function Itoa(n: nat): (s: string)
    ensures IsDecimal(s)
    ensures s[0] == '0' <==> n == 0
  {
    if n < 10 then [Digit(n)] else Itoa(n / 10) + [Digit(n % 10)]
  }

  /** Reading back what Itoa wrote gives the number again. */
  lemma {:induction false} ItoaRoundTrip(n: nat)
    ensures DecimalValue(Itoa(n)) == n
  {
    var s := Itoa(n);
    if n < 10 {
      assert s[..0] == [];
    } else {
      ItoaRoundTrip(n / 10);
      assert s[..|s| - 1] == Itoa(n / 10);
    }
  }

  /** Itoa never maps two numbers to the same string. */
  lemma ItoaInjective(a: nat, b: nat)
    requires Itoa(a) == Itoa(b)
    ensures a == b
  {
    ItoaRoundTrip(a);
    ItoaRoundTrip(b);
  }

  lemma {:induction false} DecimalValueBound(s: string)
    requires AllDigits(s)
    ensures DecimalValue(s) < Pow10(|s|)
  {
    if s != [] {
      var t := s[..|s| - 1];
      DecimalValueBound(t);
      assert DecimalValue(t) + 1 <= Pow10(|t|);
      assert DecimalValue(t) * 10 + 10 <= Pow10(|t|) * 10;
    }
  }

  lemma {:induction false} DecimalValuePositive(s: string)
    requires IsDecimal(s) && s[0] != '0'
    ensures DecimalValue(s) >= 1
  {
    if |s| > 1 {
      var t := s[..|s| - 1];
      assert t[0] == s[0];
      DecimalValuePositive(t);
    }
  }

  /** Every canonical decimal string is what Itoa writes for its value. */
  lemma {:induction false} ItoaOfDecimalValue(s: string)
    requires IsDecimal(s)
    ensures Itoa(DecimalValue(s)) == s
  {
    if |s| > 1 {
      var t := s[..|s| - 1];
      assert t[0] == s[0];
      DecimalValuePositive(t);
      ItoaOfDecimalValue(t);
      var n := DecimalValue(s);
      assert n / 10 == DecimalValue(t) && n % 10 == DigitValue(s[|s| - 1]);
      assert s == t + [s[|s| - 1]];
    }
  }

  /** A number below Pow10(k) is written with at most k digits. */
  lemma {:induction false} ItoaLength(n: nat, k: nat)
    requires k >= 1 && n < Pow10(k)
    ensures |Itoa(n)| <= k
  {
    if n >= 10 {
      assert k >= 2;
      assert n / 10 < Pow10(k - 1);
      ItoaLength(n / 10, k - 1);
    }
  }

  /** The mock id of main.go: the decimal string of rand.Intn(MaxId). The
      random draw is the caller-supplied n. */
  function GeneratedId(n: nat): (id: string)
    requires n < MaxId
    ensures IsGeneratedId(id)
    ensures DecimalValue(id) == n
  {
    ItoaLength(n, IdWidth);
    ItoaRoundTrip(n);
    Itoa(n)
  }

  /** Conversely, every string of that shape is the id of exactly one draw. */
  lemma GeneratedIdOnto(s: string)
    requires IsGeneratedId(s)
    ensures DecimalValue(s) < MaxId
    ensures GeneratedId(DecimalValue(s)) == s
  {
    DecimalValueBound(s);
    assert Pow10(|s|) <= Pow10(IdWidth) by {
      Pow10Monotone(|s|, IdWidth);
    }
    ItoaOfDecimalValue(s);
  }

  lemma {:induction false} Pow10Monotone(i: nat, j: nat)
    requires i <= j
    ensures Pow10(i) <= Pow10(j)
  {
    if i < j {
      Pow10Monotone(i, j - 1);
    }
  }
}

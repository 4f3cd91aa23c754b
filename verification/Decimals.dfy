/** Decimal text of integers, as produced and read by the strconv package. */
module Decimals {
  import opened Options

  function Digit(d: nat): (c: char)
    requires d < 10
    ensures '0' <= c <= '9'
  {
    ('0' as int + d) as char
  }

  /** Decimal rendering of a natural number. */
  function Decimal(n: nat): (s: string)
    ensures s != [] && ':' !in s
    decreases n
  {
    if n < 10 then [Digit(n)] else Decimal(n / 10) + [Digit(n % 10)]
  }

  function Value(s: string): int
    decreases |s|
  {
    if s == [] then 0 else 10 * Value(s[..|s| - 1]) + (s[|s| - 1] as int - '0' as int)
  }

  lemma {:induction false} DecimalRoundTrip(n: nat)
    ensures Value(Decimal(n)) == n
    decreases n
  {
    var s := Decimal(n);
    if n < 10 {
      assert s[..|s| - 1] == [];
    } else {
      assert s[..|s| - 1] == Decimal(n / 10);
      DecimalRoundTrip(n / 10);
    }
  }

  predicate Digits(s: string) {
    s != [] && forall i :: 0 <= i < |s| ==> '0' <= s[i] <= '9'
  }

  const MIN_INT := -0x8000_0000_0000_0000
  const MAX_INT := 0x7fff_ffff_ffff_ffff

  /** A 64-bit difference: wraps around. */
  function Wrap(n: int): (r: int)
    ensures MIN_INT <= r <= MAX_INT
    ensures MIN_INT <= n <= MAX_INT ==> r == n
  {
    (n - MIN_INT) % 0x1_0000_0000_0000_0000 + MIN_INT
  }

  /** Reads an optional sign and digits; fails on anything else and outside 64 bits. */
  function Atoi(s: string): Option<int> {
    var signed := s != [] && (s[0] == '-' || s[0] == '+');
    var digits := if signed then s[1..] else s;
    if !Digits(digits) then None else
    var n := if signed && s[0] == '-' then -Value(digits) else Value(digits);
    if MIN_INT <= n <= MAX_INT then Some(n) else None
  }

  lemma {:induction false} DecimalDigits(n: nat)
    ensures Digits(Decimal(n))
    decreases n
  {
    if n >= 10 { DecimalDigits(n / 10); }
  }

  lemma {:induction false} AtoiReadsDecimal(n: nat)
    ensures Atoi(Decimal(n)) == if n <= MAX_INT then Some(n) else None
  {
    DecimalDigits(n);
    DecimalRoundTrip(n);
    assert '0' <= Decimal(n)[0];
  }
}

/** Human-readable sizes: the loop that picks the unit. */
module FormatSize {

  const UNIT := 1024
  const INT64_LIMIT := 0x8000_0000_0000_0000
  const UNITS := "KMGTPE"

  function Power(e: nat): (p: nat)
    ensures p > 0
  {
    if e == 0 then 1 else UNIT * Power(e - 1)
  }

  /** What is printed: a plain byte count, or `bytes / div` with a unit letter. */
  datatype Size = Plain(bytes: int) | Scaled(bytes: int, div: int, letter: char)

  lemma {:induction false} PowerGrows(a: nat, b: nat)
    requires a <= b
    ensures Power(a) <= Power(b)
  {
    if a < b { PowerGrows(a, b - 1); }
  }

  lemma Distribute(a: int, b: int, c: int)
    ensures a * (b + c) == a * b + a * c
  {
  }

  lemma Associate(a: int, b: int, c: int)
    ensures a * (b * c) == (a * b) * c
  {
  }

  lemma Scale(a: nat, b: int, c: int)
    requires b <= c
    ensures a * b <= a * c
  {
  }

  lemma Recompose(b: nat, m: nat)
    requires m > 0
    ensures b == m * (b / m) + b % m && 0 <= b % m < m
  {
  }

  lemma Quotient(b: nat, m: nat, q: nat, r: nat)
    requires m > 0 && b == m * q + r && r < m
    ensures b / m == q
  {
    var q' := b / m;
    Recompose(b, m);
    if q' < q { Scale(m, q' + 1, q); Distribute(m, q', 1); }
    if q < q' { Scale(m, q + 1, q'); Distribute(m, q, 1); }
  }

  lemma Combine(b: nat, d: nat, u: nat, q: nat, r: nat, q2: nat, r2: nat)
    requires b == d * q + r && r < d
    requires q == u * q2 + r2 && r2 < u
    ensures b == (d * u) * q2 + (d * r2 + r) && 0 <= d * r2 + r < d * u
  {
    Distribute(d, u * q2, r2);
    Associate(d, u, q2);
    Scale(d, r2 + 1, u);
    Distribute(d, r2, 1);
    Scale(d, 0, r2);
  }

  /** Dividing twice is dividing by the product. */
  lemma NestedDivision(b: nat, d: nat, u: nat)
    requires d > 0 && u > 0
    ensures d * u > 0 && (b / d) / u == b / (d * u)
  {
    var q := b / d;
    Recompose(b, d);
    Recompose(q, u);
    Combine(b, d, u, q, b % d, q / u, q % u);
    Quotient(b, d * u, q / u, d * (q % u) + b % d);
  }

  /** A quotient at least 1 means the divisor fits; one below 1024 means 1024 divisors do not. */
  lemma QuotientBounds(b: nat, d: nat, k: nat)
    requires d > 0
    ensures b / d >= k <==> b >= d * k
  {
    var q, r := b / d, b % d;
    assert b == d * q + r;
    if q >= k { Scale(d, k, q); }
    if q < k { Scale(d, q + 1, k); Distribute(d, q, 1); }
  }

  lemma SeventhPower()
    ensures Power(7) >= INT64_LIMIT
  {
    assert Power(1) == 1024;
    assert Power(2) == 0x10_0000;
    assert Power(3) == 0x4000_0000;
    assert Power(4) == 0x100_0000_0000;
    assert Power(5) == 0x4_0000_0000_0000;
    assert Power(6) == 0x1000_0000_0000_0000;
  }

  /** 2^63 is 8 * 1024^6, so a divisor that fits in an int64 is at most 1024^6. */
  lemma ExponentBound(e: nat)
    requires Power(e) < INT64_LIMIT
    ensures e <= 6
  {
    SeventhPower();
    if e > 6 { PowerGrows(7, e); }
  }

  /**
   * The largest power of 1024 that fits is chosen, nothing overflows an int64 and the unit letter exists.
   */
  method Format(bytes: int) returns (size: Size)
    requires -INT64_LIMIT <= bytes < INT64_LIMIT
    ensures size.bytes == bytes
    ensures size.Plain? <==> bytes < UNIT
    ensures size.Scaled? ==>
      exists exp: nat :: exp < |UNITS| && size.letter == UNITS[exp] && size.div == Power(exp + 1)
    ensures size.Scaled? ==> size.div <= bytes < UNIT * size.div && size.div < INT64_LIMIT
  {
    if bytes < UNIT { return Plain(bytes); }
    var div, exp: nat, n := UNIT, 0, bytes / UNIT;
    while n >= UNIT
      invariant div == Power(exp + 1) && div > 0
      invariant n == bytes / div && div <= bytes
      decreases n
    {
      NestedDivision(bytes, div, UNIT);
      QuotientBounds(bytes, div, UNIT);
      div := div * UNIT;
      exp := exp + 1;
      n := n / UNIT;
    }
    QuotientBounds(bytes, div, UNIT);
    ExponentBound(exp + 1);
    size := Scaled(bytes, div, UNITS[exp]);
  }

  lemma FitsNoLarger(bytes: nat, e: nat, f: nat)
    requires e < f && bytes < UNIT * Power(e)
    ensures bytes < Power(f)
  {
    PowerGrows(e + 1, f);
  }

  /** The unit is determined: only one power of 1024 has the size within its range. */
  lemma UnitIsUnique(bytes: nat, e: nat, f: nat)
    requires Power(e) <= bytes < UNIT * Power(e)
    requires Power(f) <= bytes < UNIT * Power(f)
    ensures e == f
  {
    if e < f {
      FitsNoLarger(bytes, e, f);
    } else if f < e {
      FitsNoLarger(bytes, f, e);
    }
  }
}

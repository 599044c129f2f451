// Rust's fixed-width arithmetic. Release builds keep overflow checks on, so
// `+`, `-`, `*` and the checked_* calls alike abort the transaction when the
// exact result leaves the type; here they answer None.

module Checked {
  import opened Wrappers

  const I128_MAX: int := 0x7FFF_FFFF_FFFF_FFFF_FFFF_FFFF_FFFF_FFFF
  const U64_MAX: int := 0xFFFF_FFFF_FFFF_FFFF

  // 64 bits unsigned, and 128 bits with a sign.
  lemma Widths()
    ensures U64_MAX + 1 == 0x1_0000_0000 * 0x1_0000_0000
    ensures 2 * (I128_MAX + 1) == (U64_MAX + 1) * (U64_MAX + 1)
  {}

  predicate InI128(x: int) {
    -I128_MAX - 1 <= x <= I128_MAX
  }

  function Fit(x: int): Option<int> {
    if InI128(x) then Some(x) else None
  }

  function CheckedMul(a: int, b: int): Option<int> {
    Fit(a * b)
  }

  function CheckedAdd(a: int, b: int): Option<int> {
    Fit(a + b)
  }

  function CheckedSub(a: int, b: int): Option<int> {
    Fit(a - b)
  }

  function CheckedDiv(a: int, b: int): Option<int>
    requires 0 < b
  {
    Fit(Quot(a, b))
  }

  function FitU64(x: int): Option<nat> {
    if 0 <= x <= U64_MAX then Some(x) else None
  }

  // Integer division truncating toward zero, as Rust's `/` and checked_div do
  // (every divisor in the contracts is positive).
  function Quot(a: int, b: int): (q: int)
    requires 0 < b
    ensures 0 <= a ==> 0 <= q
  {
    if 0 <= a then a / b else -(-a / b)
  }

  lemma QuotBounds(a: int, b: int)
    requires 0 <= a && 0 < b
    ensures b * Quot(a, b) <= a < b * Quot(a, b) + b
  {}

  lemma MulMono(c: nat, x: int, y: int)
    requires x <= y
    ensures c * x <= c * y
    ensures 0 <= x ==> 0 <= c * x
  {}

  lemma Cancel(b: int, x: int, y: int)
    requires 0 < b && b * x < b * y
    ensures x < y
  {
    assert b * (y - x) == b * y - b * x;
  }

  // A quotient is determined by its bounds.
  lemma QuotUnique(a: int, b: int, q: int)
    requires 0 <= a && 0 < b
    requires b * q <= a < b * q + b
    ensures Quot(a, b) == q
  {
    var p := Quot(a, b);
    QuotBounds(a, b);
    assert b * (q + 1) == b * q + b && b * (p + 1) == b * p + b;
    Cancel(b, p, q + 1);
    Cancel(b, q, p + 1);
  }

  // A floored share of d: less than one unit below the exact one.
  lemma QuotShare(part: nat, d: nat, whole: nat)
    requires 0 < whole
    ensures var share := Quot(part * d, whole);
            && 0 <= share && whole * share <= d * part <= whole * share + whole - 1
            && (part == 0 ==> share == 0)
  {
    MulMono(part, 0, d);
    QuotBounds(part * d, whole);
    if part == 0 {
      QuotUnique(0, whole, 0);
    }
  }

  // Dividing keeps a number inside i128.
  lemma QuotFits(a: int, b: int)
    requires InI128(a) && 0 < b
    ensures CheckedDiv(a, b) == Some(Quot(a, b))
  {
    if 0 <= a {
      QuotShrinks(a, b);
    } else {
      QuotShrinks(-a, b);
    }
  }

  lemma QuotShrinks(a: nat, b: nat)
    requires 0 < b
    ensures a / b <= a
  {
    MulMono(a / b, 1, b);
    assert a == b * (a / b) + a % b;
  }

  // Quotients are monotone in the numerator.
  lemma QuotMono(a: int, a': int, b: int)
    requires 0 <= a <= a' && 0 < b
    ensures Quot(a, b) <= Quot(a', b)
  {
    var p, q := Quot(a, b), Quot(a', b);
    QuotBounds(a, b);
    QuotBounds(a', b);
    assert b * (q + 1) == b * q + b;
    Cancel(b, p, q + 1);
  }

  // Cutting a numerator in two loses at most one unit to rounding.
  lemma QuotSplit(a: int, a': int, b: int)
    requires 0 <= a && 0 <= a' && 0 < b
    ensures Quot(a, b) + Quot(a', b) <= Quot(a + a', b) <= Quot(a, b) + Quot(a', b) + 1
  {
    var p, q, r := Quot(a, b), Quot(a', b), Quot(a + a', b);
    QuotBounds(a, b);
    QuotBounds(a', b);
    QuotBounds(a + a', b);
    assert b * (p + q) == b * p + b * q;
    assert b * (r + 1) == b * r + b;
    assert b * (p + q + 2) == b * (p + q) + 2 * b;
    Cancel(b, p + q, r + 1);
    Cancel(b, r, p + q + 2);
  }
}

// What the Ninetails market pays, in plain numbers, and the chains of checked
// operations that compute it.

module NinetailsPay {
  import opened Wrappers
  import opened Checked
  import opened Fees
  import opened NinetailsMath

  // ----- The numbers ------------------------------------------------------------------------

  // A losing position gets three tenths of the pot's share of its boost in all
  // boosts, less than two units short.
  predicate IsRefund(pay: int, d: int, b: int, all: int) {
    10 * all * pay <= 3 * d * b < 10 * all * (pay + 2)
  }

  // A winning one gets seven tenths by its boost in its side's, and the same
  // three tenths, less than three units short together.
  predicate IsBonus(bonus: int, d: int, b: int, side: int, all: int) {
    10 * side * all * bonus <= 7 * d * b * all + 3 * d * b * side < 10 * side * all * (bonus + 3)
  }

  // ----- The formulas give them --------------------------------------------------------------

  // One share of some tenths of d, floored twice.
  lemma SharePays(tenths: nat, d: nat, cut: nat, b: nat, whole: nat, share: nat)
    requires 10 * cut <= tenths * d && b <= whole
    requires whole * share <= cut * b < whole * share + whole
    ensures 10 * whole * share <= tenths * d * b
    ensures tenths * d * b <= 10 * whole * share + 10 * whole - 10 + (tenths * d - 10 * cut) * b
  {
    MulMono(b, 10 * cut, tenths * d);
    assert b * (10 * cut) == 10 * (cut * b) && b * (tenths * d) == tenths * d * b;
    assert 10 * whole * share == 10 * (whole * share);
    assert (tenths * d - 10 * cut) * b == tenths * d * b - 10 * (cut * b);
  }

  lemma ShareFacts(d: nat, pct: nat, b: nat, whole: nat)
    requires 0 < whole && b <= whole
    ensures var cut := Cut(d, pct);
            var share := Share(cut, b, whole);
            && 0 <= cut && 0 <= share && whole * share <= cut * b < whole * share + whole
  {
    MulMono(d, 0, pct);
    MulMono(Cut(d, pct), 0, b);
    QuotBounds(Cut(d, pct) * b, whole);
  }

  lemma LoserPayIs(d: nat, b: nat, all: nat)
    requires 0 < all && b <= all
    ensures 0 <= LoserPayout(d, b, all) && IsRefund(LoserPayout(d, b, all), d, b, all)
  {
    var cut := Cut(d, REFUND_PCT);
    var share := Share(cut, b, all);
    CutsCover(d);
    ShareFacts(d, REFUND_PCT, b, all);
    SharePays(3, d, cut, b, all, share);
    RefundIs(d, b, all, 3 * d - 10 * cut, share);
  }

  lemma RefundIs(d: nat, b: nat, all: nat, rest: nat, share: nat)
    requires 0 < all && b <= all && rest <= 9
    requires 10 * all * share <= 3 * d * b <= 10 * all * share + 10 * all - 10 + rest * b
    ensures IsRefund(share, d, b, all)
  {
    MulMono(b, rest, 9);
    assert 10 * all * (share + 2) == 10 * all * share + 20 * all;
  }

  lemma BonusSum(d: nat, b: nat, side: nat, all: nat, c7: nat, c3: nat, w: nat, e: nat)
    requires 0 < side && b <= side <= all
    requires 10 * side * w <= 7 * d * b <= 10 * side * w + 10 * side - 10 + (7 * d - 10 * c7) * b
    requires 10 * all * e <= 3 * d * b <= 10 * all * e + 10 * all - 10 + (3 * d - 10 * c3) * b
    requires 0 <= 7 * d - 10 * c7 && 0 <= 3 * d - 10 * c3 && (7 * d - 10 * c7) + (3 * d - 10 * c3) <= 10
    ensures IsBonus(w + e, d, b, side, all)
  {
    var f7, f3 := 7 * d - 10 * c7, 3 * d - 10 * c3;
    var x, y := 7 * d * b - 10 * side * w, 3 * d * b - 10 * all * e;
    MulMono(f7, b, side);
    MulMono(f3, b, all);
    Scaled(all, x, 10 * side - 10 + f7 * side);
    Scaled(side, y, 10 * all - 10 + f3 * b);
    Gather(side, all, f7, f3, b);
    Expand(d, b, side, all, w, e, x, y);
  }

  lemma Scaled(c: nat, x: int, most: int)
    requires 0 <= x <= most
    ensures 0 <= c * x <= c * most
  {
    MulMono(c, x, most);
  }

  lemma Part(x: nat, y: nat, whole: nat, f: nat)
    requires whole == x * y
    ensures y * (10 * x - 10 + f * x) == 10 * whole - 10 * y + f * whole
  {
    assert y * (10 * x) == 10 * (x * y) && y * (f * x) == f * (x * y);
  }

  lemma Fractions(whole: nat, f7: nat, f3: nat)
    requires f7 + f3 <= 10
    ensures f7 * whole + f3 * whole <= 10 * whole
  {
    MulMono(whole, f7 + f3, 10);
    assert whole * (f7 + f3) == f7 * whole + f3 * whole;
  }

  lemma Lower(side: nat, all: nat, f3: nat, b: nat)
    requires b <= all
    ensures side * (10 * all - 10 + f3 * b) <= side * (10 * all - 10 + f3 * all)
  {
    MulMono(f3, b, all);
    MulMono(side, 10 * all - 10 + f3 * b, 10 * all - 10 + f3 * all);
  }

  lemma Gather(side: nat, all: nat, f7: nat, f3: nat, b: nat)
    requires 0 < side <= all && b <= side && f7 + f3 <= 10
    ensures all * (10 * side - 10 + f7 * side) + side * (10 * all - 10 + f3 * b) < 30 * (side * all)
  {
    var whole := side * all;
    Commutes(side, all);
    Part(side, all, whole, f7);
    Part(all, side, whole, f3);
    Lower(side, all, f3, b);
    Fractions(whole, f7, f3);
  }

  lemma Commutes(x: nat, y: nat)
    ensures x * y == y * x
  {}

  lemma Expand(d: nat, b: nat, side: nat, all: nat, w: nat, e: nat, x: int, y: int)
    requires x == 7 * d * b - 10 * side * w && y == 3 * d * b - 10 * all * e
    ensures 7 * d * b * all + 3 * d * b * side == 10 * side * all * (w + e) + all * x + side * y
    ensures 10 * side * all * (w + e + 3) == 10 * side * all * (w + e) + 30 * (side * all)
  {
    assert all * x == 7 * d * b * all - 10 * side * all * w;
    assert side * y == 3 * d * b * side - 10 * side * all * e;
    assert 10 * side * all * (w + e) == 10 * side * all * w + 10 * side * all * e;
  }

  lemma WinnerPayIs(stake: int, d: nat, b: nat, side: nat, all: nat)
    requires 0 < side <= all && b <= side
    ensures stake <= WinnerPayout(stake, d, b, side, all)
    ensures IsBonus(WinnerPayout(stake, d, b, side, all) - stake, d, b, side, all)
  {
    var c7, c3 := Cut(d, WINNER_PCT), Cut(d, REFUND_PCT);
    var w, e := Share(c7, b, side), Share(c3, b, all);
    CutsCover(d);
    ShareFacts(d, WINNER_PCT, b, side);
    ShareFacts(d, REFUND_PCT, b, all);
    SharePays(7, d, c7, b, side, w);
    SharePays(3, d, c3, b, all, e);
    BonusSum(d, b, side, all, c7, c3, w, e);
  }

  // Three units it is: a winner can come out more than two short.
  lemma WinnerMoreThanTwoShort()
    ensures var (d, b, side, all) := (19, 11, 12, 14);
            var bonus := WinnerPayout(0, d, b, side, all);
            10 * side * all * (bonus + 2) < 7 * d * b * all + 3 * d * b * side
  {
    assert Cut(19, WINNER_PCT) == 13 && Cut(19, REFUND_PCT) == 5;
    assert Share(13, 11, 12) == 11 && Share(5, 11, 14) == 3;
  }

  // ----- Checked operation by checked operation ------------------------------------

  // One share, as a chain of checked operations; None stands for a panic.
  method ShareInSteps(distributed: int, pct: int, boosted: int, whole: int) returns (share: Option<int>)
    requires 0 < whole
    ensures share == CheckedShare(distributed, pct, boosted, whole)
    ensures share.Some? ==> share.value == Share(Cut(distributed, pct), boosted, whole)
  {
    var mul1 := CheckedMul(distributed, pct);
    if mul1.None? { return None; }
    QuotFits(mul1.value, DENOM);
    var div1 := CheckedDiv(mul1.value, DENOM);
    if div1.None? { return None; }
    var mul2 := CheckedMul(div1.value, boosted);
    if mul2.None? { return None; }
    QuotFits(mul2.value, whole);
    return CheckedDiv(mul2.value, whole);
  }

  method WinnerPayoutInSteps(staked: int, distributed: int, boosted: int, side: int, all: int)
    returns (payout: Option<int>)
    ensures payout == CheckedWinnerPayout(staked, distributed, boosted, side, all)
    ensures payout.Some? ==> payout.value == WinnerPayout(staked, distributed, boosted, side, all)
    ensures payout.Some? && 0 <= distributed && 0 <= boosted <= side <= all && 0 < side ==>
              IsBonus(payout.value - staked, distributed, boosted, side, all)
  {
    if 0 <= distributed && 0 <= boosted <= side <= all && 0 < side {
      WinnerPayIs(staked, distributed, boosted, side, all);
    }
    var winnerShare, refundShare := Some(0), Some(0);
    if side > 0 {
      winnerShare := ShareInSteps(distributed, WINNER_PCT, boosted, side);
    }
    if winnerShare.None? { return None; }
    if all > 0 {
      refundShare := ShareInSteps(distributed, REFUND_PCT, boosted, all);
    }
    if refundShare.None? { return None; }
    var add1 := CheckedAdd(staked, winnerShare.value);
    if add1.None? { return None; }
    return CheckedAdd(add1.value, refundShare.value);
  }

  method LoserPayoutInSteps(distributed: int, boosted: int, all: nat) returns (payout: Option<int>)
    ensures payout == CheckedLoserPayout(distributed, boosted, all)
    ensures payout.Some? ==> payout.value == LoserPayout(distributed, boosted, all)
    ensures payout.Some? && 0 <= distributed && 0 <= boosted <= all && 0 < all ==>
              IsRefund(payout.value, distributed, boosted, all)
  {
    if 0 <= distributed && 0 <= boosted <= all && 0 < all {
      LoserPayIs(distributed, boosted, all);
    }
    if all == 0 { return Some(0); }
    payout := ShareInSteps(distributed, REFUND_PCT, boosted, all);
  }

  method FeeAmountInSteps(losingPool: int, feeBps: nat) returns (fee: Option<int>)
    ensures fee == FeeAmount(losingPool, feeBps)
    ensures fee.Some? ==> fee.value == Fee(losingPool, feeBps)
    ensures fee.Some? && 0 <= losingPool ==> IsFee(fee.value, losingPool, feeBps)
  {
    if 0 <= losingPool {
      FeeIs(losingPool, feeBps);
    }
    var product := CheckedMul(losingPool, feeBps);
    if product.None? { return None; }
    QuotFits(product.value, DENOM);
    return CheckedDiv(product.value, DENOM);
  }
}

// The pure payout arithmetic of the Ninetails market (wick-predict), in i128
// with every intermediate product checked, beside the exact arithmetic it
// computes when nothing overflows.

module NinetailsMath {
  import opened Wrappers
  import opened Checked
  import opened Fees

  const WINNER_PCT: int := 7_000
  const REFUND_PCT: int := 3_000
  const MAX_FEE_BPS: nat := 500

  // ----- Exact arithmetic ----------------------------------------------------

  function Remaining(betTs: nat, lockTs: nat): nat {
    if betTs < lockTs then lockTs - betTs else 0
  }

  function Boosted(amount: int, betTs: nat, lockTs: nat): (b: int)
    ensures 0 <= amount ==> 0 <= b
    ensures 0 <= amount && betTs < lockTs ==> amount <= b
  {
    amount * Remaining(betTs, lockTs)
  }

  // The part of the distributed amount set aside for one of the two bonuses.
  function Cut(distributed: int, pct: int): int {
    Quot(distributed * pct, DENOM)
  }

  // A holder's floored share of a cut.
  function Share(cut: int, boosted: int, whole: int): int {
    if whole > 0 then Quot(cut * boosted, whole) else 0
  }

  function WinnerPayout(staked: int, distributed: int, boosted: int, side: int, all: int): int {
    staked + Share(Cut(distributed, WINNER_PCT), boosted, side) + Share(Cut(distributed, REFUND_PCT), boosted, all)
  }

  function LoserPayout(distributed: int, boosted: int, all: int): int {
    Share(Cut(distributed, REFUND_PCT), boosted, all)
  }

  // ----- Checked arithmetic --------------------------------------------------

  function BoostedShares(amount: int, betTs: nat, lockTs: nat): Option<int> {
    Fit(Boosted(amount, betTs, lockTs))
  }

  function FeeAmount(losingPool: int, feeBps: nat): Option<int> {
    if InI128(losingPool * feeBps) then Some(Fee(losingPool, feeBps)) else None
  }

  // One term of a payout: both products checked before they are divided.
  function CheckedShare(distributed: int, pct: int, boosted: int, whole: int): Option<int> {
    if whole <= 0 then Some(0)
    else if InI128(distributed * pct) && InI128(Cut(distributed, pct) * boosted) then
      Some(Share(Cut(distributed, pct), boosted, whole))
    else None
  }

  function CheckedWinnerPayout(staked: int, distributed: int, boosted: int, side: int, all: int): Option<int> {
    var bonus := CheckedShare(distributed, WINNER_PCT, boosted, side);
    var early := CheckedShare(distributed, REFUND_PCT, boosted, all);
    if bonus.None? || early.None? || !InI128(staked + bonus.value) then None
    else Fit(staked + bonus.value + early.value)
  }

  // The source guards this division by `global_boosted == 0` alone, which says
  // the same: a total of boosts is never negative.
  function CheckedLoserPayout(distributed: int, boosted: int, all: nat): Option<int> {
    CheckedShare(distributed, REFUND_PCT, boosted, all)
  }

  // ----- What the arithmetic promises -----------------------------------------

  // The two cuts use up the distributed amount but for at most one unit.
  lemma CutsCover(distributed: int)
    requires 0 <= distributed
    ensures 0 <= Cut(distributed, WINNER_PCT) && 0 <= Cut(distributed, REFUND_PCT)
    ensures 10 * Cut(distributed, WINNER_PCT) <= 7 * distributed <= 10 * Cut(distributed, WINNER_PCT) + 9
    ensures 10 * Cut(distributed, REFUND_PCT) <= 3 * distributed <= 10 * Cut(distributed, REFUND_PCT) + 9
    ensures Cut(distributed, WINNER_PCT) + Cut(distributed, REFUND_PCT) <= distributed
         <= Cut(distributed, WINNER_PCT) + Cut(distributed, REFUND_PCT) + 1
  {}

  lemma ShareNonNeg(cut: int, boosted: int, whole: int)
    requires 0 <= cut && 0 <= boosted
    ensures 0 <= Share(cut, boosted, whole)
  {
    assert 0 <= cut * boosted;
  }

  // A share grows with the cut and with the holder's boost.
  lemma ShareMono(cut: int, cut': int, boosted: int, boosted': int, whole: int)
    requires 0 <= cut <= cut' && 0 <= boosted <= boosted'
    ensures 0 <= Share(cut, boosted, whole) <= Share(cut', boosted', whole)
  {
    if 0 < whole {
      assert 0 <= cut * boosted <= cut' * boosted <= cut' * boosted';
      QuotMono(cut * boosted, cut' * boosted', whole);
    }
  }

  // A holder with part of the whole gets no more than the cut.
  lemma ShareWithin(cut: int, boosted: int, whole: int)
    requires 0 <= cut && 0 <= boosted <= whole
    ensures 0 <= Share(cut, boosted, whole) <= cut
  {
    if 0 < whole {
      assert 0 <= cut * boosted <= cut * whole;
      QuotMono(cut * boosted, cut * whole, whole);
      assert whole * cut == cut * whole;
      QuotUnique(cut * whole, whole, cut);
    }
  }

  // Taking a larger fee never raises a payout.
  lemma PayoutsFallWithDistributed(staked: int, d: int, d': int, boosted: int, side: int, all: int)
    requires 0 <= d <= d' && 0 <= boosted
    ensures WinnerPayout(staked, d, boosted, side, all) <= WinnerPayout(staked, d', boosted, side, all)
    ensures 0 <= LoserPayout(d, boosted, all) <= LoserPayout(d', boosted, all)
  {
    QuotMono(d * WINNER_PCT, d' * WINNER_PCT, DENOM);
    QuotMono(d * REFUND_PCT, d' * REFUND_PCT, DENOM);
    ShareMono(Cut(d, WINNER_PCT), Cut(d', WINNER_PCT), boosted, boosted, side);
    ShareMono(Cut(d, REFUND_PCT), Cut(d', REFUND_PCT), boosted, boosted, all);
  }

  lemma EarlierBoostsMore(amount: nat, early: nat, late: nat, lockTs: nat)
    requires early <= late
    ensures 0 <= Boosted(amount, late, lockTs) <= Boosted(amount, early, lockTs)
  {
    MulMono(amount, Remaining(late, lockTs), Remaining(early, lockTs));
  }

  // Early bets: of two bettors with the same stake on the same side, the one
  // who came first is never paid less, whether the side wins or loses.
  lemma EarlierIsNeverPaidLess(amount: nat, early: nat, late: nat, lockTs: nat, d: nat, side: nat, all: nat)
    requires early <= late
    ensures var b, b' := Boosted(amount, early, lockTs), Boosted(amount, late, lockTs);
            && WinnerPayout(amount, d, b', side, all) <= WinnerPayout(amount, d, b, side, all)
            && LoserPayout(d, b', all) <= LoserPayout(d, b, all)
  {
    var b, b' := Boosted(amount, early, lockTs), Boosted(amount, late, lockTs);
    EarlierBoostsMore(amount, early, late, lockTs);
    CutsCover(d);
    ShareMono(Cut(d, WINNER_PCT), Cut(d, WINNER_PCT), b', b, side);
    ShareMono(Cut(d, REFUND_PCT), Cut(d, REFUND_PCT), b', b, all);
  }

  lemma ShareSplit(cut: int, b1: int, b2: int, whole: int)
    requires 0 <= cut && 0 <= b1 && 0 <= b2
    ensures var parts := Share(cut, b1, whole) + Share(cut, b2, whole);
            parts <= Share(cut, b1 + b2, whole) <= parts + 1
  {
    assert cut * (b1 + b2) == cut * b1 + cut * b2 && 0 <= cut * b1 && 0 <= cut * b2;
    if 0 < whole {
      QuotSplit(cut * b1, cut * b2, whole);
    }
  }

  // Unsplit bets: cutting one stake into two placed at the same moment leaves
  // the round's totals as they were and never pays more; it costs at most two
  // units on the winning side and one on the losing side.
  lemma SplittingNeverPays(a1: nat, a2: nat, ts: nat, lockTs: nat, d: nat, side: nat, all: nat)
    ensures var b1, b2, b := Boosted(a1, ts, lockTs), Boosted(a2, ts, lockTs), Boosted(a1 + a2, ts, lockTs);
            && b == b1 + b2
            && (var two := WinnerPayout(a1, d, b1, side, all) + WinnerPayout(a2, d, b2, side, all);
                two <= WinnerPayout(a1 + a2, d, b, side, all) <= two + 2)
            && (var two := LoserPayout(d, b1, all) + LoserPayout(d, b2, all);
                two <= LoserPayout(d, b, all) <= two + 1)
  {
    var b1, b2 := Boosted(a1, ts, lockTs), Boosted(a2, ts, lockTs);
    assert (a1 + a2) * Remaining(ts, lockTs) == a1 * Remaining(ts, lockTs) + a2 * Remaining(ts, lockTs);
    CutsCover(d);
    ShareSplit(Cut(d, WINNER_PCT), b1, b2, side);
    ShareSplit(Cut(d, REFUND_PCT), b1, b2, all);
  }

  // ----- Nothing overflows within bounds ----------------------------------------------

  lemma FeeFits(losingPool: nat, feeBps: nat, bound: nat)
    requires losingPool <= bound && feeBps <= MAX_FEE_BPS && bound * DENOM <= I128_MAX
    ensures FeeAmount(losingPool, feeBps) == Some(Fee(losingPool, feeBps))
  {
    assert 0 <= losingPool * feeBps <= bound * DENOM;
  }

  lemma ShareFits(d: nat, pct: nat, boosted: nat, whole: nat, bound: nat, most: nat)
    requires d <= bound && pct <= DENOM && bound * DENOM <= I128_MAX
    requires boosted <= most && bound * most <= I128_MAX && 0 < whole
    ensures CheckedShare(d, pct, boosted, whole) == Some(Share(Cut(d, pct), boosted, whole))
  {
    MulMono(d, pct, DENOM);
    MulMono(DENOM, d, bound);
    var cut := Cut(d, pct);
    assert 0 <= d * pct <= DENOM * d <= DENOM * bound;
    assert 0 <= cut <= d;
    MulMono(boosted, cut, bound);
    MulMono(bound, boosted, most);
    assert 0 <= cut * boosted <= bound * most;
  }

  // The products of a payout stay inside i128 whenever stake * boost does.
  lemma PayoutsFit(staked: nat, d: nat, boosted: nat, side: nat, all: nat, bound: nat, most: nat)
    requires staked + d <= bound && bound * DENOM <= I128_MAX
    requires boosted <= side <= all && boosted <= most && bound * most <= I128_MAX
    ensures CheckedWinnerPayout(staked, d, boosted, side, all) == Some(WinnerPayout(staked, d, boosted, side, all))
    ensures CheckedLoserPayout(d, boosted, all) == Some(LoserPayout(d, boosted, all))
  {
    CutsCover(d);
    ShareWithin(Cut(d, WINNER_PCT), boosted, side);
    ShareWithin(Cut(d, REFUND_PCT), boosted, all);
    if 0 < side {
      ShareFits(d, WINNER_PCT, boosted, side, bound, most);
    }
    if 0 < all {
      ShareFits(d, REFUND_PCT, boosted, all, bound, most);
    }
  }
}

// One settled Ninetails round: what its positions are paid in total, against
// what was staked in it.

module NinetailsConservation {
  import opened Fees
  import opened Sums
  import opened NinetailsMath
  import opened Ninetails
  import Token

  function StakeOn(side: Side): Position -> int {
    (p: Position) => if p.side == side then p.amount else 0
  }

  function BoostOn(side: Side): Position -> int {
    (p: Position) => if p.side == side then p.boosted else 0
  }

  function Boost(): Position -> int {
    (p: Position) => p.boosted
  }

  function PaidBy(r: Round, feeBps: nat): Position -> int {
    (p: Position) => Payout(r, feeBps, p)
  }

  function PaidOn(r: Round, feeBps: nat, side: Side): Position -> int {
    (p: Position) => if p.side == side then Payout(r, feeBps, p) else 0
  }

  // The two bonuses, as weights.
  function BonusOn(cut: int, whole: int, side: Side): Position -> int {
    (p: Position) => if p.side == side then Share(cut, p.boosted, whole) else 0
  }

  function EarlyBonus(cut: int, whole: int): Position -> int {
    (p: Position) => Share(cut, p.boosted, whole)
  }

  function Winner(r: Round): Side {
    if r.outcome == AboveWon then Above else Below
  }

  function Loser(r: Round): Side {
    if r.outcome == AboveWon then Below else Above
  }

  function WinningPool(r: Round): nat {
    if r.outcome == AboveWon then r.poolAbove else r.poolBelow
  }

  function Distributed(r: Round, feeBps: nat): int {
    LosingPool(r) - Fee(LosingPool(r), feeBps)
  }

  // The live positions of a round never outweigh its pools and boosts, and
  // every stake carries a boost of at least its own size.
  ghost predicate Covered(r: Round, ps: Positions, id: nat) {
    && r.globalBoosted == r.boostedAbove + r.boostedBelow
    && r.poolAbove <= r.boostedAbove && r.poolBelow <= r.boostedBelow
    && Total(ps, id, StakeOn(Above)) <= r.poolAbove && Total(ps, id, StakeOn(Below)) <= r.poolBelow
    && Total(ps, id, BoostOn(Above)) <= r.boostedAbove && Total(ps, id, BoostOn(Below)) <= r.boostedBelow
  }

  // No entry of the round has expired: pools and boosts are exactly the sums
  // they stand for.
  ghost predicate Exact(r: Round, ps: Positions, id: nat) {
    && r.globalBoosted == r.boostedAbove + r.boostedBelow
    && Total(ps, id, StakeOn(Above)) == r.poolAbove && Total(ps, id, StakeOn(Below)) == r.poolBelow
    && Total(ps, id, BoostOn(Above)) == r.boostedAbove && Total(ps, id, BoostOn(Below)) == r.boostedBelow
  }

  ghost predicate Decided(r: Round) {
    r.status == Settled && r.outcome != Void && 0 < r.poolAbove && 0 < r.poolBelow
  }

  lemma BoostTotals(ps: Positions, id: nat)
    ensures Total(ps, id, Boost()) == Total(ps, id, BoostOn(Above)) + Total(ps, id, BoostOn(Below))
  {
    TotalAdd(ps, id, BoostOn(Above), BoostOn(Below), Boost());
  }

  lemma PayoutNonNeg(r: Round, feeBps: nat, p: Position)
    requires feeBps <= MAX_FEE_BPS
    ensures 0 <= Payout(r, feeBps, p)
  {
    FeeWithin(LosingPool(r), feeBps);
    var d := Distributed(r, feeBps);
    CutsCover(d);
    ShareNonNeg(Cut(d, WINNER_PCT), p.boosted, SideBoosted(r));
    ShareNonNeg(Cut(d, REFUND_PCT), p.boosted, r.globalBoosted);
  }

  lemma PayoutFallsWithFee(r: Round, low: nat, high: nat, p: Position)
    requires low <= high <= MAX_FEE_BPS
    ensures Payout(r, high, p) <= Payout(r, low, p)
  {
    FeeWithin(LosingPool(r), high);
    FeeMono(LosingPool(r), low, high);
    PayoutsFallWithDistributed(p.amount, Distributed(r, high), Distributed(r, low), p.boosted, SideBoosted(r),
                               r.globalBoosted);
  }

  // ----- The payouts, taken apart ----------------------------------------------

  lemma PayoutParts(r: Round, feeBps: nat, ps: Positions, id: nat)
    requires r.outcome != Void
    ensures var d := Distributed(r, feeBps);
            Total(ps, id, PaidBy(r, feeBps)) ==
              Total(ps, id, StakeOn(Winner(r)))
              + Total(ps, id, BonusOn(Cut(d, WINNER_PCT), SideBoosted(r), Winner(r)))
              + Total(ps, id, EarlyBonus(Cut(d, REFUND_PCT), r.globalBoosted))
  {
    var d := Distributed(r, feeBps);
    var stake := StakeOn(Winner(r));
    var bonus := BonusOn(Cut(d, WINNER_PCT), SideBoosted(r), Winner(r));
    var early := EarlyBonus(Cut(d, REFUND_PCT), r.globalBoosted);
    var both: Position -> int := (p: Position) => stake(p) + bonus(p);
    TotalAdd(ps, id, stake, bonus, both);
    TotalAdd(ps, id, both, early, PaidBy(r, feeBps));
  }

  // The bonuses of one cut, summed over a set of holders whose boosts add up
  // to at most the whole.
  lemma BonusTotals(ps: Positions, id: nat, cut: nat, whole: nat, part: Position -> int, share: Position -> int,
                    live: set<(nat, Token.Address)>)
    requires 0 < whole && Total(ps, id, part) <= whole
    requires forall k :: k in live <==> k in ps && k.0 == id && part(ps[k]) != 0
    requires forall k :: k in ps ==> 0 <= part(ps[k]) && share(ps[k]) == Share(cut, part(ps[k]), whole)
    ensures Total(ps, id, share) <= cut
    ensures Total(ps, id, part) == whole ==> cut <= Total(ps, id, share) + |live| - 1
  {
    forall k | k in ps && k.0 == id
      ensures whole * share(ps[k]) <= cut * part(ps[k]) <= whole * share(ps[k]) + whole - 1
      ensures part(ps[k]) == 0 ==> cut * part(ps[k]) <= whole * share(ps[k])
    {
      SharePoint(cut, part(ps[k]), whole);
    }
    TotalShares(ps, id, part, share, cut, whole, live);
    SharesOfWhole(cut, whole, Total(ps, id, part), Total(ps, id, share), |live|);
    if |live| == 0 {
      TotalZeroWithoutLive(ps, id, part, live);
    }
  }

  lemma SharePoint(cut: nat, boosted: nat, whole: nat)
    requires 0 < whole
    ensures var share := Share(cut, boosted, whole);
            && whole * share <= cut * boosted <= whole * share + whole - 1
            && (boosted == 0 ==> share == 0)
  {
    assert 0 <= cut * boosted;
  }

  lemma TotalZeroWithoutLive(ps: Positions, id: nat, part: Position -> int, live: set<(nat, Token.Address)>)
    requires forall k :: k in live <==> k in ps && k.0 == id && part(ps[k]) != 0
    requires |live| == 0
    ensures Total(ps, id, part) == 0
  {
    SumZero(Weights(ps, id, part));
  }

  ghost function Live(ps: Positions, id: nat, part: Position -> int): (live: set<(nat, Token.Address)>)
    ensures forall k :: k in live <==> k in ps && k.0 == id && part(ps[k]) != 0
  {
    set k | k in ps && k.0 == id && part(ps[k]) != 0
  }

  ghost function Bettors(ps: Positions, id: nat): set<(nat, Token.Address)> {
    set k | k in ps && k.0 == id
  }

  ghost function BettorsOn(ps: Positions, id: nat, side: Side): set<(nat, Token.Address)> {
    set k | k in ps && k.0 == id && ps[k].side == side
  }

  lemma SubsetSize<T>(a: set<T>, b: set<T>)
    requires a <= b
    ensures |a| <= |b|
  {
    assert |b| == |a| + |b - a| by { assert b == a + (b - a); }
  }

  // ----- Conservation ------------------------------------------------------------

  // The two bonuses of a decided round, summed over its live positions.
  lemma BonusBounds(r: Round, feeBps: nat, ps: Positions, id: nat)
    requires Covered(r, ps, id) && Decided(r) && feeBps <= MAX_FEE_BPS
    ensures var d, side := Distributed(r, feeBps), Winner(r);
            var bonus := Total(ps, id, BonusOn(Cut(d, WINNER_PCT), SideBoosted(r), side));
            var early := Total(ps, id, EarlyBonus(Cut(d, REFUND_PCT), r.globalBoosted));
            && bonus <= Cut(d, WINNER_PCT) && early <= Cut(d, REFUND_PCT)
            && (Exact(r, ps, id) ==>
                  && Cut(d, WINNER_PCT) <= bonus + |BettorsOn(ps, id, side)| - 1
                  && Cut(d, REFUND_PCT) <= early + |Bettors(ps, id)| - 1)
  {
    FeeWithin(LosingPool(r), feeBps);
    var d, side := Distributed(r, feeBps), Winner(r);
    CutsCover(d);
    BoostTotals(ps, id);
    BonusTotals(ps, id, Cut(d, WINNER_PCT), SideBoosted(r), BoostOn(side),
                BonusOn(Cut(d, WINNER_PCT), SideBoosted(r), side), Live(ps, id, BoostOn(side)));
    BonusTotals(ps, id, Cut(d, REFUND_PCT), r.globalBoosted, Boost(),
                EarlyBonus(Cut(d, REFUND_PCT), r.globalBoosted), Live(ps, id, Boost()));
    SubsetSize(Live(ps, id, BoostOn(side)), BettorsOn(ps, id, side));
    SubsetSize(Live(ps, id, Boost()), Bettors(ps, id));
  }

  // Upper half, with any entries missing: the fee and the payouts at that fee
  // never exceed what was staked.
  lemma PaysAtMostTheStakes(r: Round, feeBps: nat, ps: Positions, id: nat)
    requires Covered(r, ps, id) && Decided(r) && feeBps <= MAX_FEE_BPS
    ensures Fee(LosingPool(r), feeBps) + Total(ps, id, PaidBy(r, feeBps)) <= r.poolAbove + r.poolBelow
  {
    FeeWithin(LosingPool(r), feeBps);
    CutsCover(Distributed(r, feeBps));
    PayoutParts(r, feeBps, ps, id);
    BonusBounds(r, feeBps, ps, id);
  }

  // Lower half: with every entry present, at most winners + bettors - 1 units
  // are left over.
  lemma LeavesLittleDust(r: Round, feeBps: nat, ps: Positions, id: nat)
    requires Exact(r, ps, id) && Covered(r, ps, id) && Decided(r) && feeBps <= MAX_FEE_BPS
    ensures r.poolAbove + r.poolBelow
            <= Fee(LosingPool(r), feeBps) + Total(ps, id, PaidBy(r, feeBps))
               + |BettorsOn(ps, id, Winner(r))| + |Bettors(ps, id)| - 1
  {
    FeeWithin(LosingPool(r), feeBps);
    CutsCover(Distributed(r, feeBps));
    PayoutParts(r, feeBps, ps, id);
    BonusBounds(r, feeBps, ps, id);
  }

  // The losing side in total gets back at most 30% of the distributed amount.
  lemma LosersShareTheRefundCut(r: Round, feeBps: nat, ps: Positions, id: nat)
    requires Covered(r, ps, id) && Decided(r) && feeBps <= MAX_FEE_BPS
    ensures 10 * Total(ps, id, PaidOn(r, feeBps, Loser(r))) <= 3 * Distributed(r, feeBps)
  {
    FeeWithin(LosingPool(r), feeBps);
    var d, side := Distributed(r, feeBps), Loser(r);
    CutsCover(d);
    BonusTotals(ps, id, Cut(d, REFUND_PCT), r.globalBoosted, BoostOn(side), PaidOn(r, feeBps, side),
                Live(ps, id, BoostOn(side)));
  }
}

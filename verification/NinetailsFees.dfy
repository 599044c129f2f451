// The fee of a Ninetails round. It is accrued at settlement but taken into
// account again, at whatever it then stands, by every claim: exactly which fees
// at claim a round can afford.

module NinetailsFees {
  import opened Checked
  import opened Fees
  import opened Sums
  import opened NinetailsMath
  import opened Ninetails
  import opened NinetailsConservation

  // ----- The worst a round can draw --------------------------------------------------

  function LoserBoosted(r: Round): nat {
    if r.outcome == AboveWon then r.boostedBelow else r.boostedAbove
  }

  // The most the bonuses of a round can come to: one holder on each side.
  function WorstDraw(r: Round, feeBps: nat): int {
    var d := Distributed(r, feeBps);
    var refunds := Cut(d, REFUND_PCT);
    Cut(d, WINNER_PCT) + Share(refunds, SideBoosted(r), r.globalBoosted)
    + Share(refunds, LoserBoosted(r), r.globalBoosted)
  }

  ghost predicate WellFormed(r: Round) {
    && Decided(r)
    && r.globalBoosted == r.boostedAbove + r.boostedBelow
    && r.poolAbove <= r.boostedAbove && r.poolBelow <= r.boostedBelow
  }

  lemma BonusTotalsWithin(ps: Positions, id: nat, cut: nat, whole: nat, bound: nat, part: Position -> int,
                          share: Position -> int)
    requires 0 < whole && Total(ps, id, part) <= bound
    requires forall k :: k in ps ==> 0 <= part(ps[k]) && share(ps[k]) == Share(cut, part(ps[k]), whole)
    ensures Total(ps, id, share) <= Share(cut, bound, whole)
  {
    forall k | k in ps && k.0 == id
      ensures whole * share(ps[k]) <= cut * part(ps[k]) <= whole * share(ps[k]) + whole - 1
      ensures part(ps[k]) == 0 ==> cut * part(ps[k]) <= whole * share(ps[k])
    {
      SharePoint(cut, part(ps[k]), whole);
    }
    TotalShares(ps, id, part, share, cut, whole, Live(ps, id, part));
    WithinShare(cut, whole, bound, Total(ps, id, part), Total(ps, id, share));
  }

  lemma WithinShare(cut: nat, whole: nat, bound: nat, parts: int, shares: int)
    requires 0 < whole && parts <= bound && whole * shares <= cut * parts
    ensures shares <= Share(cut, bound, whole)
  {
    SharePoint(cut, bound, whole);
    assert cut * parts <= cut * bound;
    assert whole * (Share(cut, bound, whole) + 1) == whole * Share(cut, bound, whole) + whole;
    Cancel(whole, shares, Share(cut, bound, whole) + 1);
  }

  lemma EarlySplit(ps: Positions, id: nat, cut: nat, whole: nat)
    ensures Total(ps, id, EarlyBonus(cut, whole)) ==
            Total(ps, id, BonusOn(cut, whole, Above)) + Total(ps, id, BonusOn(cut, whole, Below))
  {
    TotalAdd(ps, id, BonusOn(cut, whole, Above), BonusOn(cut, whole, Below), EarlyBonus(cut, whole));
  }

  lemma DrawsAtMostWorst(r: Round, feeBps: nat, ps: Positions, id: nat)
    requires WellFormed(r) && Covered(r, ps, id) && feeBps <= MAX_FEE_BPS
    ensures Total(ps, id, PaidBy(r, feeBps)) <= WinningPool(r) + WorstDraw(r, feeBps)
  {
    FeeWithin(LosingPool(r), feeBps);
    var d := Distributed(r, feeBps);
    CutsCover(d);
    var cut, all := Cut(d, REFUND_PCT), r.globalBoosted;
    PayoutParts(r, feeBps, ps, id);
    BonusBounds(r, feeBps, ps, id);
    EarlySplit(ps, id, cut, all);
    BonusTotalsWithin(ps, id, cut, all, r.boostedAbove, BoostOn(Above), BonusOn(cut, all, Above));
    BonusTotalsWithin(ps, id, cut, all, r.boostedBelow, BoostOn(Below), BonusOn(cut, all, Below));
  }

  lemma ShareOfAll(cut: nat, whole: nat)
    requires 0 < whole
    ensures Share(cut, whole, whole) == cut
  {
    assert whole * cut == cut * whole;
    QuotUnique(cut * whole, whole, cut);
  }

  // Everything staked by one user on each side.
  ghost function Pair(p: Position, q: Position): Positions {
    map[(0, 1) := p][(0, 2) := q]
  }

  lemma PairTotal(p: Position, q: Position, f: Position -> int)
    ensures Total(Pair(p, q), 0, f) == f(p) + f(q)
  {
    var none: Positions := map[];
    var one: Positions := map[(0, 1) := p];
    assert none[(0, 1) := p] == one;
    assert (0, 2) !in one;
    TotalEmpty(none, 0, f);
    TotalSet(none, 0, 1, p, f);
    TotalSet(one, 0, 2, q, f);
  }

  lemma PairPayout(r: Round, feeBps: nat, p: Position, q: Position)
    requires WellFormed(r) && feeBps <= MAX_FEE_BPS
    requires p == Position(Winner(r), WinningPool(r), SideBoosted(r), false)
    requires q == Position(Loser(r), LosingPool(r), LoserBoosted(r), false)
    ensures PaidBy(r, feeBps)(p) + PaidBy(r, feeBps)(q) == WinningPool(r) + WorstDraw(r, feeBps)
  {
    FeeWithin(LosingPool(r), feeBps);
    CutsCover(Distributed(r, feeBps));
    ShareOfAll(Cut(Distributed(r, feeBps), WINNER_PCT), SideBoosted(r));
  }

  // The round all of whose stakes are held by one winner and one loser.
  lemma WorstIsReached(r: Round, feeBps: nat) returns (ps: Positions)
    requires WellFormed(r) && feeBps <= MAX_FEE_BPS
    ensures Covered(r, ps, 0)
    ensures Total(ps, 0, PaidBy(r, feeBps)) == WinningPool(r) + WorstDraw(r, feeBps)
  {
    var p := Position(Winner(r), WinningPool(r), SideBoosted(r), false);
    var q := Position(Loser(r), LosingPool(r), LoserBoosted(r), false);
    ps := Pair(p, q);
    PairTotal(p, q, StakeOn(Above));
    PairTotal(p, q, StakeOn(Below));
    PairTotal(p, q, BoostOn(Above));
    PairTotal(p, q, BoostOn(Below));
    PairTotal(p, q, PaidBy(r, feeBps));
    PairPayout(r, feeBps, p, q);
  }

  // ----- The fees a round can afford --------------------------------------------------

  // The worst draw at the current fee fits beside the fee accrued at
  // settlement. (A void round pays stakes back, whatever the fee.)
  predicate Suffices(r: Round, settled: nat, current: nat) {
    r.status == Settled && r.outcome != Void ==>
      Fee(LosingPool(r), settled) + WorstDraw(r, current) <= LosingPool(r)
  }

  // A round settled at one fee and claimed at another covers its accrued fee
  // and every possible set of positions if and only if the later fee suffices.
  lemma CoversExactlyWhen(r: Round, settled: nat, current: nat)
    requires WellFormed(r) && settled <= MAX_FEE_BPS && current <= MAX_FEE_BPS
    ensures (forall ps: Positions, id: nat :: Covered(r, ps, id) ==>
               Fee(LosingPool(r), settled) + Total(ps, id, PaidBy(r, current)) <= r.poolAbove + r.poolBelow)
       <==> Suffices(r, settled, current)
  {
    var worst := WorstIsReached(r, current);
    forall ps: Positions, id: nat | Covered(r, ps, id)
      ensures Total(ps, id, PaidBy(r, current)) <= WinningPool(r) + WorstDraw(r, current)
    {
      DrawsAtMostWorst(r, current, ps, id);
    }
  }

  // In particular the fee at claim may rise above the fee at settlement.
  lemma HigherFeeSuffices(r: Round, settled: nat, current: nat)
    requires WellFormed(r) && settled <= current <= MAX_FEE_BPS
    ensures Suffices(r, settled, current)
  {
    FeeWithin(LosingPool(r), current);
    FeeMono(LosingPool(r), settled, current);
    var d := Distributed(r, current);
    CutsCover(d);
    var cut, all := Cut(d, REFUND_PCT), r.globalBoosted;
    ShareSplit(cut, SideBoosted(r), LoserBoosted(r), all);
    ShareOfAll(cut, all);
  }

  // A higher fee never draws more, so whatever fee suffices, so does any above.
  lemma WorstDrawFalls(r: Round, low: nat, high: nat)
    requires low <= high <= MAX_FEE_BPS
    ensures WorstDraw(r, high) <= WorstDraw(r, low)
  {
    FeeWithin(LosingPool(r), high);
    FeeMono(LosingPool(r), low, high);
    var d, d' := Distributed(r, high), Distributed(r, low);
    CutMono(d, d', WINNER_PCT);
    CutMono(d, d', REFUND_PCT);
    ShareMono(Cut(d, REFUND_PCT), Cut(d', REFUND_PCT), SideBoosted(r), SideBoosted(r), r.globalBoosted);
    ShareMono(Cut(d, REFUND_PCT), Cut(d', REFUND_PCT), LoserBoosted(r), LoserBoosted(r), r.globalBoosted);
  }

  lemma CutMono(d: int, d': int, pct: nat)
    requires 0 <= d <= d'
    ensures 0 <= Cut(d, pct) <= Cut(d', pct)
  {
    MulMono(pct, d, d');
    QuotMono(d * pct, d' * pct, DENOM);
  }

  // The least fee that suffices, looked for downward from one that does.
  function LeastFrom(r: Round, settled: nat, fee: nat): (least: nat)
    ensures least <= fee
    ensures Suffices(r, settled, fee) ==> Suffices(r, settled, least)
    ensures least == 0 || !Suffices(r, settled, least - 1)
  {
    if 0 < fee && Suffices(r, settled, fee - 1) then LeastFrom(r, settled, fee - 1) else fee
  }

  function LeastFee(r: Round, settled: nat): (least: nat)
    ensures least <= settled
  {
    LeastFrom(r, settled, settled)
  }

  lemma LeastFeeIsLeast(r: Round, settled: nat, current: nat)
    requires r.status == Settled && r.outcome != Void ==> WellFormed(r)
    requires settled <= MAX_FEE_BPS && current <= MAX_FEE_BPS
    ensures Suffices(r, settled, LeastFee(r, settled))
    ensures Suffices(r, settled, current) <==> LeastFee(r, settled) <= current
  {
    var least := LeastFee(r, settled);
    if r.status == Settled && r.outcome != Void {
      HigherFeeSuffices(r, settled, settled);
    }
    if least <= current {
      WorstDrawFalls(r, least, current);
    } else if Suffices(r, settled, current) {
      WorstDrawFalls(r, current, least - 1);
    }
  }
}

// What the fair market tells its users, in plain numbers: who wins at which
// price, what each position is paid, whose money moves.

module FairMarketRules {
  import opened Wrappers
  import opened Checked
  import opened Fees
  import opened Sums
  import opened Token
  import opened Oracle
  import opened FairMarket
  import opened FairMarketClaims
  import opened FairMarketSolvency
  import opened FairMarketSettlement

  // ----- The outcome ------------------------------------------------------------------------

  // Up wins at a price over the strike, Down at one under it; an equal or
  // missing price or an empty pool voids the round.
  predicate Judged(r: Round, price: Option<PriceData>) {
    var live := 0 < r.poolUp && 0 < r.poolDown;
    && (r.outcome == UpWon <==> live && price.Some? && price.value.price > r.ticket.strike)
    && (r.outcome == DownWon <==> live && price.Some? && price.value.price < r.ticket.strike)
    && (r.outcome == Void <==> !live || price.None? || price.value.price == r.ticket.strike)
    && (price.Some? ==> r.settlePrice == price.value.price)
  }

  // A settlement judges the round by the oracle's price for its own asset and
  // settle time and accrues the fee on the whole pot.
  predicate SettlesRightly(feed: Feed<Symbol>, s: State, s': State, id: nat) {
    && id in s.rounds && s.rounds[id].status == Open && s.rounds[id].ticket.settleTs <= s.now
    && id in s'.rounds && s'.rounds[id].status == Settled && SamePools(s.rounds[id], s'.rounds[id])
    && Judged(s'.rounds[id], feed(s.rounds[id].ticket.asset, s.rounds[id].ticket.settleTs))
    && (if s'.rounds[id].outcome == Void then s'.fees == s.fees
        else IsFee(s'.fees - s.fees, s.rounds[id].poolUp + s.rounds[id].poolDown, s.config.feeBps))
    && s'.token == s.token && s'.positions == s.positions
  }

  lemma SettleJudges(feed: Feed<Symbol>, s: State, id: nat)
    requires Settle(feed, s, id).Success?
    ensures SettlesRightly(feed, s, Settle(feed, s, id).value, id)
  {
    FeeIs(Pot(s.rounds[id]), s.config.feeBps);
  }

  // In every run from deployment a settled round has the outcome the oracle's
  // price for its settle time gives it, whoever settled it and whenever.
  lemma OutcomeFollowsPrice(feed: Feed<Symbol>, config: Config, token: Balances, now: nat, actions: seq<Action>,
                            id: nat)
    requires Initialize(config, token, now).Success?
    requires var s := Run(feed, World(Initialize(config, token, now).value, map[], map[]), actions).s;
             id in s.rounds && s.rounds[id].status == Settled
    ensures var r := Run(feed, World(Initialize(config, token, now).value, map[], map[]), actions).s.rounds[id];
            Judged(r, feed(r.ticket.asset, r.ticket.settleTs))
  {
    var w := World(Initialize(config, token, now).value, map[], map[]);
    FreshFollows(feed, config, token, now);
    AlwaysFollows(feed, w, actions);
    assert RoundFollows(feed, Run(feed, w, actions), id);
  }

  // ----- What a position is paid ------------------------------------------------------------

  // A void round pays the stake back and a losing position gets nothing; a
  // winning one gets the pot less the fee by its stake in its side's, less than
  // one unit short.
  predicate RightlyPaid(r: Round, feeBps: nat, mine: Side, stake: nat, pay: int) {
    var pot := r.poolUp + r.poolDown;
    var d := pot - pot * feeBps / 10_000;
    var pool := if mine == Up then r.poolUp else r.poolDown;
    if r.outcome == Void then pay == stake
    else if mine == (if r.outcome == UpWon then Up else Down) then
      0 <= d && pool * pay <= stake * d < pool * pay + pool
    else pay == 0
  }

  lemma PayoutIsRight(r: Round, feeBps: nat, p: Position)
    requires feeBps <= MAX_FEE_BPS && (r.outcome != Void ==> 0 < r.poolUp && 0 < r.poolDown)
    ensures 0 <= Payout(r, feeBps, p) && RightlyPaid(r, feeBps, p.side, p.amount, Payout(r, feeBps, p))
  {
    FeeDivides(Pot(r), feeBps);
    var d := Distributed(r, feeBps);
    MulMono(p.amount, 0, d);
    if Wins(p.side, r.outcome) {
      QuotBounds(p.amount * d, WinningPool(r));
    }
  }

  // What an id is worth: a settled round's unclaimed position is paid rightly,
  // anything else nothing.
  predicate RightlyWorth(rounds: Rounds, ps: Positions, feeBps: nat, user: Address, id: nat, worth: int) {
    if id in rounds && rounds[id].status == Settled && (id, user) in ps && !ps[(id, user)].claimed
    then RightlyPaid(rounds[id], feeBps, ps[(id, user)].side, ps[(id, user)].amount, worth)
    else worth == 0
  }

  // No round was decided with an empty side.
  predicate BothSides(rounds: Rounds) {
    forall id :: id in rounds && rounds[id].status == Settled && rounds[id].outcome != Void ==>
      0 < rounds[id].poolUp && 0 < rounds[id].poolDown
  }

  lemma ShapeHasBothSides(w: World)
    requires Shape(w)
    ensures BothSides(w.s.rounds)
  {
    forall id | id in w.s.rounds && w.s.rounds[id].status == Settled && w.s.rounds[id].outcome != Void
      ensures 0 < w.s.rounds[id].poolUp && 0 < w.s.rounds[id].poolDown
    {
      assert RoundInv(w, id);
    }
  }

  lemma WorthIsRight(rounds: Rounds, ps: Positions, feeBps: nat, user: Address, id: nat)
    requires BothSides(rounds) && feeBps <= MAX_FEE_BPS && Due(rounds, ps, feeBps, user, id).Some?
    ensures 0 <= Worth(rounds, ps, feeBps, user, id)
    ensures RightlyWorth(rounds, ps, feeBps, user, id, Worth(rounds, ps, feeBps, user, id))
  {
    if id in rounds && rounds[id].status == Settled && (id, user) in ps && !ps[(id, user)].claimed {
      PayoutIsRight(rounds[id], feeBps, ps[(id, user)]);
    }
  }

  // ----- Whose money moves ------------------------------------------------------------------

  // A claim pays the claimant what the id is worth, out of the contract's
  // balance, and moves nobody else's money.
  ghost predicate PaysRightly(s: State, s': State, user: Address, id: nat, paid: int) {
    && user != SELF && Transferred(s.token, s'.token, SELF, user, paid)
    && RightlyWorth(s.rounds, s.positions, s.config.feeBps, user, id, paid)
    && s' == s.(positions := s'.positions, token := s'.token)
  }

  lemma ClaimMoves(s: State, user: Address, id: nat)
    requires Claim(s, user, id).Success?
    ensures var receipt := Claim(s, user, id).value;
            && user != SELF && receipt.s == s.(positions := receipt.s.positions, token := receipt.s.token)
            && Due(s.rounds, s.positions, s.config.feeBps, user, id) == Some(receipt.paid)
            && (0 <= receipt.paid ==> Transferred(s.token, receipt.s.token, SELF, user, receipt.paid))
  {}

  lemma ClaimPaysClaimant(w: World, user: Address, id: nat)
    requires Shape(w) && Claim(w.s, user, id).Success?
    ensures var receipt := Claim(w.s, user, id).value;
            PaysRightly(w.s, receipt.s, user, id, receipt.paid)
  {
    ClaimMoves(w.s, user, id);
    ShapeHasBothSides(w);
    WorthIsRight(w.s.rounds, w.s.positions, w.s.config.feeBps, user, id);
  }

  // A batch pays its claimant, in one transfer, what its distinct ids are worth.
  ghost predicate PaysBatchRightly(s: State, s': State, user: Address, ids: seq<nat>, paid: int) {
    && user != SELF && |ids| <= 20 && Transferred(s.token, s'.token, SELF, user, paid)
    && (exists worths: map<nat, int> ::
          && worths.Keys == (set id | id in ids)
          && (forall id :: id in ids ==>
                RightlyWorth(s.rounds, s.positions, s.config.feeBps, user, id, worths[id]))
          && paid == Sum(worths))
    && s' == s.(positions := Claimed(s.rounds, s.positions, user, ids), token := s'.token)
  }

  // Every id of a batch that does not panic has a worth.
  lemma {:induction false} AllDue(rounds: Rounds, ps: Positions, feeBps: nat, user: Address, ids: seq<nat>, id: nat)
    requires ClaimIds(rounds, ps, feeBps, user, ids).Some? && id in ids
    ensures Due(rounds, ps, feeBps, user, id).Some?
  {
    var front, last := ids[..|ids| - 1], ids[|ids| - 1];
    assert ids == front + [last];
    if id in front {
      AllDue(rounds, ps, feeBps, user, front, id);
    } else {
      BatchPaysEachIdOnce(rounds, ps, feeBps, user, front);
      DueAfter(rounds, ps, feeBps, user, front, last);
    }
  }

  lemma ClaimManyPaysClaimant(w: World, user: Address, ids: seq<nat>)
    requires Shape(w) && ClaimMany(w.s, user, ids).Success?
    ensures var receipt := ClaimMany(w.s, user, ids).value;
            PaysBatchRightly(w.s, receipt.s, user, ids, receipt.paid)
  {
    var s := w.s;
    ShapeHasBothSides(w);
    var worths := Worths(s.rounds, s.positions, s.config.feeBps, user, ids);
    forall id | id in ids
      ensures 0 <= worths[id] && RightlyWorth(s.rounds, s.positions, s.config.feeBps, user, id, worths[id])
    {
      AllDue(s.rounds, s.positions, s.config.feeBps, user, ids, id);
      WorthIsRight(s.rounds, s.positions, s.config.feeBps, user, id);
    }
    BatchPaysEachIdOnce(s.rounds, s.positions, s.config.feeBps, user, ids);
    ClaimIdsNonNeg(s.rounds, s.positions, s.config.feeBps, user, ids);
    assert worths.Keys == (set id | id in ids);
  }

  // Exactly which bets are accepted, and what one costs.
  lemma BetAcceptedExactlyWhen(s: State, user: Address, id: nat, side: Side, amount: int)
    requires Valid(s.token)
    ensures PlaceBet(s, user, id, side, amount).Success? <==>
              id in s.rounds &&
              var r := s.rounds[id];
              && user != SELF && s.config.minBet <= amount && 0 <= amount <= Bal(s.token, user)
              && s.now < r.ticket.lockTs && r.status == Open && (id, user) !in s.positions
              && Bal(s.token, SELF) + amount <= I128_MAX
              && (if side == Up then r.poolUp + amount else r.poolUp) <= I128_MAX
              && (if side == Down then r.poolDown + amount else r.poolDown) <= I128_MAX
  {}

  ghost predicate TakesRightly(s: State, s': State, user: Address, id: nat, side: Side, amount: int) {
    && id in s.rounds && id in s'.rounds && s.now < s.rounds[id].ticket.lockTs && s.config.minBet <= amount
    && Transferred(s.token, s'.token, user, SELF, amount)
    && (id, user) !in s.positions
    && s'.positions == s.positions[(id, user) := Position(side, amount, false)]
  }

  lemma BetTakes(s: State, user: Address, id: nat, side: Side, amount: int)
    requires PlaceBet(s, user, id, side, amount).Success?
    ensures TakesRightly(s, PlaceBet(s, user, id, side, amount).value, user, id, side, amount)
  {}

  // The round a tick of the oracle opens: struck at its price, locked an offset
  // and settled 300 seconds after its timestamp.
  function Agreed(asset: Symbol, tick: PriceData, c: Config): Round {
    Round(Ticket(asset, tick.price, tick.timestamp, tick.timestamp + 300, tick.timestamp + c.lockOffset),
          0, 0, Open, Void, 0)
  }

  lemma SweepPaysAdmin(s: State)
    requires SweepFees(s).Success? && 0 <= s.fees
    ensures SweepFees(s).value.fees == 0 && Transferred(s.token, SweepFees(s).value.token, SELF, s.config.admin, s.fees)
  {}

  // ----- What is refused, and how -----------------------------------------------------------

  lemma InitializeRefusals(config: Config, token: Balances, now: nat)
    ensures Initialize(config, token, now).Success? <==> config.feeBps <= 500 && 90 <= config.lockOffset
    ensures 500 < config.feeBps ==> Initialize(config, token, now) == Failure(FeeTooHigh)
  {}

  lemma CreateRefusals(s: State, asset: Symbol, tick: Option<PriceData>)
    requires s.counter < U64_MAX
    ensures var r := CreateRound(s, asset, tick);
            if asset != "BTC" && asset != "ETH" && asset != "SOL" && asset != "XLM" then r == Failure(InvalidAsset)
            else if tick.None? then r == Failure(RoundNotFound)
            else if U64_MAX < tick.value.timestamp + 300 || U64_MAX < tick.value.timestamp + s.config.lockOffset
            then r == Failure(Overflow)
            else if tick.value.timestamp == LastStrike(s, asset) then r == Failure(DuplicateRound)
            else r.Success?
  {}

  // A bet by a user, checked in this order.
  lemma BetRefusals(s: State, user: Address, id: nat, side: Side, amount: int)
    requires user != SELF
    ensures var r := PlaceBet(s, user, id, side, amount);
            if amount < s.config.minBet then r == Failure(BetTooSmall)
            else if id !in s.rounds then r == Failure(RoundNotFound)
            else if s.rounds[id].status == Settled || s.rounds[id].ticket.lockTs <= s.now then r == Failure(RoundLocked)
            else if (id, user) in s.positions then r == Failure(AlreadyBet)
            else r.Success? || r.error == Overflow || r.error.TokenFailed?
  {}

  lemma SettleRefusals(feed: Feed<Symbol>, s: State, id: nat)
    ensures var r := Settle(feed, s, id);
            if id !in s.rounds then r == Failure(RoundNotFound)
            else if s.rounds[id].status != Open then r == Failure(AlreadySettled)
            else if s.now < s.rounds[id].ticket.settleTs then r == Failure(TooEarly)
            else r.Success? || r.error == Overflow
  {}

  // A claim of nothing succeeds and pays nothing; only a batch can be too large.
  lemma ClaimRefusals(s: State, user: Address, id: nat, ids: seq<nat>)
    requires user != SELF
    ensures Claim(s, user, id).Success? || Claim(s, user, id).error == Overflow || Claim(s, user, id).error.TokenFailed?
    ensures ClaimMany(s, user, ids) == Failure(ClaimBatchTooLarge) <==> 20 < |ids|
  {}

  lemma SetterRefusals(s: State, value: nat)
    ensures 500 < value ==> SetFeeBps(s, value) == Failure(FeeTooHigh)
    ensures value < 90 ==> SetLockOffset(s, value) == Failure(LockOffsetTooSmall)
  {}
}

// What the Ninetails market tells its users, in plain numbers: who wins at
// which price, what each position is paid, whose money moves.

module NinetailsRules {
  import opened Wrappers
  import opened Checked
  import opened Fees
  import opened Frames
  import opened Sums
  import opened Token
  import opened Oracle
  import opened NinetailsMath
  import opened NinetailsPay
  import opened Ninetails
  import opened NinetailsConservation
  import opened NinetailsSolvency
  import opened NinetailsSettlement
  import opened NinetailsBettors

  // ----- The outcome ------------------------------------------------------------------------

  // Above wins at a price over the strike, Below at one under it; an equal or
  // missing price or an empty pool voids the round.
  predicate Judged(r: Round, price: Option<PriceData>) {
    var live := 0 < r.poolAbove && 0 < r.poolBelow;
    && (r.outcome == AboveWon <==> live && price.Some? && price.value.price > r.strike)
    && (r.outcome == BelowWon <==> live && price.Some? && price.value.price < r.strike)
    && (r.outcome == Void <==> !live || price.None? || price.value.price == r.strike)
    && (price.Some? ==> r.settlePrice == price.value.price)
  }

  function Losers(r: Round): nat {
    if r.outcome == AboveWon then r.poolBelow else r.poolAbove
  }

  // A settlement judges the round by the oracle's price for its own settle time
  // and accrues the fee on the losing pool.
  predicate SettlesRightly(feed: Feed<Symbol>, s: State, s': State, id: nat) {
    && id in s.rounds && s.rounds[id].status == Open && s.rounds[id].settleTs <= s.now
    && id in s'.rounds && s'.rounds[id].status == Settled && SameBooks(s.rounds[id], s'.rounds[id])
    && Judged(s'.rounds[id], feed(s.config.asset, s.rounds[id].settleTs))
    && (if s'.rounds[id].outcome == Void then s'.fees == s.fees
        else IsFee(s'.fees - s.fees, Losers(s'.rounds[id]), s.config.feeBps))
    && s'.token == s.token && s'.positions == s.positions
  }

  lemma SettleJudges(feed: Feed<Symbol>, s: State, id: nat)
    requires Settle(feed, s, id).Success?
    ensures SettlesRightly(feed, s, Settle(feed, s, id).value, id)
  {
    FeeIs(LosingPool(Settle(feed, s, id).value.rounds[id]), s.config.feeBps);
  }

  lemma {:induction false} AssetStays(feed: Feed<Symbol>, w: World, actions: seq<Action>)
    ensures Run(feed, w, actions).s.config.asset == w.s.config.asset
    decreases |actions|
  {
    if actions == [] {
    } else {
      AssetStep(feed, w, actions[0]);
      AssetStays(feed, Next(feed, w, actions[0]), actions[1..]);
    }
  }

  lemma AssetStep(feed: Feed<Symbol>, w: World, a: Action)
    ensures Next(feed, w, a).s.config.asset == w.s.config.asset
  {}

  // In every run from deployment a settled round has the outcome the oracle's
  // price for its settle time gives it, whoever settled it and whenever.
  lemma OutcomeFollowsPrice(feed: Feed<Symbol>, config: Config, token: Balances, now: nat, actions: seq<Action>,
                            id: nat)
    requires Initialize(config, token, now).Success?
    requires var s := Run(feed, Deployed(config, token, now), actions).s;
             id in s.rounds && s.rounds[id].status == Settled
    ensures var r := Run(feed, Deployed(config, token, now), actions).s.rounds[id];
            Judged(r, feed(config.asset, r.settleTs))
  {
    var w := Deployed(config, token, now);
    AlwaysFollows(feed, w, actions, id, []);
    AssetStays(feed, w, actions);
  }

  // ----- What a position is paid ------------------------------------------------------------

  // The payout of a stake with this boost in a settled round at this fee.
  predicate RightlyPaid(r: Round, feeBps: nat, mine: Side, stake: nat, b: nat, pay: int) {
    var lost := Losers(r);
    var fee := lost * feeBps / 10_000;
    if r.outcome == Void then pay == stake
    else if mine == (if r.outcome == AboveWon then Above else Below) then
      0 <= lost - fee &&
      IsBonus(pay - stake, lost - fee, b, if mine == Above then r.boostedAbove else r.boostedBelow,
              r.boostedAbove + r.boostedBelow)
    else
      0 <= lost - fee && IsRefund(pay, lost - fee, b, r.boostedAbove + r.boostedBelow)
  }

  lemma PayoutIsRight(r: Round, feeBps: nat, p: Position, mine: Side, stake: nat, b: nat)
    requires feeBps <= MAX_FEE_BPS && p.side == mine && p.amount == stake && p.boosted == b && Weighs(r, p)
    ensures RightlyPaid(r, feeBps, mine, stake, b, Payout(r, feeBps, p))
  {
    if r.outcome != Void {
      FeeDivides(Losers(r), feeBps);
      var d := Losers(r) - Fee(Losers(r), feeBps);
      if Wins(mine, r.outcome) {
        WinnerPayIs(stake, d, b, SideBoosted(r), r.globalBoosted);
      } else {
        LoserPayIs(d, b, r.globalBoosted);
      }
    }
  }

  // The position's boost is part of its side's.
  predicate Weighs(r: Round, p: Position) {
    && r.globalBoosted == r.boostedAbove + r.boostedBelow
    && (r.outcome != Void ==> 0 < r.boostedAbove && 0 < r.boostedBelow)
    && p.boosted <= if p.side == Above then r.boostedAbove else r.boostedBelow
  }

  lemma CoveredWeighs(r: Round, ps: Positions, id: nat, u: Address)
    requires Covered(r, ps, id) && (r.outcome != Void ==> Decided(r)) && (id, u) in ps
    ensures Weighs(r, ps[(id, u)])
  {
    if ps[(id, u)].side == Above {
      TotalAtLeast(ps, id, u, BoostOn(Above));
    } else {
      TotalAtLeast(ps, id, u, BoostOn(Below));
    }
  }

  lemma SettledWeighs(w: World, id: nat, u: Address)
    requires Shape(w) && id in w.s.rounds && w.s.rounds[id].status == Settled && (id, u) in w.s.positions
    ensures Weighs(w.s.rounds[id], w.s.positions[(id, u)])
  {
    assert RoundInv(w, id);
    CoveredWeighs(w.s.rounds[id], w.s.positions, id, u);
  }

  // Stake times time to the lock.
  function Weight(b: Wager<Side>, lockTs: nat): nat {
    if b.ts < lockTs then b.amount * (lockTs - b.ts) else 0
  }

  function Weighted(side: Side, lockTs: nat): Wager<Side> -> int {
    (b: Wager<Side>) => if b.side == side then Weight(b, lockTs) else 0
  }

  lemma BoostsAreWeighted(feed: Feed<Symbol>, s: State, r: Round, log: seq<Wager<Side>>)
    requires Determined(feed, s, r, log)
    ensures r.boostedAbove == ListSum(log, Weighted(Above, r.lockTs))
    ensures r.boostedBelow == ListSum(log, Weighted(Below, r.lockTs))
  {
    ListSumSame(log, Boosts(Above, r.lockTs), Weighted(Above, r.lockTs));
    ListSumSame(log, Boosts(Below, r.lockTs), Weighted(Below, r.lockTs));
  }

  lemma BetTerms(feed: Feed<Symbol>, s: State, r: Round, log: seq<Wager<Side>>, b: Wager<Side>, p: Position)
    requires Determined(feed, s, r, log) && b in log && Made(Some(b), p, r.lockTs)
    ensures b.ts < r.lockTs && p.side == b.side && p.amount == b.amount && p.boosted == Weight(b, r.lockTs)
  {}

  lemma WeighsInRun(feed: Feed<Symbol>, config: Config, token: Balances, now: nat, actions: seq<Action>, id: nat,
                    u: Address)
    requires Initialize(config, token, now).Success? && Valid(token)
    requires var s := Run(feed, Deployed(config, token, now), actions).s;
             id in s.rounds && s.rounds[id].status == Settled && (id, u) in s.positions
    ensures var s := Run(feed, Deployed(config, token, now), actions).s;
            Weighs(s.rounds[id], s.positions[(id, u)])
  {
    FreshIsSolvent(config, token, now);
    AlwaysShaped(feed, Deployed(config, token, now), actions);
    SettledWeighs(Run(feed, Deployed(config, token, now), actions), id, u);
  }

  lemma DeterminedInRun(feed: Feed<Symbol>, config: Config, token: Balances, now: nat, actions: seq<Action>, id: nat)
    requires Initialize(config, token, now).Success?
    requires id in Run(feed, Deployed(config, token, now), actions).s.rounds
    ensures var s := Run(feed, Deployed(config, token, now), actions).s;
            Determined(feed, s, s.rounds[id], LogOfRun(feed, Deployed(config, token, now), actions, id, []))
  {
    AlwaysFollows(feed, Deployed(config, token, now), actions, id, []);
  }

  // The round and the bet behind a position, made before the lock.
  lemma BetBehind(feed: Feed<Symbol>, config: Config, token: Balances, now: nat, actions: seq<Action>, id: nat,
                  u: Address) returns (r: Round, b: Wager<Side>, p: Position)
    requires Initialize(config, token, now).Success? && Valid(token)
    requires var s := Run(feed, Deployed(config, token, now), actions).s;
             id in s.rounds && s.rounds[id].status == Settled && (id, u) in s.positions
    ensures var s := Run(feed, Deployed(config, token, now), actions).s;
            r == s.rounds[id] && p == s.positions[(id, u)]
    ensures var log := LogOfRun(feed, Deployed(config, token, now), actions, id, []);
            && LastBet(log, u) == Some(b) && b.ts < r.lockTs
            && r.boostedAbove == ListSum(log, Weighted(Above, r.lockTs))
            && r.boostedBelow == ListSum(log, Weighted(Below, r.lockTs))
    ensures Weighs(r, p) && p.side == b.side && p.amount == b.amount && p.boosted == Weight(b, r.lockTs)
  {
    var log := LogOfRun(feed, Deployed(config, token, now), actions, id, []);
    var s := Run(feed, Deployed(config, token, now), actions).s;
    r, p := s.rounds[id], s.positions[(id, u)];
    MadeInRun(feed, config, token, now, actions, id, u);
    LastBetIn(log, u);
    b := LastBet(log, u).value;
    DeterminedInRun(feed, config, token, now, actions, id);
    BetTerms(feed, s, r, log, b, p);
    BoostsAreWeighted(feed, s, r, log);
    WeighsInRun(feed, config, token, now, actions, id, u);
  }

  // In every run from deployment each position of a settled round is paid by
  // these numbers, its boost being its stake times the time its bet came before
  // the lock, out of the boosts of all accepted bets.
  lemma PositionsAreRightlyPaid(feed: Feed<Symbol>, config: Config, token: Balances, now: nat, actions: seq<Action>,
                                id: nat, u: Address, feeBps: nat) returns (r: Round, b: Wager<Side>, pay: int)
    requires Initialize(config, token, now).Success? && Valid(token) && feeBps <= MAX_FEE_BPS
    requires var s := Run(feed, Deployed(config, token, now), actions).s;
             id in s.rounds && s.rounds[id].status == Settled && (id, u) in s.positions
    ensures var s := Run(feed, Deployed(config, token, now), actions).s;
            r == s.rounds[id] && pay == Payout(r, feeBps, s.positions[(id, u)])
    ensures var log := LogOfRun(feed, Deployed(config, token, now), actions, id, []);
            && LastBet(log, u) == Some(b) && b.ts < r.lockTs
            && r.boostedAbove == ListSum(log, Weighted(Above, r.lockTs))
            && r.boostedBelow == ListSum(log, Weighted(Below, r.lockTs))
    ensures RightlyPaid(r, feeBps, b.side, b.amount, Weight(b, r.lockTs), pay)
  {
    var p: Position;
    r, b, p := BetBehind(feed, config, token, now, actions, id, u);
    pay := Payout(r, feeBps, p);
    PayoutIsRight(r, feeBps, p, b.side, b.amount, Weight(b, r.lockTs));
  }

  // ----- Whose money moves ------------------------------------------------------------------

  // A claim pays the claimant out of the contract's balance, and nobody else.
  lemma ClaimPaysClaimant(s: State, user: Address, id: nat)
    requires Claim(s, user, id).Success? && 0 <= Payout(s.rounds[id], s.config.feeBps, s.positions[(id, user)])
    ensures var (s', paid) := Claim(s, user, id).value;
            && user != SELF && Transferred(s.token, s'.token, SELF, user, paid)
            && paid == Payout(s.rounds[id], s.config.feeBps, s.positions[(id, user)])
  {}

  ghost predicate PaysRightly(s: State, s': State, user: Address, id: nat, paid: int) {
    && id in s.rounds && s.rounds[id].status == Settled && (id, user) in s.positions && !s.positions[(id, user)].claimed
    && Transferred(s.token, s'.token, SELF, user, paid)
    && (var p := s.positions[(id, user)];
        && RightlyPaid(s.rounds[id], s.config.feeBps, p.side, p.amount, p.boosted, paid)
        && s' == s.(positions := s.positions[(id, user) := p.(claimed := true)], token := s'.token))
  }

  lemma ClaimFinds(s: State, user: Address, id: nat)
    requires Claim(s, user, id).Success?
    ensures id in s.rounds && s.rounds[id].status == Settled && (id, user) in s.positions
    ensures !s.positions[(id, user)].claimed
    ensures var p := s.positions[(id, user)];
            var s' := Claim(s, user, id).value.0;
            s' == s.(positions := s.positions[(id, user) := p.(claimed := true)], token := s'.token)
  {}

  lemma ClaimAmount(w: World, user: Address, id: nat)
    requires Shape(w) && id in w.s.rounds && w.s.rounds[id].status == Settled && (id, user) in w.s.positions
    ensures var (r, p) := (w.s.rounds[id], w.s.positions[(id, user)]);
            var pay := Payout(r, w.s.config.feeBps, p);
            0 <= pay && RightlyPaid(r, w.s.config.feeBps, p.side, p.amount, p.boosted, pay)
  {
    var r, p := w.s.rounds[id], w.s.positions[(id, user)];
    SettledWeighs(w, id, user);
    PayoutNonNeg(r, w.s.config.feeBps, p);
    PayoutIsRight(r, w.s.config.feeBps, p, p.side, p.amount, p.boosted);
  }

  lemma ClaimIsRight(w: World, user: Address, id: nat)
    ensures Shape(w) && Claim(w.s, user, id).Success? ==>
              var (s', paid) := Claim(w.s, user, id).value;
              PaysRightly(w.s, s', user, id, paid)
  {
    if Shape(w) && Claim(w.s, user, id).Success? {
      ClaimFinds(w.s, user, id);
      ClaimAmount(w, user, id);
      ClaimPaysClaimant(w.s, user, id);
    }
  }

  // The round a tick of the oracle opens: struck at its price, locked an offset
  // and settled an interval after its timestamp.
  function Agreed(tick: PriceData, c: Config): Round {
    Round(tick.price, tick.timestamp, tick.timestamp + c.lockOffset, tick.timestamp + c.interval,
          0, 0, 0, 0, 0, Open, Void, 0)
  }

  // Exactly which bets are accepted, and what one costs.
  lemma BetAcceptedExactlyWhen(s: State, user: Address, id: nat, side: Side, amount: int)
    requires Valid(s.token)
    ensures PlaceBet(s, user, id, side, amount).Success? <==>
              id in s.rounds &&
              var r := s.rounds[id];
              && user != SELF && s.config.minBet <= amount && 0 <= amount <= Bal(s.token, user)
              && s.now < r.lockTs && r.status == Open && (id, user) !in s.positions
              && Bal(s.token, SELF) + amount <= I128_MAX
              && TotalsFit(r)
              && (if side == Above then r.poolAbove else r.poolBelow) + amount <= I128_MAX
              && r.globalBoosted + amount * (r.lockTs - s.now) <= I128_MAX
              && (if side == Above then r.boostedAbove else r.boostedBelow) + amount * (r.lockTs - s.now) <= I128_MAX
  {
    if 0 <= amount && id in s.rounds && s.now < s.rounds[id].lockTs {
      MulMono(amount, 0, s.rounds[id].lockTs - s.now);
    }
  }

  // A bet takes exactly the stake from the bettor and records it with its boost.
  ghost predicate TakesRightly(s: State, s': State, user: Address, id: nat, side: Side, amount: int) {
    && id in s.rounds && id in s'.rounds && s.now < s.rounds[id].lockTs && s.config.minBet <= amount
    && Transferred(s.token, s'.token, user, SELF, amount)
    && (id, user) !in s.positions
    && s'.positions == s.positions[(id, user) := Position(side, amount, amount * (s.rounds[id].lockTs - s.now), false)]
  }

  lemma BetTakes(s: State, user: Address, id: nat, side: Side, amount: int)
    requires PlaceBet(s, user, id, side, amount).Success?
    ensures TakesRightly(s, PlaceBet(s, user, id, side, amount).value, user, id, side, amount)
  {}

  lemma SweepPaysAdmin(s: State)
    requires SweepFees(s).Success? && 0 <= s.fees
    ensures SweepFees(s).value.fees == 0 && Transferred(s.token, SweepFees(s).value.token, SELF, s.config.admin, s.fees)
  {}

  // ----- What is refused, and how -----------------------------------------------------------

  lemma InitializeRefusals(config: Config, token: Balances, now: nat)
    ensures Initialize(config, token, now).Success? <==> config.feeBps <= 500 && 10 <= config.lockOffset
    ensures 500 < config.feeBps ==> Initialize(config, token, now) == Failure(FeeTooHigh)
  {}

  lemma CreateRefusals(s: State, tick: Option<PriceData>)
    ensures CreateRound(s, tick) == Failure(OracleNoPrice) <==> tick.None?
    ensures CreateRound(s, tick) == Failure(DuplicateRound) <==> tick.Some? && tick.value.timestamp == s.lastStrikeTs
    ensures tick.Some? && tick.value.timestamp != s.lastStrikeTs ==>
              (CreateRound(s, tick).Success? <==>
                 && s.counter + 1 <= U64_MAX && tick.value.timestamp + s.config.lockOffset <= U64_MAX
                 && tick.value.timestamp + s.config.interval <= U64_MAX)
  {}

  // A bet by a user, checked in this order.
  lemma BetRefusals(s: State, user: Address, id: nat, side: Side, amount: int)
    requires user != SELF
    ensures var r := PlaceBet(s, user, id, side, amount);
            if amount < s.config.minBet then r == Failure(BetTooSmall)
            else if id !in s.rounds then r == Failure(RoundNotFound)
            else if s.rounds[id].status == Settled || s.rounds[id].lockTs <= s.now then r == Failure(RoundLocked)
            else if (id, user) in s.positions then r == Failure(AlreadyBet)
            else r.Success? || r.error == Overflow || r.error.TokenFailed?
  {}

  lemma SettleRefusals(feed: Feed<Symbol>, s: State, id: nat)
    ensures var r := Settle(feed, s, id);
            if id !in s.rounds then r == Failure(RoundNotFound)
            else if s.rounds[id].status != Open then r == Failure(AlreadySettled)
            else if s.now < s.rounds[id].settleTs then r == Failure(TooEarly)
            else r.Success? || r.error == Overflow
  {}

  // A position is paid once, after settlement.
  lemma ClaimRefusals(s: State, user: Address, id: nat)
    requires user != SELF
    ensures var r := Claim(s, user, id);
            if id !in s.rounds then r == Failure(RoundNotFound)
            else if s.rounds[id].status == Open then r == Failure(RoundNotSettled)
            else if (id, user) !in s.positions || s.positions[(id, user)].claimed then r == Failure(NothingToClaim)
            else r.Success? || r.error == Overflow || r.error.TokenFailed?
  {}

  lemma SetterRefusals(s: State, value: nat)
    ensures 500 < value ==> SetFeeBps(s, value) == Failure(FeeTooHigh)
    ensures value < 10 ==> SetLockOffset(s, value) == Failure(LockOffsetTooSmall)
    ensures 10 <= value && s.config.interval <= value ==> SetLockOffset(s, value) == Failure(LockOffsetTooLate)
    ensures value <= s.config.lockOffset ==> SetInterval(s, value) == Failure(LockOffsetTooLate)
  {}
}

// The Ninetails contract as an object whose entry points update its storage.
// Each entry point is proved to be one step of the market's runs, so what holds
// of every run holds of the object.

module NinetailsContract {
  import opened Wrappers
  import opened Checked
  import opened Token
  import opened Oracle
  import opened NinetailsMath
  import opened NinetailsPay
  import opened Ninetails
  import opened NinetailsSolvency
  import opened NinetailsRules

  class Market {
    const feed: Feed<Symbol>
    var config: Config
    var counter: nat
    var fees: int
    var lastStrikeTs: nat
    var rounds: map<nat, Round>
    var positions: Positions
    var token: Balances
    var now: nat
    ghost var feeAtSettle: map<nat, nat>

    ghost function W(): World
      reads this
    {
      World(State(config, counter, fees, lastStrikeTs, rounds, positions, token, now), feeAtSettle)
    }

    // A call does what the step says and reports how it ended.
    ghost predicate Took(before: World, a: Action, ok: bool)
      reads this
    {
      && W() == Next(feed, before, a)
      && ok == Step(feed, before.s, a).Success?
    }

    // A call at a fee its round can afford keeps a solvent market solvent.
    ghost predicate Kept(before: World, a: Action)
      reads this
    {
      Inv(before) && FeeSuffices(before, a) ==> Inv(W())
    }

    constructor (feed: Feed<Symbol>, config: Config, token: Balances, now: nat)
      requires config.feeBps <= 500 && 10 <= config.lockOffset
      ensures this.feed == feed
      ensures Initialize(config, token, now) == Success(W().s)
      ensures Valid(token) ==> Inv(W())
    {
      this.feed, this.config, this.token, this.now := feed, config, token, now;
      counter, fees, lastStrikeTs := 0, 0, 0;
      rounds, positions, feeAtSettle := map[], map[], map[];
      new;
      if Valid(token) {
        FreshIsSolvent(config, token, now);
      }
    }

    method CreateRound(tick: Option<PriceData>) returns (r: Result<nat, Error>)
      modifies this
      ensures Took(old(W()), DoCreate(tick), r.Success?)
      ensures Kept(old(W()), DoCreate(tick))
      ensures r.Success? ==> r.value == counter == old(counter) + 1 && lastStrikeTs == tick.value.timestamp
      ensures r.Success? ==> tick.Some? && rounds == old(rounds)[counter := Agreed(tick.value, config)]
      ensures r.Failure? ==> Ninetails.CreateRound(old(W().s), tick) == Failure(r.error)
    {
      if tick.None? { return Failure(OracleNoPrice); }
      var strikeTs := tick.value.timestamp;
      if lastStrikeTs == strikeTs { return Failure(DuplicateRound); }
      var id := counter + 1;
      var lockTs, settleTs := strikeTs + config.lockOffset, strikeTs + config.interval;
      if U64_MAX < id || U64_MAX < lockTs || U64_MAX < settleTs { return Failure(Overflow); }
      counter := id;
      rounds := rounds[id := Round(tick.value.price, strikeTs, lockTs, settleTs, 0, 0, 0, 0, 0, Open, Void, 0)];
      lastStrikeTs := strikeTs;
      StepKept(feed, old(W()), DoCreate(tick));
      return Success(id);
    }

    method PlaceBet(user: Address, id: nat, side: Side, amount: int) returns (r: Result<(), Error>)
      modifies this
      ensures Took(old(W()), DoBet(user, id, side, amount), r.Success?)
      ensures Kept(old(W()), DoBet(user, id, side, amount))
      ensures r.Success? ==> TakesRightly(old(W().s), W().s, user, id, side, amount)
      ensures r.Failure? ==> Ninetails.PlaceBet(old(W().s), user, id, side, amount) == Failure(r.error)
    {
      if user == SELF { return Failure(Unauthorized); }
      if amount < config.minBet { return Failure(BetTooSmall); }
      if id !in rounds { return Failure(RoundNotFound); }
      var round := rounds[id];
      if round.lockTs <= now { return Failure(RoundLocked); }
      if round.status != Open { return Failure(RoundLocked); }
      if (id, user) in positions { return Failure(AlreadyBet); }
      var boosted := BoostedShares(amount, now, round.lockTs);
      if boosted.None? { return Failure(Overflow); }
      var paid := Transfer(token, user, SELF, amount);
      if paid.Failure? { return Failure(TokenFailed(paid.error)); }
      match side {
        case Above =>
          round := round.(poolAbove := round.poolAbove + amount, boostedAbove := round.boostedAbove + boosted.value);
        case Below =>
          round := round.(poolBelow := round.poolBelow + amount, boostedBelow := round.boostedBelow + boosted.value);
      }
      round := round.(globalBoosted := round.globalBoosted + boosted.value);
      if !TotalsFit(round) { return Failure(Overflow); }
      assert AddStake(rounds[id], side, amount, boosted.value) == Some(round);
      token := paid.value;
      rounds := rounds[id := round];
      positions := positions[(id, user) := Position(side, amount, boosted.value, false)];
      StepKept(feed, old(W()), DoBet(user, id, side, amount));
      BetTakes(old(W().s), user, id, side, amount);
      return Success(());
    }

    method Settle(id: nat) returns (r: Result<(), Error>)
      modifies this
      ensures Took(old(W()), DoSettle(id), r.Success?)
      ensures Kept(old(W()), DoSettle(id))
      ensures r.Success? ==> SettlesRightly(feed, old(W().s), W().s, id)
      ensures r.Failure? ==> Ninetails.Settle(feed, old(W().s), id) == Failure(r.error)
    {
      if id !in rounds { return Failure(RoundNotFound); }
      var round := rounds[id];
      if round.status == Settled { return Failure(AlreadySettled); }
      if now < round.settleTs { return Failure(TooEarly); }
      var price := feed(config.asset, round.settleTs);
      var outcome := Void;
      if price.Some? {
        round := round.(settlePrice := price.value.price);
        if price.value.price > round.strike {
          outcome := AboveWon;
        } else if price.value.price < round.strike {
          outcome := BelowWon;
        }
      }
      if round.poolAbove == 0 || round.poolBelow == 0 {
        outcome := Void;
      }
      var newFees := fees;
      if outcome != Void {
        var losingPool := if outcome == AboveWon then round.poolBelow else round.poolAbove;
        var fee := FeeAmountInSteps(losingPool, config.feeBps);
        if fee.None? { return Failure(Overflow); }
        newFees := fees + fee.value;
      }
      if !InI128(newFees) { return Failure(Overflow); }
      fees := newFees;
      rounds := rounds[id := round.(outcome := outcome, status := Settled)];
      feeAtSettle := feeAtSettle[id := config.feeBps];
      StepKept(feed, old(W()), DoSettle(id));
      SettleJudges(feed, old(W().s), id);
      return Success(());
    }

    method ComputePayout(round: Round, pos: Position) returns (payout: Option<int>)
      ensures payout == CheckedPayout(round, config.feeBps, pos)
      ensures payout.Some? ==> payout.value == Payout(round, config.feeBps, pos)
    {
      if round.outcome == Void { return Some(pos.amount); }
      var losingPool := if round.outcome == AboveWon then round.poolBelow else round.poolAbove;
      var fee := FeeAmountInSteps(losingPool, config.feeBps);
      if fee.None? { return None; }
      var rest := CheckedSub(losingPool, fee.value);
      if rest.None? { return None; }
      var distributed := rest.value;
      if Wins(pos.side, round.outcome) {
        var sideBoosted := if round.outcome == AboveWon then round.boostedAbove else round.boostedBelow;
        payout := WinnerPayoutInSteps(pos.amount, distributed, pos.boosted, sideBoosted, round.globalBoosted);
      } else {
        payout := LoserPayoutInSteps(distributed, pos.boosted, round.globalBoosted);
      }
    }

    method Claim(user: Address, id: nat) returns (r: Result<int, Error>)
      modifies this
      ensures Took(old(W()), DoClaim(user, id), r.Success?)
      ensures Kept(old(W()), DoClaim(user, id))
      ensures old(Inv(W())) && FeeSuffices(old(W()), DoClaim(user, id)) ==>
                r != Failure(TokenFailed(InsufficientBalance))
      ensures r.Success? ==> id in rounds && (id, user) in positions
                             && r.value == Payout(rounds[id], config.feeBps, positions[(id, user)])
                             && positions[(id, user)].claimed
      ensures r.Success? && 0 <= r.value ==> Transferred(old(token), token, SELF, user, r.value)
      ensures r.Failure? ==> Ninetails.Claim(old(W().s), user, id) == Failure(r.error)
      ensures r.Success? && old(Shape(W())) ==> PaysRightly(old(W().s), W().s, user, id, r.value)
    {
      ghost var w := W();
      StepKept(feed, w, DoClaim(user, id));
      ClaimIsRight(w, user, id);
      if user == SELF { return Failure(Unauthorized); }
      if id !in rounds { return Failure(RoundNotFound); }
      var round := rounds[id];
      if round.status != Settled { return Failure(RoundNotSettled); }
      if (id, user) !in positions { return Failure(NothingToClaim); }
      var pos := positions[(id, user)];
      if pos.claimed { return Failure(NothingToClaim); }
      var payout := ComputePayout(round, pos);
      if payout.None? { return Failure(Overflow); }
      var paid := token;
      if payout.value > 0 {
        var moved := Transfer(token, SELF, user, payout.value);
        if moved.Failure? { return Failure(TokenFailed(moved.error)); }
        paid := moved.value;
      }
      positions := positions[(id, user) := pos.(claimed := true)];
      token := paid;
      return Success(payout.value);
    }

    method SweepFees() returns (r: Result<(), Error>)
      modifies this
      ensures Took(old(W()), DoSweep, r.Success?)
      ensures Kept(old(W()), DoSweep)
      ensures old(Inv(W())) && FeeSuffices(old(W()), DoSweep) ==>
                r != Failure(TokenFailed(InsufficientBalance))
      ensures r.Success? && 0 <= old(fees) ==>
                fees == 0 && Transferred(old(token), token, SELF, config.admin, old(fees))
      ensures r.Failure? ==> Ninetails.SweepFees(old(W().s)) == Failure(r.error)
    {
      StepKept(feed, W(), DoSweep);
      if fees > 0 {
        var moved := Transfer(token, SELF, config.admin, fees);
        if moved.Failure? { return Failure(TokenFailed(moved.error)); }
        token := moved.value;
        fees := 0;
      }
      return Success(());
    }

    method SetFeeBps(bps: nat) returns (r: Result<(), Error>)
      modifies this`config
      ensures Took(old(W()), DoSetFee(bps), r.Success?)
      ensures Kept(old(W()), DoSetFee(bps))
      ensures r.Success? <==> bps <= 500
      ensures config == if r.Success? then old(config).(feeBps := bps) else old(config)
      ensures r.Failure? ==> Ninetails.SetFeeBps(old(W().s), bps) == Failure(r.error)
    {
      StepKept(feed, W(), DoSetFee(bps));
      if MAX_FEE_BPS < bps { return Failure(FeeTooHigh); }
      config := config.(feeBps := bps);
      return Success(());
    }

    method SetLockOffset(seconds: nat) returns (r: Result<(), Error>)
      modifies this`config
      ensures Took(old(W()), DoSetLockOffset(seconds), r.Success?)
      ensures Kept(old(W()), DoSetLockOffset(seconds))
      ensures r.Success? <==> 10 <= seconds < config.interval
      ensures config == if r.Success? then old(config).(lockOffset := seconds) else old(config)
      ensures r.Failure? ==> Ninetails.SetLockOffset(old(W().s), seconds) == Failure(r.error)
    {
      StepKept(feed, W(), DoSetLockOffset(seconds));
      if seconds < MIN_LOCK_OFFSET { return Failure(LockOffsetTooSmall); }
      if config.interval <= seconds { return Failure(LockOffsetTooLate); }
      config := config.(lockOffset := seconds);
      return Success(());
    }

    method SetOracleInterval(seconds: nat) returns (r: Result<(), Error>)
      modifies this`config
      ensures Took(old(W()), DoSetInterval(seconds), r.Success?)
      ensures Kept(old(W()), DoSetInterval(seconds))
      ensures r.Success? <==> config.lockOffset < seconds
      ensures config == if r.Success? then old(config).(interval := seconds) else old(config)
      ensures r.Failure? ==> Ninetails.SetInterval(old(W().s), seconds) == Failure(r.error)
    {
      StepKept(feed, W(), DoSetInterval(seconds));
      if seconds <= config.lockOffset { return Failure(LockOffsetTooLate); }
      config := config.(interval := seconds);
      return Success(());
    }
  }
}

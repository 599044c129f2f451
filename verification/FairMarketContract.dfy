// The fair market as an object whose entry points update its storage. Each
// entry point is proved to be one step of the market's runs.

module FairMarketContract {
  import opened Wrappers
  import opened Checked
  import opened Frames
  import opened Sums
  import opened Token
  import opened Oracle
  import opened FairMarket
  import opened FairMarketClaims
  import opened FairMarketSolvency
  import opened FairMarketRules

  class Market {
    const feed: Feed<Symbol>
    var config: Config
    var counter: nat
    var fees: int
    var strikeTs: map<Symbol, nat>
    var rounds: Rounds
    var positions: Positions
    var token: Balances
    var now: nat
    ghost var feeAtSettle: map<nat, nat>
    ghost var wagers: map<nat, seq<Wager<Side>>>

    ghost function W(): World
      reads this
    {
      World(State(config, counter, fees, strikeTs, rounds, positions, token, now), feeAtSettle, wagers)
    }

    // A call does what the step says and reports how it ended.
    ghost predicate Took(before: World, a: Action, ok: bool)
      reads this
    {
      && W() == Next(feed, before, a)
      && ok == Step(feed, before.s, a).Success?
    }

    // A call at a fee its round can afford keeps a solvent market solvent.
    ghost predicate Kept(before: World, a: Action)
      reads this
    {
      Inv(before) && FeeSuffices(before, a) ==> Inv(W())
    }

    constructor (feed: Feed<Symbol>, config: Config, token: Balances, now: nat)
      requires config.feeBps <= 500 && 90 <= config.lockOffset
      ensures this.feed == feed
      ensures Initialize(config, token, now) == Success(W().s)
      ensures Valid(token) ==> Inv(W())
    {
      this.feed, this.config, this.token, this.now := feed, config, token, now;
      counter, fees, strikeTs := 0, 0, map[];
      rounds, positions, feeAtSettle, wagers := map[], map[], map[], map[];
      new;
      if Valid(token) {
        FreshIsSolvent(config, token, now);
      }
    }

    method NextRoundId() returns (id: Option<nat>)
      modifies this`counter
      ensures id == FitU64(old(counter) + 1)
      ensures counter == if id.Some? then id.value else old(counter)
    {
      id := FitU64(counter + 1);
      if id.Some? {
        counter := id.value;
      }
    }

    method CreateRound(asset: Symbol, tick: Option<PriceData>) returns (r: Result<nat, Error>)
      modifies this
      ensures Took(old(W()), DoCreate(asset, tick), r.Success?)
      ensures Kept(old(W()), DoCreate(asset, tick))
      ensures r.Success? ==> r.value == counter == old(counter) + 1
      ensures r.Success? ==> tick.Some? && rounds == old(rounds)[counter := Agreed(asset, tick.value, config)]
      ensures r == Failure(InvalidAsset) <==> asset !in ["BTC", "ETH", "SOL", "XLM"]
      ensures r.Success? ==> strikeTs == old(strikeTs)[asset := tick.value.timestamp]
      ensures r.Failure? ==> FairMarket.CreateRound(old(W().s), asset, tick) == Failure(r.error)
    {
      if !ValidAsset(asset) { return Failure(InvalidAsset); }
      if tick.None? { return Failure(RoundNotFound); }
      var ts := tick.value.timestamp;
      var settleTs, lockTs := ts + ORACLE_INTERVAL, ts + config.lockOffset;
      if U64_MAX < settleTs || U64_MAX < lockTs { return Failure(Overflow); }
      var last := if asset in strikeTs then strikeTs[asset] else 0;
      if last == ts { return Failure(DuplicateRound); }
      var id := NextRoundId();
      if id.None? { return Failure(Overflow); }
      rounds := rounds[id.value := Round(Ticket(asset, tick.value.price, ts, settleTs, lockTs), 0, 0, Open, Void, 0)];
      strikeTs := strikeTs[asset := ts];
      StepKept(feed, old(W()), DoCreate(asset, tick));
      return Success(id.value);
    }

    method PlaceBet(user: Address, id: nat, side: Side, amount: int) returns (r: Result<(), Error>)
      modifies this
      ensures Took(old(W()), DoBet(user, id, side, amount), r.Success?)
      ensures Kept(old(W()), DoBet(user, id, side, amount))
      ensures r.Success? ==> TakesRightly(old(W().s), W().s, user, id, side, amount)
      ensures r.Failure? ==> FairMarket.PlaceBet(old(W().s), user, id, side, amount) == Failure(r.error)
    {
      if user == SELF { return Failure(Unauthorized); }
      if amount < config.minBet { return Failure(BetTooSmall); }
      if id !in rounds { return Failure(RoundNotFound); }
      var round := rounds[id];
      if round.ticket.lockTs <= now { return Failure(RoundLocked); }
      if round.status != Open { return Failure(RoundLocked); }
      if (id, user) in positions { return Failure(AlreadyBet); }
      var paid := Transfer(token, user, SELF, amount);
      if paid.Failure? { return Failure(TokenFailed(paid.error)); }
      match side {
        case Up => round := round.(poolUp := round.poolUp + amount);
        case Down => round := round.(poolDown := round.poolDown + amount);
      }
      if I128_MAX < round.poolUp || I128_MAX < round.poolDown { return Failure(Overflow); }
      assert AddStake(rounds[id], side, amount) == Some(round);
      token := paid.value;
      rounds := rounds[id := round];
      positions := positions[(id, user) := Position(side, amount, false)];
      wagers := wagers[id := (if id in wagers then wagers[id] else []) + [Wager(user, side, amount, now)]];
      StepKept(feed, old(W()), DoBet(user, id, side, amount));
      BetTakes(old(W().s), user, id, side, amount);
      return Success(());
    }

    // The comparisons of settle.
    method OutcomeAt(round: Round, price: Option<PriceData>) returns (outcome: Outcome)
      ensures outcome == Verdict(price, round.ticket.strike, round.poolUp, round.poolDown)
    {
      outcome := Void;
      if price.Some? {
        if price.value.price > round.ticket.strike {
          outcome := UpWon;
        } else if price.value.price < round.ticket.strike {
          outcome := DownWon;
        }
      }
      if round.poolUp == 0 || round.poolDown == 0 {
        outcome := Void;
      }
    }

    method StoreSettled(id: nat, round: Round, newFees: int)
      modifies this`fees, this`rounds, this`feeAtSettle
      ensures W() == old(W()).(s := old(W().s).(fees := newFees, rounds := old(rounds)[id := round]),
                               feeAtSettle := old(feeAtSettle)[id := config.feeBps])
    {
      fees := newFees;
      rounds := rounds[id := round];
      feeAtSettle := feeAtSettle[id := config.feeBps];
    }

    method Settle(id: nat) returns (r: Result<(), Error>)
      modifies this
      ensures Took(old(W()), DoSettle(id), r.Success?)
      ensures Kept(old(W()), DoSettle(id))
      ensures r.Success? ==> SettlesRightly(feed, old(W().s), W().s, id)
      ensures r.Failure? ==> FairMarket.Settle(feed, old(W().s), id) == Failure(r.error)
    {
      if id !in rounds { return Failure(RoundNotFound); }
      var round := rounds[id];
      if round.status == Settled { return Failure(AlreadySettled); }
      if now < round.ticket.settleTs { return Failure(TooEarly); }
      var price := feed(round.ticket.asset, round.ticket.settleTs);
      var outcome := OutcomeAt(round, price);
      if price.Some? {
        round := round.(settlePrice := price.value.price);
      }
      var newFees := fees;
      if outcome != Void {
        var fee := CheckedFee(round.poolUp + round.poolDown, config.feeBps);
        if fee.None? { return Failure(Overflow); }
        newFees := fees + fee.value;
      }
      if !InI128(newFees) { return Failure(Overflow); }
      assert SettledRound(rounds[id], price) == round.(outcome := outcome, status := Settled);
      StoreSettled(id, round.(outcome := outcome, status := Settled), newFees);
      assert FairMarket.Settle(feed, old(W().s), id) == Success(W().s);
      StepKept(feed, old(W()), DoSettle(id));
      SettleJudges(feed, old(W().s), id);
      return Success(());
    }

    // Marks a settled, unclaimed position of the user and says what it is due;
    // zero when there is none or it lost. None stands for a panic.
    method ComputeClaim(id: nat, user: Address) returns (due: Option<int>)
      modifies this`positions
      ensures due == Due(rounds, old(positions), config.feeBps, user, id)
      ensures positions == Mark(rounds, old(positions), user, id)
    {
      assert Mark(rounds, positions, user, id) == positions || (id in rounds && (id, user) in positions);
      if id !in rounds || rounds[id].status != Settled { return Some(0); }
      var round := rounds[id];
      if (id, user) !in positions { return Some(0); }
      var pos := positions[(id, user)];
      if pos.claimed {
        assert positions[(id, user) := pos] == positions;
        return Some(0);
      }
      positions := positions[(id, user) := pos.(claimed := true)];
      if round.outcome == Void { return Some(pos.amount); }
      if !Wins(pos.side, round.outcome) { return Some(0); }
      var total := round.poolUp + round.poolDown;
      var fee := CheckedFee(total, config.feeBps);
      if fee.None? { return None; }
      var distributed := total - fee.value;
      var winningPool := if round.outcome == UpWon then round.poolUp else round.poolDown;
      if !InI128(distributed) || !InI128(pos.amount * distributed) || winningPool == 0 { return None; }
      return Some(Quot(pos.amount * distributed, winningPool));
    }

    method Claim(user: Address, id: nat) returns (r: Result<int, Error>)
      modifies this
      ensures Took(old(W()), DoClaim(user, id), r.Success?)
      ensures Kept(old(W()), DoClaim(user, id))
      ensures old(Inv(W())) && FeeSuffices(old(W()), DoClaim(user, id)) ==>
                r != Failure(TokenFailed(InsufficientBalance))
      ensures r.Success? ==> r.value == Worth(rounds, old(positions), config.feeBps, user, id)
      ensures r.Success? && 0 <= r.value ==> Transferred(old(token), token, SELF, user, r.value)
      ensures r.Failure? ==> FairMarket.Claim(old(W().s), user, id) == Failure(r.error)
      ensures r.Success? && old(Shape(W())) ==> PaysRightly(old(W().s), W().s, user, id, r.value)
    {
      ghost var w := W();
      StepKept(feed, w, DoClaim(user, id));
      if Shape(w) && FairMarket.Claim(w.s, user, id).Success? {
        ClaimPaysClaimant(w, user, id);
      }
      if user == SELF { return Failure(Unauthorized); }
      var saved := positions;
      var due := ComputeClaim(id, user);
      if due.None? {
        positions := saved;
        return Failure(Overflow);
      }
      if due.value > 0 {
        var moved := Transfer(token, SELF, user, due.value);
        if moved.Failure? {
          positions := saved;
          return Failure(TokenFailed(moved.error));
        }
        token := moved.value;
      }
      return Success(due.value);
    }

    // The loop of a batch, one id after another; a panic partway takes back
    // what it marked.
    method ClaimAll(user: Address, ids: seq<nat>) returns (due: Option<int>)
      modifies this`positions
      ensures ClaimIds(rounds, old(positions), config.feeBps, user, ids)
           == if due.Some? then Some(Batch(positions, due.value)) else None
      ensures due.None? ==> positions == old(positions)
    {
      var saved, total := positions, 0;
      for i := 0 to |ids|
        invariant ClaimIds(rounds, saved, config.feeBps, user, ids[..i]) == Some(Batch(positions, total))
      {
        assert ids[..i + 1][..i] == ids[..i];
        var one := ComputeClaim(ids[i], user);
        if one.None? || !InI128(total + one.value) {
          BatchFails(rounds, saved, config.feeBps, user, ids, i + 1);
          positions := saved;
          return None;
        }
        total := total + one.value;
      }
      assert ids[..|ids|] == ids;
      return Some(total);
    }

    // A batch pays every distinct id once: the total is the sum of what each
    // was worth before the call.
    method ClaimMany(user: Address, ids: seq<nat>) returns (r: Result<int, Error>)
      modifies this
      ensures Took(old(W()), DoClaimMany(user, ids), r.Success?)
      ensures Kept(old(W()), DoClaimMany(user, ids))
      ensures old(Inv(W())) && FeeSuffices(old(W()), DoClaimMany(user, ids)) ==>
                r != Failure(TokenFailed(InsufficientBalance))
      ensures user != SELF ==> (r == Failure(ClaimBatchTooLarge) <==> 20 < |ids|)
      ensures r.Success? ==> r.value == Sum(Worths(rounds, old(positions), config.feeBps, user, ids))
      ensures r.Success? ==> positions == Claimed(rounds, old(positions), user, ids)
      ensures r.Success? && 0 <= r.value ==> Transferred(old(token), token, SELF, user, r.value)
      ensures r.Failure? ==> FairMarket.ClaimMany(old(W().s), user, ids) == Failure(r.error)
      ensures r.Success? && old(Shape(W())) ==> PaysBatchRightly(old(W().s), W().s, user, ids, r.value)
    {
      ghost var w := W();
      StepKept(feed, w, DoClaimMany(user, ids));
      if Shape(w) && FairMarket.ClaimMany(w.s, user, ids).Success? {
        ClaimManyPaysClaimant(w, user, ids);
      }
      if user == SELF { return Failure(Unauthorized); }
      if MAX_CLAIM_BATCH < |ids| { return Failure(ClaimBatchTooLarge); }
      var saved := positions;
      var total := ClaimAll(user, ids);
      if total.None? { return Failure(Overflow); }
      BatchPaysEachIdOnce(rounds, saved, config.feeBps, user, ids);
      if total.value > 0 {
        var moved := Transfer(token, SELF, user, total.value);
        if moved.Failure? {
          positions := saved;
          return Failure(TokenFailed(moved.error));
        }
        token := moved.value;
      }
      return Success(total.value);
    }

    method SweepFees() returns (r: Result<(), Error>)
      modifies this
      ensures Took(old(W()), DoSweep, r.Success?)
      ensures Kept(old(W()), DoSweep)
      ensures old(Inv(W())) && FeeSuffices(old(W()), DoSweep) ==>
                r != Failure(TokenFailed(InsufficientBalance))
      ensures r.Success? && 0 <= old(fees) ==>
                fees == 0 && Transferred(old(token), token, SELF, config.admin, old(fees))
      ensures r.Failure? ==> FairMarket.SweepFees(old(W().s)) == Failure(r.error)
    {
      StepKept(feed, W(), DoSweep);
      if fees > 0 {
        var moved := Transfer(token, SELF, config.admin, fees);
        if moved.Failure? { return Failure(TokenFailed(moved.error)); }
        token := moved.value;
        fees := 0;
      }
      return Success(());
    }

    method SetFeeBps(bps: nat) returns (r: Result<(), Error>)
      modifies this`config
      ensures Took(old(W()), DoSetFee(bps), r.Success?)
      ensures Kept(old(W()), DoSetFee(bps))
      ensures r.Success? <==> bps <= 500
      ensures config == if r.Success? then old(config).(feeBps := bps) else old(config)
      ensures r.Failure? ==> FairMarket.SetFeeBps(old(W().s), bps) == Failure(r.error)
    {
      StepKept(feed, W(), DoSetFee(bps));
      if MAX_FEE_BPS < bps { return Failure(FeeTooHigh); }
      config := config.(feeBps := bps);
      return Success(());
    }

    method SetLockOffset(seconds: nat) returns (r: Result<(), Error>)
      modifies this`config
      ensures Took(old(W()), DoSetLockOffset(seconds), r.Success?)
      ensures Kept(old(W()), DoSetLockOffset(seconds))
      ensures r.Success? <==> 90 <= seconds
      ensures config == if r.Success? then old(config).(lockOffset := seconds) else old(config)
      ensures r.Failure? ==> FairMarket.SetLockOffset(old(W().s), seconds) == Failure(r.error)
    {
      StepKept(feed, W(), DoSetLockOffset(seconds));
      if seconds < MIN_LOCK_OFFSET { return Failure(LockOffsetTooSmall); }
      config := config.(lockOffset := seconds);
      return Success(());
    }
  }

  // A batch that panics partway panics as a whole.
  lemma {:induction false} BatchFails(rounds: Rounds, ps: Positions, feeBps: nat, user: Address, ids: seq<nat>, n: nat)
    requires n <= |ids| && ClaimIds(rounds, ps, feeBps, user, ids[..n]).None?
    ensures ClaimIds(rounds, ps, feeBps, user, ids).None?
    decreases |ids| - n
  {
    if n == |ids| {
      assert ids[..n] == ids;
    } else {
      assert ids[..n + 1][..n] == ids[..n];
      BatchFails(rounds, ps, feeBps, user, ids, n + 1);
    }
  }
}

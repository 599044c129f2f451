// The epoch market as an object whose entry points update its storage. Each
// entry point is proved to be one step of the market's runs.

module EpochContract {
  import opened Wrappers
  import opened Checked
  import opened Fees
  import opened Token
  import opened Oracle
  import opened EpochMarket
  import opened EpochClaims
  import opened EpochAccounts
  import opened EpochRules

  // ----- The pipeline in stages --------------------------------------------------------

  // What settle_locked_round makes of the rounds: nothing unless the round is
  // locked.
  function SettledIn(rounds: Rounds, k: Key, closeTs: nat, price: Option<int>, c: Config): Rounds {
    if HasStatus(rounds, k, Locked) then rounds[k := Closed(rounds[k], closeTs, price, c)] else rounds
  }

  function CancelledIn(rounds: Rounds, k: Key): Rounds {
    if HasStatus(rounds, k, Open) then rounds[k := rounds[k].(status := Cancelled)] else rounds
  }

  function LockedIn(rounds: Rounds, k: Key, ts: nat, price: Option<int>): Rounds {
    if HasStatus(rounds, k, Open) then rounds[k := LockedAt(rounds[k], ts, price)] else rounds
  }

  // The round of two epochs ago, closed at the price of the epoch after it.
  function Late(feed: Feed<Asset>, a: Asset, e: nat, c: Config, rounds: Rounds): Rounds {
    if 2 <= e then
      var ts := (e - 1) * INTERVAL;
      SettledIn(rounds, (a, e - 2), ts, FetchPrice(feed, a, ts, c.staleness), c)
    else rounds
  }

  function Previous(feed: Feed<Asset>, a: Asset, e: nat, c: Config, rounds: Rounds): Rounds {
    if 1 <= e then
      var ts := e * INTERVAL;
      CancelledIn(SettledIn(rounds, (a, e - 1), ts, FetchPrice(feed, a, ts, c.staleness), c), (a, e - 1))
    else rounds
  }

  function Current(feed: Feed<Asset>, a: Asset, e: nat, c: Config, rounds: Rounds): Rounds {
    var ts := e * INTERVAL;
    Opened(LockedIn(rounds, (a, e), ts, FetchPrice(feed, a, ts, c.staleness)), (a, e + 1), ts)
  }

  function Staged(feed: Feed<Asset>, a: Asset, e: nat, c: Config, rounds: Rounds): Rounds {
    Current(feed, a, e, c, Previous(feed, a, e, c, Late(feed, a, e, c, rounds)))
  }

  // The fee a locked round adds to the treasury when it is closed at a time.
  function FeeIn(feed: Feed<Asset>, rounds: Rounds, k: Key, ts: nat, c: Config): Option<int> {
    if HasStatus(rounds, k, Locked) then ClosingFee(rounds[k], FetchPrice(feed, k.0, ts, c.staleness), c) else Some(0)
  }

  function LateFee(feed: Feed<Asset>, a: Asset, e: nat, c: Config, rounds: Rounds): Option<int> {
    if 2 <= e then FeeIn(feed, rounds, (a, e - 2), (e - 1) * INTERVAL, c) else Some(0)
  }

  function PreviousFee(feed: Feed<Asset>, a: Asset, e: nat, c: Config, rounds: Rounds): Option<int> {
    if 1 <= e then FeeIn(feed, rounds, (a, e - 1), e * INTERVAL, c) else Some(0)
  }

  predicate Admits(treasury: int, fee: Option<int>) {
    fee.Some? && TreasuryTakes(treasury, fee.value)
  }

  lemma LockedAtKey(rounds: Rounds, feed: Feed<Asset>, a: Asset, e: nat, c: Config, k: Key)
    requires k in rounds
    requires (a, e) !in rounds || rounds[(a, e)].status == Open
    ensures k in Previous(feed, a, e, c, Late(feed, a, e, c, rounds))
    ensures var out := LockedIn(Previous(feed, a, e, c, Late(feed, a, e, c, rounds)), (a, e), e * INTERVAL,
                                FetchPrice(feed, a, e * INTERVAL, c.staleness));
            (k in out && out[k] == if k.0 == a then Advanced(feed, a, e, c, k.1, rounds[k]) else rounds[k])
  {}

  lemma StagedKeys(feed: Feed<Asset>, a: Asset, e: nat, c: Config, rounds: Rounds)
    ensures var prev := Previous(feed, a, e, c, Late(feed, a, e, c, rounds));
            && prev.Keys == rounds.Keys
            && (forall ts, price :: LockedIn(prev, (a, e), ts, price).Keys == rounds.Keys)
  {}

  // Stage after stage, the storage comes out as if every round had been moved
  // at once.
  lemma StagesAdvance(feed: Feed<Asset>, s: State, a: Asset)
    requires !AlreadyRun(s, a)
    ensures Staged(feed, a, Epoch(s.now), s.config, s.rounds) == AdvancedRounds(feed, s, a)
  {
    var e, c, ts := Epoch(s.now), s.config, Epoch(s.now) * INTERVAL;
    var prev := Previous(feed, a, e, c, Late(feed, a, e, c, s.rounds));
    var locked := LockedIn(prev, (a, e), ts, FetchPrice(feed, a, ts, c.staleness));
    StagedKeys(feed, a, e, c, s.rounds);
    var moved := map k | k in s.rounds ::
      if k.0 == a then Advanced(feed, a, e, c, k.1, s.rounds[k]) else s.rounds[k];
    forall k | k in s.rounds
      ensures locked[k] == moved[k]
    {
      LockedAtKey(s.rounds, feed, a, e, c, k);
    }
    assert locked == moved;
  }

  // Closing the late round leaves the previous one's fee alone.
  lemma StagesFees(feed: Feed<Asset>, s: State, a: Asset)
    ensures var (e, c) := (Epoch(s.now), s.config);
            && LateFee(feed, a, e, c, s.rounds) == FeeDue(feed, s, a, e - 2, if 1 <= e then (e - 1) * INTERVAL else 0)
            && PreviousFee(feed, a, e, c, Late(feed, a, e, c, s.rounds)) == FeeDue(feed, s, a, e - 1, e * INTERVAL)
  {}

  // Stages and fees together are the step.
  lemma StagesPay(feed: Feed<Asset>, s: State, a: Asset)
    requires GenesisOf(s, a) == Running && !AlreadyRun(s, a)
    requires Epoch(s.now) == 0 ==> (a, 0) !in s.rounds
    ensures var (e, c) := (Epoch(s.now), s.config);
            var (late, fee) := (LateFee(feed, a, e, c, s.rounds),
                                PreviousFee(feed, a, e, c, Late(feed, a, e, c, s.rounds)));
            ExecuteRound(feed, s, a) ==
              if Admits(s.treasury, late) && Admits(s.treasury + late.value, fee)
              then Success(s.(rounds := Staged(feed, a, e, c, s.rounds),
                              treasury := s.treasury + late.value + fee.value))
              else Failure(Overflow)
  {
    StagesAdvance(feed, s, a);
    StagesFees(feed, s, a);
  }

  // ----- The bounded buffer --------------------------------------------------------------

  method PushUserEpoch(buf: seq<nat>, epoch: nat) returns (out: seq<nat>)
    ensures out == PushEpoch(buf, epoch)
  {
    for i := 0 to |buf|
      invariant epoch !in buf[..i]
    {
      if buf[i] == epoch { return buf; }
    }
    out := buf;
    if USER_EPOCHS_CAP <= |buf| {
      var newBuf := [];
      for i := 1 to |buf|
        invariant newBuf == buf[1..i]
      {
        newBuf := newBuf + [buf[i]];
      }
      out := newBuf;
    }
    out := out + [epoch];
  }

  class Market {
    const feed: Feed<Asset>
    var config: Config
    var genesis: map<Asset, Genesis>
    var rounds: Rounds
    var bets: Bets
    var userEpochs: map<(Asset, Address), seq<nat>>
    var treasury: int
    var token: Balances
    var now: nat

    ghost function S(): State
      reads this
    {
      State(config, genesis, rounds, bets, userEpochs, treasury, token, now)
    }

    // A call does what the step says and reports how it ended.
    ghost predicate Took(before: State, a: Action, ok: bool)
      reads this
    {
      && S() == Apply(before, Call(feed, a))
      && ok == Step(before, Call(feed, a)).Success?
    }

    // A call that leaves the fee at 100% or less keeps the accounts sound, and
    // leaves over exactly what it leaves over and what it was given.
    ghost predicate Kept(before: State, a: Action)
      reads this
    {
      Sound(before) && FeeBounded(Call(feed, a)) ==>
        Sound(S()) && Surplus(S()) == Surplus(before) + Given(before, Call(feed, a))
    }

    constructor (feed: Feed<Asset>, treasuryAddress: Address, feeBps: nat, minBet: int, token: Balances, now: nat)
      ensures this.feed == feed
      ensures S() == Initialize(treasuryAddress, feeBps, minBet, token, now)
      ensures config == Config(treasuryAddress, feeBps, minBet, 60, false, true)
      ensures feeBps <= DENOM && Valid(token) ==> Sound(S()) && Surplus(S()) == Bal(token, SELF)
    {
      this.feed, this.token, this.now := feed, token, now;
      config := Config(treasuryAddress, feeBps, minBet, 60, false, true);
      genesis, rounds, bets, userEpochs, treasury := map[], map[], map[], map[], 0;
      new;
      if feeBps <= DENOM && Valid(token) {
        FreshIsBalanced(treasuryAddress, feeBps, minBet, token, now);
      }
    }

    method GenesisStart(a: Asset) returns (r: Result<(), Error>)
      modifies this
      ensures Took(old(S()), DoGenesisStart(a), r.Success?)
      ensures Kept(old(S()), DoGenesisStart(a))
      ensures r.Failure? ==> Step(old(S()), Call(feed, DoGenesisStart(a))) == Failure(r.error)
      ensures r.Success? ==> StartsRightly(old(S()), S(), a)
    {
      if config.paused { return Failure(Paused); }
      var status := if a in genesis then genesis[a] else NotStarted;
      if status != NotStarted { return Failure(GenesisAlreadyStarted); }
      var openEpoch := now / INTERVAL + 1;
      rounds := rounds[(a, openEpoch) := NewRound(now, openEpoch)];
      genesis := genesis[a := Started];
      ghost var c := Call(feed, DoGenesisStart(a));
      assert Step(old(S()), c) == Success(S());
      CallKept(old(S()), c);
      StartIsRight(old(S()), a);
      return Success(());
    }

    method GenesisLock(a: Asset) returns (r: Result<(), Error>)
      modifies this
      ensures Took(old(S()), DoGenesisLock(a), r.Success?)
      ensures Kept(old(S()), DoGenesisLock(a))
      ensures r.Failure? ==> Step(old(S()), Call(feed, DoGenesisLock(a))) == Failure(r.error)
      ensures r.Success? ==> LocksRightly(feed, old(S()), S(), a)
    {
      if config.paused { return Failure(Paused); }
      var status := if a in genesis then genesis[a] else NotStarted;
      if status != Started { return Failure(GenesisNotStarted); }
      var epoch := now / INTERVAL;
      if (a, epoch) !in rounds { return Failure(RoundNotFound); }
      var round := rounds[(a, epoch)];
      if round.status != Open { return Failure(RoundNotOpen); }
      var ts := epoch * INTERVAL;
      var price := FetchPrice(feed, a, ts, config.staleness);
      if price.Some? {
        round := round.(startPrice := price.value, lockTime := ts, status := Locked);
      } else {
        round := round.(status := Cancelled);
      }
      rounds := rounds[(a, epoch) := round];
      if (a, epoch + 1) !in rounds {
        rounds := rounds[(a, epoch + 1) := NewRound(ts, epoch + 1)];
      }
      genesis := genesis[a := Running];
      ghost var c := Call(feed, DoGenesisLock(a));
      assert Step(old(S()), c) == Success(S());
      CallKept(old(S()), c);
      LockIsRight(feed, old(S()), a);
      return Success(());
    }

    // Closes a locked round at the given price and announces the winner, if it
    // has one; false stands for a panic.
    method SettleLockedRound(k: Key, closeTs: nat, price: Option<int>) returns (ok: bool, winner: Option<Direction>)
      modifies this`rounds, this`treasury
      ensures HasStatus(old(rounds), k, Locked) ==>
                var fee := ClosingFee(old(rounds)[k], price, config);
                && ok == (fee.Some? && TreasuryTakes(old(treasury), fee.value))
                && (ok ==> treasury == old(treasury) + fee.value
                           && winner == Announcement(old(rounds)[k], price, config))
      ensures !HasStatus(old(rounds), k, Locked) ==> ok && treasury == old(treasury) && winner == None
      ensures ok ==> rounds == SettledIn(old(rounds), k, closeTs, price, config)
      ensures ok && HasStatus(old(rounds), k, Locked) ==>
                rounds.Keys == old(rounds.Keys) && RightlyClosed(old(rounds)[k], rounds[k], closeTs, price, config)
    {
      if k in rounds {
        ClosedIsRight(rounds[k], closeTs, price, config);
      }
      if k !in rounds || rounds[k].status != Locked { return true, None; }
      var round := rounds[k];
      if price.None? {
        rounds := rounds[k := round.(status := Cancelled)];
        return true, None;
      }
      var oneSided := round.upAmount == 0 || round.downAmount == 0;
      var isTie := config.tieRefund && round.startPrice == price.value;
      round := round.(endPrice := price.value, closeTime := closeTs);
      if oneSided || isTie {
        rounds := rounds[k := round.(status := Cancelled)];
        return true, None;
      }
      var pools := ComputePools(round.totalAmount, config.feeBps);
      if pools.None? { return false, None; }
      var (fee, pool) := pools.value;
      var side := if price.value > round.startPrice then Up else Down;
      if !TreasuryTakes(treasury, fee) { return false, None; }
      rounds := rounds[k := round.(treasuryFee := fee, rewardPool := pool, status := Resolved)];
      treasury := treasury + fee;
      return true, Some(side);
    }

    method CloseLate(a: Asset, epoch: nat) returns (ok: bool)
      modifies this`rounds, this`treasury
      ensures ok == Admits(old(treasury), LateFee(feed, a, epoch, config, old(rounds)))
      ensures ok ==> rounds == Late(feed, a, epoch, config, old(rounds))
                     && treasury == old(treasury) + LateFee(feed, a, epoch, config, old(rounds)).value
    {
      if epoch < 2 { return true; }
      var retroTs := (epoch - 1) * INTERVAL;
      var winner;
      ok, winner := SettleLockedRound((a, epoch - 2), retroTs, FetchPrice(feed, a, retroTs, config.staleness));
    }

    method ClosePrevious(a: Asset, epoch: nat, price: Option<int>) returns (ok: bool)
      requires price == FetchPrice(feed, a, epoch * INTERVAL, config.staleness)
      modifies this`rounds, this`treasury
      ensures epoch == 0 ==> ok == ((a, 0) !in old(rounds))
      ensures epoch != 0 ==> ok == Admits(old(treasury), PreviousFee(feed, a, epoch, config, old(rounds)))
      ensures ok ==> rounds == Previous(feed, a, epoch, config, old(rounds))
                     && treasury == old(treasury) + PreviousFee(feed, a, epoch, config, old(rounds)).value
    {
      // Cancelling round 0 in epoch 0 would subtract one from the epoch.
      if epoch == 0 { return (a, 0) !in rounds; }
      var k := (a, epoch - 1);
      var winner;
      ok, winner := SettleLockedRound(k, epoch * INTERVAL, price);
      if ok && k in rounds && rounds[k].status == Open {
        rounds := rounds[k := rounds[k].(status := Cancelled)];
      }
    }

    method LockCurrent(a: Asset, epoch: nat, price: Option<int>)
      requires price == FetchPrice(feed, a, epoch * INTERVAL, config.staleness)
      modifies this`rounds
      ensures rounds == Current(feed, a, epoch, config, old(rounds))
    {
      var k, ts := (a, epoch), epoch * INTERVAL;
      if k in rounds && rounds[k].status == Open {
        var current := rounds[k];
        if price.Some? {
          current := current.(startPrice := price.value, lockTime := ts, status := Locked);
        } else {
          current := current.(status := Cancelled);
        }
        rounds := rounds[k := current];
      }
      if (a, epoch + 1) !in rounds {
        rounds := rounds[(a, epoch + 1) := NewRound(ts, epoch + 1)];
      }
    }

    method ExecuteRound(a: Asset) returns (r: Result<(), Error>)
      modifies this
      ensures Took(old(S()), DoExecute(a), r.Success?)
      ensures Kept(old(S()), DoExecute(a))
      ensures r.Failure? ==> Step(old(S()), Call(feed, DoExecute(a))) == Failure(r.error)
      ensures r.Success? ==>
                if old(AlreadyRun(S(), a)) then S() == old(S()) else ExecutesRightly(feed, old(S()), S(), a)
    {
      CallKept(S(), Call(feed, DoExecute(a)));
      if EpochMarket.ExecuteRound(feed, S(), a).Success? && !AlreadyRun(S(), a) {
        ExecuteIsRight(feed, S(), a);
      }
      var status := if a in genesis then genesis[a] else NotStarted;
      if status != Running { return Failure(GenesisNotStarted); }
      var epoch := now / INTERVAL;
      if (a, epoch) in rounds && rounds[(a, epoch)].status != Open { return Success(()); }
      var price := FetchPrice(feed, a, epoch * INTERVAL, config.staleness);
      r := Advance(a, epoch, price);
    }

    // The rest of execute_round; a panic partway takes everything back.
    method Advance(a: Asset, epoch: nat, price: Option<int>) returns (r: Result<(), Error>)
      requires GenesisOf(S(), a) == Running && !AlreadyRun(S(), a) && epoch == Epoch(now)
      requires price == FetchPrice(feed, a, epoch * INTERVAL, config.staleness)
      modifies this`rounds, this`treasury
      ensures r.Success? == EpochMarket.ExecuteRound(feed, old(S()), a).Success?
      ensures r.Failure? ==> EpochMarket.ExecuteRound(feed, old(S()), a) == Failure(r.error)
      ensures S() == if r.Success? then EpochMarket.ExecuteRound(feed, old(S()), a).value else old(S())
    {
      ghost var s := S();
      var savedRounds, savedTreasury := rounds, treasury;
      if epoch != 0 || (a, 0) !in savedRounds {
        StagesPay(feed, s, a);
      }
      var ok := CloseLate(a, epoch);
      if ok {
        ok := ClosePrevious(a, epoch, price);
      }
      if !ok {
        rounds, treasury := savedRounds, savedTreasury;
        return Failure(Overflow);
      }
      LockCurrent(a, epoch, price);
      return Success(());
    }

    method StoreBet(k: Key, user: Address, round: Round, bet: Bet, buf: seq<nat>, paid: Balances)
      modifies this`rounds, this`bets, this`userEpochs, this`token
      ensures S() == old(S()).(rounds := old(rounds)[k := round], bets := old(bets)[(k, user) := bet],
                               userEpochs := old(userEpochs)[(k.0, user) := buf], token := paid)
    {
      token := paid;
      rounds := rounds[k := round];
      bets := bets[(k, user) := bet];
      userEpochs := userEpochs[(k.0, user) := buf];
    }

    method PlaceBet(user: Address, a: Asset, epoch: nat, side: Direction, amount: int) returns (r: Result<(), Error>)
      modifies this
      ensures Took(old(S()), DoBet(user, a, epoch, side, amount), r.Success?)
      ensures Kept(old(S()), DoBet(user, a, epoch, side, amount))
      ensures r.Failure? ==> Step(old(S()), Call(feed, DoBet(user, a, epoch, side, amount))) == Failure(r.error)
      ensures r.Success? ==> TakesRightly(old(S()), S(), user, a, epoch, side, amount)
    {
      if user == SELF { return Failure(Unauthorized); }
      if config.paused { return Failure(Paused); }
      if amount < config.minBet { return Failure(BetTooSmall); }
      if epoch != now / INTERVAL + 1 { return Failure(InvalidEpoch); }
      var k := (a, epoch);
      if k !in rounds { return Failure(RoundNotFound); }
      var round := rounds[k];
      if round.status != Open { return Failure(RoundNotOpen); }
      if (k, user) in bets { return Failure(AlreadyBet); }
      var paid := Transfer(token, user, SELF, amount);
      if paid.Failure? { return Failure(TokenFailed(paid.error)); }
      var added := AddBet(round, side, amount);
      if added.None? { return Failure(Overflow); }
      var buf := if (a, user) in userEpochs then userEpochs[(a, user)] else [];
      buf := PushUserEpoch(buf, epoch);
      StoreBet(k, user, added.value, Bet(side, amount, false), buf, paid.value);
      CallKept(old(S()), Call(feed, DoBet(user, a, epoch, side, amount)));
      BetTakes(old(S()), user, a, epoch, side, amount);
      return Success(());
    }

    // One epoch of a claim: what it wins is added to the running total and the
    // bet marked; false stands for a panic.
    method ClaimEpoch(k: Key, user: Address, total: int, count: nat) returns (ok: bool, total': int, count': nat)
      modifies this`bets
      ensures ClaimOne(rounds, Batch(old(bets), total, count), k, user)
           == if ok then Some(Batch(bets, total', count')) else None
    {
      ok, total', count' := true, total, count;
      if k !in rounds || rounds[k].status != Resolved { return; }
      var round := rounds[k];
      if (k, user) !in bets || bets[(k, user)].claimed { return; }
      var bet := bets[(k, user)];
      var winningSide := if round.endPrice > round.startPrice then Up else Down;
      if bet.direction != winningSide { return; }
      var sideAmount := if winningSide == Up then round.upAmount else round.downAmount;
      var payout := ComputePayout(bet.amount, round.rewardPool, sideAmount);
      if payout == Some(0) { return; }
      if payout.None? || !InI128(total + payout.value) {
        ok := false;
        return;
      }
      bets := bets[(k, user) := bet.(claimed := true)];
      total', count' := total + payout.value, count + 1;
    }

    method RefundEpoch(k: Key, user: Address, total: int, count: nat) returns (ok: bool, total': int, count': nat)
      modifies this`bets
      ensures RefundOne(rounds, Batch(old(bets), total, count), k, user)
           == if ok then Some(Batch(bets, total', count')) else None
    {
      ok, total', count' := true, total, count;
      if k !in rounds || rounds[k].status != Cancelled { return; }
      if (k, user) !in bets || bets[(k, user)].claimed { return; }
      var bet := bets[(k, user)];
      if !InI128(total + bet.amount) {
        ok := false;
        return;
      }
      bets := bets[(k, user) := bet.(claimed := true)];
      total', count' := total + bet.amount, count + 1;
    }

    // The transfer a batch ends with; a batch that pays nothing, or cannot be
    // paid, leaves the bets as they were.
    method PayOut(user: Address, total: int, count: nat, saved: Bets) returns (r: Result<int, Error>)
      modifies this`bets, this`token
      ensures var before := old(S()).(bets := saved);
              var paid := PayBatch(before, user, Some(Batch(old(bets), total, count)));
              && r.Success? == paid.Success?
              && (r.Failure? ==> paid == Failure(r.error))
              && S() == (if paid.Success? then paid.value else before)
      ensures r.Success? ==> r.value == total
    {
      if count == 0 {
        bets := saved;
        return Failure(NothingToClaim);
      }
      var moved := Transfer(token, SELF, user, total);
      if moved.Failure? {
        bets := saved;
        return Failure(TokenFailed(moved.error));
      }
      token := moved.value;
      return Success(total);
    }

    // The loop of a claim, one epoch after another; a panic takes it all back.
    method ClaimEach(a: Asset, epochs: seq<nat>, user: Address) returns (ok: bool, total: int, count: nat)
      modifies this`bets
      ensures ClaimEpochs(rounds, old(bets), a, user, epochs) == if ok then Some(Batch(bets, total, count)) else None
      ensures !ok ==> bets == old(bets)
    {
      ok, total, count := true, 0, 0;
      var saved := bets;
      for i := 0 to |epochs|
        invariant ClaimEpochs(rounds, saved, a, user, epochs[..i]) == Some(Batch(bets, total, count))
      {
        assert epochs[..i + 1][..i] == epochs[..i];
        ok, total, count := ClaimEpoch((a, epochs[i]), user, total, count);
        if !ok {
          ClaimPanics(rounds, saved, a, user, epochs, i + 1);
          bets := saved;
          return;
        }
      }
      assert epochs[..|epochs|] == epochs;
    }

    // Pays the user, in one transfer, what each distinct resolved epoch of the
    // list is worth.
    method Claim(a: Asset, epochs: seq<nat>, user: Address) returns (r: Result<int, Error>)
      modifies this
      ensures Took(old(S()), DoClaim(a, epochs, user), r.Success?)
      ensures Kept(old(S()), DoClaim(a, epochs, user))
      ensures old(Sound(S())) ==> r != Failure(TokenFailed(InsufficientBalance))
      ensures r.Failure? ==> Step(old(S()), Call(feed, DoClaim(a, epochs, user))) == Failure(r.error)
      ensures r.Success? ==> PaysQuotes(old(S()), S(), a, epochs, user, Resolved, r.value)
    {
      ghost var s, c := S(), Call(feed, DoClaim(a, epochs, user));
      CallKept(s, c);
      var saved := bets;
      var ok, total, count := ClaimEach(a, epochs, user);
      if !ok { return Failure(Overflow); }
      assert S().(bets := saved) == s;
      r := PayOut(user, total, count, saved);
      assert Step(s, c) == if r.Success? then Success(S()) else Failure(r.error);
      if r.Success? {
        ClaimPaysTheQuotes(s, a, epochs, user);
      }
    }

    // The loop of a refund.
    method RefundEach(a: Asset, epochs: seq<nat>, user: Address) returns (ok: bool, total: int, count: nat)
      modifies this`bets
      ensures RefundEpochs(rounds, old(bets), a, user, epochs) == if ok then Some(Batch(bets, total, count)) else None
      ensures !ok ==> bets == old(bets)
    {
      ok, total, count := true, 0, 0;
      var saved := bets;
      for i := 0 to |epochs|
        invariant RefundEpochs(rounds, saved, a, user, epochs[..i]) == Some(Batch(bets, total, count))
      {
        assert epochs[..i + 1][..i] == epochs[..i];
        ok, total, count := RefundEpoch((a, epochs[i]), user, total, count);
        if !ok {
          RefundPanics(rounds, saved, a, user, epochs, i + 1);
          bets := saved;
          return;
        }
      }
      assert epochs[..|epochs|] == epochs;
    }

    // Likewise the stakes of the distinct cancelled epochs.
    method Refund(a: Asset, epochs: seq<nat>, user: Address) returns (r: Result<int, Error>)
      modifies this
      ensures Took(old(S()), DoRefund(a, epochs, user), r.Success?)
      ensures Kept(old(S()), DoRefund(a, epochs, user))
      ensures old(Sound(S())) ==> r != Failure(TokenFailed(InsufficientBalance))
      ensures r.Failure? ==> Step(old(S()), Call(feed, DoRefund(a, epochs, user))) == Failure(r.error)
      ensures r.Success? ==> PaysQuotes(old(S()), S(), a, epochs, user, Cancelled, r.value)
    {
      ghost var s, c := S(), Call(feed, DoRefund(a, epochs, user));
      CallKept(s, c);
      var saved := bets;
      var ok, total, count := RefundEach(a, epochs, user);
      if !ok { return Failure(Overflow); }
      assert S().(bets := saved) == s;
      r := PayOut(user, total, count, saved);
      assert Step(s, c) == if r.Success? then Success(S()) else Failure(r.error);
      if r.Success? {
        RefundPaysTheQuotes(s, a, epochs, user);
      }
    }

    // The view: what a user may still draw for one epoch; None stands for a panic.
    method ClaimableFor(a: Asset, epoch: nat, user: Address) returns (quote: Option<int>)
      ensures quote == Claimable(S(), (a, epoch), user)
    {
      var k := (a, epoch);
      if k !in rounds { return Some(0); }
      var round := rounds[k];
      if (k, user) !in bets || bets[(k, user)].claimed { return Some(0); }
      var bet := bets[(k, user)];
      match round.status {
        case Cancelled => return Some(bet.amount);
        case Resolved =>
          var winningSide := if round.endPrice > round.startPrice then Up else Down;
          if bet.direction != winningSide { return Some(0); }
          var sideAmount := if winningSide == Up then round.upAmount else round.downAmount;
          return ComputePayout(bet.amount, round.rewardPool, sideAmount);
        case _ => return Some(0);
      }
    }

    method ClaimTreasury() returns (r: Result<(), Error>)
      modifies this
      ensures Took(old(S()), DoClaimTreasury, r.Success?)
      ensures Kept(old(S()), DoClaimTreasury)
      ensures old(Sound(S())) ==> r != Failure(TokenFailed(InsufficientBalance))
      ensures r.Failure? ==> Step(old(S()), Call(feed, DoClaimTreasury)) == Failure(r.error)
      ensures r.Success? && 0 <= old(treasury) ==>
                treasury == 0 && Transferred(old(token), token, SELF, config.treasury, old(treasury))
    {
      CallKept(S(), Call(feed, DoClaimTreasury));
      if treasury > 0 {
        var moved := Transfer(token, SELF, config.treasury, treasury);
        if moved.Failure? { return Failure(TokenFailed(moved.error)); }
        token := moved.value;
        treasury := 0;
      }
      return Success(());
    }

    method Pause()
      modifies this`config
      ensures Took(old(S()), DoSetConfig(old(config).(paused := true)), true)
      ensures Kept(old(S()), DoSetConfig(old(config).(paused := true)))
    {
      CallKept(S(), Call(feed, DoSetConfig(config.(paused := true))));
      config := config.(paused := true);
    }

    method Unpause()
      modifies this`config
      ensures Took(old(S()), DoSetConfig(old(config).(paused := false)), true)
      ensures Kept(old(S()), DoSetConfig(old(config).(paused := false)))
    {
      CallKept(S(), Call(feed, DoSetConfig(config.(paused := false))));
      config := config.(paused := false);
    }

    // Only the settings given are changed; nothing bounds the fee.
    method SetConfig(feeBps: Option<nat>, minBet: Option<int>, staleness: Option<nat>, tieRefund: Option<bool>,
                     treasuryAddress: Option<Address>)
      modifies this`config
      ensures Took(old(S()), DoSetConfig(config), true)
      ensures Kept(old(S()), DoSetConfig(config))
      ensures config.paused == old(config.paused)
      ensures config.feeBps == if feeBps.Some? then feeBps.value else old(config.feeBps)
      ensures config.minBet == if minBet.Some? then minBet.value else old(config.minBet)
      ensures config.staleness == if staleness.Some? then staleness.value else old(config.staleness)
      ensures config.tieRefund == if tieRefund.Some? then tieRefund.value else old(config.tieRefund)
      ensures config.treasury == if treasuryAddress.Some? then treasuryAddress.value else old(config.treasury)
    {
      if feeBps.Some? { config := config.(feeBps := feeBps.value); }
      if minBet.Some? { config := config.(minBet := minBet.value); }
      if staleness.Some? { config := config.(staleness := staleness.value); }
      if tieRefund.Some? { config := config.(tieRefund := tieRefund.value); }
      if treasuryAddress.Some? { config := config.(treasury := treasuryAddress.value); }
      CallKept(old(S()), Call(feed, DoSetConfig(config)));
    }
  }

  // A batch that panics partway panics as a whole.
  lemma {:induction false} ClaimPanics(rounds: Rounds, bets: Bets, a: Asset, user: Address, epochs: seq<nat>, n: nat)
    requires n <= |epochs| && ClaimEpochs(rounds, bets, a, user, epochs[..n]).None?
    ensures ClaimEpochs(rounds, bets, a, user, epochs).None?
    decreases |epochs| - n
  {
    if n == |epochs| {
      assert epochs[..n] == epochs;
    } else {
      assert epochs[..n + 1][..n] == epochs[..n];
      ClaimPanics(rounds, bets, a, user, epochs, n + 1);
    }
  }

  lemma {:induction false} RefundPanics(rounds: Rounds, bets: Bets, a: Asset, user: Address, epochs: seq<nat>, n: nat)
    requires n <= |epochs| && RefundEpochs(rounds, bets, a, user, epochs[..n]).None?
    ensures RefundEpochs(rounds, bets, a, user, epochs).None?
    decreases |epochs| - n
  {
    if n == |epochs| {
      assert epochs[..n] == epochs;
    } else {
      assert epochs[..n + 1][..n] == epochs[..n];
      RefundPanics(rounds, bets, a, user, epochs, n + 1);
    }
  }
}

// What the epoch market tells its users, in plain numbers: which price counts,
// when a round is refunded, what a bet is paid, whose money moves.

module EpochRules {
  import opened Wrappers
  import opened Checked
  import opened Fees
  import opened Token
  import opened Oracle
  import opened EpochMarket
  import opened EpochPipeline
  import opened EpochPrices
  import opened EpochSolvency
  import opened EpochAccounts

  // ----- Which price counts -----------------------------------------------------------------

  // The oracle's price for a moment, if it is no older than the tolerance.
  predicate Quoted(feed: Feed<Asset>, a: Asset, ts: nat, tolerance: nat, price: Option<int>) {
    var data := feed(a, ts);
    && (price.Some? <==> data.Some? && ts <= data.value.timestamp + tolerance)
    && (price.Some? ==> price.value == data.value.price)
  }

  lemma FetchIsQuoted(feed: Feed<Asset>, a: Asset, ts: nat, tolerance: nat)
    ensures Quoted(feed, a, ts, tolerance, FetchPrice(feed, a, ts, tolerance))
  {}

  // ----- How rounds move ---------------------------------------------------------------------

  predicate SameStakes(r: Round, r': Round) {
    && r'.upAmount == r.upAmount && r'.downAmount == r.downAmount && r'.totalAmount == r.totalAmount
    && r'.startTime == r.startTime
  }

  // A locked round is cancelled if there is no price, a side has no stake, or
  // the price is where it was and such ties are refunded; otherwise it is
  // resolved at the price, its pot less the fee to be shared.
  predicate RightlyClosed(r: Round, r': Round, ts: nat, price: Option<int>, c: Config) {
    var refund := price.None? || r.upAmount == 0 || r.downAmount == 0 || (c.tieRefund && price.value == r.startPrice);
    && SameStakes(r, r') && r'.startPrice == r.startPrice && r'.lockTime == r.lockTime
    && (refund ==> r'.status == Cancelled)
    && (!refund ==>
          && r'.status == Resolved && r'.endPrice == price.value && r'.closeTime == ts
          && IsFee(r'.treasuryFee, r.totalAmount, c.feeBps) && r'.rewardPool == r.totalAmount - r'.treasuryFee)
  }

  // An open round is locked at the price, or cancelled without one.
  predicate RightlyLocked(r: Round, r': Round, ts: nat, price: Option<int>) {
    && SameStakes(r, r') && r'.closeTime == r.closeTime
    && (price.Some? ==> r'.status == Status.Locked && r'.startPrice == price.value && r'.lockTime == ts)
    && (price.None? ==> r'.status == Cancelled)
  }

  ghost predicate ClosedBy(feed: Feed<Asset>, a: Asset, ts: nat, c: Config, r: Round, r': Round) {
    exists price :: Quoted(feed, a, ts, c.staleness, price) && RightlyClosed(r, r', ts, price, c)
  }

  ghost predicate LockedBy(feed: Feed<Asset>, a: Asset, ts: nat, c: Config, r: Round, r': Round) {
    exists price :: Quoted(feed, a, ts, c.staleness, price) && RightlyLocked(r, r', ts, price)
  }

  // What an execution in this epoch makes of a round.
  ghost predicate RightlyMoved(feed: Feed<Asset>, a: Asset, e: nat, c: Config, n: nat, r: Round, r': Round) {
    if r.status == Status.Locked && (n + 1 == e || n + 2 == e) then
      ClosedBy(feed, a, (n + 1) * 300, c, r, r')
    else if r.status == Open && n == e then LockedBy(feed, a, e * 300, c, r, r')
    else if r.status == Open && n + 1 == e then r' == r.(status := Cancelled)
    else r' == r
  }

  lemma ClosedIsRight(r: Round, ts: nat, price: Option<int>, c: Config)
    ensures RightlyClosed(r, Closed(r, ts, price, c), ts, price, c)
  {
    FeeIs(r.totalAmount, c.feeBps);
  }

  lemma LockedIsRight(r: Round, ts: nat, price: Option<int>)
    ensures RightlyLocked(r, LockedAt(r, ts, price), ts, price)
  {}

  lemma AdvancedIsRight(feed: Feed<Asset>, a: Asset, e: nat, c: Config, n: nat, r: Round)
    ensures RightlyMoved(feed, a, e, c, n, r, Advanced(feed, a, e, c, n, r))
  {
    if r.status == Status.Locked && (n + 1 == e || n + 2 == e) {
      var price := FetchPrice(feed, a, (n + 1) * 300, c.staleness);
      FetchIsQuoted(feed, a, (n + 1) * 300, c.staleness);
      ClosedIsRight(r, (n + 1) * 300, price, c);
    } else if r.status == Open && n == e {
      var price := FetchPrice(feed, a, e * 300, c.staleness);
      FetchIsQuoted(feed, a, e * 300, c.staleness);
      LockedIsRight(r, e * 300, price);
    }
  }

  // A round nobody has bet on, which locks with its epoch and closes with the next.
  predicate Fresh(r: Round, start: nat, n: nat) {
    && r.status == Open && r.startTime == start && r.lockTime == n * 300 && r.closeTime == n * 300 + 300
    && r.upAmount == r.downAmount == r.totalAmount == 0
  }

  // The fee an execution took from a round: that of a round it resolved.
  function TakenFrom(rounds: Rounds, rounds': Rounds, a: Asset, n: int): int {
    if 0 <= n && HasStatus(rounds, (a, n), Status.Locked) && HasStatus(rounds', (a, n), Resolved)
    then rounds'[(a, n)].treasuryFee else 0
  }

  // An execution that is not a repetition moves every round of its asset
  // rightly, opens the next one, adds the fees to the treasury, and leaves the
  // rest alone.
  ghost predicate ExecutesRightly(feed: Feed<Asset>, s: State, s': State, a: Asset) {
    var e := s.now / 300;
    && (forall k :: k in s.rounds ==> k in s'.rounds)
    && (forall k :: k in s.rounds && k.0 != a ==> s'.rounds[k] == s.rounds[k])
    && (forall n: nat :: (a, n) in s.rounds ==>
          RightlyMoved(feed, a, e, s.config, n, s.rounds[(a, n)], s'.rounds[(a, n)]))
    && (a, e + 1) in s'.rounds
    && ((a, e + 1) !in s.rounds ==> Fresh(s'.rounds[(a, e + 1)], e * 300, e + 1))
    && s'.treasury == s.treasury + TakenFrom(s.rounds, s'.rounds, a, e - 2) + TakenFrom(s.rounds, s'.rounds, a, e - 1)
    && s' == s.(rounds := s'.rounds, treasury := s'.treasury)
  }

  lemma FeeIsTaken(feed: Feed<Asset>, s: State, a: Asset, n: int, ts: nat)
    requires n + 1 == Epoch(s.now) || n + 2 == Epoch(s.now)
    requires 0 <= n ==> ts == (n + 1) * INTERVAL
    ensures var fee := FeeDue(feed, s, a, n, ts);
            fee.Some? ==> TakenFrom(s.rounds, AdvancedRounds(feed, s, a), a, n) == fee.value
  {
    if 0 <= n {
      AdvancedAt(feed, s, a, (a, n));
    }
  }

  lemma TreasuryGrows(feed: Feed<Asset>, s: State, a: Asset)
    requires ExecuteRound(feed, s, a).Success? && !AlreadyRun(s, a)
    ensures var s' := ExecuteRound(feed, s, a).value;
            var e: int := Epoch(s.now);
            && s'.rounds == AdvancedRounds(feed, s, a)
            && s' == s.(rounds := s'.rounds, treasury := s'.treasury)
            && s'.treasury == s.treasury + TakenFrom(s.rounds, s'.rounds, a, e - 2)
                              + TakenFrom(s.rounds, s'.rounds, a, e - 1)
  {
    var e := Epoch(s.now);
    FeeIsTaken(feed, s, a, e - 2, if 1 <= e then (e - 1) * INTERVAL else 0);
    FeeIsTaken(feed, s, a, e - 1, e * INTERVAL);
  }

  lemma ExecuteIsRight(feed: Feed<Asset>, s: State, a: Asset)
    requires ExecuteRound(feed, s, a).Success? && !AlreadyRun(s, a)
    ensures ExecutesRightly(feed, s, ExecuteRound(feed, s, a).value, a)
  {
    var s', e := ExecuteRound(feed, s, a).value, Epoch(s.now);
    TreasuryGrows(feed, s, a);
    forall k | k in s.rounds
      ensures k in s'.rounds && (k.0 != a ==> s'.rounds[k] == s.rounds[k])
    {
      AdvancedAt(feed, s, a, k);
    }
    forall n: nat | (a, n) in s.rounds
      ensures RightlyMoved(feed, a, e, s.config, n, s.rounds[(a, n)], s'.rounds[(a, n)])
    {
      AdvancedAt(feed, s, a, (a, n));
      AdvancedIsRight(feed, a, e, s.config, n, s.rounds[(a, n)]);
    }
    AdvancedAt(feed, s, a, (a, e + 1));
  }

  // A locked round that comes due: when it has no price, no other side, or a
  // refunded tie, every unclaimed bet on it is quoted its whole stake.
  lemma RefundsAreWhole(feed: Feed<Asset>, s: State, a: Asset, n: nat, user: Address)
    requires ExecuteRound(feed, s, a).Success? && !AlreadyRun(s, a)
    requires HasStatus(s.rounds, (a, n), Status.Locked) && (n + 1 == s.now / 300 || n + 2 == s.now / 300)
    ensures var (r, s') := (s.rounds[(a, n)], ExecuteRound(feed, s, a).value);
            var data := feed(a, (n + 1) * 300);
            var refund := data.None? || data.value.timestamp + s.config.staleness < (n + 1) * 300
                          || r.upAmount == 0 || r.downAmount == 0
                          || (s.config.tieRefund && data.value.price == r.startPrice);
            && (HasStatus(s'.rounds, (a, n), Cancelled) <==> refund)
            && (HasStatus(s'.rounds, (a, n), Resolved) <==> !refund)
            && (refund && Unclaimed(s.bets, (a, n), user) ==>
                  Claimable(s', (a, n), user) == Some(s.bets[((a, n), user)].amount))
  {
    ExecuteIsRight(feed, s, a);
    var s' := ExecuteRound(feed, s, a).value;
    assert RightlyMoved(feed, a, s.now / 300, s.config, n, s.rounds[(a, n)], s'.rounds[(a, n)]);
  }

  lemma LeavesLocked(s: State, c: Call, k: Key)
    requires HasStatus(s.rounds, k, Status.Locked)
    requires c.action.DoGenesisStart? || c.action.DoGenesisLock? || c.action.DoBet?
    requires c.action.DoGenesisStart? ==> GenesisOf(s, k.0) != NotStarted
    ensures k in Apply(s, c).rounds && Apply(s, c).rounds[k] == s.rounds[k]
  {}

  lemma LockedStep(s: State, c: Call, k: Key)
    requires HasStatus(s.rounds, k, Status.Locked) && GenesisOf(s, k.0) != NotStarted
    ensures k in Apply(s, c).rounds
    ensures Apply(s, c).rounds[k] == s.rounds[k] ||
            (c.action == DoExecute(k.0)
             && ClosedBy(c.feed, k.0, (k.1 + 1) * 300, s.config, s.rounds[k], Apply(s, c).rounds[k]))
  {
    match c.action
    case DoExecute(a) =>
      ExecuteCall(s, c, a);
      if Apply(s, c) != s {
        ExecuteIsRight(c.feed, s, a);
        if k.0 == a {
          assert RightlyMoved(c.feed, a, s.now / 300, s.config, k.1, s.rounds[(a, k.1)], Apply(s, c).rounds[(a, k.1)]);
        }
      }
    case DoGenesisStart(a) => LeavesLocked(s, c, k);
    case DoGenesisLock(a) => LeavesLocked(s, c, k);
    case DoBet(user, a, epoch, side, amount) => LeavesLocked(s, c, k);
    case DoClaim(a, epochs, user) =>
      if Step(s, c).Success? { BatchLeaves(s, user, ClaimEpochs(s.rounds, s.bets, a, user, epochs)); }
    case DoRefund(a, epochs, user) =>
      if Step(s, c).Success? { BatchLeaves(s, user, RefundEpochs(s.rounds, s.bets, a, user, epochs)); }
    case _ => RestLeaves(s, c);
  }

  // In every run from deployment, whatever is called next, a locked round stays
  // as it is or is closed by that rule, at a price the call read for the end of
  // its epoch.
  lemma LockedRoundsCloseRightly(s: State, before: seq<Call>, c: Call, k: Key)
    requires s.rounds == map[] && s.genesis == map[] && HasStatus(Run(s, before).rounds, k, Status.Locked)
    ensures var (v, z) := (Run(s, before), Apply(Run(s, before), c));
            && k in z.rounds
            && (z.rounds[k] == v.rounds[k] ||
                (c.action == DoExecute(k.0)
                 && ClosedBy(c.feed, k.0, (k.1 + 1) * 300, v.config, v.rounds[k], z.rounds[k])))
  {
    ChainAlways(s, before, {});
    LockedStep(Run(s, before), c, k);
  }

  // ----- What a bet is paid --------------------------------------------------------------------

  // In a resolved round Up wins at a price over the start price, Down at any
  // other; a winning bet is quoted its share of the reward pool, less than one
  // unit short, a losing one nothing.
  predicate RightlyQuoted(r: Round, b: Bet, quote: int) {
    var winner := if r.endPrice > r.startPrice then Up else Down;
    var side := if winner == Up then r.upAmount else r.downAmount;
    if b.direction == winner then side * quote <= b.amount * r.rewardPool < side * quote + side else quote == 0
  }

  lemma QuoteIsRight(r: Round, b: Bet, quote: int)
    requires 0 <= r.rewardPool && 0 < (if r.endPrice > r.startPrice then r.upAmount else r.downAmount)
    requires quote == (if b.direction == Winner(r) then Payout(b.amount, r.rewardPool, SideAmount(r, Winner(r))) else 0)
    ensures RightlyQuoted(r, b, quote)
  {
    MulMono(b.amount, 0, r.rewardPool);
    if b.direction == Winner(r) && b.amount != 0 && r.rewardPool != 0 {
      QuotBounds(b.amount * r.rewardPool, SideAmount(r, Winner(r)));
    }
  }

  // What the view quotes for an unclaimed bet: its stake in a cancelled round, its
  // right share in a resolved one, nothing in any other.
  predicate RightlyViewed(r: Round, b: Bet, quote: int) {
    match r.status
    case Cancelled => quote == b.amount
    case Resolved => RightlyQuoted(r, b, quote)
    case _ => quote == 0
  }

  lemma ViewIsRight(s: State, k: Key, user: Address)
    requires k in s.rounds && RoundInv(s.rounds[k], s.bets, k)
    requires Unclaimed(s.bets, k, user) && Claimable(s, k, user).Some?
    ensures RightlyViewed(s.rounds[k], s.bets[(k, user)], Claimable(s, k, user).value)
  {
    if s.rounds[k].status == Resolved {
      QuoteIsRight(s.rounds[k], s.bets[(k, user)], Claimable(s, k, user).value);
    }
  }

  // So it is in every run with a fee of at most 100%.
  lemma QuotesAreRight(s: State, calls: seq<Call>, given: int, k: Key, user: Address)
    requires Balanced(s, given) && forall c :: c in calls ==> FeeBounded(c)
    requires var v := Run(s, calls);
             k in v.rounds && Unclaimed(v.bets, k, user) && Claimable(v, k, user).Some?
    ensures var v := Run(s, calls);
            RightlyViewed(v.rounds[k], v.bets[(k, user)], Claimable(v, k, user).value)
  {
    AlwaysBalanced(s, calls, given);
    ViewIsRight(Run(s, calls), k, user);
  }

  // ----- Whose money moves ------------------------------------------------------------------

  // Exactly which bets are accepted.
  lemma BetAcceptedExactlyWhen(s: State, user: Address, a: Asset, n: nat, side: Direction, amount: int)
    requires Valid(s.token)
    ensures PlaceBet(s, user, a, n, side, amount).Success? <==>
              (a, n) in s.rounds &&
              var r := s.rounds[(a, n)];
              && user != SELF && !s.config.paused && s.config.minBet <= amount && 0 <= amount <= Bal(s.token, user)
              && n == s.now / 300 + 1 && r.status == Open && ((a, n), user) !in s.bets
              && Bal(s.token, SELF) + amount <= I128_MAX && r.totalAmount + amount <= I128_MAX
              && (if side == Up then r.upAmount + amount else r.upAmount) <= I128_MAX
              && (if side == Down then r.downAmount + amount else r.downAmount) <= I128_MAX
  {}

  // A bet takes exactly the stake from the bettor and adds it to its side.
  ghost predicate TakesRightly(s: State, s': State, user: Address, a: Asset, n: nat, side: Direction, amount: int) {
    var k := (a, n);
    && k in s.rounds && k in s'.rounds && (k, user) !in s.bets && s.config.minBet <= amount && !s.config.paused
    && n == s.now / 300 + 1
    && Transferred(s.token, s'.token, user, SELF, amount)
    && s'.bets == s.bets[(k, user) := Bet(side, amount, false)]
    && (var (r, r') := (s.rounds[k], s'.rounds[k]);
        && r.status == Open
        && r' == r.(upAmount := r'.upAmount, downAmount := r'.downAmount, totalAmount := r.totalAmount + amount)
        && r'.upAmount == r.upAmount + (if side == Up then amount else 0)
        && r'.downAmount == r.downAmount + (if side == Down then amount else 0))
  }

  lemma BetTakes(s: State, user: Address, a: Asset, n: nat, side: Direction, amount: int)
    requires PlaceBet(s, user, a, n, side, amount).Success?
    ensures TakesRightly(s, PlaceBet(s, user, a, n, side, amount).value, user, a, n, side, amount)
  {}

  // genesis_start opens the next epoch's round; genesis_lock locks it, or
  // cancels it without a price, and opens the one after.
  ghost predicate StartsRightly(s: State, s': State, a: Asset) {
    var n := s.now / 300 + 1;
    && !s.config.paused && GenesisOf(s, a) == NotStarted && GenesisOf(s', a) == Started
    && (a, n) in s'.rounds && Fresh(s'.rounds[(a, n)], s.now, n)
    && s'.rounds - {(a, n)} == s.rounds - {(a, n)}
  }

  ghost predicate LocksRightly(feed: Feed<Asset>, s: State, s': State, a: Asset) {
    var n := s.now / 300;
    && !s.config.paused && GenesisOf(s, a) == Started && GenesisOf(s', a) == Running
    && HasStatus(s.rounds, (a, n), Open) && (a, n) in s'.rounds && (a, n + 1) in s'.rounds
    && LockedBy(feed, a, n * 300, s.config, s.rounds[(a, n)], s'.rounds[(a, n)])
    && ((a, n + 1) !in s.rounds ==> Fresh(s'.rounds[(a, n + 1)], n * 300, n + 1))
    && s'.rounds - {(a, n), (a, n + 1)} == s.rounds - {(a, n), (a, n + 1)}
  }

  lemma StartIsRight(s: State, a: Asset)
    requires GenesisStart(s, a).Success?
    ensures StartsRightly(s, GenesisStart(s, a).value, a)
  {}

  lemma LockIsRight(feed: Feed<Asset>, s: State, a: Asset)
    requires GenesisLock(feed, s, a).Success?
    ensures LocksRightly(feed, s, GenesisLock(feed, s, a).value, a)
  {
    var e := Epoch(s.now);
    FetchIsQuoted(feed, a, e * 300, s.config.staleness);
    LockedIsRight(s.rounds[(a, e)], e * 300, FetchPrice(feed, a, e * 300, s.config.staleness));
  }

  lemma SweepPaysTreasury(s: State)
    requires ClaimTreasury(s).Success? && 0 <= s.treasury
    ensures var s' := ClaimTreasury(s).value;
            s'.treasury == 0 && Transferred(s.token, s'.token, SELF, s.config.treasury, s.treasury)
  {}

  // ----- What is refused, and how -----------------------------------------------------------

  lemma GenesisRefusals(feed: Feed<Asset>, s: State, a: Asset)
    ensures GenesisStart(s, a).Success? <==> !s.config.paused && GenesisOf(s, a) == NotStarted
    ensures s.config.paused ==> GenesisStart(s, a) == Failure(Paused) && GenesisLock(feed, s, a) == Failure(Paused)
    ensures !s.config.paused && GenesisOf(s, a) != NotStarted ==> GenesisStart(s, a) == Failure(GenesisAlreadyStarted)
    ensures !s.config.paused ==>
              var r := GenesisLock(feed, s, a);
              if GenesisOf(s, a) != Started then r == Failure(GenesisNotStarted)
              else if (a, s.now / 300) !in s.rounds then r == Failure(RoundNotFound)
              else if s.rounds[(a, s.now / 300)].status != Open then r == Failure(RoundNotOpen)
              else r.Success?
  {}

  // Even a paused market executes.
  lemma ExecuteRefusals(feed: Feed<Asset>, s: State, a: Asset)
    ensures ExecuteRound(feed, s, a) == Failure(GenesisNotStarted) <==> GenesisOf(s, a) != Running
    ensures GenesisOf(s, a) == Running ==>
              ExecuteRound(feed, s, a).Success? || ExecuteRound(feed, s, a) == Failure(Overflow)
  {}

  // A bet by a user, checked in this order.
  lemma BetRefusals(s: State, user: Address, a: Asset, n: nat, side: Direction, amount: int)
    requires user != SELF
    ensures var r := PlaceBet(s, user, a, n, side, amount);
            if s.config.paused then r == Failure(Paused)
            else if amount < s.config.minBet then r == Failure(BetTooSmall)
            else if n != s.now / 300 + 1 then r == Failure(InvalidEpoch)
            else if (a, n) !in s.rounds then r == Failure(RoundNotFound)
            else if s.rounds[(a, n)].status != Open then r == Failure(RoundNotOpen)
            else if ((a, n), user) in s.bets then r == Failure(AlreadyBet)
            else r.Success? || r.error == Overflow || r.error.TokenFailed?
  {}
}

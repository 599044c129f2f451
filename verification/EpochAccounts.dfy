// The accounting identity of the epoch market over every run.

module EpochAccounts {
  import opened Wrappers
  import opened Fees
  import opened Sums
  import opened Token
  import opened Oracle
  import opened EpochMarket
  import opened EpochPipeline
  import opened EpochSolvency

  // What a call brings into the balance other than by a bet: a transfer by a
  // stranger, or a treasury paid to the contract itself.
  function Given(s: State, c: Call): int {
    if Step(s, c).Failure? then 0
    else
      match c.action
      case Pay(from, to, amount) => if to == SELF then amount else 0
      case DoClaimTreasury => if s.config.treasury == SELF && s.treasury > 0 then s.treasury else 0
      case _ => 0
  }

  function GivenAlong(s: State, calls: seq<Call>): int
    decreases |calls|
  {
    if calls == [] then 0 else Given(s, calls[0]) + GivenAlong(Apply(s, calls[0]), calls[1..])
  }

  // The condition the code leaves to the admin: a fee of at most 100%.
  predicate FeeBounded(c: Call) {
    c.action.DoSetConfig? ==> c.action.config.feeBps <= DENOM
  }

  // ----- One call ------------------------------------------------------------------------

  lemma ExecuteBalanced(s: State, c: Call, a: Asset, given: int)
    requires Balanced(s, given) && c.action == DoExecute(a) && Step(s, c).Success?
    ensures Balanced(Apply(s, c), given)
  {
    ExecuteBooks(c.feed, s, a);
    ExecuteShape(s, c, a);
  }

  lemma ExecuteShape(s: State, c: Call, a: Asset)
    requires Shape(s) && c.action == DoExecute(a) && Step(s, c).Success?
    requires Books(Apply(s, c).rounds, Apply(s, c).bets)
    ensures Shape(Apply(s, c)) && Apply(s, c).token == s.token
  {
    ExecuteCall(s, c, a);
    forall k | k in Apply(s, c).rounds ensures GenesisOf(Apply(s, c), k.0) != NotStarted {
      AdvancedAt(c.feed, s, a, k);
    }
    TreasuryGrows(s, c, a);
  }

  lemma TreasuryGrows(s: State, c: Call, a: Asset)
    requires Shape(s) && c.action == DoExecute(a) && Step(s, c).Success?
    ensures 0 <= Apply(s, c).treasury && Apply(s, c).config == s.config && Apply(s, c).token == s.token
  {
    if !AlreadyRun(s, a) {
      TakenIsDue(c.feed, s, a);
      forall k | k in s.rounds ensures 0 <= Taken(c.feed, s, a)[k] {
        FeeWithin(s.rounds[k].totalAmount, s.config.feeBps);
      }
      SumNonNeg(Taken(c.feed, s, a));
    }
  }

  // A state with sound books whose balance moved as its parts did.
  lemma Rebalanced(s: State, s': State, given: int, given': int)
    requires Balanced(s, given) && Books(s'.rounds, s'.bets) && 0 <= given'
    requires s'.config.feeBps <= DENOM && 0 <= s'.treasury && Valid(s'.token)
    requires forall k :: k in s'.rounds ==> GenesisOf(s', k.0) != NotStarted
    requires Bal(s'.token, SELF) - Bal(s.token, SELF) ==
             (s'.treasury - s.treasury) + (Sum(Holds(s'.rounds, s'.bets)) - Sum(Holds(s.rounds, s.bets)))
             + (given' - given)
    ensures Balanced(s', given')
  {}

  lemma GenesisKept(s: State, s': State)
    requires forall k :: k in s.rounds ==> GenesisOf(s, k.0) != NotStarted
    requires s'.rounds.Keys == s.rounds.Keys && s'.genesis == s.genesis
    ensures forall k :: k in s'.rounds ==> GenesisOf(s', k.0) != NotStarted
  {
    forall k | k in s'.rounds ensures GenesisOf(s', k.0) != NotStarted {
      assert k in s.rounds.Keys;
    }
  }

  lemma StartEffect(s: State, a: Asset)
    requires GenesisStart(s, a).Success?
    ensures GenesisOf(s, a) == NotStarted
    ensures var (k, s') := ((a, Epoch(s.now) + 1), GenesisStart(s, a).value);
            s' == s.(rounds := s.rounds[k := NewRound(s.now, k.1)], genesis := s'.genesis)
            && (forall x :: GenesisOf(s', x) == if x == a then Started else GenesisOf(s, x))
  {}

  lemma StartBalanced(s: State, a: Asset, given: int)
    requires Balanced(s, given) && GenesisStart(s, a).Success?
    ensures Balanced(GenesisStart(s, a).value, given)
  {
    var k, s' := (a, Epoch(s.now) + 1), GenesisStart(s, a).value;
    StartEffect(s, a);
    assert k !in s.rounds;
    OpenRounds(s.rounds, s.bets, k, s.now);
    OpenBooks(s.rounds, s.bets, k, s.now);
    Rebalanced(s, s', given, given);
  }

  lemma LockOneBooks(rounds: Rounds, bets: Bets, k: Key, ts: nat, price: Option<int>)
    requires Books(rounds, bets) && HasStatus(rounds, k, Open)
    ensures Books(rounds[k := LockedAt(rounds[k], ts, price)], bets)
    ensures Sum(Holds(rounds[k := LockedAt(rounds[k], ts, price)], bets)) == Sum(Holds(rounds, bets))
  {
    var rounds' := rounds[k := LockedAt(rounds[k], ts, price)];
    LockHold(rounds[k], bets, k, ts, price);
    OneChangeBooks(rounds, bets, rounds', bets, k);
    OneChangeHolds(rounds, bets, rounds', bets, k);
  }

  // The asset's rounds after genesis_lock: the current one locked, the next open.
  function LockedAndOpened(rounds: Rounds, a: Asset, e: nat, price: Option<int>): Rounds
    requires (a, e) in rounds
  {
    Opened(rounds[(a, e) := LockedAt(rounds[(a, e)], e * INTERVAL, price)], (a, e + 1), e * INTERVAL)
  }

  lemma LockEffect(feed: Feed<Asset>, s: State, a: Asset)
    requires GenesisLock(feed, s, a).Success?
    ensures var (e, s') := (Epoch(s.now), GenesisLock(feed, s, a).value);
            && HasStatus(s.rounds, (a, e), Open)
            && s' == s.(rounds := LockedAndOpened(s.rounds, a, e,
                                                  FetchPrice(feed, a, e * INTERVAL, s.config.staleness)),
                        genesis := s'.genesis)
            && (forall x :: GenesisOf(s', x) == if x == a then Running else GenesisOf(s, x))
  {}

  lemma LockBooks(rounds: Rounds, bets: Bets, a: Asset, e: nat, price: Option<int>)
    requires Books(rounds, bets) && HasStatus(rounds, (a, e), Open)
    ensures Books(LockedAndOpened(rounds, a, e, price), bets)
    ensures Sum(Holds(LockedAndOpened(rounds, a, e, price), bets)) == Sum(Holds(rounds, bets))
  {
    LockOneBooks(rounds, bets, (a, e), e * INTERVAL, price);
    OpenedBooks(rounds[(a, e) := LockedAt(rounds[(a, e)], e * INTERVAL, price)], bets, (a, e + 1), e * INTERVAL);
  }

  lemma LockedKeys(rounds: Rounds, a: Asset, e: nat, price: Option<int>)
    requires (a, e) in rounds
    ensures LockedAndOpened(rounds, a, e, price).Keys == rounds.Keys + {(a, e + 1)}
  {}

  lemma GenesisWith(s: State, s': State, more: Key)
    requires forall k :: k in s.rounds ==> GenesisOf(s, k.0) != NotStarted
    requires s'.rounds.Keys == s.rounds.Keys + {more} && GenesisOf(s', more.0) != NotStarted
    requires forall x :: GenesisOf(s, x) != NotStarted ==> GenesisOf(s', x) != NotStarted
    ensures forall k :: k in s'.rounds ==> GenesisOf(s', k.0) != NotStarted
  {
    forall k | k in s'.rounds ensures GenesisOf(s', k.0) != NotStarted {
      assert k in s.rounds.Keys || k == more;
    }
  }

  lemma LockRebalanced(s: State, s': State, a: Asset, e: nat, price: Option<int>, given: int)
    requires Balanced(s, given) && HasStatus(s.rounds, (a, e), Open)
    requires s' == s.(rounds := LockedAndOpened(s.rounds, a, e, price), genesis := s'.genesis)
    requires forall x :: GenesisOf(s', x) == if x == a then Running else GenesisOf(s, x)
    ensures Balanced(s', given)
  {
    LockBooks(s.rounds, s.bets, a, e, price);
    LockedKeys(s.rounds, a, e, price);
    GenesisWith(s, s', (a, e + 1));
    Rebalanced(s, s', given, given);
  }

  lemma LockBalanced(feed: Feed<Asset>, s: State, a: Asset, given: int)
    requires Balanced(s, given) && GenesisLock(feed, s, a).Success?
    ensures Balanced(GenesisLock(feed, s, a).value, given)
  {
    LockEffect(feed, s, a);
    var e := Epoch(s.now);
    LockRebalanced(s, GenesisLock(feed, s, a).value, a, e, FetchPrice(feed, a, e * INTERVAL, s.config.staleness),
                   given);
  }

  lemma BetEffect(s: State, user: Address, a: Asset, epoch: nat, side: Direction, amount: int)
    requires PlaceBet(s, user, a, epoch, side, amount).Success?
    ensures 0 <= amount && user != SELF
    ensures var (k, b, s') := ((a, epoch), Bet(side, amount, false), PlaceBet(s, user, a, epoch, side, amount).value);
            && HasStatus(s.rounds, k, Open) && (k, user) !in s.bets
            && AddBet(s.rounds[k], side, amount).Some?
            && s' == s.(rounds := s.rounds[k := AddBet(s.rounds[k], side, amount).value],
                        bets := s.bets[(k, user) := b], userEpochs := s'.userEpochs, token := s'.token)
            && s'.rounds.Keys == s.rounds.Keys
            && Bal(s'.token, SELF) == Bal(s.token, SELF) + amount
            && (Valid(s.token) ==> Valid(s'.token))
  {}

  lemma BetRebalanced(s: State, s': State, k: Key, r': Round, user: Address, b: Bet, given: int)
    requires Balanced(s, given) && HasStatus(s.rounds, k, Open) && (k, user) !in s.bets && user != SELF && !b.claimed
    requires AddBet(s.rounds[k], b.direction, b.amount) == Some(r')
    requires s' == s.(rounds := s.rounds[k := r'], bets := s.bets[(k, user) := b], userEpochs := s'.userEpochs,
                      token := s'.token)
    requires s'.rounds.Keys == s.rounds.Keys
    requires Valid(s'.token) && Bal(s'.token, SELF) == Bal(s.token, SELF) + b.amount
    ensures Balanced(s', given)
  {
    GenesisKept(s, s');
    BetBooks(s.rounds, s.bets, k, r', user, b);
    assert Sum(Holds(s'.rounds, s'.bets)) == Sum(Holds(s.rounds, s.bets)) + b.amount;
    Rebalanced(s, s', given, given);
  }

  lemma BetBalanced(s: State, user: Address, a: Asset, epoch: nat, side: Direction, amount: int, given: int)
    requires Balanced(s, given) && PlaceBet(s, user, a, epoch, side, amount).Success?
    ensures Balanced(PlaceBet(s, user, a, epoch, side, amount).value, given)
  {
    BetEffect(s, user, a, epoch, side, amount);
    var k := (a, epoch);
    BetRebalanced(s, PlaceBet(s, user, a, epoch, side, amount).value, k, AddBet(s.rounds[k], side, amount).value, user,
                  Bet(side, amount, false), given);
  }

  lemma PaidEffect(s: State, user: Address, b: Batch)
    requires PayBatch(s, user, Some(b)).Success?
    ensures b.count != 0
    ensures var s' := PayBatch(s, user, Some(b)).value;
            && s' == s.(bets := b.bets, token := s'.token)
            && (user != SELF ==> Bal(s'.token, SELF) == Bal(s.token, SELF) - b.total)
            && (Valid(s.token) ==> Valid(s'.token))
  {}

  lemma PaidBalanced(s: State, user: Address, b: Batch, given: int)
    requires Balanced(s, given) && Drawn(s.rounds, s.bets, user, b) && PayBatch(s, user, Some(b)).Success?
    ensures Balanced(PayBatch(s, user, Some(b)).value, given)
  {
    PaidEffect(s, user, b);
    Rebalanced(s, PayBatch(s, user, Some(b)).value, given, given);
  }

  lemma ClaimBalanced(s: State, a: Asset, epochs: seq<nat>, user: Address, given: int)
    requires Balanced(s, given) && Claim(s, a, epochs, user).Success?
    ensures Balanced(Claim(s, a, epochs, user).value, given)
  {
    ClaimDraws(s.rounds, s.bets, a, user, epochs);
    PaidBalanced(s, user, ClaimEpochs(s.rounds, s.bets, a, user, epochs).value, given);
  }

  lemma RefundBalanced(s: State, a: Asset, epochs: seq<nat>, user: Address, given: int)
    requires Balanced(s, given) && Refund(s, a, epochs, user).Success?
    ensures Balanced(Refund(s, a, epochs, user).value, given)
  {
    RefundDraws(s.rounds, s.bets, a, user, epochs);
    PaidBalanced(s, user, RefundEpochs(s.rounds, s.bets, a, user, epochs).value, given);
  }

  lemma SweepEffect(s: State, c: Call)
    requires c.action.DoClaimTreasury?
    ensures var s' := Apply(s, c);
            && s' == s.(treasury := s'.treasury, token := s'.token)
            && (0 <= s.treasury ==> 0 <= s'.treasury && 0 <= Given(s, c))
            && (Valid(s.token) ==> Valid(s'.token))
            && Bal(s'.token, SELF) - Bal(s.token, SELF) == (s'.treasury - s.treasury) + Given(s, c)
  {}

  lemma PlainEffect(s: State, c: Call)
    requires c.action.DoSetConfig? || c.action.Tick? || c.action.Pay?
    ensures var s' := Apply(s, c);
            && s' == s.(config := s'.config, now := s'.now, token := s'.token)
            && (s'.config == s.config || (c.action.DoSetConfig? && s'.config == c.action.config))
            && 0 <= Given(s, c) && (Valid(s.token) ==> Valid(s'.token))
            && Bal(s'.token, SELF) == Bal(s.token, SELF) + Given(s, c)
  {}

  lemma PlainBalanced(s: State, c: Call, given: int)
    requires Balanced(s, given) && FeeBounded(c)
    requires c.action.DoClaimTreasury? || c.action.DoSetConfig? || c.action.Tick? || c.action.Pay?
    ensures Balanced(Apply(s, c), given + Given(s, c))
  {
    if c.action.DoClaimTreasury? {
      SweepEffect(s, c);
    } else {
      PlainEffect(s, c);
    }
    GenesisKept(s, Apply(s, c));
    Rebalanced(s, Apply(s, c), given, given + Given(s, c));
  }

  lemma DrivenBalanced(s: State, c: Call, given: int)
    requires Balanced(s, given) && Step(s, c).Success?
    requires c.action.DoExecute? || c.action.DoGenesisStart? || c.action.DoGenesisLock?
    ensures Balanced(Apply(s, c), given + Given(s, c))
  {
    match c.action
    case DoExecute(a) => ExecuteBalanced(s, c, a, given);
    case DoGenesisStart(a) => StartBalanced(s, a, given);
    case DoGenesisLock(a) => LockBalanced(c.feed, s, a, given);
  }

  lemma StepBalanced(s: State, c: Call, given: int)
    requires Balanced(s, given) && FeeBounded(c)
    ensures Balanced(Apply(s, c), given + Given(s, c))
  {
    if Step(s, c).Success? {
      match c.action
      case DoExecute(a) => DrivenBalanced(s, c, given);
      case DoGenesisStart(a) => DrivenBalanced(s, c, given);
      case DoGenesisLock(a) => DrivenBalanced(s, c, given);
      case DoBet(user, a, epoch, side, amount) => BetBalanced(s, user, a, epoch, side, amount, given);
      case DoClaim(a, epochs, user) => ClaimBalanced(s, a, epochs, user, given);
      case DoRefund(a, epochs, user) => RefundBalanced(s, a, epochs, user, given);
      case _ => PlainBalanced(s, c, given);
    }
  }

  // ----- Every run --------------------------------------------------------------------------

  // The accounting identity: after any run over any assets, epochs and users,
  // under any configuration whose fee is at most 100%, the balance is exactly
  // the treasury, the stakes of open and locked rounds, the unclaimed refunds,
  // the unclaimed winnings, the dust, and what strangers gave.
  lemma {:induction false} AlwaysBalanced(s: State, calls: seq<Call>, given: int)
    requires Balanced(s, given)
    requires forall c :: c in calls ==> FeeBounded(c)
    ensures Balanced(Run(s, calls), given + GivenAlong(s, calls))
    decreases |calls|
  {
    if calls == [] {
    } else {
      StepBalanced(s, calls[0], given);
      AlwaysBalanced(Apply(s, calls[0]), calls[1..], given + Given(s, calls[0]));
    }
  }

  lemma FreshIsBalanced(treasury: Address, feeBps: nat, minBet: int, token: Balances, now: nat)
    requires feeBps <= DENOM && Valid(token)
    ensures Balanced(Initialize(treasury, feeBps, minBet, token, now), Bal(token, SELF))
  {
    assert Holds(map[], map[]) == map[];
  }

  // ----- Solvency ------------------------------------------------------------------------------

  lemma HoldsNonNeg(rounds: Rounds, bets: Bets)
    requires Books(rounds, bets)
    ensures 0 <= Sum(Holds(rounds, bets))
  {
    forall k | k in rounds ensures 0 <= Holds(rounds, bets)[k] {
      HoldNonNeg(rounds[k], bets, k);
    }
    SumNonNeg(Holds(rounds, bets));
  }

  lemma DrawnIsCovered(s: State, user: Address, b: Batch, given: int)
    requires Balanced(s, given) && Drawn(s.rounds, s.bets, user, b)
    ensures b.total <= Bal(s.token, SELF)
    ensures PayBatch(s, user, Some(b)) != Failure(TokenFailed(InsufficientBalance))
  {
    HoldsNonNeg(s.rounds, b.bets);
  }

  // No claim, refund or treasury sweep ever finds the balance short.
  lemma NeverShort(s: State, c: Call, given: int)
    requires Balanced(s, given)
    requires c.action.DoClaim? || c.action.DoRefund? || c.action.DoClaimTreasury?
    ensures Step(s, c) != Failure(TokenFailed(InsufficientBalance))
  {
    match c.action
    case DoClaim(a, epochs, user) =>
      var all := ClaimEpochs(s.rounds, s.bets, a, user, epochs);
      if all.Some? {
        ClaimDraws(s.rounds, s.bets, a, user, epochs);
        DrawnIsCovered(s, user, all.value, given);
      }
    case DoRefund(a, epochs, user) =>
      var all := RefundEpochs(s.rounds, s.bets, a, user, epochs);
      if all.Some? {
        RefundDraws(s.rounds, s.bets, a, user, epochs);
        DrawnIsCovered(s, user, all.value, given);
      }
    case DoClaimTreasury =>
      HoldsNonNeg(s.rounds, s.bets);
  }

  // In every state a run reaches each resolved round has between 0 and
  // winners - 1 stroops of dust.
  lemma DustInEveryRun(s: State, calls: seq<Call>, given: int, k: Key)
    requires Balanced(s, given)
    requires forall c :: c in calls ==> FeeBounded(c)
    requires HasStatus(Run(s, calls).rounds, k, Resolved)
    ensures var v := Run(s, calls);
            0 <= Dust(v.rounds[k], v.bets, k) <= |Winners(v.rounds[k], v.bets, k)| - 1
  {
    AlwaysBalanced(s, calls, given);
    DustBounds(Run(s, calls).rounds[k], Run(s, calls).bets, k);
  }

  // ----- As the contract's calls use it ------------------------------------------------------

  // What the balance holds beyond the treasury and what the rounds account for.
  ghost function Surplus(s: State): int {
    Bal(s.token, SELF) - s.treasury - Sum(Holds(s.rounds, s.bets))
  }

  ghost predicate Sound(s: State) {
    Balanced(s, Surplus(s))
  }

  predicate Draws(a: Action) {
    a.DoClaim? || a.DoRefund? || a.DoClaimTreasury?
  }

  lemma CallKept(s: State, c: Call)
    ensures Sound(s) && FeeBounded(c) ==>
              && Sound(Apply(s, c)) && Surplus(Apply(s, c)) == Surplus(s) + Given(s, c)
    ensures Sound(s) && Draws(c.action) ==> Step(s, c) != Failure(TokenFailed(InsufficientBalance))
  {
    if Sound(s) {
      if FeeBounded(c) {
        StepBalanced(s, c, Surplus(s));
      }
      if Draws(c.action) {
        NeverShort(s, c, Surplus(s));
      }
    }
  }
}

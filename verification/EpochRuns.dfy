// A fee above 100%, played out in whole runs of the epoch market from
// initialize on: exactly what keeps its balance sufficient.

module EpochRuns {
  import opened Wrappers
  import opened Checked
  import opened Fees
  import opened Token
  import opened Oracle
  import opened EpochMarket
  import opened EpochAccounts

  // The type of fee_bps.
  const U32_MAX: nat := 0xFFFF_FFFF

  const STAKE: nat := 10_000

  const SHORT: Error := TokenFailed(InsufficientBalance)

  function Climbing(): Feed<Asset> {
    (a: Asset, ts: nat) => Some(PriceData(ts, ts))
  }

  function Do(a: Action): Call {
    Call(Climbing(), a)
  }

  function Start(feeBps: nat): State {
    Initialize(9, feeBps, 1, map[1 := STAKE, 2 := STAKE], 0)
  }

  // One round of equal stakes, opened and bet on; then locked and, an epoch
  // later, resolved at a higher price.
  function Betting(): seq<Call> {
    [Do(DoGenesisStart(Btc)), Do(DoBet(1, Btc, 1, Up, STAKE)), Do(DoBet(2, Btc, 1, Down, STAKE))]
  }

  function Closing(): seq<Call> {
    [Do(Tick(300)), Do(DoGenesisLock(Btc)), Do(Tick(600)), Do(DoExecute(Btc))]
  }

  const FULL: Round := Round(0, 300, 600, 0, 0, STAKE, STAKE, 2 * STAKE, 0, 0, Open)

  lemma Unroll(s: State, c: Call, rest: seq<Call>)
    ensures Run(s, [c] + rest) == Run(Apply(s, c), rest)
  {
    assert ([c] + rest)[1..] == rest;
  }

  lemma RunThree(s: State, a: Call, b: Call, c: Call)
    ensures Run(s, [a, b, c]) == Apply(Apply(Apply(s, a), b), c)
  {
    Unroll(s, a, [b, c]);
    Unroll(Apply(s, a), b, [c]);
    Unroll(Apply(Apply(s, a), b), c, []);
    assert [a] + [b, c] == [a, b, c] && [b] + [c] == [b, c] && [c] + [] == [c];
  }

  lemma RunFour(s: State, a: Call, b: Call, c: Call, d: Call)
    ensures Run(s, [a, b, c, d]) == Apply(Apply(Apply(Apply(s, a), b), c), d)
  {
    Unroll(s, a, [b, c, d]);
    RunThree(Apply(s, a), b, c, d);
    assert [a] + [b, c, d] == [a, b, c, d];
  }

  lemma BetLands(s: State, user: Address, n: nat, side: Direction, r: Round)
    requires user != SELF && !s.config.paused && s.config.minBet <= STAKE && n == Epoch(s.now) + 1
    requires HasStatus(s.rounds, (Btc, n), Open) && ((Btc, n), user) !in s.bets
    requires STAKE <= Bal(s.token, user) && Bal(s.token, SELF) + STAKE <= I128_MAX
    requires AddBet(s.rounds[(Btc, n)], side, STAKE) == Some(r)
    ensures var s' := Apply(s, Do(DoBet(user, Btc, n, side, STAKE)));
            && s'.rounds == s.rounds[(Btc, n) := r] && s'.bets == s.bets[((Btc, n), user) := Bet(side, STAKE, false)]
            && s'.config == s.config && s'.now == s.now && s'.genesis == s.genesis && s'.treasury == s.treasury
            && Bal(s'.token, SELF) == Bal(s.token, SELF) + STAKE
            && (forall a :: a != SELF && a != user ==> Bal(s'.token, a) == Bal(s.token, a))
  {}

  lemma Staked(feeBps: nat)
    ensures var s := Run(Start(feeBps), Betting());
            && s.config == Start(feeBps).config && s.now == 0 && s.treasury == 0
            && s.genesis == map[Btc := Started] && s.rounds == map[(Btc, 1) := FULL]
            && Bal(s.token, SELF) == 2 * STAKE
  {
    var s0 := Start(feeBps);
    var s1 := Apply(s0, Do(DoGenesisStart(Btc)));
    assert s1.rounds == map[(Btc, 1) := NewRound(0, 1)];
    BetLands(s1, 1, 1, Up, FULL.(downAmount := 0, totalAmount := STAKE));
    var s2 := Apply(s1, Do(DoBet(1, Btc, 1, Up, STAKE)));
    BetLands(s2, 2, 1, Down, FULL);
    RunThree(s0, Do(DoGenesisStart(Btc)), Do(DoBet(1, Btc, 1, Up, STAKE)), Do(DoBet(2, Btc, 1, Down, STAKE)));
  }

  // A round as it locks at 300.
  function LockedThen(r: Round): Round {
    r.(startPrice := 300, lockTime := 300, status := Locked)
  }

  lemma Locks(s: State, r: Round)
    requires !s.config.paused && s.genesis == map[Btc := Started] && s.rounds == map[(Btc, 1) := r] && s.now == 300
    requires r.status == Open
    ensures var s' := Apply(s, Do(DoGenesisLock(Btc)));
            && s' == s.(rounds := s'.rounds, genesis := map[Btc := Running])
            && s'.rounds == map[(Btc, 1) := LockedThen(r), (Btc, 2) := NewRound(300, 2)]
  {
    assert GenesisOf(s, Btc) == Started && Epoch(300) == 1;
    assert FetchPrice(Climbing(), Btc, 300, s.config.staleness) == Some(300);
  }

  // The fee of a pot of 20 000 is twice the basis points.
  lemma FeeOfPot(feeBps: nat)
    ensures Fee(2 * STAKE, feeBps) == 2 * feeBps
  {
    QuotUnique(2 * STAKE * feeBps, DENOM, 2 * feeBps);
  }

  lemma Executes(s: State)
    requires s.genesis == map[Btc := Running] && s.treasury == 0 && s.now == 600 && s.config.feeBps <= U32_MAX
    requires s.rounds == map[(Btc, 1) := LockedThen(FULL), (Btc, 2) := NewRound(300, 2)]
    ensures var s' := Apply(s, Do(DoExecute(Btc)));
            s' == s.(rounds := s'.rounds, treasury := 2 * s.config.feeBps)
  {
    assert GenesisOf(s, Btc) == Running && Epoch(600) == 2;
    assert FetchPrice(Climbing(), Btc, 600, s.config.staleness) == Some(600);
    FeeOfPot(s.config.feeBps);
    assert FeeDue(Climbing(), s, Btc, 1, 600) == Some(2 * s.config.feeBps);
    assert FeeDue(Climbing(), s, Btc, 0, 300) == Some(0);
  }

  lemma LocksAndWaits(s: State)
    requires !s.config.paused && s.genesis == map[Btc := Started] && s.rounds == map[(Btc, 1) := FULL] && s.now == 0
    ensures var s' := Apply(Apply(Apply(s, Do(Tick(300))), Do(DoGenesisLock(Btc))), Do(Tick(600)));
            && s' == s.(rounds := s'.rounds, genesis := map[Btc := Running], now := 600)
            && s'.rounds == map[(Btc, 1) := LockedThen(FULL), (Btc, 2) := NewRound(300, 2)]
  {
    Locks(Apply(s, Do(Tick(300))), FULL);
  }

  // For every fee: after this run the treasury claims twice the basis points,
  // of a balance of 20 000.
  lemma TreasuryOfOneRound(feeBps: nat)
    requires feeBps <= U32_MAX
    ensures var s := Run(Run(Start(feeBps), Betting()), Closing());
            && s.treasury == 2 * feeBps && Bal(s.token, SELF) == 2 * STAKE
            && s.config == Start(feeBps).config
  {
    Staked(feeBps);
    var s := Run(Start(feeBps), Betting());
    LocksAndWaits(s);
    Executes(Apply(Apply(Apply(s, Do(Tick(300))), Do(DoGenesisLock(Btc))), Do(Tick(600))));
    RunFour(s, Do(Tick(300)), Do(DoGenesisLock(Btc)), Do(Tick(600)), Do(DoExecute(Btc)));
  }

  // A complete run from initialize after which the treasury cannot be paid, for
  // every fee above 100%.
  lemma FeeAboveWholeStrands(feeBps: nat)
    requires DENOM < feeBps <= U32_MAX
    ensures var s := Run(Start(feeBps), Betting() + Closing());
            Step(s, Do(DoClaimTreasury)) == Failure(SHORT)
  {
    TreasuryOfOneRound(feeBps);
    RunCat(Start(feeBps), Betting(), Closing());
    TreasuryShort(Run(Start(feeBps), Betting() + Closing()));
  }

  lemma TreasuryShort(s: State)
    requires 0 <= Bal(s.token, SELF) < s.treasury
    ensures Step(s, Do(DoClaimTreasury)) == Failure(SHORT)
  {}

  lemma {:induction false} RunCat(s: State, a: seq<Call>, b: seq<Call>)
    ensures Run(s, a + b) == Run(Run(s, a), b)
    decreases |a|
  {
    if a == [] {
      assert a + b == b;
    } else {
      RunCat(Apply(s, a[0]), a[1..], b);
      assert (a + b)[0] == a[0] && (a + b)[1..] == a[1..] + b;
    }
  }

  // The fee is never set to anything else.
  ghost predicate KeepsFee(calls: seq<Call>, feeBps: nat) {
    forall c :: c in calls && c.action.DoSetConfig? ==> c.action.config.feeBps == feeBps
  }

  // In every run from every initialization with a fee, and keeping to it, every
  // claim, refund and treasury sweep finds the balance it needs.
  ghost predicate AlwaysFunded(feeBps: nat) {
    forall treasury: Address, minBet: int, token: Balances, now: nat, calls: seq<Call>, last: Call ::
      Valid(token) && KeepsFee(calls, feeBps) && Draws(last.action) ==>
        Step(Run(Initialize(treasury, feeBps, minBet, token, now), calls), last) != Failure(SHORT)
  }

  // What the contract leaves to its admin, exactly: everything is always funded
  // if and only if the fee is at most 100%.
  lemma FundedExactlyWhen(feeBps: nat)
    requires feeBps <= U32_MAX
    ensures AlwaysFunded(feeBps) <==> feeBps <= DENOM
  {
    if feeBps <= DENOM {
      forall treasury: Address, minBet: int, token: Balances, now: nat, calls: seq<Call>, last: Call
        | Valid(token) && KeepsFee(calls, feeBps) && Draws(last.action)
        ensures Step(Run(Initialize(treasury, feeBps, minBet, token, now), calls), last) != Failure(SHORT)
      {
        FundedBelowWhole(treasury, feeBps, minBet, token, now, calls, last);
      }
    } else {
      FeeAboveWholeStrands(feeBps);
      assert KeepsFee(Betting() + Closing(), feeBps);
      assert Step(Run(Initialize(9, feeBps, 1, map[1 := STAKE, 2 := STAKE], 0), Betting() + Closing()),
                  Do(DoClaimTreasury)) == Failure(SHORT);
    }
  }

  lemma FundedBelowWhole(treasury: Address, feeBps: nat, minBet: int, token: Balances, now: nat, calls: seq<Call>,
                         last: Call)
    requires feeBps <= DENOM && Valid(token) && KeepsFee(calls, feeBps) && Draws(last.action)
    ensures Step(Run(Initialize(treasury, feeBps, minBet, token, now), calls), last) != Failure(SHORT)
  {
    var s := Initialize(treasury, feeBps, minBet, token, now);
    FreshIsBalanced(treasury, feeBps, minBet, token, now);
    AlwaysBalanced(s, calls, Bal(token, SELF));
    NeverShort(Run(s, calls), last, Bal(token, SELF) + GivenAlong(s, calls));
  }
}

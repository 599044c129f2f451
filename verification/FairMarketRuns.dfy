// A cut of the fee between settlement and claim, played out in whole runs of
// the fair market from initialize on: it leaves the winner short exactly when
// the later fee does not suffice.

module FairMarketRuns {
  import opened Wrappers
  import opened Checked
  import opened Fees
  import opened Token
  import opened Oracle
  import opened FairMarket
  import opened FairMarketSolvency

  function Rising(): Feed<Symbol> {
    (asset: Symbol, ts: nat) => Some(PriceData(11, ts))
  }

  // One user has what is staked on up, another what is staked on down.
  function Setting(settled: nat): Config {
    Config(9, settled, 1, MIN_LOCK_OFFSET)
  }

  function Start(up: nat, down: nat, settled: nat): World {
    World(State(Setting(settled), 0, 0, map[], map[], map[], map[1 := up, 2 := down], 100), map[], map[])
  }

  // A round is created and both stake; the price rises, the round is settled
  // and the fee swept; then the fee is set to something else.
  function Staking(up: nat, down: nat): seq<Action> {
    [DoCreate("BTC", Some(PriceData(10, 100))), DoBet(1, 1, Up, up), DoBet(2, 1, Down, down)]
  }

  function Cutting(fee: nat): seq<Action> {
    [Tick(400), DoSettle(1), DoSweep, DoSetFee(fee)]
  }

  function Risen(up: nat, down: nat): Round {
    Round(Ticket("BTC", 10, 100, 400, 190), up, down, Settled, UpWon, 11)
  }

  // Stakes whose products fit into i128.
  predicate Moderate(up: nat, down: nat) {
    && 0 < up && 0 < down
    && (up + down) * (up + down) <= I128_MAX && (up + down) * DENOM <= I128_MAX
  }

  lemma Unroll(feed: Feed<Symbol>, w: World, a: Action, rest: seq<Action>)
    ensures Run(feed, w, [a] + rest) == Run(feed, Next(feed, w, a), rest)
  {
    assert ([a] + rest)[1..] == rest;
  }

  lemma RunThree(feed: Feed<Symbol>, w: World, a: Action, b: Action, c: Action)
    ensures Run(feed, w, [a, b, c]) == Next(feed, Next(feed, Next(feed, w, a), b), c)
  {
    Unroll(feed, w, a, [b, c]);
    Unroll(feed, Next(feed, w, a), b, [c]);
    Unroll(feed, Next(feed, Next(feed, w, a), b), c, []);
    assert [a] + [b, c] == [a, b, c] && [b] + [c] == [b, c] && [c] + [] == [c];
  }

  lemma RunFour(feed: Feed<Symbol>, w: World, a: Action, b: Action, c: Action, d: Action)
    ensures Run(feed, w, [a, b, c, d]) == Next(feed, Next(feed, Next(feed, Next(feed, w, a), b), c), d)
  {
    Unroll(feed, w, a, [b, c, d]);
    RunThree(feed, Next(feed, w, a), b, c, d);
    assert [a] + [b, c, d] == [a, b, c, d];
  }

  lemma BetLands(s: State, user: Address, id: nat, side: Side, amount: nat)
    requires user != SELF && s.config.minBet <= amount && id in s.rounds && (id, user) !in s.positions
    requires s.now < s.rounds[id].ticket.lockTs && s.rounds[id].status == Open
    requires amount <= Bal(s.token, user) && Bal(s.token, SELF) + amount <= I128_MAX
    requires AddStake(s.rounds[id], side, amount).Some?
    ensures PlaceBet(s, user, id, side, amount).Success?
  {}

  lemma Staked(up: nat, down: nat, settled: nat)
    requires Moderate(up, down)
    ensures var w := Run(Rising(), Start(up, down, settled), Staking(up, down));
            && w.s.config == Setting(settled) && w.s.fees == 0 && w.s.now == 100
            && w.s.rounds == map[1 := Risen(up, down).(status := Open, outcome := Void, settlePrice := 0)]
            && (1, 1) in w.s.positions && w.s.positions[(1, 1)] == Position(Up, up, false)
            && Bal(w.s.token, SELF) == up + down && Bal(w.s.token, 1) == 0 && Bal(w.s.token, 9) == 0
  {
    MulMono(up + down, 1, up + down);
    var w0 := Start(up, down, settled);
    var w1 := Next(Rising(), w0, DoCreate("BTC", Some(PriceData(10, 100))));
    CreateEffect(Rising(), w0, "BTC", Some(PriceData(10, 100)));
    BetLands(w1.s, 1, 1, Up, up);
    BetEffect(Rising(), w1, 1, 1, Up, up);
    var w2 := Next(Rising(), w1, DoBet(1, 1, Up, up));
    BetLands(w2.s, 2, 1, Down, down);
    BetEffect(Rising(), w2, 2, 1, Down, down);
    RunThree(Rising(), w0, DoCreate("BTC", Some(PriceData(10, 100))), DoBet(1, 1, Up, up), DoBet(2, 1, Down, down));
  }

  lemma SweepLands(feed: Feed<Symbol>, w: World)
    requires 0 <= w.s.fees <= Bal(w.s.token, SELF) && w.s.config.admin != SELF
    requires Bal(w.s.token, w.s.config.admin) + w.s.fees <= I128_MAX
    ensures var w' := Next(feed, w, DoSweep);
            && w' == w.(s := w.s.(fees := 0, token := w'.s.token))
            && Bal(w'.s.token, SELF) == Bal(w.s.token, SELF) - w.s.fees
            && (forall a :: a != SELF && a != w.s.config.admin ==> Bal(w'.s.token, a) == Bal(w.s.token, a))
  {}

  lemma Settles(s: State, up: nat, down: nat)
    requires Moderate(up, down) && s.config.feeBps <= MAX_FEE_BPS && s.fees == 0 && 400 <= s.now
    requires s.rounds == map[1 := Risen(up, down).(status := Open, outcome := Void, settlePrice := 0)]
    ensures SettledRound(s.rounds[1], Rising()("BTC", 400)) == Risen(up, down)
    ensures Settle(Rising(), s, 1).Success?
  {
    MulMono(up + down, s.config.feeBps, DENOM);
    FeeWithin(up + down, s.config.feeBps);
    MulMono(up + down, 1, up + down);
  }

  lemma Cut(w: World, up: nat, down: nat, settled: nat, current: nat)
    requires Moderate(up, down) && settled <= MAX_FEE_BPS && current <= MAX_FEE_BPS
    requires w.s.config == Setting(settled) && w.s.fees == 0 && w.s.now == 100
    requires w.s.rounds == map[1 := Risen(up, down).(status := Open, outcome := Void, settlePrice := 0)]
    requires Bal(w.s.token, SELF) == up + down && Bal(w.s.token, 9) == 0
    ensures var w' := Run(Rising(), w, Cutting(current));
            && w'.s.config.feeBps == current && FeeOf(w', 1) == settled
            && w'.s.rounds == map[1 := Risen(up, down)] && w'.s.positions == w.s.positions
            && Bal(w'.s.token, SELF) == up + down - Fee(up + down, settled)
            && Bal(w'.s.token, 1) == Bal(w.s.token, 1)
  {
    var w1 := Next(Rising(), w, Tick(400));
    Settles(w1.s, up, down);
    SettleEffect(Rising(), w1, 1);
    var w2 := Next(Rising(), w1, DoSettle(1));
    FeeWithin(up + down, settled);
    MulMono(up + down, 1, up + down);
    SweepLands(Rising(), w2);
    RunFour(Rising(), w, Tick(400), DoSettle(1), DoSweep, DoSetFee(current));
  }

  lemma WinnerIsDue(up: nat, down: nat, current: nat)
    requires Moderate(up, down) && current <= MAX_FEE_BPS
    ensures var (r, p) := (Risen(up, down), Position(Up, up, false));
            && CheckedPayout(r, current, p) == Some(Payout(r, current, p))
            && Payout(r, current, p) == up + down - Fee(up + down, current)
  {
    var pot := up + down;
    var d := pot - Fee(pot, current);
    FeeWithin(pot, current);
    MulMono(pot, current, DENOM);
    MulMono(up, d, pot);
    MulMono(pot, up, pot);
    QuotUnique(up * d, up, d);
  }

  lemma ClaimsOrFails(s: State, user: Address, id: nat, pay: int)
    requires user != SELF && Due(s.rounds, s.positions, s.config.feeBps, user, id) == Some(pay) && 0 < pay
    requires Bal(s.token, user) + pay <= I128_MAX
    ensures Claim(s, user, id) == Failure(TokenFailed(InsufficientBalance)) <==> Bal(s.token, SELF) < pay
  {}

  lemma Stranded(s: State, up: nat, down: nat, settled: nat)
    requires Moderate(up, down) && settled <= MAX_FEE_BPS && s.config.feeBps <= MAX_FEE_BPS
    requires s.rounds == map[1 := Risen(up, down)]
    requires (1, 1) in s.positions && s.positions[(1, 1)] == Position(Up, up, false)
    requires Bal(s.token, SELF) == up + down - Fee(up + down, settled) && Bal(s.token, 1) == 0
    ensures Claim(s, 1, 1) == Failure(TokenFailed(InsufficientBalance))
       <==> !Suffices(Risen(up, down), settled, s.config.feeBps)
  {
    WinnerIsDue(up, down, s.config.feeBps);
    FeeWithin(up + down, s.config.feeBps);
    FeeBelow(up + down, s.config.feeBps);
    MulMono(up + down, 1, up + down);
    ClaimsOrFails(s, 1, 1, up + down - Fee(up + down, s.config.feeBps));
  }

  lemma FeeBelow(pot: nat, feeBps: nat)
    requires 0 < pot && feeBps <= MAX_FEE_BPS
    ensures Fee(pot, feeBps) < pot
  {
    MulMono(pot, feeBps, MAX_FEE_BPS);
    QuotBounds(pot * feeBps, DENOM);
  }

  // For all stakes and any two fees: the winner's claim finds the balance short
  // if and only if the fee now standing does not suffice for a round settled at
  // the old one.
  lemma CutStrandsExactlyWhen(up: nat, down: nat, settled: nat, current: nat)
    requires Moderate(up, down) && settled <= MAX_FEE_BPS && current <= MAX_FEE_BPS
    ensures Initialize(Setting(settled), Start(up, down, settled).s.token, 100) == Success(Start(up, down, settled).s)
    ensures var w := Run(Rising(), Run(Rising(), Start(up, down, settled), Staking(up, down)), Cutting(current));
            && w.s.rounds == map[1 := Risen(up, down)] && FeeOf(w, 1) == settled && w.s.config.feeBps == current
            && (Claim(w.s, 1, 1) == Failure(TokenFailed(InsufficientBalance))
                <==> !Suffices(Risen(up, down), settled, current))
  {
    Staked(up, down, settled);
    var w := Run(Rising(), Start(up, down, settled), Staking(up, down));
    Cut(w, up, down, settled, current);
    Stranded(Run(Rising(), w, Cutting(current)).s, up, down, settled);
  }

  // In particular a round of 1000 against 1000 settled at 5% and claimed free of
  // fee strands its winner.
  lemma FeeCutStrandsTheWinner()
    ensures var w := Run(Rising(), Run(Rising(), Start(1000, 1000, 500), Staking(1000, 1000)), Cutting(0));
            Claim(w.s, 1, 1) == Failure(TokenFailed(InsufficientBalance))
  {
    CutStrandsExactlyWhen(1000, 1000, 500, 0);
    assert Fee(2000, 500) == 100 && Fee(2000, 0) == 0;
  }
}

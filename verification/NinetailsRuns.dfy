// A cut of the fee between settlement and claim, played out in whole runs of
// the Ninetails market from initialize on: it leaves one of the two bettors
// short exactly when the round cannot afford the later fee.

module NinetailsRuns {
  import opened Wrappers
  import opened Checked
  import opened Fees
  import opened Sums
  import opened Token
  import opened Oracle
  import opened NinetailsMath
  import opened Ninetails
  import opened NinetailsConservation
  import opened NinetailsFees
  import opened NinetailsSolvency
  import opened NinetailsAggregates

  function Rising(): Feed<Symbol> {
    (asset: Symbol, ts: nat) => Some(PriceData(11, ts))
  }

  // Two stakes, on above and below, each placed some time before the lock, in a
  // market whose rounds lock this long after their strike.
  datatype Plan = Plan(above: nat, below: nat, early: nat, late: nat, offset: nat)

  // Stakes and times whose products fit into i128.
  predicate Moderate(p: Plan) {
    && 0 < p.above && 0 < p.below && 1 <= p.late <= p.early <= p.offset
    && MIN_LOCK_OFFSET <= p.offset && p.offset + 150 <= U64_MAX
    && BoundsFit(p.above + p.below, p.early)
  }

  function Setting(p: Plan, settled: nat): Config {
    Config(9, "XLM", settled, 1, p.offset, p.offset + 50)
  }

  function Start(p: Plan, settled: nat): World {
    World(State(Setting(p, settled), 0, 0, 0, map[], map[], map[1 := p.above, 2 := p.below], 100), map[])
  }

  // A round is created and both stake; the price rises, the round is settled
  // and the fee swept; then the fee is set to something else.
  function Staking(p: Plan): seq<Action>
    requires Moderate(p)
  {
    [DoCreate(Some(PriceData(10, 100))), Tick(100 + p.offset - p.early), DoBet(1, 1, Above, p.above),
     Tick(100 + p.offset - p.late), DoBet(2, 1, Below, p.below)]
  }

  function Cutting(p: Plan, fee: nat): seq<Action> {
    [Tick(150 + p.offset), DoSettle(1), DoSweep, DoSetFee(fee)]
  }

  function Risen(p: Plan): Round {
    Round(10, 100, 100 + p.offset, 150 + p.offset, p.above, p.below, p.above * p.early, p.below * p.late,
          p.above * p.early + p.below * p.late, Settled, AboveWon, 11)
  }

  function Opened(p: Plan): Round {
    Round(10, 100, 100 + p.offset, 150 + p.offset, 0, 0, 0, 0, 0, Open, Void, 0)
  }

  function Early(p: Plan): Position {
    Position(Above, p.above, p.above * p.early, false)
  }

  function Late(p: Plan): Position {
    Position(Below, p.below, p.below * p.late, false)
  }

  // ----- Unrolling runs ---------------------------------------------------------------

  lemma Unroll(feed: Feed<Symbol>, w: World, a: Action, rest: seq<Action>)
    ensures Run(feed, w, [a] + rest) == Run(feed, Next(feed, w, a), rest)
  {
    assert ([a] + rest)[1..] == rest;
  }

  lemma RunFour(feed: Feed<Symbol>, w: World, a: Action, b: Action, c: Action, d: Action)
    ensures Run(feed, w, [a, b, c, d]) == Next(feed, Next(feed, Next(feed, Next(feed, w, a), b), c), d)
  {
    var w1 := Next(feed, w, a);
    var w2 := Next(feed, w1, b);
    Unroll(feed, w, a, [b, c, d]);
    Unroll(feed, w1, b, [c, d]);
    Unroll(feed, w2, c, [d]);
    Unroll(feed, Next(feed, w2, c), d, []);
    assert [a] + [b, c, d] == [a, b, c, d] && [b] + [c, d] == [b, c, d];
    assert [c] + [d] == [c, d] && [d] + [] == [d];
  }

  lemma RunFive(feed: Feed<Symbol>, w: World, a: Action, b: Action, c: Action, d: Action, e: Action)
    ensures Run(feed, w, [a, b, c, d, e])
         == Next(feed, Next(feed, Next(feed, Next(feed, Next(feed, w, a), b), c), d), e)
  {
    Unroll(feed, w, a, [b, c, d, e]);
    RunFour(feed, Next(feed, w, a), b, c, d, e);
    assert [a] + [b, c, d, e] == [a, b, c, d, e];
  }

  // ----- Staking -------------------------------------------------------------------------

  lemma BetLands(feed: Feed<Symbol>, w: World, user: Address, side: Side, amount: nat, boosted: nat)
    requires user != SELF && w.s.config.minBet <= amount && 1 in w.s.rounds && (1, user) !in w.s.positions
    requires w.s.now < w.s.rounds[1].lockTs && w.s.rounds[1].status == Open
    requires boosted == Boosted(amount, w.s.now, w.s.rounds[1].lockTs) && boosted <= I128_MAX
    requires AddStake(w.s.rounds[1], side, amount, boosted).Some?
    requires amount <= Bal(w.s.token, user) && Bal(w.s.token, SELF) + amount <= I128_MAX
    ensures var w' := Next(feed, w, DoBet(user, 1, side, amount));
            && w' == w.(s := w.s.(rounds := w.s.rounds[1 := AddStake(w.s.rounds[1], side, amount, boosted).value],
                                  positions := w.s.positions[(1, user) := Position(side, amount, boosted, false)],
                                  token := w'.s.token))
            && Bal(w'.s.token, SELF) == Bal(w.s.token, SELF) + amount
            && Bal(w'.s.token, user) == Bal(w.s.token, user) - amount
            && (forall a :: a != SELF && a != user ==> Bal(w'.s.token, a) == Bal(w.s.token, a))
  {}

  lemma PlanFits(p: Plan)
    requires Moderate(p)
    ensures p.above + p.below <= I128_MAX
    ensures 0 <= p.above * p.early && 0 <= p.below * p.late
    ensures p.above * p.early + p.below * p.late <= I128_MAX
  {
    var bound, span := p.above + p.below, p.early;
    BoundsFacts(bound, span);
    MulMono(bound, 1, span);
    MulMono(p.below, p.late, span);
    assert bound * span == p.above * span + p.below * span;
  }

  lemma Staked(p: Plan, settled: nat)
    requires Moderate(p)
    ensures var w := Run(Rising(), Start(p, settled), Staking(p));
            && w.s.config == Setting(p, settled) && w.s.fees == 0 && w.s.now <= 100 + p.offset
            && w.s.rounds == map[1 := Risen(p).(status := Open, outcome := Void, settlePrice := 0)]
            && w.s.positions == map[(1, 1) := Early(p), (1, 2) := Late(p)]
            && Bal(w.s.token, SELF) == p.above + p.below
            && Bal(w.s.token, 1) == Bal(w.s.token, 2) == Bal(w.s.token, 9) == 0
  {
    PlanFits(p);
    var w0 := Start(p, settled);
    var w1 := Next(Rising(), w0, DoCreate(Some(PriceData(10, 100))));
    assert w1.s == w0.s.(counter := 1, lastStrikeTs := 100, rounds := map[1 := Opened(p)]);
    var w2 := Next(Rising(), w1, Tick(100 + p.offset - p.early));
    BetLands(Rising(), w2, 1, Above, p.above, p.above * p.early);
    var w3 := Next(Rising(), w2, DoBet(1, 1, Above, p.above));
    var w4 := Next(Rising(), w3, Tick(100 + p.offset - p.late));
    BetLands(Rising(), w4, 2, Below, p.below, p.below * p.late);
    RunFive(Rising(), w0, DoCreate(Some(PriceData(10, 100))), Tick(100 + p.offset - p.early),
            DoBet(1, 1, Above, p.above), Tick(100 + p.offset - p.late), DoBet(2, 1, Below, p.below));
  }

  // ----- Settling, sweeping and the cut -------------------------------------------------------

  lemma SweepLands(feed: Feed<Symbol>, w: World)
    requires 0 <= w.s.fees <= Bal(w.s.token, SELF) && w.s.config.admin != SELF
    requires Bal(w.s.token, w.s.config.admin) + w.s.fees <= I128_MAX
    ensures var w' := Next(feed, w, DoSweep);
            && w' == w.(s := w.s.(fees := 0, token := w'.s.token))
            && Bal(w'.s.token, SELF) == Bal(w.s.token, SELF) - w.s.fees
            && (forall a :: a != SELF && a != w.s.config.admin ==> Bal(w'.s.token, a) == Bal(w.s.token, a))
  {}

  lemma Settles(s: State, p: Plan)
    requires Moderate(p) && s.config.feeBps <= MAX_FEE_BPS && s.config.asset == "XLM" && s.fees == 0
    requires s.rounds == map[1 := Risen(p).(status := Open, outcome := Void, settlePrice := 0)]
    requires 150 + p.offset <= s.now
    ensures SettledRound(s.rounds[1], Rising()("XLM", s.rounds[1].settleTs)) == Risen(p)
    ensures Settle(Rising(), s, 1).Success?
  {
    BoundsFacts(p.above + p.below, p.early);
    FeeFits(p.below, s.config.feeBps, p.above + p.below);
    FeeWithin(p.below, s.config.feeBps);
  }

  lemma CutLands(w: World, p: Plan, settled: nat, current: nat)
    requires Moderate(p) && settled <= MAX_FEE_BPS && current <= MAX_FEE_BPS
    requires w.s.config == Setting(p, settled) && w.s.fees == 0 && w.s.now <= 100 + p.offset
    requires w.s.rounds == map[1 := Risen(p).(status := Open, outcome := Void, settlePrice := 0)]
    requires Bal(w.s.token, SELF) == p.above + p.below && Bal(w.s.token, 9) == 0
    ensures var w' := Run(Rising(), w, Cutting(p, current));
            && w'.s.config.feeBps == current && FeeOf(w', 1) == settled
            && w'.s.rounds == map[1 := Risen(p)] && w'.s.positions == w.s.positions
            && Bal(w'.s.token, SELF) == p.above + p.below - Fee(p.below, settled)
            && Bal(w'.s.token, 1) == Bal(w.s.token, 1) && Bal(w'.s.token, 2) == Bal(w.s.token, 2)
  {
    PlanFits(p);
    var w1 := Next(Rising(), w, Tick(150 + p.offset));
    Settles(w1.s, p);
    SettleEffect(Rising(), w1, 1);
    var w2 := Next(Rising(), w1, DoSettle(1));
    FeeWithin(p.below, settled);
    SweepLands(Rising(), w2);
    RunFour(Rising(), w, Tick(150 + p.offset), DoSettle(1), DoSweep, DoSetFee(current));
  }

  // ----- The two claims --------------------------------------------------------------------------

  const SHORT: Error := TokenFailed(InsufficientBalance)

  lemma ClaimOrShort(s: State, user: Address, p: Position, pay: int)
    requires user != SELF && 1 in s.rounds && s.rounds[1].status == Settled
    requires (1, user) in s.positions && s.positions[(1, user)] == p && !p.claimed
    requires CheckedPayout(s.rounds[1], s.config.feeBps, p) == Some(pay)
    requires 0 <= pay && Bal(s.token, user) + pay <= I128_MAX && 0 <= Bal(s.token, SELF)
    ensures Claim(s, user, 1) == Failure(SHORT) <==> Bal(s.token, SELF) < pay
    ensures pay <= Bal(s.token, SELF) ==>
              && Claim(s, user, 1).Success?
              && var s' := Claim(s, user, 1).value.0;
                 && s' == s.(positions := s.positions[(1, user) := p.(claimed := true)], token := s'.token)
                 && Bal(s'.token, SELF) == Bal(s.token, SELF) - pay
                 && (forall a :: a != SELF && a != user ==> Bal(s'.token, a) == Bal(s.token, a))
  {}

  // Both claims, the early bettor's first; whether one of them is short.
  predicate OneStranded(s: State) {
    Claim(s, 1, 1) == Failure(SHORT) ||
    (Claim(s, 1, 1).Success? && Claim(Claim(s, 1, 1).value.0, 2, 1) == Failure(SHORT))
  }

  lemma BothDue(p: Plan, ps: Positions, current: nat) returns (e: int, l: int)
    requires Moderate(p) && current <= MAX_FEE_BPS && Covered(Risen(p), ps, 1)
    requires ps == map[(1, 1) := Early(p), (1, 2) := Late(p)]
    ensures CheckedPayout(Risen(p), current, Early(p)) == Some(e)
    ensures CheckedPayout(Risen(p), current, Late(p)) == Some(l)
    ensures 0 <= e && 0 <= l && e + l == p.above + WorstDraw(Risen(p), current) <= I128_MAX
  {
    PlanFits(p);
    MulMono(p.below, p.late, p.early);
    var r, bound, span := Risen(p), p.above + p.below, p.early;
    e, l := Payout(r, current, Early(p)), Payout(r, current, Late(p));
    PayoutFits(r, ps, 1, 1, current, bound, span);
    PayoutFits(r, ps, 1, 2, current, bound, span);
    PayoutNonNeg(r, current, Early(p));
    PayoutNonNeg(r, current, Late(p));
    RisenIsWellFormed(p);
    PairPayout(r, current, Early(p), Late(p));
    HigherFeeSuffices(r, current, current);
    FeeWithin(LosingPool(r), current);
  }

  lemma RisenIsWellFormed(p: Plan)
    requires Moderate(p)
    ensures WellFormed(Risen(p))
  {
    MulMono(p.above, 1, p.early);
    MulMono(p.below, 1, p.late);
  }

  lemma Stranded(s: State, p: Plan, settled: nat, e: int, l: int)
    requires Moderate(p) && settled <= MAX_FEE_BPS && s.config.feeBps <= MAX_FEE_BPS
    requires s.rounds == map[1 := Risen(p)] && s.positions == map[(1, 1) := Early(p), (1, 2) := Late(p)]
    requires Bal(s.token, SELF) == p.above + p.below - Fee(p.below, settled)
    requires Bal(s.token, 1) == Bal(s.token, 2) == 0
    requires CheckedPayout(Risen(p), s.config.feeBps, Early(p)) == Some(e) && 0 <= e <= I128_MAX
    requires CheckedPayout(Risen(p), s.config.feeBps, Late(p)) == Some(l) && 0 <= l <= I128_MAX
    requires e + l == p.above + WorstDraw(Risen(p), s.config.feeBps)
    ensures OneStranded(s) <==> !Suffices(Risen(p), settled, s.config.feeBps)
  {
    FeeWithin(p.below, settled);
    ClaimOrShort(s, 1, Early(p), e);
    if e <= Bal(s.token, SELF) {
      ClaimOrShort(Claim(s, 1, 1).value.0, 2, Late(p), l);
    }
  }

  // The state after the cut.
  function AfterCut(p: Plan, settled: nat, current: nat): World
    requires Moderate(p)
  {
    Run(Rising(), Run(Rising(), Start(p, settled), Staking(p)), Cutting(p, current))
  }

  lemma CutIsShaped(p: Plan, settled: nat, current: nat)
    requires Moderate(p) && settled <= MAX_FEE_BPS
    ensures Shape(AfterCut(p, settled, current))
  {
    PlanFits(p);
    var w0 := Start(p, settled);
    FreshIsSolvent(Setting(p, settled), w0.s.token, 100);
    AlwaysShaped(Rising(), w0, Staking(p));
    AlwaysShaped(Rising(), Run(Rising(), w0, Staking(p)), Cutting(p, current));
  }

  lemma CutCovered(p: Plan, settled: nat, current: nat)
    requires Moderate(p) && settled <= MAX_FEE_BPS
    requires AfterCut(p, settled, current).s.rounds == map[1 := Risen(p)]
    ensures Covered(Risen(p), AfterCut(p, settled, current).s.positions, 1)
  {
    CutIsShaped(p, settled, current);
    assert RoundInv(AfterCut(p, settled, current), 1);
  }

  lemma Funds(p: Plan, s: State, settled: nat)
    requires Moderate(p) && settled <= MAX_FEE_BPS && s.config.feeBps <= MAX_FEE_BPS
    requires s.rounds == map[1 := Risen(p)] && s.positions == map[(1, 1) := Early(p), (1, 2) := Late(p)]
    requires Covered(Risen(p), s.positions, 1)
    requires Bal(s.token, SELF) == p.above + p.below - Fee(p.below, settled)
    requires Bal(s.token, 1) == Bal(s.token, 2) == 0
    ensures OneStranded(s) <==> !Suffices(Risen(p), settled, s.config.feeBps)
  {
    var e, l := BothDue(p, s.positions, s.config.feeBps);
    Stranded(s, p, settled, e, l);
  }

  // For all stakes, all times of betting and any two fees: one of the two
  // bettors' claims finds the balance short if and only if the round, settled at
  // the one fee, cannot afford the other.
  lemma CutStrandsExactlyWhen(p: Plan, settled: nat, current: nat)
    requires Moderate(p) && settled <= MAX_FEE_BPS && current <= MAX_FEE_BPS
    ensures Initialize(Setting(p, settled), Start(p, settled).s.token, 100) == Success(Start(p, settled).s)
    ensures var w := AfterCut(p, settled, current);
            && w.s.rounds == map[1 := Risen(p)] && FeeOf(w, 1) == settled && w.s.config.feeBps == current
            && (OneStranded(w.s) <==> !Suffices(Risen(p), settled, current))
  {
    Staked(p, settled);
    CutLands(Run(Rising(), Start(p, settled), Staking(p)), p, settled, current);
    CutCovered(p, settled, current);
    Funds(p, AfterCut(p, settled, current).s, settled);
  }

  // In particular, of two bettors with 1000 each whose round was settled at 5%
  // and is claimed free of fee, one is stranded.
  lemma FeeCutStrandsAClaim()
    ensures var p := Plan(1000, 1000, 10, 10, 10);
            Moderate(p) && OneStranded(AfterCut(p, 500, 0).s)
  {
    var p := Plan(1000, 1000, 10, 10, 10);
    CutStrandsExactlyWhen(p, 500, 0);
    DrawOf1000(Risen(p));
  }

  lemma DrawOf1000(r: Round)
    requires r.outcome == AboveWon && r.poolBelow == 1000
    requires r.boostedAbove == 10_000 && r.boostedBelow == 10_000 && r.globalBoosted == 20_000
    ensures WorstDraw(r, 0) == 1000 && Fee(LosingPool(r), 500) == 50
  {
    assert Fee(1000, 0) == 0 && Fee(1000, 500) == 50;
    assert Distributed(r, 0) == 1000;
    assert Cut(1000, REFUND_PCT) == 300 && Cut(1000, WINNER_PCT) == 700;
    assert Share(300, 10_000, 20_000) == 150;
  }

  // ----- An expired position -----------------------------------------------------------------

  lemma OnlyEntry(id: nat, u: Address, q: Position, f: Position -> int)
    ensures Total(map[(id, u) := q], id, f) == f(q)
  {
    var none: Positions := map[];
    TotalEmpty(none, id, f);
    TotalSet(none, id, u, q, f);
    assert none[(id, u) := q] == map[(id, u) := q];
  }

  lemma LateDraws(p: Plan, feeBps: nat)
    requires Moderate(p) && feeBps <= MAX_FEE_BPS
    ensures 0 <= Payout(Risen(p), feeBps, Late(p)) <= p.below - Fee(p.below, feeBps)
  {
    PlanFits(p);
    FeeWithin(p.below, feeBps);
    var d := p.below - Fee(p.below, feeBps);
    CutsCover(d);
    ShareWithin(NinetailsMath.Cut(d, REFUND_PCT), p.below * p.late, p.above * p.early + p.below * p.late);
  }

  // For all stakes and times: the winner's position expires before settlement.
  // The round is settled on the full pools all the same, and besides its fee and
  // what the loser gets the whole of the expired stake is left behind.
  lemma ExpiredStakeStays(p: Plan, settled: nat)
    requires Moderate(p) && settled <= MAX_FEE_BPS
    ensures var w := Next(Rising(), Run(Rising(), Start(p, settled), Staking(p)), ExpirePosition(1, 1));
            var s := Run(Rising(), w, Cutting(p, settled)).s;
            && s.rounds == map[1 := Risen(p)] && s.positions == map[(1, 2) := Late(p)]
            && Total(s.positions, 1, StakeOn(Above)) == 0 < Risen(p).poolAbove
            && !Exact(Risen(p), s.positions, 1)
            && Fee(p.below, settled) + Total(s.positions, 1, PaidBy(Risen(p), settled)) + p.above
               <= Risen(p).poolAbove + Risen(p).poolBelow
  {
    Staked(p, settled);
    var w0 := Run(Rising(), Start(p, settled), Staking(p));
    var w := Next(Rising(), w0, ExpirePosition(1, 1));
    assert w.s == w0.s.(positions := map[(1, 2) := Late(p)]);
    CutLands(w, p, settled, settled);
    OnlyEntry(1, 2, Late(p), StakeOn(Above));
    OnlyEntry(1, 2, Late(p), PaidBy(Risen(p), settled));
    LateDraws(p, settled);
  }
}

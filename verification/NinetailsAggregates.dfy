// What else every run of the Ninetails market keeps: denominators above zero,
// products inside i128, and a lock before settlement.

module NinetailsAggregates {
  import opened Wrappers
  import opened Checked
  import opened Fees
  import opened Sums
  import opened Token
  import opened Oracle
  import opened NinetailsMath
  import opened Ninetails
  import opened NinetailsConservation
  import opened NinetailsSolvency

  // ----- Aggregates agree with the records -----------------------------------------

  lemma CreateEffect(feed: Feed<Symbol>, w: World, tick: Option<PriceData>)
    requires CreateRound(w.s, tick).Success?
    ensures var w' := Next(feed, w, DoCreate(tick));
            var r := Round(tick.value.price, tick.value.timestamp, tick.value.timestamp + w.s.config.lockOffset,
                           tick.value.timestamp + w.s.config.interval, 0, 0, 0, 0, 0, Open, Void, 0);
            && w'.s.counter == w.s.counter + 1
            && w'.s.rounds == w.s.rounds[w.s.counter + 1 := r]
            && w'.s.positions == w.s.positions && w'.s.config == w.s.config
            && tick.value.timestamp + w.s.config.lockOffset <= U64_MAX
            && tick.value.timestamp != w.s.lastStrikeTs
  {}

  // Positions that expire leave their stakes and boosts in the totals, which are
  // at least the sums over the live ones.
  lemma AggregatesStayAbove(feed: Feed<Symbol>, w: World, actions: seq<Action>, id: nat)
    requires Shape(w) && id in Run(feed, w, actions).s.rounds
    ensures Covered(Run(feed, w, actions).s.rounds[id], Run(feed, w, actions).s.positions, id)
  {
    AlwaysShaped(feed, w, actions);
    assert RoundInv(Run(feed, w, actions), id);
  }

  lemma DecidedDenominators(r: Round)
    requires Decided(r) && r.globalBoosted == r.boostedAbove + r.boostedBelow
    requires r.poolAbove <= r.boostedAbove && r.poolBelow <= r.boostedBelow
    ensures 0 < SideBoosted(r) < r.globalBoosted
  {}

  // Hence the zero-denominator branches of a claim are never taken: in every
  // run, whatever expires and whatever the fees, both denominators of a settled
  // round that is not void are positive.
  lemma DenominatorsPositive(feed: Feed<Symbol>, w: World, actions: seq<Action>, id: nat)
    requires Shape(w)
    requires var s := Run(feed, w, actions).s;
             id in s.rounds && s.rounds[id].status == Settled && s.rounds[id].outcome != Void
    ensures var r := Run(feed, w, actions).s.rounds[id];
            0 < SideBoosted(r) < r.globalBoosted
  {
    AlwaysShaped(feed, w, actions);
    assert RoundInv(Run(feed, w, actions), id);
    DecidedDenominators(Run(feed, w, actions).s.rounds[id]);
  }

  // ----- No overflow -----------------------------------------------------------------

  // Every round's stakes are within bound, and its boosts within bound * span.
  predicate Modest(r: Round, bound: nat, span: nat) {
    && r.poolAbove + r.poolBelow <= bound
    && r.boostedAbove <= r.poolAbove * span && r.boostedBelow <= r.poolBelow * span
  }

  predicate AllModest(s: State, bound: nat, span: nat) {
    forall id :: id in s.rounds ==> Modest(s.rounds[id], bound, span)
  }

  // A bet that keeps to the bounds.
  predicate BetWithin(s: State, a: Action, bound: nat, span: nat) {
    a.DoBet? && a.id in s.rounds ==>
      && s.rounds[a.id].poolAbove + s.rounds[a.id].poolBelow + a.amount <= bound
      && s.rounds[a.id].lockTs <= s.now + span
  }

  predicate BoundsFit(bound: nat, span: nat) {
    1 <= span && bound * bound * span <= I128_MAX
  }

  lemma SquareMono(x: nat, y: nat)
    ensures x <= y ==> x * x <= y * y
  {
    if x <= y {
      MulMono(x, x, y);
      MulMono(y, x, y);
    }
  }

  lemma Regroup(bound: nat, span: nat)
    requires 1 <= span
    ensures bound * bound * span == bound * (bound * span)
    ensures bound * bound <= bound * bound * span
    ensures bound * span <= bound * (bound * span)
  {
    MulMono(bound * bound, 1, span);
    if 1 <= bound {
      MulMono(bound * span, 1, bound);
    }
  }

  lemma BoundsFacts(bound: nat, span: nat)
    requires BoundsFit(bound, span)
    ensures bound * (bound * span) <= I128_MAX && bound * span <= I128_MAX && bound * DENOM <= I128_MAX
  {
    Regroup(bound, span);
    SquareMono(0x1_0000_0000_0000_0000, bound);
  }

  lemma BoostWithin(pool: nat, boosted: nat, amount: nat, rest: nat, bound: nat, span: nat)
    requires boosted <= pool * span && rest <= span && pool + amount <= bound
    ensures boosted + amount * rest <= (pool + amount) * span <= bound * span
    ensures amount * rest <= bound * span
  {
    assert amount * rest <= amount * span;
    assert (pool + amount) * span == pool * span + amount * span;
  }

  lemma SumOfBoosts(above: nat, below: nat, bound: nat, span: nat)
    requires above + below <= bound
    ensures above * span + below * span <= bound * span
  {
    assert above * span + below * span == (above + below) * span;
  }

  lemma StakeFits(r: Round, side: Side, amount: nat, now: nat, bound: nat, span: nat)
    requires Modest(r, bound, span) && BoundsFit(bound, span) && r.globalBoosted == r.boostedAbove + r.boostedBelow
    requires r.poolAbove + r.poolBelow + amount <= bound && now < r.lockTs <= now + span
    ensures BoostedShares(amount, now, r.lockTs).Some?
    ensures var r' := AddStake(r, side, amount, Boosted(amount, now, r.lockTs));
            r'.Some? && Modest(r'.value, bound, span)
  {
    BoundsFacts(bound, span);
    var rest := Remaining(now, r.lockTs);
    if side == Above {
      BoostWithin(r.poolAbove, r.boostedAbove, amount, rest, bound, span);
      SumOfBoosts(r.poolAbove + amount, r.poolBelow, bound, span);
    } else {
      BoostWithin(r.poolBelow, r.boostedBelow, amount, rest, bound, span);
      SumOfBoosts(r.poolAbove, r.poolBelow + amount, bound, span);
    }
  }

  lemma PayoutFits(r: Round, ps: Positions, id: nat, u: Address, feeBps: nat, bound: nat, span: nat)
    requires Modest(r, bound, span) && BoundsFit(bound, span) && Covered(r, ps, id)
    requires (id, u) in ps && feeBps <= MAX_FEE_BPS
    ensures CheckedPayout(r, feeBps, ps[(id, u)]).Some?
  {
    var p := ps[(id, u)];
    BoundsFacts(bound, span);
    TotalAtLeast(ps, id, u, StakeOn(p.side));
    TotalAtLeast(ps, id, u, BoostOn(p.side));
    SumOfBoosts(r.poolAbove, r.poolBelow, bound, span);
    FeeWithin(LosingPool(r), feeBps);
    FeeFits(LosingPool(r), feeBps, bound);
    var d := Distributed(r, feeBps);
    var side := if p.side == Above then r.boostedAbove else r.boostedBelow;
    if Wins(p.side, r.outcome) {
      PayoutsFit(p.amount, d, p.boosted, side, r.globalBoosted, bound, bound * span);
    } else {
      PayoutsFit(0, d, p.boosted, side, r.globalBoosted, bound, bound * span);
    }
  }

  lemma ModestSettles(w: World, id: nat, price: Option<PriceData>, bound: nat, span: nat)
    requires Inv(w) && AllModest(w.s, bound, span) && BoundsFit(bound, span)
    requires id in w.s.rounds && w.s.rounds[id].status == Open
    ensures var r := SettledRound(w.s.rounds[id], price);
            && FeeAmount(LosingPool(r), w.s.config.feeBps) == Some(Fee(LosingPool(r), w.s.config.feeBps))
            && InI128(w.s.fees) && InI128(w.s.fees + Fee(LosingPool(r), w.s.config.feeBps))
  {
    var r := SettledRound(w.s.rounds[id], price);
    BoundsFacts(bound, span);
    FeeWithin(LosingPool(r), w.s.config.feeBps);
    FeeFits(LosingPool(r), w.s.config.feeBps, bound);
    FundsFor(w, id);
    assert HoldAt(w, id) == r.poolAbove + r.poolBelow;
    assert Bal(w.s.token, SELF) <= I128_MAX;
  }

  lemma BetOverflows(s: State, user: Address, id: nat, side: Side, amount: int)
    requires PlaceBet(s, user, id, side, amount) == Failure(Overflow)
    ensures id in s.rounds && s.now < s.rounds[id].lockTs && s.config.minBet <= amount
    ensures var boosted := BoostedShares(amount, s.now, s.rounds[id].lockTs);
            boosted.None? || (0 <= amount && AddStake(s.rounds[id], side, amount, boosted.value).None?)
  {}

  lemma SettleOverflows(feed: Feed<Symbol>, s: State, id: nat)
    requires Settle(feed, s, id) == Failure(Overflow)
    ensures id in s.rounds && s.rounds[id].status == Open
    ensures var r := SettledRound(s.rounds[id], feed(s.config.asset, s.rounds[id].settleTs));
            var fee := FeeAmount(LosingPool(r), s.config.feeBps);
            !InI128(s.fees) || fee.None? || !InI128(s.fees + fee.value)
  {}

  lemma ClaimOverflows(s: State, user: Address, id: nat)
    requires Claim(s, user, id) == Failure(Overflow)
    ensures id in s.rounds && (id, user) in s.positions
    ensures CheckedPayout(s.rounds[id], s.config.feeBps, s.positions[(id, user)]).None?
  {}

  // No checked operation of a bet, a settlement or a claim ever overflows while
  // each round's stake stays within bound and bound^2 * span fits into i128.
  lemma BetNeverOverflows(w: World, user: Address, id: nat, side: Side, amount: int, bound: nat, span: nat)
    requires Shape(w) && AllModest(w.s, bound, span) && BoundsFit(bound, span) && 0 <= w.s.config.minBet
    requires BetWithin(w.s, DoBet(user, id, side, amount), bound, span)
    ensures PlaceBet(w.s, user, id, side, amount) != Failure(Overflow)
  {
    if PlaceBet(w.s, user, id, side, amount) == Failure(Overflow) {
      BetOverflows(w.s, user, id, side, amount);
      assert RoundInv(w, id);
      StakeFits(w.s.rounds[id], side, amount, w.s.now, bound, span);
    }
  }

  lemma SettleNeverOverflows(feed: Feed<Symbol>, w: World, id: nat, bound: nat, span: nat)
    requires Inv(w) && AllModest(w.s, bound, span) && BoundsFit(bound, span)
    ensures Settle(feed, w.s, id) != Failure(Overflow)
  {
    if Settle(feed, w.s, id) == Failure(Overflow) {
      SettleOverflows(feed, w.s, id);
      ModestSettles(w, id, feed(w.s.config.asset, w.s.rounds[id].settleTs), bound, span);
    }
  }

  lemma ClaimNeverOverflows(w: World, user: Address, id: nat, bound: nat, span: nat)
    requires Shape(w) && AllModest(w.s, bound, span) && BoundsFit(bound, span)
    ensures Claim(w.s, user, id) != Failure(Overflow)
  {
    if Claim(w.s, user, id) == Failure(Overflow) {
      ClaimOverflows(w.s, user, id);
      assert RoundInv(w, id);
      PayoutFits(w.s.rounds[id], w.s.positions, id, user, w.s.config.feeBps, bound, span);
    }
  }

  lemma ClaimPays(s: State, user: Address, id: nat, p: Position, pay: int)
    requires user != SELF && id in s.rounds && s.rounds[id].status == Settled
    requires (id, user) in s.positions && s.positions[(id, user)] == p && !p.claimed
    requires CheckedPayout(s.rounds[id], s.config.feeBps, p) == Some(pay)
    requires 0 <= pay <= Bal(s.token, SELF) && Bal(s.token, user) + pay <= I128_MAX
    ensures Claim(s, user, id).Success? && Claim(s, user, id).value.1 == pay
    ensures Bal(Claim(s, user, id).value.0.token, user) == Bal(s.token, user) + pay
    ensures Claim(s, user, id).value.0.positions == s.positions[(id, user) := p.(claimed := true)]
  {}

  // A claim that succeeds: in a solvent market whose rounds keep to the bounds,
  // at a fee the round can afford, every unclaimed position of a settled round
  // is paid, and paid in full, as long as the recipient's balance has room.
  lemma ClaimSucceeds(w: World, user: Address, id: nat, bound: nat, span: nat)
    requires Inv(w) && AllModest(w.s, bound, span) && BoundsFit(bound, span) && FeeSuffices(w, DoClaim(user, id))
    requires user != SELF && id in w.s.rounds && w.s.rounds[id].status == Settled
    requires (id, user) in w.s.positions && !w.s.positions[(id, user)].claimed
    requires Bal(w.s.token, user) + Payout(w.s.rounds[id], w.s.config.feeBps, w.s.positions[(id, user)]) <= I128_MAX
    ensures Claim(w.s, user, id).Success?
    ensures var (p, paid) := (w.s.positions[(id, user)], Claim(w.s, user, id).value);
            && paid.1 == Payout(w.s.rounds[id], w.s.config.feeBps, p)
            && Bal(paid.0.token, user) == Bal(w.s.token, user) + paid.1
            && paid.0.positions == w.s.positions[(id, user) := p.(claimed := true)]
  {
    var p := w.s.positions[(id, user)];
    assert RoundInv(w, id);
    PayoutFits(w.s.rounds[id], w.s.positions, id, user, w.s.config.feeBps, bound, span);
    PayoutFunded(w, user, id);
    ClaimPays(w.s, user, id, p, Payout(w.s.rounds[id], w.s.config.feeBps, p));
  }

  // The bounds themselves last, as long as the bets keep to them.
  lemma ModestKept(feed: Feed<Symbol>, w: World, a: Action, bound: nat, span: nat)
    requires Shape(w) && AllModest(w.s, bound, span) && BoundsFit(bound, span) && BetWithin(w.s, a, bound, span)
    ensures AllModest(Next(feed, w, a).s, bound, span)
  {
    if Step(feed, w.s, a).Success? {
      match a
      case DoCreate(tick) => CreateEffect(feed, w, tick);
      case DoBet(user, id, side, amount) =>
        BetEffect(feed, w, user, id, side, amount);
        BetKeepsModest(w, user, id, side, amount, bound, span);
      case DoSettle(id) => SettleEffect(feed, w, id);
      case DoClaim(user, id) => ClaimEffect(feed, w, user, id);
      case ExpireRound(id) =>
      case ExpirePosition(id, user) =>
      case _ => PlainEffect(feed, w, a);
    }
  }

  lemma BetKeepsModest(w: World, user: Address, id: nat, side: Side, amount: int, bound: nat, span: nat)
    requires Shape(w) && AllModest(w.s, bound, span) && BoundsFit(bound, span)
    requires BetWithin(w.s, DoBet(user, id, side, amount), bound, span)
    requires PlaceBet(w.s, user, id, side, amount).Success?
    ensures id in w.s.rounds && id in PlaceBet(w.s, user, id, side, amount).value.rounds
    ensures Modest(PlaceBet(w.s, user, id, side, amount).value.rounds[id], bound, span)
  {
    assert RoundInv(w, id);
    StakeFits(w.s.rounds[id], side, amount, w.s.now, bound, span);
  }

  predicate AlongRun(feed: Feed<Symbol>, w: World, actions: seq<Action>, holds: (State, Action) -> bool)
    decreases |actions|
  {
    actions == [] || (holds(w.s, actions[0]) && AlongRun(feed, Next(feed, w, actions[0]), actions[1..], holds))
  }

  function Within(bound: nat, span: nat): (State, Action) -> bool {
    (s: State, a: Action) => 0 <= s.config.minBet && BetWithin(s, a, bound, span)
  }

  function BetsAndClaimsFit(feed: Feed<Symbol>): (State, Action) -> bool {
    (s: State, a: Action) => a.DoBet? || a.DoClaim? ==> Step(feed, s, a) != Failure(Overflow)
  }

  function SettlementsFit(feed: Feed<Symbol>): (State, Action) -> bool {
    (s: State, a: Action) => a.DoSettle? ==> Step(feed, s, a) != Failure(Overflow)
  }

  // No bet and no claim of any run overflows, whatever expires and however the
  // fee is changed, as long as the bets keep to the bounds.
  lemma {:induction false} RunsNeverOverflow(feed: Feed<Symbol>, w: World, actions: seq<Action>, bound: nat, span: nat)
    requires Shape(w) && AllModest(w.s, bound, span) && BoundsFit(bound, span)
    requires AlongRun(feed, w, actions, Within(bound, span))
    ensures AlongRun(feed, w, actions, BetsAndClaimsFit(feed))
    decreases |actions|
  {
    if actions == [] {
    } else {
      var a := actions[0];
      match a {
        case DoBet(user, id, side, amount) => BetNeverOverflows(w, user, id, side, amount, bound, span);
        case DoClaim(user, id) => ClaimNeverOverflows(w, user, id, bound, span);
        case _ =>
      }
      StepKeeps(feed, w, a);
      ModestKept(feed, w, a, bound, span);
      RunsNeverOverflow(feed, Next(feed, w, a), actions[1..], bound, span);
    }
  }

  // Nor does any settlement, as long as the market stays solvent as well: the
  // balance bounds the fees accrued.
  lemma {:induction false} SettlementsNeverOverflow(feed: Feed<Symbol>, w: World, actions: seq<Action>, bound: nat,
                                                    span: nat)
    requires Inv(w) && FeeSufficesAlong(feed, w, actions) && AllModest(w.s, bound, span) && BoundsFit(bound, span)
    requires AlongRun(feed, w, actions, Within(bound, span))
    ensures AlongRun(feed, w, actions, SettlementsFit(feed))
    decreases |actions|
  {
    if actions == [] {
    } else {
      var a := actions[0];
      if a.DoSettle? {
        SettleNeverOverflows(feed, w, a.id, bound, span);
      }
      StepKeeps(feed, w, a);
      ModestKept(feed, w, a, bound, span);
      SettlementsNeverOverflow(feed, Next(feed, w, a), actions[1..], bound, span);
    }
  }

  // ----- Lock before settlement ----------------------------------------------------------

  // Betting on a round closes strictly before its settle price is due.
  predicate LocksFirst(s: State) {
    forall id :: id in s.rounds ==> s.rounds[id].lockTs < s.rounds[id].settleTs
  }

  // What the setters preserve. (An offset past the end of u64 locks out every
  // first round, so it does no harm.)
  predicate SafeOffset(s: State) {
    s.config.lockOffset < s.config.interval || (U64_MAX <= s.config.lockOffset && s.lastStrikeTs == 0)
  }

  lemma LockStep(feed: Feed<Symbol>, w: World, a: Action)
    requires LocksFirst(w.s) && SafeOffset(w.s)
    ensures LocksFirst(Next(feed, w, a).s) && SafeOffset(Next(feed, w, a).s)
  {
    if Step(feed, w.s, a).Success? {
      match a
      case DoCreate(tick) => CreateEffect(feed, w, tick);
      case DoBet(user, id, side, amount) => BetEffect(feed, w, user, id, side, amount);
      case _ =>
    }
  }

  lemma {:induction false} LockRun(feed: Feed<Symbol>, w: World, actions: seq<Action>)
    requires LocksFirst(w.s) && SafeOffset(w.s)
    ensures LocksFirst(Run(feed, w, actions).s)
    decreases |actions|
  {
    if actions == [] {
    } else {
      LockStep(feed, w, actions[0]);
      LockRun(feed, Next(feed, w, actions[0]), actions[1..]);
    }
  }

  lemma FirstRoundUnsafe(feed: Feed<Symbol>, w: World, tick: PriceData)
    requires w.s.lastStrikeTs == 0 && w.s.counter == 0 && tick.timestamp == 1
    requires w.s.config.interval <= w.s.config.lockOffset < U64_MAX
    ensures !LocksFirst(Run(feed, w, [DoCreate(Some(tick))]).s)
  {
    var w' := Next(feed, w, DoCreate(Some(tick)));
    assert 1 in w'.s.rounds && w'.s.rounds[1].settleTs <= w'.s.rounds[1].lockTs;
    assert Run(feed, w, [DoCreate(Some(tick))]) == Run(feed, w', []);
  }

  // The setters keep the lock offset below the round length but initialize does
  // not check it: every round of every run locks before it settles if and only
  // if the offset given to initialize was below the interval (or so large that
  // no round can be created with it).
  lemma LocksFirstExactlyWhen(feed: Feed<Symbol>, config: Config, token: Balances, now: nat)
    requires Initialize(config, token, now).Success?
    ensures var w := World(Initialize(config, token, now).value, map[]);
            (forall actions :: LocksFirst(Run(feed, w, actions).s))
            <==> (config.lockOffset < config.interval || U64_MAX <= config.lockOffset)
  {
    var w := World(Initialize(config, token, now).value, map[]);
    if config.lockOffset < config.interval || U64_MAX <= config.lockOffset {
      forall actions ensures LocksFirst(Run(feed, w, actions).s) {
        LockRun(feed, w, actions);
      }
    } else {
      FirstRoundUnsafe(feed, w, PriceData(0, 1));
    }
  }

  // Where it holds, every bet comes before the price that decides it.
  lemma BetsPrecedeSettlePrice(s: State, user: Address, id: nat, side: Side, amount: int)
    requires LocksFirst(s) && PlaceBet(s, user, id, side, amount).Success?
    ensures id in s.rounds && s.now < s.rounds[id].lockTs < s.rounds[id].settleTs
  {}
}

// Settlement of the fair market does not depend on who settles or when.

module FairMarketSettlement {
  import opened Wrappers
  import opened Checked
  import opened Frames
  import opened Sums
  import opened Token
  import opened Oracle
  import opened FairMarket
  import opened FairMarketSolvency

  function StakedOn(side: Side): Wager<Side> -> int {
    (b: Wager<Side>) => if b.side == side then b.amount else 0
  }

  // The stakes of a list of wagers on one side.
  function Staked(bets: seq<Wager<Side>>, side: Side): int {
    ListSum(bets, StakedOn(side))
  }

  // Where a round stands, given nothing but its ticket, the bets it accepted
  // and the oracle.
  ghost predicate RoundFollows(feed: Feed<Symbol>, w: World, id: nat)
    requires id in w.s.rounds
  {
    var r, t := w.s.rounds[id], w.s.rounds[id].ticket;
    var price := feed(t.asset, t.settleTs);
    && id <= w.s.counter
    && t.settleTs == t.strikeTs + ORACLE_INTERVAL
    && r.poolUp == Staked(WagersOf(w, id), Up) && r.poolDown == Staked(WagersOf(w, id), Down)
    && (r.status == Open ==> r.outcome == Void && r.settlePrice == 0)
    && (r.status == Settled ==>
          && t.settleTs <= w.s.now
          && r.outcome == Verdict(price, t.strike, r.poolUp, r.poolDown)
          && r.settlePrice == SettlePrice(price))
    && (forall i :: 0 <= i < |WagersOf(w, id)| ==> WagersOf(w, id)[i].ts < t.lockTs)
  }

  ghost predicate Follows(feed: Feed<Symbol>, w: World) {
    && (forall id :: id in w.s.rounds ==> RoundFollows(feed, w, id))
    && (forall id :: id in w.wagers ==> id <= w.s.counter)
  }

  lemma BetOnRound(feed: Feed<Symbol>, w: World, w': World, id: nat, bet: Wager<Side>)
    requires id in w.s.rounds && RoundFollows(feed, w, id) && w.s.rounds[id].status == Open
    requires id in w'.s.rounds && AddStake(w.s.rounds[id], bet.side, bet.amount) == Some(w'.s.rounds[id])
    requires WagersOf(w', id) == WagersOf(w, id) + [bet] && w'.s.counter == w.s.counter
    requires bet.ts < w.s.rounds[id].ticket.lockTs
    ensures RoundFollows(feed, w', id)
  {
    ListSumMore(WagersOf(w, id), bet, StakedOn(Up));
    ListSumMore(WagersOf(w, id), bet, StakedOn(Down));
  }

  lemma BetElsewhere(feed: Feed<Symbol>, w: World, w': World, j: nat)
    requires j in w.s.rounds && RoundFollows(feed, w, j)
    requires j in w'.s.rounds && w'.s.rounds[j] == w.s.rounds[j] && WagersOf(w', j) == WagersOf(w, j)
    requires w'.s.counter == w.s.counter && w.s.now <= w'.s.now
    ensures RoundFollows(feed, w', j)
  {}

  lemma BetFollows(feed: Feed<Symbol>, w: World, user: Address, id: nat, side: Side, amount: int)
    requires Follows(feed, w) && PlaceBet(w.s, user, id, side, amount).Success?
    ensures Follows(feed, Next(feed, w, DoBet(user, id, side, amount)))
  {
    BetEffect(feed, w, user, id, side, amount);
    var w' := Next(feed, w, DoBet(user, id, side, amount));
    BetOnRound(feed, w, w', id, Wager(user, side, amount, w.s.now));
    forall j | j in w'.s.rounds && j != id ensures RoundFollows(feed, w', j) {
      BetElsewhere(feed, w, w', j);
    }
  }

  lemma SettleFollows(feed: Feed<Symbol>, w: World, id: nat)
    requires Follows(feed, w) && Settle(feed, w.s, id).Success?
    ensures Follows(feed, Next(feed, w, DoSettle(id)))
  {
    SettleEffect(feed, w, id);
    var w' := Next(feed, w, DoSettle(id));
    assert RoundFollows(feed, w, id);
    forall j | j in w'.s.rounds ensures RoundFollows(feed, w', j) {
      assert RoundFollows(feed, w, j);
      assert WagersOf(w', j) == WagersOf(w, j);
    }
  }

  lemma CreateFollows(feed: Feed<Symbol>, w: World, asset: Symbol, tick: Option<PriceData>)
    requires Follows(feed, w) && CreateRound(w.s, asset, tick).Success?
    ensures Follows(feed, Next(feed, w, DoCreate(asset, tick)))
  {
    CreateEffect(feed, w, asset, tick);
    var w', id := Next(feed, w, DoCreate(asset, tick)), w.s.counter + 1;
    assert WagersOf(w', id) == [];
    assert RoundFollows(feed, w', id);
    forall j | j in w'.s.rounds && j != id ensures RoundFollows(feed, w', j) {
      assert RoundFollows(feed, w, j);
    }
  }

  // Steps that change no round (or drop one) and go no way back in time.
  lemma OthersFollow(feed: Feed<Symbol>, w: World, w': World)
    requires Follows(feed, w)
    requires forall j :: j in w'.s.rounds ==> j in w.s.rounds && w'.s.rounds[j] == w.s.rounds[j]
    requires w'.wagers == w.wagers && w'.s.counter == w.s.counter && w.s.now <= w'.s.now
    ensures Follows(feed, w')
  {
    forall j | j in w'.s.rounds ensures RoundFollows(feed, w', j) {
      assert RoundFollows(feed, w, j);
    }
  }

  lemma ClaimLeavesRounds(feed: Feed<Symbol>, w: World, a: Action)
    requires a.DoClaim? || a.DoClaimMany? || a.ExpirePosition? || a.ExpireRound?
    ensures var w' := Next(feed, w, a);
            && (forall j :: j in w'.s.rounds ==> j in w.s.rounds && w'.s.rounds[j] == w.s.rounds[j])
            && w'.wagers == w.wagers && w'.s.counter == w.s.counter && w.s.now <= w'.s.now
            && (!a.ExpireRound? ==> w'.s.rounds == w.s.rounds)
            && w'.s.config == w.s.config && w'.s.strikeTs == w.s.strikeTs
  {}

  lemma StepFollows(feed: Feed<Symbol>, w: World, a: Action)
    requires Follows(feed, w)
    ensures Follows(feed, Next(feed, w, a))
  {
    if Step(feed, w.s, a).Success? {
      match a
      case DoCreate(asset, tick) => CreateFollows(feed, w, asset, tick);
      case DoBet(user, id, side, amount) => BetFollows(feed, w, user, id, side, amount);
      case DoSettle(id) => SettleFollows(feed, w, id);
      case DoClaim(_, _) => ClaimLeavesRounds(feed, w, a); OthersFollow(feed, w, Next(feed, w, a));
      case DoClaimMany(_, _) => ClaimLeavesRounds(feed, w, a); OthersFollow(feed, w, Next(feed, w, a));
      case ExpireRound(_) => ClaimLeavesRounds(feed, w, a); OthersFollow(feed, w, Next(feed, w, a));
      case ExpirePosition(_, _) => ClaimLeavesRounds(feed, w, a); OthersFollow(feed, w, Next(feed, w, a));
      case _ => PlainEffect(feed, w, a); OthersFollow(feed, w, Next(feed, w, a));
    }
  }

  // In every run, expiry included, a round's pools are the stakes it accepted,
  // each accepted before its lock, and once settled its outcome and price are
  // the oracle's verdict on those pools at settle_ts.
  lemma {:induction false} AlwaysFollows(feed: Feed<Symbol>, w: World, actions: seq<Action>)
    requires Follows(feed, w)
    ensures Follows(feed, Run(feed, w, actions))
    decreases |actions|
  {
    if actions == [] {
    } else {
      StepFollows(feed, w, actions[0]);
      AlwaysFollows(feed, Next(feed, w, actions[0]), actions[1..]);
    }
  }

  // ----- Two runs --------------------------------------------------------------------

  // Settlement independence: take any two runs, of any length and with any
  // other rounds, users, settlers, claims, expiries and timings in them. If a
  // round of the one and a round of the other were opened with the same terms
  // and accepted the same bets, in whatever order, and both are settled, then
  // they have the same outcome, price and pools, and at equal fee pay every
  // position the same.
  lemma SettlementIsDetermined(feed: Feed<Symbol>, w1: World, run1: seq<Action>, id1: nat,
                               w2: World, run2: seq<Action>, id2: nat, feeBps: nat, p: Position)
    requires Follows(feed, w1) && Follows(feed, w2)
    requires var (v1, v2) := (Run(feed, w1, run1), Run(feed, w2, run2));
             && id1 in v1.s.rounds && id2 in v2.s.rounds
             && v1.s.rounds[id1].ticket == v2.s.rounds[id2].ticket
             && v1.s.rounds[id1].status == v2.s.rounds[id2].status == Settled
             && multiset(WagersOf(v1, id1)) == multiset(WagersOf(v2, id2))
    ensures Run(feed, w1, run1).s.rounds[id1] == Run(feed, w2, run2).s.rounds[id2]
    ensures Payout(Run(feed, w1, run1).s.rounds[id1], feeBps, p) == Payout(Run(feed, w2, run2).s.rounds[id2], feeBps, p)
  {
    AlwaysFollows(feed, w1, run1);
    AlwaysFollows(feed, w2, run2);
    var v1, v2 := Run(feed, w1, run1), Run(feed, w2, run2);
    assert RoundFollows(feed, v1, id1) && RoundFollows(feed, v2, id2);
    ListSumIgnoresOrder(WagersOf(v1, id1), WagersOf(v2, id2), StakedOn(Up));
    ListSumIgnoresOrder(WagersOf(v1, id1), WagersOf(v2, id2), StakedOn(Down));
  }

  lemma FreshFollows(feed: Feed<Symbol>, config: Config, token: Balances, now: nat)
    requires Initialize(config, token, now).Success?
    ensures Follows(feed, World(Initialize(config, token, now).value, map[], map[]))
  {}

  // ----- Pools are frozen ------------------------------------------------------------------

  predicate SamePools(r: Round, r': Round) {
    r'.ticket == r.ticket && r'.poolUp == r.poolUp && r'.poolDown == r.poolDown
  }

  // One step: a locked round keeps its pools and terms, and a round that has
  // expired does not come back.
  lemma StepFreezes(feed: Feed<Symbol>, w: World, a: Action, id: nat)
    requires id <= w.s.counter
    requires id in w.s.rounds ==> w.s.rounds[id].ticket.lockTs <= w.s.now
    ensures var w' := Next(feed, w, a);
            && id <= w'.s.counter && w.s.now <= w'.s.now
            && (id in w'.s.rounds ==> id in w.s.rounds && SamePools(w.s.rounds[id], w'.s.rounds[id]))
  {
    if Step(feed, w.s, a).Success? {
      match a
      case DoCreate(asset, tick) => CreateEffect(feed, w, asset, tick);
      case DoBet(user, bid, side, amount) => BetEffect(feed, w, user, bid, side, amount);
      case DoSettle(sid) => SettleEffect(feed, w, sid);
      case DoClaim(_, _) => ClaimLeavesRounds(feed, w, a);
      case DoClaimMany(_, _) => ClaimLeavesRounds(feed, w, a);
      case ExpireRound(_) => ClaimLeavesRounds(feed, w, a);
      case ExpirePosition(_, _) => ClaimLeavesRounds(feed, w, a);
      case _ => PlainEffect(feed, w, a);
    }
  }

  // From its lock on a round's pools and terms are frozen, in every run, for as
  // long as the round is there.
  lemma {:induction false} PoolsFrozen(feed: Feed<Symbol>, w: World, actions: seq<Action>, id: nat)
    requires id <= w.s.counter
    requires id in w.s.rounds ==> w.s.rounds[id].ticket.lockTs <= w.s.now
    requires id in Run(feed, w, actions).s.rounds
    ensures id in w.s.rounds && SamePools(w.s.rounds[id], Run(feed, w, actions).s.rounds[id])
    decreases |actions|
  {
    if actions == [] {
    } else {
      StepFreezes(feed, w, actions[0], id);
      PoolsFrozen(feed, Next(feed, w, actions[0]), actions[1..], id);
    }
  }

  // ----- Settlement never cuts betting short -----------------------------------------------

  // While betting is open no round is settled, so which bets a round accepts
  // cannot depend on when it is settled.
  predicate OpenUntilLock(s: State) {
    forall id :: id in s.rounds && s.now < s.rounds[id].ticket.lockTs ==> s.rounds[id].status == Open
  }

  // Every round locks no later than its settle time.
  predicate LocksInTime(s: State) {
    forall id :: id in s.rounds ==> s.rounds[id].ticket.lockTs <= s.rounds[id].ticket.settleTs
  }

  predicate OffsetsInTime(actions: seq<Action>) {
    forall i :: 0 <= i < |actions| && actions[i].DoSetLockOffset? ==> actions[i].seconds <= ORACLE_INTERVAL
  }

  lemma InTimeStep(feed: Feed<Symbol>, w: World, a: Action)
    requires LocksInTime(w.s) && w.s.config.lockOffset <= ORACLE_INTERVAL
    requires a.DoSetLockOffset? ==> a.seconds <= ORACLE_INTERVAL
    ensures LocksInTime(Next(feed, w, a).s) && Next(feed, w, a).s.config.lockOffset <= ORACLE_INTERVAL
  {
    if Step(feed, w.s, a).Success? {
      match a
      case DoCreate(asset, tick) => CreateEffect(feed, w, asset, tick);
      case DoBet(user, id, side, amount) => BetEffect(feed, w, user, id, side, amount);
      case DoSettle(id) => SettleEffect(feed, w, id);
      case DoClaim(_, _) => ClaimLeavesRounds(feed, w, a);
      case DoClaimMany(_, _) => ClaimLeavesRounds(feed, w, a);
      case ExpireRound(_) => ClaimLeavesRounds(feed, w, a);
      case ExpirePosition(_, _) => ClaimLeavesRounds(feed, w, a);
      case _ =>
    }
  }

  lemma {:induction false} InTimeRun(feed: Feed<Symbol>, w: World, actions: seq<Action>)
    requires LocksInTime(w.s) && w.s.config.lockOffset <= ORACLE_INTERVAL && OffsetsInTime(actions) && Follows(feed, w)
    ensures LocksInTime(Run(feed, w, actions).s) && OpenUntilLock(Run(feed, w, actions).s)
    decreases |actions|
  {
    if actions == [] {
      forall id | id in w.s.rounds && w.s.now < w.s.rounds[id].ticket.lockTs ensures w.s.rounds[id].status == Open {
        assert RoundFollows(feed, w, id);
      }
    } else {
      InTimeStep(feed, w, actions[0]);
      StepFollows(feed, w, actions[0]);
      InTimeRun(feed, Next(feed, w, actions[0]), actions[1..]);
    }
  }

  // Create a round, let its settle time pass, settle it.
  function EarlySettle(now: nat): seq<Action> {
    [DoCreate("BTC", Some(PriceData(0, now + 1))), Tick(now + 301), DoSettle(1)]
  }

  lemma SettledBeforeLock(feed: Feed<Symbol>, w: World)
    requires w.s.counter == 0 && w.s.fees == 0 && w.s.strikeTs == map[]
    requires ORACLE_INTERVAL < w.s.config.lockOffset && w.s.now + w.s.config.lockOffset < U64_MAX
    ensures !OpenUntilLock(Run(feed, w, EarlySettle(w.s.now)).s)
  {
    var run := EarlySettle(w.s.now);
    var w1 := Next(feed, w, run[0]);
    CreateEffect(feed, w, "BTC", Some(PriceData(0, w.s.now + 1)));
    var w2 := Next(feed, w1, run[1]);
    assert w2.s == w1.s.(now := w.s.now + 301);
    var w3 := Next(feed, w2, run[2]);
    SettleEffect(feed, w2, 1);
    assert w3.s.rounds[1].status == Settled && w3.s.now == w.s.now + 301;
    assert Run(feed, w, run) == Run(feed, w1, run[1..]);
    assert Run(feed, w1, run[1..]) == Run(feed, w2, run[1..][1..]);
    assert Run(feed, w2, run[1..][1..]) == Run(feed, w3, run[1..][1..][1..]);
  }

  // The contract puts no upper bound on lock_offset. In every run that keeps to
  // offsets of at most the oracle interval, betting stays open until the lock
  // whoever settles, if and only if initialize was given such an offset. (The
  // clock must be far enough from the end of u64 for a round to be created.)
  lemma OpenUntilLockExactlyWhen(feed: Feed<Symbol>, config: Config, token: Balances, now: nat)
    requires Initialize(config, token, now).Success? && now + config.lockOffset < U64_MAX
    ensures var w := World(Initialize(config, token, now).value, map[], map[]);
            (forall actions :: OffsetsInTime(actions) ==> OpenUntilLock(Run(feed, w, actions).s))
            <==> config.lockOffset <= ORACLE_INTERVAL
  {
    var w := World(Initialize(config, token, now).value, map[], map[]);
    if config.lockOffset <= ORACLE_INTERVAL {
      forall actions | OffsetsInTime(actions) ensures OpenUntilLock(Run(feed, w, actions).s) {
        InTimeRun(feed, w, actions);
      }
    } else {
      assert OffsetsInTime(EarlySettle(now));
      SettledBeforeLock(feed, w);
    }
  }
}

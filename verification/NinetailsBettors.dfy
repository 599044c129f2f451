// What a bettor gains by coming early or by splitting a stake, in whole runs of
// the Ninetails market: every position is tied to the accepted bet that made it.

module NinetailsBettors {
  import opened Wrappers
  import opened Fees
  import opened Frames
  import opened Sums
  import opened Token
  import opened Oracle
  import opened NinetailsMath
  import opened Ninetails
  import opened NinetailsSolvency
  import opened NinetailsAggregates
  import opened NinetailsSettlement

  // ----- Positions and the bets that made them -----------------------------------------------

  // The user's last bet on the round. (A position that expired can be bet anew.)
  function LastBet(log: seq<Wager<Side>>, u: Address): Option<Wager<Side>> {
    if log == [] then None
    else if log[|log| - 1].user == u then Some(log[|log| - 1])
    else LastBet(log[..|log| - 1], u)
  }

  lemma {:induction false} LastBetIn(log: seq<Wager<Side>>, u: Address)
    ensures LastBet(log, u).Some? ==> LastBet(log, u).value in log && LastBet(log, u).value.user == u
  {
    if log == [] {
    } else {
      LastBetIn(log[..|log| - 1], u);
    }
  }

  predicate Made(b: Option<Wager<Side>>, p: Position, lockTs: nat) {
    b.Some? && p.side == b.value.side && p.amount == b.value.amount
    && p.boosted == Boosted(b.value.amount, b.value.ts, lockTs)
  }

  ghost predicate Logged(s: State, id: nat, log: seq<Wager<Side>>) {
    && (forall k :: k in s.positions ==> k.0 <= s.counter)
    && (id in s.rounds ==>
          forall k :: k in s.positions && k.0 == id ==> Made(LastBet(log, k.1), s.positions[k], s.rounds[id].lockTs))
  }

  lemma BetMakes(s: State, user: Address, id: nat, side: Side, amount: int)
    requires PlaceBet(s, user, id, side, amount).Success?
    ensures var s' := PlaceBet(s, user, id, side, amount).value;
            && 0 <= amount && id in s.rounds && id in s'.rounds && s'.rounds[id].lockTs == s.rounds[id].lockTs
            && s'.counter == s.counter
            && s'.positions
               == s.positions[(id, user) := Position(side, amount, Boosted(amount, s.now, s.rounds[id].lockTs), false)]
            && (forall j :: j in s'.rounds ==> j in s.rounds && s'.rounds[j].lockTs == s.rounds[j].lockTs)
  {}

  lemma BetLogged(feed: Feed<Symbol>, w: World, a: Action, id: nat, log: seq<Wager<Side>>)
    requires Logged(w.s, id, log) && a.DoBet? && Step(feed, w.s, a).Success?
    requires forall j :: j in w.s.rounds ==> j <= w.s.counter
    ensures Logged(Next(feed, w, a).s, id, LogAfter(w, a, id, log))
  {
    BetMakes(w.s, a.user, a.id, a.side, a.amount);
    var s', log' := Next(feed, w, a).s, LogAfter(w, a, id, log);
    if a.id == id {
      assert log'[..|log|] == log;
    }
    if id in s'.rounds {
      forall k | k in s'.positions && k.0 == id
        ensures Made(LastBet(log', k.1), s'.positions[k], s'.rounds[id].lockTs)
      {}
    }
  }

  // Every other step leaves a round's positions as they were bet, or drops them.
  ghost predicate KeepsBets(s: State, s': State, id: nat) {
    && s.counter <= s'.counter
    && (forall k :: k in s'.positions ==>
          k in s.positions && s'.positions[k].(claimed := s.positions[k].claimed) == s.positions[k])
    && (id in s'.rounds && id <= s.counter ==> id in s.rounds && s'.rounds[id].lockTs == s.rounds[id].lockTs)
  }

  lemma KeptLogged(s: State, s': State, id: nat, log: seq<Wager<Side>>)
    requires Logged(s, id, log) && KeepsBets(s, s', id)
    ensures Logged(s', id, log)
  {}

  lemma OtherSteps(feed: Feed<Symbol>, w: World, a: Action, id: nat)
    requires !a.DoBet?
    ensures KeepsBets(w.s, Next(feed, w, a).s, id)
  {
    if Step(feed, w.s, a).Success? {
      match a
      case DoCreate(tick) => CreateEffect(feed, w, tick);
      case DoSettle(sid) => SettleEffect(feed, w, sid);
      case DoClaim(user, cid) => ClaimEffect(feed, w, user, cid);
      case ExpireRound(eid) =>
      case ExpirePosition(eid, user) =>
      case _ => PlainEffect(feed, w, a);
    }
  }

  // In every run each position of a round is its user's last accepted bet on it,
  // boosted by the time that bet came before the lock.
  lemma {:induction false} PositionsAreBets(feed: Feed<Symbol>, w: World, actions: seq<Action>, id: nat,
                                            log: seq<Wager<Side>>)
    requires Shape(w) && Logged(w.s, id, log)
    ensures Logged(Run(feed, w, actions).s, id, LogOfRun(feed, w, actions, id, log))
    decreases |actions|
  {
    if actions == [] {
    } else {
      var a := actions[0];
      if !a.DoBet? {
        OtherSteps(feed, w, a, id);
        KeptLogged(w.s, Next(feed, w, a).s, id, log);
      } else if Step(feed, w.s, a).Success? {
        BetLogged(feed, w, a, id, log);
      }
      StepKeeps(feed, w, a);
      PositionsAreBets(feed, Next(feed, w, a), actions[1..], id, LogAfter(w, a, id, log));
    }
  }

  // ----- Two bettors of one round ------------------------------------------------------------

  lemma EarlierPayout(r: Round, feeBps: nat, b: Wager<Side>, c: Wager<Side>, p: Position, q: Position)
    requires feeBps <= MAX_FEE_BPS && Made(Some(b), p, r.lockTs) && Made(Some(c), q, r.lockTs)
    requires b.side == c.side && b.amount == c.amount && b.ts <= c.ts
    ensures Payout(r, feeBps, q) <= Payout(r, feeBps, p)
  {
    FeeWithin(LosingPool(r), feeBps);
    EarlierIsNeverPaidLess(b.amount, b.ts, c.ts, r.lockTs, LosingPool(r) - Fee(LosingPool(r), feeBps),
                           SideBoosted(r), r.globalBoosted);
  }

  lemma SplitPayout(r: Round, feeBps: nat, b: Wager<Side>, c: Wager<Side>, p: Position, q: Position)
    requires feeBps <= MAX_FEE_BPS && Made(Some(b), p, r.lockTs) && Made(Some(c), q, r.lockTs)
    requires b.side == c.side && b.ts == c.ts
    ensures var two := Payout(r, feeBps, p) + Payout(r, feeBps, q);
            two <= Payout(r, feeBps, Whole(b, c, r.lockTs)) <= two + 2
  {
    FeeWithin(LosingPool(r), feeBps);
    SplittingNeverPays(b.amount, c.amount, b.ts, r.lockTs, LosingPool(r) - Fee(LosingPool(r), feeBps),
                       SideBoosted(r), r.globalBoosted);
  }

  // The two stakes as one.
  function Whole(b: Wager<Side>, c: Wager<Side>, lockTs: nat): Position {
    Position(b.side, b.amount + c.amount, Boosted(b.amount + c.amount, b.ts, lockTs), false)
  }

  function Joined(b: Wager<Side>, c: Wager<Side>): Wager<Side> {
    b.(amount := b.amount + c.amount)
  }

  // The log with the two bets made one.
  ghost predicate Rejoins(log: seq<Wager<Side>>, log': seq<Wager<Side>>, b: Wager<Side>, c: Wager<Side>) {
    multiset(log') + multiset{b, c} == multiset(log) + multiset{Joined(b, c)}
  }

  lemma RejoinedSum(log: seq<Wager<Side>>, log': seq<Wager<Side>>, b: Wager<Side>, c: Wager<Side>,
                    f: Wager<Side> -> int)
    requires Rejoins(log, log', b, c) && f(Joined(b, c)) == f(b) + f(c)
    ensures ListSum(log', f) == ListSum(log, f)
  {
    ListSumMore(log, Joined(b, c), f);
    ListSumMore(log', b, f);
    ListSumMore(log' + [b], c, f);
    ListSumIgnoresOrder(log' + [b] + [c], log + [Joined(b, c)], f);
  }

  lemma RejoinedStakes(log: seq<Wager<Side>>, log': seq<Wager<Side>>, b: Wager<Side>, c: Wager<Side>, side: Side)
    requires b.side == c.side && Rejoins(log, log', b, c)
    ensures ListSum(log', Stakes(side)) == ListSum(log, Stakes(side))
  {
    RejoinedSum(log, log', b, c, Stakes(side));
  }

  lemma RejoinedBoosts(log: seq<Wager<Side>>, log': seq<Wager<Side>>, b: Wager<Side>, c: Wager<Side>, side: Side,
                       lockTs: nat)
    requires b.side == c.side && b.ts == c.ts && Rejoins(log, log', b, c)
    ensures ListSum(log', Boosts(side, lockTs)) == ListSum(log, Boosts(side, lockTs))
  {
    var rest := Remaining(b.ts, lockTs);
    assert (b.amount + c.amount) * rest == b.amount * rest + c.amount * rest;
    RejoinedSum(log, log', b, c, Boosts(side, lockTs));
  }

  lemma RejoinedInTime(log: seq<Wager<Side>>, log': seq<Wager<Side>>, b: Wager<Side>, c: Wager<Side>, lockTs: nat)
    requires Rejoins(log, log', b, c) && b in log
    requires forall i :: 0 <= i < |log| ==> log[i].ts < lockTs
    ensures forall i :: 0 <= i < |log'| ==> log'[i].ts < lockTs
  {
    forall i | 0 <= i < |log'|
      ensures log'[i].ts < lockTs
    {
      assert log'[i] in multiset(log') + multiset{b, c};
    }
  }

  lemma RejoinedDetermines(feed: Feed<Symbol>, s: State, r: Round, log: seq<Wager<Side>>, log': seq<Wager<Side>>,
                           b: Wager<Side>, c: Wager<Side>)
    requires Determined(feed, s, r, log) && b in log && b.side == c.side && b.ts == c.ts && Rejoins(log, log', b, c)
    ensures Determined(feed, s, r, log')
  {
    RejoinedStakes(log, log', b, c, Above);
    RejoinedStakes(log, log', b, c, Below);
    RejoinedBoosts(log, log', b, c, Above, r.lockTs);
    RejoinedBoosts(log, log', b, c, Below, r.lockTs);
    RejoinedInTime(log, log', b, c, r.lockTs);
  }

  ghost predicate BothIn(s: State, id: nat, u: Address, v: Address) {
    id in s.rounds && s.rounds[id].status == Settled && (id, u) in s.positions && (id, v) in s.positions && u != v
  }

  function Deployed(config: Config, token: Balances, now: nat): World
    requires Initialize(config, token, now).Success?
  {
    World(Initialize(config, token, now).value, map[])
  }

  lemma MadeInRun(feed: Feed<Symbol>, config: Config, token: Balances, now: nat, actions: seq<Action>, id: nat,
                  u: Address)
    requires Initialize(config, token, now).Success? && Valid(token)
    requires var s := Run(feed, Deployed(config, token, now), actions).s;
             id in s.rounds && (id, u) in s.positions
    ensures var w := Deployed(config, token, now);
            var s := Run(feed, w, actions).s;
            Made(LastBet(LogOfRun(feed, w, actions, id, []), u), s.positions[(id, u)], s.rounds[id].lockTs)
  {
    FreshIsSolvent(config, token, now);
    PositionsAreBets(feed, Deployed(config, token, now), actions, id, []);
  }

  // Early bets: in every run from deployment, of two positions of a settled
  // round with the same side and stake the one that was bet first is paid no
  // less, at any fee.
  lemma EarlierBettorIsPaidNoLess(feed: Feed<Symbol>, config: Config, token: Balances, now: nat, actions: seq<Action>,
                                  id: nat, u: Address, v: Address, feeBps: nat)
    requires Initialize(config, token, now).Success? && Valid(token) && feeBps <= MAX_FEE_BPS
    requires BothIn(Run(feed, Deployed(config, token, now), actions).s, id, u, v)
    ensures var w := Deployed(config, token, now);
            var (s, log) := (Run(feed, w, actions).s, LogOfRun(feed, w, actions, id, []));
            var (b, c) := (LastBet(log, u), LastBet(log, v));
            && b.Some? && c.Some?
            && (b.value.side == c.value.side && b.value.amount == c.value.amount && b.value.ts <= c.value.ts ==>
                  Payout(s.rounds[id], feeBps, s.positions[(id, v)])
                  <= Payout(s.rounds[id], feeBps, s.positions[(id, u)]))
  {
    var w := Deployed(config, token, now);
    var s, log := Run(feed, w, actions).s, LogOfRun(feed, w, actions, id, []);
    MadeInRun(feed, config, token, now, actions, id, u);
    MadeInRun(feed, config, token, now, actions, id, v);
    var b, c := LastBet(log, u).value, LastBet(log, v).value;
    if b.side == c.side && b.amount == c.amount && b.ts <= c.ts {
      EarlierPayout(s.rounds[id], feeBps, b, c, s.positions[(id, u)], s.positions[(id, v)]);
    }
  }

  // Split bets: in every run from deployment, two positions of a settled round
  // bet at one moment on one side are together paid no more than one position
  // with both stakes, and at most two units less; and the round would have been
  // settled just so had the two bets been that one.
  lemma SplitStakesArePaidNoMore(feed: Feed<Symbol>, config: Config, token: Balances, now: nat, actions: seq<Action>,
                                 id: nat, u: Address, v: Address, feeBps: nat, log': seq<Wager<Side>>)
    requires Initialize(config, token, now).Success? && Valid(token) && feeBps <= MAX_FEE_BPS
    requires BothIn(Run(feed, Deployed(config, token, now), actions).s, id, u, v)
    ensures var w := Deployed(config, token, now);
            var (s, log) := (Run(feed, w, actions).s, LogOfRun(feed, w, actions, id, []));
            var (r, b, c) := (s.rounds[id], LastBet(log, u), LastBet(log, v));
            var two := Payout(r, feeBps, s.positions[(id, u)]) + Payout(r, feeBps, s.positions[(id, v)]);
            && b.Some? && c.Some?
            && (b.value.side == c.value.side && b.value.ts == c.value.ts ==>
                  && two <= Payout(r, feeBps, Whole(b.value, c.value, r.lockTs)) <= two + 2
                  && (Rejoins(log, log', b.value, c.value) ==> Determined(feed, s, r, log')))
  {
    var w := Deployed(config, token, now);
    var s, log := Run(feed, w, actions).s, LogOfRun(feed, w, actions, id, []);
    MadeInRun(feed, config, token, now, actions, id, u);
    MadeInRun(feed, config, token, now, actions, id, v);
    AlwaysFollows(feed, w, actions, id, []);
    LastBetIn(log, u);
    var r, b, c := s.rounds[id], LastBet(log, u).value, LastBet(log, v).value;
    if b.side == c.side && b.ts == c.ts {
      SplitPayout(r, feeBps, b, c, s.positions[(id, u)], s.positions[(id, v)]);
      if Rejoins(log, log', b, c) {
        RejoinedDetermines(feed, s, r, log, log', b, c);
      }
    }
  }
}

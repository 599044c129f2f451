// Settlement of the Ninetails market does not depend on who settles or when:
// a round's books are a function of the bets it accepted, and its outcome a
// function of those and the oracle.

module NinetailsSettlement {
  import opened Wrappers
  import opened Frames
  import opened Sums
  import opened Token
  import opened Oracle
  import opened NinetailsMath
  import opened Ninetails

  // The bets on a round that a run accepts, after those already in the log.
  function LogAfter(w: World, a: Action, id: nat, log: seq<Wager<Side>>): seq<Wager<Side>> {
    if a.DoBet? && a.id == id && PlaceBet(w.s, a.user, a.id, a.side, a.amount).Success? && 0 <= a.amount
    then log + [Wager(a.user, a.side, a.amount, w.s.now)] else log
  }

  function LogOfRun(feed: Feed<Symbol>, w: World, actions: seq<Action>, id: nat, log: seq<Wager<Side>>)
    : seq<Wager<Side>>
    decreases |actions|
  {
    if actions == [] then log
    else LogOfRun(feed, Next(feed, w, actions[0]), actions[1..], id, LogAfter(w, actions[0], id, log))
  }

  function Stakes(side: Side): Wager<Side> -> int {
    (b: Wager<Side>) => if b.side == side then b.amount else 0
  }

  function Boosts(side: Side, lockTs: nat): Wager<Side> -> int {
    (b: Wager<Side>) => if b.side == side then Boosted(b.amount, b.ts, lockTs) else 0
  }

  // A round as its accepted bets and the oracle determine it.
  ghost predicate Determined(feed: Feed<Symbol>, s: State, r: Round, log: seq<Wager<Side>>) {
    var price := feed(s.config.asset, r.settleTs);
    && r.poolAbove == ListSum(log, Stakes(Above)) && r.poolBelow == ListSum(log, Stakes(Below))
    && r.boostedAbove == ListSum(log, Boosts(Above, r.lockTs))
    && r.boostedBelow == ListSum(log, Boosts(Below, r.lockTs))
    && r.globalBoosted == r.boostedAbove + r.boostedBelow
    && (forall i :: 0 <= i < |log| ==> log[i].ts < r.lockTs)
    && (r.status == Open ==> r.outcome == Void && r.settlePrice == 0)
    && (r.status == Settled ==>
          && r.settleTs <= s.now && r.outcome == Verdict(price, r)
          && r.settlePrice == if price.Some? then price.value.price else 0)
  }

  ghost predicate Follows(feed: Feed<Symbol>, w: World, id: nat, log: seq<Wager<Side>>) {
    && (w.s.counter < id ==> log == [] && id !in w.s.rounds)
    && (id in w.s.rounds ==> Determined(feed, w.s, w.s.rounds[id], log))
  }

  // ----- One step ----------------------------------------------------------------------

  lemma BetRecorded(s: State, user: Address, id: nat, side: Side, amount: int)
    requires PlaceBet(s, user, id, side, amount).Success? && 0 <= amount
    ensures var s' := PlaceBet(s, user, id, side, amount).value;
            && id in s.rounds && s.rounds[id].status == Open && s.now < s.rounds[id].lockTs
            && AddStake(s.rounds[id], side, amount, Boosted(amount, s.now, s.rounds[id].lockTs)).Some?
            && s' == s.(positions := s'.positions, token := s'.token,
                        rounds := s.rounds[id := AddStake(s.rounds[id], side, amount,
                                                          Boosted(amount, s.now, s.rounds[id].lockTs)).value])
  {}

  lemma BetDetermines(feed: Feed<Symbol>, s: State, r: Round, log: seq<Wager<Side>>, b: Wager<Side>)
    requires Determined(feed, s, r, log) && r.status == Open && b.ts < r.lockTs
    requires AddStake(r, b.side, b.amount, Boosted(b.amount, b.ts, r.lockTs)).Some?
    ensures Determined(feed, s, AddStake(r, b.side, b.amount, Boosted(b.amount, b.ts, r.lockTs)).value, log + [b])
  {
    ListSumMore(log, b, Stakes(Above));
    ListSumMore(log, b, Stakes(Below));
    ListSumMore(log, b, Boosts(Above, r.lockTs));
    ListSumMore(log, b, Boosts(Below, r.lockTs));
  }

  lemma SettleDetermines(feed: Feed<Symbol>, s: State, id: nat, log: seq<Wager<Side>>)
    requires id in s.rounds && Determined(feed, s, s.rounds[id], log) && Settle(feed, s, id).Success?
    ensures var s' := Settle(feed, s, id).value;
            id in s'.rounds && Determined(feed, s', s'.rounds[id], log)
  {}

  // Steps that leave this round alone, or drop it.
  lemma OthersFollow(feed: Feed<Symbol>, w: World, w': World, id: nat, log: seq<Wager<Side>>)
    requires Follows(feed, w, id, log) && w'.s.config.asset == w.s.config.asset
    requires w.s.counter <= w'.s.counter && w.s.now <= w'.s.now
    requires id in w'.s.rounds ==> id in w.s.rounds && w'.s.rounds[id] == w.s.rounds[id]
    ensures Follows(feed, w', id, log)
  {}

  lemma CreateLeaves(feed: Feed<Symbol>, w: World, tick: Option<PriceData>, id: nat)
    ensures var (s, s') := (w.s, Next(feed, w, DoCreate(tick)).s);
            && s'.config == s.config && s'.now == s.now && s.counter <= s'.counter
            && (id != s.counter + 1 ==> (id in s'.rounds <==> id in s.rounds)
                                        && (id in s.rounds ==> s'.rounds[id] == s.rounds[id]))
            && (s' != s ==> s'.counter == s.counter + 1 && s'.counter in s'.rounds
                            && s'.rounds[s'.counter].status == Open
                            && var r := s'.rounds[s'.counter];
                               r == Round(r.strike, r.strikeTs, r.lockTs, r.settleTs, 0, 0, 0, 0, 0, Open, Void, 0))
  {}

  lemma CreateFollows(feed: Feed<Symbol>, w: World, tick: Option<PriceData>, id: nat, log: seq<Wager<Side>>)
    requires Follows(feed, w, id, log)
    ensures Follows(feed, Next(feed, w, DoCreate(tick)), id, log)
  {
    CreateLeaves(feed, w, tick, id);
  }

  lemma OtherBetLeaves(s: State, user: Address, bid: nat, side: Side, amount: int, id: nat)
    requires PlaceBet(s, user, bid, side, amount).Success? && bid != id
    ensures var s' := PlaceBet(s, user, bid, side, amount).value;
            && s'.config == s.config && s'.now == s.now && s'.counter == s.counter
            && (id in s'.rounds ==> id in s.rounds && s'.rounds[id] == s.rounds[id])
  {}

  lemma QuietLeaves(feed: Feed<Symbol>, w: World, a: Action, id: nat)
    requires !a.DoCreate? && !a.DoBet? && (a.DoSettle? ==> a.id != id)
    ensures var (s, s') := (w.s, Next(feed, w, a).s);
            && s'.config.asset == s.config.asset && s.now <= s'.now && s'.counter == s.counter
            && (id in s'.rounds ==> id in s.rounds && s'.rounds[id] == s.rounds[id])
  {}

  // A successful transfer moves no negative amount.
  lemma BetsAreStakes(s: State, user: Address, id: nat, side: Side, amount: int)
    ensures PlaceBet(s, user, id, side, amount).Success? ==> 0 <= amount
  {}

  lemma BetFollows(feed: Feed<Symbol>, w: World, a: Action, id: nat, log: seq<Wager<Side>>)
    requires Follows(feed, w, id, log) && a.DoBet? && Step(feed, w.s, a).Success?
    ensures Follows(feed, Next(feed, w, a), id, LogAfter(w, a, id, log))
  {
    BetsAreStakes(w.s, a.user, a.id, a.side, a.amount);
    if a.id == id {
      BetRecorded(w.s, a.user, id, a.side, a.amount);
      BetDetermines(feed, w.s, w.s.rounds[id], log, Wager(a.user, a.side, a.amount, w.s.now));
    } else {
      OtherBetLeaves(w.s, a.user, a.id, a.side, a.amount, id);
    }
  }

  lemma StepFollows(feed: Feed<Symbol>, w: World, a: Action, id: nat, log: seq<Wager<Side>>)
    requires Follows(feed, w, id, log)
    ensures Follows(feed, Next(feed, w, a), id, LogAfter(w, a, id, log))
  {
    if a.DoCreate? {
      CreateFollows(feed, w, a.tick, id, log);
    } else if a.DoBet? {
      if Step(feed, w.s, a).Success? {
        BetFollows(feed, w, a, id, log);
      }
    } else if a.DoSettle? && a.id == id {
      if id in w.s.rounds && Settle(feed, w.s, id).Success? {
        SettleDetermines(feed, w.s, id, log);
      }
    } else {
      QuietLeaves(feed, w, a, id);
      OthersFollow(feed, w, Next(feed, w, a), id, log);
    }
  }

  // In every run, expiry included, a round's pools and boosts are the sums over
  // the bets it accepted, each before its lock; once settled, its outcome and
  // price are the oracle's verdict on them at settle_ts.
  lemma {:induction false} AlwaysFollows(feed: Feed<Symbol>, w: World, actions: seq<Action>, id: nat,
                                         log: seq<Wager<Side>>)
    requires Follows(feed, w, id, log)
    ensures Follows(feed, Run(feed, w, actions), id, LogOfRun(feed, w, actions, id, log))
    decreases |actions|
  {
    if actions == [] {
    } else {
      StepFollows(feed, w, actions[0], id, log);
      AlwaysFollows(feed, Next(feed, w, actions[0]), actions[1..], id, LogAfter(w, actions[0], id, log));
    }
  }

  // ----- Two runs -----------------------------------------------------------------------

  predicate SameTerms(r: Round, r': Round) {
    r.strike == r'.strike && r.strikeTs == r'.strikeTs && r.lockTs == r'.lockTs && r.settleTs == r'.settleTs
  }

  lemma DeterminedAlike(feed: Feed<Symbol>, s1: State, r1: Round, log1: seq<Wager<Side>>,
                        s2: State, r2: Round, log2: seq<Wager<Side>>)
    requires Determined(feed, s1, r1, log1) && Determined(feed, s2, r2, log2)
    requires s1.config.asset == s2.config.asset && SameTerms(r1, r2) && r1.status == r2.status == Settled
    requires multiset(log1) == multiset(log2)
    ensures r1 == r2
  {
    ListSumIgnoresOrder(log1, log2, Stakes(Above));
    ListSumIgnoresOrder(log1, log2, Stakes(Below));
    ListSumIgnoresOrder(log1, log2, Boosts(Above, r1.lockTs));
    ListSumIgnoresOrder(log1, log2, Boosts(Below, r1.lockTs));
  }

  // Settlement independence: any two runs from deployment, whatever else they
  // do, that opened a round with the same terms, accepted the same bets on it
  // at the same times, in whatever order, and settled it, hold the same round:
  // outcome, price, pools and boosts. At equal fee every position is paid the
  // same by both.
  lemma SettlementIsDetermined(feed: Feed<Symbol>, w1: World, run1: seq<Action>, id1: nat,
                               w2: World, run2: seq<Action>, id2: nat, feeBps: nat, p: Position)
    requires w1.s.counter == w2.s.counter == 0 && w1.s.rounds == w2.s.rounds == map[] && 0 < id1 && 0 < id2
    requires var (v1, v2) := (Run(feed, w1, run1), Run(feed, w2, run2));
             && v1.s.config.asset == v2.s.config.asset
             && id1 in v1.s.rounds && id2 in v2.s.rounds && SameTerms(v1.s.rounds[id1], v2.s.rounds[id2])
             && v1.s.rounds[id1].status == v2.s.rounds[id2].status == Settled
    requires multiset(LogOfRun(feed, w1, run1, id1, [])) == multiset(LogOfRun(feed, w2, run2, id2, []))
    ensures Run(feed, w1, run1).s.rounds[id1] == Run(feed, w2, run2).s.rounds[id2]
    ensures Payout(Run(feed, w1, run1).s.rounds[id1], feeBps, p) == Payout(Run(feed, w2, run2).s.rounds[id2], feeBps, p)
  {
    AlwaysFollows(feed, w1, run1, id1, []);
    AlwaysFollows(feed, w2, run2, id2, []);
    var v1, v2 := Run(feed, w1, run1), Run(feed, w2, run2);
    DeterminedAlike(feed, v1.s, v1.s.rounds[id1], LogOfRun(feed, w1, run1, id1, []),
                    v2.s, v2.s.rounds[id2], LogOfRun(feed, w2, run2, id2, []));
  }

  // ----- Pools and boosts are frozen --------------------------------------------------------

  predicate SameBooks(r: Round, r': Round) {
    && SameTerms(r, r') && r'.poolAbove == r.poolAbove && r'.poolBelow == r.poolBelow
    && r'.boostedAbove == r.boostedAbove && r'.boostedBelow == r.boostedBelow && r'.globalBoosted == r.globalBoosted
  }

  lemma SettleLeavesBooks(feed: Feed<Symbol>, s: State, sid: nat, id: nat)
    requires Settle(feed, s, sid).Success?
    ensures var s' := Settle(feed, s, sid).value;
            && s'.now == s.now && s'.counter == s.counter
            && (id in s'.rounds ==> id in s.rounds && SameBooks(s.rounds[id], s'.rounds[id]))
  {}

  // One step: a locked round keeps its books and terms, and a round that has
  // expired does not come back.
  lemma StepFreezes(feed: Feed<Symbol>, w: World, a: Action, id: nat)
    requires id <= w.s.counter
    requires id in w.s.rounds ==> w.s.rounds[id].lockTs <= w.s.now
    ensures var w' := Next(feed, w, a);
            && id <= w'.s.counter && w.s.now <= w'.s.now
            && (id in w'.s.rounds ==> id in w.s.rounds && SameBooks(w.s.rounds[id], w'.s.rounds[id]))
  {
    if a.DoCreate? {
      CreateLeaves(feed, w, a.tick, id);
    } else if a.DoBet? {
      if Step(feed, w.s, a).Success? {
        BetsAreStakes(w.s, a.user, a.id, a.side, a.amount);
        BetRecorded(w.s, a.user, a.id, a.side, a.amount);
      }
    } else if a.DoSettle? {
      if Step(feed, w.s, a).Success? {
        SettleLeavesBooks(feed, w.s, a.id, id);
      }
    } else {
      QuietLeaves(feed, w, a, id);
    }
  }

  // From its lock on a round's pools, boosts and terms are frozen, in every run,
  // for as long as the round is there.
  lemma {:induction false} PoolsFrozen(feed: Feed<Symbol>, w: World, actions: seq<Action>, id: nat)
    requires id <= w.s.counter
    requires id in w.s.rounds ==> w.s.rounds[id].lockTs <= w.s.now
    requires id in Run(feed, w, actions).s.rounds
    ensures id in w.s.rounds && SameBooks(w.s.rounds[id], Run(feed, w, actions).s.rounds[id])
    decreases |actions|
  {
    if actions == [] {
    } else {
      StepFreezes(feed, w, actions[0], id);
      PoolsFrozen(feed, Next(feed, w, actions[0]), actions[1..], id);
    }
  }
}

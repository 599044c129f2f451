// One winning side: the settlement announces it, claim pays it and the view
// quotes it, each by a comparison of its own; they never disagree.

module EpochWinners {
  import opened Wrappers
  import opened Token
  import opened EpochMarket
  import opened EpochPipeline
  import opened EpochPrices

  // What a bet on the announced side is worth, and any other nothing.
  function WorthTo(r: Round, side: Direction, b: Bet): Option<int> {
    if b.direction == side then ComputePayout(b.amount, r.rewardPool, SideAmount(r, side)) else Some(0)
  }

  // In a round closed at a price, claim and view go by the announced side, for
  // every bet. An exact tie with refunds switched off is announced, paid and
  // quoted for Down; the house does not take the pool.
  lemma AllPickTheAnnounced(s: State, k: Key, user: Address, was: Round, closeTs: nat, price: int, c: Config)
    requires Announcement(was, Some(price), c).Some?
    requires k in s.rounds && s.rounds[k] == Closed(was, closeTs, Some(price), c) && Unclaimed(s.bets, k, user)
    ensures var side := Announcement(was, Some(price), c).value;
            && s.rounds[k].status == Resolved
            && Winnings(s.rounds, s.bets, k, user) == WorthTo(s.rounds[k], side, s.bets[(k, user)])
            && Claimable(s, k, user) == WorthTo(s.rounds[k], side, s.bets[(k, user)])
            && (price == was.startPrice ==> side == Down)
  {}

  // Resolved rounds never change again.
  lemma ResolvedStays(s: State, c: Call, locked: set<Key>, k: Key)
    requires Chain(s, locked) && HasStatus(s.rounds, k, Resolved)
    ensures k in Apply(s, c).rounds && Apply(s, c).rounds[k] == s.rounds[k]
  {
    match c.action
    case DoExecute(a) =>
      ExecuteCall(s, c, a);
      AdvancedAt(c.feed, s, a, k);
    case DoGenesisStart(a) => GenesisCall(s, c, a);
    case DoGenesisLock(a) => LockLeavesResolved(s, c, a, k);
    case DoBet(user, a, epoch, side, amount) =>
    case _ => QuietStays(s, c, k);
  }

  lemma LockLeavesResolved(s: State, c: Call, a: Asset, k: Key)
    requires c.action == DoGenesisLock(a) && HasStatus(s.rounds, k, Resolved)
    ensures k in Apply(s, c).rounds && Apply(s, c).rounds[k] == s.rounds[k]
  {}

  lemma QuietStays(s: State, c: Call, k: Key)
    requires !Drives(c) && !c.action.DoBet?
    ensures Apply(s, c).rounds == s.rounds
  {
    var a := c.action;
    if a.DoClaim? || a.DoRefund? {
      if Step(s, c).Success? {
        if a.DoClaim? {
          BatchLeaves(s, a.user, ClaimEpochs(s.rounds, s.bets, a.asset, a.user, a.epochs));
        } else {
          BatchLeaves(s, a.user, RefundEpochs(s.rounds, s.bets, a.asset, a.user, a.epochs));
        }
      }
    } else {
      RestLeaves(s, c);
    }
  }

  lemma {:induction false} ResolvedForever(s: State, calls: seq<Call>, locked: set<Key>, k: Key)
    requires Chain(s, locked) && HasStatus(s.rounds, k, Resolved)
    ensures k in Run(s, calls).rounds && Run(s, calls).rounds[k] == s.rounds[k]
    decreases |calls|
  {
    if calls == [] {
    } else {
      ResolvedStays(s, calls[0], locked, k);
      StepKeepsChain(s, calls[0], locked);
      ResolvedForever(Apply(s, calls[0]), calls[1..], LockedAfter(s, calls[0], locked), k);
    }
  }

  lemma ClosedHow(s: State, c: Call, k: Key)
    requires c.action == DoExecute(k.0) && HasStatus(s.rounds, k, Status.Locked)
    requires HasStatus(Apply(s, c).rounds, k, Resolved)
    ensures var ts := (k.1 + 1) * INTERVAL;
            var price := FetchPrice(c.feed, k.0, ts, s.config.staleness);
            && Announcement(s.rounds[k], price, s.config).Some?
            && Apply(s, c).rounds[k] == Closed(s.rounds[k], ts, price, s.config)
  {
    ExecuteCall(s, c, k.0);
    AdvancedAt(c.feed, s, k.0, k);
  }

  // In every run from deployment: once an execution has resolved a round and
  // announced a side, then ever after claim pays and the view quotes that side's
  // unclaimed bets their share, and the other side's nothing.
  lemma AnnouncedSideWins(s: State, before: seq<Call>, close: Call, after: seq<Call>, k: Key, user: Address)
    requires s.rounds == map[] && s.genesis == map[] && close.action == DoExecute(k.0)
    requires HasStatus(Run(s, before).rounds, k, Status.Locked)
    requires HasStatus(Apply(Run(s, before), close).rounds, k, Resolved)
    requires Unclaimed(Run(Apply(Run(s, before), close), after).bets, k, user)
    ensures var (v, z) := (Run(s, before), Run(Apply(Run(s, before), close), after));
            var said := Announcement(v.rounds[k],
                                     FetchPrice(close.feed, k.0, (k.1 + 1) * INTERVAL, v.config.staleness), v.config);
            && said.Some? && k in z.rounds
            && Winnings(z.rounds, z.bets, k, user) == WorthTo(z.rounds[k], said.value, z.bets[(k, user)])
            && Claimable(z, k, user) == WorthTo(z.rounds[k], said.value, z.bets[(k, user)])
  {
    var v := Run(s, before);
    var w := Apply(v, close);
    var z := Run(w, after);
    ChainAlways(s, before, {});
    StepKeepsChain(v, close, EverLocked(s, before, {}));
    ResolvedForever(w, after, LockedAfter(v, close, EverLocked(s, before, {})), k);
    ClosedHow(v, close, k);
    var price := FetchPrice(close.feed, k.0, (k.1 + 1) * INTERVAL, v.config.staleness);
    AllPickTheAnnounced(z, k, user, v.rounds[k], (k.1 + 1) * INTERVAL, price.value, v.config);
  }
}

// Positions live in storage that expires, while the pools and boosts of their
// round stay: exactly what the totals then stand for.

module NinetailsExpiry {
  import opened Wrappers
  import opened Fees
  import opened Frames
  import opened Sums
  import opened Token
  import opened Oracle
  import opened NinetailsMath
  import opened Ninetails
  import opened NinetailsConservation
  import opened NinetailsSolvency
  import opened NinetailsAggregates

  // The positions of a round that expire along a run, after those in the list.
  function GoneAfter(s: State, a: Action, id: nat, gone: seq<Position>): seq<Position> {
    if a.ExpirePosition? && a.id == id && (id, a.user) in s.positions then gone + [s.positions[(id, a.user)]] else gone
  }

  function GoneOfRun(feed: Feed<Symbol>, w: World, actions: seq<Action>, id: nat, gone: seq<Position>): seq<Position>
    decreases |actions|
  {
    if actions == [] then gone
    else GoneOfRun(feed, Next(feed, w, actions[0]), actions[1..], id, GoneAfter(w.s, actions[0], id, gone))
  }

  function PoolOf(r: Round, side: Side): int {
    if side == Above then r.poolAbove else r.poolBelow
  }

  function BoostOf(r: Round, side: Side): int {
    if side == Above then r.boostedAbove else r.boostedBelow
  }

  // Pools and boosts are the sums over the live positions and the expired ones.
  ghost predicate SideBacked(r: Round, ps: Positions, id: nat, gone: seq<Position>, side: Side) {
    && PoolOf(r, side) == Total(ps, id, StakeOn(side)) + ListSum(gone, StakeOn(side))
    && BoostOf(r, side) == Total(ps, id, BoostOn(side)) + ListSum(gone, BoostOn(side))
  }

  ghost predicate Backed(r: Round, ps: Positions, id: nat, gone: seq<Position>) {
    r.globalBoosted == r.boostedAbove + r.boostedBelow && forall side :: SideBacked(r, ps, id, gone, side)
  }

  ghost predicate Accounted(s: State, id: nat, gone: seq<Position>) {
    && (id in s.rounds ==> Backed(s.rounds[id], s.positions, id, gone))
    && (s.counter < id ==> gone == [])
    && (forall j :: j in s.rounds ==> j <= s.counter)
    && (forall k :: k in s.positions ==> k.0 <= s.counter)
  }

  // ----- One step -----------------------------------------------------------------------

  lemma BackedFrame(r: Round, ps: Positions, ps': Positions, id: nat, gone: seq<Position>)
    requires Backed(r, ps, id, gone) && SameEntries(ps, ps', id)
    ensures Backed(r, ps', id, gone)
  {
    forall side ensures SideBacked(r, ps', id, gone, side) {
      assert SideBacked(r, ps, id, gone, side);
      TotalFrame(ps, ps', id, StakeOn(side));
      TotalFrame(ps, ps', id, BoostOn(side));
    }
  }

  lemma FreshBacked(r: Round, ps: Positions, id: nat)
    requires r.poolAbove == r.poolBelow == r.boostedAbove == r.boostedBelow == r.globalBoosted == 0
    requires forall k :: k in ps ==> k.0 != id
    ensures Backed(r, ps, id, [])
  {
    forall side ensures SideBacked(r, ps, id, [], side) {
      TotalEmpty(ps, id, StakeOn(side));
      TotalEmpty(ps, id, BoostOn(side));
    }
  }

  lemma StakeBacked(r: Round, r': Round, ps: Positions, id: nat, u: Address, p: Position, gone: seq<Position>)
    requires Backed(r, ps, id, gone) && (id, u) !in ps
    requires AddStake(r, p.side, p.amount, p.boosted) == Some(r')
    ensures Backed(r', ps[(id, u) := p], id, gone)
  {
    var ps' := ps[(id, u) := p];
    forall side ensures SideBacked(r', ps', id, gone, side) {
      assert SideBacked(r, ps, id, gone, side);
      TotalSet(ps, id, u, p, StakeOn(side));
      TotalSet(ps, id, u, p, BoostOn(side));
    }
  }

  lemma ClaimedBacked(r: Round, ps: Positions, id: nat, u: Address, gone: seq<Position>)
    requires Backed(r, ps, id, gone) && (id, u) in ps
    ensures Backed(r, ps[(id, u) := ps[(id, u)].(claimed := true)], id, gone)
  {
    var p := ps[(id, u)].(claimed := true);
    var ps' := ps[(id, u) := p];
    forall side ensures SideBacked(r, ps', id, gone, side) {
      assert SideBacked(r, ps, id, gone, side);
      TotalSet(ps, id, u, p, StakeOn(side));
      TotalSet(ps, id, u, p, BoostOn(side));
    }
  }

  // An expiring position moves from the one sum to the other.
  lemma ExpiredBacked(r: Round, ps: Positions, id: nat, u: Address, gone: seq<Position>)
    requires Backed(r, ps, id, gone) && (id, u) in ps
    ensures Backed(r, ps - {(id, u)}, id, gone + [ps[(id, u)]])
  {
    forall side ensures SideBacked(r, ps - {(id, u)}, id, gone + [ps[(id, u)]], side) {
      assert SideBacked(r, ps, id, gone, side);
      TotalDrop(ps, id, u, StakeOn(side));
      TotalDrop(ps, id, u, BoostOn(side));
      ListSumMore(gone, ps[(id, u)], StakeOn(side));
      ListSumMore(gone, ps[(id, u)], BoostOn(side));
    }
  }

  lemma OthersBacked(s: State, s': State, id: nat, at: nat, gone: seq<Position>)
    requires Accounted(s, id, gone) && id != at && s.counter <= s'.counter
    requires id in s'.rounds ==> id in s.rounds && s'.rounds[id] == s.rounds[id]
    requires SameElsewhere(s.positions, s'.positions, at)
    requires forall j :: j in s'.rounds ==> j <= s'.counter
    requires forall k :: k in s'.positions ==> k.0 <= s'.counter
    ensures Accounted(s', id, gone)
  {
    if id in s'.rounds {
      BackedFrame(s.rounds[id], s.positions, s'.positions, id, gone);
    }
  }

  lemma CreateAccounted(feed: Feed<Symbol>, w: World, tick: Option<PriceData>, id: nat, gone: seq<Position>)
    requires Accounted(w.s, id, gone) && CreateRound(w.s, tick).Success?
    ensures Accounted(Next(feed, w, DoCreate(tick)).s, id, gone)
  {
    var s' := Next(feed, w, DoCreate(tick)).s;
    CreateEffect(feed, w, tick);
    if id == s'.counter {
      FreshBacked(s'.rounds[id], s'.positions, id);
    }
  }

  lemma BetAccounted(feed: Feed<Symbol>, w: World, a: Action, id: nat, gone: seq<Position>)
    requires Accounted(w.s, id, gone) && a.DoBet? && Step(feed, w.s, a).Success?
    ensures Accounted(Next(feed, w, a).s, id, gone)
  {
    var s' := Next(feed, w, a).s;
    BetEffect(feed, w, a.user, a.id, a.side, a.amount);
    ElsewhereSame(w.s.positions, a.id, a.user, s'.positions[(a.id, a.user)]);
    if a.id == id {
      StakeBacked(w.s.rounds[id], s'.rounds[id], w.s.positions, id, a.user, s'.positions[(id, a.user)], gone);
    } else {
      OthersBacked(w.s, s', id, a.id, gone);
    }
  }

  lemma ClaimAccounted(feed: Feed<Symbol>, w: World, user: Address, cid: nat, id: nat, gone: seq<Position>)
    requires Accounted(w.s, id, gone) && Claim(w.s, user, cid).Success?
    ensures Accounted(Next(feed, w, DoClaim(user, cid)).s, id, gone)
  {
    var s' := Next(feed, w, DoClaim(user, cid)).s;
    ClaimEffect(feed, w, user, cid);
    ElsewhereSame(w.s.positions, cid, user, s'.positions[(cid, user)]);
    if cid == id {
      ClaimedBacked(w.s.rounds[id], w.s.positions, id, user, gone);
    } else {
      OthersBacked(w.s, s', id, cid, gone);
    }
  }

  lemma ExpiryAccounted(feed: Feed<Symbol>, w: World, user: Address, eid: nat, id: nat, gone: seq<Position>)
    requires Accounted(w.s, id, gone)
    ensures var a := ExpirePosition(eid, user);
            Accounted(Next(feed, w, a).s, id, GoneAfter(w.s, a, id, gone))
  {
    var s' := Next(feed, w, ExpirePosition(eid, user)).s;
    if eid == id && (id, user) in w.s.positions {
      if id in w.s.rounds {
        ExpiredBacked(w.s.rounds[id], w.s.positions, id, user, gone);
      }
    } else if (eid, user) !in w.s.positions {
      assert s'.positions == w.s.positions;
    } else {
      ElsewhereSame(w.s.positions, eid, user, w.s.positions[(eid, user)]);
      OthersBacked(w.s, s', id, eid, gone);
    }
  }

  lemma SettleAccounted(feed: Feed<Symbol>, w: World, sid: nat, id: nat, gone: seq<Position>)
    requires Accounted(w.s, id, gone) && Settle(feed, w.s, sid).Success?
    ensures Accounted(Next(feed, w, DoSettle(sid)).s, id, gone)
  {
    SettleEffect(feed, w, sid);
    var r := w.s.rounds[sid];
    var r' := SettledRound(r, feed(w.s.config.asset, r.settleTs));
    if sid == id {
      forall side ensures SideBacked(r', w.s.positions, id, gone, side) {
        assert SideBacked(r, w.s.positions, id, gone, side);
      }
    }
  }

  lemma StepAccounted(feed: Feed<Symbol>, w: World, a: Action, id: nat, gone: seq<Position>)
    requires Accounted(w.s, id, gone)
    ensures Accounted(Next(feed, w, a).s, id, GoneAfter(w.s, a, id, gone))
  {
    if Step(feed, w.s, a).Success? {
      match a
      case DoCreate(tick) => CreateAccounted(feed, w, tick, id, gone);
      case DoBet(user, bid, side, amount) => BetAccounted(feed, w, a, id, gone);
      case DoSettle(sid) => SettleAccounted(feed, w, sid, id, gone);
      case DoClaim(user, cid) => ClaimAccounted(feed, w, user, cid, id, gone);
      case ExpireRound(eid) =>
      case ExpirePosition(eid, user) => ExpiryAccounted(feed, w, user, eid, id, gone);
      case _ => PlainEffect(feed, w, a);
    }
  }

  // ----- Whole runs ------------------------------------------------------------------------

  // In every run, whatever expires, pools and boosts are the sums over the live
  // positions and over those that expired, no stake counted twice or dropped.
  lemma {:induction false} TotalsAccountForAll(feed: Feed<Symbol>, w: World, actions: seq<Action>, id: nat,
                                               gone: seq<Position>)
    requires Accounted(w.s, id, gone)
    ensures Accounted(Run(feed, w, actions).s, id, GoneOfRun(feed, w, actions, id, gone))
    decreases |actions|
  {
    if actions == [] {
    } else {
      StepAccounted(feed, w, actions[0], id, gone);
      TotalsAccountForAll(feed, Next(feed, w, actions[0]), actions[1..], id, GoneAfter(w.s, actions[0], id, gone));
    }
  }

  lemma FreshAccounted(config: Config, token: Balances, now: nat, id: nat)
    requires Initialize(config, token, now).Success?
    ensures Accounted(Initialize(config, token, now).value, id, [])
  {}

  lemma {:induction false} NoneLeft(gone: seq<Position>, f: Position -> int)
    requires forall p :: 0 <= f(p)
    ensures 0 <= ListSum(gone, f)
    ensures ListSum(gone, f) == 0 <==> forall p :: p in gone ==> f(p) == 0
    decreases |gone|
  {
    if gone == [] {
    } else {
      var last := |gone| - 1;
      NoneLeft(gone[..last], f);
      assert gone == gone[..last] + [gone[last]];
    }
  }

  lemma SideExact(r: Round, ps: Positions, id: nat, gone: seq<Position>, side: Side)
    requires SideBacked(r, ps, id, gone, side)
    ensures Total(ps, id, StakeOn(side)) == PoolOf(r, side) && Total(ps, id, BoostOn(side)) == BoostOf(r, side)
       <==> forall p :: p in gone && p.side == side ==> p.amount == 0 && p.boosted == 0
  {
    NoneLeft(gone, StakeOn(side));
    NoneLeft(gone, BoostOn(side));
    assert forall p: Position :: p.side == side ==> StakeOn(side)(p) == p.amount && BoostOn(side)(p) == p.boosted;
    assert forall p: Position :: p.side != side ==> StakeOn(side)(p) == 0 && BoostOn(side)(p) == 0;
  }

  lemma ExactWhen(r: Round, ps: Positions, id: nat, gone: seq<Position>)
    requires Backed(r, ps, id, gone)
    ensures Exact(r, ps, id) <==> forall p :: p in gone ==> p.amount == 0 && p.boosted == 0
  {
    SideExact(r, ps, id, gone, Above);
    SideExact(r, ps, id, gone, Below);
  }

  // In every run, the totals of a round equal the sums over its live positions
  // if and only if none of its positions expired with a stake or boost.
  lemma ExactExactlyWhen(feed: Feed<Symbol>, w: World, actions: seq<Action>, id: nat)
    requires Accounted(w.s, id, []) && id in Run(feed, w, actions).s.rounds
    ensures var s := Run(feed, w, actions).s;
            Exact(s.rounds[id], s.positions, id) <==> NothingGone(feed, w, actions, id)
  {
    TotalsAccountForAll(feed, w, actions, id, []);
    var s := Run(feed, w, actions).s;
    ExactWhen(s.rounds[id], s.positions, id, GoneOfRun(feed, w, actions, id, []));
  }

  ghost predicate NothingGone(feed: Feed<Symbol>, w: World, actions: seq<Action>, id: nat) {
    forall p :: p in GoneOfRun(feed, w, actions, id, []) ==> p.amount == 0 && p.boosted == 0
  }

  // ----- Conservation in runs ------------------------------------------------------------------

  // One round: fee and payouts never exceed the stakes and, where its totals
  // are exact, leave at most winners + bettors - 1 units.
  lemma RoundConserves(r: Round, ps: Positions, id: nat, feeBps: nat)
    requires Covered(r, ps, id) && Decided(r) && feeBps <= MAX_FEE_BPS
    ensures var paid := Fee(LosingPool(r), feeBps) + Total(ps, id, PaidBy(r, feeBps));
            && paid <= r.poolAbove + r.poolBelow
            && (Exact(r, ps, id) ==>
                  r.poolAbove + r.poolBelow <= paid + |BettorsOn(ps, id, Winner(r))| + |Bettors(ps, id)| - 1)
            && 10 * Total(ps, id, PaidOn(r, feeBps, Loser(r)))
               <= 3 * (LosingPool(r) - Fee(LosingPool(r), feeBps))
  {
    PaysAtMostTheStakes(r, feeBps, ps, id);
    LosersShareTheRefundCut(r, feeBps, ps, id);
    if Exact(r, ps, id) {
      LeavesLittleDust(r, feeBps, ps, id);
    }
  }

  // Every decided round of every run from deployment: the upper bounds hold
  // whatever expires anywhere, the dust bound when nothing of this round did.
  lemma RunsConserve(feed: Feed<Symbol>, config: Config, token: Balances, now: nat, actions: seq<Action>, id: nat,
                     feeBps: nat)
    requires Initialize(config, token, now).Success? && Valid(token) && feeBps <= MAX_FEE_BPS
    requires var s := Run(feed, World(Initialize(config, token, now).value, map[]), actions).s;
             id in s.rounds && s.rounds[id].status == Settled && s.rounds[id].outcome != Void
    ensures var w := World(Initialize(config, token, now).value, map[]);
            var s := Run(feed, w, actions).s;
            var r, ps := s.rounds[id], s.positions;
            var paid := Fee(LosingPool(r), feeBps) + Total(ps, id, PaidBy(r, feeBps));
            && paid <= r.poolAbove + r.poolBelow
            && 10 * Total(ps, id, PaidOn(r, feeBps, Loser(r)))
               <= 3 * (LosingPool(r) - Fee(LosingPool(r), feeBps))
            && (NothingGone(feed, w, actions, id) ==>
                  r.poolAbove + r.poolBelow <= paid + |BettorsOn(ps, id, Winner(r))| + |Bettors(ps, id)| - 1)
  {
    var w := World(Initialize(config, token, now).value, map[]);
    FreshIsSolvent(config, token, now);
    FreshAccounted(config, token, now, id);
    ExactExactlyWhen(feed, w, actions, id);
    AlwaysShaped(feed, w, actions);
    var s := Run(feed, w, actions).s;
    assert RoundInv(Run(feed, w, actions), id);
    RoundConserves(s.rounds[id], s.positions, id, feeBps);
  }
}

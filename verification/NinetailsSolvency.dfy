// Solvency of the Ninetails market over every run: any interleaving of the
// entry points, clock steps, expiries and foreign transfers.

module NinetailsSolvency {
  import opened Wrappers
  import opened Fees
  import opened Frames
  import opened Sums
  import opened Token
  import opened Oracle
  import opened NinetailsMath
  import opened Ninetails
  import opened NinetailsConservation
  import opened NinetailsFees

  // What a position may still be paid at a fee.
  function OwedAt(r: Round, fee: nat): Position -> int {
    (p: Position) => if p.claimed then 0 else Payout(r, fee, p)
  }

  function FeeOf(w: World, id: nat): nat {
    if id in w.feeAtSettle then w.feeAtSettle[id] else 0
  }

  // What a round settled at a fee can still draw from the balance: its whole
  // stake until it is settled, afterwards its unclaimed payouts and refunds at
  // the least fee that it can afford.
  ghost function Hold(r: Round, ps: Positions, id: nat, fee: nat): int {
    match r.status
    case Open => r.poolAbove + r.poolBelow
    case Settled => Total(ps, id, OwedAt(r, LeastFee(r, fee)))
  }

  ghost function Holds(w: World): (m: map<nat, int>)
    ensures m.Keys == w.s.rounds.Keys
    ensures forall id :: id in m ==> m[id] == Hold(w.s.rounds[id], w.s.positions, id, FeeOf(w, id))
  {
    map id | id in w.s.rounds :: Hold(w.s.rounds[id], w.s.positions, id, FeeOf(w, id))
  }

  function StoreOf(w: World): Store<Round, Address, Position> {
    Store(w.s.counter, w.s.rounds, w.s.positions, w.feeAtSettle)
  }

  ghost predicate RoundInv(w: World, id: nat)
    requires id in w.s.rounds
  {
    var r := w.s.rounds[id];
    && 1 <= id <= w.s.counter
    && Covered(r, w.s.positions, id)
    && (r.status == Settled ==> id in w.feeAtSettle && (r.outcome != Void ==> Decided(r)))
  }

  ghost predicate Shape(w: World) {
    && w.s.config.feeBps <= MAX_FEE_BPS
    && 0 <= w.s.fees
    && Valid(w.s.token)
    && (forall id :: id in w.feeAtSettle ==> w.feeAtSettle[id] <= MAX_FEE_BPS)
    && (forall id :: id in w.s.rounds ==> RoundInv(w, id))
    && (forall k :: k in w.s.positions ==> k.0 <= w.s.counter)
  }

  // The balance covers the fees and everything every round can still draw.
  ghost predicate Solvent(w: World) {
    w.s.fees + Sum(Holds(w)) <= Bal(w.s.token, SELF)
  }

  ghost predicate Inv(w: World) {
    Shape(w) && Solvent(w)
  }

  // The condition the code leaves to the admin: a claim is made at a fee that
  // its round can afford.
  predicate FeeSuffices(w: World, a: Action) {
    a.DoClaim? && a.id in w.s.rounds ==> Suffices(w.s.rounds[a.id], FeeOf(w, a.id), w.s.config.feeBps)
  }

  predicate FeeSufficesAlong(feed: Feed<Symbol>, w: World, actions: seq<Action>)
    decreases |actions|
  {
    actions == [] || (FeeSuffices(w, actions[0]) && FeeSufficesAlong(feed, Next(feed, w, actions[0]), actions[1..]))
  }

  // ----- Bookkeeping ---------------------------------------------------------------

  lemma OwedNonNeg(r: Round, ps: Positions, id: nat, fee: nat)
    requires fee <= MAX_FEE_BPS
    ensures 0 <= Hold(r, ps, id, fee)
  {
    OwedAllNonNeg(r, ps, LeastFee(r, fee));
    TotalNonNeg(ps, id, OwedAt(r, LeastFee(r, fee)));
  }

  lemma CoveredFrame(r: Round, ps: Positions, ps': Positions, id: nat)
    requires SameEntries(ps, ps', id)
    ensures Covered(r, ps', id) == Covered(r, ps, id)
    ensures Exact(r, ps', id) == Exact(r, ps, id)
  {
    TotalFrame(ps, ps', id, StakeOn(Above));
    TotalFrame(ps, ps', id, StakeOn(Below));
    TotalFrame(ps, ps', id, BoostOn(Above));
    TotalFrame(ps, ps', id, BoostOn(Below));
  }

  lemma HoldFrame(r: Round, ps: Positions, ps': Positions, id: nat, fee: nat)
    requires SameEntries(ps, ps', id)
    ensures Hold(r, ps', id, fee) == Hold(r, ps, id, fee)
  {
    TotalFrame(ps, ps', id, OwedAt(r, LeastFee(r, fee)));
  }

  lemma OtherKept(w: World, w': World, id: nat, j: nat)
    requires Shape(w) && Touches(StoreOf(w), StoreOf(w'), id) && j != id && j in w'.s.rounds
    ensures j in w.s.rounds && RoundInv(w', j) && Holds(w')[j] == Holds(w)[j]
  {
    OtherRound(StoreOf(w), StoreOf(w'), id, j);
    CoveredFrame(w.s.rounds[j], w.s.positions, w'.s.positions, j);
    HoldFrame(w.s.rounds[j], w.s.positions, w'.s.positions, j, FeeOf(w, j));
  }

  lemma ShapeKept(w: World, w': World, id: nat)
    requires Shape(w) && Touches(StoreOf(w), StoreOf(w'), id)
    requires id in w'.s.rounds ==> RoundInv(w', id)
    requires id in w'.feeAtSettle ==> w'.feeAtSettle[id] <= MAX_FEE_BPS
    requires w'.s.config.feeBps <= MAX_FEE_BPS && 0 <= w'.s.fees && Valid(w'.s.token)
    requires forall k :: k in w'.s.positions ==> k.0 <= w'.s.counter
    ensures Shape(w')
  {
    forall j | j in w'.s.rounds ensures RoundInv(w', j) {
      if j != id {
        OtherKept(w, w', id, j);
      }
    }
    forall j | j in w'.feeAtSettle ensures w'.feeAtSettle[j] <= MAX_FEE_BPS {
      assert j != id ==> j in w'.feeAtSettle - {id};
    }
  }

  ghost function HoldAt(w: World, id: nat): int {
    if id in w.s.rounds then Hold(w.s.rounds[id], w.s.positions, id, FeeOf(w, id)) else 0
  }

  // A step that touches one round keeps the market solvent if the balance
  // moves at least as much as the fees and the hold of that round together.
  lemma RoundStep(w: World, w': World, id: nat)
    requires Shape(w) && Touches(StoreOf(w), StoreOf(w'), id)
    requires Bal(w.s.token, SELF) + (w'.s.fees - w.s.fees) + (HoldAt(w', id) - HoldAt(w, id)) <= Bal(w'.s.token, SELF)
    ensures Solvent(w) ==> Solvent(w')
  {
    var h, h' := Holds(w), Holds(w');
    forall j | j in h' && j != id && j in h ensures h'[j] == h[j] {
      OtherKept(w, w', id, j);
    }
    HoldsChange(StoreOf(w), StoreOf(w'), id, h, h');
    assert At(h, id) == HoldAt(w, id) && At(h', id) == HoldAt(w', id);
  }

  // ----- One step at a time ----------------------------------------------------------

  lemma EmptyCovered(r: Round, ps: Positions, id: nat)
    requires r.poolAbove == r.poolBelow == r.boostedAbove == r.boostedBelow == r.globalBoosted == 0
    requires forall k :: k in ps ==> k.0 != id
    ensures Covered(r, ps, id) && Exact(r, ps, id)
  {
    TotalEmpty(ps, id, StakeOn(Above));
    TotalEmpty(ps, id, StakeOn(Below));
    TotalEmpty(ps, id, BoostOn(Above));
    TotalEmpty(ps, id, BoostOn(Below));
  }

  lemma NewRound(w: World, w': World, id: nat, r: Round)
    requires Shape(w) && id == w.s.counter + 1
    requires r.status == Open && r.poolAbove == r.poolBelow == r.boostedAbove == r.boostedBelow == r.globalBoosted == 0
    requires w'.s == w.s.(counter := id, rounds := w.s.rounds[id := r], lastStrikeTs := w'.s.lastStrikeTs)
    requires w'.feeAtSettle == w.feeAtSettle
    ensures Shape(w') && (Solvent(w) ==> Solvent(w'))
  {
    TouchesStorage(StoreOf(w), StoreOf(w'), id);
    EmptyCovered(r, w.s.positions, id);
    ShapeKept(w, w', id);
    assert HoldAt(w, id) == 0;
    assert HoldAt(w', id) == 0;
    RoundStep(w, w', id);
  }

  lemma StakeCovered(r: Round, r': Round, ps: Positions, id: nat, u: Address, p: Position)
    requires Covered(r, ps, id) && (id, u) !in ps && p.amount <= p.boosted
    requires AddStake(r, p.side, p.amount, p.boosted) == Some(r')
    ensures Covered(r', ps[(id, u) := p], id)
    ensures Exact(r, ps, id) ==> Exact(r', ps[(id, u) := p], id)
  {
    TotalSet(ps, id, u, p, StakeOn(Above));
    TotalSet(ps, id, u, p, StakeOn(Below));
    TotalSet(ps, id, u, p, BoostOn(Above));
    TotalSet(ps, id, u, p, BoostOn(Below));
  }

  lemma NewStake(w: World, w': World, id: nat, r': Round, u: Address, p: Position)
    requires Shape(w) && id in w.s.rounds && w.s.rounds[id].status == Open
    requires (id, u) !in w.s.positions
    requires p.amount <= p.boosted && !p.claimed
    requires AddStake(w.s.rounds[id], p.side, p.amount, p.boosted) == Some(r')
    requires w'.s == w.s.(rounds := w.s.rounds[id := r'], positions := w.s.positions[(id, u) := p], token := w'.s.token)
    requires w'.feeAtSettle == w.feeAtSettle
    requires Valid(w'.s.token) && Bal(w'.s.token, SELF) == Bal(w.s.token, SELF) + p.amount
    ensures Shape(w') && (Solvent(w) ==> Solvent(w'))
  {
    var r := w.s.rounds[id];
    StakeCovered(r, r', w.s.positions, id, u, p);
    ElsewhereSame(w.s.positions, id, u, p);
    TouchesStorage(StoreOf(w), StoreOf(w'), id);
    ShapeKept(w, w', id);
    assert HoldAt(w, id) == r.poolAbove + r.poolBelow;
    assert HoldAt(w', id) == r.poolAbove + r.poolBelow + p.amount;
    RoundStep(w, w', id);
  }

  // A round just settled draws, fee included, no more than its stakes, even at
  // the least fee it can afford.
  lemma SettledHold(r: Round, ps: Positions, id: nat, fee: nat)
    requires Covered(r, ps, id) && fee <= MAX_FEE_BPS && r.status == Settled
    requires r.outcome != Void ==> Decided(r)
    ensures (if r.outcome == Void then 0 else Fee(LosingPool(r), fee)) + Hold(r, ps, id, fee)
            <= r.poolAbove + r.poolBelow
  {
    var least := LeastFee(r, fee);
    LeastFeeIsLeast(r, fee, fee);
    forall k | k in ps ensures OwedAt(r, least)(ps[k]) <= PaidBy(r, least)(ps[k]) {
      PayoutNonNeg(r, least, ps[k]);
    }
    TotalMono(ps, id, OwedAt(r, least), PaidBy(r, least));
    if r.outcome == Void {
      TotalAdd(ps, id, StakeOn(Above), StakeOn(Below), PaidBy(r, least));
    } else {
      DrawsAtMostWorst(r, least, ps, id);
    }
  }

  lemma Settling(w: World, w': World, id: nat, price: Option<PriceData>, r': Round, fee: int)
    requires Shape(w) && id in w.s.rounds && w.s.rounds[id].status == Open
    requires r' == SettledRound(w.s.rounds[id], price)
    requires fee == if r'.outcome == Void then 0 else Fee(LosingPool(r'), w.s.config.feeBps)
    requires w'.s == w.s.(rounds := w.s.rounds[id := r'], fees := w.s.fees + fee)
    requires w'.feeAtSettle == w.feeAtSettle[id := w.s.config.feeBps]
    ensures Shape(w') && (Solvent(w) ==> Solvent(w'))
  {
    var r := w.s.rounds[id];
    FeeWithin(LosingPool(r'), w.s.config.feeBps);
    assert Covered(r', w.s.positions, id);
    TouchesStorage(StoreOf(w), StoreOf(w'), id);
    ShapeKept(w, w', id);
    assert HoldAt(w, id) == r.poolAbove + r.poolBelow;
    assert HoldAt(w', id) == Hold(r', w.s.positions, id, w.s.config.feeBps);
    SettledHold(r', w.s.positions, id, w.s.config.feeBps);
    RoundStep(w, w', id);
  }

  lemma EntrySame(ps: Positions, id: nat, u: Address, p: Position, f: Position -> int)
    requires (id, u) in ps && f(p) == f(ps[(id, u)])
    ensures Total(ps[(id, u) := p], id, f) == Total(ps, id, f)
  {
    TotalSet(ps, id, u, p, f);
  }

  lemma ClaimedCovered(r: Round, ps: Positions, id: nat, u: Address)
    requires (id, u) in ps
    ensures Covered(r, ps[(id, u) := ps[(id, u)].(claimed := true)], id) == Covered(r, ps, id)
    ensures Exact(r, ps[(id, u) := ps[(id, u)].(claimed := true)], id) == Exact(r, ps, id)
  {
    var p := ps[(id, u)].(claimed := true);
    EntrySame(ps, id, u, p, StakeOn(Above));
    EntrySame(ps, id, u, p, StakeOn(Below));
    EntrySame(ps, id, u, p, BoostOn(Above));
    EntrySame(ps, id, u, p, BoostOn(Below));
  }

  // What a claim takes out of its round's hold is at least what it pays.
  lemma ClaimedHold(r: Round, ps: Positions, id: nat, u: Address, settled: nat, current: nat)
    requires r.status == Settled && (r.outcome != Void ==> WellFormed(r))
    requires (id, u) in ps && !ps[(id, u)].claimed && settled <= MAX_FEE_BPS && current <= MAX_FEE_BPS
    requires Suffices(r, settled, current)
    ensures Hold(r, ps[(id, u) := ps[(id, u)].(claimed := true)], id, settled)
            <= Hold(r, ps, id, settled) - Payout(r, current, ps[(id, u)])
  {
    var least := LeastFee(r, settled);
    LeastFeeIsLeast(r, settled, current);
    PayoutFallsWithFee(r, least, current, ps[(id, u)]);
    TotalSet(ps, id, u, ps[(id, u)].(claimed := true), OwedAt(r, least));
  }

  lemma Claiming(w: World, w': World, id: nat, u: Address, p: Position)
    requires Shape(w) && id in w.s.rounds && w.s.rounds[id].status == Settled
    requires (id, u) in w.s.positions && w.s.positions[(id, u)] == p && !p.claimed
    requires w'.s == w.s.(positions := w.s.positions[(id, u) := p.(claimed := true)], token := w'.s.token)
    requires w'.feeAtSettle == w.feeAtSettle
    requires Valid(w'.s.token)
    requires Bal(w'.s.token, SELF) == Bal(w.s.token, SELF) - Payout(w.s.rounds[id], w.s.config.feeBps, p)
    ensures Shape(w')
    ensures Solvent(w) && Suffices(w.s.rounds[id], FeeOf(w, id), w.s.config.feeBps) ==> Solvent(w')
  {
    var r := w.s.rounds[id];
    ClaimedCovered(r, w.s.positions, id, u);
    ElsewhereSame(w.s.positions, id, u, p.(claimed := true));
    TouchesStorage(StoreOf(w), StoreOf(w'), id);
    ShapeKept(w, w', id);
    if Suffices(r, FeeOf(w, id), w.s.config.feeBps) {
      ClaimedHold(r, w.s.positions, id, u, FeeOf(w, id), w.s.config.feeBps);
      RoundStep(w, w', id);
    }
  }

  lemma RoundExpiry(w: World, w': World, id: nat)
    requires Shape(w)
    requires w'.s == w.s.(rounds := w.s.rounds - {id}) && w'.feeAtSettle == w.feeAtSettle
    ensures Shape(w') && (Solvent(w) ==> Solvent(w'))
  {
    TouchesStorage(StoreOf(w), StoreOf(w'), id);
    ShapeKept(w, w', id);
    if id in w.s.rounds {
      OwedNonNeg(w.s.rounds[id], w.s.positions, id, FeeOf(w, id));
    }
    assert HoldAt(w', id) == 0 <= HoldAt(w, id);
    RoundStep(w, w', id);
  }

  lemma DroppedCovered(r: Round, ps: Positions, id: nat, u: Address)
    requires Covered(r, ps, id)
    ensures Covered(r, ps - {(id, u)}, id)
  {
    TotalDropLess(ps, id, u, StakeOn(Above));
    TotalDropLess(ps, id, u, StakeOn(Below));
    TotalDropLess(ps, id, u, BoostOn(Above));
    TotalDropLess(ps, id, u, BoostOn(Below));
  }

  lemma DroppedHold(r: Round, ps: Positions, id: nat, u: Address, fee: nat)
    requires fee <= MAX_FEE_BPS
    ensures Hold(r, ps - {(id, u)}, id, fee) <= Hold(r, ps, id, fee)
  {
    OwedAllNonNeg(r, ps, LeastFee(r, fee));
    TotalDropLess(ps, id, u, OwedAt(r, LeastFee(r, fee)));
  }

  lemma PositionExpiry(w: World, w': World, id: nat, u: Address, p: Position)
    requires Shape(w)
    requires w'.s == w.s.(positions := w.s.positions - {(id, u)}) && w'.feeAtSettle == w.feeAtSettle
    ensures Shape(w') && (Solvent(w) ==> Solvent(w'))
  {
    if id in w.s.rounds {
      DroppedCovered(w.s.rounds[id], w.s.positions, id, u);
      DroppedHold(w.s.rounds[id], w.s.positions, id, u, FeeOf(w, id));
    }
    ElsewhereSame(w.s.positions, id, u, p);
    TouchesStorage(StoreOf(w), StoreOf(w'), id);
    ShapeKept(w, w', id);
    assert HoldAt(w', id) <= HoldAt(w, id);
    RoundStep(w, w', id);
  }

  // Steps that leave rounds and positions alone.
  lemma BooksUntouched(w: World, w': World)
    requires Shape(w)
    requires w'.s.rounds == w.s.rounds && w'.s.positions == w.s.positions && w'.feeAtSettle == w.feeAtSettle
    requires w'.s.counter == w.s.counter
    requires w'.s.config.feeBps <= MAX_FEE_BPS && 0 <= w'.s.fees && Valid(w'.s.token)
    requires Bal(w.s.token, SELF) + (w'.s.fees - w.s.fees) <= Bal(w'.s.token, SELF)
    ensures Shape(w') && (Solvent(w) ==> Solvent(w'))
  {
    TouchesStorage(StoreOf(w), StoreOf(w'), 0);
    ShapeKept(w, w', 0);
    assert HoldAt(w', 0) == HoldAt(w, 0);
    RoundStep(w, w', 0);
  }

  // ----- Every run ---------------------------------------------------------------------

  // What the successful calls leave behind.
  lemma BetEffect(feed: Feed<Symbol>, w: World, user: Address, id: nat, side: Side, amount: int)
    requires PlaceBet(w.s, user, id, side, amount).Success?
    ensures var w' := Next(feed, w, DoBet(user, id, side, amount));
            && id in w.s.rounds && w.s.rounds[id].status == Open && (id, user) !in w.s.positions
            && id in w'.s.rounds && (id, user) in w'.s.positions
            && (var p := w'.s.positions[(id, user)];
                && p.side == side && p.amount == amount && p.amount <= p.boosted && !p.claimed
                && AddStake(w.s.rounds[id], p.side, p.amount, p.boosted) == Some(w'.s.rounds[id])
                && w'.s == w.s.(rounds := w.s.rounds[id := w'.s.rounds[id]],
                                positions := w.s.positions[(id, user) := p], token := w'.s.token))
            && w'.feeAtSettle == w.feeAtSettle
            && Bal(w'.s.token, SELF) == Bal(w.s.token, SELF) + amount
            && (Valid(w.s.token) ==> Valid(w'.s.token))
  {}

  lemma SettleEffect(feed: Feed<Symbol>, w: World, id: nat)
    requires Settle(feed, w.s, id).Success?
    ensures var w' := Next(feed, w, DoSettle(id));
            && id in w.s.rounds && w.s.rounds[id].status == Open && w.s.rounds[id].settleTs <= w.s.now
            && (var r' := SettledRound(w.s.rounds[id], feed(w.s.config.asset, w.s.rounds[id].settleTs));
                var fee := if r'.outcome == Void then 0 else Fee(LosingPool(r'), w.s.config.feeBps);
                w'.s == w.s.(rounds := w.s.rounds[id := r'], fees := w.s.fees + fee))
            && w'.feeAtSettle == w.feeAtSettle[id := w.s.config.feeBps]
  {}

  lemma ClaimEffect(feed: Feed<Symbol>, w: World, user: Address, id: nat)
    requires Claim(w.s, user, id).Success?
    ensures var w' := Next(feed, w, DoClaim(user, id));
            && id in w.s.rounds && w.s.rounds[id].status == Settled
            && (id, user) in w.s.positions && !w.s.positions[(id, user)].claimed
            && (var p := w.s.positions[(id, user)];
                && w'.s == w.s.(positions := w.s.positions[(id, user) := p.(claimed := true)], token := w'.s.token)
                && (0 <= Payout(w.s.rounds[id], w.s.config.feeBps, p) ==>
                      Bal(w'.s.token, SELF) == Bal(w.s.token, SELF) - Payout(w.s.rounds[id], w.s.config.feeBps, p)))
            && w'.feeAtSettle == w.feeAtSettle
            && (Valid(w.s.token) ==> Valid(w'.s.token))
  {}

  lemma PlainEffect(feed: Feed<Symbol>, w: World, a: Action)
    requires a.DoSweep? || a.DoSetFee? || a.DoSetLockOffset? || a.DoSetInterval? || a.Tick? || a.Pay?
    ensures var w' := Next(feed, w, a);
            && w'.s.rounds == w.s.rounds && w'.s.positions == w.s.positions && w'.feeAtSettle == w.feeAtSettle
            && w'.s.counter == w.s.counter
            && (w.s.config.feeBps <= MAX_FEE_BPS ==> w'.s.config.feeBps <= MAX_FEE_BPS)
            && (Valid(w.s.token) ==> Valid(w'.s.token))
            && (0 <= w.s.fees ==> 0 <= w'.s.fees)
            && Bal(w.s.token, SELF) + (w'.s.fees - w.s.fees) <= Bal(w'.s.token, SELF)
  {}

  // Whatever the fee, a step keeps the shape of the books; at a fee its round
  // can afford, it keeps the market solvent.
  lemma StepKeeps(feed: Feed<Symbol>, w: World, a: Action)
    requires Shape(w)
    ensures Shape(Next(feed, w, a))
    ensures Solvent(w) && FeeSuffices(w, a) ==> Solvent(Next(feed, w, a))
  {
    var w' := Next(feed, w, a);
    if a.DoCreate? {
      if Step(feed, w.s, a).Success? {
        NewRound(w, w', w'.s.counter, w'.s.rounds[w'.s.counter]);
      }
    } else if Step(feed, w.s, a).Success? {
      match a
      case DoBet(user, id, side, amount) =>
        BetEffect(feed, w, user, id, side, amount);
        NewStake(w, w', id, w'.s.rounds[id], user, w'.s.positions[(id, user)]);
      case DoSettle(id) =>
        SettleEffect(feed, w, id);
        Settling(w, w', id, feed(w.s.config.asset, w.s.rounds[id].settleTs), w'.s.rounds[id], w'.s.fees - w.s.fees);
      case DoClaim(user, id) =>
        ClaimEffect(feed, w, user, id);
        PayoutNonNeg(w.s.rounds[id], w.s.config.feeBps, w.s.positions[(id, user)]);
        Claiming(w, w', id, user, w.s.positions[(id, user)]);
      case ExpireRound(id) => RoundExpiry(w, w', id);
      case ExpirePosition(id, user) => PositionExpiry(w, w', id, user, Position(Above, 0, 0, false));
      case _ =>
        PlainEffect(feed, w, a);
        BooksUntouched(w, w');
    }
  }

  lemma FreshIsSolvent(config: Config, token: Balances, now: nat)
    requires Initialize(config, token, now).Success? && Valid(token)
    ensures Inv(World(Initialize(config, token, now).value, map[]))
  {
    assert Holds(World(Initialize(config, token, now).value, map[])) == map[];
  }

  // In every run at all, expiry and changing fees included, pools and boosts
  // are at least the sums over the live positions, and every decided round has
  // stakes on both sides.
  lemma {:induction false} AlwaysShaped(feed: Feed<Symbol>, w: World, actions: seq<Action>)
    requires Shape(w)
    ensures Shape(Run(feed, w, actions))
    decreases |actions|
  {
    if actions == [] {
    } else {
      StepKeeps(feed, w, actions[0]);
      AlwaysShaped(feed, Next(feed, w, actions[0]), actions[1..]);
    }
  }

  // Solvency: whatever the market's users, its keepers and the ledger do, and
  // in whatever order, the balance covers the fees and all that can be drawn,
  // as long as each claim is made at a fee its round can afford.
  lemma {:induction false} AlwaysSolvent(feed: Feed<Symbol>, w: World, actions: seq<Action>)
    requires Inv(w) && FeeSufficesAlong(feed, w, actions)
    ensures Inv(Run(feed, w, actions))
    decreases |actions|
  {
    if actions == [] {
    } else {
      StepKeeps(feed, w, actions[0]);
      AlwaysSolvent(feed, Next(feed, w, actions[0]), actions[1..]);
    }
  }

  // Fees and any one round's draw are covered together.
  lemma FundsFor(w: World, id: nat)
    requires Inv(w)
    ensures w.s.fees + HoldAt(w, id) <= Bal(w.s.token, SELF) && 0 <= HoldAt(w, id)
  {
    forall j | j in w.s.rounds ensures 0 <= Holds(w)[j] {
      OwedNonNeg(w.s.rounds[j], w.s.positions, j, FeeOf(w, j));
    }
    SumAtLeast(Holds(w), id);
    assert HoldAt(w, id) == At(Holds(w), id);
  }

  lemma ClaimShort(s: State, user: Address, id: nat)
    requires Claim(s, user, id) == Failure(TokenFailed(InsufficientBalance))
    ensures id in s.rounds && s.rounds[id].status == Settled
    ensures (id, user) in s.positions && !s.positions[(id, user)].claimed
    ensures Bal(s.token, SELF) < Payout(s.rounds[id], s.config.feeBps, s.positions[(id, user)])
  {}

  lemma PayoutFunded(w: World, user: Address, id: nat)
    requires Inv(w) && FeeSuffices(w, DoClaim(user, id))
    requires id in w.s.rounds && w.s.rounds[id].status == Settled
    requires (id, user) in w.s.positions && !w.s.positions[(id, user)].claimed
    ensures 0 <= Payout(w.s.rounds[id], w.s.config.feeBps, w.s.positions[(id, user)]) <= Bal(w.s.token, SELF)
  {
    var r, fee := w.s.rounds[id], FeeOf(w, id);
    assert RoundInv(w, id);
    FundsFor(w, id);
    LeastFeeIsLeast(r, fee, w.s.config.feeBps);
    PayoutWithinOwed(r, w.s.positions, id, user, LeastFee(r, fee), w.s.config.feeBps);
    PayoutNonNeg(r, w.s.config.feeBps, w.s.positions[(id, user)]);
  }

  // So no claim ever finds the balance short,
  lemma ClaimNeverShort(w: World, user: Address, id: nat)
    requires Inv(w) && FeeSuffices(w, DoClaim(user, id))
    ensures Claim(w.s, user, id) != Failure(TokenFailed(InsufficientBalance))
  {
    if Claim(w.s, user, id) == Failure(TokenFailed(InsufficientBalance)) {
      ClaimShort(w.s, user, id);
      PayoutFunded(w, user, id);
    }
  }

  // nor any sweep.
  lemma SweepNeverShort(w: World)
    requires Inv(w)
    ensures SweepFees(w.s) != Failure(TokenFailed(InsufficientBalance))
  {
    FundsFor(w, 0);
  }

  lemma PayoutWithinOwed(r: Round, ps: Positions, id: nat, user: Address, least: nat, current: nat)
    requires least <= current <= MAX_FEE_BPS
    requires (id, user) in ps && !ps[(id, user)].claimed
    ensures Payout(r, current, ps[(id, user)]) <= Total(ps, id, OwedAt(r, least))
  {
    PayoutFallsWithFee(r, least, current, ps[(id, user)]);
    OwedAllNonNeg(r, ps, least);
    TotalAtLeast(ps, id, user, OwedAt(r, least));
  }

  lemma OwedAllNonNeg(r: Round, ps: Positions, fee: nat)
    requires fee <= MAX_FEE_BPS
    ensures forall k :: k in ps ==> 0 <= OwedAt(r, fee)(ps[k])
  {
    forall k | k in ps ensures 0 <= OwedAt(r, fee)(ps[k]) {
      PayoutNonNeg(r, fee, ps[k]);
    }
  }

  // ----- As the contract's calls use it ------------------------------------------------

  lemma StepKept(feed: Feed<Symbol>, w: World, a: Action)
    ensures Inv(w) && FeeSuffices(w, a) ==>
              && Inv(Next(feed, w, a))
              && (a.DoClaim? ==> Claim(w.s, a.user, a.id) != Failure(TokenFailed(InsufficientBalance)))
              && (a.DoSweep? ==> SweepFees(w.s) != Failure(TokenFailed(InsufficientBalance)))
  {
    if Inv(w) && FeeSuffices(w, a) {
      StepKeeps(feed, w, a);
      if a.DoClaim? {
        ClaimNeverShort(w, a.user, a.id);
      } else if a.DoSweep? {
        SweepNeverShort(w);
      }
    }
  }
}

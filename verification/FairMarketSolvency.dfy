// Solvency of the fair market over every run, with any round or position
// expiring at any time.

module FairMarketSolvency {
  import opened Wrappers
  import opened Checked
  import opened Fees
  import opened Frames
  import opened Sums
  import opened Token
  import opened Oracle
  import opened FairMarket
  import opened FairMarketClaims

  function StakeOn(side: Side): Position -> int {
    (p: Position) => if p.side == side then p.amount else 0
  }

  function PaidBy(r: Round, feeBps: nat): Position -> int {
    (p: Position) => Payout(r, feeBps, p)
  }

  // What a position may still be paid, at the fee its round was settled with.
  function OwedAt(r: Round, fee: nat): Position -> int {
    (p: Position) => if p.claimed then 0 else Payout(r, fee, p)
  }

  function FeeOf(w: World, id: nat): nat {
    if id in w.feeAtSettle then w.feeAtSettle[id] else 0
  }

  // The live positions of a round never outweigh its pools.
  ghost predicate Covered(r: Round, ps: Positions, id: nat) {
    Total(ps, id, StakeOn(Up)) <= r.poolUp && Total(ps, id, StakeOn(Down)) <= r.poolDown
  }

  ghost predicate Decided(r: Round) {
    r.outcome != Void && 0 < r.poolUp && 0 < r.poolDown
  }

  // What a round can still draw from the balance.
  ghost function Hold(r: Round, ps: Positions, id: nat, fee: nat): int {
    if r.status == Open then Pot(r) else Total(ps, id, OwedAt(r, fee))
  }

  ghost function Holds(w: World): (m: map<nat, int>)
    ensures m.Keys == w.s.rounds.Keys
    ensures forall id :: id in m ==> m[id] == Hold(w.s.rounds[id], w.s.positions, id, FeeOf(w, id))
  {
    map id | id in w.s.rounds :: Hold(w.s.rounds[id], w.s.positions, id, FeeOf(w, id))
  }

  function StoreOf(w: World): Store<Round, Address, Position> {
    Store(w.s.counter, w.s.rounds, w.s.positions, w.feeAtSettle)
  }

  ghost predicate RoundInv(w: World, id: nat)
    requires id in w.s.rounds
  {
    var r := w.s.rounds[id];
    && id <= w.s.counter
    && Covered(r, w.s.positions, id)
    && (r.status == Settled ==> id in w.feeAtSettle && (r.outcome != Void ==> Decided(r)))
  }

  ghost predicate Shape(w: World) {
    && w.s.config.feeBps <= MAX_FEE_BPS
    && 0 <= w.s.fees
    && Valid(w.s.token)
    && (forall id :: id in w.feeAtSettle ==> w.feeAtSettle[id] <= MAX_FEE_BPS)
    && (forall id :: id in w.s.rounds ==> RoundInv(w, id))
    && (forall k :: k in w.s.positions ==> k.0 <= w.s.counter)
  }

  // The balance covers the fees and everything every round can still draw.
  ghost predicate Solvent(w: World) {
    w.s.fees + Sum(Holds(w)) <= Bal(w.s.token, SELF)
  }

  ghost predicate Inv(w: World) {
    Shape(w) && Solvent(w)
  }

  // A decided round settled at one fee can afford claims at another exactly
  // when the later fee comes to no less.
  predicate Suffices(r: Round, settled: nat, current: nat) {
    r.status == Settled && r.outcome != Void ==> Fee(Pot(r), settled) <= Fee(Pot(r), current)
  }

  // The condition the code leaves to the admin: a claim is made at a fee that
  // its round can afford.
  predicate FeeSuffices(w: World, a: Action) {
    && (a.DoClaim? ==> RoundAffords(w, a.id))
    && (a.DoClaimMany? ==> forall id :: id in a.ids ==> RoundAffords(w, id))
  }

  predicate RoundAffords(w: World, id: nat) {
    id in w.s.rounds ==> Suffices(w.s.rounds[id], FeeOf(w, id), w.s.config.feeBps)
  }

  predicate FeeSufficesAlong(feed: Feed<Symbol>, w: World, actions: seq<Action>)
    decreases |actions|
  {
    actions == [] || (FeeSuffices(w, actions[0]) && FeeSufficesAlong(feed, Next(feed, w, actions[0]), actions[1..]))
  }

  // ----- One settled round -----------------------------------------------------------

  lemma PartsMono(part: nat, d: int, d': int, whole: int)
    requires 0 <= d <= d' && 0 < whole
    ensures Quot(part * d, whole) <= Quot(part * d', whole)
  {
    MulMono(part, d, d');
    QuotMono(part * d, part * d', whole);
  }

  lemma PayoutFallsWithFee(r: Round, low: nat, high: nat, p: Position)
    requires r.outcome != Void ==> Fee(Pot(r), low) <= Fee(Pot(r), high)
    requires high <= MAX_FEE_BPS
    ensures Payout(r, high, p) <= Payout(r, low, p)
  {
    FeeWithin(Pot(r), high);
    if r.outcome != Void && 0 < WinningPool(r) {
      PartsMono(p.amount, Distributed(r, high), Distributed(r, low), WinningPool(r));
    }
  }

  function Winner(r: Round): Side {
    if r.outcome == UpWon then Up else Down
  }

  lemma PayoutPoint(r: Round, feeBps: nat, p: Position)
    requires Decided(r) && feeBps <= MAX_FEE_BPS
    ensures var part, share := StakeOn(Winner(r))(p), Payout(r, feeBps, p);
            && WinningPool(r) * share <= Distributed(r, feeBps) * part <= WinningPool(r) * share + WinningPool(r) - 1
            && (part == 0 ==> share == 0)
  {
    FeeWithin(Pot(r), feeBps);
    QuotShare(p.amount, Distributed(r, feeBps), WinningPool(r));
    QuotUnique(0, WinningPool(r), 0);
  }

  ghost function Winners(ps: Positions, id: nat, side: Side): (out: set<(nat, Address)>)
    ensures forall k :: k in out <==> k in ps && k.0 == id && ps[k].side == side
  {
    set k | k in ps && k.0 == id && ps[k].side == side
  }

  // The winners of a round share what is distributed: never more than it, and
  // if no entry of the round is missing, less than one unit each short of it.
  lemma WinnersShare(r: Round, feeBps: nat, ps: Positions, id: nat)
    requires Covered(r, ps, id) && Decided(r) && feeBps <= MAX_FEE_BPS
    ensures Total(ps, id, PaidBy(r, feeBps)) <= Distributed(r, feeBps)
    ensures Total(ps, id, StakeOn(Winner(r))) == WinningPool(r) ==>
              Distributed(r, feeBps) <= Total(ps, id, PaidBy(r, feeBps)) + |Winners(ps, id, Winner(r))| - 1
  {
    FeeWithin(Pot(r), feeBps);
    var d, whole, part := Distributed(r, feeBps), WinningPool(r), StakeOn(Winner(r));
    var live := Winners(ps, id, Winner(r));
    forall k | k in ps && k.0 == id
      ensures whole * PaidBy(r, feeBps)(ps[k]) <= d * part(ps[k]) <= whole * PaidBy(r, feeBps)(ps[k]) + whole - 1
      ensures k !in live ==> d * part(ps[k]) <= whole * PaidBy(r, feeBps)(ps[k])
    {
      PayoutPoint(r, feeBps, ps[k]);
    }
    TotalShares(ps, id, part, PaidBy(r, feeBps), d, whole, live);
    SharesOfWhole(d, whole, Total(ps, id, part), Total(ps, id, PaidBy(r, feeBps)), |live|);
    if |live| == 0 {
      SumZero(Weights(ps, id, part));
    }
  }

  lemma OwedAllNonNeg(r: Round, ps: Positions, fee: nat)
    requires fee <= MAX_FEE_BPS
    ensures forall k :: k in ps ==> 0 <= OwedAt(r, fee)(ps[k])
  {
    forall k | k in ps ensures 0 <= OwedAt(r, fee)(ps[k]) {
      PayoutNonNeg(r, fee, ps[k]);
    }
  }

  // A round just settled draws, fee included, no more than its pot.
  lemma SettledHold(r: Round, ps: Positions, id: nat, fee: nat)
    requires Covered(r, ps, id) && fee <= MAX_FEE_BPS && (r.outcome != Void ==> Decided(r))
    ensures (if r.outcome == Void then 0 else Fee(Pot(r), fee)) + Total(ps, id, OwedAt(r, fee)) <= Pot(r)
  {
    forall k | k in ps ensures OwedAt(r, fee)(ps[k]) <= PaidBy(r, fee)(ps[k]) {
      PayoutNonNeg(r, fee, ps[k]);
    }
    TotalMono(ps, id, OwedAt(r, fee), PaidBy(r, fee));
    if r.outcome == Void {
      TotalAdd(ps, id, StakeOn(Up), StakeOn(Down), PaidBy(r, fee));
    } else {
      WinnersShare(r, fee, ps, id);
    }
  }

  // ----- Frames ----------------------------------------------------------------------

  lemma RoundFrame(r: Round, ps: Positions, ps': Positions, id: nat, fee: nat)
    requires SameEntries(ps, ps', id)
    ensures Covered(r, ps', id) == Covered(r, ps, id)
    ensures Hold(r, ps', id, fee) == Hold(r, ps, id, fee)
  {
    TotalFrame(ps, ps', id, StakeOn(Up));
    TotalFrame(ps, ps', id, StakeOn(Down));
    TotalFrame(ps, ps', id, OwedAt(r, fee));
  }

  lemma OtherKept(w: World, w': World, id: nat, j: nat)
    requires Shape(w) && Touches(StoreOf(w), StoreOf(w'), id) && j != id && j in w'.s.rounds
    ensures j in w.s.rounds && RoundInv(w', j) && Holds(w')[j] == Holds(w)[j]
  {
    OtherRound(StoreOf(w), StoreOf(w'), id, j);
    RoundFrame(w.s.rounds[j], w.s.positions, w'.s.positions, j, FeeOf(w, j));
  }

  lemma ShapeKept(w: World, w': World, id: nat)
    requires Shape(w) && Touches(StoreOf(w), StoreOf(w'), id)
    requires id in w'.s.rounds ==> RoundInv(w', id)
    requires id in w'.feeAtSettle ==> w'.feeAtSettle[id] <= MAX_FEE_BPS
    requires w'.s.config.feeBps <= MAX_FEE_BPS && 0 <= w'.s.fees && Valid(w'.s.token)
    requires forall k :: k in w'.s.positions ==> k.0 <= w'.s.counter
    ensures Shape(w')
  {
    forall j | j in w'.s.rounds ensures RoundInv(w', j) {
      if j != id {
        OtherKept(w, w', id, j);
      }
    }
    forall j | j in w'.feeAtSettle ensures w'.feeAtSettle[j] <= MAX_FEE_BPS {
      assert j != id ==> j in w'.feeAtSettle - {id};
    }
  }

  ghost function HoldAt(w: World, id: nat): int {
    if id in w.s.rounds then Hold(w.s.rounds[id], w.s.positions, id, FeeOf(w, id)) else 0
  }

  lemma RoundStep(w: World, w': World, id: nat)
    requires Shape(w) && Touches(StoreOf(w), StoreOf(w'), id)
    requires Bal(w.s.token, SELF) + (w'.s.fees - w.s.fees) + (HoldAt(w', id) - HoldAt(w, id)) <= Bal(w'.s.token, SELF)
    ensures Solvent(w) ==> Solvent(w')
  {
    var h, h' := Holds(w), Holds(w');
    forall j | j in h' && j != id && j in h ensures h'[j] == h[j] {
      OtherKept(w, w', id, j);
    }
    HoldsChange(StoreOf(w), StoreOf(w'), id, h, h');
    assert At(h, id) == HoldAt(w, id) && At(h', id) == HoldAt(w', id);
  }

  // ----- One step at a time ------------------------------------------------------------

  lemma NewRound(w: World, w': World, id: nat, r: Round)
    requires Shape(w) && id == w.s.counter + 1
    requires r.status == Open && r.poolUp == r.poolDown == 0
    requires w'.s == w.s.(counter := id, rounds := w.s.rounds[id := r], strikeTs := w'.s.strikeTs)
    requires w'.feeAtSettle == w.feeAtSettle
    ensures Shape(w') && (Solvent(w) ==> Solvent(w'))
  {
    TouchesStorage(StoreOf(w), StoreOf(w'), id);
    TotalEmpty(w.s.positions, id, StakeOn(Up));
    TotalEmpty(w.s.positions, id, StakeOn(Down));
    ShapeKept(w, w', id);
    assert HoldAt(w, id) == 0;
    assert HoldAt(w', id) == 0;
    RoundStep(w, w', id);
  }

  lemma StakeCovered(r: Round, r': Round, ps: Positions, id: nat, u: Address, p: Position)
    requires Covered(r, ps, id) && (id, u) !in ps
    requires AddStake(r, p.side, p.amount) == Some(r')
    ensures Covered(r', ps[(id, u) := p], id)
  {
    TotalSet(ps, id, u, p, StakeOn(Up));
    TotalSet(ps, id, u, p, StakeOn(Down));
  }

  // A stake on an open round; the user may have held an entry that expired.
  lemma NewStake(w: World, w': World, id: nat, r': Round, u: Address, p: Position)
    requires Shape(w) && id in w.s.rounds && w.s.rounds[id].status == Open
    requires (id, u) !in w.s.positions
    requires AddStake(w.s.rounds[id], p.side, p.amount) == Some(r')
    requires w'.s == w.s.(rounds := w.s.rounds[id := r'], positions := w.s.positions[(id, u) := p], token := w'.s.token)
    requires w'.feeAtSettle == w.feeAtSettle
    requires Valid(w'.s.token) && Bal(w'.s.token, SELF) == Bal(w.s.token, SELF) + p.amount
    ensures Shape(w') && (Solvent(w) ==> Solvent(w'))
  {
    var r := w.s.rounds[id];
    StakeCovered(r, r', w.s.positions, id, u, p);
    ElsewhereSame(w.s.positions, id, u, p);
    TouchesStorage(StoreOf(w), StoreOf(w'), id);
    ShapeKept(w, w', id);
    assert HoldAt(w, id) == Pot(r);
    assert HoldAt(w', id) == Pot(r) + p.amount;
    RoundStep(w, w', id);
  }

  lemma Settling(w: World, w': World, id: nat, price: Option<PriceData>, r': Round, fee: int)
    requires Shape(w) && id in w.s.rounds && w.s.rounds[id].status == Open
    requires r' == SettledRound(w.s.rounds[id], price)
    requires fee == if r'.outcome == Void then 0 else Fee(Pot(r'), w.s.config.feeBps)
    requires w'.s == w.s.(rounds := w.s.rounds[id := r'], fees := w.s.fees + fee)
    requires w'.feeAtSettle == w.feeAtSettle[id := w.s.config.feeBps]
    ensures Shape(w') && (Solvent(w) ==> Solvent(w'))
  {
    var r := w.s.rounds[id];
    FeeWithin(Pot(r'), w.s.config.feeBps);
    assert Covered(r', w.s.positions, id);
    TouchesStorage(StoreOf(w), StoreOf(w'), id);
    ShapeKept(w, w', id);
    assert HoldAt(w, id) == Pot(r);
    assert HoldAt(w', id) == Total(w.s.positions, id, OwedAt(r', w.s.config.feeBps));
    SettledHold(r', w.s.positions, id, w.s.config.feeBps);
    RoundStep(w, w', id);
  }

  lemma ClaimedCovered(r: Round, ps: Positions, id: nat, u: Address)
    requires (id, u) in ps
    ensures Covered(r, ps[(id, u) := ps[(id, u)].(claimed := true)], id) == Covered(r, ps, id)
  {
    TotalSet(ps, id, u, ps[(id, u)].(claimed := true), StakeOn(Up));
    TotalSet(ps, id, u, ps[(id, u)].(claimed := true), StakeOn(Down));
  }

  // What a claim takes out of its round's hold is at least what it pays.
  lemma ClaimedHold(r: Round, ps: Positions, id: nat, u: Address, settled: nat, current: nat)
    requires r.status == Settled && (id, u) in ps && !ps[(id, u)].claimed && current <= MAX_FEE_BPS
    requires Suffices(r, settled, current)
    ensures Hold(r, ps[(id, u) := ps[(id, u)].(claimed := true)], id, settled)
            <= Hold(r, ps, id, settled) - Payout(r, current, ps[(id, u)])
  {
    PayoutFallsWithFee(r, settled, current, ps[(id, u)]);
    TotalSet(ps, id, u, ps[(id, u)].(claimed := true), OwedAt(r, settled));
  }

  lemma ClaimTouches(w: World, w': World, id: nat, u: Address)
    requires Shape(w) && id in w.s.rounds && (id, u) in w.s.positions
    requires w'.s == w.s.(positions := w.s.positions[(id, u) := w.s.positions[(id, u)].(claimed := true)],
                          token := w'.s.token)
    requires w'.feeAtSettle == w.feeAtSettle && Valid(w'.s.token)
    ensures Touches(StoreOf(w), StoreOf(w'), id) && Shape(w')
  {
    ClaimedCovered(w.s.rounds[id], w.s.positions, id, u);
    ElsewhereSame(w.s.positions, id, u, w.s.positions[(id, u)].(claimed := true));
    TouchesStorage(StoreOf(w), StoreOf(w'), id);
    ShapeKept(w, w', id);
  }

  lemma Claiming(w: World, w': World, id: nat, u: Address, p: Position)
    requires Shape(w) && id in w.s.rounds && w.s.rounds[id].status == Settled
    requires (id, u) in w.s.positions && w.s.positions[(id, u)] == p && !p.claimed
    requires w'.s == w.s.(positions := w.s.positions[(id, u) := p.(claimed := true)], token := w'.s.token)
    requires w'.feeAtSettle == w.feeAtSettle
    requires Valid(w'.s.token)
    requires Bal(w'.s.token, SELF) == Bal(w.s.token, SELF) - Payout(w.s.rounds[id], w.s.config.feeBps, p)
    ensures Shape(w') && (Solvent(w) && RoundAffords(w, id) ==> Solvent(w'))
  {
    ClaimTouches(w, w', id, u);
    if RoundAffords(w, id) {
      ClaimedHold(w.s.rounds[id], w.s.positions, id, u, FeeOf(w, id), w.s.config.feeBps);
      RoundStep(w, w', id);
    }
  }

  lemma RoundExpiry(w: World, w': World, id: nat)
    requires Shape(w)
    requires w'.s == w.s.(rounds := w.s.rounds - {id}) && w'.feeAtSettle == w.feeAtSettle
    ensures Shape(w') && (Solvent(w) ==> Solvent(w'))
  {
    TouchesStorage(StoreOf(w), StoreOf(w'), id);
    ShapeKept(w, w', id);
    if id in w.s.rounds {
      OwedAllNonNeg(w.s.rounds[id], w.s.positions, FeeOf(w, id));
      TotalNonNeg(w.s.positions, id, OwedAt(w.s.rounds[id], FeeOf(w, id)));
    }
    assert HoldAt(w', id) == 0 <= HoldAt(w, id);
    RoundStep(w, w', id);
  }

  lemma Dropped(r: Round, ps: Positions, id: nat, u: Address, fee: nat)
    requires fee <= MAX_FEE_BPS
    ensures Covered(r, ps, id) ==> Covered(r, ps - {(id, u)}, id)
    ensures Hold(r, ps - {(id, u)}, id, fee) <= Hold(r, ps, id, fee)
  {
    TotalDropLess(ps, id, u, StakeOn(Up));
    TotalDropLess(ps, id, u, StakeOn(Down));
    OwedAllNonNeg(r, ps, fee);
    TotalDropLess(ps, id, u, OwedAt(r, fee));
  }

  lemma PositionExpiry(w: World, w': World, id: nat, u: Address, p: Position)
    requires Shape(w)
    requires w'.s == w.s.(positions := w.s.positions - {(id, u)}) && w'.feeAtSettle == w.feeAtSettle
    ensures Shape(w') && (Solvent(w) ==> Solvent(w'))
  {
    if id in w.s.rounds {
      Dropped(w.s.rounds[id], w.s.positions, id, u, FeeOf(w, id));
    }
    ElsewhereSame(w.s.positions, id, u, p);
    TouchesStorage(StoreOf(w), StoreOf(w'), id);
    ShapeKept(w, w', id);
    assert HoldAt(w', id) <= HoldAt(w, id);
    RoundStep(w, w', id);
  }

  lemma BooksUntouched(w: World, w': World)
    requires Shape(w)
    requires w'.s.rounds == w.s.rounds && w'.s.positions == w.s.positions && w'.feeAtSettle == w.feeAtSettle
    requires w'.s.counter == w.s.counter
    requires w'.s.config.feeBps <= MAX_FEE_BPS && 0 <= w'.s.fees && Valid(w'.s.token)
    requires Bal(w.s.token, SELF) + (w'.s.fees - w.s.fees) <= Bal(w'.s.token, SELF)
    ensures Shape(w') && (Solvent(w) ==> Solvent(w'))
  {
    TouchesStorage(StoreOf(w), StoreOf(w'), 0);
    ShapeKept(w, w', 0);
    assert HoldAt(w', 0) == HoldAt(w, 0);
    RoundStep(w, w', 0);
  }

  // ----- What the calls leave behind ---------------------------------------------------

  lemma CreateEffect(feed: Feed<Symbol>, w: World, asset: Symbol, tick: Option<PriceData>)
    requires CreateRound(w.s, asset, tick).Success?
    ensures var w' := Next(feed, w, DoCreate(asset, tick));
            var id := w.s.counter + 1;
            var t := Ticket(asset, tick.value.price, tick.value.timestamp, tick.value.timestamp + ORACLE_INTERVAL,
                            tick.value.timestamp + w.s.config.lockOffset);
            && w'.s == w.s.(counter := id, rounds := w.s.rounds[id := Round(t, 0, 0, Open, Void, 0)],
                            strikeTs := w.s.strikeTs[asset := t.strikeTs])
            && w'.feeAtSettle == w.feeAtSettle && w'.wagers == w.wagers
            && t.lockTs <= U64_MAX && t.strikeTs != LastStrike(w.s, asset)
  {}

  lemma BetEffect(feed: Feed<Symbol>, w: World, user: Address, id: nat, side: Side, amount: int)
    requires PlaceBet(w.s, user, id, side, amount).Success?
    ensures 0 <= amount
    ensures var w' := Next(feed, w, DoBet(user, id, side, amount));
            var p := Position(side, amount, false);
            && id in w.s.rounds && w.s.rounds[id].status == Open && (id, user) !in w.s.positions
            && w.s.now < w.s.rounds[id].ticket.lockTs
            && id in w'.s.rounds
            && AddStake(w.s.rounds[id], side, amount) == Some(w'.s.rounds[id])
            && w'.s == w.s.(rounds := w.s.rounds[id := w'.s.rounds[id]], positions := w.s.positions[(id, user) := p],
                            token := w'.s.token)
            && w'.feeAtSettle == w.feeAtSettle
            && w'.wagers == w.wagers[id := WagersOf(w, id) + [Wager(user, side, amount, w.s.now)]]
            && Bal(w'.s.token, SELF) == Bal(w.s.token, SELF) + amount
            && (Valid(w.s.token) ==> Valid(w'.s.token))
  {}

  lemma SettleEffect(feed: Feed<Symbol>, w: World, id: nat)
    requires Settle(feed, w.s, id).Success?
    ensures var w' := Next(feed, w, DoSettle(id));
            && id in w.s.rounds && w.s.rounds[id].status == Open && w.s.rounds[id].ticket.settleTs <= w.s.now
            && (var r' := SettledRound(w.s.rounds[id],
                                       feed(w.s.rounds[id].ticket.asset, w.s.rounds[id].ticket.settleTs));
                var fee := if r'.outcome == Void then 0 else Fee(Pot(r'), w.s.config.feeBps);
                w'.s == w.s.(rounds := w.s.rounds[id := r'], fees := w.s.fees + fee))
            && w'.feeAtSettle == w.feeAtSettle[id := w.s.config.feeBps] && w'.wagers == w.wagers
  {}

  predicate Claimable(s: State, user: Address, id: nat) {
    id in s.rounds && s.rounds[id].status == Settled && (id, user) in s.positions && !s.positions[(id, user)].claimed
  }

  // A claim pays the position and marks it; with nothing to claim it changes
  // nothing at all.
  lemma ClaimEffect(s: State, user: Address, id: nat)
    requires Claim(s, user, id).Success?
    ensures var s' := Claim(s, user, id).value.s;
            && s'.config == s.config && (Valid(s.token) ==> Valid(s'.token))
            && (!Claimable(s, user, id) ==> s' == s)
            && (Claimable(s, user, id) ==>
                  var p := s.positions[(id, user)];
                  var pay := Payout(s.rounds[id], s.config.feeBps, p);
                  && s' == s.(positions := s.positions[(id, user) := p.(claimed := true)], token := s'.token)
                  && (0 <= pay ==> Bal(s'.token, SELF) == Bal(s.token, SELF) - pay))
  {
    if !Claimable(s, user, id) {
      assert Mark(s.rounds, s.positions, user, id) == s.positions;
    }
  }

  lemma SweepEffect(s: State)
    requires SweepFees(s).Success?
    ensures var s' := SweepFees(s).value;
            && s' == s.(fees := s'.fees, token := s'.token)
            && (Valid(s.token) ==> Valid(s'.token)) && (0 <= s.fees ==> 0 <= s'.fees)
            && Bal(s.token, SELF) + (s'.fees - s.fees) <= Bal(s'.token, SELF)
  {}

  lemma PlainEffect(feed: Feed<Symbol>, w: World, a: Action)
    requires a.DoSweep? || a.DoSetFee? || a.DoSetLockOffset? || a.Tick? || a.Pay?
    ensures var w' := Next(feed, w, a);
            && w'.s.rounds == w.s.rounds && w'.s.positions == w.s.positions && w'.feeAtSettle == w.feeAtSettle
            && w'.wagers == w.wagers && w'.s.counter == w.s.counter && w.s.now <= w'.s.now
            && w'.s.strikeTs == w.s.strikeTs
            && (w.s.config.feeBps <= MAX_FEE_BPS ==> w'.s.config.feeBps <= MAX_FEE_BPS)
            && (Valid(w.s.token) ==> Valid(w'.s.token))
            && (0 <= w.s.fees ==> 0 <= w'.s.fees)
            && Bal(w.s.token, SELF) + (w'.s.fees - w.s.fees) <= Bal(w'.s.token, SELF)
  {
    if a.DoSweep? && SweepFees(w.s).Success? {
      SweepEffect(w.s);
      assert Next(feed, w, a) == w.(s := SweepFees(w.s).value);
    }
  }

  // ----- Every run ---------------------------------------------------------------------

  lemma ClaimKeeps(w: World, user: Address, id: nat)
    requires Shape(w) && Claim(w.s, user, id).Success?
    ensures var w' := w.(s := Claim(w.s, user, id).value.s);
            && Shape(w') && w'.s.rounds == w.s.rounds && w'.s.config == w.s.config
            && (Solvent(w) && RoundAffords(w, id) ==> Solvent(w'))
  {
    ClaimEffect(w.s, user, id);
    var w' := w.(s := Claim(w.s, user, id).value.s);
    if Claimable(w.s, user, id) {
      PayoutNonNeg(w.s.rounds[id], w.s.config.feeBps, w.s.positions[(id, user)]);
      Claiming(w, w', id, user, w.s.positions[(id, user)]);
    } else {
      assert w' == w;
    }
  }

  lemma {:induction false} EachClaimKeeps(w: World, user: Address, ids: seq<nat>)
    requires Shape(w) && ClaimEach(w.s, user, ids).Success?
    ensures var w' := w.(s := ClaimEach(w.s, user, ids).value.s);
            && Shape(w') && w'.s.rounds == w.s.rounds && w'.s.config == w.s.config
            && (Solvent(w) && (forall id :: id in ids ==> RoundAffords(w, id)) ==> Solvent(w'))
  {
    if ids == [] {
      assert w.(s := ClaimEach(w.s, user, ids).value.s) == w;
    } else {
      var front, id := ids[..|ids| - 1], ids[|ids| - 1];
      EachClaimKeeps(w, user, front);
      var w1 := w.(s := ClaimEach(w.s, user, front).value.s);
      assert RoundAffords(w1, id) == RoundAffords(w, id);
      ClaimKeeps(w1, user, id);
    }
  }

  lemma ManyKeeps(w: World, user: Address, ids: seq<nat>)
    requires Shape(w) && ClaimMany(w.s, user, ids).Success?
    ensures var w' := w.(s := ClaimMany(w.s, user, ids).value.s);
            Shape(w') && (Solvent(w) && (forall id :: id in ids ==> RoundAffords(w, id)) ==> Solvent(w'))
  {
    ClaimManyIsClaims(w.s, user, ids);
    EachClaimKeeps(w, user, ids);
  }

  lemma NextClaim(feed: Feed<Symbol>, w: World, user: Address, id: nat)
    requires Claim(w.s, user, id).Success?
    ensures Next(feed, w, DoClaim(user, id)) == w.(s := Claim(w.s, user, id).value.s)
  {}

  lemma NextClaimMany(feed: Feed<Symbol>, w: World, user: Address, ids: seq<nat>)
    requires ClaimMany(w.s, user, ids).Success?
    ensures Next(feed, w, DoClaimMany(user, ids)) == w.(s := ClaimMany(w.s, user, ids).value.s)
  {}

  // Whatever the fee, a step keeps the shape of the books; at a fee its round
  // can afford, it keeps the market solvent.
  lemma StepKeeps(feed: Feed<Symbol>, w: World, a: Action)
    requires Shape(w)
    ensures Shape(Next(feed, w, a))
    ensures Solvent(w) && FeeSuffices(w, a) ==> Solvent(Next(feed, w, a))
  {
    var w' := Next(feed, w, a);
    if Step(feed, w.s, a).Success? {
      match a
      case DoCreate(asset, tick) =>
        CreateEffect(feed, w, asset, tick);
        NewRound(w, w', w'.s.counter, w'.s.rounds[w'.s.counter]);
      case DoBet(user, id, side, amount) =>
        BetEffect(feed, w, user, id, side, amount);
        NewStake(w, w', id, w'.s.rounds[id], user, Position(side, amount, false));
      case DoSettle(id) =>
        SettleEffect(feed, w, id);
        var t := w.s.rounds[id].ticket;
        Settling(w, w', id, feed(t.asset, t.settleTs), w'.s.rounds[id], w'.s.fees - w.s.fees);
      case DoClaim(user, id) =>
        NextClaim(feed, w, user, id);
        ClaimKeeps(w, user, id);
      case DoClaimMany(user, ids) =>
        NextClaimMany(feed, w, user, ids);
        ManyKeeps(w, user, ids);
      case ExpireRound(id) => RoundExpiry(w, w', id);
      case ExpirePosition(id, user) => PositionExpiry(w, w', id, user, Position(Up, 0, false));
      case _ =>
        PlainEffect(feed, w, a);
        BooksUntouched(w, w');
    }
  }

  lemma FreshIsSolvent(config: Config, token: Balances, now: nat)
    requires Initialize(config, token, now).Success? && Valid(token)
    ensures Inv(World(Initialize(config, token, now).value, map[], map[]))
  {
    assert Holds(World(Initialize(config, token, now).value, map[], map[])) == map[];
  }

  // In every run at all, expiry and changing fees included, pools are at least
  // the sums over the live positions, and every decided round has both.
  lemma {:induction false} AlwaysShaped(feed: Feed<Symbol>, w: World, actions: seq<Action>)
    requires Shape(w)
    ensures Shape(Run(feed, w, actions))
    decreases |actions|
  {
    if actions == [] {
    } else {
      StepKeeps(feed, w, actions[0]);
      AlwaysShaped(feed, Next(feed, w, actions[0]), actions[1..]);
    }
  }

  // Solvency under arbitrary expiry: whatever the users do, and whenever rounds
  // and positions expire, the balance covers the fees and every live claim, as
  // long as each claim is made at a fee its round can afford.
  lemma {:induction false} AlwaysSolvent(feed: Feed<Symbol>, w: World, actions: seq<Action>)
    requires Inv(w) && FeeSufficesAlong(feed, w, actions)
    ensures Inv(Run(feed, w, actions))
    decreases |actions|
  {
    if actions == [] {
    } else {
      StepKeeps(feed, w, actions[0]);
      AlwaysSolvent(feed, Next(feed, w, actions[0]), actions[1..]);
    }
  }

  // Fees and any one round's draw are covered together.
  lemma FundsFor(w: World, id: nat)
    requires Inv(w)
    ensures w.s.fees + HoldAt(w, id) <= Bal(w.s.token, SELF) && 0 <= HoldAt(w, id)
  {
    forall j | j in w.s.rounds ensures 0 <= Holds(w)[j] {
      OwedAllNonNeg(w.s.rounds[j], w.s.positions, FeeOf(w, j));
      TotalNonNeg(w.s.positions, j, OwedAt(w.s.rounds[j], FeeOf(w, j)));
    }
    SumAtLeast(Holds(w), id);
    assert HoldAt(w, id) == At(Holds(w), id);
  }

  lemma ClaimShort(s: State, user: Address, id: nat)
    requires Claim(s, user, id) == Failure(TokenFailed(InsufficientBalance)) && 0 <= Bal(s.token, SELF)
    ensures id in s.rounds && s.rounds[id].status == Settled
    ensures (id, user) in s.positions && !s.positions[(id, user)].claimed
    ensures Bal(s.token, SELF) < Payout(s.rounds[id], s.config.feeBps, s.positions[(id, user)])
  {}

  lemma PayoutFunded(w: World, user: Address, id: nat)
    requires Inv(w) && RoundAffords(w, id) && Claimable(w.s, user, id)
    ensures 0 <= Payout(w.s.rounds[id], w.s.config.feeBps, w.s.positions[(id, user)]) <= Bal(w.s.token, SELF)
  {
    FundsFor(w, id);
    var r, fee := w.s.rounds[id], FeeOf(w, id);
    PayoutNonNeg(r, w.s.config.feeBps, w.s.positions[(id, user)]);
    PayoutFallsWithFee(r, fee, w.s.config.feeBps, w.s.positions[(id, user)]);
    OwedAllNonNeg(r, w.s.positions, fee);
    TotalAtLeast(w.s.positions, id, user, OwedAt(r, fee));
  }

  // So no claim ever finds the balance short,
  lemma ClaimNeverShort(w: World, user: Address, id: nat)
    requires Inv(w) && RoundAffords(w, id)
    ensures Claim(w.s, user, id) != Failure(TokenFailed(InsufficientBalance))
  {
    if Claim(w.s, user, id) == Failure(TokenFailed(InsufficientBalance)) {
      ClaimShort(w.s, user, id);
      PayoutFunded(w, user, id);
    }
  }

  // nor any batch of claims,
  lemma ManyNeverShort(w: World, user: Address, ids: seq<nat>)
    requires Inv(w) && forall id :: id in ids ==> RoundAffords(w, id)
    ensures ClaimMany(w.s, user, ids) != Failure(TokenFailed(InsufficientBalance))
  {
    var all := ClaimIds(w.s.rounds, w.s.positions, w.s.config.feeBps, user, ids);
    if all.Some? {
      BatchPaysEachIdOnce(w.s.rounds, w.s.positions, w.s.config.feeBps, user, ids);
      BatchFunded(w, user, ids);
    }
  }

  lemma BatchFunded(w: World, user: Address, ids: seq<nat>)
    requires Inv(w) && forall id :: id in ids ==> RoundAffords(w, id)
    ensures Sum(Worths(w.s.rounds, w.s.positions, w.s.config.feeBps, user, ids)) <= Bal(w.s.token, SELF)
  {
    var a, h := Worths(w.s.rounds, w.s.positions, w.s.config.feeBps, user, ids), Holds(w);
    forall id | id in a
      ensures a[id] <= At(h, id)
    {
      WorthWithinHold(w, user, id);
    }
    forall id | id in h
      ensures 0 <= h[id]
    {
      HeldNonNeg(w, id);
    }
    SumUnder(a, h);
  }

  lemma HeldNonNeg(w: World, id: nat)
    requires Shape(w)
    ensures 0 <= HoldAt(w, id)
  {
    if id in w.s.rounds {
      OwedAllNonNeg(w.s.rounds[id], w.s.positions, FeeOf(w, id));
      TotalNonNeg(w.s.positions, id, OwedAt(w.s.rounds[id], FeeOf(w, id)));
    }
  }

  lemma WorthWithinHold(w: World, user: Address, id: nat)
    requires Shape(w) && RoundAffords(w, id)
    ensures Worth(w.s.rounds, w.s.positions, w.s.config.feeBps, user, id) <= HoldAt(w, id)
  {
    HeldNonNeg(w, id);
    if Claimable(w.s, user, id) {
      var r, fee := w.s.rounds[id], FeeOf(w, id);
      PayoutFallsWithFee(r, fee, w.s.config.feeBps, w.s.positions[(id, user)]);
      OwedAllNonNeg(r, w.s.positions, fee);
      TotalAtLeast(w.s.positions, id, user, OwedAt(r, fee));
    }
  }

  // nor any sweep.
  lemma SweepNeverShort(w: World)
    requires Inv(w)
    ensures SweepFees(w.s) != Failure(TokenFailed(InsufficientBalance))
  {
    FundsFor(w, 0);
  }

  // ----- The fee condition, exactly ------------------------------------------------------

  // The whole winning pool held by one user.
  ghost function Lone(p: Position): Positions {
    map[(0, 1) := p]
  }

  lemma LoneTotal(p: Position, f: Position -> int)
    ensures Total(Lone(p), 0, f) == f(p)
  {
    var none: Positions := map[];
    TotalEmpty(none, 0, f);
    TotalSet(none, 0, 1, p, f);
    assert none[(0, 1) := p] == Lone(p);
  }

  lemma WinnerTakesAll(r: Round, feeBps: nat) returns (ps: Positions)
    requires Decided(r) && feeBps <= MAX_FEE_BPS
    ensures Covered(r, ps, 0)
    ensures Total(ps, 0, PaidBy(r, feeBps)) == Distributed(r, feeBps)
  {
    var p := Position(Winner(r), WinningPool(r), false);
    ps := Lone(p);
    LoneTotal(p, StakeOn(Up));
    LoneTotal(p, StakeOn(Down));
    LoneTotal(p, PaidBy(r, feeBps));
    FeeWithin(Pot(r), feeBps);
    var d, whole := Distributed(r, feeBps), WinningPool(r);
    assert whole * d == d * whole;
    QuotUnique(whole * d, whole, d);
  }

  // A round settled at one fee and claimed at another covers its accrued fee
  // and every possible set of positions if and only if the later fee suffices.
  lemma CoversExactlyWhen(r: Round, settled: nat, current: nat)
    requires r.status == Settled && Decided(r) && settled <= MAX_FEE_BPS && current <= MAX_FEE_BPS
    ensures (forall ps: Positions, id: nat :: Covered(r, ps, id) ==>
               Fee(Pot(r), settled) + Total(ps, id, PaidBy(r, current)) <= Pot(r))
       <==> Suffices(r, settled, current)
  {
    var all := WinnerTakesAll(r, current);
    forall ps: Positions, id: nat | Covered(r, ps, id)
      ensures Total(ps, id, PaidBy(r, current)) <= Distributed(r, current)
    {
      WinnersShare(r, current, ps, id);
    }
  }

  // ----- As the contract's calls use it ------------------------------------------------

  lemma StepKept(feed: Feed<Symbol>, w: World, a: Action)
    ensures Inv(w) && FeeSuffices(w, a) ==>
              && Inv(Next(feed, w, a))
              && (a.DoClaim? ==> Claim(w.s, a.user, a.id) != Failure(TokenFailed(InsufficientBalance)))
              && (a.DoClaimMany? ==> ClaimMany(w.s, a.user, a.ids) != Failure(TokenFailed(InsufficientBalance)))
              && (a.DoSweep? ==> SweepFees(w.s) != Failure(TokenFailed(InsufficientBalance)))
  {
    if Inv(w) && FeeSuffices(w, a) {
      StepKeeps(feed, w, a);
      if a.DoClaim? {
        ClaimNeverShort(w, a.user, a.id);
      } else if a.DoClaimMany? {
        ManyNeverShort(w, a.user, a.ids);
      } else if a.DoSweep? {
        SweepNeverShort(w);
      }
    }
  }
}

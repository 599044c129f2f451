// The accounts of the epoch market, over all assets and epochs: the balance is
// exactly the treasury, what the rounds can still draw, and what strangers
// sent in.

module EpochSolvency {
  import opened Wrappers
  import opened Checked
  import opened Fees
  import opened Sums
  import opened Token
  import opened Oracle
  import opened EpochMarket

  function On(side: Direction): Bet -> int {
    (b: Bet) => if b.direction == side then b.amount else 0
  }

  function Unrefunded(): Bet -> int {
    (b: Bet) => if b.claimed then 0 else b.amount
  }

  function WonBy(r: Round): Bet -> int {
    (b: Bet) => Won(r, b)
  }

  function Unpaid(r: Round): Bet -> int {
    (b: Bet) => if b.claimed then 0 else Won(r, b)
  }

  // What rounding leaves of a resolved round's reward pool.
  ghost function Dust(r: Round, bets: Bets, k: Key): int {
    r.rewardPool - Total(bets, k, WonBy(r))
  }

  // What a round still accounts for: its stakes until it is closed, then the
  // unclaimed refunds, or the unclaimed winnings and the dust.
  ghost function Hold(r: Round, bets: Bets, k: Key): int {
    if r.status == Cancelled then Total(bets, k, Unrefunded())
    else if r.status == Resolved then Total(bets, k, Unpaid(r)) + Dust(r, bets, k)
    else r.totalAmount
  }

  ghost function Holds(rounds: Rounds, bets: Bets): (m: map<Key, int>)
    ensures m.Keys == rounds.Keys
    ensures forall k :: k in m ==> m[k] == Hold(rounds[k], bets, k)
  {
    map k | k in rounds :: Hold(rounds[k], bets, k)
  }

  ghost predicate RoundInv(r: Round, bets: Bets, k: Key) {
    && r.totalAmount == r.upAmount + r.downAmount
    && Total(bets, k, On(Up)) == r.upAmount && Total(bets, k, On(Down)) == r.downAmount
    && (r.status == Open || r.status == Locked ==> forall u :: (k, u) in bets ==> !bets[(k, u)].claimed)
    && (r.status == Resolved ==>
          && 0 < r.upAmount && 0 < r.downAmount && 0 <= r.treasuryFee && 0 <= r.rewardPool
          && r.treasuryFee + r.rewardPool == r.totalAmount)
  }

  ghost predicate Books(rounds: Rounds, bets: Bets) {
    && (forall k :: k in rounds ==> RoundInv(rounds[k], bets, k))
    && (forall b :: b in bets ==> b.0 in rounds && b.1 != SELF)
  }

  ghost predicate Shape(s: State) {
    && s.config.feeBps <= DENOM && 0 <= s.treasury && Valid(s.token)
    && Books(s.rounds, s.bets)
    && (forall k :: k in s.rounds ==> GenesisOf(s, k.0) != NotStarted)
  }

  // The identity, with `given` for what came in other than by bets.
  ghost predicate Balanced(s: State, given: int) {
    && Shape(s) && 0 <= given
    && Bal(s.token, SELF) == s.treasury + Sum(Holds(s.rounds, s.bets)) + given
  }

  // ----- Rounding -----------------------------------------------------------------------

  lemma WonPoint(r: Round, b: Bet)
    requires 0 <= r.rewardPool && 0 < SideAmount(r, Winner(r))
    ensures var (part, whole) := (On(Winner(r))(b), SideAmount(r, Winner(r)));
            && 0 <= Won(r, b)
            && whole * Won(r, b) <= r.rewardPool * part <= whole * Won(r, b) + whole - 1
            && (part == 0 ==> Won(r, b) == 0)
  {
    QuotShare(b.amount, r.rewardPool, SideAmount(r, Winner(r)));
  }

  ghost function Winners(r: Round, bets: Bets, k: Key): (out: set<(Key, Address)>)
    ensures forall b :: b in out <==> b in bets && b.0 == k && bets[b].direction == Winner(r)
  {
    set b | b in bets && b.0 == k && bets[b].direction == Winner(r)
  }

  // Each resolved round leaves between 0 and winners - 1 stroops of dust.
  lemma DustBounds(r: Round, bets: Bets, k: Key)
    requires RoundInv(r, bets, k) && r.status == Resolved
    ensures 0 <= Dust(r, bets, k) <= |Winners(r, bets, k)| - 1
  {
    var whole, part, live := SideAmount(r, Winner(r)), On(Winner(r)), Winners(r, bets, k);
    forall b | b in bets && b.0 == k
      ensures whole * WonBy(r)(bets[b]) <= r.rewardPool * part(bets[b]) <= whole * WonBy(r)(bets[b]) + whole - 1
      ensures b !in live ==> r.rewardPool * part(bets[b]) <= whole * WonBy(r)(bets[b])
    {
      WonPoint(r, bets[b]);
    }
    TotalShares(bets, k, part, WonBy(r), r.rewardPool, whole, live);
    SharesOfWhole(r.rewardPool, whole, Total(bets, k, part), Total(bets, k, WonBy(r)), |live|);
    if |live| == 0 {
      SumZero(Weights(bets, k, part));
    }
  }

  lemma HoldNonNeg(r: Round, bets: Bets, k: Key)
    requires RoundInv(r, bets, k)
    ensures 0 <= Hold(r, bets, k)
  {
    TotalNonNeg(bets, k, Unrefunded());
    if r.status == Resolved {
      DustBounds(r, bets, k);
      forall b | b in bets ensures 0 <= Unpaid(r)(bets[b]) {
        WonPoint(r, bets[b]);
      }
      TotalNonNeg(bets, k, Unpaid(r));
    }
  }

  // ----- Frames -----------------------------------------------------------------------------

  ghost predicate SameBets(bets: Bets, bets': Bets, k: Key) {
    && (forall b: (Key, Address) :: b.0 == k ==> (b in bets <==> b in bets'))
    && (forall b :: b in bets && b.0 == k ==> bets[b] == bets'[b])
  }

  lemma RoundFrame(r: Round, bets: Bets, bets': Bets, k: Key)
    requires SameBets(bets, bets', k)
    ensures RoundInv(r, bets, k) ==> RoundInv(r, bets', k)
    ensures Hold(r, bets', k) == Hold(r, bets, k)
  {
    TotalFrame(bets, bets', k, On(Up));
    TotalFrame(bets, bets', k, On(Down));
    TotalFrame(bets, bets', k, Unrefunded());
    TotalFrame(bets, bets', k, Unpaid(r));
    TotalFrame(bets, bets', k, WonBy(r));
  }

  lemma BetsElsewhere(bets: Bets, k: Key, u: Address, b: Bet, j: Key)
    requires j != k
    ensures SameBets(bets, bets[(k, u) := b], j)
  {}

  // Round k and one of its bets change; everything else stays as it was.
  ghost predicate OneChange(rounds: Rounds, bets: Bets, rounds': Rounds, bets': Bets, k: Key) {
    && k in rounds && rounds'.Keys == rounds.Keys
    && (forall j :: j in rounds && j != k ==> rounds'[j] == rounds[j])
    && (forall j :: j in rounds && j != k ==> SameBets(bets, bets', j))
  }

  lemma OneChangeBooks(rounds: Rounds, bets: Bets, rounds': Rounds, bets': Bets, k: Key)
    requires Books(rounds, bets) && OneChange(rounds, bets, rounds', bets', k) && RoundInv(rounds'[k], bets', k)
    requires forall b :: b in bets' ==> b.0 in rounds' && b.1 != SELF
    ensures Books(rounds', bets')
  {
    forall j | j in rounds' ensures RoundInv(rounds'[j], bets', j) {
      if j != k {
        RoundFrame(rounds[j], bets, bets', j);
      }
    }
  }

  lemma OneChangeHolds(rounds: Rounds, bets: Bets, rounds': Rounds, bets': Bets, k: Key)
    requires OneChange(rounds, bets, rounds', bets', k)
    ensures Sum(Holds(rounds', bets'))
         == Sum(Holds(rounds, bets)) - Hold(rounds[k], bets, k) + Hold(rounds'[k], bets', k)
  {
    var h, h' := Holds(rounds, bets), Holds(rounds', bets');
    forall j | j in h && j != k ensures j in h' && h'[j] == h[j] {
      RoundFrame(rounds[j], bets, bets', j);
    }
    SumSwap(h, h', k);
  }

  lemma OneChangeIn(rounds: Rounds, bets: Bets, k: Key, r: Round, u: Address, b: Bet)
    requires k in rounds
    ensures OneChange(rounds, bets, rounds[k := r], bets[(k, u) := b], k)
  {
    forall j | j in rounds && j != k ensures SameBets(bets, bets[(k, u) := b], j) {
      BetsElsewhere(bets, k, u, b, j);
    }
  }

  lemma OneBetChange(rounds: Rounds, bets: Bets, k: Key, u: Address, b: Bet)
    requires k in rounds
    ensures OneChange(rounds, bets, rounds, bets[(k, u) := b], k)
  {
    forall j | j in rounds && j != k ensures SameBets(bets, bets[(k, u) := b], j) {
      BetsElsewhere(bets, k, u, b, j);
    }
  }

  // ----- A bet --------------------------------------------------------------------------------

  lemma BetRound(r: Round, r': Round, bets: Bets, k: Key, u: Address, b: Bet)
    requires RoundInv(r, bets, k) && r.status == Open && (k, u) !in bets && !b.claimed
    requires AddBet(r, b.direction, b.amount) == Some(r')
    ensures RoundInv(r', bets[(k, u) := b], k) && Hold(r', bets[(k, u) := b], k) == Hold(r, bets, k) + b.amount
  {
    TotalSet(bets, k, u, b, On(Up));
    TotalSet(bets, k, u, b, On(Down));
  }

  lemma BetBooks(rounds: Rounds, bets: Bets, k: Key, r': Round, u: Address, b: Bet)
    requires Books(rounds, bets) && k in rounds && rounds[k].status == Open
    requires (k, u) !in bets && !b.claimed && u != SELF
    requires AddBet(rounds[k], b.direction, b.amount) == Some(r')
    ensures Books(rounds[k := r'], bets[(k, u) := b])
    ensures Sum(Holds(rounds[k := r'], bets[(k, u) := b])) == Sum(Holds(rounds, bets)) + b.amount
  {
    BetRound(rounds[k], r', bets, k, u, b);
    OneChangeIn(rounds, bets, k, r', u, b);
    OneChangeBooks(rounds, bets, rounds[k := r'], bets[(k, u) := b], k);
    OneChangeHolds(rounds, bets, rounds[k := r'], bets[(k, u) := b], k);
  }

  // ----- A claimed or refunded bet ------------------------------------------------------------

  lemma MarkTotals(bets: Bets, k: Key, u: Address)
    requires (k, u) in bets
    ensures forall side :: Total(MarkClaimed(bets, k, u), k, On(side)) == Total(bets, k, On(side))
  {
    forall side
      ensures Total(MarkClaimed(bets, k, u), k, On(side)) == Total(bets, k, On(side))
    {
      TotalSet(bets, k, u, bets[(k, u)].(claimed := true), On(side));
    }
  }

  lemma MarkRound(r: Round, bets: Bets, k: Key, u: Address)
    requires RoundInv(r, bets, k) && (k, u) in bets && !bets[(k, u)].claimed
    requires r.status == Resolved || r.status == Cancelled
    ensures RoundInv(r, MarkClaimed(bets, k, u), k)
    ensures Hold(r, MarkClaimed(bets, k, u), k) == Hold(r, bets, k) - Draw(r, bets[(k, u)])
  {
    MarkTotals(bets, k, u);
    var b := bets[(k, u)].(claimed := true);
    if r.status == Resolved {
      TotalSet(bets, k, u, b, Unpaid(r));
      TotalSet(bets, k, u, b, WonBy(r));
    } else {
      TotalSet(bets, k, u, b, Unrefunded());
    }
  }

  // What marking a bet takes out of its round.
  function Draw(r: Round, b: Bet): int {
    if r.status == Resolved then Won(r, b) else b.amount
  }

  lemma MarkBooks(rounds: Rounds, bets: Bets, k: Key, u: Address)
    requires Books(rounds, bets) && k in rounds && (k, u) in bets && !bets[(k, u)].claimed
    requires rounds[k].status == Resolved || rounds[k].status == Cancelled
    ensures Books(rounds, MarkClaimed(bets, k, u))
    ensures Sum(Holds(rounds, MarkClaimed(bets, k, u))) == Sum(Holds(rounds, bets)) - Draw(rounds[k], bets[(k, u)])
  {
    var bets' := MarkClaimed(bets, k, u);
    MarkRound(rounds[k], bets, k, u);
    OneBetChange(rounds, bets, k, u, bets'[(k, u)]);
    OneChangeBooks(rounds, bets, rounds, bets', k);
    OneChangeHolds(rounds, bets, rounds, bets', k);
  }

  // A batch has taken out of the books exactly what it is about to pay.
  ghost predicate Drawn(rounds: Rounds, bets: Bets, user: Address, b: Batch) {
    && Books(rounds, b.bets)
    && Sum(Holds(rounds, b.bets)) == Sum(Holds(rounds, bets)) - b.total
    && (user == SELF ==> b.count == 0)
  }

  lemma ClaimOneDraws(rounds: Rounds, bets: Bets, b: Batch, k: Key, user: Address)
    requires Drawn(rounds, bets, user, b) && ClaimOne(rounds, b, k, user).Some?
    ensures Drawn(rounds, bets, user, ClaimOne(rounds, b, k, user).value)
  {
    if Winnings(rounds, b.bets, k, user).value != 0 {
      MarkBooks(rounds, b.bets, k, user);
    }
  }

  lemma RefundOneIs(rounds: Rounds, b: Batch, k: Key, user: Address)
    requires RefundOne(rounds, b, k, user).Some?
    requires HasStatus(rounds, k, Cancelled) && Unclaimed(b.bets, k, user)
    ensures RefundOne(rounds, b, k, user).value
         == Batch(MarkClaimed(b.bets, k, user), b.total + b.bets[(k, user)].amount, b.count + 1)
  {}

  lemma RefundDraw(rounds: Rounds, bets: Bets, b: Batch, k: Key, user: Address)
    requires Drawn(rounds, bets, user, b) && HasStatus(rounds, k, Cancelled) && Unclaimed(b.bets, k, user)
    ensures Drawn(rounds, bets, user,
                  Batch(MarkClaimed(b.bets, k, user), b.total + b.bets[(k, user)].amount, b.count + 1))
  {
    MarkBooks(rounds, b.bets, k, user);
    assert Draw(rounds[k], b.bets[(k, user)]) == b.bets[(k, user)].amount;
  }

  lemma RefundOneDraws(rounds: Rounds, bets: Bets, b: Batch, k: Key, user: Address)
    requires Drawn(rounds, bets, user, b) && RefundOne(rounds, b, k, user).Some?
    ensures Drawn(rounds, bets, user, RefundOne(rounds, b, k, user).value)
  {
    if HasStatus(rounds, k, Cancelled) && Unclaimed(b.bets, k, user) {
      RefundOneIs(rounds, b, k, user);
      RefundDraw(rounds, bets, b, k, user);
    }
  }

  lemma {:induction false} ClaimDraws(rounds: Rounds, bets: Bets, a: Asset, user: Address, epochs: seq<nat>)
    requires Books(rounds, bets) && ClaimEpochs(rounds, bets, a, user, epochs).Some?
    ensures Drawn(rounds, bets, user, ClaimEpochs(rounds, bets, a, user, epochs).value)
  {
    if epochs == [] {
    } else {
      var front := epochs[..|epochs| - 1];
      ClaimDraws(rounds, bets, a, user, front);
      ClaimOneDraws(rounds, bets, ClaimEpochs(rounds, bets, a, user, front).value, (a, epochs[|epochs| - 1]), user);
    }
  }

  lemma {:induction false} RefundDraws(rounds: Rounds, bets: Bets, a: Asset, user: Address, epochs: seq<nat>)
    requires Books(rounds, bets) && RefundEpochs(rounds, bets, a, user, epochs).Some?
    ensures Drawn(rounds, bets, user, RefundEpochs(rounds, bets, a, user, epochs).value)
  {
    if epochs == [] {
    } else {
      var front := epochs[..|epochs| - 1];
      RefundDraws(rounds, bets, a, user, front);
      RefundOneDraws(rounds, bets, RefundEpochs(rounds, bets, a, user, front).value, (a, epochs[|epochs| - 1]), user);
    }
  }

  // ----- The pipeline ---------------------------------------------------------------------------

  // With nothing claimed yet the refunds are the stakes.
  lemma CancelledHold(r: Round, bets: Bets, k: Key)
    requires RoundInv(r, bets, k) && (r.status == Open || r.status == Locked)
    ensures Total(bets, k, Unrefunded()) == r.totalAmount
  {
    TotalAdd(bets, k, On(Up), On(Down), Unrefunded());
  }

  lemma LockHold(r: Round, bets: Bets, k: Key, ts: nat, price: Option<int>)
    requires RoundInv(r, bets, k) && r.status == Open
    ensures RoundInv(LockedAt(r, ts, price), bets, k) && Hold(LockedAt(r, ts, price), bets, k) == Hold(r, bets, k)
  {
    CancelledHold(r, bets, k);
  }

  lemma CancelHold(r: Round, bets: Bets, k: Key)
    requires RoundInv(r, bets, k) && (r.status == Open || r.status == Locked)
    ensures RoundInv(r.(status := Cancelled), bets, k) && Hold(r.(status := Cancelled), bets, k) == Hold(r, bets, k)
  {
    CancelledHold(r, bets, k);
  }

  function TakenBy(r: Round, price: Option<int>, c: Config): int {
    if Resolves(r, price, c) then Fee(r.totalAmount, c.feeBps) else 0
  }

  // Closing a round moves its fee to the treasury and keeps the rest.
  lemma CloseHold(r: Round, bets: Bets, k: Key, ts: nat, price: Option<int>, c: Config)
    requires RoundInv(r, bets, k) && r.status == Locked && c.feeBps <= DENOM
    ensures 0 <= TakenBy(r, price, c)
    ensures RoundInv(Closed(r, ts, price, c), bets, k)
    ensures Hold(Closed(r, ts, price, c), bets, k) == Hold(r, bets, k) - TakenBy(r, price, c)
  {
    var r' := Closed(r, ts, price, c);
    FeeWithin(r.totalAmount, c.feeBps);
    if Resolves(r, price, c) {
      TotalMono(bets, k, Unpaid(r'), WonBy(r'));
      TotalMono(bets, k, WonBy(r'), Unpaid(r'));
    } else {
      CancelledHold(r, bets, k);
    }
  }

  // What one execution takes out of the asset's round n.
  function TakenFrom(feed: Feed<Asset>, a: Asset, e: nat, c: Config, n: nat, r: Round): int {
    if r.status == Locked && (n + 2 == e || n + 1 == e)
    then TakenBy(r, FetchPrice(feed, a, (n + 1) * INTERVAL, c.staleness), c) else 0
  }

  lemma AdvanceHold(feed: Feed<Asset>, a: Asset, e: nat, c: Config, n: nat, r: Round, bets: Bets)
    requires RoundInv(r, bets, (a, n)) && c.feeBps <= DENOM
    ensures RoundInv(Advanced(feed, a, e, c, n, r), bets, (a, n))
    ensures Hold(Advanced(feed, a, e, c, n, r), bets, (a, n))
         == Hold(r, bets, (a, n)) - TakenFrom(feed, a, e, c, n, r)
  {
    var at := (n + 1) * INTERVAL;
    var price := FetchPrice(feed, a, at, c.staleness);
    var r' := Advanced(feed, a, e, c, n, r);
    if r.status == Locked && (n + 2 == e || n + 1 == e) {
      assert r' == Closed(r, at, price, c);
      CloseHold(r, bets, (a, n), at, price, c);
    } else if r.status == Open && n + 1 == e {
      assert r' == r.(status := Cancelled);
      CancelHold(r, bets, (a, n));
    } else if r.status == Open && n == e {
      var lock := FetchPrice(feed, a, e * INTERVAL, c.staleness);
      assert r' == LockedAt(r, e * INTERVAL, lock);
      LockHold(r, bets, (a, n), e * INTERVAL, lock);
    } else {
      assert r' == r;
    }
  }

  lemma NewRoundHold(start: nat, epoch: nat, bets: Bets, k: Key)
    requires forall b :: b in bets ==> b.0 != k
    ensures RoundInv(NewRound(start, epoch), bets, k) && Hold(NewRound(start, epoch), bets, k) == 0
  {
    TotalEmpty(bets, k, On(Up));
    TotalEmpty(bets, k, On(Down));
  }

  ghost function Taken(feed: Feed<Asset>, s: State, a: Asset): (m: map<Key, int>)
    ensures m.Keys == s.rounds.Keys
  {
    map k | k in s.rounds :: if k.0 == a then TakenFrom(feed, a, Epoch(s.now), s.config, k.1, s.rounds[k]) else 0
  }

  // The rounds of an execution, before the next one is opened.
  ghost function Moved(feed: Feed<Asset>, s: State, a: Asset): (m: Rounds)
    ensures m.Keys == s.rounds.Keys
  {
    map k | k in s.rounds ::
      if k.0 == a then Advanced(feed, a, Epoch(s.now), s.config, k.1, s.rounds[k]) else s.rounds[k]
  }

  lemma MovedBooks(feed: Feed<Asset>, s: State, a: Asset)
    requires Books(s.rounds, s.bets) && s.config.feeBps <= DENOM
    ensures Books(Moved(feed, s, a), s.bets)
    ensures Sum(Holds(Moved(feed, s, a), s.bets)) == Sum(Holds(s.rounds, s.bets)) - Sum(Taken(feed, s, a))
  {
    var h, h', t := Holds(s.rounds, s.bets), Holds(Moved(feed, s, a), s.bets), Taken(feed, s, a);
    forall k | k in s.rounds ensures RoundInv(Moved(feed, s, a)[k], s.bets, k) && h[k] == h'[k] + t[k] {
      if k.0 == a {
        AdvanceHold(feed, a, Epoch(s.now), s.config, k.1, s.rounds[k], s.bets);
      }
    }
    SumAdd(h', t, h);
  }

  lemma OpenRounds(rounds: Rounds, bets: Bets, k: Key, start: nat)
    requires Books(rounds, bets) && k !in rounds
    ensures Books(rounds[k := NewRound(start, k.1)], bets)
    ensures Hold(NewRound(start, k.1), bets, k) == 0
  {
    NewRoundHold(start, k.1, bets, k);
  }

  lemma OpenBooks(rounds: Rounds, bets: Bets, k: Key, start: nat)
    requires k !in rounds && Hold(NewRound(start, k.1), bets, k) == 0
    ensures Sum(Holds(rounds[k := NewRound(start, k.1)], bets)) == Sum(Holds(rounds, bets))
  {
    var h, h' := Holds(rounds, bets), Holds(rounds[k := NewRound(start, k.1)], bets);
    SumSwap(h, h', k);
  }

  function DueOr0(feed: Feed<Asset>, s: State, a: Asset, n: int, ts: nat): int {
    var due := FeeDue(feed, s, a, n, ts);
    if due.Some? then due.value else 0
  }

  lemma ExecuteTreasury(feed: Feed<Asset>, s: State, a: Asset)
    requires ExecuteRound(feed, s, a).Success? && !AlreadyRun(s, a) && GenesisOf(s, a) == Running
    ensures var e, t, t' := Epoch(s.now), s.treasury, ExecuteRound(feed, s, a).value.treasury;
            && (e == 0 ==> t' == t)
            && (1 <= e ==> FeeDue(feed, s, a, e - 1, e * INTERVAL).Some?)
            && (e == 1 ==> t' == t + DueOr0(feed, s, a, 0, INTERVAL))
            && (2 <= e ==> FeeDue(feed, s, a, e - 2, (e - 1) * INTERVAL).Some?
                           && t' == t + DueOr0(feed, s, a, e - 2, (e - 1) * INTERVAL)
                                    + DueOr0(feed, s, a, e - 1, e * INTERVAL))
  {}

  lemma DueIsTaken(feed: Feed<Asset>, s: State, a: Asset, n: nat, ts: nat)
    requires ts == (n + 1) * INTERVAL && (n + 2 == Epoch(s.now) || n + 1 == Epoch(s.now))
    requires FeeDue(feed, s, a, n, ts).Some?
    ensures DueOr0(feed, s, a, n, ts) == At(Taken(feed, s, a), (a, n))
  {}

  lemma TakenElsewhere(feed: Feed<Asset>, s: State, a: Asset, k: Key)
    requires k in s.rounds && (k.0 != a || (k.1 + 2 != Epoch(s.now) && k.1 + 1 != Epoch(s.now)))
    ensures Taken(feed, s, a)[k] == 0
  {}

  lemma TakenAtTwo(feed: Feed<Asset>, s: State, a: Asset, i: nat, j: nat)
    requires var e := Epoch(s.now); (e == i + 2 == j + 1) || (e == 1 && i == 1 && j == 0)
    ensures Sum(Taken(feed, s, a)) == At(Taken(feed, s, a), (a, i)) + At(Taken(feed, s, a), (a, j))
  {
    var t := Taken(feed, s, a);
    forall k | k in t && k != (a, i) && k != (a, j) ensures t[k] == 0 {
      TakenElsewhere(feed, s, a, k);
    }
    SumTwoPoints(t, (a, i), (a, j));
  }

  // The fees taken from the two rounds an execution may resolve.
  lemma TakenSum(feed: Feed<Asset>, s: State, a: Asset)
    ensures var e := Epoch(s.now);
            && (e == 0 ==> Sum(Taken(feed, s, a)) == 0)
            && (e == 1 && FeeDue(feed, s, a, 0, INTERVAL).Some? ==>
                  Sum(Taken(feed, s, a)) == DueOr0(feed, s, a, 0, INTERVAL))
            && (2 <= e && FeeDue(feed, s, a, e - 2, (e - 1) * INTERVAL).Some?
                && FeeDue(feed, s, a, e - 1, e * INTERVAL).Some? ==>
                  Sum(Taken(feed, s, a)) == DueOr0(feed, s, a, e - 2, (e - 1) * INTERVAL)
                                            + DueOr0(feed, s, a, e - 1, e * INTERVAL))
  {
    var e := Epoch(s.now);
    if 2 <= e {
      TakenAtTwo(feed, s, a, e - 2, e - 1);
      if FeeDue(feed, s, a, e - 2, (e - 1) * INTERVAL).Some? && FeeDue(feed, s, a, e - 1, e * INTERVAL).Some? {
        DueIsTaken(feed, s, a, e - 2, (e - 1) * INTERVAL);
        DueIsTaken(feed, s, a, e - 1, e * INTERVAL);
      }
    } else if e == 1 {
      TakenAtTwo(feed, s, a, 1, 0);
      if FeeDue(feed, s, a, 0, INTERVAL).Some? {
        DueIsTaken(feed, s, a, 0, INTERVAL);
      }
      if (a, 1) in s.rounds {
        TakenElsewhere(feed, s, a, (a, 1));
      }
    } else {
      forall k | k in s.rounds ensures Taken(feed, s, a)[k] == 0 {
        TakenElsewhere(feed, s, a, k);
      }
      SumZero(Taken(feed, s, a));
    }
  }

  lemma TakenIsDue(feed: Feed<Asset>, s: State, a: Asset)
    requires ExecuteRound(feed, s, a).Success? && !AlreadyRun(s, a) && GenesisOf(s, a) == Running
    ensures ExecuteRound(feed, s, a).value.treasury == s.treasury + Sum(Taken(feed, s, a))
  {
    ExecuteTreasury(feed, s, a);
    TakenSum(feed, s, a);
  }

  lemma OpenedBooks(rounds: Rounds, bets: Bets, k: Key, start: nat)
    requires Books(rounds, bets)
    ensures Books(Opened(rounds, k, start), bets)
    ensures Sum(Holds(Opened(rounds, k, start), bets)) == Sum(Holds(rounds, bets))
  {
    if k !in rounds {
      OpenRounds(rounds, bets, k, start);
      OpenBooks(rounds, bets, k, start);
    }
  }

  lemma AdvancedIsOpened(feed: Feed<Asset>, s: State, a: Asset)
    ensures AdvancedRounds(feed, s, a)
         == Opened(Moved(feed, s, a), (a, Epoch(s.now) + 1), Epoch(s.now) * INTERVAL)
  {}

  lemma AdvancedBooks(feed: Feed<Asset>, s: State, a: Asset)
    requires Shape(s)
    ensures var rounds := AdvancedRounds(feed, s, a);
            && Books(rounds, s.bets)
            && Sum(Holds(rounds, s.bets)) == Sum(Holds(s.rounds, s.bets)) - Sum(Taken(feed, s, a))
  {
    MovedBooks(feed, s, a);
    AdvancedIsOpened(feed, s, a);
    OpenedBooks(Moved(feed, s, a), s.bets, (a, Epoch(s.now) + 1), Epoch(s.now) * INTERVAL);
  }

  lemma ExecuteBooks(feed: Feed<Asset>, s: State, a: Asset)
    requires Shape(s) && ExecuteRound(feed, s, a).Success?
    ensures var s' := ExecuteRound(feed, s, a).value;
            && Books(s'.rounds, s'.bets)
            && s'.treasury + Sum(Holds(s'.rounds, s'.bets)) == s.treasury + Sum(Holds(s.rounds, s.bets))
  {
    if !AlreadyRun(s, a) {
      TakenIsDue(feed, s, a);
      AdvancedBooks(feed, s, a);
    }
  }
}

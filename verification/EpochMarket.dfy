// The epoch market (prediction): rounds numbered by the 300-second epoch they
// lock in, driven by a keeper. For every entry point, the state a successful
// call leads to; a call that panics answers Failure and changes nothing.

module EpochMarket {
  import opened Wrappers
  import opened Checked
  import opened Fees
  import opened Token
  import opened Oracle

  const INTERVAL: nat := 300
  const USER_EPOCHS_CAP: nat := 32

  datatype Error =
    | Paused | RoundNotOpen | BetTooSmall | InvalidEpoch | GenesisNotStarted | GenesisAlreadyStarted
    | AlreadyBet | RoundNotFound | NothingToClaim | Unauthorized | Overflow | TokenFailed(cause: TokenError)

  datatype Asset = Btc | Eth | Sol | Xlm
  datatype Direction = Up | Down
  datatype Status = Open | Locked | Resolved | Cancelled
  datatype Genesis = NotStarted | Started | Running

  datatype Round = Round(
    startTime: nat, lockTime: nat, closeTime: nat, startPrice: int, endPrice: int,
    upAmount: nat, downAmount: nat, totalAmount: nat, rewardPool: int, treasuryFee: int, status: Status)

  datatype Bet = Bet(direction: Direction, amount: nat, claimed: bool)

  datatype Config = Config(
    treasury: Address, feeBps: nat, minBet: int, staleness: nat, paused: bool, tieRefund: bool)

  // A round's key: the asset and the epoch it locks in.
  type Key = (Asset, nat)
  type Rounds = map<Key, Round>
  type Bets = map<(Key, Address), Bet>

  datatype State = State(
    config: Config, genesis: map<Asset, Genesis>, rounds: Rounds, bets: Bets,
    userEpochs: map<(Asset, Address), seq<nat>>, treasury: int, token: Balances, now: nat)

  function Initialize(treasury: Address, feeBps: nat, minBet: int, token: Balances, now: nat): State {
    State(Config(treasury, feeBps, minBet, 60, false, true), map[], map[], map[], map[], 0, token, now)
  }

  function Epoch(now: nat): nat {
    now / INTERVAL
  }

  function GenesisOf(s: State, a: Asset): Genesis {
    if a in s.genesis then s.genesis[a] else NotStarted
  }

  function NewRound(startTime: nat, epoch: nat): Round {
    Round(startTime, epoch * INTERVAL, (epoch + 1) * INTERVAL, 0, 0, 0, 0, 0, 0, 0, Open)
  }

  // ----- Oracle reads ----------------------------------------------------------

  // The price at or before a timestamp, unless it is too old for it.
  function FetchPrice(feed: Feed<Asset>, a: Asset, ts: nat, staleness: nat): Option<int> {
    var data := feed(a, ts);
    if data.None? then None
    else
      var age := if data.value.timestamp < ts then ts - data.value.timestamp else 0;
      if age > staleness then None else Some(data.value.price)
  }

  // ----- Pools and payouts -------------------------------------------------------

  function ComputePools(total: int, feeBps: nat): Option<(int, int)> {
    if InI128(total * feeBps) && InI128(total - Fee(total, feeBps))
    then Some((Fee(total, feeBps), total - Fee(total, feeBps))) else None
  }

  // What a winning bet is paid, rounded toward zero.
  function Payout(amount: int, rewardPool: int, sideAmount: nat): int {
    if amount == 0 || rewardPool == 0 || sideAmount == 0 then 0 else Quot(amount * rewardPool, sideAmount)
  }

  function ComputePayout(amount: int, rewardPool: int, sideAmount: nat): Option<int> {
    if amount == 0 || rewardPool == 0 || sideAmount == 0 then Some(0)
    else if InI128(amount * rewardPool) then Some(Payout(amount, rewardPool, sideAmount))
    else None
  }

  // ----- The pipeline -------------------------------------------------------------

  function Winner(r: Round): Direction {
    if r.endPrice > r.startPrice then Up else Down
  }

  function SideAmount(r: Round, side: Direction): nat {
    if side == Up then r.upAmount else r.downAmount
  }

  // The side a settlement announces as the winner of a locked round it resolves
  // at this price.
  function Announced(r: Round, price: int): Direction {
    if price > r.startPrice then Up else Down
  }

  // Whether closing a locked round at this price resolves it.
  predicate Resolves(r: Round, price: Option<int>, c: Config) {
    && price.Some? && r.upAmount != 0 && r.downAmount != 0
    && !(c.tieRefund && r.startPrice == price.value)
  }

  // What the event of a settlement announces: a winner if the round resolves.
  function Announcement(r: Round, price: Option<int>, c: Config): Option<Direction> {
    if Resolves(r, price, c) then Some(Announced(r, price.value)) else None
  }

  function Closed(r: Round, closeTs: nat, price: Option<int>, c: Config): Round {
    if price.None? then r.(status := Cancelled)
    else if Resolves(r, price, c) then
      var fee := Fee(r.totalAmount, c.feeBps);
      r.(endPrice := price.value, closeTime := closeTs, treasuryFee := fee, rewardPool := r.totalAmount - fee,
         status := Resolved)
    else r.(endPrice := price.value, closeTime := closeTs, status := Cancelled)
  }

  // The fee closing it adds to the treasury; None when computing it panics.
  function ClosingFee(r: Round, price: Option<int>, c: Config): Option<int> {
    if !Resolves(r, price, c) then Some(0)
    else if ComputePools(r.totalAmount, c.feeBps).None? then None
    else Some(Fee(r.totalAmount, c.feeBps))
  }

  function LockedAt(r: Round, ts: nat, price: Option<int>): Round {
    if price.Some? then r.(startPrice := price.value, lockTime := ts, status := Locked)
    else r.(status := Cancelled)
  }

  // A betting round opened at a key, unless there is one.
  function Opened(rounds: Rounds, k: Key, start: nat): Rounds {
    if k in rounds then rounds else rounds[k := NewRound(start, k.1)]
  }

  predicate HasStatus(rounds: Rounds, k: Key, status: Status) {
    k in rounds && rounds[k].status == status
  }

  // What execute_round in epoch e makes of the asset's round n: the round of
  // two epochs ago is closed late if it is still locked, the previous one is
  // closed or, if it never locked, cancelled, and the current one is locked.
  function Advanced(feed: Feed<Asset>, a: Asset, e: nat, c: Config, n: nat, r: Round): Round {
    if n + 2 == e && r.status == Locked then
      Closed(r, (n + 1) * INTERVAL, FetchPrice(feed, a, (n + 1) * INTERVAL, c.staleness), c)
    else if n + 1 == e && r.status == Locked then
      Closed(r, e * INTERVAL, FetchPrice(feed, a, e * INTERVAL, c.staleness), c)
    else if n + 1 == e && r.status == Open then r.(status := Cancelled)
    else if n == e && r.status == Open then
      LockedAt(r, e * INTERVAL, FetchPrice(feed, a, e * INTERVAL, c.staleness))
    else r
  }

  function FeeDue(feed: Feed<Asset>, s: State, a: Asset, n: int, ts: nat): Option<int> {
    if 0 <= n && HasStatus(s.rounds, (a, n), Locked)
    then ClosingFee(s.rounds[(a, n)], FetchPrice(feed, a, ts, s.config.staleness), s.config)
    else Some(0)
  }

  function AdvancedRounds(feed: Feed<Asset>, s: State, a: Asset): Rounds {
    var e := Epoch(s.now);
    var moved := map k | k in s.rounds ::
      if k.0 == a then Advanced(feed, a, e, s.config, k.1, s.rounds[k]) else s.rounds[k];
    if (a, e + 1) in moved then moved else moved[(a, e + 1) := NewRound(e * INTERVAL, e + 1)]
  }

  // The current epoch has been dealt with: its round is no longer open.
  predicate AlreadyRun(s: State, a: Asset) {
    (a, Epoch(s.now)) in s.rounds && s.rounds[(a, Epoch(s.now))].status != Open
  }

  function ExecuteRound(feed: Feed<Asset>, s: State, a: Asset): Result<State, Error> {
    var e := Epoch(s.now);
    if GenesisOf(s, a) != Running then Failure(GenesisNotStarted)
    else if AlreadyRun(s, a) then Success(s)
    else if e == 0 && (a, 0) in s.rounds then Failure(Overflow)
    else
      var late := FeeDue(feed, s, a, e - 2, if 1 <= e then (e - 1) * INTERVAL else 0);
      var fee := FeeDue(feed, s, a, e - 1, e * INTERVAL);
      if late.None? || fee.None? || !TreasuryTakes(s.treasury, late.value)
         || !TreasuryTakes(s.treasury + late.value, fee.value) then Failure(Overflow)
      else
        Success(s.(rounds := AdvancedRounds(feed, s, a), treasury := s.treasury + late.value + fee.value))
  }

  // Adding a fee to the treasury counter overflows no i128. (Adding nothing
  // never does.)
  predicate TreasuryTakes(treasury: int, fee: int) {
    fee == 0 || InI128(treasury + fee)
  }

  function GenesisStart(s: State, a: Asset): Result<State, Error> {
    if s.config.paused then Failure(Paused)
    else if GenesisOf(s, a) != NotStarted then Failure(GenesisAlreadyStarted)
    else
      var open := Epoch(s.now) + 1;
      Success(s.(rounds := s.rounds[(a, open) := NewRound(s.now, open)], genesis := s.genesis[a := Started]))
  }

  function GenesisLock(feed: Feed<Asset>, s: State, a: Asset): Result<State, Error> {
    var e := Epoch(s.now);
    if s.config.paused then Failure(Paused)
    else if GenesisOf(s, a) != Started then Failure(GenesisNotStarted)
    else if (a, e) !in s.rounds then Failure(RoundNotFound)
    else if s.rounds[(a, e)].status != Open then Failure(RoundNotOpen)
    else
      var r := LockedAt(s.rounds[(a, e)], e * INTERVAL, FetchPrice(feed, a, e * INTERVAL, s.config.staleness));
      var locked := s.rounds[(a, e) := r];
      var next := if (a, e + 1) in locked then locked
                  else locked[(a, e + 1) := NewRound(e * INTERVAL, e + 1)];
      Success(s.(rounds := next, genesis := s.genesis[a := Running]))
  }

  // ----- Betting --------------------------------------------------------------------

  function AddBet(r: Round, side: Direction, amount: nat): Option<Round> {
    var r' := match side
      case Up => r.(upAmount := r.upAmount + amount, totalAmount := r.totalAmount + amount)
      case Down => r.(downAmount := r.downAmount + amount, totalAmount := r.totalAmount + amount);
    if r'.upAmount <= I128_MAX && r'.downAmount <= I128_MAX && r'.totalAmount <= I128_MAX then Some(r') else None
  }

  // The bounded list of a user's epochs: an epoch already listed is not added
  // again, and the oldest gives way when the list is full.
  function PushEpoch(buf: seq<nat>, epoch: nat): seq<nat> {
    if epoch in buf then buf
    else if USER_EPOCHS_CAP <= |buf| then buf[1..] + [epoch]
    else buf + [epoch]
  }

  function EpochsOf(s: State, a: Asset, user: Address): seq<nat> {
    if (a, user) in s.userEpochs then s.userEpochs[(a, user)] else []
  }

  function PlaceBet(s: State, user: Address, a: Asset, epoch: nat, side: Direction, amount: int): Result<State, Error> {
    var k := (a, epoch);
    if user == SELF then Failure(Unauthorized)
    else if s.config.paused then Failure(Paused)
    else if amount < s.config.minBet then Failure(BetTooSmall)
    else if epoch != Epoch(s.now) + 1 then Failure(InvalidEpoch)
    else if k !in s.rounds then Failure(RoundNotFound)
    else if s.rounds[k].status != Open then Failure(RoundNotOpen)
    else if (k, user) in s.bets then Failure(AlreadyBet)
    else
      var token := Transfer(s.token, user, SELF, amount);
      if token.Failure? then Failure(TokenFailed(token.error))
      else
        var r := AddBet(s.rounds[k], side, amount);
        if r.None? then Failure(Overflow)
        else
          Success(s.(rounds := s.rounds[k := r.value], bets := s.bets[(k, user) := Bet(side, amount, false)],
                     userEpochs := s.userEpochs[(a, user) := PushEpoch(EpochsOf(s, a, user), epoch)],
                     token := token.value))
  }

  // ----- Claims and refunds ------------------------------------------------------------

  predicate Unclaimed(bets: Bets, k: Key, user: Address) {
    (k, user) in bets && !bets[(k, user)].claimed
  }

  // What claim counts a bet to have won in its resolved round, claimed or not.
  function Won(r: Round, b: Bet): int {
    if b.direction == Winner(r) then Payout(b.amount, r.rewardPool, SideAmount(r, Winner(r))) else 0
  }

  function CheckedWon(r: Round, b: Bet): (v: Option<int>)
    ensures v.Some? ==> v.value == Won(r, b)
  {
    if b.direction == Winner(r) then ComputePayout(b.amount, r.rewardPool, SideAmount(r, Winner(r))) else Some(0)
  }

  // What claim pays for one epoch: None stands for a panic.
  function Winnings(rounds: Rounds, bets: Bets, k: Key, user: Address): Option<int> {
    if HasStatus(rounds, k, Resolved) && Unclaimed(bets, k, user) then CheckedWon(rounds[k], bets[(k, user)])
    else Some(0)
  }

  // What the view quotes a user for one epoch, by a walk of its own through the
  // cases: None stands for a panic.
  function Claimable(s: State, k: Key, user: Address): Option<int> {
    if k !in s.rounds || !Unclaimed(s.bets, k, user) then Some(0)
    else
      var r, b := s.rounds[k], s.bets[(k, user)];
      match r.status
      case Cancelled => Some(b.amount)
      case Resolved =>
        var side := if r.endPrice > r.startPrice then Up else Down;
        if b.direction != side then Some(0)
        else ComputePayout(b.amount, r.rewardPool, if side == Up then r.upAmount else r.downAmount)
      case _ => Some(0)
  }

  function MarkClaimed(bets: Bets, k: Key, user: Address): Bets
    requires (k, user) in bets
  {
    bets[(k, user) := bets[(k, user)].(claimed := true)]
  }

  datatype Batch = Batch(bets: Bets, total: int, count: nat)

  // The bets, running total and number of payments after the listed epochs.
  function ClaimEpochs(rounds: Rounds, bets: Bets, a: Asset, user: Address, epochs: seq<nat>): Option<Batch> {
    if epochs == [] then Some(Batch(bets, 0, 0))
    else
      var before := ClaimEpochs(rounds, bets, a, user, epochs[..|epochs| - 1]);
      if before.None? then None else ClaimOne(rounds, before.value, (a, epochs[|epochs| - 1]), user)
  }

  function ClaimOne(rounds: Rounds, b: Batch, k: Key, user: Address): Option<Batch> {
    var won := Winnings(rounds, b.bets, k, user);
    if won.None? then None
    else if won.value == 0 then Some(b)
    else if !InI128(b.total + won.value) then None
    else Some(Batch(MarkClaimed(b.bets, k, user), b.total + won.value, b.count + 1))
  }

  function RefundEpochs(rounds: Rounds, bets: Bets, a: Asset, user: Address, epochs: seq<nat>): Option<Batch> {
    if epochs == [] then Some(Batch(bets, 0, 0))
    else
      var before := RefundEpochs(rounds, bets, a, user, epochs[..|epochs| - 1]);
      if before.None? then None else RefundOne(rounds, before.value, (a, epochs[|epochs| - 1]), user)
  }

  function RefundOne(rounds: Rounds, b: Batch, k: Key, user: Address): Option<Batch> {
    if !HasStatus(rounds, k, Cancelled) || !Unclaimed(b.bets, k, user) then Some(b)
    else if !InI128(b.total + b.bets[(k, user)].amount) then None
    else Some(Batch(MarkClaimed(b.bets, k, user), b.total + b.bets[(k, user)].amount, b.count + 1))
  }

  // The end of claim and refund alike: one transfer, refused when nothing is due.
  function PayBatch(s: State, user: Address, all: Option<Batch>): Result<State, Error> {
    if all.None? then Failure(Overflow)
    else if all.value.count == 0 then Failure(NothingToClaim)
    else
      var token := Transfer(s.token, SELF, user, all.value.total);
      if token.Failure? then Failure(TokenFailed(token.error))
      else Success(s.(bets := all.value.bets, token := token.value))
  }

  function Claim(s: State, a: Asset, epochs: seq<nat>, user: Address): Result<State, Error> {
    PayBatch(s, user, ClaimEpochs(s.rounds, s.bets, a, user, epochs))
  }

  function Refund(s: State, a: Asset, epochs: seq<nat>, user: Address): Result<State, Error> {
    PayBatch(s, user, RefundEpochs(s.rounds, s.bets, a, user, epochs))
  }

  function ClaimTreasury(s: State): Result<State, Error> {
    if s.treasury > 0 then
      var token := Transfer(s.token, SELF, s.config.treasury, s.treasury);
      if token.Failure? then Failure(TokenFailed(token.error))
      else Success(s.(token := token.value, treasury := 0))
    else Success(s)
  }

  // ----- Runs ---------------------------------------------------------------------------

  datatype Action =
    | DoGenesisStart(asset: Asset)
    | DoGenesisLock(asset: Asset)
    | DoExecute(asset: Asset)
    | DoBet(user: Address, asset: Asset, epoch: nat, side: Direction, amount: int)
    | DoClaim(asset: Asset, epochs: seq<nat>, user: Address)
    | DoRefund(asset: Asset, epochs: seq<nat>, user: Address)
    | DoClaimTreasury
    | DoSetConfig(config: Config)
    | Tick(to: nat)
    | Pay(from: Address, to: Address, amount: int)

  // A call and what the oracle answers during it; another call may find the
  // oracle answering differently.
  datatype Call = Call(feed: Feed<Asset>, action: Action)

  function Step(s: State, c: Call): Result<State, Error> {
    match c.action
    case DoGenesisStart(a) => GenesisStart(s, a)
    case DoGenesisLock(a) => GenesisLock(c.feed, s, a)
    case DoExecute(a) => ExecuteRound(c.feed, s, a)
    case DoBet(user, a, epoch, side, amount) => PlaceBet(s, user, a, epoch, side, amount)
    case DoClaim(a, epochs, user) => Claim(s, a, epochs, user)
    case DoRefund(a, epochs, user) => Refund(s, a, epochs, user)
    case DoClaimTreasury => ClaimTreasury(s)
    case DoSetConfig(config) => Success(s.(config := config))
    case Tick(to) => Success(if s.now <= to then s.(now := to) else s)
    case Pay(from, to, amount) =>
      var token := Transfer(s.token, from, to, amount);
      if from == SELF then Failure(Unauthorized)
      else if token.Failure? then Failure(TokenFailed(token.error))
      else Success(s.(token := token.value))
  }

  function Apply(s: State, c: Call): State {
    var r := Step(s, c);
    if r.Success? then r.value else s
  }

  function Run(s: State, calls: seq<Call>): State
    decreases |calls|
  {
    if calls == [] then s else Run(Apply(s, calls[0]), calls[1..])
  }
}

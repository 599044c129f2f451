// The fair market: a parimutuel up/down market whose rounds and positions live
// in temporary storage. For every entry point, the state a successful call
// leads to; a call that panics answers Failure and leaves the state as it was.

module FairMarket {
  import opened Wrappers
  import opened Checked
  import opened Fees
  import opened Frames
  import opened Token
  import opened Oracle

  type Symbol = string

  const ORACLE_INTERVAL: nat := 300
  const MAX_FEE_BPS: nat := 500
  const MIN_LOCK_OFFSET: nat := 90
  const MAX_CLAIM_BATCH: nat := 20

  datatype Error =
    | InvalidAsset | RoundNotFound | RoundLocked | AlreadySettled | TooEarly | BetTooSmall | AlreadyBet
    | FeeTooHigh | LockOffsetTooSmall | DuplicateRound | ClaimBatchTooLarge
    | Unauthorized | Overflow | TokenFailed(cause: TokenError)

  datatype Side = Up | Down
  datatype Outcome = UpWon | DownWon | Void
  datatype Status = Open | Settled

  // What a round is about, fixed when it is created.
  datatype Ticket = Ticket(asset: Symbol, strike: int, strikeTs: nat, settleTs: nat, lockTs: nat)

  datatype Round = Round(ticket: Ticket, poolUp: nat, poolDown: nat, status: Status, outcome: Outcome, settlePrice: int)

  datatype Position = Position(side: Side, amount: nat, claimed: bool)

  datatype Config = Config(admin: Address, feeBps: nat, minBet: int, lockOffset: nat)

  type Positions = map<(nat, Address), Position>
  type Rounds = map<nat, Round>

  datatype State = State(
    config: Config, counter: nat, fees: int, strikeTs: map<Symbol, nat>,
    rounds: Rounds, positions: Positions, token: Balances, now: nat)

  function Initialize(config: Config, token: Balances, now: nat): Result<State, Error> {
    if MAX_FEE_BPS < config.feeBps then Failure(FeeTooHigh)
    else if config.lockOffset < MIN_LOCK_OFFSET then Failure(LockOffsetTooSmall)
    else Success(State(config, 0, 0, map[], map[], map[], token, now))
  }

  predicate ValidAsset(asset: Symbol) {
    asset == "BTC" || asset == "ETH" || asset == "SOL" || asset == "XLM"
  }

  function LastStrike(s: State, asset: Symbol): nat {
    if asset in s.strikeTs then s.strikeTs[asset] else 0
  }

  function CreateRound(s: State, asset: Symbol, tick: Option<PriceData>): Result<(State, nat), Error> {
    if !ValidAsset(asset) then Failure(InvalidAsset)
    else if tick.None? then Failure(RoundNotFound)
    else
      var ts, id := tick.value.timestamp, s.counter + 1;
      var t := Ticket(asset, tick.value.price, ts, ts + ORACLE_INTERVAL, ts + s.config.lockOffset);
      if U64_MAX < t.settleTs || U64_MAX < t.lockTs then Failure(Overflow)
      else if LastStrike(s, asset) == ts then Failure(DuplicateRound)
      else if U64_MAX < id then Failure(Overflow)
      else
        Success((s.(counter := id, rounds := s.rounds[id := Round(t, 0, 0, Open, Void, 0)],
                    strikeTs := s.strikeTs[asset := ts]), id))
  }

  function AddStake(r: Round, side: Side, amount: nat): Option<Round> {
    var r' := match side
      case Up => r.(poolUp := r.poolUp + amount)
      case Down => r.(poolDown := r.poolDown + amount);
    if r'.poolUp <= I128_MAX && r'.poolDown <= I128_MAX then Some(r') else None
  }

  function PlaceBet(s: State, user: Address, id: nat, side: Side, amount: int): Result<State, Error> {
    if user == SELF then Failure(Unauthorized)
    else if amount < s.config.minBet then Failure(BetTooSmall)
    else if id !in s.rounds then Failure(RoundNotFound)
    else if s.rounds[id].ticket.lockTs <= s.now || s.rounds[id].status != Open then Failure(RoundLocked)
    else if (id, user) in s.positions then Failure(AlreadyBet)
    else
      var token := Transfer(s.token, user, SELF, amount);
      if token.Failure? then Failure(TokenFailed(token.error))
      else
        var r := AddStake(s.rounds[id], side, amount);
        if r.None? then Failure(Overflow)
        else
          Success(s.(rounds := s.rounds[id := r.value],
                     positions := s.positions[(id, user) := Position(side, amount, false)],
                     token := token.value))
  }

  // The winning side at a price, or none: a missing price, an exact tie and an
  // empty pool all void the round.
  function Verdict(price: Option<PriceData>, strike: int, poolUp: nat, poolDown: nat): Outcome {
    if poolUp == 0 || poolDown == 0 || price.None? then Void
    else if price.value.price > strike then UpWon
    else if price.value.price < strike then DownWon
    else Void
  }

  function SettlePrice(price: Option<PriceData>): int {
    if price.Some? then price.value.price else 0
  }

  function SettledRound(r: Round, price: Option<PriceData>): Round {
    r.(outcome := Verdict(price, r.ticket.strike, r.poolUp, r.poolDown), status := Settled,
       settlePrice := if price.Some? then price.value.price else r.settlePrice)
  }

  function Pot(r: Round): nat {
    r.poolUp + r.poolDown
  }

  function CheckedFee(pot: int, feeBps: nat): Option<int> {
    if InI128(pot) && InI128(pot * feeBps) then Some(Fee(pot, feeBps)) else None
  }

  function Settle(feed: Feed<Symbol>, s: State, id: nat): Result<State, Error> {
    if id !in s.rounds then Failure(RoundNotFound)
    else if s.rounds[id].status == Settled then Failure(AlreadySettled)
    else if s.now < s.rounds[id].ticket.settleTs then Failure(TooEarly)
    else
      var r := SettledRound(s.rounds[id], feed(s.rounds[id].ticket.asset, s.rounds[id].ticket.settleTs));
      var fee := if r.outcome == Void then Some(0) else CheckedFee(Pot(r), s.config.feeBps);
      if fee.None? || !InI128(s.fees + fee.value) then Failure(Overflow)
      else Success(s.(fees := s.fees + fee.value, rounds := s.rounds[id := r]))
  }

  predicate Wins(side: Side, outcome: Outcome) {
    (side == Up && outcome == UpWon) || (side == Down && outcome == DownWon)
  }

  function WinningPool(r: Round): nat {
    if r.outcome == UpWon then r.poolUp else r.poolDown
  }

  function Distributed(r: Round, feeBps: nat): int {
    Pot(r) - Fee(Pot(r), feeBps)
  }

  // What a position is paid when the fee stands at feeBps.
  function Payout(r: Round, feeBps: nat, p: Position): int {
    if r.outcome == Void then p.amount
    else if !Wins(p.side, r.outcome) || WinningPool(r) == 0 then 0
    else Quot(p.amount * Distributed(r, feeBps), WinningPool(r))
  }

  function CheckedPayout(r: Round, feeBps: nat, p: Position): (v: Option<int>)
    ensures v.Some? ==> v.value == Payout(r, feeBps, p)
  {
    if r.outcome == Void then Some(p.amount)
    else if !Wins(p.side, r.outcome) then Some(0)
    else
      var fee := CheckedFee(Pot(r), feeBps);
      if fee.None? || !InI128(Distributed(r, feeBps)) || !InI128(p.amount * Distributed(r, feeBps))
         || WinningPool(r) == 0 then None
      else Some(Payout(r, feeBps, p))
  }

  // What one id is worth to a user right now.
  function Due(rounds: Rounds, ps: Positions, feeBps: nat, user: Address, id: nat): Option<int> {
    if id in rounds && rounds[id].status == Settled && (id, user) in ps && !ps[(id, user)].claimed
    then CheckedPayout(rounds[id], feeBps, ps[(id, user)])
    else Some(0)
  }

  function Mark(rounds: Rounds, ps: Positions, user: Address, id: nat): Positions {
    if id in rounds && rounds[id].status == Settled && (id, user) in ps
    then ps[(id, user) := ps[(id, user)].(claimed := true)]
    else ps
  }

  function PayUser(t: Balances, user: Address, amount: int): Result<Balances, Error> {
    if amount > 0 then
      var token := Transfer(t, SELF, user, amount);
      if token.Failure? then Failure(TokenFailed(token.error)) else Success(token.value)
    else Success(t)
  }

  // The state after a claim, and what it paid.
  datatype Receipt = Receipt(s: State, paid: int)

  // The positions partway through a batch, and what it is worth so far.
  datatype Batch = Batch(positions: Positions, total: int)

  function Claim(s: State, user: Address, id: nat): Result<Receipt, Error> {
    if user == SELF then Failure(Unauthorized)
    else
      var due := Due(s.rounds, s.positions, s.config.feeBps, user, id);
      if due.None? then Failure(Overflow)
      else
        var token := PayUser(s.token, user, due.value);
        if token.Failure? then Failure(token.error)
        else Success(Receipt(s.(positions := Mark(s.rounds, s.positions, user, id), token := token.value), due.value))
  }

  // The positions and the running total after claiming the listed ids in turn.
  function ClaimIds(rounds: Rounds, ps: Positions, feeBps: nat, user: Address, ids: seq<nat>): Option<Batch>
  {
    if ids == [] then Some(Batch(ps, 0))
    else
      var before := ClaimIds(rounds, ps, feeBps, user, ids[..|ids| - 1]);
      if before.None? then None
      else
        var due := Due(rounds, before.value.positions, feeBps, user, ids[|ids| - 1]);
        if due.None? || !InI128(before.value.total + due.value) then None
        else Some(Batch(Mark(rounds, before.value.positions, user, ids[|ids| - 1]), before.value.total + due.value))
  }

  function ClaimMany(s: State, user: Address, ids: seq<nat>): Result<Receipt, Error> {
    if user == SELF then Failure(Unauthorized)
    else if MAX_CLAIM_BATCH < |ids| then Failure(ClaimBatchTooLarge)
    else
      var all := ClaimIds(s.rounds, s.positions, s.config.feeBps, user, ids);
      if all.None? then Failure(Overflow)
      else
        var token := PayUser(s.token, user, all.value.total);
        if token.Failure? then Failure(token.error)
        else Success(Receipt(s.(positions := all.value.positions, token := token.value), all.value.total))
  }

  function SweepFees(s: State): Result<State, Error> {
    if s.fees > 0 then
      var token := Transfer(s.token, SELF, s.config.admin, s.fees);
      if token.Failure? then Failure(TokenFailed(token.error))
      else Success(s.(token := token.value, fees := 0))
    else Success(s)
  }

  function SetFeeBps(s: State, bps: nat): Result<State, Error> {
    if MAX_FEE_BPS < bps then Failure(FeeTooHigh)
    else Success(s.(config := s.config.(feeBps := bps)))
  }

  function SetLockOffset(s: State, seconds: nat): Result<State, Error> {
    if seconds < MIN_LOCK_OFFSET then Failure(LockOffsetTooSmall)
    else Success(s.(config := s.config.(lockOffset := seconds)))
  }

  // ----- Runs ----------------------------------------------------------------

  datatype Action =
    | DoCreate(asset: Symbol, tick: Option<PriceData>)
    | DoBet(user: Address, id: nat, side: Side, amount: int)
    | DoSettle(id: nat)
    | DoClaim(user: Address, id: nat)
    | DoClaimMany(user: Address, ids: seq<nat>)
    | DoSweep
    | DoSetFee(bps: nat)
    | DoSetLockOffset(seconds: nat)
    | Tick(to: nat)
    | ExpireRound(id: nat)
    | ExpirePosition(id: nat, user: Address)
    | Pay(from: Address, to: Address, amount: int)

  function Step(feed: Feed<Symbol>, s: State, a: Action): Result<State, Error> {
    match a
    case DoCreate(asset, tick) =>
      var r := CreateRound(s, asset, tick);
      if r.Success? then Success(r.value.0) else Failure(r.error)
    case DoBet(user, id, side, amount) => PlaceBet(s, user, id, side, amount)
    case DoSettle(id) => Settle(feed, s, id)
    case DoClaim(user, id) =>
      var r := Claim(s, user, id);
      if r.Success? then Success(r.value.s) else Failure(r.error)
    case DoClaimMany(user, ids) =>
      var r := ClaimMany(s, user, ids);
      if r.Success? then Success(r.value.s) else Failure(r.error)
    case DoSweep => SweepFees(s)
    case DoSetFee(bps) => SetFeeBps(s, bps)
    case DoSetLockOffset(seconds) => SetLockOffset(s, seconds)
    case Tick(to) => Success(if s.now <= to then s.(now := to) else s)
    case ExpireRound(id) => Success(s.(rounds := s.rounds - {id}))
    case ExpirePosition(id, user) => Success(s.(positions := s.positions - {(id, user)}))
    case Pay(from, to, amount) =>
      var token := Transfer(s.token, from, to, amount);
      if from == SELF then Failure(Unauthorized)
      else if token.Failure? then Failure(TokenFailed(token.error))
      else Success(s.(token := token.value))
  }

  // The state together with what storage forgets: the fee in force when each
  // round was settled, and every bet each round ever accepted.
  datatype World = World(s: State, feeAtSettle: map<nat, nat>, wagers: map<nat, seq<Wager<Side>>>)

  function WagersOf(w: World, id: nat): seq<Wager<Side>> {
    if id in w.wagers then w.wagers[id] else []
  }

  function Next(feed: Feed<Symbol>, w: World, a: Action): World {
    var r := Step(feed, w.s, a);
    if r.Failure? then w
    else
      match a
      case DoSettle(id) => w.(s := r.value, feeAtSettle := w.feeAtSettle[id := w.s.config.feeBps])
      case DoBet(user, id, side, amount) =>
        var wager := Wager(user, side, if amount < 0 then 0 else amount, w.s.now);
        w.(s := r.value, wagers := w.wagers[id := WagersOf(w, id) + [wager]])
      case _ => w.(s := r.value)
  }

  function Run(feed: Feed<Symbol>, w: World, actions: seq<Action>): World
    decreases |actions|
  {
    if actions == [] then w else Run(feed, Next(feed, w, actions[0]), actions[1..])
  }
}

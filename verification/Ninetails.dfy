// The Ninetails market (wick-predict): its records and, for every entry point,
// the state a successful call leads to. A call that panics answers Failure and
// leaves the state as it was.

module Ninetails {
  import opened Wrappers
  import opened Checked
  import opened Fees
  import opened Token
  import opened Oracle
  import opened NinetailsMath

  type Symbol = string

  const MIN_LOCK_OFFSET: nat := 10

  datatype Error =
    | RoundNotFound | RoundLocked | RoundNotSettled | AlreadySettled | TooEarly | BetTooSmall | AlreadyBet
    | NothingToClaim | FeeTooHigh | LockOffsetTooSmall | LockOffsetTooLate | DuplicateRound | OracleNoPrice
    | Unauthorized | Overflow | TokenFailed(cause: TokenError)

  datatype Side = Above | Below
  datatype Outcome = AboveWon | BelowWon | Void
  datatype Status = Open | Settled

  datatype Round = Round(
    strike: int, strikeTs: nat, lockTs: nat, settleTs: nat,
    poolAbove: nat, poolBelow: nat, boostedAbove: nat, boostedBelow: nat, globalBoosted: nat,
    status: Status, outcome: Outcome, settlePrice: int)

  datatype Position = Position(side: Side, amount: nat, boosted: nat, claimed: bool)

  datatype Config = Config(admin: Address, asset: Symbol, feeBps: nat, minBet: int, lockOffset: nat, interval: nat)

  type Positions = map<(nat, Address), Position>

  datatype State = State(
    config: Config, counter: nat, fees: int, lastStrikeTs: nat,
    rounds: map<nat, Round>, positions: Positions,
    token: Balances, now: nat)

  function Initialize(config: Config, token: Balances, now: nat): Result<State, Error> {
    if MAX_FEE_BPS < config.feeBps then Failure(FeeTooHigh)
    else if config.lockOffset < MIN_LOCK_OFFSET then Failure(LockOffsetTooSmall)
    else Success(State(config, 0, 0, 0, map[], map[], token, now))
  }

  function CreateRound(s: State, tick: Option<PriceData>): Result<(State, nat), Error> {
    if tick.None? then Failure(OracleNoPrice)
    else
      var strikeTs, id := tick.value.timestamp, s.counter + 1;
      var lockTs, settleTs := strikeTs + s.config.lockOffset, strikeTs + s.config.interval;
      if s.lastStrikeTs == strikeTs then Failure(DuplicateRound)
      else if U64_MAX < id || U64_MAX < lockTs || U64_MAX < settleTs then Failure(Overflow)
      else
        var r := Round(tick.value.price, strikeTs, lockTs, settleTs, 0, 0, 0, 0, 0, Open, Void, 0);
        Success((s.(counter := id, rounds := s.rounds[id := r], lastStrikeTs := strikeTs), id))
  }

  // The round with a stake added, if its totals stay inside i128.
  function AddStake(r: Round, side: Side, amount: nat, boosted: nat): Option<Round> {
    var r' := match side
      case Above => r.(poolAbove := r.poolAbove + amount, boostedAbove := r.boostedAbove + boosted,
                       globalBoosted := r.globalBoosted + boosted)
      case Below => r.(poolBelow := r.poolBelow + amount, boostedBelow := r.boostedBelow + boosted,
                       globalBoosted := r.globalBoosted + boosted);
    if TotalsFit(r') then Some(r') else None
  }

  predicate TotalsFit(r: Round) {
    && r.poolAbove <= I128_MAX && r.poolBelow <= I128_MAX
    && r.boostedAbove <= I128_MAX && r.boostedBelow <= I128_MAX && r.globalBoosted <= I128_MAX
  }

  function PlaceBet(s: State, user: Address, id: nat, side: Side, amount: int): Result<State, Error> {
    if user == SELF then Failure(Unauthorized)
    else if amount < s.config.minBet then Failure(BetTooSmall)
    else if id !in s.rounds then Failure(RoundNotFound)
    else if s.rounds[id].lockTs <= s.now || s.rounds[id].status != Open then Failure(RoundLocked)
    else if (id, user) in s.positions then Failure(AlreadyBet)
    else
      var boosted := BoostedShares(amount, s.now, s.rounds[id].lockTs);
      var token := Transfer(s.token, user, SELF, amount);
      if boosted.None? then Failure(Overflow)
      else if token.Failure? then Failure(TokenFailed(token.error))
      else
        var r := AddStake(s.rounds[id], side, amount, boosted.value);
        if r.None? then Failure(Overflow)
        else
          var p := Position(side, amount, boosted.value, false);
          Success(s.(rounds := s.rounds[id := r.value], positions := s.positions[(id, user) := p],
                     token := token.value))
  }

  function Verdict(price: Option<PriceData>, r: Round): Outcome {
    if r.poolAbove == 0 || r.poolBelow == 0 || price.None? then Void
    else if price.value.price > r.strike then AboveWon
    else if price.value.price < r.strike then BelowWon
    else Void
  }

  function LosingPool(r: Round): nat {
    if r.outcome == AboveWon then r.poolBelow else r.poolAbove
  }

  function SettledRound(r: Round, price: Option<PriceData>): Round {
    r.(outcome := Verdict(price, r), status := Settled,
       settlePrice := if price.Some? then price.value.price else r.settlePrice)
  }

  function Settle(feed: Feed<Symbol>, s: State, id: nat): Result<State, Error> {
    if id !in s.rounds then Failure(RoundNotFound)
    else if s.rounds[id].status == Settled then Failure(AlreadySettled)
    else if s.now < s.rounds[id].settleTs then Failure(TooEarly)
    else
      var r := SettledRound(s.rounds[id], feed(s.config.asset, s.rounds[id].settleTs));
      var fee := if r.outcome == Void then Some(0) else FeeAmount(LosingPool(r), s.config.feeBps);
      if fee.None? || !InI128(s.fees + fee.value) then Failure(Overflow)
      else Success(s.(fees := s.fees + fee.value, rounds := s.rounds[id := r]))
  }

  predicate Wins(side: Side, outcome: Outcome) {
    (side == Above && outcome == AboveWon) || (side == Below && outcome == BelowWon)
  }

  function SideBoosted(r: Round): nat {
    if r.outcome == AboveWon then r.boostedAbove else r.boostedBelow
  }

  // What a position is paid when the fee stands at feeBps.
  function Payout(r: Round, feeBps: nat, p: Position): int {
    if r.outcome == Void then p.amount
    else
      var d := LosingPool(r) - Fee(LosingPool(r), feeBps);
      if Wins(p.side, r.outcome) then WinnerPayout(p.amount, d, p.boosted, SideBoosted(r), r.globalBoosted)
      else LoserPayout(d, p.boosted, r.globalBoosted)
  }

  function CheckedPayout(r: Round, feeBps: nat, p: Position): (v: Option<int>)
    ensures v.Some? ==> v.value == Payout(r, feeBps, p)
  {
    if r.outcome == Void then Some(p.amount)
    else
      var fee := FeeAmount(LosingPool(r), feeBps);
      if fee.None? || !InI128(LosingPool(r) - fee.value) then None
      else
        var d := LosingPool(r) - fee.value;
        if Wins(p.side, r.outcome) then
          CheckedWinnerPayout(p.amount, d, p.boosted, SideBoosted(r), r.globalBoosted)
        else CheckedLoserPayout(d, p.boosted, r.globalBoosted)
  }

  function Claim(s: State, user: Address, id: nat): Result<(State, int), Error> {
    if user == SELF then Failure(Unauthorized)
    else if id !in s.rounds then Failure(RoundNotFound)
    else if s.rounds[id].status != Settled then Failure(RoundNotSettled)
    else if (id, user) !in s.positions || s.positions[(id, user)].claimed then Failure(NothingToClaim)
    else
      var p := s.positions[(id, user)];
      var payout := CheckedPayout(s.rounds[id], s.config.feeBps, p);
      if payout.None? then Failure(Overflow)
      else
        var token := if payout.value > 0 then Transfer(s.token, SELF, user, payout.value) else Success(s.token);
        if token.Failure? then Failure(TokenFailed(token.error))
        else
          Success((s.(positions := s.positions[(id, user) := p.(claimed := true)], token := token.value),
                   payout.value))
  }

  function SweepFees(s: State): Result<State, Error> {
    if s.fees > 0 then
      var token := Transfer(s.token, SELF, s.config.admin, s.fees);
      if token.Failure? then Failure(TokenFailed(token.error))
      else Success(s.(token := token.value, fees := 0))
    else Success(s)
  }

  function SetFeeBps(s: State, bps: nat): Result<State, Error> {
    if MAX_FEE_BPS < bps then Failure(FeeTooHigh)
    else Success(s.(config := s.config.(feeBps := bps)))
  }

  function SetLockOffset(s: State, seconds: nat): Result<State, Error> {
    if seconds < MIN_LOCK_OFFSET then Failure(LockOffsetTooSmall)
    else if s.config.interval <= seconds then Failure(LockOffsetTooLate)
    else Success(s.(config := s.config.(lockOffset := seconds)))
  }

  function SetInterval(s: State, seconds: nat): Result<State, Error> {
    if seconds <= s.config.lockOffset then Failure(LockOffsetTooLate)
    else Success(s.(config := s.config.(interval := seconds)))
  }

  // ----- Runs ----------------------------------------------------------------

  // Everything that can happen: the entry points, the passing of time, the
  // expiry of a temporary entry, and token transfers by anybody else.
  datatype Action =
    | DoCreate(tick: Option<PriceData>)
    | DoBet(user: Address, id: nat, side: Side, amount: int)
    | DoSettle(id: nat)
    | DoClaim(user: Address, id: nat)
    | DoSweep
    | DoSetFee(bps: nat)
    | DoSetLockOffset(seconds: nat)
    | DoSetInterval(seconds: nat)
    | Tick(to: nat)
    | ExpireRound(id: nat)
    | ExpirePosition(id: nat, user: Address)
    | Pay(from: Address, to: Address, amount: int)

  function Step(feed: Feed<Symbol>, s: State, a: Action): Result<State, Error> {
    match a
    case DoCreate(tick) =>
      var r := CreateRound(s, tick);
      if r.Success? then Success(r.value.0) else Failure(r.error)
    case DoBet(user, id, side, amount) => PlaceBet(s, user, id, side, amount)
    case DoSettle(id) => Settle(feed, s, id)
    case DoClaim(user, id) =>
      var r := Claim(s, user, id);
      if r.Success? then Success(r.value.0) else Failure(r.error)
    case DoSweep => SweepFees(s)
    case DoSetFee(bps) => SetFeeBps(s, bps)
    case DoSetLockOffset(seconds) => SetLockOffset(s, seconds)
    case DoSetInterval(seconds) => SetInterval(s, seconds)
    case Tick(to) => Success(if s.now <= to then s.(now := to) else s)
    case ExpireRound(id) => Success(s.(rounds := s.rounds - {id}))
    case ExpirePosition(id, user) => Success(s.(positions := s.positions - {(id, user)}))
    case Pay(from, to, amount) =>
      var token := Transfer(s.token, from, to, amount);
      if from == SELF then Failure(Unauthorized)
      else if token.Failure? then Failure(TokenFailed(token.error))
      else Success(s.(token := token.value))
  }

  // The state together with what the contract forgets: the fee in force when
  // each round was settled.
  datatype World = World(s: State, feeAtSettle: map<nat, nat>)

  function Next(feed: Feed<Symbol>, w: World, a: Action): World {
    match Step(feed, w.s, a)
    case Failure(_) => w
    case Success(s') => World(s', if a.DoSettle? then w.feeAtSettle[a.id := w.s.config.feeBps] else w.feeAtSettle)
  }

  function Run(feed: Feed<Symbol>, w: World, actions: seq<Action>): World
    decreases |actions|
  {
    if actions == [] then w else Run(feed, Next(feed, w, actions[0]), actions[1..])
  }
}

// The claimable amount the API quotes for a settled bet, as the exact rational
// its SQL expression denotes, against what the contract pays.

module ApiQuote {
  import opened Checked
  import opened Fees
  import opened Sums
  import opened Token
  import opened Oracle
  import opened FairMarket
  import opened FairMarketSolvency

  // One row of the query: a bet joined with its settled round.
  datatype Row = Row(side: Side, amount: nat, outcome: Outcome, poolUp: nat, poolDown: nat)

  function RowOf(r: Round, p: Position): Row {
    Row(p.side, p.amount, r.outcome, r.poolUp, r.poolDown)
  }

  // The pool the CASE expression divides by.
  function QuotePool(b: Row): nat {
    if b.outcome == UpWon then b.poolUp else b.poolDown
  }

  function Claimable(b: Row, feeBps: nat): real
    requires Wins(b.side, b.outcome) ==> 0 < QuotePool(b)
  {
    if b.outcome == Void then b.amount as real
    else if Wins(b.side, b.outcome) then
      (b.amount * (b.poolUp + b.poolDown) * (10_000 - feeBps)) as real / 10_000.0 / QuotePool(b) as real
    else 0.0
  }

  // The rows the endpoint keeps.
  predicate Listed(b: Row, feeBps: nat)
    requires Wins(b.side, b.outcome) ==> 0 < QuotePool(b)
  {
    Claimable(b, feeBps) > 0.0
  }

  // The two roundings, one after the other.
  lemma TwoFloors(exact: int, ad: int, paid: int, amount: nat, pool: nat)
    requires amount <= pool && exact <= 10_000 * ad <= exact + 9_999 * amount && paid <= ad < paid + pool
    ensures exact - 10_000 * pool < 10_000 * paid < exact + 10_000 * pool
  {}

  lemma NetOfFee(pot: nat, feeBps: nat)
    requires feeBps <= DENOM
    ensures var (net, d) := (pot * (10_000 - feeBps), pot - Fee(pot, feeBps));
            0 <= d && net <= 10_000 * d <= net + 9_999
  {
    FeeWithin(pot, feeBps);
    QuotBounds(pot * feeBps, DENOM);
    assert pot * (10_000 - feeBps) == 10_000 * pot - pot * feeBps;
  }

  lemma Shared(amount: nat, net: int, d: nat)
    requires net <= 10_000 * d <= net + 9_999
    ensures 0 <= amount * d && amount * net <= 10_000 * (amount * d) <= amount * net + 9_999 * amount
  {
    MulMono(amount, 0, d);
    MulMono(amount, net, 10_000 * d);
    MulMono(amount, 10_000 * d, net + 9_999);
    assert amount * (net + 9_999) == amount * net + 9_999 * amount && amount * (10_000 * d) == 10_000 * (amount * d);
  }

  lemma Regroup(amount: nat, pot: nat, keep: nat, pool: nat, pay: int)
    ensures amount * pot * keep == amount * (pot * keep) && DENOM * pool * pay == 10_000 * (pool * pay)
  {}

  // Multiplied out: the two roundings together move the payout by less than
  // one whole unit of 10000 * pool.
  lemma ScaledGap(amount: nat, pot: nat, pool: nat, feeBps: nat)
    requires 0 < pool && amount <= pool && feeBps <= DENOM
    ensures var pay := Quot(amount * (pot - Fee(pot, feeBps)), pool);
            var exact := amount * pot * (10_000 - feeBps);
            && 0 <= pay
            && exact - DENOM * pool < DENOM * pool * pay < exact + DENOM * pool
  {
    var d := pot - Fee(pot, feeBps);
    NetOfFee(pot, feeBps);
    Shared(amount, pot * (10_000 - feeBps), d);
    QuotBounds(amount * d, pool);
    var pay := Quot(amount * d, pool);
    TwoFloors(amount * (pot * (10_000 - feeBps)), amount * d, pool * pay, amount, pool);
    Regroup(amount, pot, 10_000 - feeBps, pool, pay);
  }

  lemma CastMul(x: int, y: int)
    ensures (x * y) as real == x as real * y as real
  {}

  lemma TwoDivisions(e: real, w: real)
    requires 0.0 < w
    ensures (e / 10_000.0 / w) * (10_000.0 * w) == e
  {
    var h := e / 10_000.0;
    assert (h / w) * w == h;
    assert (h / w) * (10_000.0 * w) == ((h / w) * w) * 10_000.0;
  }

  lemma DivideBy(gap: real, scale: real, product: real)
    requires 0.0 < scale && product == gap * scale && -scale < product < scale
    ensures -1.0 < gap < 1.0
  {
    assert (1.0 - gap) * scale == scale - product;
    assert (1.0 + gap) * scale == scale + product;
  }

  lemma RealGap(e: real, pay: real, quote: real, scale: real)
    requires 0.0 < scale && quote * scale == e
    requires e - scale < pay * scale < e + scale
    ensures -1.0 < pay - quote < 1.0
  {
    var product := (pay - quote) * scale;
    assert product == pay * scale - quote * scale;
    DivideBy(pay - quote, scale, product);
  }

  // The same gap after dividing through.
  lemma Divided(exact: nat, pool: nat, pay: int)
    requires 0 < pool && exact - DENOM * pool < DENOM * pool * pay < exact + DENOM * pool
    ensures -1.0 < pay as real - exact as real / 10_000.0 / pool as real < 1.0
  {
    var lots := DENOM * pool;
    CastMul(lots, pay);
    var scale := lots as real;
    assert scale == 10_000.0 * pool as real;
    TwoDivisions(exact as real, pool as real);
    RealGap(exact as real, pay as real, exact as real / 10_000.0 / pool as real, scale);
  }

  lemma GapAt(amount: nat, pot: nat, pool: nat, feeBps: nat, pay: int, quote: real)
    requires 0 < pool && amount <= pool && feeBps <= DENOM
    requires pay == Quot(amount * (pot - Fee(pot, feeBps)), pool)
    requires quote == (amount * pot * (10_000 - feeBps)) as real / 10_000.0 / pool as real
    ensures -1.0 < pay as real - quote < 1.0
  {
    ScaledGap(amount, pot, pool, feeBps);
    KeepNonNeg(amount, pot, feeBps);
    Divided(amount * pot * (10_000 - feeBps), pool, pay);
  }

  lemma KeepNonNeg(amount: nat, pot: nat, feeBps: nat)
    requires feeBps <= DENOM
    ensures 0 <= amount * pot * (10_000 - feeBps)
  {
    MulMono(amount, 0, pot);
    MulMono(amount * pot, 0, 10_000 - feeBps);
  }

  lemma PayoutIs(r: Round, p: Position, feeBps: nat)
    requires Decided(r) && Wins(p.side, r.outcome)
    ensures Payout(r, feeBps, p) == Quot(p.amount * (Pot(r) - Fee(Pot(r), feeBps)), WinningPool(r))
  {}

  lemma QuoteIs(r: Round, p: Position, feeBps: nat)
    requires Decided(r) && Wins(p.side, r.outcome)
    ensures Claimable(RowOf(r, p), feeBps)
         == (p.amount * Pot(r) * (10_000 - feeBps)) as real / 10_000.0 / WinningPool(r) as real
  {}

  lemma WinnersGap(r: Round, p: Position, feeBps: nat)
    requires Decided(r) && Wins(p.side, r.outcome) && p.amount <= WinningPool(r) && feeBps <= DENOM
    ensures -1.0 < Payout(r, feeBps, p) as real - Claimable(RowOf(r, p), feeBps) < 1.0
  {
    PayoutIs(r, p, feeBps);
    QuoteIs(r, p, feeBps);
    GapAt(p.amount, Pot(r), WinningPool(r), feeBps, Payout(r, feeBps, p), Claimable(RowOf(r, p), feeBps));
  }

  // The quote and the on-chain payout round in different places, yet differ by
  // strictly less than one stroop for every position of a settled round at the
  // same fee.
  lemma QuoteWithinOneStroop(r: Round, p: Position, feeBps: nat)
    requires r.outcome != Void ==> Decided(r)
    requires p.amount <= (if p.side == Up then r.poolUp else r.poolDown) && feeBps <= DENOM
    ensures -1.0 < Payout(r, feeBps, p) as real - Claimable(RowOf(r, p), feeBps) < 1.0
    ensures r.outcome == Void || !Wins(p.side, r.outcome) ==>
              Payout(r, feeBps, p) as real == Claimable(RowOf(r, p), feeBps)
  {
    if r.outcome != Void && Wins(p.side, r.outcome) {
      WinnersGap(r, p, feeBps);
    }
  }

  lemma StakeWithinPool(r: Round, ps: Positions, id: nat, user: Address)
    requires Covered(r, ps, id) && (id, user) in ps
    ensures ps[(id, user)].amount <= (if ps[(id, user)].side == Up then r.poolUp else r.poolDown)
  {
    TotalAtLeast(ps, id, user, StakeOn(ps[(id, user)].side));
  }

  lemma QuoteAgrees(w: World, user: Address, id: nat)
    requires Shape(w) && id in w.s.rounds && w.s.rounds[id].status == Settled && (id, user) in w.s.positions
    ensures var (r, p) := (w.s.rounds[id], w.s.positions[(id, user)]);
            && (Wins(p.side, r.outcome) ==> 0 < QuotePool(RowOf(r, p)))
            && -1.0 < Payout(r, w.s.config.feeBps, p) as real - Claimable(RowOf(r, p), w.s.config.feeBps) < 1.0
  {
    assert RoundInv(w, id);
    StakeWithinPool(w.s.rounds[id], w.s.positions, id, user);
    QuoteWithinOneStroop(w.s.rounds[id], w.s.positions[(id, user)], w.s.config.feeBps);
  }

  // In particular for every settled position of every state a run reaches,
  // however the fee was changed along it.
  lemma QuotesAgreeInEveryRun(feed: Feed<Symbol>, w: World, actions: seq<Action>, user: Address, id: nat)
    requires Shape(w)
    requires var s := Run(feed, w, actions).s;
             id in s.rounds && s.rounds[id].status == Settled && (id, user) in s.positions
    ensures var s := Run(feed, w, actions).s;
            var (r, p) := (s.rounds[id], s.positions[(id, user)]);
            && (Wins(p.side, r.outcome) ==> 0 < QuotePool(RowOf(r, p)))
            && -1.0 < Payout(r, s.config.feeBps, p) as real - Claimable(RowOf(r, p), s.config.feeBps) < 1.0
  {
    AlwaysShaped(feed, w, actions);
    QuoteAgrees(Run(feed, w, actions), user, id);
  }

  // The filter hides nothing that can be claimed.
  lemma PayableIsListed(r: Round, p: Position, feeBps: nat)
    requires r.outcome != Void ==> Decided(r)
    requires feeBps < DENOM && 0 < Payout(r, feeBps, p)
    ensures Listed(RowOf(r, p), feeBps)
  {
    if r.outcome != Void && Wins(p.side, r.outcome) {
      FeeWithin(Pot(r), feeBps);
      if p.amount == 0 {
        QuotUnique(0, WinningPool(r), 0);
      }
      assert 0 < p.amount * Pot(r) * (10_000 - feeBps) by {
        MulPositive(p.amount, Pot(r));
        MulPositive(p.amount * Pot(r), 10_000 - feeBps);
      }
      PositiveQuotient((p.amount * Pot(r) * (10_000 - feeBps)) as real / 10_000.0, WinningPool(r) as real);
    }
  }

  lemma MulPositive(x: nat, y: nat)
    requires 0 < x && 0 < y
    ensures 0 < x * y
  {}

  lemma PositiveQuotient(x: real, y: real)
    requires 0.0 < x && 0.0 < y
    ensures 0.0 < x / y
  {}
}

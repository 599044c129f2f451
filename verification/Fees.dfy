// The fee in basis points that all three markets charge.

module Fees {
  import opened Checked

  const DENOM: int := 10_000

  function Fee(amount: int, feeBps: nat): int {
    Quot(amount * feeBps, DENOM)
  }

  lemma FeeWithin(amount: nat, feeBps: nat)
    requires feeBps <= DENOM
    ensures 0 <= Fee(amount, feeBps) <= amount
  {
    MulMono(amount, feeBps, DENOM);
    QuotBounds(amount * feeBps, DENOM);
  }

  lemma FeeMono(amount: nat, low: nat, high: nat)
    requires low <= high
    ensures Fee(amount, low) <= Fee(amount, high)
  {
    MulMono(amount, low, high);
    QuotMono(amount * low, amount * high, DENOM);
  }

  // The fee in hundredths of a percent, rounded down.
  predicate IsFee(fee: int, amount: nat, bps: nat) {
    10_000 * fee <= amount * bps < 10_000 * fee + 10_000
  }

  lemma FeeIs(amount: nat, bps: nat)
    ensures 0 <= Fee(amount, bps) && IsFee(Fee(amount, bps), amount, bps)
  {
    MulMono(amount, 0, bps);
    QuotBounds(amount * bps, DENOM);
  }

  lemma FeeDivides(amount: nat, bps: nat)
    requires bps <= 10_000
    ensures 0 <= Fee(amount, bps) == amount * bps / 10_000 <= amount
  {
    MulMono(amount, 0, bps);
    FeeWithin(amount, bps);
  }
}

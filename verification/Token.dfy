// The token contract, reduced to a balance sheet and a transfer that fails on
// a negative amount, a missing balance or an overflowing recipient.

module Token {
  import opened Wrappers
  import opened Checked

  type Address = nat

  // The market contract's own address.
  const SELF: Address := 0

  type Balances = map<Address, int>

  datatype TokenError = NegativeAmount | InsufficientBalance | RecipientOverflow

  function Bal(t: Balances, a: Address): int {
    if a in t then t[a] else 0
  }

  ghost predicate Valid(t: Balances) {
    forall a :: a in t ==> 0 <= t[a] <= I128_MAX
  }

  // An amount went from one account to another, and nothing else happened.
  ghost predicate Transferred(t: Balances, t': Balances, from: Address, to: Address, amount: int) {
    && 0 <= amount
    && (from != to ==> Bal(t', from) == Bal(t, from) - amount && Bal(t', to) == Bal(t, to) + amount)
    && (forall a :: (a != from && a != to) || from == to ==> Bal(t', a) == Bal(t, a))
  }

  function Transfer(t: Balances, from: Address, to: Address, amount: int): (r: Result<Balances, TokenError>)
    ensures r.Success? ==> 0 <= amount <= Bal(t, from)
    ensures r.Success? && from != to ==>
              Bal(r.value, from) == Bal(t, from) - amount && Bal(r.value, to) == Bal(t, to) + amount
    ensures r.Success? && from == to ==> Bal(r.value, from) == Bal(t, from)
    ensures r.Success? ==> forall a :: a != from && a != to ==> Bal(r.value, a) == Bal(t, a)
    ensures r.Success? && Valid(t) ==> Valid(r.value)
    ensures r == Failure(InsufficientBalance) ==> Bal(t, from) < amount
  {
    if amount < 0 then Failure(NegativeAmount)
    else if Bal(t, from) < amount then Failure(InsufficientBalance)
    else
      var paid := t[from := Bal(t, from) - amount];
      if I128_MAX < Bal(paid, to) + amount then Failure(RecipientOverflow)
      else Success(paid[to := Bal(paid, to) + amount])
  }
}

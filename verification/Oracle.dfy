// The price oracle (the `price` function of SEP-40): any function of the asset
// and the timestamp asked for.

module Oracle {
  import opened Wrappers

  datatype PriceData = PriceData(price: int, timestamp: nat)

  type Feed<!A> = (A, nat) -> Option<PriceData>
}

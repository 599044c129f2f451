// What a change to one round leaves alone, in a market that keeps numbered
// rounds and a ledger of positions.

module Frames {
  import opened Sums
  import opened Token

  // An accepted bet, as history remembers it.
  datatype Wager<S> = Wager(user: Address, side: S, amount: nat, ts: nat)

  ghost predicate SameEntries<G(!new), U(!new), P>(ps: Ledger<G, U, P>, ps': Ledger<G, U, P>, g: G) {
    && (forall k: (G, U) :: k.0 == g ==> (k in ps <==> k in ps'))
    && (forall k :: k in ps && k.0 == g ==> ps[k] == ps'[k])
  }

  ghost predicate SameElsewhere<G(!new), U(!new), P>(ps: Ledger<G, U, P>, ps': Ledger<G, U, P>, g: G) {
    && (forall k: (G, U) :: k.0 != g ==> (k in ps <==> k in ps'))
    && (forall k :: k in ps && k.0 != g ==> ps[k] == ps'[k])
  }

  lemma ElsewhereSame<G(!new), U(!new), P>(ps: Ledger<G, U, P>, g: G, u: U, p: P)
    ensures SameElsewhere(ps, ps[(g, u) := p], g)
    ensures SameElsewhere(ps, ps - {(g, u)}, g)
  {}

  // The part of a market's history that solvency speaks of.
  datatype Store<R, U(==), P> = Store(
    counter: nat, rounds: map<nat, R>, positions: Ledger<nat, U, P>, feeAtSettle: map<nat, nat>)

  // Nothing changed but round id and its entries.
  ghost predicate Touches<R(!new), U(!new), P>(b: Store<R, U, P>, b': Store<R, U, P>, id: nat) {
    && b.counter <= b'.counter
    && b'.rounds - {id} == b.rounds - {id}
    && b'.feeAtSettle - {id} == b.feeAtSettle - {id}
    && SameElsewhere(b.positions, b'.positions, id)
  }

  // The ways the storage of one round is rewritten.
  lemma TouchesStorage<R(!new), U(!new), P>(b: Store<R, U, P>, b': Store<R, U, P>, id: nat)
    requires b.counter <= b'.counter
    requires b'.rounds == b.rounds || b'.rounds == b.rounds - {id}
             || (id in b'.rounds && b'.rounds == b.rounds[id := b'.rounds[id]])
    requires b'.feeAtSettle == b.feeAtSettle
             || (id in b'.feeAtSettle && b'.feeAtSettle == b.feeAtSettle[id := b'.feeAtSettle[id]])
    requires SameElsewhere(b.positions, b'.positions, id)
    ensures Touches(b, b', id)
  {
    assert b'.rounds - {id} == b.rounds - {id};
    assert b'.feeAtSettle - {id} == b.feeAtSettle - {id};
  }

  lemma OtherRound<R(!new), U(!new), P>(b: Store<R, U, P>, b': Store<R, U, P>, id: nat, j: nat)
    requires Touches(b, b', id) && j != id && j in b'.rounds
    ensures j in b.rounds && b'.rounds[j] == b.rounds[j]
    ensures j in b'.feeAtSettle <==> j in b.feeAtSettle
    ensures j in b.feeAtSettle ==> b'.feeAtSettle[j] == b.feeAtSettle[j]
    ensures SameEntries(b.positions, b'.positions, j)
  {
    assert j in b'.rounds - {id};
    assert j in b'.feeAtSettle - {id} <==> j in b.feeAtSettle - {id};
  }

  // Only the term of round id changes in a sum over the rounds.
  lemma HoldsChange<R(!new), U(!new), P>(b: Store<R, U, P>, b': Store<R, U, P>, id: nat,
                                         h: map<nat, int>, h': map<nat, int>)
    requires Touches(b, b', id) && h.Keys == b.rounds.Keys && h'.Keys == b'.rounds.Keys
    requires forall j :: j in h' && j != id && j in h ==> h'[j] == h[j]
    ensures Sum(h') == Sum(h) - At(h, id) + At(h', id)
  {
    assert (b'.rounds - {id}).Keys == (b.rounds - {id}).Keys;
    assert h'.Keys - {id} == h.Keys - {id};
    forall j | j in h && j != id
      ensures j in h' && h'[j] == h[j]
    {
      assert j in h.Keys - {id};
    }
    SumSwap(h, h', id);
  }
}

// The indexer as a process over its database: each table update, the
// transaction around an event, and one turn of the polling loop.

module IndexerService {
  import opened Wrappers
  import opened Indexer
  import opened IndexerRuns

  class Service {
    var rounds: map<RoundId, RoundRow>
    var bets: map<RowKey, Row>
    var claims: map<RowKey, Row>
    // The cursor table's one value, and the cursor the process works from.
    var stored: nat
    var cursor: nat

    ghost function T(): Tables
      reads this
    {
      Tables(rounds, bets, claims)
    }

    ghost function S(log: seq<Entry>): State
      reads this
    {
      State(log, T(), stored, cursor)
    }

    constructor ()
      ensures S([]) == FRESH.s
    {
      rounds, bets, claims, stored, cursor := map[], map[], map[], 0, 0;
    }

    method UpsertRound(r: RoundId, terms: Terms)
      modifies this`rounds
      ensures r in old(rounds) ==> rounds == old(rounds)
      ensures r !in old(rounds) ==> rounds == old(rounds)[r := RoundRow(terms, Pools(0, 0), None)]
    {
      if r !in rounds {
        rounds := rounds[r := NewRow(terms)];
      }
    }

    method UpdateRoundPools(r: RoundId, pools: Pools)
      modifies this`rounds
      ensures T() == WithPools(old(T()), r, pools)
    {
      if r in rounds {
        rounds := rounds[r := rounds[r].(pools := pools)];
      }
    }

    method SettleRound(r: RoundId, settlement: Settlement)
      modifies this`rounds
      ensures r in old(rounds) ==> rounds == old(rounds)[r := old(rounds)[r].(settlement := Some(settlement))]
      ensures r !in old(rounds) ==> rounds == old(rounds)
    {
      if r in rounds {
        rounds := rounds[r := rounds[r].(settlement := Some(settlement))];
      }
    }

    // False when the foreign key is broken.
    method InsertBet(key: RowKey, bet: Row, pools: Pools) returns (ok: bool)
      requires bet.BetRow?
      modifies this`rounds, this`bets
      ensures ok == (key in old(bets) || bet.round in old(rounds))
      ensures ok ==> T() == Record(old(T()), key.index, Entry(key.tx, BetPlaced(bet, pools)))
    {
      if key !in bets {
        if bet.round !in rounds { return false; }
        bets := bets[key := bet];
      }
      UpdateRoundPools(bet.round, pools);
      return true;
    }

    method InsertClaim(key: RowKey, claim: Row)
      modifies this`claims
      ensures key in old(claims) ==> claims == old(claims)
      ensures key !in old(claims) ==> claims == old(claims)[key := claim]
    {
      if key !in claims {
        claims := claims[key := claim];
      }
    }

    // A failed statement rolls the event's transaction back, and the loop goes
    // on to the next event.
    method ProcessEvent(e: Entry, i: nat)
      requires e.event.BetPlaced? ==> e.event.bet.BetRow?
      modifies this`rounds, this`bets, this`claims
      ensures T() == Record(old(T()), i, e)
    {
      var savedRounds, savedBets := rounds, bets;
      match e.event {
        case Created(r, terms) => UpsertRound(r, terms);
        case BetPlaced(bet, pools) =>
          var ok := InsertBet(RowKey(e.tx, i), bet, pools);
          if !ok {
            rounds, bets := savedRounds, savedBets;
          }
        case Settled(r, settlement) => SettleRound(r, settlement);
        case Claimed(claim) => InsertClaim(RowKey(e.tx, i), claim);
        case Other =>
      }
    }

    // Processes the page after the cursor and answers where the next begins; a
    // process that dies, or throws, `after` some of the events answers None.
    method Poll(log: seq<Entry>, after: Option<nat>) returns (next: Option<nat>)
      requires cursor <= |log|
      requires forall p :: 0 <= p < |log| && log[p].event.BetPlaced? ==> log[p].event.bet.BetRow?
      modifies this`rounds, this`bets, this`claims
      ensures var s := old(S(log));
              && (after.None? ==> next == Some(cursor + |Page(s)|) && T() == Replay(old(T()), Page(s)))
              && (after.Some? ==> next == None && T() == Replay(old(T()), Part(s, after.value)))
    {
      var end := if cursor + PAGE < |log| then cursor + PAGE else |log|;
      var events := log[cursor..end];
      for i := 0 to |events|
        invariant T() == Replay(old(T()), events[..i])
        invariant after.Some? ==> i <= after.value
      {
        if after == Some(i) { return None; }
        ProcessEvent(events[i], i);
        assert events[..i + 1][..i] == events[..i];
      }
      assert events[..|events|] == events;
      if after.Some? { return None; }
      return Some(cursor + |events|);
    }

    // One turn of the loop: a crash restarts the process from the stored
    // cursor; anything thrown leaves its own cursor where it was.
    method Turn(log: seq<Entry>, fate: Action)
      requires cursor <= |log| && stored <= |log| && !fate.Grow?
      requires forall p :: 0 <= p < |log| && log[p].event.BetPlaced? ==> log[p].event.bet.BetRow?
      modifies this
      ensures S(log) == Next(old(S(log)), fate)
    {
      var after := if fate.Crash? || fate.Fail? then Some(fate.after) else None;
      var next := Poll(log, after);
      if next.Some? && next.value != cursor {
        stored := next.value;
        if fate.Commit? {
          cursor := next.value;
        }
      }
      if fate.Crash? {
        cursor := stored;
      }
    }
  }
}

// The indexer's tables and what one decoded event does to them. A page of
// events is recorded in order, each event under its transaction hash and its
// index within the page; a page that was interrupted is recorded again from
// its start.

module Indexer {
  import opened Wrappers

  type TxHash = nat
  type RoundId = nat
  type Address = nat

  datatype Terms = Terms(asset: nat, strike: int, strikeTs: nat, lockTs: nat, settleTs: nat)
  datatype Pools = Pools(up: int, down: int)
  datatype Settlement = Settlement(outcome: nat, price: int)

  // A rounds row: its status is 'Settled' when it holds a settlement.
  datatype RoundRow = RoundRow(terms: Terms, pools: Pools, settlement: Option<Settlement>)
  datatype Row =
    | BetRow(round: RoundId, user: Address, side: nat, amount: int)
    | ClaimRow(round: RoundId, user: Address, payout: int)

  datatype Event =
    | Created(round: RoundId, terms: Terms)
    | BetPlaced(bet: Row, pools: Pools)
    | Settled(round: RoundId, settlement: Settlement)
    | Claimed(claim: Row)
    | Other

  datatype Entry = Entry(tx: TxHash, event: Event)

  // The unique key of the bets and claims tables.
  datatype RowKey = RowKey(tx: TxHash, index: nat)

  datatype Tables = Tables(rounds: map<RoundId, RoundRow>, bets: map<RowKey, Row>, claims: map<RowKey, Row>)

  const EMPTY: Tables := Tables(map[], map[], map[])

  function NewRow(terms: Terms): RoundRow {
    RoundRow(terms, Pools(0, 0), None)
  }

  function WithPools(t: Tables, r: RoundId, pools: Pools): Tables {
    if r in t.rounds then t.(rounds := t.rounds[r := t.rounds[r].(pools := pools)]) else t
  }

  // One event, in a transaction of its own. A bet on a round the rounds table
  // lacks breaks the foreign key and is rolled back; a bet or claim already
  // there is not inserted again, but the bet's pools are written all the same.
  function Record(t: Tables, i: nat, e: Entry): Tables {
    var key := RowKey(e.tx, i);
    match e.event
    case Created(r, terms) => if r in t.rounds then t else t.(rounds := t.rounds[r := NewRow(terms)])
    case BetPlaced(bet, pools) =>
      if key in t.bets then WithPools(t, bet.round, pools)
      else if bet.round !in t.rounds then t
      else WithPools(t.(bets := t.bets[key := bet]), bet.round, pools)
    case Settled(r, settlement) =>
      if r in t.rounds then t.(rounds := t.rounds[r := t.rounds[r].(settlement := Some(settlement))]) else t
    case Claimed(claim) => if key in t.claims then t else t.(claims := t.claims[key := claim])
    case Other => t
  }

  function Replay(t: Tables, page: seq<Entry>): Tables {
    if page == [] then t
    else Record(Replay(t, page[..|page| - 1]), |page| - 1, page[|page| - 1])
  }

  // ----- One round's row ---------------------------------------------------------------

  function Get(rounds: map<RoundId, RoundRow>, r: RoundId): Option<RoundRow> {
    if r in rounds then Some(rounds[r]) else None
  }

  function RowAfter(o: Option<RoundRow>, e: Event, r: RoundId): Option<RoundRow> {
    match e
    case Created(q, terms) => if q == r && o.None? then Some(NewRow(terms)) else o
    case BetPlaced(bet, pools) => if bet.round == r && o.Some? then Some(o.value.(pools := pools)) else o
    case Settled(q, settlement) => if q == r && o.Some? then Some(o.value.(settlement := Some(settlement))) else o
    case Claimed(_) => o
    case Other => o
  }

  function Fold(o: Option<RoundRow>, page: seq<Entry>, r: RoundId): Option<RoundRow> {
    if page == [] then o else RowAfter(Fold(o, page[..|page| - 1], r), page[|page| - 1].event, r)
  }

  // Rounds do not interfere: each row is a fold of its own events.
  lemma {:induction false} RoundsFold(t: Tables, page: seq<Entry>, r: RoundId)
    ensures Get(Replay(t, page).rounds, r) == Fold(Get(t.rounds, r), page, r)
  {
    if page == [] {
    } else {
      RoundsFold(t, page[..|page| - 1], r);
    }
  }

  lemma {:induction false} FoldSplit(o: Option<RoundRow>, p: seq<Entry>, q: seq<Entry>, r: RoundId)
    ensures Fold(o, p + q, r) == Fold(Fold(o, p, r), q, r)
  {
    if q == [] {
      assert p + q == p;
    } else {
      FoldSplit(o, p, q[..|q| - 1], r);
      assert (p + q)[..|p + q| - 1] == p + q[..|q| - 1];
    }
  }

  // ----- Orphans ------------------------------------------------------------------------

  predicate Concerns(e: Event, r: RoundId) {
    (e.BetPlaced? && e.bet.round == r) || (e.Settled? && e.round == r)
  }

  predicate CreatesIn(page: seq<Entry>, r: RoundId) {
    exists j :: 0 <= j < |page| && page[j].event.Created? && page[j].event.round == r
  }

  // No bet on, or settlement of, the round comes before its creation.
  ghost predicate NoOrphan(known: bool, page: seq<Entry>, r: RoundId) {
    known || forall i :: 0 <= i < |page| && Concerns(page[i].event, r) ==> CreatesIn(page[..i], r)
  }

  lemma {:induction false} FoldSome(o: Option<RoundRow>, page: seq<Entry>, r: RoundId)
    ensures Fold(o, page, r).Some? <==> o.Some? || CreatesIn(page, r)
  {
    if page == [] {
    } else {
      var front := page[..|page| - 1];
      FoldSome(o, front, r);
      assert page == front + [page[|page| - 1]];
      CreatesInMore(front, page[|page| - 1], r);
    }
  }

  lemma CreatesInMore(page: seq<Entry>, e: Entry, r: RoundId)
    ensures CreatesIn(page + [e], r) <==> CreatesIn(page, r) || (e.event.Created? && e.event.round == r)
  {
    var all := page + [e];
    if CreatesIn(page, r) {
      var j :| 0 <= j < |page| && page[j].event.Created? && page[j].event.round == r;
      assert all[j] == page[j];
    }
    if e.event.Created? && e.event.round == r {
      assert all[|page|] == e;
    }
  }

  lemma NoOrphanFront(known: bool, page: seq<Entry>, r: RoundId, n: nat)
    requires NoOrphan(known, page, r) && n <= |page|
    ensures NoOrphan(known, page[..n], r)
  {
    forall i | 0 <= i < n && Concerns(page[..n][i].event, r) && !known
      ensures CreatesIn(page[..n][..i], r)
    {
      assert page[..n][..i] == page[..i];
    }
  }

  // ----- Recording a page again --------------------------------------------------------------

  // A row that has seen the whole page is not changed by seeing it again.
  lemma {:induction false} FoldAgain(o: Option<RoundRow>, page: seq<Entry>, r: RoundId)
    requires NoOrphan(o.Some?, page, r)
    ensures Fold(Fold(o, page, r), page, r) == Fold(o, page, r)
  {
    var seen := Fold(o, page, r);
    if seen.Some? {
      LastWrites(o, page, r);
      Rewrites(seen.value, page, r);
    } else {
      FoldSome(o, page, r);
    }
  }

  // The last pools and settlement written for the round.
  function LastPools(d: Pools, page: seq<Entry>, r: RoundId): Pools {
    if page == [] then d
    else
      var e := page[|page| - 1].event;
      if e.BetPlaced? && e.bet.round == r then e.pools else LastPools(d, page[..|page| - 1], r)
  }

  function LastSettlement(d: Option<Settlement>, page: seq<Entry>, r: RoundId): Option<Settlement> {
    if page == [] then d
    else
      var e := page[|page| - 1].event;
      if e.Settled? && e.round == r then Some(e.settlement) else LastSettlement(d, page[..|page| - 1], r)
  }

  lemma {:induction false} Rewrites(row: RoundRow, page: seq<Entry>, r: RoundId)
    ensures Fold(Some(row), page, r)
         == Some(RoundRow(row.terms, LastPools(row.pools, page, r), LastSettlement(row.settlement, page, r)))
  {
    if page == [] {
    } else {
      Rewrites(row, page[..|page| - 1], r);
    }
  }

  lemma {:induction false} LastWrites(o: Option<RoundRow>, page: seq<Entry>, r: RoundId)
    requires NoOrphan(o.Some?, page, r) && Fold(o, page, r).Some?
    ensures var row := Fold(o, page, r).value;
            LastPools(row.pools, page, r) == row.pools && LastSettlement(row.settlement, page, r) == row.settlement
  {
    if page == [] {
    } else {
      var front, e := page[..|page| - 1], page[|page| - 1].event;
      NoOrphanFront(o.Some?, page, r, |front|);
      if Fold(o, front, r).Some? {
        LastWrites(o, front, r);
      } else {
        FoldSome(o, front, r);
        var row := Fold(o, page, r).value;
        Untouched(page, |front|, r, row.pools, row.settlement);
      }
    }
  }

  // Before its creation nothing is written for a round.
  lemma {:induction false} Untouched(page: seq<Entry>, n: nat, r: RoundId, d: Pools, d': Option<Settlement>)
    requires n <= |page| && NoOrphan(false, page, r) && !CreatesIn(page[..n], r)
    ensures LastPools(d, page[..n], r) == d && LastSettlement(d', page[..n], r) == d'
  {
    if n == 0 {
    } else {
      CreatesInMore(page[..n - 1], page[n - 1], r);
      assert page[..n] == page[..n - 1] + [page[n - 1]];
      Untouched(page, n - 1, r, d, d');
      assert page[..n][..n - 1] == page[..n - 1];
    }
  }

  // ----- The bets and claims tables ------------------------------------------------------------

  datatype Kind = Bets | Claims

  function TableOf(t: Tables, kind: Kind): map<RowKey, Row> {
    match kind
    case Bets => t.bets
    case Claims => t.claims
  }

  // The row an event adds to a table.
  function RowOf(e: Event, kind: Kind): Option<Row> {
    match kind
    case Bets => if e.BetPlaced? then Some(e.bet) else None
    case Claims => if e.Claimed? then Some(e.claim) else None
  }

  // The entry at the index recorded under this key, if it is there to record:
  // claims have no foreign key.
  ghost predicate Inserts(t: Tables, page: seq<Entry>, kind: Kind, key: RowKey) {
    && key.index < |page| && page[key.index].tx == key.tx && RowOf(page[key.index].event, kind).Some?
    && (kind == Bets ==> Fold(Get(t.rounds, page[key.index].event.bet.round), page[..key.index],
                              page[key.index].event.bet.round).Some?)
  }

  lemma {:induction false} RowsAt(t: Tables, page: seq<Entry>, kind: Kind, key: RowKey)
    ensures var table := TableOf(Replay(t, page), kind);
            && (key in table <==> key in TableOf(t, kind) || Inserts(t, page, kind, key))
            && (key in TableOf(t, kind) ==> table[key] == TableOf(t, kind)[key])
            && (key in table && key !in TableOf(t, kind) ==>
                  Some(table[key]) == RowOf(page[key.index].event, kind))
  {
    if page == [] {
    } else {
      var front, last := page[..|page| - 1], |page| - 1;
      RowsAt(t, front, kind, key);
      if key.index < last {
        assert front[..key.index] == page[..key.index];
      }
      if page[last].event.BetPlaced? {
        RoundsFold(t, front, page[last].event.bet.round);
      }
    }
  }

  // ----- Idempotence ------------------------------------------------------------------------------

  ghost predicate NoOrphans(t: Tables, page: seq<Entry>) {
    forall r :: NoOrphan(r in t.rounds, page, r)
  }

  lemma SameRounds(a: map<RoundId, RoundRow>, b: map<RoundId, RoundRow>)
    requires forall r :: Get(a, r) == Get(b, r)
    ensures a == b
  {
    forall r
      ensures r in a <==> r in b
      ensures r in a ==> a[r] == b[r]
    {
      assert Get(a, r) == Get(b, r);
    }
  }

  // Recording a page a second time changes nothing.
  lemma ReplayAgain(t: Tables, page: seq<Entry>)
    requires NoOrphans(t, page)
    ensures Replay(Replay(t, page), page) == Replay(t, page)
  {
    var once := Replay(t, page);
    var twice := Replay(once, page);
    forall r
      ensures Get(twice.rounds, r) == Get(once.rounds, r)
    {
      RoundsFold(t, page, r);
      RoundsFold(once, page, r);
      FoldAgain(Get(t.rounds, r), page, r);
    }
    SameRounds(twice.rounds, once.rounds);
    RowsAgain(t, page, Bets);
    RowsAgain(t, page, Claims);
  }

  lemma RowsAgain(t: Tables, page: seq<Entry>, kind: Kind)
    requires NoOrphans(t, page)
    ensures TableOf(Replay(Replay(t, page), page), kind) == TableOf(Replay(t, page), kind)
  {
    var once := Replay(t, page);
    forall key
      ensures key in TableOf(Replay(once, page), kind) <==> key in TableOf(once, kind)
      ensures key in TableOf(once, kind) ==> TableOf(Replay(once, page), kind)[key] == TableOf(once, kind)[key]
    {
      RowsAt(t, page, kind, key);
      RowsAt(once, page, kind, key);
      if Inserts(once, page, kind, key) && kind == Bets {
        var r := page[key.index].event.bet.round;
        NotOrphan(t, page, key.index, r);
      }
    }
  }

  lemma NotOrphan(t: Tables, page: seq<Entry>, i: nat, r: RoundId)
    requires NoOrphans(t, page) && i < |page| && Concerns(page[i].event, r)
    ensures Fold(Get(t.rounds, r), page[..i], r).Some?
  {
    assert NoOrphan(r in t.rounds, page, r);
    FoldSome(Get(t.rounds, r), page[..i], r);
  }

  // Two tables that agree after part of a page agree after the rest of it.
  lemma {:induction false} Continue(a: Tables, b: Tables, page: seq<Entry>, n: nat)
    requires n <= |page| && Replay(a, page[..n]) == Replay(b, page[..n])
    ensures Replay(a, page) == Replay(b, page)
    decreases |page| - n
  {
    if n == |page| {
      assert page[..n] == page;
    } else {
      assert page[..n + 1][..n] == page[..n];
      Continue(a, b, page, n + 1);
    }
  }

  // A page recorded up to some event, and then from its start, comes out as if
  // it had been recorded once.
  lemma Absorb(t: Tables, page: seq<Entry>, n: nat)
    requires n <= |page| && NoOrphans(t, page[..n])
    ensures Replay(Replay(t, page[..n]), page) == Replay(t, page)
  {
    ReplayAgain(t, page[..n]);
    Continue(Replay(t, page[..n]), t, page, n);
  }

  // ----- Why the order matters ---------------------------------------------------------------------

  // A bet the page refuses for want of its round, though the page creates that
  // round further on.
  ghost predicate LateOrphan(t: Tables, page: seq<Entry>, i: nat) {
    && i < |page| && page[i].event.BetPlaced? && RowKey(page[i].tx, i) !in t.bets
    && Fold(Get(t.rounds, page[i].event.bet.round), page[..i], page[i].event.bet.round).None?
    && Fold(Get(t.rounds, page[i].event.bet.round), page, page[i].event.bet.round).Some?
  }

  // Recording a page again leaves the bets table alone exactly when no bet in
  // it precedes its round's creation; otherwise the second pass adds a bet that
  // one pass drops.
  lemma BetsAgainExactlyWhen(t: Tables, page: seq<Entry>)
    ensures Replay(Replay(t, page), page).bets == Replay(t, page).bets
       <==> forall i: nat :: !LateOrphan(t, page, i)
  {
    var once := Replay(t, page);
    var twice := Replay(once, page);
    forall key
      ensures key in once.bets ==> key in twice.bets && twice.bets[key] == once.bets[key]
      ensures key in twice.bets && key !in once.bets <==>
                key.index < |page| && key.tx == page[key.index].tx && LateOrphan(t, page, key.index)
    {
      RowsAt(t, page, Bets, key);
      RowsAt(once, page, Bets, key);
      if key.index < |page| && page[key.index].event.BetPlaced? {
        var r := page[key.index].event.bet.round;
        RoundsFold(t, page, r);
        FoldSome(Get(once.rounds, r), page[..key.index], r);
        FoldSome(Get(t.rounds, r), page[..key.index], r);
        CreatesInLonger(page, key.index, r);
        FoldSome(Get(t.rounds, r), page, r);
      }
    }
    if i: nat :| LateOrphan(t, page, i) {
      assert RowKey(page[i].tx, i) in twice.bets && RowKey(page[i].tx, i) !in once.bets;
    }
  }

  lemma CreatesInLonger(page: seq<Entry>, n: nat, r: RoundId)
    requires n <= |page|
    ensures CreatesIn(page[..n], r) ==> CreatesIn(page, r)
  {
    if CreatesIn(page[..n], r) {
      var j :| 0 <= j < n && page[..n][j].event.Created? && page[..n][j].event.round == r;
      assert page[j] == page[..n][j];
    }
  }
}

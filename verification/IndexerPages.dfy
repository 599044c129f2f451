// Which rows the bets and claims tables lose, told from the log alone: two
// events of one transaction get one key exactly when they lie whole pages apart.

module IndexerPages {
  import opened Wrappers
  import opened Indexer
  import opened IndexerRuns
  import opened IndexerRows

  // ----- Where pages are cut -------------------------------------------------------------

  // No transaction has events on both sides of the position.
  ghost predicate Sealed(log: seq<Entry>, b: nat) {
    forall p, q :: 0 <= p < b <= q < |log| ==> log[p].tx != log[q].tx
  }

  predicate FullPage(cuts: seq<nat>, i: nat)
    requires i + 1 < |cuts|
  {
    cuts[i + 1] == cuts[i] + PAGE
  }

  // Every page was full, or shorter and ended where the log did, between
  // transactions.
  ghost predicate SealedCuts(log: seq<Entry>, cuts: seq<nat>) {
    forall i :: 0 <= i < |cuts| - 1 ==>
      FullPage(cuts, i) || (cuts[i + 1] < cuts[i] + PAGE && Sealed(log, cuts[i + 1]))
  }

  // Each addition to the log brings whole transactions.
  ghost predicate WholeTransactions(w: World, actions: seq<Action>)
    decreases |actions|
  {
    actions == [] ||
    (&& (actions[0].Grow? ==>
           forall p, q :: 0 <= p < |w.s.log| && 0 <= q < |actions[0].more| ==> w.s.log[p].tx != actions[0].more[q].tx)
     && WholeTransactions(Advance(w, actions[0]), actions[1..]))
  }

  lemma SealedGrows(w: World, a: Action)
    requires WholeTransactions(w, [a]) && Cuts(w.cuts) && End(w.cuts) == w.s.cursor <= |w.s.log|
    requires SealedCuts(w.s.log, w.cuts)
    ensures SealedCuts(Advance(w, a).s.log, Advance(w, a).cuts)
  {
    var log, w' := w.s.log, Advance(w, a);
    forall i | 0 <= i < |w'.cuts| - 1
      ensures FullPage(w'.cuts, i) || (w'.cuts[i + 1] < w'.cuts[i] + PAGE && Sealed(w'.s.log, w'.cuts[i + 1]))
    {
      if i + 1 < |w.cuts| {
        assert w'.cuts[i] == w.cuts[i] && w'.cuts[i + 1] == w.cuts[i + 1] <= |log|;
        assert FullPage(w.cuts, i) || Sealed(log, w.cuts[i + 1]);
      }
    }
  }

  lemma {:induction false} AlwaysSealed(w: World, actions: seq<Action>)
    requires Converging(w) && Known(actions) && RoundsFirst(Trace(w, actions).s.log)
    requires WholeTransactions(w, actions) && SealedCuts(w.s.log, w.cuts)
    ensures SealedCuts(Trace(w, actions).s.log, Trace(w, actions).cuts)
    decreases |actions|
  {
    if actions == [] {
    } else {
      var a := actions[0];
      LogOnlyGrows(w, actions);
      var end := Trace(w, actions).s.log;
      RoundsFirstFront(end, |w.s.log|);
      assert end[..|w.s.log|] == w.s.log;
      AdvanceKeeps(w, a);
      assert WholeTransactions(w, [a]);
      SealedGrows(w, a);
      AlwaysSealed(Advance(w, a), actions[1..]);
    }
  }


  // ----- Two events with one key ------------------------------------------------------------

  // Cuts inside a transaction are a page apart.
  lemma {:induction false} FullBetween(log: seq<Entry>, cuts: seq<nat>, i: nat, j: nat, p: nat, q: nat)
    requires Cuts(cuts) && SealedCuts(log, cuts) && i <= j && j + 1 < |cuts|
    requires p < cuts[i + 1] && cuts[j] <= q < |log| && p <= q && log[p].tx == log[q].tx
    ensures cuts[j] == cuts[i] + (j - i) * PAGE
    decreases j - i
  {
    if i == j {
    } else {
      assert cuts[i + 1] <= cuts[j] && cuts[j - 1] <= cuts[j];
      FullBetween(log, cuts, i, j - 1, p, q);
      assert !Sealed(log, cuts[j]);
      assert FullPage(cuts, j - 1);
    }
  }

  lemma {:induction false} PagesInOrder(cuts: seq<nat>, p: nat, q: nat)
    requires Cuts(cuts) && p <= q < End(cuts)
    ensures PageOf(cuts, p) <= PageOf(cuts, q)
  {
    if cuts[|cuts| - 2] <= q {
    } else {
      PagesInOrder(cuts[..|cuts| - 1], p, q);
    }
  }

  lemma WithinPage(log: seq<Entry>, cuts: seq<nat>, p: nat)
    requires Cuts(cuts) && SealedCuts(log, cuts) && p < End(cuts)
    ensures p - cuts[PageOf(cuts, p)] < PAGE
  {
    assert FullPage(cuts, PageOf(cuts, p)) || cuts[PageOf(cuts, p) + 1] < cuts[PageOf(cuts, p)] + PAGE;
  }

  lemma SameKeyExactlyWhen(log: seq<Entry>, cuts: seq<nat>, p: nat, q: nat)
    requires Cuts(cuts) && SealedCuts(log, cuts) && p < q < End(cuts) <= |log|
    ensures KeyAt(log, cuts, p) == KeyAt(log, cuts, q) <==> log[p].tx == log[q].tx && (q - p) % PAGE == 0
  {
    var i, j := PageOf(cuts, p), PageOf(cuts, q);
    if log[p].tx == log[q].tx {
      PagesInOrder(cuts, p, q);
      FullBetween(log, cuts, i, j, p, q);
      WithinPage(log, cuts, p);
      WithinPage(log, cuts, q);
      WholePages(p - cuts[i], q - cuts[j], j - i);
    }
  }

  lemma WholePages(x: nat, y: nat, pages: nat)
    requires x < PAGE && y < PAGE
    ensures (y - x + pages * PAGE) % PAGE == 0 <==> x == y
  {}

  // ----- Rows lost ---------------------------------------------------------------------------

  // The events behind the cursor that make a row.
  function Events(log: seq<Entry>, n: nat, kind: Kind): set<nat> {
    set p: nat | p < n && HasRow(log, p, kind)
  }

  // Two of them in one transaction, whole pages apart.
  ghost predicate Clash(log: seq<Entry>, n: nat, kind: Kind) {
    exists p, q :: p in Events(log, n, kind) && q in Events(log, n, kind) && p < q
                   && log[p].tx == log[q].tx && (q - p) % PAGE == 0
  }

  lemma InjectiveExactlyWhen(log: seq<Entry>, cuts: seq<nat>, kind: Kind)
    requires Cuts(cuts) && SealedCuts(log, cuts) && End(cuts) <= |log|
    ensures Injective(KeyMap(log, cuts, kind)) <==> !Clash(log, End(cuts), kind)
  {
    var keys, events := KeyMap(log, cuts, kind), Events(log, End(cuts), kind);
    forall p, q | p in events && q in events && p < q
      ensures keys[p] == keys[q] <==> log[p].tx == log[q].tx && (q - p) % PAGE == 0
    {
      SameKeyExactlyWhen(log, cuts, p, q);
    }
    if Clash(log, End(cuts), kind) {
      var p, q :| p in events && q in events && p < q && log[p].tx == log[q].tx && (q - p) % PAGE == 0;
      assert keys[p] == keys[q];
    }
  }

  // For every schedule that learns of its commits, over a log that grows by
  // whole transactions: each time the cursor moves, a table holds a row for each
  // of the events behind it if and only if no two of them lie whole pages apart
  // in one transaction; otherwise it holds fewer. Where the pages were cut makes
  // no difference.
  lemma RowPerEventExactlyWhen(actions: seq<Action>, kind: Kind)
    requires Known(actions) && RoundsFirst(Run(FRESH.s, actions).log) && WholeTransactions(FRESH, actions)
    ensures var s := Next(Run(FRESH.s, actions), Commit);
            var (table, events) := (TableOf(s.tables, kind), Events(s.log, s.cursor, kind));
            && |table| <= |events|
            && (|table| == |events| <==> !Clash(s.log, s.cursor, kind))
  {
    var w := Committing(actions);
    var keys := KeyMap(w.s.log, w.cuts, kind);
    RowPerKey(w.s.log, w.cuts, kind);
    InjectiveExactlyWhen(w.s.log, w.cuts, kind);
    assert keys.Keys == Events(w.s.log, w.s.cursor, kind);
    assert |keys| == |keys.Keys|;
  }

  // The state after the commit, with its cuts.
  lemma Committing(actions: seq<Action>) returns (w: World)
    requires Known(actions) && RoundsFirst(Run(FRESH.s, actions).log) && WholeTransactions(FRESH, actions)
    ensures w.s == Next(Run(FRESH.s, actions), Commit) && w == Advance(Trace(FRESH, actions), Commit)
    ensures Cuts(w.cuts) && End(w.cuts) == w.s.cursor <= |w.s.log| && RoundsFirst(w.s.log)
    ensures SealedCuts(w.s.log, w.cuts) && w.s.tables == Clean(w.s.log, w.cuts)
  {
    ReplayConverges(actions);
    TraceRuns(FRESH, actions);
    AlwaysConverging(FRESH, actions);
    AlwaysSealed(FRESH, actions);
    w := Advance(Trace(FRESH, actions), Commit);
    SealedGrows(Trace(FRESH, actions), Commit);
  }

  // A transaction's events span fewer positions than a page holds.
  ghost predicate ShortTransactions(log: seq<Entry>) {
    forall p, q :: 0 <= p < q < |log| && log[p].tx == log[q].tx ==> q - p < PAGE
  }

  lemma ShortNeverClash(log: seq<Entry>, n: nat, kind: Kind)
    requires ShortTransactions(log)
    ensures !Clash(log, n, kind)
  {}

  // In particular, when no transaction outgrows a page both tables hold one row
  // for every event, and nothing else.
  lemma EveryEventOnce(actions: seq<Action>, kind: Kind)
    requires Known(actions) && RoundsFirst(Run(FRESH.s, actions).log)
    requires WholeTransactions(FRESH, actions) && ShortTransactions(Run(FRESH.s, actions).log)
    ensures var w := Advance(Trace(FRESH, actions), Commit);
            && Cuts(w.cuts) && End(w.cuts) == w.s.cursor <= |w.s.log|
            && var (table, keys) := (TableOf(w.s.tables, kind), KeyMap(w.s.log, w.cuts, kind));
            && |table| == |keys| && table.Keys == keys.Values
            && (forall p :: p in keys ==> keys[p] in table && Some(table[keys[p]]) == RowOf(w.s.log[p].event, kind))
  {
    var w := Committing(actions);
    CommitKeepsLog(Run(FRESH.s, actions));
    ShortNeverClash(w.s.log, w.s.cursor, kind);
    InjectiveExactlyWhen(w.s.log, w.cuts, kind);
    TableKeys(w.s.log, w.cuts, kind);
    RowPerKey(w.s.log, w.cuts, kind);
  }

  // ----- A row lost ----------------------------------------------------------------------------

  // A round, then one transaction with two bets 200 positions apart.
  function LongTransaction(terms: Terms, bet: Row, pools: Pools): seq<Entry>
    requires bet.BetRow?
  {
    [Entry(1, Created(bet.round, terms))]
    + seq(201, i => Entry(2, if i == 0 || i == 200 then BetPlaced(bet, pools) else Other))
  }

  lemma LongTransactionInOrder(terms: Terms, bet: Row, pools: Pools)
    requires bet.BetRow?
    ensures RoundsFirst(LongTransaction(terms, bet, pools))
  {
    var log := LongTransaction(terms, bet, pools);
    forall r
      ensures NoOrphan(false, log, r)
    {
      forall i | 0 <= i < |log| && Concerns(log[i].event, r)
        ensures CreatesIn(log[..i], r)
      {
        assert log[..i][0] == log[0];
      }
    }
  }

  lemma LongTransactionRead(terms: Terms, bet: Row, pools: Pools)
    requires bet.BetRow?
    ensures var log := LongTransaction(terms, bet, pools);
            var s := Next(Run(FRESH.s, [Grow(log), Commit]), Commit);
            s.log == log && s.cursor == 202
  {
    var log := LongTransaction(terms, bet, pools);
    var s1 := State(log, EMPTY, 0, 0);
    RunCons(FRESH.s, Grow(log), [Commit]);
    RunCons(s1, Commit, []);
    assert [Grow(log)] + [Commit] == [Grow(log), Commit] && [Commit] + [] == [Commit];
    CommitMoves(s1);
    CommitMoves(Next(s1, Commit));
  }

  lemma OneGrowth(log: seq<Entry>)
    ensures WholeTransactions(FRESH, [Grow(log), Commit])
  {
    assert [Grow(log), Commit][1..] == [Commit] && [Commit][1..] == [];
  }

  lemma BetsClash(terms: Terms, bet: Row, pools: Pools)
    requires bet.BetRow?
    ensures var log := LongTransaction(terms, bet, pools);
            Events(log, 202, Bets) == {1, 201} && Clash(log, 202, Bets)
  {
    var log := LongTransaction(terms, bet, pools);
    var events := Events(log, 202, Bets);
    assert 1 in events && 201 in events && log[1].tx == log[201].tx;
    assert events == {1, 201};
  }

  // Read in two pages, its two bets come to one row.
  lemma LongTransactionLosesARow(terms: Terms, bet: Row, pools: Pools)
    requires bet.BetRow?
    ensures var log := LongTransaction(terms, bet, pools);
            var s := Next(Run(FRESH.s, [Grow(log), Commit]), Commit);
            && s.log == log && s.cursor == 202
            && Events(log, 202, Bets) == {1, 201} && |s.tables.bets| < 2
  {
    var log := LongTransaction(terms, bet, pools);
    LongTransactionInOrder(terms, bet, pools);
    LongTransactionRead(terms, bet, pools);
    OneGrowth(log);
    RowPerEventExactlyWhen([Grow(log), Commit], Bets);
    BetsClash(terms, bet, pools);
  }
}

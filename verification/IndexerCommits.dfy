// What the indexer's convergence rests on: that the process learns of every
// cursor it stored.

module IndexerCommits {
  import opened Indexer
  import opened IndexerRuns
  import opened IndexerRows

  // The tables are those of some clean pass over the log behind the cursor.
  ghost predicate Converged(s: State) {
    s.cursor <= |s.log| &&
    exists cuts: seq<nat> :: Cuts(cuts) && End(cuts) == s.cursor && s.tables == Clean(s.log, cuts)
  }

  // In every schedule, with or without commits the process does not learn of,
  // every move of the cursor leaves the tables converged.
  ghost predicate AlwaysConverges(unseen: bool) {
    forall actions: seq<Action> ::
      (unseen || Known(actions)) && RoundsFirst(Run(FRESH.s, actions).log) ==>
        Converged(Next(Run(FRESH.s, actions), Commit))
  }

  // A clean pass has at most one row for every event.
  lemma CleanRowsWithin(log: seq<Entry>, cuts: seq<nat>, kind: Kind)
    requires Cuts(cuts) && End(cuts) <= |log| && RoundsFirst(log)
    ensures |TableOf(Clean(log, cuts), kind)| <= |set p: nat | p < |log| && HasRow(log, p, kind)|
  {
    var keys, events := KeyMap(log, cuts, kind), set p: nat | p < |log| && HasRow(log, p, kind);
    RowPerKey(log, cuts, kind);
    assert |keys| == |keys.Keys| && keys.Keys <= events;
    Smaller(keys.Keys, events);
  }

  lemma {:induction false} Smaller(a: set<nat>, b: set<nat>)
    requires a <= b
    ensures |a| <= |b|
  {
    if a == {} {
    } else {
      var x :| x in a;
      Smaller(a - {x}, b - {x});
    }
  }

  function OneBet(terms: Terms, bet: Row, pools: Pools): seq<Entry>
    requires bet.BetRow?
  {
    [Entry(1, Created(bet.round, terms)), Entry(2, BetPlaced(bet, pools))]
  }

  lemma OneBetInOrder(terms: Terms, bet: Row, pools: Pools)
    requires bet.BetRow?
    ensures RoundsFirst(OneBet(terms, bet, pools))
    ensures (set p: nat | p < 2 && HasRow(OneBet(terms, bet, pools), p, Bets)) == {1}
  {
    var log := OneBet(terms, bet, pools);
    forall r
      ensures NoOrphan(false, log, r)
    {
      forall i | 0 <= i < |log| && Concerns(log[i].event, r)
        ensures CreatesIn(log[..i], r)
      {
        assert log[..i][0] == log[0];
      }
    }
  }

  // The schedule in which one bet gets two rows ends in no clean pass.
  lemma DuplicateDiverges(terms: Terms, bet: Row, pools: Pools, s: State)
    requires bet.BetRow? && s.log == OneBet(terms, bet, pools)
    requires s.tables.bets == map[RowKey(2, 1) := bet, RowKey(2, 0) := bet]
    ensures !Converged(s)
  {
    OneBetInOrder(terms, bet, pools);
    assert RowKey(2, 1) in s.tables.bets && RowKey(2, 0) in s.tables.bets;
    assert s.tables.bets.Keys == {RowKey(2, 1), RowKey(2, 0)};
    assert |s.tables.bets| == |s.tables.bets.Keys|;
    if Converged(s) {
      var cuts :| Cuts(cuts) && End(cuts) == s.cursor && s.tables == Clean(s.log, cuts);
      CleanRowsWithin(s.log, cuts, Bets);
    }
  }

  lemma UnseenDiverges()
    ensures exists actions: seq<Action> ::
              RoundsFirst(Run(FRESH.s, actions).log) && !Converged(Next(Run(FRESH.s, actions), Commit))
  {
    var terms, bet, pools := Terms(0, 0, 0, 0, 0), BetRow(0, 0, 0, 0), Pools(0, 0);
    var log := OneBet(terms, bet, pools);
    var actions := [Grow(log[..1]), CommitUnseen, Grow(log[1..]), Crash(2)];
    UnseenCommitDuplicates(terms, bet, pools);
    OneBetInOrder(terms, bet, pools);
    RunLast(FRESH.s, actions, Commit);
    assert actions + [Commit] == [Grow(log[..1]), CommitUnseen, Grow(log[1..]), Crash(2), Commit];
    DuplicateDiverges(terms, bet, pools, Next(Run(FRESH.s, actions), Commit));
    assert Run(FRESH.s, actions).log == log;
  }

  lemma {:induction false} RunLast(s: State, actions: seq<Action>, last: Action)
    ensures Run(s, actions + [last]) == Next(Run(s, actions), last)
    decreases |actions|
  {
    if actions == [] {
      assert (actions + [last])[1..] == [];
    } else {
      RunLast(Next(s, actions[0]), actions[1..], last);
      assert (actions + [last])[1..] == actions[1..] + [last];
    }
  }

  // The indexer converges in every schedule if and only if the process learns
  // of all its commits.
  lemma ConvergesExactlyWhen(unseen: bool)
    ensures AlwaysConverges(unseen) <==> !unseen
  {
    if unseen {
      UnseenDiverges();
    } else {
      forall actions: seq<Action> | Known(actions) && RoundsFirst(Run(FRESH.s, actions).log)
        ensures Converged(Next(Run(FRESH.s, actions), Commit))
      {
        ReplayConverges(actions);
        var w := Advance(Trace(FRESH, actions), Commit);
        assert w.s.tables == Clean(w.s.log, w.cuts);
      }
    }
  }
}

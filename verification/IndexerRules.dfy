// What a row of the rounds table says, in terms of the events behind the cursor.

module IndexerRules {
  import opened Wrappers
  import opened Indexer
  import opened IndexerRuns

  predicate Creates(e: Event, r: RoundId) {
    e.Created? && e.round == r
  }

  // The terms a round was first created with.
  function FirstTerms(log: seq<Entry>, r: RoundId): Option<Terms> {
    if log == [] then None
    else
      var before, e := FirstTerms(log[..|log| - 1], r), log[|log| - 1].event;
      if before.Some? then before else if Creates(e, r) then Some(e.terms) else None
  }

  lemma {:induction false} FirstTermsAt(log: seq<Entry>, r: RoundId)
    ensures FirstTerms(log, r).None? <==> forall i :: 0 <= i < |log| ==> !Creates(log[i].event, r)
    ensures forall i :: 0 <= i < |log| && Creates(log[i].event, r)
                        && (forall j :: 0 <= j < i ==> !Creates(log[j].event, r)) ==>
              FirstTerms(log, r) == Some(log[i].event.terms)
  {
    if log == [] {
    } else {
      var front := log[..|log| - 1];
      FirstTermsAt(front, r);
      assert forall i :: 0 <= i < |front| ==> front[i] == log[i];
    }
  }

  // A round has a row exactly when the log creates it: with the asset, strike
  // and times it was first created with, the pools its last bet reported, empty
  // before any, and its last settlement, if any.
  predicate Tells(log: seq<Entry>, rounds: map<RoundId, RoundRow>, r: RoundId) {
    && (r in rounds <==> FirstTerms(log, r).Some?)
    && (r in rounds ==> Describes(log, rounds[r], FirstTerms(log, r), r))
  }

  predicate Describes(log: seq<Entry>, row: RoundRow, first: Option<Terms>, r: RoundId) {
    && first.Some?
    && row.terms.asset == first.value.asset && row.terms.strike == first.value.strike
    && row.terms.strikeTs == first.value.strikeTs && row.terms.lockTs == first.value.lockTs
    && row.terms.settleTs == first.value.settleTs
    && row.pools == LastPools(Pools(0, 0), log, r) && row.settlement == LastSettlement(None, log, r)
  }

  lemma {:induction false} NothingYet(log: seq<Entry>, r: RoundId)
    requires NoOrphan(false, log, r) && !CreatesIn(log, r)
    ensures LastPools(Pools(0, 0), log, r) == Pools(0, 0) && LastSettlement(None, log, r) == None
  {
    Untouched(log, |log|, r, Pools(0, 0), None);
    assert log[..|log|] == log;
  }

  lemma {:induction false} FoldTells(log: seq<Entry>, r: RoundId)
    requires NoOrphan(false, log, r)
    ensures Fold(None, log, r).Some? <==> FirstTerms(log, r).Some?
    ensures Fold(None, log, r).Some? ==> Describes(log, Fold(None, log, r).value, FirstTerms(log, r), r)
  {
    if log == [] {
    } else {
      var front := log[..|log| - 1];
      NoOrphanFront(false, log, r, |front|);
      FoldTells(front, r);
      FoldSome(None, front, r);
      if !CreatesIn(front, r) {
        NothingYet(front, r);
        assert !Concerns(log[|front|].event, r);
      }
    }
  }

  // In every clean pass, so whenever the cursor moves in a schedule with known
  // commit results, the rounds table tells exactly what the log behind it says.
  lemma RoundsTellTheLog(actions: seq<Action>, r: RoundId)
    requires Known(actions) && RoundsFirst(Run(FRESH.s, actions).log)
    ensures var s := Next(Run(FRESH.s, actions), Commit);
            s.cursor <= |s.log| && Tells(s.log[..s.cursor], s.tables.rounds, r)
  {
    ReplayConverges(actions);
    var w := Advance(Trace(FRESH, actions), Commit);
    TraceRuns(FRESH, actions);
    CommitKeepsLog(Run(FRESH.s, actions));
    CleanRounds(w.s.log, w.cuts, r);
    RoundsFirstFront(w.s.log, w.s.cursor);
    FoldTells(w.s.log[..w.s.cursor], r);
    assert Get(w.s.tables.rounds, r) == Fold(None, w.s.log[..w.s.cursor], r);
  }
}

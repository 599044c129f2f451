// The indexer's polling loop over any schedule of new events, crashes and
// failed polls: whenever the cursor moves, the tables are those of one clean
// pass over the log.

module IndexerRuns {
  import opened Wrappers
  import opened Indexer

  const PAGE: nat := 200

  // The chain's event log, the tables, the stored cursor and the one the
  // running process holds. Cursors are positions in the log.
  datatype State = State(log: seq<Entry>, tables: Tables, stored: nat, cursor: nat)

  // A poll reads one page. It may crash after some of the page's events (the
  // process restarts from the stored cursor), throw after some of them (the
  // loop tries again from its own cursor), or finish and commit the cursor; a
  // commit may also succeed without the process learning of it.
  datatype Action =
    | Grow(more: seq<Entry>)
    | Crash(after: nat)
    | Fail(after: nat)
    | Commit
    | CommitUnseen

  function Min(a: nat, b: nat): nat {
    if a < b then a else b
  }

  function Page(s: State): seq<Entry> {
    if s.cursor <= |s.log| then s.log[s.cursor..Min(s.cursor + PAGE, |s.log|)] else []
  }

  function Part(s: State, after: nat): seq<Entry> {
    Page(s)[..Min(after, |Page(s)|)]
  }

  function Next(s: State, a: Action): State {
    match a
    case Grow(more) => s.(log := s.log + more)
    case Crash(after) => s.(tables := Replay(s.tables, Part(s, after)), cursor := s.stored)
    case Fail(after) => s.(tables := Replay(s.tables, Part(s, after)))
    case Commit => if Page(s) == [] then s else Committed(s).(cursor := s.cursor + |Page(s)|)
    case CommitUnseen => if Page(s) == [] then s else Committed(s)
  }

  // The whole page recorded and the new cursor stored.
  function Committed(s: State): State {
    s.(tables := Replay(s.tables, Page(s)), stored := s.cursor + |Page(s)|)
  }

  function Run(s: State, actions: seq<Action>): State
    decreases |actions|
  {
    if actions == [] then s else Run(Next(s, actions[0]), actions[1..])
  }

  // ----- The clean pass ---------------------------------------------------------------

  // Where each committed page began and, last, where the next one begins.
  predicate Cuts(cuts: seq<nat>) {
    0 < |cuts| && cuts[0] == 0 && forall i, j :: 0 <= i <= j < |cuts| ==> cuts[i] <= cuts[j]
  }

  function End(cuts: seq<nat>): nat
    requires Cuts(cuts)
  {
    cuts[|cuts| - 1]
  }

  // Every page once, in order, with nothing interrupted.
  function Clean(log: seq<Entry>, cuts: seq<nat>): Tables
    requires Cuts(cuts) && End(cuts) <= |log|
  {
    if |cuts| == 1 then EMPTY
    else Replay(Clean(log, cuts[..|cuts| - 1]), log[cuts[|cuts| - 2]..cuts[|cuts| - 1]])
  }

  // A round is created before it is bet on or settled.
  ghost predicate RoundsFirst(log: seq<Entry>) {
    forall r :: NoOrphan(false, log, r)
  }

  lemma RoundsFirstFront(log: seq<Entry>, n: nat)
    requires RoundsFirst(log) && n <= |log|
    ensures RoundsFirst(log[..n])
  {
    forall r
      ensures NoOrphan(false, log[..n], r)
    {
      NoOrphanFront(false, log, r, n);
    }
  }

  lemma {:induction false} CleanPrefix(log: seq<Entry>, more: seq<Entry>, cuts: seq<nat>)
    requires Cuts(cuts) && End(cuts) <= |log|
    ensures Clean(log + more, cuts) == Clean(log, cuts)
  {
    if |cuts| == 1 {
    } else {
      CleanPrefix(log, more, cuts[..|cuts| - 1]);
      assert (log + more)[cuts[|cuts| - 2]..cuts[|cuts| - 1]] == log[cuts[|cuts| - 2]..cuts[|cuts| - 1]];
    }
  }

  // Where the pages were cut makes no difference to the rounds table.
  lemma {:induction false} CleanRounds(log: seq<Entry>, cuts: seq<nat>, r: RoundId)
    requires Cuts(cuts) && End(cuts) <= |log|
    ensures Get(Clean(log, cuts).rounds, r) == Fold(None, log[..End(cuts)], r)
  {
    if |cuts| == 1 {
      assert log[..End(cuts)] == [];
    } else {
      var b, c := cuts[|cuts| - 2], cuts[|cuts| - 1];
      CleanRounds(log, cuts[..|cuts| - 1], r);
      RoundsFold(Clean(log, cuts[..|cuts| - 1]), log[b..c], r);
      FoldSplit(None, log[..b], log[b..c], r);
      assert log[..c] == log[..b] + log[b..c];
    }
  }

  // Once everything before a page is recorded, the page holds no orphan.
  lemma PageInOrder(log: seq<Entry>, t: Tables, c: nat, n: nat)
    requires c <= n <= |log| && RoundsFirst(log)
    requires forall r :: Fold(None, log[..c], r).Some? ==> r in t.rounds
    ensures NoOrphans(t, log[c..n])
  {
    forall r
      ensures NoOrphan(r in t.rounds, log[c..n], r)
    {
      assert NoOrphan(false, log, r);
      if r !in t.rounds {
        forall i | 0 <= i < n - c && Concerns(log[c..n][i].event, r)
          ensures CreatesIn(log[c..n][..i], r)
        {
          assert log[c..n][i] == log[c + i];
          assert log[..c + i] == log[..c] + log[c..n][..i];
          FoldSome(None, log[..c + i], r);
          FoldSplit(None, log[..c], log[c..n][..i], r);
          FoldSome(None, log[c..n][..i], r);
        }
      }
    }
  }

  // ----- Schedules ----------------------------------------------------------------------

  // A state with the cuts made so far, and how much of the current page was
  // ever recorded.
  datatype World = World(s: State, cuts: seq<nat>, reach: nat)

  function Max(a: nat, b: nat): nat {
    if a < b then b else a
  }

  function Advance(w: World, a: Action): World {
    var s := Next(w.s, a);
    match a
    case Grow(_) => w.(s := s)
    case Crash(after) => w.(s := s, reach := Max(w.reach, |Part(w.s, after)|))
    case Fail(after) => w.(s := s, reach := Max(w.reach, |Part(w.s, after)|))
    case Commit => World(s, w.cuts + [s.cursor], 0)
    case CommitUnseen => w.(s := s)
  }

  function Trace(w: World, actions: seq<Action>): World
    decreases |actions|
  {
    if actions == [] then w else Trace(Advance(w, actions[0]), actions[1..])
  }

  const FRESH: World := World(State([], EMPTY, 0, 0), [0], 0)

  lemma {:induction false} TraceRuns(w: World, actions: seq<Action>)
    ensures Trace(w, actions).s == Run(w.s, actions)
    decreases |actions|
  {
    if actions == [] {
    } else {
      TraceRuns(Advance(w, actions[0]), actions[1..]);
    }
  }

  // The tables hold what was clean at the cursor and parts of the page after
  // it, such that recording the page as far as it was ever recorded gives what
  // recording it once would have.
  ghost predicate Converging(w: World) {
    && Cuts(w.cuts) && End(w.cuts) == w.s.cursor == w.s.stored && w.s.cursor <= |w.s.log|
    && w.reach <= |Page(w.s)|
    && Replay(w.s.tables, Page(w.s)[..w.reach]) == Replay(Clean(w.s.log, w.cuts), Page(w.s)[..w.reach])
    && (forall r :: r in Clean(w.s.log, w.cuts).rounds ==> r in w.s.tables.rounds)
  }

  lemma InOrder(w: World, n: nat)
    requires Converging(w) && RoundsFirst(w.s.log) && n <= |Page(w.s)|
    ensures NoOrphans(w.s.tables, Page(w.s)[..n])
  {
    forall r | Fold(None, w.s.log[..w.s.cursor], r).Some?
      ensures r in w.s.tables.rounds
    {
      CleanRounds(w.s.log, w.cuts, r);
    }
    PageInOrder(w.s.log, w.s.tables, w.s.cursor, w.s.cursor + n);
    assert Page(w.s)[..n] == w.s.log[w.s.cursor..w.s.cursor + n];
  }

  lemma KeepsRounds(t: Tables, page: seq<Entry>, r: RoundId)
    requires r in t.rounds
    ensures r in Replay(t, page).rounds
  {
    RoundsFold(t, page, r);
    FoldSome(Get(t.rounds, r), page, r);
  }

  // Recording `n` events of a page, after up to `reach` of them were recorded.
  lemma Interrupted(t: Tables, base: Tables, page: seq<Entry>, reach: nat, n: nat)
    requires reach <= |page| && n <= |page| && NoOrphans(t, page[..n])
    requires Replay(t, page[..reach]) == Replay(base, page[..reach])
    ensures var far := page[..Max(reach, n)];
            Replay(Replay(t, page[..n]), far) == Replay(base, far)
  {
    var far := page[..Max(reach, n)];
    assert far[..reach] == page[..reach] && far[..n] == page[..n];
    Continue(t, base, far, reach);
    Absorb(t, far, n);
  }

  // However far it gets, an interrupted poll changes nothing that matters.
  lemma InterruptedKeeps(w: World, after: nat)
    requires Converging(w) && RoundsFirst(w.s.log)
    ensures Converging(Advance(w, Fail(after)))
  {
    var n := |Part(w.s, after)|;
    InOrder(w, n);
    Interrupted(w.s.tables, Clean(w.s.log, w.cuts), Page(w.s), w.reach, n);
    forall r | r in w.s.tables.rounds
      ensures r in Replay(w.s.tables, Part(w.s, after)).rounds
    {
      KeepsRounds(w.s.tables, Part(w.s, after), r);
    }
  }

  lemma CutMore(log: seq<Entry>, cuts: seq<nat>, n: nat)
    requires Cuts(cuts) && End(cuts) <= n <= |log|
    ensures Cuts(cuts + [n]) && Clean(log, cuts + [n]) == Replay(Clean(log, cuts), log[End(cuts)..n])
  {
    assert (cuts + [n])[..|cuts|] == cuts;
  }

  lemma CommitMoves(s: State)
    requires s.cursor == s.stored <= |s.log|
    ensures var s' := Next(s, Commit);
            && s'.log == s.log && s'.tables == Replay(s.tables, Page(s))
            && s'.cursor == s'.stored == s.cursor + |Page(s)| <= |s.log|
    ensures Page(s) == s.log[s.cursor..s.cursor + |Page(s)|]
  {}

  lemma CommitKeepsLog(s: State)
    ensures Next(s, Commit).log == s.log
  {}

  // When the cursor moves, the tables are those of the clean pass.
  lemma CommitIsClean(w: World)
    requires Converging(w) && RoundsFirst(w.s.log)
    ensures var w' := Advance(w, Commit);
            && Converging(w')
            && w'.s.tables == Clean(w'.s.log, w'.cuts)
  {
    var n := w.s.cursor + |Page(w.s)|;
    Continue(w.s.tables, Clean(w.s.log, w.cuts), Page(w.s), w.reach);
    CutMore(w.s.log, w.cuts, n);
    CommitMoves(w.s);
    assert Advance(w, Commit) == World(Next(w.s, Commit), w.cuts + [n], 0);
  }

  lemma PageGrows(s: State, more: seq<Entry>)
    ensures s.cursor <= |s.log| ==> Page(s) <= Page(Next(s, Grow(more)))
  {}

  lemma GrowKeeps(w: World, more: seq<Entry>)
    requires Converging(w)
    ensures Converging(Advance(w, Grow(more)))
  {
    CleanPrefix(w.s.log, more, w.cuts);
    PageGrows(w.s, more);
    assert Page(Next(w.s, Grow(more)))[..w.reach] == Page(w.s)[..w.reach];
  }

  lemma AdvanceKeeps(w: World, a: Action)
    requires Converging(w) && RoundsFirst(w.s.log) && !a.CommitUnseen?
    ensures Converging(Advance(w, a))
  {
    match a
    case Grow(more) => GrowKeeps(w, more);
    case Crash(after) => InterruptedKeeps(w, after);
    case Fail(after) => InterruptedKeeps(w, after);
    case Commit => CommitIsClean(w);
    case CommitUnseen =>
  }

  lemma LogGrows(w: World, a: Action)
    ensures w.s.log <= Advance(w, a).s.log
  {}

  lemma {:induction false} LogOnlyGrows(w: World, actions: seq<Action>)
    ensures w.s.log <= Trace(w, actions).s.log
    decreases |actions|
  {
    if actions == [] {
    } else {
      LogGrows(w, actions[0]);
      LogOnlyGrows(Advance(w, actions[0]), actions[1..]);
    }
  }

  ghost predicate Known(actions: seq<Action>) {
    forall i :: 0 <= i < |actions| ==> !actions[i].CommitUnseen?
  }

  lemma {:induction false} AlwaysConverging(w: World, actions: seq<Action>)
    requires Converging(w) && Known(actions) && RoundsFirst(Trace(w, actions).s.log)
    ensures Converging(Trace(w, actions))
    decreases |actions|
  {
    if actions == [] {
    } else {
      var end := Trace(w, actions).s.log;
      LogOnlyGrows(w, actions);
      RoundsFirstFront(end, |w.s.log|);
      assert end[..|w.s.log|] == w.s.log;
      AdvanceKeeps(w, actions[0]);
      AlwaysConverging(Advance(w, actions[0]), actions[1..]);
    }
  }

  // For any schedule of growth, crashes and retries: each time the cursor
  // moves, every table is that of one clean pass over the pages behind it, and
  // the rounds table is that of one pass over the log as a single page.
  lemma ReplayConverges(actions: seq<Action>)
    requires Known(actions) && RoundsFirst(Run(FRESH.s, actions).log)
    ensures var w := Advance(Trace(FRESH, actions), Commit);
            && w.s == Next(Run(FRESH.s, actions), Commit)
            && Cuts(w.cuts) && End(w.cuts) == w.s.cursor <= |w.s.log|
            && w.s.tables == Clean(w.s.log, w.cuts)
            && w.s.tables.rounds == Replay(EMPTY, w.s.log[..w.s.cursor]).rounds
  {
    TraceRuns(FRESH, actions);
    AlwaysConverging(FRESH, actions);
    CommitIsClean(Trace(FRESH, actions));
    var w := Advance(Trace(FRESH, actions), Commit);
    forall r
      ensures Get(w.s.tables.rounds, r) == Get(Replay(EMPTY, w.s.log[..w.s.cursor]).rounds, r)
    {
      CleanRounds(w.s.log, w.cuts, r);
      RoundsFold(EMPTY, w.s.log[..w.s.cursor], r);
    }
    SameRounds(w.s.tables.rounds, Replay(EMPTY, w.s.log[..w.s.cursor]).rounds);
  }

  // A commit the process does not learn of breaks this: the loop goes on from
  // its old cursor, a crash then restarts it from the stored one, and the one
  // bet of this log is recorded under two indices.
  lemma UnseenCommitDuplicates(terms: Terms, bet: Row, pools: Pools)
    requires bet.BetRow?
    ensures var log := [Entry(1, Created(bet.round, terms)), Entry(2, BetPlaced(bet, pools))];
            var s := Run(FRESH.s, [Grow(log[..1]), CommitUnseen, Grow(log[1..]), Crash(2), Commit]);
            && s.log == log && s.cursor == 2
            && s.tables.bets == map[RowKey(2, 1) := bet, RowKey(2, 0) := bet]
  {
    var made, placed := Entry(1, Created(bet.round, terms)), Entry(2, BetPlaced(bet, pools));
    assert [made, placed][..1] == [made] && [made, placed][1..] == [placed];
    var s1 := State([made], Record(EMPTY, 0, made), 1, 0);
    var s2 := State([made, placed], Record(s1.tables, 1, placed), 1, 1);
    ReplayOne(EMPTY, made);
    assert Page(Next(FRESH.s, Grow([made]))) == [made];
    assert Next(Next(FRESH.s, Grow([made])), CommitUnseen) == s1;
    ReplayOne(s1.tables, made);
    ReplayTwo(s1.tables, made, placed);
    assert Part(Next(s1, Grow([placed])), 2) == [made, placed];
    assert Next(Next(s1, Grow([placed])), Crash(2)) == s2;
    ReplayOne(s2.tables, placed);
    assert Page(s2) == [placed];
    RunFive(FRESH.s, Grow([made]), CommitUnseen, Grow([placed]), Crash(2), Commit);
  }

  lemma ReplayOne(t: Tables, e: Entry)
    ensures Replay(t, [e]) == Record(t, 0, e)
  {
    assert [e][..0] == [];
  }

  lemma ReplayTwo(t: Tables, e: Entry, f: Entry)
    ensures Replay(t, [e, f]) == Record(Record(t, 0, e), 1, f)
  {
    ReplayOne(t, e);
    assert [e, f][..1] == [e];
  }

  lemma RunCons(s: State, a: Action, rest: seq<Action>)
    ensures Run(s, [a] + rest) == Run(Next(s, a), rest)
  {
    assert ([a] + rest)[1..] == rest;
  }

  lemma RunFive(s: State, a: Action, b: Action, c: Action, d: Action, e: Action)
    ensures Run(s, [a, b, c, d, e]) == Next(Next(Next(Next(Next(s, a), b), c), d), e)
  {
    var s1 := Next(s, a);
    var s2 := Next(s1, b);
    var s3 := Next(s2, c);
    RunCons(s, a, [b, c, d, e]);
    RunCons(s1, b, [c, d, e]);
    RunCons(s2, c, [d, e]);
    RunCons(s3, d, [e]);
    RunCons(Next(s3, d), e, []);
    assert [a] + [b, c, d, e] == [a, b, c, d, e] && [b] + [c, d, e] == [b, c, d, e];
    assert [c] + [d, e] == [c, d, e] && [d] + [e] == [d, e] && [e] + [] == [e];
  }
}

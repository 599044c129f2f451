// Rounds the epoch market never closes: one passed over by its keeper, and the
// first one, when genesis_lock misses the epoch it was opened for.

module EpochStrands {
  import opened Wrappers
  import opened Token
  import opened EpochMarket
  import opened EpochPipeline
  import opened EpochKeeper
  import opened EpochRuns

  // ----- A genesis_lock that comes too late --------------------------------------------------

  // genesis_start has opened the asset's one round and genesis_lock has yet to
  // lock it.
  ghost predicate Awaiting(s: State, a: Asset, n: nat) {
    && GenesisOf(s, a) == Started && HasStatus(s.rounds, (a, n), Open)
    && (forall m: nat :: (a, m) in s.rounds ==> m == n)
  }

  // The call that does so.
  predicate LocksInTime(s: State, c: Call, a: Asset, n: nat) {
    c.action == DoGenesisLock(a) && Epoch(s.now) == n && !s.config.paused
  }

  predicate LockedInTime(s: State, calls: seq<Call>, a: Asset, n: nat)
    decreases |calls|
  {
    calls != [] && (LocksInTime(s, calls[0], a, n) || LockedInTime(Apply(s, calls[0]), calls[1..], a, n))
  }

  lemma StartAwaits(s: State, c: Call, a: Asset)
    requires BeforeLock(s, a) && c.action == DoGenesisStart(a) && Step(s, c).Success?
    ensures Awaiting(Apply(s, c), a, Epoch(s.now) + 1)
  {}

  lemma LockSucceedsExactlyWhen(s: State, c: Call, a: Asset, n: nat)
    requires Awaiting(s, a, n) && c.action == DoGenesisLock(a)
    ensures Step(s, c).Success? <==> LocksInTime(s, c, a, n)
    ensures Step(s, c).Success? ==> GenesisOf(Apply(s, c), a) == Running
  {}

  lemma AwaitingElsewhere(s: State, c: Call, b: Asset, a: Asset, n: nat)
    requires Awaiting(s, a, n) && a != b && (c.action == DoGenesisStart(b) || c.action == DoGenesisLock(b))
    ensures Awaiting(Apply(s, c), a, n)
  {
    GenesisCall(s, c, b);
  }

  lemma AwaitingKept(s: State, c: Call, a: Asset, n: nat)
    requires Awaiting(s, a, n) && !LocksInTime(s, c, a, n)
    ensures Awaiting(Apply(s, c), a, n)
  {
    match c.action
    case DoExecute(b) =>
      ExecuteCall(s, c, b);
      if a != b {
        OtherAssetExecutes(s, c, b, a, 0);
        forall m: nat ensures SameRound(s, Apply(s, c), (a, m)) {}
      }
    case DoGenesisStart(b) => if a != b { AwaitingElsewhere(s, c, b, a, n); }
    case DoGenesisLock(b) =>
      if a == b { LockSucceedsExactlyWhen(s, c, a, n); } else { AwaitingElsewhere(s, c, b, a, n); }
    case _ => QuietCall(s, c);
  }

  lemma RunningStays(s: State, c: Call, a: Asset)
    requires GenesisOf(s, a) == Running
    ensures GenesisOf(Apply(s, c), a) == Running
  {
    match c.action
    case DoExecute(b) => ExecuteCall(s, c, b);
    case DoGenesisStart(b) => GenesisCall(s, c, b);
    case DoGenesisLock(b) => GenesisCall(s, c, b);
    case _ => QuietCall(s, c);
  }

  lemma {:induction false} RunningAlways(s: State, calls: seq<Call>, a: Asset)
    requires GenesisOf(s, a) == Running
    ensures GenesisOf(Run(s, calls), a) == Running
    decreases |calls|
  {
    if calls == [] {
    } else {
      RunningStays(s, calls[0], a);
      RunningAlways(Apply(s, calls[0]), calls[1..], a);
    }
  }

  // An asset comes to life if and only if genesis_lock is executed in the one
  // epoch genesis_start opened; otherwise its round stays open, and open rounds
  // pay and refund nothing.
  lemma {:induction false} RunsExactlyWhen(s: State, calls: seq<Call>, a: Asset, n: nat, user: Address)
    requires Awaiting(s, a, n)
    ensures GenesisOf(Run(s, calls), a) == Running <==> LockedInTime(s, calls, a, n)
    ensures !LockedInTime(s, calls, a, n) ==>
              Awaiting(Run(s, calls), a, n) && Claimable(Run(s, calls), (a, n), user) == Some(0)
    decreases |calls|
  {
    if calls == [] {
    } else if LocksInTime(s, calls[0], a, n) {
      LockSucceedsExactlyWhen(s, calls[0], a, n);
      RunningAlways(Apply(s, calls[0]), calls[1..], a);
    } else {
      AwaitingKept(s, calls[0], a, n);
      RunsExactlyWhen(Apply(s, calls[0]), calls[1..], a, n, user);
    }
  }

  // From deployment on: any run, a successful genesis_start, any run.
  lemma RunsFromStartExactlyWhen(s: State, before: seq<Call>, start: Call, after: seq<Call>, a: Asset)
    requires s.rounds == map[] && s.genesis == map[] && start.action == DoGenesisStart(a)
    requires Step(Run(s, before), start).Success?
    ensures var (v, n) := (Apply(Run(s, before), start), Epoch(Run(s, before).now) + 1);
            GenesisOf(Run(v, after), a) == Running <==> LockedInTime(v, after, a, n)
  {
    BeforeLockAlways(s, before, a);
    StartAwaits(Run(s, before), start, a);
    RunsExactlyWhen(Apply(Run(s, before), start), after, a, Epoch(Run(s, before).now) + 1, 0);
  }

  lemma {:induction false} NeverInTime(s: State, calls: seq<Call>, a: Asset, n: nat)
    requires n < Epoch(s.now)
    ensures !LockedInTime(s, calls, a, n)
    decreases |calls|
  {
    if calls == [] {
    } else {
      ClockForward(s, calls[0]);
      EpochMono(s.now, Apply(s, calls[0]).now);
      NeverInTime(Apply(s, calls[0]), calls[1..], a, n);
    }
  }

  // Once that epoch is past, the asset is dead in every run and the stakes on
  // its one round are lost.
  lemma DeadForever(s: State, calls: seq<Call>, a: Asset, n: nat, user: Address)
    requires Awaiting(s, a, n) && n < Epoch(s.now)
    ensures Awaiting(Run(s, calls), a, n) && Claimable(Run(s, calls), (a, n), user) == Some(0)
  {
    NeverInTime(s, calls, a, n);
    RunsExactlyWhen(s, calls, a, n, user);
  }

  // A complete run to such a state: one bet, and no genesis_lock before 600.
  lemma LateLockLosesAStake(feeBps: nat, calls: seq<Call>)
    ensures var bet := Do(DoBet(1, Btc, 1, Up, STAKE));
            var s := Run(Start(feeBps), [Do(DoGenesisStart(Btc)), bet, Do(Tick(600))]);
            && s.bets == map[((Btc, 1), 1) := Bet(Up, STAKE, false)] && Bal(s.token, SELF) == STAKE
            && Awaiting(Run(s, calls), Btc, 1) && Claimable(Run(s, calls), (Btc, 1), 1) == Some(0)
  {
    var s0 := Start(feeBps);
    var s1 := Apply(s0, Do(DoGenesisStart(Btc)));
    assert s1.rounds == map[(Btc, 1) := NewRound(0, 1)] && s1.genesis == map[Btc := Started];
    var r := NewRound(0, 1).(upAmount := STAKE, totalAmount := STAKE);
    BetLands(s1, 1, 1, Up, r);
    var s2 := Apply(s1, Do(DoBet(1, Btc, 1, Up, STAKE)));
    var s3 := Apply(s2, Do(Tick(600)));
    RunThree(s0, Do(DoGenesisStart(Btc)), Do(DoBet(1, Btc, 1, Up, STAKE)), Do(Tick(600)));
    assert s3.rounds == map[(Btc, 1) := r] && Epoch(s3.now) == 2;
    DeadForever(s3, calls, Btc, 1, 1);
  }

  // ----- A keeper that skips two epochs --------------------------------------------------------

  function Opening(): seq<Call> {
    [Do(DoGenesisStart(Btc)), Do(Tick(300)), Do(DoGenesisLock(Btc))]
  }

  function Skipping(): seq<Call> {
    [Do(DoBet(1, Btc, 2, Up, STAKE)), Do(Tick(1500)), Do(DoExecute(Btc))]
  }

  lemma Opens(feeBps: nat)
    ensures var s := Run(Start(feeBps), Opening());
            && s == Start(feeBps).(rounds := s.rounds, genesis := map[Btc := Running], now := 300)
            && s.rounds == map[(Btc, 1) := LockedThen(NewRound(0, 1)), (Btc, 2) := NewRound(300, 2)]
  {
    var s0 := Start(feeBps);
    var s1 := Apply(s0, Do(DoGenesisStart(Btc)));
    assert s1.rounds == map[(Btc, 1) := NewRound(0, 1)] && s1.genesis == map[Btc := Started];
    var s2 := Apply(s1, Do(Tick(300)));
    Locks(s2, NewRound(0, 1));
    RunThree(s0, Do(DoGenesisStart(Btc)), Do(Tick(300)), Do(DoGenesisLock(Btc)));
  }

  lemma Skips(s: State, r: Round)
    requires s.genesis == map[Btc := Running] && s.now == 1500 && r.status == Open
    requires s.rounds == map[(Btc, 1) := LockedThen(NewRound(0, 1)), (Btc, 2) := r]
    ensures Step(s, Do(DoExecute(Btc))).Success? && Apply(s, Do(DoExecute(Btc))).bets == s.bets
    ensures Stranded(Apply(s, Do(DoExecute(Btc))), Btc, 2)
    ensures HasStatus(Apply(s, Do(DoExecute(Btc))).rounds, (Btc, 6), Open)
  {
    assert GenesisOf(s, Btc) == Running && Epoch(1500) == 5;
    ExecuteCall(s, Do(DoExecute(Btc)), Btc);
    AdvancedAt(Climbing(), s, Btc, (Btc, 2));
  }

  lemma BetThenSkip(s: State)
    requires s.genesis == map[Btc := Running] && s.now == 300 && !s.config.paused && s.config.minBet <= STAKE
    requires s.rounds == map[(Btc, 1) := LockedThen(NewRound(0, 1)), (Btc, 2) := NewRound(300, 2)] && s.bets == map[]
    requires STAKE <= Bal(s.token, 1) && Bal(s.token, SELF) == 0
    ensures var s' := Run(s, Skipping());
            && s'.bets == map[((Btc, 2), 1) := Bet(Up, STAKE, false)]
            && HasStatus(s'.rounds, (Btc, 6), Open) && Stranded(s', Btc, 2)
  {
    var r := NewRound(300, 2).(upAmount := STAKE, totalAmount := STAKE);
    BetLands(s, 1, 2, Up, r);
    var s1 := Apply(s, Do(DoBet(1, Btc, 2, Up, STAKE)));
    Skips(Apply(s1, Do(Tick(1500))), r);
    RunThree(s, Do(DoBet(1, Btc, 2, Up, STAKE)), Do(Tick(1500)), Do(DoExecute(Btc)));
  }

  // A complete run in which the keeper next comes in epoch 5: the execution
  // succeeds, and the stake on round 2 can never be drawn again.
  lemma MissedEpochsLoseAStake(feeBps: nat, calls: seq<Call>)
    ensures var s := Run(Run(Start(feeBps), Opening()), Skipping());
            && s.bets == map[((Btc, 2), 1) := Bet(Up, STAKE, false)]
            && HasStatus(s.rounds, (Btc, 6), Open)
            && Stranded(Run(s, calls), Btc, 2) && Claimable(Run(s, calls), (Btc, 2), 1) == Some(0)
  {
    Opens(feeBps);
    BetThenSkip(Run(Start(feeBps), Opening()));
    StrandedForever(Run(Run(Start(feeBps), Opening()), Skipping()), calls, Btc, 2, 1);
  }
}

// What a keeper that misses epochs leaves behind: exactly how large a gap the
// pipeline recovers from.

module EpochKeeper {
  import opened Wrappers
  import opened Token
  import opened EpochMarket
  import opened EpochPipeline

  predicate Finished(rounds: Rounds, k: Key) {
    k !in rounds || rounds[k].status == Resolved || rounds[k].status == Cancelled
  }

  // The pipeline as it should stand after epoch `last` was executed: every
  // earlier round is closed, round `last` is locked or cancelled (or never
  // existed), and round last + 1 takes bets.
  ghost predicate OnTrack(s: State, a: Asset, last: nat) {
    && GenesisOf(s, a) == Running
    && last <= Epoch(s.now)
    && (forall n: nat :: n < last ==> Finished(s.rounds, (a, n)))
    && !HasStatus(s.rounds, (a, last), Open) && !HasStatus(s.rounds, (a, last), Resolved)
    && HasStatus(s.rounds, (a, last + 1), Open)
    && (forall n: nat :: last + 1 < n ==> (a, n) !in s.rounds)
  }

  // The epoch last executed, after this call.
  function LastAfter(s: State, c: Call, a: Asset, last: nat): nat {
    if c.action == DoExecute(a) && Step(s, c).Success? then Epoch(s.now) else last
  }

  // The keeper never skips two whole epochs in a row.
  predicate Punctual(s: State, calls: seq<Call>, a: Asset, last: nat)
    decreases |calls|
  {
    calls == [] ||
    (LastAfter(s, calls[0], a, last) <= last + 2
     && Punctual(Apply(s, calls[0]), calls[1..], a, LastAfter(s, calls[0], a, last)))
  }

  function LastOfRun(s: State, calls: seq<Call>, a: Asset, last: nat): nat
    decreases |calls|
  {
    if calls == [] then last else LastOfRun(Apply(s, calls[0]), calls[1..], a, LastAfter(s, calls[0], a, last))
  }

  // ----- One execution -----------------------------------------------------------------

  lemma ExecuteAdvances(s: State, c: Call, a: Asset, last: nat)
    requires OnTrack(s, a, last) && c.action == DoExecute(a) && Step(s, c).Success? && !AlreadyRun(s, a)
    requires Epoch(s.now) <= last + 2
    ensures OnTrack(Apply(s, c), a, Epoch(s.now))
  {
    var e := Epoch(s.now);
    var s' := Apply(s, c);
    ExecuteCall(s, c, a);
    assert s'.rounds == AdvancedRounds(c.feed, s, a);
    forall n: nat | n < e ensures Finished(s'.rounds, (a, n)) {
      AdvancedAt(c.feed, s, a, (a, n));
    }
    AdvancedAt(c.feed, s, a, (a, e));
    AdvancedAt(c.feed, s, a, (a, e + 1));
    forall n: nat | e + 1 < n ensures (a, n) !in s'.rounds {
      AdvancedAt(c.feed, s, a, (a, n));
    }
  }

  // A gap of at most one epoch is made good.
  lemma ExecuteOnTrack(s: State, c: Call, a: Asset, last: nat)
    requires OnTrack(s, a, last) && c.action == DoExecute(a) && Step(s, c).Success?
    requires Epoch(s.now) <= last + 2
    ensures OnTrack(Apply(s, c), a, Epoch(s.now))
  {
    if AlreadyRun(s, a) {
      assert Epoch(s.now) == last;
      assert Apply(s, c) == s;
    } else {
      ExecuteAdvances(s, c, a, last);
    }
  }

  // A longer one is not: the round that was taking bets is passed over.
  lemma LongGapSkips(s: State, c: Call, a: Asset, last: nat)
    requires OnTrack(s, a, last) && c.action == DoExecute(a) && Step(s, c).Success?
    requires last + 2 < Epoch(s.now)
    ensures HasStatus(Apply(s, c).rounds, (a, last + 1), Open)
    ensures !OnTrack(Apply(s, c), a, Epoch(s.now))
  {
    ExecuteCall(s, c, a);
    AdvancedAt(c.feed, s, a, (a, last + 1));
  }

  // After an execution the pipeline is as it should be if and only if the
  // keeper skipped at most one whole epoch.
  lemma RecoversExactlyWhen(s: State, c: Call, a: Asset, last: nat)
    requires OnTrack(s, a, last) && c.action == DoExecute(a) && Step(s, c).Success?
    ensures OnTrack(Apply(s, c), a, Epoch(s.now)) <==> Epoch(s.now) <= last + 2
  {
    if Epoch(s.now) <= last + 2 {
      ExecuteOnTrack(s, c, a, last);
    } else {
      LongGapSkips(s, c, a, last);
    }
  }

  // ----- Every other call ------------------------------------------------------------------

  lemma ExecuteElsewhere(s: State, c: Call, b: Asset, a: Asset, last: nat)
    requires OnTrack(s, a, last) && c.action == DoExecute(b) && (a != b || Step(s, c).Failure?)
    ensures OnTrack(Apply(s, c), a, last)
  {
    if a != b {
      ExecuteCall(s, c, b);
      forall n: nat ensures SameRound(s, Apply(s, c), (a, n)) {
        AdvancedAt(c.feed, s, b, (a, n));
      }
    }
  }

  lemma GenesisElsewhere(s: State, c: Call, b: Asset, a: Asset, last: nat)
    requires OnTrack(s, a, last) && (c.action == DoGenesisStart(b) || c.action == DoGenesisLock(b))
    ensures OnTrack(Apply(s, c), a, last)
  {
    GenesisCall(s, c, b);
    if a != b {
      forall n: nat ensures SameRound(s, Apply(s, c), (a, n)) {}
    }
  }

  lemma QuietOnTrack(s: State, c: Call, a: Asset, last: nat)
    requires OnTrack(s, a, last) && !Drives(c)
    ensures OnTrack(Apply(s, c), a, last)
  {
    QuietCall(s, c);
    EpochMono(s.now, Apply(s, c).now);
  }

  lemma CallOnTrack(s: State, c: Call, a: Asset, last: nat)
    requires OnTrack(s, a, last) && LastAfter(s, c, a, last) <= last + 2
    ensures OnTrack(Apply(s, c), a, LastAfter(s, c, a, last))
  {
    match c.action
    case DoExecute(b) =>
      if a == b && Step(s, c).Success? {
        ExecuteOnTrack(s, c, a, last);
      } else {
        ExecuteElsewhere(s, c, b, a, last);
      }
    case DoGenesisStart(b) => GenesisElsewhere(s, c, b, a, last);
    case DoGenesisLock(b) => GenesisElsewhere(s, c, b, a, last);
    case _ => QuietOnTrack(s, c, a, last);
  }

  // ----- Genesis puts the pipeline on track ---------------------------------------------------

  // Before genesis_lock an asset has at most the one round genesis_start opened.
  ghost predicate BeforeLock(s: State, a: Asset) {
    && (GenesisOf(s, a) == NotStarted ==> forall n: nat :: (a, n) !in s.rounds)
    && (GenesisOf(s, a) == Started ==>
          forall n: nat, m: nat :: (a, n) in s.rounds && (a, m) in s.rounds ==> n == m)
  }

  lemma StartKeeps(s: State, c: Call, a: Asset)
    requires BeforeLock(s, a) && c.action == DoGenesisStart(a)
    ensures BeforeLock(Apply(s, c), a)
  {}

  lemma LockKeeps(s: State, c: Call, a: Asset)
    requires BeforeLock(s, a) && c.action == DoGenesisLock(a)
    ensures BeforeLock(Apply(s, c), a)
    ensures Step(s, c).Success? ==> OnTrack(Apply(s, c), a, Epoch(s.now))
  {
    if Step(s, c).Success? {
      var e, s' := Epoch(s.now), Apply(s, c);
      assert forall n: nat :: (a, n) in s'.rounds ==> n == e || n == e + 1;
    }
  }

  lemma BeforeLockElsewhere(s: State, c: Call, b: Asset, a: Asset)
    requires BeforeLock(s, a) && a != b
    requires c.action == DoGenesisStart(b) || c.action == DoGenesisLock(b)
    ensures BeforeLock(Apply(s, c), a)
  {
    GenesisCall(s, c, b);
  }

  lemma BeforeLockKept(s: State, c: Call, a: Asset)
    requires BeforeLock(s, a)
    ensures BeforeLock(Apply(s, c), a)
  {
    match c.action
    case DoExecute(b) =>
      ExecuteCall(s, c, b);
      if a != b {
        OtherAssetExecutes(s, c, b, a, 0);
        forall n: nat ensures SameRound(s, Apply(s, c), (a, n)) {}
      }
    case DoGenesisStart(b) => if a == b { StartKeeps(s, c, a); } else { BeforeLockElsewhere(s, c, b, a); }
    case DoGenesisLock(b) => if a == b { LockKeeps(s, c, a); } else { BeforeLockElsewhere(s, c, b, a); }
    case _ => QuietCall(s, c);
  }

  lemma {:induction false} BeforeLockAlways(s: State, calls: seq<Call>, a: Asset)
    requires BeforeLock(s, a)
    ensures BeforeLock(Run(s, calls), a)
    decreases |calls|
  {
    if calls == [] {
    } else {
      BeforeLockKept(s, calls[0], a);
      BeforeLockAlways(Apply(s, calls[0]), calls[1..], a);
    }
  }

  // ----- What a longer gap strands -----------------------------------------------------------

  // An open round two epochs old.
  ghost predicate Stranded(s: State, a: Asset, n: nat) {
    HasStatus(s.rounds, (a, n), Open) && n + 2 <= Epoch(s.now) && GenesisOf(s, a) == Running
  }

  lemma StrandedStays(s: State, c: Call, a: Asset, n: nat)
    requires Stranded(s, a, n)
    ensures Stranded(Apply(s, c), a, n)
  {
    match c.action
    case DoExecute(b) =>
      ExecuteCall(s, c, b);
      AdvancedAt(c.feed, s, b, (a, n));
    case DoGenesisStart(b) => GenesisCall(s, c, b);
    case DoGenesisLock(b) => GenesisCall(s, c, b);
    case _ =>
      QuietCall(s, c);
      EpochMono(s.now, Apply(s, c).now);
  }

  // The stakes of a round passed over by a longer gap can never be drawn again:
  // it stays open in every run, and an open round pays and refunds nothing.
  lemma {:induction false} StrandedForever(s: State, calls: seq<Call>, a: Asset, n: nat, user: Address)
    requires Stranded(s, a, n)
    ensures Stranded(Run(s, calls), a, n)
    ensures Claimable(Run(s, calls), (a, n), user) == Some(0)
    decreases |calls|
  {
    if calls == [] {
    } else {
      StrandedStays(s, calls[0], a, n);
      StrandedForever(Apply(s, calls[0]), calls[1..], a, n, user);
    }
  }

  // In particular a gap of two whole epochs strands the round that took bets.
  lemma LongGapStrands(s: State, c: Call, a: Asset, last: nat)
    requires OnTrack(s, a, last) && c.action == DoExecute(a) && Step(s, c).Success?
    requires last + 2 < Epoch(s.now)
    ensures Stranded(Apply(s, c), a, last + 1)
  {
    LongGapSkips(s, c, a, last);
    ExecuteCall(s, c, a);
  }

  // ----- Exactly which runs stay on track ----------------------------------------------------

  lemma {:induction false} LastGrows(s: State, calls: seq<Call>, a: Asset, last: nat)
    requires last <= Epoch(s.now)
    ensures last <= LastOfRun(s, calls, a, last)
    decreases |calls|
  {
    if calls == [] {
    } else {
      ClockForward(s, calls[0]);
      EpochMono(s.now, Apply(s, calls[0]).now);
      LastGrows(Apply(s, calls[0]), calls[1..], a, LastAfter(s, calls[0], a, last));
    }
  }

  // The keeper-gap theorem: whatever else happens, after every run each round
  // before the epoch last executed is absent, resolved or cancelled, that epoch's
  // round is locked or cancelled (or absent) and the next one is open, if and
  // only if the keeper never skipped two whole epochs in a row.
  lemma {:induction false} KeeperGap(s: State, calls: seq<Call>, a: Asset, last: nat)
    requires OnTrack(s, a, last)
    ensures OnTrack(Run(s, calls), a, LastOfRun(s, calls, a, last)) <==> Punctual(s, calls, a, last)
    decreases |calls|
  {
    if calls == [] {
    } else {
      var c, rest := calls[0], calls[1..];
      var s', last' := Apply(s, c), LastAfter(s, c, a, last);
      if last' <= last + 2 {
        CallOnTrack(s, c, a, last);
        KeeperGap(s', rest, a, last');
      } else {
        LongGapStrands(s, c, a, last);
        StrandedForever(s', rest, a, last + 1, 0);
        ClockForward(s, c);
        EpochMono(s.now, s'.now);
        LastGrows(s', rest, a, last');
        assert HasStatus(Run(s', rest).rounds, (a, last + 1), Open);
      }
    }
  }

  // So it is from deployment on: any run, a successful genesis_lock, any run.
  lemma KeeperGapFromGenesis(s: State, before: seq<Call>, lock: Call, after: seq<Call>, a: Asset)
    requires s.rounds == map[] && s.genesis == map[] && lock.action == DoGenesisLock(a)
    requires Step(Run(s, before), lock).Success?
    ensures var (v, first) := (Apply(Run(s, before), lock), Epoch(Run(s, before).now));
            OnTrack(Run(v, after), a, LastOfRun(v, after, a, first)) <==> Punctual(v, after, a, first)
  {
    BeforeLockAlways(s, before, a);
    LockKeeps(Run(s, before), lock, a);
    KeeperGap(Apply(Run(s, before), lock), after, a, Epoch(Run(s, before).now));
  }
}

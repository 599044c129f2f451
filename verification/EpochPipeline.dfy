// The round pipeline of the epoch market: what each call does to the rounds,
// that rounds two epochs old are frozen, and that executing twice in one epoch
// is executing once.

module EpochPipeline {
  import opened Wrappers
  import opened Token
  import opened Oracle
  import opened EpochMarket

  // ----- What one call does to the rounds ------------------------------------------

  lemma AdvancedAt(feed: Feed<Asset>, s: State, a: Asset, k: Key)
    ensures k in AdvancedRounds(feed, s, a) <==> k in s.rounds || k == (a, Epoch(s.now) + 1)
    ensures k in s.rounds && k.0 == a ==>
              AdvancedRounds(feed, s, a)[k] == Advanced(feed, a, Epoch(s.now), s.config, k.1, s.rounds[k])
    ensures k in s.rounds && k.0 != a ==> AdvancedRounds(feed, s, a)[k] == s.rounds[k]
    ensures k !in s.rounds && k == (a, Epoch(s.now) + 1) ==>
              AdvancedRounds(feed, s, a)[k] == NewRound(Epoch(s.now) * INTERVAL, k.1)
  {}

  // Bets change a round's amounts and nothing else about it.
  predicate SameStage(r: Round, r': Round) {
    && r'.status == r.status && r'.startPrice == r.startPrice && r'.endPrice == r.endPrice
    && r'.lockTime == r.lockTime && r'.closeTime == r.closeTime
  }

  ghost predicate SameStages(s: State, s': State) {
    && s'.rounds.Keys == s.rounds.Keys
    && (forall k :: k in s.rounds ==> SameStage(s.rounds[k], s'.rounds[k]))
    && s'.genesis == s.genesis
    && s.now <= s'.now
  }

  predicate Drives(c: Call) {
    c.action.DoGenesisStart? || c.action.DoGenesisLock? || c.action.DoExecute?
  }

  lemma BetKeepsStages(s: State, user: Address, a: Asset, epoch: nat, side: Direction, amount: int)
    requires PlaceBet(s, user, a, epoch, side, amount).Success?
    ensures SameStages(s, PlaceBet(s, user, a, epoch, side, amount).value)
    ensures PlaceBet(s, user, a, epoch, side, amount).value.now == s.now
  {}

  lemma BatchLeaves(s: State, user: Address, all: Option<Batch>)
    requires PayBatch(s, user, all).Success?
    ensures var s' := PayBatch(s, user, all).value;
            s'.rounds == s.rounds && s'.genesis == s.genesis && s'.now == s.now
  {}

  lemma RestLeaves(s: State, c: Call)
    requires c.action.DoClaimTreasury? || c.action.DoSetConfig? || c.action.Tick? || c.action.Pay?
    ensures var s' := Apply(s, c);
            s'.rounds == s.rounds && s'.genesis == s.genesis && s.now <= s'.now && (!c.action.Tick? ==> s'.now == s.now)
  {}

  // Bets, claims, refunds, configuration, time and payments move no round.
  lemma QuietCall(s: State, c: Call)
    requires !Drives(c)
    ensures SameStages(s, Apply(s, c))
    ensures !c.action.Tick? ==> Apply(s, c).now == s.now
  {
    var a := c.action;
    if a.DoClaimTreasury? || a.DoSetConfig? || a.Tick? || a.Pay? {
      RestLeaves(s, c);
    } else if Step(s, c).Success? {
      if a.DoBet? {
        BetKeepsStages(s, a.user, a.asset, a.epoch, a.side, a.amount);
      } else if a.DoClaim? {
        BatchLeaves(s, a.user, ClaimEpochs(s.rounds, s.bets, a.asset, a.user, a.epochs));
      } else {
        BatchLeaves(s, a.user, RefundEpochs(s.rounds, s.bets, a.asset, a.user, a.epochs));
      }
    }
  }

  lemma ExecuteCall(s: State, c: Call, a: Asset)
    requires c.action == DoExecute(a)
    ensures var s' := Apply(s, c);
            && s'.now == s.now && s'.genesis == s.genesis && s'.bets == s.bets
            && (s' == s || (GenesisOf(s, a) == Running && !AlreadyRun(s, a) && s'.rounds == AdvancedRounds(c.feed, s, a)
                            && (Epoch(s.now) == 0 ==> (a, 0) !in s.rounds)))
  {}

  // ----- Old rounds are frozen -------------------------------------------------------

  ghost predicate SameRound(s: State, s': State, k: Key) {
    && (k in s.rounds <==> k in s'.rounds)
    && (k in s.rounds ==> s'.rounds[k] == s.rounds[k])
  }

  lemma OldRoundsUntouched(s: State, c: Call, k: Key)
    requires k.1 + 2 < Epoch(s.now)
    ensures SameRound(s, Apply(s, c), k)
  {
    if c.action.DoExecute? {
      ExecuteCall(s, c, c.action.asset);
      AdvancedAt(c.feed, s, c.action.asset, k);
    }
  }

  lemma ClockForward(s: State, c: Call)
    ensures s.now <= Apply(s, c).now
  {
    if Drives(c) {
      if c.action.DoExecute? {
        ExecuteCall(s, c, c.action.asset);
      }
    } else {
      QuietCall(s, c);
    }
  }

  lemma EpochMono(t: nat, t': nat)
    requires t <= t'
    ensures Epoch(t) <= Epoch(t')
  {}

  // No call of any run changes a round, in any field, once the epoch exceeds
  // its own by more than two.
  lemma {:induction false} FrozenForever(s: State, calls: seq<Call>, k: Key)
    requires k.1 + 2 < Epoch(s.now)
    ensures SameRound(s, Run(s, calls), k)
    decreases |calls|
  {
    if calls == [] {
    } else {
      OldRoundsUntouched(s, calls[0], k);
      ClockForward(s, calls[0]);
      EpochMono(s.now, Apply(s, calls[0]).now);
      FrozenForever(Apply(s, calls[0]), calls[1..], k);
    }
  }

  // ----- execute_round is idempotent -----------------------------------------------------

  // Epoch e has nothing left for execute_round to do: its round has left the
  // open state or, if it never existed, the two before it are closed and the
  // next one exists.
  ghost predicate NothingToDo(s: State, a: Asset, e: nat) {
    && GenesisOf(s, a) == Running
    && !HasStatus(s.rounds, (a, e), Open)
    && ((a, e) !in s.rounds ==>
          && (2 <= e ==> !HasStatus(s.rounds, (a, e - 2), Locked))
          && (1 <= e ==> !HasStatus(s.rounds, (a, e - 1), Locked) && !HasStatus(s.rounds, (a, e - 1), Open))
          && (a, e + 1) in s.rounds)
  }

  lemma ExecuteFinishes(s: State, c: Call, a: Asset)
    requires c.action == DoExecute(a) && Step(s, c).Success?
    ensures NothingToDo(Apply(s, c), a, Epoch(s.now))
  {
    var e := Epoch(s.now);
    ExecuteCall(s, c, a);
    AdvancedAt(c.feed, s, a, (a, e));
    AdvancedAt(c.feed, s, a, (a, e + 1));
    if 1 <= e { AdvancedAt(c.feed, s, a, (a, e - 1)); }
    if 2 <= e { AdvancedAt(c.feed, s, a, (a, e - 2)); }
  }

  // With nothing to do, executing again succeeds and changes nothing, whatever
  // the oracle and the configuration say by then.
  lemma ExecuteIdle(s: State, c: Call, a: Asset)
    requires c.action == DoExecute(a) && NothingToDo(s, a, Epoch(s.now))
    ensures Step(s, c) == Success(s)
  {
    var e := Epoch(s.now);
    if !AlreadyRun(s, a) {
      forall k | k in s.rounds ensures AdvancedRounds(c.feed, s, a)[k] == s.rounds[k] {
        AdvancedAt(c.feed, s, a, k);
      }
      assert AdvancedRounds(c.feed, s, a).Keys == s.rounds.Keys;
      assert AdvancedRounds(c.feed, s, a) == s.rounds;
    }
  }

  lemma GenesisCall(s: State, c: Call, b: Asset)
    requires c.action == DoGenesisStart(b) || c.action == DoGenesisLock(b)
    ensures Apply(s, c).now == s.now && Apply(s, c).bets == s.bets
    ensures GenesisOf(s, b) == Running ==> Apply(s, c) == s
    ensures forall k :: k in s.rounds && k.0 != b ==> k in Apply(s, c).rounds && Apply(s, c).rounds[k] == s.rounds[k]
    ensures forall k :: k in Apply(s, c).rounds && k.0 != b ==> k in s.rounds
    ensures forall x :: x != b ==> GenesisOf(Apply(s, c), x) == GenesisOf(s, x)
  {}

  lemma NothingToDoLasts(s: State, c: Call, a: Asset, e: nat)
    requires NothingToDo(s, a, e) && Epoch(s.now) == e
    ensures NothingToDo(Apply(s, c), a, e)
  {
    match c.action
    case DoExecute(b) =>
      if b == a {
        ExecuteIdle(s, c, a);
      } else {
        OtherAssetExecutes(s, c, b, a, e);
      }
    case DoGenesisStart(b) => GenesisCall(s, c, b);
    case DoGenesisLock(b) => GenesisCall(s, c, b);
    case _ => QuietCall(s, c);
  }

  lemma OtherAssetExecutes(s: State, c: Call, b: Asset, a: Asset, e: nat)
    requires c.action == DoExecute(b) && a != b
    ensures GenesisOf(Apply(s, c), a) == GenesisOf(s, a)
    ensures forall n :: SameRound(s, Apply(s, c), (a, n))
  {
    ExecuteCall(s, c, b);
    forall n ensures SameRound(s, Apply(s, c), (a, n)) {
      AdvancedAt(c.feed, s, b, (a, n));
    }
  }

  // Idempotence: once execute_round has succeeded in an epoch, then after any
  // calls whatsoever in that epoch (bets, claims, refunds, configuration,
  // other assets) it succeeds again and changes nothing. No reachability is
  // assumed, and the oracle may have changed its mind in between.
  lemma {:induction false} ExecuteIsIdempotent(s: State, a: Asset, calls: seq<Call>, again: Call)
    requires NothingToDo(s, a, Epoch(s.now)) && again.action == DoExecute(a)
    requires Epoch(Run(s, calls).now) == Epoch(s.now)
    ensures Step(Run(s, calls), again) == Success(Run(s, calls))
    decreases |calls|
  {
    if calls == [] {
      ExecuteIdle(s, again, a);
    } else {
      var s' := Apply(s, calls[0]);
      ClockForward(s, calls[0]);
      RunForward(s', calls[1..]);
      EpochMono(s.now, s'.now);
      EpochMono(s'.now, Run(s', calls[1..]).now);
      NothingToDoLasts(s, calls[0], a, Epoch(s.now));
      ExecuteIsIdempotent(s', a, calls[1..], again);
    }
  }

  lemma {:induction false} RunForward(s: State, calls: seq<Call>)
    ensures s.now <= Run(s, calls).now
    decreases |calls|
  {
    if calls == [] {
    } else {
      ClockForward(s, calls[0]);
      RunForward(Apply(s, calls[0]), calls[1..]);
    }
  }

  lemma ExecuteTwice(s: State, first: Call, calls: seq<Call>, again: Call, a: Asset)
    requires first.action == again.action == DoExecute(a) && Step(s, first).Success?
    requires Epoch(Run(Apply(s, first), calls).now) == Epoch(s.now)
    ensures Step(Run(Apply(s, first), calls), again) == Success(Run(Apply(s, first), calls))
  {
    ExecuteFinishes(s, first, a);
    ExecuteCall(s, first, a);
    ExecuteIsIdempotent(Apply(s, first), a, calls, again);
  }
}

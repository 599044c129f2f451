// Which oracle reading fed which price of the epoch market, in every run.

module EpochPrices {
  import opened Oracle
  import opened EpochMarket
  import opened EpochPipeline

  // The rounds that were ever locked, growing along a run.
  ghost function LockedAfter(s: State, c: Call, locked: set<Key>): set<Key> {
    locked + set k | k in Apply(s, c).rounds && Apply(s, c).rounds[k].status == Status.Locked
  }

  ghost function EverLocked(s: State, calls: seq<Call>, locked: set<Key>): set<Key>
    decreases |calls|
  {
    if calls == [] then locked else EverLocked(Apply(s, calls[0]), calls[1..], LockedAfter(s, calls[0], locked))
  }

  // What holds of the asset's round n in epoch e: its epoch is at most the next
  // one, its times are the epoch's, and its status agrees with what it went
  // through and with its neighbours.
  ghost predicate Chained(rounds: Rounds, e: nat, locked: set<Key>, a: Asset, n: nat)
    requires (a, n) in rounds
  {
    var r := rounds[(a, n)];
    && 1 <= n <= e + 1
    && r.lockTime == n * INTERVAL && r.closeTime == (n + 1) * INTERVAL
    && (r.status == Open ==> (a, n) !in locked && !HasStatus(rounds, (a, n - 1), Resolved))
    && (r.status == Status.Locked ==> (a, n) in locked && (a, n + 1) !in locked)
    && (r.status == Resolved ==> (a, n) in locked && n < e)
    && (r.status == Resolved && (a, n + 1) in locked ==>
          (a, n + 1) in rounds && r.endPrice == rounds[(a, n + 1)].startPrice)
    && ((a, n) in locked ==> n <= e)
  }

  ghost predicate Chain(s: State, locked: set<Key>) {
    && (forall a, n: nat :: (a, n) in s.rounds ==> Chained(s.rounds, Epoch(s.now), locked, a, n))
    && locked <= s.rounds.Keys
    && (forall k :: k in s.rounds ==> GenesisOf(s, k.0) != NotStarted)
    && (forall k :: k in s.rounds && GenesisOf(s, k.0) == Started ==> s.rounds[k].status == Open)
  }

  lemma LockedMember(s: State, c: Call, locked: set<Key>, k: Key)
    ensures k in LockedAfter(s, c, locked) <==> k in locked || HasStatus(Apply(s, c).rounds, k, Status.Locked)
  {}

  // ----- Execution ---------------------------------------------------------------------

  // Everything about the neighbourhood of round n that one execution needs.
  ghost predicate Around(rounds: Rounds, e: nat, locked: set<Key>, a: Asset, n: nat) {
    && ((a, n) in rounds ==> Chained(rounds, e, locked, a, n))
    && ((a, n + 1) in rounds ==> Chained(rounds, e, locked, a, n + 1))
    && (1 <= n && (a, n - 1) in rounds ==> Chained(rounds, e, locked, a, n - 1))
    && ((a, n) in locked ==> (a, n) in rounds)
    && ((a, n + 1) in locked ==> (a, n + 1) in rounds)
  }

  // How rounds n - 1, n and n + 1 come out of an execution.
  ghost predicate Moved(feed: Feed<Asset>, s: State, a: Asset, n: nat, rounds: Rounds, locked: set<Key>,
                        locked': set<Key>)
  {
    var e := Epoch(s.now);
    && (forall m: nat :: n <= m + 1 <= n + 2 ==>
          && ((a, m) in s.rounds ==>
                (a, m) in rounds && rounds[(a, m)] == Advanced(feed, a, e, s.config, m, s.rounds[(a, m)]))
          && ((a, m) !in s.rounds && (a, m) in rounds ==> m == e + 1 && rounds[(a, m)] == NewRound(e * INTERVAL, m))
          && ((a, m) in locked' <==> (a, m) in locked || HasStatus(rounds, (a, m), Status.Locked)))
  }

  lemma MoveChainsOld(feed: Feed<Asset>, s: State, a: Asset, n: nat, rounds: Rounds, locked: set<Key>,
                      locked': set<Key>)
    requires Around(s.rounds, Epoch(s.now), locked, a, n) && Moved(feed, s, a, n, rounds, locked, locked')
    requires (a, n) in s.rounds && !AlreadyRun(s, a)
    ensures Chained(rounds, Epoch(s.now), locked', a, n)
  {
    var e, r, r' := Epoch(s.now), s.rounds[(a, n)], rounds[(a, n)];
    assert n <= n + 1 && n <= (n + 1) + 1;
    assert (n - 1) + 1 == n;
    if r.status == Status.Locked || r.status == Resolved {
      assert n != e;
    }
    if n + 1 == e && (a, e) in s.rounds {
      assert s.rounds[(a, e)].status == Open;
    }
  }

  lemma MoveChainsNew(feed: Feed<Asset>, s: State, a: Asset, n: nat, rounds: Rounds, locked: set<Key>,
                      locked': set<Key>)
    requires Around(s.rounds, Epoch(s.now), locked, a, n) && Moved(feed, s, a, n, rounds, locked, locked')
    requires (a, n) !in s.rounds && (a, n) in rounds
    ensures Chained(rounds, Epoch(s.now), locked', a, n)
  {
    assert (n - 1) + 1 == n;
  }

  lemma AroundChain(s: State, locked: set<Key>, a: Asset, n: nat)
    requires Chain(s, locked)
    ensures Around(s.rounds, Epoch(s.now), locked, a, n)
  {}

  lemma ExecuteMoves(s: State, c: Call, a: Asset, locked: set<Key>, n: nat)
    requires c.action == DoExecute(a) && Apply(s, c) != s
    ensures Moved(c.feed, s, a, n, Apply(s, c).rounds, locked, LockedAfter(s, c, locked))
  {
    ExecuteCall(s, c, a);
    forall m: nat | n <= m + 1 <= n + 2
      ensures (a, m) in s.rounds ==>
                (a, m) in Apply(s, c).rounds
                && Apply(s, c).rounds[(a, m)] == Advanced(c.feed, a, Epoch(s.now), s.config, m, s.rounds[(a, m)])
      ensures (a, m) !in s.rounds && (a, m) in Apply(s, c).rounds ==>
                m == Epoch(s.now) + 1 && Apply(s, c).rounds[(a, m)] == NewRound(Epoch(s.now) * INTERVAL, m)
      ensures (a, m) in LockedAfter(s, c, locked) <==>
              (a, m) in locked || HasStatus(Apply(s, c).rounds, (a, m), Status.Locked)
    {
      AdvancedAt(c.feed, s, a, (a, m));
      LockedMember(s, c, locked, (a, m));
    }
  }

  lemma ExecuteChainedHere(s: State, c: Call, a: Asset, locked: set<Key>, n: nat)
    requires Chain(s, locked) && c.action == DoExecute(a) && Apply(s, c) != s && (a, n) in Apply(s, c).rounds
    ensures Chained(Apply(s, c).rounds, Epoch(s.now), LockedAfter(s, c, locked), a, n)
  {
    ExecuteCall(s, c, a);
    AroundChain(s, locked, a, n);
    ExecuteMoves(s, c, a, locked, n);
    if (a, n) in s.rounds {
      MoveChainsOld(c.feed, s, a, n, Apply(s, c).rounds, locked, LockedAfter(s, c, locked));
    } else {
      MoveChainsNew(c.feed, s, a, n, Apply(s, c).rounds, locked, LockedAfter(s, c, locked));
    }
  }

  // A round whose neighbourhood did not move.
  ghost predicate Still(s: State, s': State, locked: set<Key>, locked': set<Key>, a: Asset, n: nat) {
    && ((a, n) in s'.rounds ==> (a, n) in s.rounds && SameStage(s.rounds[(a, n)], s'.rounds[(a, n)]))
    && ((a, n) in locked' <==> (a, n) in locked)
    && ((a, n + 1) in locked' <==> (a, n + 1) in locked)
    && ((a, n + 1) in s.rounds ==> (a, n + 1) in s'.rounds && SameStage(s.rounds[(a, n + 1)], s'.rounds[(a, n + 1)]))
    && (1 <= n && (a, n - 1) in s'.rounds ==>
          (a, n - 1) in s.rounds && SameStage(s.rounds[(a, n - 1)], s'.rounds[(a, n - 1)]))
  }

  lemma StillChained(s: State, s': State, locked: set<Key>, locked': set<Key>, a: Asset, n: nat)
    requires Chain(s, locked) && Still(s, s', locked, locked', a, n) && s.now <= s'.now && (a, n) in s'.rounds
    ensures Chained(s'.rounds, Epoch(s'.now), locked', a, n)
  {
    EpochMono(s.now, s'.now);
    assert Chained(s.rounds, Epoch(s.now), locked, a, n);
  }

  lemma ExecuteChainedElsewhere(s: State, c: Call, b: Asset, locked: set<Key>, a: Asset, n: nat)
    requires Chain(s, locked) && c.action == DoExecute(b) && a != b && (a, n) in Apply(s, c).rounds
    ensures Chained(Apply(s, c).rounds, Epoch(s.now), LockedAfter(s, c, locked), a, n)
  {
    ExecuteCall(s, c, b);
    OtherAssetExecutes(s, c, b, a, 0);
    assert SameRound(s, Apply(s, c), (a, n)) && SameRound(s, Apply(s, c), (a, n + 1));
    if 1 <= n {
      assert SameRound(s, Apply(s, c), (a, n - 1));
    }
    LockedStays(s, c, locked, (a, n));
    LockedStays(s, c, locked, (a, n + 1));
    StillChained(s, Apply(s, c), locked, LockedAfter(s, c, locked), a, n);
  }

  lemma LockedStays(s: State, c: Call, locked: set<Key>, k: Key)
    requires Chain(s, locked)
    requires HasStatus(Apply(s, c).rounds, k, Status.Locked) ==> HasStatus(s.rounds, k, Status.Locked)
    ensures k in LockedAfter(s, c, locked) <==> k in locked
  {
    LockedMember(s, c, locked, k);
    if HasStatus(s.rounds, k, Status.Locked) {
      assert Chained(s.rounds, Epoch(s.now), locked, k.0, k.1);
    }
  }

  lemma ExecuteKeepsChain(s: State, c: Call, a: Asset, locked: set<Key>)
    requires Chain(s, locked) && c.action == DoExecute(a) && Apply(s, c) != s
    ensures Chain(Apply(s, c), LockedAfter(s, c, locked))
  {
    ExecuteCall(s, c, a);
    forall b, n: nat | (b, n) in Apply(s, c).rounds
      ensures Chained(Apply(s, c).rounds, Epoch(s.now), LockedAfter(s, c, locked), b, n)
    {
      if a == b {
        ExecuteChainedHere(s, c, a, locked, n);
      } else {
        ExecuteChainedElsewhere(s, c, a, locked, b, n);
      }
    }
    forall k ensures (k in s.rounds ==> k in Apply(s, c).rounds)
                  && (k in Apply(s, c).rounds ==> k in s.rounds || k.0 == a)
                  && (k in Apply(s, c).rounds && k.0 != a ==> Apply(s, c).rounds[k] == s.rounds[k])
    {
      AdvancedAt(c.feed, s, a, k);
    }
  }

  // ----- The other calls -----------------------------------------------------------------

  lemma QuietKeepsChain(s: State, c: Call, locked: set<Key>)
    requires Chain(s, locked) && !Drives(c)
    ensures Chain(Apply(s, c), LockedAfter(s, c, locked))
  {
    QuietCall(s, c);
    forall a, n: nat | (a, n) in Apply(s, c).rounds
      ensures Chained(Apply(s, c).rounds, Epoch(Apply(s, c).now), LockedAfter(s, c, locked), a, n)
    {
      LockedStays(s, c, locked, (a, n));
      LockedStays(s, c, locked, (a, n + 1));
      StillChained(s, Apply(s, c), locked, LockedAfter(s, c, locked), a, n);
    }
  }

  lemma UnchangedKeepsChain(s: State, c: Call, locked: set<Key>)
    requires Chain(s, locked) && Apply(s, c) == s
    ensures Chain(Apply(s, c), LockedAfter(s, c, locked))
  {
    forall a, n: nat | (a, n) in s.rounds
      ensures Chained(s.rounds, Epoch(s.now), LockedAfter(s, c, locked), a, n)
    {
      LockedStays(s, c, locked, (a, n));
      LockedStays(s, c, locked, (a, n + 1));
      StillChained(s, s, locked, LockedAfter(s, c, locked), a, n);
    }
  }

  // A genesis call on asset b seen from another asset.
  lemma GenesisChainedElsewhere(s: State, c: Call, b: Asset, locked: set<Key>, a: Asset, n: nat)
    requires Chain(s, locked) && (c.action == DoGenesisStart(b) || c.action == DoGenesisLock(b))
    requires a != b && (a, n) in Apply(s, c).rounds
    ensures Chained(Apply(s, c).rounds, Epoch(s.now), LockedAfter(s, c, locked), a, n)
  {
    GenesisCall(s, c, b);
    LockedStays(s, c, locked, (a, n));
    LockedStays(s, c, locked, (a, n + 1));
    StillChained(s, Apply(s, c), locked, LockedAfter(s, c, locked), a, n);
  }

  lemma StartKeepsChain(s: State, c: Call, b: Asset, locked: set<Key>)
    requires Chain(s, locked) && c.action == DoGenesisStart(b) && Step(s, c).Success?
    ensures Chain(Apply(s, c), LockedAfter(s, c, locked))
  {
    GenesisCall(s, c, b);
    var s', open := Apply(s, c), Epoch(s.now) + 1;
    assert s'.rounds == s.rounds[(b, open) := NewRound(s.now, open)];
    forall a, n: nat | (a, n) in s'.rounds
      ensures Chained(s'.rounds, Epoch(s.now), LockedAfter(s, c, locked), a, n)
    {
      if a == b {
        assert n == open;
        LockedMember(s, c, locked, (b, open));
        LockedMember(s, c, locked, (b, open + 1));
      } else {
        GenesisChainedElsewhere(s, c, b, locked, a, n);
      }
    }
  }

  // What genesis_lock does to its asset's rounds: the current one, which was
  // open, is locked or cancelled, and the next one opens.
  function GenesisLocked(feed: Feed<Asset>, s: State, b: Asset, n: nat): Round
    requires (b, n) in s.rounds
  {
    var ts := n * INTERVAL;
    if n == Epoch(s.now) then LockedAt(s.rounds[(b, n)], ts, FetchPrice(feed, b, ts, s.config.staleness))
    else s.rounds[(b, n)]
  }

  lemma GenesisLockAt(s: State, c: Call, b: Asset, n: nat)
    requires c.action == DoGenesisLock(b) && Step(s, c).Success?
    ensures var (e, s') := (Epoch(s.now), Apply(s, c));
            && HasStatus(s.rounds, (b, e), Open) && GenesisOf(s, b) == Started
            && ((b, n) in s'.rounds <==> (b, n) in s.rounds || n == e + 1)
            && ((b, n) in s.rounds ==> s'.rounds[(b, n)] == GenesisLocked(c.feed, s, b, n))
            && ((b, n) !in s.rounds && n == e + 1 ==> s'.rounds[(b, n)] == NewRound(e * INTERVAL, n))
  {}

  lemma LockChains(feed: Feed<Asset>, s: State, rounds: Rounds, b: Asset, n: nat, locked: set<Key>, locked': set<Key>)
    requires var e := Epoch(s.now);
             && Around(s.rounds, e, locked, b, n) && HasStatus(s.rounds, (b, e), Open)
             && (forall m: nat :: (b, m) in s.rounds ==> s.rounds[(b, m)].status == Open)
             && (forall m: nat :: n <= m + 1 <= n + 2 ==>
                   && ((b, m) in rounds <==> (b, m) in s.rounds || m == e + 1)
                   && ((b, m) in s.rounds ==> rounds[(b, m)] == GenesisLocked(feed, s, b, m))
                   && ((b, m) !in s.rounds && m == e + 1 ==> rounds[(b, m)] == NewRound(e * INTERVAL, m))
                   && ((b, m) in locked' <==> (b, m) in locked || HasStatus(rounds, (b, m), Status.Locked)))
    requires (b, n) in rounds
    ensures Chained(rounds, Epoch(s.now), locked', b, n)
  {
    assert n <= n + 1 && n <= (n + 1) + 1;
    assert (n - 1) + 1 == n;
  }

  lemma LockChainedHere(s: State, c: Call, b: Asset, locked: set<Key>, n: nat)
    requires Chain(s, locked) && c.action == DoGenesisLock(b) && Step(s, c).Success? && (b, n) in Apply(s, c).rounds
    ensures Chained(Apply(s, c).rounds, Epoch(s.now), LockedAfter(s, c, locked), b, n)
  {
    var e, s', locked' := Epoch(s.now), Apply(s, c), LockedAfter(s, c, locked);
    AroundChain(s, locked, b, n);
    forall m: nat | n <= m + 1 <= n + 2
      ensures (b, m) in s'.rounds <==> (b, m) in s.rounds || m == e + 1
      ensures (b, m) in s.rounds ==> s'.rounds[(b, m)] == GenesisLocked(c.feed, s, b, m)
      ensures (b, m) !in s.rounds && m == e + 1 ==> s'.rounds[(b, m)] == NewRound(e * INTERVAL, m)
      ensures (b, m) in locked' <==> (b, m) in locked || HasStatus(s'.rounds, (b, m), Status.Locked)
    {
      GenesisLockAt(s, c, b, m);
      LockedMember(s, c, locked, (b, m));
    }
    GenesisLockAt(s, c, b, n);
    LockChains(c.feed, s, s'.rounds, b, n, locked, locked');
  }

  lemma LockKeepsChain(s: State, c: Call, b: Asset, locked: set<Key>)
    requires Chain(s, locked) && c.action == DoGenesisLock(b) && Step(s, c).Success?
    ensures Chain(Apply(s, c), LockedAfter(s, c, locked))
  {
    GenesisCall(s, c, b);
    forall a, n: nat | (a, n) in Apply(s, c).rounds
      ensures Chained(Apply(s, c).rounds, Epoch(s.now), LockedAfter(s, c, locked), a, n)
    {
      if a == b {
        LockChainedHere(s, c, b, locked, n);
      } else {
        GenesisChainedElsewhere(s, c, b, locked, a, n);
      }
    }
    GenesisLockLeaves(s, c, b);
  }

  lemma GenesisLockLeaves(s: State, c: Call, b: Asset)
    requires c.action == DoGenesisLock(b) && Step(s, c).Success?
    ensures s.rounds.Keys <= Apply(s, c).rounds.Keys
    ensures GenesisOf(Apply(s, c), b) == Running
  {}

  lemma StepKeepsChain(s: State, c: Call, locked: set<Key>)
    requires Chain(s, locked)
    ensures Chain(Apply(s, c), LockedAfter(s, c, locked))
  {
    if Apply(s, c) == s {
      UnchangedKeepsChain(s, c, locked);
    } else {
      match c.action
      case DoExecute(a) => ExecuteKeepsChain(s, c, a, locked);
      case DoGenesisStart(b) => StartKeepsChain(s, c, b, locked);
      case DoGenesisLock(b) => LockKeepsChain(s, c, b, locked);
      case _ => QuietKeepsChain(s, c, locked);
    }
  }

  lemma {:induction false} ChainAlways(s: State, calls: seq<Call>, locked: set<Key>)
    requires Chain(s, locked)
    ensures Chain(Run(s, calls), EverLocked(s, calls, locked))
    decreases |calls|
  {
    if calls == [] {
    } else {
      StepKeepsChain(s, calls[0], locked);
      ChainAlways(Apply(s, calls[0]), calls[1..], LockedAfter(s, calls[0], locked));
    }
  }

  // Price chaining: in every run from deployment, with an oracle that may answer
  // every call differently, a resolved round ends at the price the next round
  // started from, if that one was ever locked.
  lemma PricesChain(s: State, calls: seq<Call>, a: Asset, n: nat)
    requires s.rounds == map[] && s.genesis == map[]
    requires HasStatus(Run(s, calls).rounds, (a, n), Resolved)
    requires (a, n + 1) in EverLocked(s, calls, {})
    ensures (a, n + 1) in Run(s, calls).rounds
    ensures Run(s, calls).rounds[(a, n)].endPrice == Run(s, calls).rounds[(a, n + 1)].startPrice
  {
    ChainAlways(s, calls, {});
    assert Chained(Run(s, calls).rounds, Epoch(Run(s, calls).now), EverLocked(s, calls, {}), a, n);
  }

  // ----- Pinned prices ----------------------------------------------------------------------

  // A price that a call was given for a timestamp, and accepted as fresh enough.
  datatype Reading = Reading(asset: Asset, ts: nat, price: int)

  ghost function ReadingAt(s: State, c: Call, a: Asset, ts: nat): set<Reading> {
    var price := FetchPrice(c.feed, a, ts, s.config.staleness);
    if price.Some? then {Reading(a, ts, price.value)} else {}
  }

  // What a successful call reads: genesis_lock and execute_round ask for the
  // epoch's own timestamp, and execute_round for the one before.
  ghost function ReadingsOf(s: State, c: Call): set<Reading> {
    var e := Epoch(s.now);
    if Step(s, c).Failure? then {}
    else
      match c.action
      case DoGenesisLock(a) => ReadingAt(s, c, a, e * INTERVAL)
      case DoExecute(a) =>
        ReadingAt(s, c, a, e * INTERVAL) + (if 1 <= e then ReadingAt(s, c, a, (e - 1) * INTERVAL) else {})
      case _ => {}
  }

  ghost function ReadingsOfRun(s: State, calls: seq<Call>, readings: set<Reading>): set<Reading>
    decreases |calls|
  {
    if calls == [] then readings
    else ReadingsOfRun(Apply(s, calls[0]), calls[1..], readings + ReadingsOf(s, calls[0]))
  }

  // Every recorded price was read for the epoch boundary it stands for,
  // whenever that was.
  ghost predicate PinnedAt(readings: set<Reading>, r: Round, everLocked: bool, a: Asset, n: nat) {
    && (everLocked ==> Reading(a, n * INTERVAL, r.startPrice) in readings)
    && (r.status == Resolved ==> Reading(a, (n + 1) * INTERVAL, r.endPrice) in readings)
  }

  ghost predicate Pinned(s: State, locked: set<Key>, readings: set<Reading>) {
    forall a, n: nat :: (a, n) in s.rounds ==> PinnedAt(readings, s.rounds[(a, n)], (a, n) in locked, a, n)
  }

  lemma AdvancePins(s: State, c: Call, n: nat, r: Round, was: bool, readings: set<Reading>)
    requires c.action.DoExecute? && Step(s, c).Success?
    requires PinnedAt(readings, r, was, c.action.asset, n) && (r.status == Status.Locked ==> was)
    ensures var r' := Advanced(c.feed, c.action.asset, Epoch(s.now), s.config, n, r);
            PinnedAt(readings + ReadingsOf(s, c), r', was || r'.status == Status.Locked, c.action.asset, n)
  {}

  // The state of one round before a call, as the pinning argument needs it.
  ghost predicate PinReady(s: State, locked: set<Key>, readings: set<Reading>, a: Asset, n: nat) {
    && ((a, n) in locked ==> (a, n) in s.rounds)
    && ((a, n) in s.rounds ==>
          && PinnedAt(readings, s.rounds[(a, n)], (a, n) in locked, a, n)
          && (s.rounds[(a, n)].status == Status.Locked ==> (a, n) in locked))
  }

  lemma ExecutePins(s: State, c: Call, b: Asset, locked: set<Key>, readings: set<Reading>, a: Asset, n: nat)
    requires c.action == DoExecute(b) && PinReady(s, locked, readings, a, n) && (a, n) in Apply(s, c).rounds
    ensures PinnedAt(readings + ReadingsOf(s, c), Apply(s, c).rounds[(a, n)], (a, n) in LockedAfter(s, c, locked), a, n)
  {
    ExecuteCall(s, c, b);
    LockedMember(s, c, locked, (a, n));
    if Apply(s, c) != s {
      AdvancedAt(c.feed, s, b, (a, n));
      if (a, n) in s.rounds && a == b {
        AdvancePins(s, c, n, s.rounds[(a, n)], (a, n) in locked, readings);
      }
    }
  }

  lemma StartPins(s: State, c: Call, b: Asset, locked: set<Key>, readings: set<Reading>, a: Asset, n: nat)
    requires c.action == DoGenesisStart(b) && PinReady(s, locked, readings, a, n) && (a, n) in Apply(s, c).rounds
    requires forall m: nat :: GenesisOf(s, b) == NotStarted ==> (b, m) !in s.rounds
    ensures PinnedAt(readings + ReadingsOf(s, c), Apply(s, c).rounds[(a, n)], (a, n) in LockedAfter(s, c, locked), a, n)
  {
    GenesisCall(s, c, b);
    LockedMember(s, c, locked, (a, n));
  }

  lemma LockPins(s: State, c: Call, b: Asset, locked: set<Key>, readings: set<Reading>, a: Asset, n: nat)
    requires c.action == DoGenesisLock(b) && PinReady(s, locked, readings, a, n) && (a, n) in Apply(s, c).rounds
    ensures PinnedAt(readings + ReadingsOf(s, c), Apply(s, c).rounds[(a, n)], (a, n) in LockedAfter(s, c, locked), a, n)
  {
    GenesisCall(s, c, b);
    LockedMember(s, c, locked, (a, n));
    if Step(s, c).Success? && a == b {
      GenesisLockAt(s, c, b, n);
    }
  }

  lemma StepPins(s: State, c: Call, locked: set<Key>, readings: set<Reading>)
    requires Chain(s, locked) && Pinned(s, locked, readings)
    ensures Pinned(Apply(s, c), LockedAfter(s, c, locked), readings + ReadingsOf(s, c))
  {
    forall a, n: nat | (a, n) in Apply(s, c).rounds
      ensures PinnedAt(readings + ReadingsOf(s, c), Apply(s, c).rounds[(a, n)],
                       (a, n) in LockedAfter(s, c, locked), a, n)
    {
      LockedMember(s, c, locked, (a, n));
      if (a, n) in s.rounds {
        assert Chained(s.rounds, Epoch(s.now), locked, a, n);
        assert PinnedAt(readings, s.rounds[(a, n)], (a, n) in locked, a, n);
      }
      match c.action
      case DoExecute(b) => ExecutePins(s, c, b, locked, readings, a, n);
      case DoGenesisStart(b) => StartPins(s, c, b, locked, readings, a, n);
      case DoGenesisLock(b) => LockPins(s, c, b, locked, readings, a, n);
      case _ => QuietCall(s, c);
    }
  }

  lemma {:induction false} PinnedAlways(s: State, calls: seq<Call>, locked: set<Key>, readings: set<Reading>)
    requires Chain(s, locked) && Pinned(s, locked, readings)
    ensures Pinned(Run(s, calls), EverLocked(s, calls, locked), ReadingsOfRun(s, calls, readings))
    decreases |calls|
  {
    if calls == [] {
    } else {
      var c := calls[0];
      StepPins(s, c, locked, readings);
      StepKeepsChain(s, c, locked);
      PinnedAlways(Apply(s, c), calls[1..], LockedAfter(s, c, locked), readings + ReadingsOf(s, c));
    }
  }

  // A call of the run was answered this price for the timestamp, by the oracle
  // as it then was, from data no older than the tolerance then in force.
  ghost predicate WasRead(s: State, calls: seq<Call>, a: Asset, ts: nat, price: int)
    decreases |calls|
  {
    calls != [] && (ReadBy(s, calls[0], a, ts, price) || WasRead(Apply(s, calls[0]), calls[1..], a, ts, price))
  }

  ghost predicate ReadBy(s: State, c: Call, a: Asset, ts: nat, price: int) {
    && (c.action == DoGenesisLock(a) || c.action == DoExecute(a)) && Step(s, c).Success?
    && c.feed(a, ts).Some? && c.feed(a, ts).value.price == price
    && ts <= c.feed(a, ts).value.timestamp + s.config.staleness
  }

  lemma {:induction false} ReadingsWereRead(s: State, calls: seq<Call>, readings: set<Reading>, r: Reading)
    requires r in ReadingsOfRun(s, calls, readings) && r !in readings
    ensures WasRead(s, calls, r.asset, r.ts, r.price)
    decreases |calls|
  {
    var c := calls[0];
    if r in ReadingsOf(s, c) {
      assert ReadBy(s, c, r.asset, r.ts, r.price);
    } else {
      ReadingsWereRead(Apply(s, c), calls[1..], readings + ReadingsOf(s, c), r);
    }
  }

  // Price pinning: in every run from deployment, with an oracle that may answer
  // every call differently, a resolved round started at a price read for n * 300
  // and ended at one read for (n + 1) * 300, each fresh enough when it was read,
  // however late the round was locked or closed.
  lemma PricesPinned(s: State, calls: seq<Call>, a: Asset, n: nat)
    requires s.rounds == map[] && s.genesis == map[]
    requires HasStatus(Run(s, calls).rounds, (a, n), Resolved)
    ensures var r := Run(s, calls).rounds[(a, n)];
            && WasRead(s, calls, a, n * INTERVAL, r.startPrice) && r.lockTime == n * INTERVAL
            && WasRead(s, calls, a, (n + 1) * INTERVAL, r.endPrice) && r.closeTime == (n + 1) * INTERVAL
            && (n + 1) * INTERVAL <= Run(s, calls).now
  {
    ChainAlways(s, calls, {});
    PinnedAlways(s, calls, {}, {});
    var v, locked := Run(s, calls), EverLocked(s, calls, {});
    assert Chained(v.rounds, Epoch(v.now), locked, a, n);
    assert PinnedAt(ReadingsOfRun(s, calls, {}), v.rounds[(a, n)], (a, n) in locked, a, n);
    ReadingsWereRead(s, calls, {}, Reading(a, n * INTERVAL, v.rounds[(a, n)].startPrice));
    ReadingsWereRead(s, calls, {}, Reading(a, (n + 1) * INTERVAL, v.rounds[(a, n)].endPrice));
  }

  lemma {:induction false} ReadFrom(feed: Feed<Asset>, s: State, calls: seq<Call>, a: Asset, ts: nat, price: int)
    requires WasRead(s, calls, a, ts, price) && forall c :: c in calls ==> c.feed == feed
    ensures feed(a, ts).Some? && feed(a, ts).value.price == price
    decreases |calls|
  {
    if !ReadBy(s, calls[0], a, ts, price) {
      ReadFrom(feed, Apply(s, calls[0]), calls[1..], a, ts, price);
    }
  }

  // Against one oracle the two prices are therefore its own for the two
  // timestamps: when the keeper came makes no difference to them.
  lemma PricesAreTheOracles(feed: Feed<Asset>, s: State, calls: seq<Call>, a: Asset, n: nat)
    requires s.rounds == map[] && s.genesis == map[]
    requires forall c :: c in calls ==> c.feed == feed
    requires HasStatus(Run(s, calls).rounds, (a, n), Resolved)
    ensures var r := Run(s, calls).rounds[(a, n)];
            && feed(a, n * INTERVAL).Some? && r.startPrice == feed(a, n * INTERVAL).value.price
            && feed(a, (n + 1) * INTERVAL).Some? && r.endPrice == feed(a, (n + 1) * INTERVAL).value.price
  {
    PricesPinned(s, calls, a, n);
    ReadFrom(feed, s, calls, a, n * INTERVAL, Run(s, calls).rounds[(a, n)].startPrice);
    ReadFrom(feed, s, calls, a, (n + 1) * INTERVAL, Run(s, calls).rounds[(a, n)].endPrice);
  }
}

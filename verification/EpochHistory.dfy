// A user's bets on one asset along a run, and the bounded list of epochs the
// contract keeps of them.

module EpochHistory {
  import opened Wrappers
  import opened Token
  import opened EpochMarket
  import opened EpochPipeline

  // An accepted bet: the epoch it is for and the time it was placed.
  datatype Placed = Placed(epoch: nat, at: nat)

  predicate BetsOn(s: State, c: Call, a: Asset, user: Address) {
    c.action.DoBet? && c.action.asset == a && c.action.user == user && Step(s, c).Success?
  }

  // The full history of one user's bets on one asset, growing along a run.
  function LogAfter(s: State, c: Call, a: Asset, user: Address, log: seq<Placed>): seq<Placed> {
    if BetsOn(s, c, a, user) then log + [Placed(c.action.epoch, s.now)] else log
  }

  function LogOfRun(s: State, calls: seq<Call>, a: Asset, user: Address, log: seq<Placed>): seq<Placed>
    decreases |calls|
  {
    if calls == [] then log else LogOfRun(Apply(s, calls[0]), calls[1..], a, user, LogAfter(s, calls[0], a, user, log))
  }

  function EpochsIn(log: seq<Placed>): (out: seq<nat>)
    ensures |out| == |log|
  {
    seq(|log|, i requires 0 <= i < |log| => log[i].epoch)
  }

  function LastFew(xs: seq<nat>, k: nat): seq<nat> {
    if |xs| <= k then xs else xs[|xs| - k..]
  }

  predicate Increasing(xs: seq<nat>) {
    forall i, j :: 0 <= i < j < |xs| ==> xs[i] < xs[j]
  }

  ghost predicate Remembers(s: State, a: Asset, user: Address, log: seq<Placed>) {
    && EpochsOf(s, a, user) == LastFew(EpochsIn(log), USER_EPOCHS_CAP)
    && Increasing(EpochsIn(log))
    && (forall n: nat :: ((a, n), user) in s.bets <==> n in EpochsIn(log))
    && (forall i :: 0 <= i < |log| ==> log[i].at < log[i].epoch * INTERVAL && log[i].epoch <= Epoch(s.now) + 1)
  }

  // ----- Bet keys ----------------------------------------------------------------------

  lemma {:induction false} ClaimKeepsKeys(rounds: Rounds, bets: Bets, a: Asset, user: Address, epochs: seq<nat>)
    requires ClaimEpochs(rounds, bets, a, user, epochs).Some?
    ensures ClaimEpochs(rounds, bets, a, user, epochs).value.bets.Keys == bets.Keys
  {
    if epochs == [] {
    } else {
      ClaimKeepsKeys(rounds, bets, a, user, epochs[..|epochs| - 1]);
    }
  }

  lemma {:induction false} RefundKeepsKeys(rounds: Rounds, bets: Bets, a: Asset, user: Address, epochs: seq<nat>)
    requires RefundEpochs(rounds, bets, a, user, epochs).Some?
    ensures RefundEpochs(rounds, bets, a, user, epochs).value.bets.Keys == bets.Keys
  {
    if epochs == [] {
    } else {
      RefundKeepsKeys(rounds, bets, a, user, epochs[..|epochs| - 1]);
    }
  }

  lemma BatchKeeps(s: State, user: Address, all: Option<Batch>)
    requires PayBatch(s, user, all).Success?
    ensures all.Some? && PayBatch(s, user, all).value.bets == all.value.bets
    ensures PayBatch(s, user, all).value.userEpochs == s.userEpochs
  {}

  lemma DriveKeeps(s: State, c: Call)
    requires Drives(c)
    ensures Apply(s, c).bets == s.bets && Apply(s, c).userEpochs == s.userEpochs
  {}

  lemma RestKeeps(s: State, c: Call)
    requires c.action.DoClaimTreasury? || c.action.DoSetConfig? || c.action.Tick? || c.action.Pay?
    ensures Apply(s, c).bets == s.bets && Apply(s, c).userEpochs == s.userEpochs
  {}

  lemma NoBetKeepsKeys(s: State, c: Call)
    requires !c.action.DoBet?
    ensures Apply(s, c).bets.Keys == s.bets.Keys && Apply(s, c).userEpochs == s.userEpochs
  {
    var a := c.action;
    if Drives(c) {
      DriveKeeps(s, c);
    } else if !a.DoClaim? && !a.DoRefund? {
      RestKeeps(s, c);
    } else if Step(s, c).Success? {
      if a.DoClaim? {
        BatchKeeps(s, a.user, ClaimEpochs(s.rounds, s.bets, a.asset, a.user, a.epochs));
        ClaimKeepsKeys(s.rounds, s.bets, a.asset, a.user, a.epochs);
      } else {
        BatchKeeps(s, a.user, RefundEpochs(s.rounds, s.bets, a.asset, a.user, a.epochs));
        RefundKeepsKeys(s.rounds, s.bets, a.asset, a.user, a.epochs);
      }
    }
  }

  lemma BetEffect(s: State, c: Call)
    requires c.action.DoBet? && Step(s, c).Success?
    ensures var (b, s') := (c.action, Apply(s, c));
            && b.epoch == Epoch(s.now) + 1 && ((b.asset, b.epoch), b.user) !in s.bets
            && s'.bets.Keys == s.bets.Keys + {((b.asset, b.epoch), b.user)}
            && s'.userEpochs == s.userEpochs[(b.asset, b.user) := PushEpoch(EpochsOf(s, b.asset, b.user), b.epoch)]
            && s'.now == s.now
  {}

  // ----- The buffer ----------------------------------------------------------------------

  // Pushing onto the last few of an increasing history gives the last few of
  // the longer one.
  lemma PushKeepsTail(xs: seq<nat>, x: nat)
    requires Increasing(xs + [x])
    ensures PushEpoch(LastFew(xs, USER_EPOCHS_CAP), x) == LastFew(xs + [x], USER_EPOCHS_CAP)
  {
    var all := xs + [x];
    forall i | 0 <= i < |xs|
      ensures xs[i] < x
    {
      assert all[i] < all[|xs|];
    }
    assert x !in LastFew(xs, USER_EPOCHS_CAP);
  }

  lemma Appended(log: seq<Placed>, p: Placed)
    ensures EpochsIn(log + [p]) == EpochsIn(log) + [p.epoch]
  {}

  lemma LogStep(s: State, c: Call, a: Asset, user: Address, log: seq<Placed>)
    requires Remembers(s, a, user, log)
    ensures Remembers(Apply(s, c), a, user, LogAfter(s, c, a, user, log))
  {
    ClockForward(s, c);
    EpochMono(s.now, Apply(s, c).now);
    if !c.action.DoBet? {
      NoBetKeepsKeys(s, c);
    } else if Step(s, c).Success? {
      BetEffect(s, c);
      if BetsOn(s, c, a, user) {
        NewBet(s, Apply(s, c), a, user, log, c.action.epoch);
      }
    }
  }

  lemma NewBet(s: State, s': State, a: Asset, user: Address, log: seq<Placed>, epoch: nat)
    requires Remembers(s, a, user, log) && s'.now == s.now
    requires epoch == Epoch(s.now) + 1 && ((a, epoch), user) !in s.bets
    requires s'.bets.Keys == s.bets.Keys + {((a, epoch), user)}
    requires EpochsOf(s', a, user) == PushEpoch(EpochsOf(s, a, user), epoch)
    ensures Remembers(s', a, user, log + [Placed(epoch, s.now)])
  {
    var xs := EpochsIn(log);
    Appended(log, Placed(epoch, s.now));
    assert forall i :: 0 <= i < |xs| ==> xs[i] == log[i].epoch <= epoch && xs[i] in xs;
    assert Increasing(xs + [epoch]);
    PushKeepsTail(xs, epoch);
    assert s.now < epoch * INTERVAL;
  }

  // In every run the list equals the last min(k, 32) epochs of the user's k
  // bets on the asset, the history is strictly increasing (so without
  // duplicates), it lists exactly the user's bets, and every bet on round n was
  // placed before n * 300.
  lemma {:induction false} AlwaysRemembers(s: State, calls: seq<Call>, a: Asset, user: Address, log: seq<Placed>)
    requires Remembers(s, a, user, log)
    ensures Remembers(Run(s, calls), a, user, LogOfRun(s, calls, a, user, log))
    decreases |calls|
  {
    if calls == [] {
    } else {
      LogStep(s, calls[0], a, user, log);
      AlwaysRemembers(Apply(s, calls[0]), calls[1..], a, user, LogAfter(s, calls[0], a, user, log));
    }
  }

  lemma BufferIsTail(s: State, calls: seq<Call>, a: Asset, user: Address)
    requires s.bets == map[] && s.userEpochs == map[]
    ensures var (v, log) := (Run(s, calls), LogOfRun(s, calls, a, user, []));
            && EpochsOf(v, a, user) == LastFew(EpochsIn(log), 32)
            && Increasing(EpochsOf(v, a, user))
            && (forall n: nat :: ((a, n), user) in v.bets <==> n in EpochsIn(log))
            && (forall i :: 0 <= i < |log| ==> log[i].at < log[i].epoch * INTERVAL)
  {
    AlwaysRemembers(s, calls, a, user, []);
  }
}

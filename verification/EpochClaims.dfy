// Batch claims and refunds of the epoch market against the view that quotes
// them.

module EpochClaims {
  import opened Wrappers
  import opened Sums
  import opened Token
  import opened EpochMarket

  // ----- Claims ----------------------------------------------------------------------

  function WinningsOr0(rounds: Rounds, bets: Bets, k: Key, user: Address): int {
    var won := Winnings(rounds, bets, k, user);
    if won.Some? then won.value else 0
  }

  // Each listed epoch once, with what it would pay before the batch.
  ghost function Worths(rounds: Rounds, bets: Bets, a: Asset, user: Address, epochs: seq<nat>): map<nat, int> {
    map n | n in epochs :: WinningsOr0(rounds, bets, (a, n), user)
  }

  function ClaimedBets(rounds: Rounds, bets: Bets, a: Asset, user: Address, epochs: seq<nat>): (out: Bets)
    ensures out.Keys == bets.Keys
  {
    map k | k in bets ::
      if k.1 == user && k.0.0 == a && k.0.1 in epochs && WinningsOr0(rounds, bets, k.0, user) != 0
      then bets[k].(claimed := true) else bets[k]
  }

  ghost predicate Paying(rounds: Rounds, bets: Bets, a: Asset, user: Address, epochs: seq<nat>) {
    exists n :: n in epochs && WinningsOr0(rounds, bets, (a, n), user) != 0
  }

  lemma WinningsAfter(rounds: Rounds, bets: Bets, a: Asset, user: Address, front: seq<nat>, n: nat)
    ensures Winnings(rounds, ClaimedBets(rounds, bets, a, user, front), (a, n), user)
         == if n in front && WinningsOr0(rounds, bets, (a, n), user) != 0 then Some(0)
            else Winnings(rounds, bets, (a, n), user)
  {}

  lemma ClaimedMore(rounds: Rounds, bets: Bets, a: Asset, user: Address, front: seq<nat>, n: nat)
    ensures var was := ClaimedBets(rounds, bets, a, user, front);
            ClaimedBets(rounds, bets, a, user, front + [n]) ==
              if n !in front && WinningsOr0(rounds, bets, (a, n), user) != 0 && ((a, n), user) in was
              then MarkClaimed(was, (a, n), user) else was
  {}

  // A batch claim pays each distinct listed epoch exactly what it is worth and
  // marks exactly the bets it pays.
  lemma {:induction false} ClaimEpochsIsSum(rounds: Rounds, bets: Bets, a: Asset, user: Address, epochs: seq<nat>)
    requires ClaimEpochs(rounds, bets, a, user, epochs).Some?
    ensures var b := ClaimEpochs(rounds, bets, a, user, epochs).value;
            && b.bets == ClaimedBets(rounds, bets, a, user, epochs)
            && b.total == Sum(Worths(rounds, bets, a, user, epochs))
            && (b.count == 0 <==> !Paying(rounds, bets, a, user, epochs))
            && (forall n :: n in epochs ==> Winnings(rounds, bets, (a, n), user).Some?)
  {
    if epochs == [] {
      assert Worths(rounds, bets, a, user, epochs) == map[];
      assert ClaimedBets(rounds, bets, a, user, epochs) == bets;
    } else {
      var front, n := epochs[..|epochs| - 1], epochs[|epochs| - 1];
      ClaimEpochsIsSum(rounds, bets, a, user, front);
      ClaimStep(rounds, bets, a, user, front, n, ClaimEpochs(rounds, bets, a, user, front).value);
      assert epochs == front + [n];
    }
  }

  lemma ClaimStep(rounds: Rounds, bets: Bets, a: Asset, user: Address, front: seq<nat>, n: nat, before: Batch)
    requires before.bets == ClaimedBets(rounds, bets, a, user, front)
    requires before.total == Sum(Worths(rounds, bets, a, user, front))
    requires before.count == 0 <==> !Paying(rounds, bets, a, user, front)
    requires ClaimOne(rounds, before, (a, n), user).Some?
    ensures var after := ClaimOne(rounds, before, (a, n), user).value;
            && after.bets == ClaimedBets(rounds, bets, a, user, front + [n])
            && after.total == Sum(Worths(rounds, bets, a, user, front + [n]))
            && (after.count == 0 <==> !Paying(rounds, bets, a, user, front + [n]))
    ensures n !in front ==> Winnings(rounds, bets, (a, n), user).Some?
  {
    var worth := WinningsOr0(rounds, bets, (a, n), user);
    WinningsAfter(rounds, bets, a, user, front, n);
    ClaimedMore(rounds, bets, a, user, front, n);
    var was := Worths(rounds, bets, a, user, front);
    SumSet(was, n, worth);
    assert Worths(rounds, bets, a, user, front + [n]) == was[n := worth];
    PayingMore(rounds, bets, a, user, front, n);
  }

  lemma PayingMore(rounds: Rounds, bets: Bets, a: Asset, user: Address, front: seq<nat>, n: nat)
    ensures Paying(rounds, bets, a, user, front + [n]) <==>
            Paying(rounds, bets, a, user, front) || WinningsOr0(rounds, bets, (a, n), user) != 0
  {
    if Paying(rounds, bets, a, user, front) {
      var m :| m in front && WinningsOr0(rounds, bets, (a, m), user) != 0;
      assert m in front + [n];
    }
    assert n in front + [n];
  }

  // ----- Refunds -----------------------------------------------------------------------

  predicate Refundable(rounds: Rounds, bets: Bets, k: Key, user: Address) {
    HasStatus(rounds, k, Cancelled) && Unclaimed(bets, k, user)
  }

  function RefundOr0(rounds: Rounds, bets: Bets, k: Key, user: Address): int {
    if Refundable(rounds, bets, k, user) then bets[(k, user)].amount else 0
  }

  ghost function RefundWorths(rounds: Rounds, bets: Bets, a: Asset, user: Address, epochs: seq<nat>): map<nat, int> {
    map n | n in epochs :: RefundOr0(rounds, bets, (a, n), user)
  }

  function RefundedBets(rounds: Rounds, bets: Bets, a: Asset, user: Address, epochs: seq<nat>): (out: Bets)
    ensures out.Keys == bets.Keys
  {
    map k | k in bets ::
      if k.1 == user && k.0.0 == a && k.0.1 in epochs && Refundable(rounds, bets, k.0, user)
      then bets[k].(claimed := true) else bets[k]
  }

  ghost predicate Refunding(rounds: Rounds, bets: Bets, a: Asset, user: Address, epochs: seq<nat>) {
    exists n :: n in epochs && Refundable(rounds, bets, (a, n), user)
  }

  lemma RefundableAfter(rounds: Rounds, bets: Bets, a: Asset, user: Address, front: seq<nat>, n: nat)
    ensures Refundable(rounds, RefundedBets(rounds, bets, a, user, front), (a, n), user)
       <==> n !in front && Refundable(rounds, bets, (a, n), user)
    ensures var was := RefundedBets(rounds, bets, a, user, front);
            ((a, n), user) in bets ==> was[((a, n), user)].amount == bets[((a, n), user)].amount
  {}

  lemma RefundedMore(rounds: Rounds, bets: Bets, a: Asset, user: Address, front: seq<nat>, n: nat)
    ensures var was := RefundedBets(rounds, bets, a, user, front);
            RefundedBets(rounds, bets, a, user, front + [n]) ==
              if n !in front && Refundable(rounds, bets, (a, n), user) && ((a, n), user) in was
              then MarkClaimed(was, (a, n), user) else was
  {}

  lemma {:induction false} RefundEpochsIsSum(rounds: Rounds, bets: Bets, a: Asset, user: Address, epochs: seq<nat>)
    requires RefundEpochs(rounds, bets, a, user, epochs).Some?
    ensures var b := RefundEpochs(rounds, bets, a, user, epochs).value;
            && b.bets == RefundedBets(rounds, bets, a, user, epochs)
            && b.total == Sum(RefundWorths(rounds, bets, a, user, epochs))
            && (b.count == 0 <==> !Refunding(rounds, bets, a, user, epochs))
  {
    if epochs == [] {
      assert RefundWorths(rounds, bets, a, user, epochs) == map[];
      assert RefundedBets(rounds, bets, a, user, epochs) == bets;
    } else {
      var front, n := epochs[..|epochs| - 1], epochs[|epochs| - 1];
      RefundEpochsIsSum(rounds, bets, a, user, front);
      RefundStep(rounds, bets, a, user, front, n, RefundEpochs(rounds, bets, a, user, front).value);
      assert epochs == front + [n];
    }
  }

  lemma RefundStep(rounds: Rounds, bets: Bets, a: Asset, user: Address, front: seq<nat>, n: nat, before: Batch)
    requires before.bets == RefundedBets(rounds, bets, a, user, front)
    requires before.total == Sum(RefundWorths(rounds, bets, a, user, front))
    requires before.count == 0 <==> !Refunding(rounds, bets, a, user, front)
    requires RefundOne(rounds, before, (a, n), user).Some?
    ensures var after := RefundOne(rounds, before, (a, n), user).value;
            && after.bets == RefundedBets(rounds, bets, a, user, front + [n])
            && after.total == Sum(RefundWorths(rounds, bets, a, user, front + [n]))
            && (after.count == 0 <==> !Refunding(rounds, bets, a, user, front + [n]))
  {
    var worth := RefundOr0(rounds, bets, (a, n), user);
    RefundableAfter(rounds, bets, a, user, front, n);
    RefundedMore(rounds, bets, a, user, front, n);
    var was := RefundWorths(rounds, bets, a, user, front);
    SumSet(was, n, worth);
    assert RefundWorths(rounds, bets, a, user, front + [n]) == was[n := worth];
    RefundingMore(rounds, bets, a, user, front, n);
  }

  lemma RefundingMore(rounds: Rounds, bets: Bets, a: Asset, user: Address, front: seq<nat>, n: nat)
    ensures Refunding(rounds, bets, a, user, front + [n]) <==>
            Refunding(rounds, bets, a, user, front) || Refundable(rounds, bets, (a, n), user)
  {
    if Refunding(rounds, bets, a, user, front) {
      var m :| m in front && Refundable(rounds, bets, (a, m), user);
      assert m in front + [n];
    }
    assert n in front + [n];
  }

  // ----- Against the view -------------------------------------------------------------------

  // What the view quotes for the listed epochs in a given status, each once.
  ghost function Quotes(s: State, a: Asset, user: Address, epochs: seq<nat>, status: Status): map<nat, int> {
    map n | n in epochs ::
      var quote := Claimable(s, (a, n), user);
      if HasStatus(s.rounds, (a, n), status) && quote.Some? then quote.value else 0
  }

  predicate Lists(a: Asset, epochs: seq<nat>, user: Address, k: Key, u: Address) {
    u == user && k.0 == a && k.1 in epochs
  }

  lemma QuoteAfterClaim(s: State, s': State, a: Asset, epochs: seq<nat>, user: Address, k: Key, u: Address)
    requires s'.rounds == s.rounds && s'.bets == ClaimedBets(s.rounds, s.bets, a, user, epochs)
    requires Lists(a, epochs, user, k, u) ==> Winnings(s.rounds, s.bets, k, u).Some?
    ensures Claimable(s', k, u) ==
              if Lists(a, epochs, user, k, u) && HasStatus(s.rounds, k, Resolved) then Some(0) else Claimable(s, k, u)
  {}

  lemma QuoteAfterRefund(s: State, s': State, a: Asset, epochs: seq<nat>, user: Address, k: Key, u: Address)
    requires s'.rounds == s.rounds && s'.bets == RefundedBets(s.rounds, s.bets, a, user, epochs)
    ensures Claimable(s', k, u) ==
              if Lists(a, epochs, user, k, u) && HasStatus(s.rounds, k, Cancelled) then Some(0) else Claimable(s, k, u)
  {}

  // A payment of `paid` to the user, and the same quotes as before but for the
  // listed epochs in the given status, which are quoted nothing any more.
  ghost predicate PaysQuotes(s: State, s': State, a: Asset, epochs: seq<nat>, user: Address, status: Status,
                             paid: int)
  {
    && paid == Sum(Quotes(s, a, user, epochs, status))
    && Transferred(s.token, s'.token, SELF, user, paid)
    && s' == s.(bets := s'.bets, token := s'.token)
    && (forall k, u :: Claimable(s', k, u) ==
          if Lists(a, epochs, user, k, u) && HasStatus(s.rounds, k, status) then Some(0) else Claimable(s, k, u))
  }

  lemma PaidBatch(s: State, user: Address, all: Option<Batch>)
    requires PayBatch(s, user, all).Success?
    ensures all.Some?
    ensures var (s', paid) := (PayBatch(s, user, all).value, all.value.total);
            && Transferred(s.token, s'.token, SELF, user, paid)
            && s' == s.(bets := all.value.bets, token := s'.token)
  {}

  lemma WorthIsQuoted(s: State, a: Asset, epochs: seq<nat>, user: Address)
    requires forall n :: n in epochs ==> Winnings(s.rounds, s.bets, (a, n), user).Some?
    ensures Worths(s.rounds, s.bets, a, user, epochs) == Quotes(s, a, user, epochs, Resolved)
  {}

  lemma ClaimedQuotes(s: State, s': State, a: Asset, epochs: seq<nat>, user: Address, b: Batch)
    requires ClaimEpochs(s.rounds, s.bets, a, user, epochs) == Some(b)
    requires s' == s.(bets := b.bets, token := s'.token)
    requires Transferred(s.token, s'.token, SELF, user, b.total)
    ensures PaysQuotes(s, s', a, epochs, user, Resolved, b.total)
  {
    ClaimEpochsIsSum(s.rounds, s.bets, a, user, epochs);
    WorthIsQuoted(s, a, epochs, user);
    forall k, u
      ensures Claimable(s', k, u) ==
                if Lists(a, epochs, user, k, u) && HasStatus(s.rounds, k, Resolved) then Some(0) else Claimable(s, k, u)
    {
      QuoteAfterClaim(s, s', a, epochs, user, k, u);
    }
  }

  lemma RefundedQuotes(s: State, s': State, a: Asset, epochs: seq<nat>, user: Address, b: Batch)
    requires RefundEpochs(s.rounds, s.bets, a, user, epochs) == Some(b)
    requires s' == s.(bets := b.bets, token := s'.token)
    requires Transferred(s.token, s'.token, SELF, user, b.total)
    ensures PaysQuotes(s, s', a, epochs, user, Cancelled, b.total)
  {
    RefundEpochsIsSum(s.rounds, s.bets, a, user, epochs);
    assert RefundWorths(s.rounds, s.bets, a, user, epochs) == Quotes(s, a, user, epochs, Cancelled);
    forall k, u
      ensures Claimable(s', k, u) ==
                if Lists(a, epochs, user, k, u) && HasStatus(s.rounds, k, Cancelled) then Some(0)
                else Claimable(s, k, u)
    {
      QuoteAfterRefund(s, s', a, epochs, user, k, u);
    }
  }

  // For any list of epochs, duplicates in any order included, claim pays
  // exactly what the view quotes for the distinct resolved epochs in it; after
  // it the view quotes nothing for those, and for everything else what it did.
  lemma ClaimPaysTheQuotes(s: State, a: Asset, epochs: seq<nat>, user: Address)
    requires Claim(s, a, epochs, user).Success?
    ensures PaysQuotes(s, Claim(s, a, epochs, user).value, a, epochs, user, Resolved,
                       ClaimEpochs(s.rounds, s.bets, a, user, epochs).value.total)
  {
    var all := ClaimEpochs(s.rounds, s.bets, a, user, epochs);
    PaidBatch(s, user, all);
    ClaimedQuotes(s, PayBatch(s, user, all).value, a, epochs, user, all.value);
  }

  // Refunds likewise, over the distinct cancelled epochs.
  lemma RefundPaysTheQuotes(s: State, a: Asset, epochs: seq<nat>, user: Address)
    requires Refund(s, a, epochs, user).Success?
    ensures PaysQuotes(s, Refund(s, a, epochs, user).value, a, epochs, user, Cancelled,
                       RefundEpochs(s.rounds, s.bets, a, user, epochs).value.total)
  {
    var all := RefundEpochs(s.rounds, s.bets, a, user, epochs);
    PaidBatch(s, user, all);
    RefundedQuotes(s, PayBatch(s, user, all).value, a, epochs, user, all.value);
  }

  // claim is refused for want of anything to pay exactly when the view quotes
  // nothing (and does not panic) for every resolved epoch listed.
  lemma NothingToClaimExactlyWhen(s: State, a: Asset, epochs: seq<nat>, user: Address)
    requires ClaimEpochs(s.rounds, s.bets, a, user, epochs).Some?
    ensures Claim(s, a, epochs, user) == Failure(NothingToClaim)
       <==> forall n :: n in epochs && HasStatus(s.rounds, (a, n), Resolved) ==> Claimable(s, (a, n), user) == Some(0)
  {
    ClaimEpochsIsSum(s.rounds, s.bets, a, user, epochs);
  }
}

// Claiming on the fair market: a batch claim is the same as claiming each id in
// turn, and claims by any users commute.

module FairMarketClaims {
  import opened Wrappers
  import opened Checked
  import opened Fees
  import opened Token
  import opened FairMarket
  import opened Sums

  lemma PayoutNonNeg(r: Round, feeBps: nat, p: Position)
    requires feeBps <= MAX_FEE_BPS
    ensures 0 <= Payout(r, feeBps, p)
  {
    FeeWithin(Pot(r), feeBps);
    assert 0 <= p.amount * Distributed(r, feeBps);
  }

  lemma DueNonNeg(rounds: Rounds, ps: Positions, feeBps: nat, user: Address, id: nat)
    requires feeBps <= MAX_FEE_BPS
    ensures var due := Due(rounds, ps, feeBps, user, id); due.Some? ==> 0 <= due.value
  {
    if id in rounds && (id, user) in ps {
      PayoutNonNeg(rounds[id], feeBps, ps[(id, user)]);
    }
  }

  // ----- Payments ---------------------------------------------------------------

  // Paying in two instalments is paying the sum.
  lemma PayTwice(t: Balances, u: Address, a: int, v: Address, b: int)
    requires Valid(t) && 0 <= a && 0 <= b && u != SELF && v != SELF
    ensures PayUser(t, u, a).Success? && PayUser(PayUser(t, u, a).value, v, b).Success? ==>
              PayUser(t, v, b).Success? && PayUser(PayUser(t, v, b).value, u, a)
              == PayUser(PayUser(t, u, a).value, v, b)
  {
    if a > 0 && b > 0 && PayUser(t, u, a).Success? && PayUser(PayUser(t, u, a).value, v, b).Success? {
      var x := PayUser(PayUser(t, u, a).value, v, b).value;
      var y := PayUser(t, v, b);
      assert y.Success?;
      var z := PayUser(y.value, u, a);
      assert z.Success?;
      assert z.value == x;
    }
  }

  lemma PaySum(t: Balances, u: Address, a: int, b: int)
    requires Valid(t) && 0 <= a && 0 <= b && u != SELF
    ensures PayUser(t, u, a + b).Success?
       <==> PayUser(t, u, a).Success? && PayUser(PayUser(t, u, a).value, u, b).Success?
    ensures PayUser(t, u, a + b).Success? ==> PayUser(t, u, a + b) == PayUser(PayUser(t, u, a).value, u, b)
  {
    if a > 0 && b > 0 && PayUser(t, u, a).Success? && PayUser(PayUser(t, u, a).value, u, b).Success? {
      assert PayUser(PayUser(t, u, a).value, u, b).value == PayUser(t, u, a + b).value;
    }
  }

  // ----- A batch is its claims in turn ---------------------------------------------

  // Claiming each id with a transaction of its own; the last one comes last.
  function ClaimEach(s: State, user: Address, ids: seq<nat>): Result<Receipt, Error> {
    if ids == [] then Success(Receipt(s, 0))
    else
      var before := ClaimEach(s, user, ids[..|ids| - 1]);
      if before.Failure? then before
      else
        var r := Claim(before.value.s, user, ids[|ids| - 1]);
        if r.Failure? then r
        else Success(Receipt(r.value.s, before.value.paid + r.value.paid))
  }

  // The state a user's claims of these ids lead to.
  function AfterClaims(s: State, user: Address, ids: seq<nat>): Result<Receipt, Error> {
    var all := ClaimIds(s.rounds, s.positions, s.config.feeBps, user, ids);
    if all.None? then Failure(Overflow)
    else
      var token := PayUser(s.token, user, all.value.total);
      if token.Failure? then Failure(token.error)
      else Success(Receipt(s.(positions := all.value.positions, token := token.value), all.value.total))
  }

  lemma {:induction false} ClaimIdsNonNeg(rounds: Rounds, ps: Positions, feeBps: nat, user: Address, ids: seq<nat>)
    requires feeBps <= MAX_FEE_BPS
    ensures var all := ClaimIds(rounds, ps, feeBps, user, ids); all.Some? ==> 0 <= all.value.total
  {
    if ids == [] {
    } else {
      var front := ids[..|ids| - 1];
      ClaimIdsNonNeg(rounds, ps, feeBps, user, front);
      var before := ClaimIds(rounds, ps, feeBps, user, front);
      if before.Some? {
        DueNonNeg(rounds, before.value.positions, feeBps, user, ids[|ids| - 1]);
      }
    }
  }

  lemma OneMoreClaim(s: State, user: Address, ps: Positions, total: int, id: nat)
    requires user != SELF && Valid(s.token) && s.config.feeBps <= MAX_FEE_BPS && 0 <= total
    requires PayUser(s.token, user, total).Success?
    ensures var one := Claim(s.(positions := ps, token := PayUser(s.token, user, total).value), user, id);
            var due := Due(s.rounds, ps, s.config.feeBps, user, id);
            && (one.Success? <==> due.Some? && PayUser(s.token, user, total + due.value).Success?)
            && (one.Success? ==> one.value == Receipt(s.(positions := Mark(s.rounds, ps, user, id),
                                                         token := PayUser(s.token, user, total + due.value).value),
                                                  due.value))
  {
    DueNonNeg(s.rounds, ps, s.config.feeBps, user, id);
    var due := Due(s.rounds, ps, s.config.feeBps, user, id);
    if due.Some? {
      PaySum(s.token, user, total, due.value);
    }
  }

  lemma PaidInParts(t: Balances, user: Address, a: int, b: int)
    requires Valid(t) && 0 <= a && 0 <= b && user != SELF && PayUser(t, user, a + b).Success?
    ensures PayUser(t, user, a).Success? && InI128(a + b)
  {
    PaySum(t, user, a, b);
  }

  lemma PartRefused(t: Balances, user: Address, a: int, b: int)
    requires Valid(t) && 0 <= a && 0 <= b && user != SELF && PayUser(t, user, a).Failure?
    ensures PayUser(t, user, a + b).Failure?
  {
    PaySum(t, user, a, b);
  }

  lemma {:induction false} ClaimEachLast(s: State, user: Address, ids: seq<nat>, s1: State, total: int)
    requires ids != [] && ClaimEach(s, user, ids[..|ids| - 1]) == Success(Receipt(s1, total))
    ensures var r := Claim(s1, user, ids[|ids| - 1]);
            ClaimEach(s, user, ids) == if r.Failure? then r else Success(Receipt(r.value.s, total + r.value.paid))
  {}

  lemma AfterClaimsLast(s: State, user: Address, ids: seq<nat>, ps: Positions, total: int)
    requires ids != []
    requires ClaimIds(s.rounds, s.positions, s.config.feeBps, user, ids[..|ids| - 1]) == Some(Batch(ps, total))
    ensures var (id, due) := (ids[|ids| - 1], Due(s.rounds, ps, s.config.feeBps, user, ids[|ids| - 1]));
            && (AfterClaims(s, user, ids).Success? <==>
                  due.Some? && InI128(total + due.value) && PayUser(s.token, user, total + due.value).Success?)
            && (AfterClaims(s, user, ids).Success? ==>
                  AfterClaims(s, user, ids).value ==
                    Receipt(s.(positions := Mark(s.rounds, ps, user, id),
                               token := PayUser(s.token, user, total + due.value).value),
                            total + due.value))
  {}

  // One more id on a list whose claims all went through.
  lemma BatchStep(s: State, user: Address, ids: seq<nat>, s1: State, ps: Positions, total: int)
    requires user != SELF && Valid(s.token) && s.config.feeBps <= MAX_FEE_BPS && 0 <= total && ids != []
    requires ClaimIds(s.rounds, s.positions, s.config.feeBps, user, ids[..|ids| - 1]) == Some(Batch(ps, total))
    requires PayUser(s.token, user, total).Success?
    requires s1 == s.(positions := ps, token := PayUser(s.token, user, total).value)
    requires ClaimEach(s, user, ids[..|ids| - 1]) == Success(Receipt(s1, total))
    ensures ClaimEach(s, user, ids).Success? <==> AfterClaims(s, user, ids).Success?
    ensures ClaimEach(s, user, ids).Success? ==> ClaimEach(s, user, ids).value == AfterClaims(s, user, ids).value
  {
    var id := ids[|ids| - 1];
    OneMoreClaim(s, user, ps, total, id);
    ClaimEachLast(s, user, ids, s1, total);
    AfterClaimsLast(s, user, ids, ps, total);
    if Claim(s1, user, id).Success? {
      var due := Due(s.rounds, ps, s.config.feeBps, user, id);
      DueNonNeg(s.rounds, ps, s.config.feeBps, user, id);
      PaidInParts(s.token, user, total, due.value);
    }
  }

  lemma {:induction false} BatchIsEach(s: State, user: Address, ids: seq<nat>)
    requires user != SELF && Valid(s.token) && s.config.feeBps <= MAX_FEE_BPS
    ensures ClaimEach(s, user, ids).Success? <==> AfterClaims(s, user, ids).Success?
    ensures ClaimEach(s, user, ids).Success? ==> ClaimEach(s, user, ids).value == AfterClaims(s, user, ids).value
  {
    if ids == [] {
    } else {
      var front, id := ids[..|ids| - 1], ids[|ids| - 1];
      BatchIsEach(s, user, front);
      ClaimIdsNonNeg(s.rounds, s.positions, s.config.feeBps, user, front);
      var before := ClaimIds(s.rounds, s.positions, s.config.feeBps, user, front);
      if before.None? {
        assert AfterClaims(s, user, ids).Failure?;
      } else {
        var ps, total := before.value.positions, before.value.total;
        if PayUser(s.token, user, total).Success? {
          BatchStep(s, user, ids, ClaimEach(s, user, front).value.s, ps, total);
        } else if Due(s.rounds, ps, s.config.feeBps, user, id).Some? {
          DueNonNeg(s.rounds, ps, s.config.feeBps, user, id);
          PartRefused(s.token, user, total, Due(s.rounds, ps, s.config.feeBps, user, id).value);
        }
      }
    }
  }

  // claim_many pays the same total and leaves the same state as claiming each
  // listed id in turn, duplicates included, and fails exactly when one of those
  // claims would.
  lemma ClaimManyIsClaims(s: State, user: Address, ids: seq<nat>)
    requires user != SELF && Valid(s.token) && s.config.feeBps <= MAX_FEE_BPS && |ids| <= MAX_CLAIM_BATCH
    ensures ClaimMany(s, user, ids).Success? <==> ClaimEach(s, user, ids).Success?
    ensures ClaimMany(s, user, ids).Success? ==> ClaimMany(s, user, ids).value == ClaimEach(s, user, ids).value
  {
    BatchIsEach(s, user, ids);
  }

  // ----- Duplicates pay once -----------------------------------------------------------

  function Worth(rounds: Rounds, ps: Positions, feeBps: nat, user: Address, id: nat): int {
    var due := Due(rounds, ps, feeBps, user, id);
    if due.Some? then due.value else 0
  }

  // Each listed id once, with what it was worth before the batch.
  ghost function Worths(rounds: Rounds, ps: Positions, feeBps: nat, user: Address, ids: seq<nat>): map<nat, int> {
    map id | id in ids :: Worth(rounds, ps, feeBps, user, id)
  }

  function Claimed(rounds: Rounds, ps: Positions, user: Address, ids: seq<nat>): (out: Positions)
    ensures out.Keys == ps.Keys
  {
    map k | k in ps ::
      if k.1 == user && k.0 in ids && k.0 in rounds && rounds[k.0].status == Settled then ps[k].(claimed := true)
      else ps[k]
  }

  lemma ClaimedGrows(rounds: Rounds, ps: Positions, user: Address, front: seq<nat>, id: nat)
    ensures Mark(rounds, Claimed(rounds, ps, user, front), user, id) == Claimed(rounds, ps, user, front + [id])
  {}

  lemma DueAfter(rounds: Rounds, ps: Positions, feeBps: nat, user: Address, front: seq<nat>, id: nat)
    ensures Due(rounds, Claimed(rounds, ps, user, front), feeBps, user, id)
         == if id in front then Some(0) else Due(rounds, ps, feeBps, user, id)
  {}

  // A batch pays each distinct id exactly what it was worth, marks exactly the
  // settled positions of that user, and touches nothing else.
  lemma {:induction false} BatchPaysEachIdOnce(rounds: Rounds, ps: Positions, feeBps: nat, user: Address, ids: seq<nat>)
    requires ClaimIds(rounds, ps, feeBps, user, ids).Some?
    ensures ClaimIds(rounds, ps, feeBps, user, ids).value
         == Batch(Claimed(rounds, ps, user, ids), Sum(Worths(rounds, ps, feeBps, user, ids)))
  {
    if ids == [] {
      assert Worths(rounds, ps, feeBps, user, ids) == map[];
      assert Claimed(rounds, ps, user, ids) == ps;
    } else {
      var front, id := ids[..|ids| - 1], ids[|ids| - 1];
      assert ids == front + [id];
      BatchPaysEachIdOnce(rounds, ps, feeBps, user, front);
      ClaimedGrows(rounds, ps, user, front, id);
      DueAfter(rounds, ps, feeBps, user, front, id);
      var was := Worths(rounds, ps, feeBps, user, front);
      SumSet(was, id, Worth(rounds, ps, feeBps, user, id));
      assert Worths(rounds, ps, feeBps, user, ids) == was[id := Worth(rounds, ps, feeBps, user, id)];
    }
  }

  // ----- Claims commute -------------------------------------------------------------------

  datatype Request = Request(user: Address, id: nat)

  function Serve(s: State, c: Request): Result<State, Error> {
    var r := Claim(s, c.user, c.id);
    if r.Success? then Success(r.value.s) else Failure(r.error)
  }

  function ServeAll(s: State, cs: seq<Request>): Result<State, Error>
    decreases |cs|
  {
    if cs == [] then Success(s)
    else
      var r := Serve(s, cs[0]);
      if r.Failure? then r else ServeAll(r.value, cs[1..])
  }

  lemma ServeKeeps(s: State, c: Request)
    requires Valid(s.token) && Serve(s, c).Success?
    ensures var s' := Serve(s, c).value;
            && Valid(s'.token) && s'.rounds == s.rounds && s'.config == s.config
            && s' == s.(positions := Mark(s.rounds, s.positions, c.user, c.id), token := s'.token)
  {}

  lemma MarksCommute(rounds: Rounds, ps: Positions, c: Request, d: Request)
    ensures Mark(rounds, Mark(rounds, ps, c.user, c.id), d.user, d.id)
         == Mark(rounds, Mark(rounds, ps, d.user, d.id), c.user, c.id)
  {}

  lemma DuesIndependent(rounds: Rounds, ps: Positions, feeBps: nat, c: Request, d: Request)
    requires c != d
    ensures Due(rounds, Mark(rounds, ps, c.user, c.id), feeBps, d.user, d.id) == Due(rounds, ps, feeBps, d.user, d.id)
  {
    assert (c.id, c.user) != (d.id, d.user);
  }

  lemma ServePair(s: State, c: Request, d: Request)
    requires Valid(s.token) && s.config.feeBps <= MAX_FEE_BPS
    requires Serve(s, c).Success? && Serve(Serve(s, c).value, d).Success?
    ensures Serve(s, d).Success? && Serve(Serve(s, d).value, c) == Serve(Serve(s, c).value, d)
  {
    if c != d {
      DuesIndependent(s.rounds, s.positions, s.config.feeBps, c, d);
      DuesIndependent(s.rounds, s.positions, s.config.feeBps, d, c);
      DueNonNeg(s.rounds, s.positions, s.config.feeBps, c.user, c.id);
      DueNonNeg(s.rounds, s.positions, s.config.feeBps, d.user, d.id);
      MarksCommute(s.rounds, s.positions, c, d);
      PayTwice(s.token, c.user, Worth(s.rounds, s.positions, s.config.feeBps, c.user, c.id),
               d.user, Worth(s.rounds, s.positions, s.config.feeBps, d.user, d.id));
    }
  }

  // A request anywhere in a list that succeeds may be served first.
  lemma {:induction false} ServeFirst(s: State, cs: seq<Request>, i: nat)
    requires Valid(s.token) && s.config.feeBps <= MAX_FEE_BPS && i < |cs| && ServeAll(s, cs).Success?
    ensures ServeAll(s, [cs[i]] + cs[..i] + cs[i + 1..]) == ServeAll(s, cs)
    decreases i
  {
    if i == 0 {
      assert [cs[0]] + cs[..0] + cs[1..] == cs;
    } else {
      var s1 := Serve(s, cs[0]).value;
      ServeKeeps(s, cs[0]);
      ServeFirst(s1, cs[1..], i - 1);
      var rest := cs[1..i] + cs[i + 1..];
      assert [cs[1..][i - 1]] + cs[1..][..i - 1] + cs[1..][i..] == [cs[i]] + rest;
      ServeTwo(s1, cs[i], rest);
      ServePair(s, cs[0], cs[i]);
      ServeTwo(s, cs[i], [cs[0]] + rest);
      ServeTwo(Serve(s, cs[i]).value, cs[0], rest);
      assert [cs[i]] + cs[..i] + cs[i + 1..] == [cs[i]] + ([cs[0]] + rest);
    }
  }

  lemma ServeTwo(s: State, c: Request, rest: seq<Request>)
    ensures ServeAll(s, [c] + rest) == if Serve(s, c).Failure? then Serve(s, c) else ServeAll(Serve(s, c).value, rest)
  {
    assert ([c] + rest)[1..] == rest;
  }

  // Where the first of one list stands in a reordering of it.
  lemma TakeOut(cs: seq<Request>, ds: seq<Request>) returns (i: nat)
    requires multiset(cs) == multiset(ds) && ds != []
    ensures i < |cs| && cs[i] == ds[0] && multiset(cs[..i] + cs[i + 1..]) == multiset(ds[1..])
  {
    assert ds == [ds[0]] + ds[1..];
    assert ds[0] in multiset(cs);
    i :| 0 <= i < |cs| && cs[i] == ds[0];
    WithoutOne(cs, i);
  }

  // Claims by any users in any order: every reordering of a list of claims that
  // all succeed also succeeds, and leaves the same state.
  lemma {:induction false} ClaimsCommute(s: State, cs: seq<Request>, ds: seq<Request>)
    requires Valid(s.token) && s.config.feeBps <= MAX_FEE_BPS
    requires multiset(cs) == multiset(ds) && ServeAll(s, cs).Success?
    ensures ServeAll(s, ds) == ServeAll(s, cs)
    decreases |ds|
  {
    if ds == [] {
      assert |multiset(cs)| == 0;
    } else {
      var i := TakeOut(cs, ds);
      var d, rest, others := ds[0], ds[1..], cs[..i] + cs[i + 1..];
      ServeFirst(s, cs, i);
      assert [d] + cs[..i] + cs[i + 1..] == [d] + others;
      ServeTwo(s, d, others);
      assert ds == [d] + rest;
      ServeTwo(s, d, rest);
      ServeKeeps(s, d);
      ClaimsCommute(Serve(s, d).value, others, rest);
    }
  }
}

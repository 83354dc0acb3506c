/** What a ledger says, fact by fact: who has staked what on whom, what is held and free for whom, who
    asked for what, who is in the pool; and what it means that a call changes some of these facts and no
    other. The effects of the calls are stated in these terms, read off the ledgers before and after. */
module Facts {
  import opened Bonds
  import opened Ledgers
  import Delegators

  /** The request pending on the delegation from `d` to `c`. */
  function RequestOn(s: Ledger, d: Account, c: Account): Option<Delegators.DelegationRequest> {
    if d in s.delegators && c in s.delegators[d].requests.requests then Some(s.delegators[d].requests.requests[c])
    else None
  }

  // ----- funds -----

  /** `amount` of `a`'s free balance is now held (or, if negative, the other way round); nobody else's
      balances change. */
  ghost predicate FundsMove(s: Ledger, r: Ledger, a: Account, amount: int) {
    && (forall x :: Get(r.reserved, x) == Get(s.reserved, x) + if x == a then amount else 0)
    && (forall x :: Get(r.free, x) == Get(s.free, x) - if x == a then amount else 0)
  }

  ghost predicate SameFunds(s: Ledger, r: Ledger) {
    r.reserved == s.reserved && r.free == s.free
  }

  // ----- stakes -----

  /** `d`'s stake on `c` changes by `delta`, in its own record and in the lists of `c` alike; no other
      stake changes in either. */
  ghost predicate StakeMoves(s: Ledger, r: Ledger, d: Account, c: Account, delta: int) {
    forall x, y ::
      && Stake(r.delegators, x, y) == Stake(s.delegators, x, y) + (if x == d && y == c then delta else 0)
      && Backed(r.top, r.bottom, y, x) == Backed(s.top, s.bottom, y, x) + (if x == d && y == c then delta else 0)
  }

  // ----- the other records -----

  /** Only `d`'s record may differ. */
  ghost predicate OtherDelegators(s: Ledger, r: Ledger, d: Account) {
    r.delegators - {d} == s.delegators - {d}
  }

  /** Only what is stored for `c` may differ. */
  ghost predicate OtherCandidates(s: Ledger, r: Ledger, c: Account) {
    r.info - {c} == s.info - {c} && r.top - {c} == s.top - {c} && r.bottom - {c} == s.bottom - {c}
  }

  /** Bond, request and status of `c` are as before; the caches follow its lists. */
  ghost predicate SameCandidate(s: Ledger, r: Ledger, c: Account) {
    && c in s.info && c in r.info
    && r.info[c].bond == s.info[c].bond && r.info[c].request == s.info[c].request
         && r.info[c].status == s.info[c].status
  }

  /** Pool entries of all but `c` are as before. */
  ghost predicate OtherPool(s: Ledger, r: Ledger, c: Account) {
    forall x :: x != c ==> Count(r.pool, x) == Count(s.pool, x) && StakeOf(r.pool, x) == StakeOf(s.pool, x)
  }

  /** Nothing about delegations differs. */
  ghost predicate SameDelegations(s: Ledger, r: Ledger) {
    r.top == s.top && r.bottom == s.bottom && r.delegators == s.delegators && r.round == s.round
  }

  // ----- the pool -----

  lemma PoolHas(s: Ledger, c: Account)
    requires PoolOk(s.pool, s.info) && c in s.info && s.info[c].status.Active?
    ensures Bond(c, s.info[c].totalCounted) in s.pool && Count(s.pool, c) == 1
  {
    assert Count(s.pool, c) == PoolCount(s.info, c) && StakeOf(s.pool, c) == PoolStake(s.info, c);
    var i := FindEntry(s.pool, c);
    EntryCounts(s.pool, i);
    assert s.pool[i] == Bond(c, s.info[c].totalCounted);
  }

  lemma PoolHasNot(s: Ledger, c: Account)
    requires PoolOk(s.pool, s.info) && !(c in s.info && s.info[c].status.Active?)
    ensures Count(s.pool, c) == 0
  {
    assert Count(s.pool, c) == PoolCount(s.info, c);
  }

  /** The pool differs where the candidates do. */
  lemma PoolElsewhere(s: Ledger, r: Ledger, c: Account)
    requires PoolOk(s.pool, s.info) && PoolOk(r.pool, r.info) && r.info - {c} == s.info - {c}
    ensures OtherPool(s, r, c)
  {
    forall x | x != c
      ensures Count(r.pool, x) == Count(s.pool, x) && StakeOf(r.pool, x) == StakeOf(s.pool, x)
    {
      assert x in s.info <==> x in s.info - {c};
      assert x in r.info <==> x in r.info - {c};
      assert x in s.info ==> (s.info - {c})[x] == s.info[x] && (r.info - {c})[x] == r.info[x];
      assert Count(r.pool, x) == PoolCount(r.info, x) && StakeOf(r.pool, x) == PoolStake(r.info, x);
      assert Count(s.pool, x) == PoolCount(s.info, x) && StakeOf(s.pool, x) == PoolStake(s.info, x);
    }
  }

  /** The same candidates make the same pool. */
  lemma PoolByCandidates(s: Ledger, r: Ledger)
    requires PoolOk(s.pool, s.info) && PoolOk(r.pool, r.info) && r.info == s.info
    ensures r.pool == s.pool
  {
    forall x
      ensures Count(r.pool, x) == Count(s.pool, x) && StakeOf(r.pool, x) == StakeOf(s.pool, x)
    {
      assert Count(s.pool, x) == PoolCount(s.info, x) && StakeOf(s.pool, x) == PoolStake(s.info, x);
      assert Count(r.pool, x) == PoolCount(r.info, x) && StakeOf(r.pool, x) == PoolStake(r.info, x);
    }
    SetExtensional(r.pool, s.pool);
  }
}

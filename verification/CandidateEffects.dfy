/** What each call of a candidate does, and to whom: which facts change by how much, that no other fact
    changes, and exactly when the call succeeds. */
module CandidateEffects {
  import opened Bonds
  import opened Params
  import opened OrderedSets
  import opened Ledgers
  import opened Calls
  import opened CandidateCalls
  import opened Facts
  import Candidates

  // ----- joining -----

  /** `acc` is now a candidate with nothing but this bond behind it; nothing else differs. */
  ghost predicate OnlyJoined(s: Ledger, r: Ledger, acc: Account, bond: Balance) {
    && acc in r.info && r.info[acc].bond == bond && r.info[acc].status.Active? && r.info[acc].request.None?
    && Listed(r, acc) && r.top[acc].delegations == [] && r.bottom[acc].delegations == []
    && OtherCandidates(s, r, acc) && r.delegators == s.delegators && r.round == s.round
    && FundsMove(s, r, acc, bond) && r.total == s.total + bond
  }

  lemma JoinEffect(s: Ledger, acc: Account, bond: Balance, hint: nat)
    requires Consistent(s)
    ensures var r := JoinCandidates(s, acc, bond, hint); var t := r.ledger;
            && (r.outcome.Success? <==>
                  && acc !in s.info && acc !in s.delegators && bond >= MIN_CANDIDATE_STK
                  && hint >= |s.pool| && Get(s.free, acc) >= bond)
            && (r.outcome.Failure? ==> t == s)
            && (r.outcome.Success? ==>
                  OnlyJoined(s, t, acc, bond) && OtherPool(s, t, acc) && Bond(acc, bond) in t.pool)
  {
    hide Consistent, Keeps, Put, OtherPool, PoolOk, OnlyJoined, OtherCandidates;
    var r := JoinCandidates(s, acc, bond, hint);
    JoinCandidatesKeeps(s, acc, bond, hint);
    if r.outcome.Success? {
      NotListed(s, acc);
      JoinedRecords(s, acc, bond, Put(s.pool, Bond(acc, bond)));
      PoolsOk(s, r.ledger);
      PoolHas(r.ledger, acc);
      PoolElsewhere(s, r.ledger, acc);
    }
  }

  lemma JoinedRecords(s: Ledger, acc: Account, bond: Balance, pool: seq<Bond>)
    requires acc !in s.info && acc !in s.top && acc !in s.bottom && CanReserve(s, acc, bond)
    ensures var r := Reserve(PutCandidate(s, acc, Candidates.Fresh(bond)).(pool := pool, total := s.total + bond), acc,
                             bond);
            && OnlyJoined(s, r, acc, bond)
            && r.info[acc].totalCounted == bond && r.info - {acc} == s.info - {acc}
  {
  }

  lemma NotListed(s: Ledger, c: Account)
    requires Consistent(s) && c !in s.info
    ensures c !in s.top && c !in s.bottom
  {
  }

  lemma PoolsOk(s: Ledger, r: Ledger)
    requires Consistent(s) && Keeps(s, r)
    ensures PoolOk(s.pool, s.info) && PoolOk(r.pool, r.info)
  {
  }

  // ----- status -----

  /** Nothing but `c`'s status and pool entry differs. */
  ghost predicate OnlyStatus(s: Ledger, r: Ledger, c: Account, status: Candidates.CollatorStatus) {
    && c in s.info && r.info == s.info[c := s.info[c].(status := status)]
    && SameDelegations(s, r) && SameFunds(s, r) && r.total == s.total && OtherPool(s, r, c)
  }

  /** In the pool with the counted total, or not at all. */
  lemma StatusPool(s: Ledger, r: Ledger, c: Account, status: Candidates.CollatorStatus)
    requires Consistent(s) && Keeps(s, r) && c in s.info && r.info == s.info[c := s.info[c].(status := status)]
    ensures OtherPool(s, r, c)
    ensures if status.Active? then Bond(c, s.info[c].totalCounted) in r.pool else Count(r.pool, c) == 0
  {
    hide Consistent, Keeps, PoolOk, OtherPool;
    PoolsOk(s, r);
    PoolElsewhere(s, r, c);
    if status.Active? {
      PoolHas(r, c);
    } else {
      PoolHasNot(r, c);
    }
  }

  lemma ScheduleLeaveEffect(s: Ledger, c: Account, hint: nat)
    requires Consistent(s)
    ensures var r := ScheduleLeaveCandidates(s, c, hint); var t := r.ledger;
            && (r.outcome.Success? <==> c in s.info && !s.info[c].status.Leaving? && hint >= |s.pool|)
            && (r.outcome.Failure? ==> t == s)
            && (r.outcome.Success? ==>
                  && OnlyStatus(s, t, c, Candidates.Leaving(s.round + LEAVE_CANDIDATES_DELAY)) && Count(t.pool, c) == 0)
  {
    hide Consistent, Keeps, Without, OtherPool;
    var r := ScheduleLeaveCandidates(s, c, hint);
    ScheduleLeaveCandidatesKeeps(s, c, hint);
    if r.outcome.Success? {
      StatusPool(s, r.ledger, c, Candidates.Leaving(s.round + LEAVE_CANDIDATES_DELAY));
    }
  }

  lemma CancelLeaveEffect(s: Ledger, c: Account, hint: nat)
    requires Consistent(s)
    ensures var r := CancelLeaveCandidates(s, c, hint); var t := r.ledger;
            && (r.outcome.Success? <==> c in s.info && s.info[c].status.Leaving? && hint >= |s.pool|)
            && (r.outcome.Failure? ==> t == s)
            && (r.outcome.Success? ==>
                  OnlyStatus(s, t, c, Candidates.Active) && Bond(c, s.info[c].totalCounted) in t.pool)
  {
    hide Consistent, Keeps, Put, OtherPool;
    var r := CancelLeaveCandidates(s, c, hint);
    CancelLeaveCandidatesKeeps(s, c, hint);
    if r.outcome.Success? {
      StatusPool(s, r.ledger, c, Candidates.Active);
    }
  }

  lemma GoOfflineEffect(s: Ledger, c: Account)
    requires Consistent(s)
    ensures var r := GoOffline(s, c); var t := r.ledger;
            && (r.outcome.Success? <==> c in s.info && s.info[c].status.Active?)
            && (r.outcome.Failure? ==> t == s)
            && (r.outcome.Success? ==> OnlyStatus(s, t, c, Candidates.Idle) && Count(t.pool, c) == 0)
  {
    hide Consistent, Keeps, Without, OtherPool;
    var r := GoOffline(s, c);
    GoOfflineKeeps(s, c);
    if r.outcome.Success? {
      StatusPool(s, r.ledger, c, Candidates.Idle);
    }
  }

  lemma GoOnlineEffect(s: Ledger, c: Account)
    requires Consistent(s)
    ensures var r := GoOnline(s, c); var t := r.ledger;
            && (r.outcome.Success? <==> c in s.info && s.info[c].status.Idle?)
            && (r.outcome.Failure? ==> t == s)
            && (r.outcome.Success? ==>
                  OnlyStatus(s, t, c, Candidates.Active) && Bond(c, s.info[c].totalCounted) in t.pool)
  {
    hide Consistent, Keeps, Put, OtherPool;
    var r := GoOnline(s, c);
    GoOnlineKeeps(s, c);
    if r.outcome.Success? {
      StatusPool(s, r.ledger, c, Candidates.Active);
    }
  }

  // ----- the bond -----

  /** `c`'s bond and counted total are higher by `delta`, so is what is held for it, what it has in the
      pool, and `Total`; its request is now `request`, and nothing else differs. */
  ghost predicate OnlyBond(s: Ledger, r: Ledger, c: Account, delta: int, request: Option<Candidates.BondLess>) {
    && c in s.info && c in r.info && r.info - {c} == s.info - {c}
    && r.info[c].bond == s.info[c].bond + delta && r.info[c].totalCounted == s.info[c].totalCounted + delta
    && r.info[c].request == request && r.info[c].status == s.info[c].status
    && r.info[c].(bond := s.info[c].bond, totalCounted := s.info[c].totalCounted, request := s.info[c].request)
         == s.info[c]
    && (s.info[c].status.Active? ==> Bond(c, r.info[c].totalCounted) in r.pool)
    && SameDelegations(s, r) && OtherPool(s, r, c) && Count(r.pool, c) == Count(s.pool, c)
    && r.total == (if s.total + delta < 0 then 0 else s.total + delta)
  }

  lemma BondPool(s: Ledger, r: Ledger, c: Account)
    requires Consistent(s) && Keeps(s, r) && c in s.info && c in r.info && r.info - {c} == s.info - {c}
    requires r.info[c].status == s.info[c].status
    ensures OtherPool(s, r, c) && Count(r.pool, c) == Count(s.pool, c)
    ensures s.info[c].status.Active? ==> Bond(c, r.info[c].totalCounted) in r.pool
  {
    hide Consistent, Keeps, PoolOk, OtherPool;
    PoolsOk(s, r);
    PoolElsewhere(s, r, c);
    if s.info[c].status.Active? {
      PoolHas(s, c);
      PoolHas(r, c);
    } else {
      PoolHasNot(s, c);
      PoolHasNot(r, c);
    }
  }

  lemma BondMoreEffect(s: Ledger, c: Account, more: Balance)
    requires Consistent(s)
    ensures var r := CandidateBondMore(s, c, more); var t := r.ledger;
            && (r.outcome.Success? <==> c in s.info && Get(s.free, c) >= more)
            && (r.outcome.Failure? ==> t == s)
            && (r.outcome.Success? ==> OnlyBond(s, t, c, more, s.info[c].request) && FundsMove(s, t, c, more))
  {
    hide Consistent, Keeps, Reindex, OtherPool;
    var r := CandidateBondMore(s, c, more);
    CandidateBondMoreKeeps(s, c, more);
    if r.outcome.Success? {
      BondPool(s, r.ledger, c);
    }
  }

  /** At most one request, which leaves at least the minimum bond. */
  lemma ScheduleBondLessEffect(s: Ledger, c: Account, less: Balance)
    requires Consistent(s)
    ensures var r := ScheduleCandidateBondLess(s, c, less); var t := r.ledger;
            && (r.outcome.Success? <==>
                  && c in s.info && s.info[c].request.None?
                  && less < s.info[c].bond && s.info[c].bond - less >= MIN_CANDIDATE_STK)
            && (r.outcome.Failure? ==> t == s)
            && (r.outcome.Success? ==>
                  && OnlyBond(s, t, c, 0, Some(Candidates.BondLess(less, s.round + CANDIDATE_BOND_LESS_DELAY)))
                  && SameFunds(s, t))
  {
    hide Consistent, Keeps, OtherPool;
    var r := ScheduleCandidateBondLess(s, c, less);
    ScheduleCandidateBondLessKeeps(s, c, less);
    if r.outcome.Success? {
      BondPool(s, r.ledger, c);
    }
  }

  /** The amount asked for comes out of the bond and is free again. */
  lemma ExecuteBondLessEffect(s: Ledger, c: Account)
    requires Consistent(s)
    ensures var r := ExecuteCandidateBondLess(s, c); var t := r.ledger;
            && (r.outcome.Success? <==>
                  c in s.info && s.info[c].request.Some? && s.info[c].request.value.whenExecutable <= s.round)
            && (r.outcome.Failure? ==> t == s)
            && (r.outcome.Success? ==>
                  && OnlyBond(s, t, c, 0 - s.info[c].request.value.amount, None)
                  && FundsMove(s, t, c, 0 - s.info[c].request.value.amount))
  {
    hide Consistent, Keeps, Reindex, OtherPool;
    var r := ExecuteCandidateBondLess(s, c);
    ExecuteCandidateBondLessKeeps(s, c);
    if r.outcome.Success? {
      BondLessAffords(s, c);
      BondPool(s, r.ledger, c);
    }
  }

  lemma CancelBondLessEffect(s: Ledger, c: Account)
    requires Consistent(s)
    ensures var r := CancelCandidateBondLess(s, c); var t := r.ledger;
            && (r.outcome.Success? <==> c in s.info && s.info[c].request.Some?)
            && (r.outcome.Failure? ==> t == s)
            && (r.outcome.Success? ==> OnlyBond(s, t, c, 0, None) && SameFunds(s, t))
  {
    hide Consistent, Keeps, OtherPool;
    var r := CancelCandidateBondLess(s, c);
    CancelCandidateBondLessKeeps(s, c);
    if r.outcome.Success? {
      BondPool(s, r.ledger, c);
    }
  }

  // ----- what one call undoes -----

  lemma TwoKeep(s: Ledger, r: Ledger, t: Ledger)
    requires Consistent(s) && Keeps(s, r)
    ensures Consistent(r) && (Keeps(r, t) ==> PoolOk(s.pool, s.info) && PoolOk(t.pool, t.info))
  {
  }

  /** Going online again restores the ledger, pool included. */
  lemma OnlineUndoesOffline(s: Ledger, c: Account)
    requires Consistent(s) && GoOffline(s, c).outcome.Success?
    ensures GoOnline(GoOffline(s, c).ledger, c) == Done(s)
  {
    hide Consistent, Keeps, Without, Put, PoolOk;
    var r := GoOffline(s, c).ledger;
    var t := GoOnline(r, c).ledger;
    GoOfflineKeeps(s, c);
    TwoKeep(s, r, t);
    GoOnlineKeeps(r, c);
    assert t.info == s.info;
    PoolByCandidates(s, t);
  }

  /** Cancelling an exit restores the ledger if and only if the candidate was active: one that was idle
      comes back active. */
  lemma CancelUndoesScheduleIff(s: Ledger, c: Account, hint: nat)
    requires Consistent(s) && ScheduleLeaveCandidates(s, c, hint).outcome.Success?
    ensures var r := CancelLeaveCandidates(ScheduleLeaveCandidates(s, c, hint).ledger, c, hint);
            r.outcome.Success? && (r.ledger == s <==> s.info[c].status.Active?)
  {
    hide Consistent, Keeps, Without, Put, PoolOk;
    var r := ScheduleLeaveCandidates(s, c, hint).ledger;
    var t := CancelLeaveCandidates(r, c, hint).ledger;
    ScheduleLeaveCandidatesKeeps(s, c, hint);
    TwoKeep(s, r, t);
    CancelLeaveCandidatesKeeps(r, c, hint);
    WithoutMeasures(s.pool, c);
    if s.info[c].status.Active? {
      assert t.info == s.info;
      PoolByCandidates(s, t);
    } else {
      assert t.info[c].status.Active?;
    }
  }

  lemma CancelUndoesBondLess(s: Ledger, c: Account, less: Balance)
    requires ScheduleCandidateBondLess(s, c, less).outcome.Success?
    ensures CancelCandidateBondLess(ScheduleCandidateBondLess(s, c, less).ledger, c) == Done(s)
  {
    var t := CancelCandidateBondLess(ScheduleCandidateBondLess(s, c, less).ledger, c).ledger;
    assert t.info == s.info;
  }
}

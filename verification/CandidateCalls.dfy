/** Calls of candidates keep the ledger's invariants. */
module CandidateCalls {
  import opened Bonds
  import opened Params
  import opened OrderedSets
  import opened DelegationLists
  import opened Ledgers
  import opened Transitions
  import opened Calls
  import Candidates
  import Sums

  /** Only `c`'s metadata, its pool entry, `Total` and `c`'s holds may differ. */
  ghost predicate OnlyInfo(s: Ledger, r: Ledger, c: Account, m: Metadata) {
    && r.info == s.info[c := m]
    && r.top == s.top && r.bottom == s.bottom && r.delegators == s.delegators && r.round == s.round
  }

  lemma InfoBooks(info: map<Account, Metadata>, top: map<Account, DelegationData>, bottom: map<Account, DelegationData>,
                  c: Account, m: Metadata)
    requires BooksAgree(info, top, bottom) && c in info
    requires Candidates.Ok(Candidates.Candidate(m, top[c], bottom[c]))
    ensures BooksAgree(info[c := m], top, bottom)
  {
    assert info[c := m].Keys == info.Keys;
  }

  lemma InfoHolds(s: Ledger, r: Ledger, c: Account, m: Metadata, delta: int)
    requires c in s.info && r.info == s.info[c := m] && r.delegators == s.delegators
    requires m.bond == s.info[c].bond + delta && HeldMoves(s, r, c, delta)
    ensures Covered(s) ==> Covered(r)
    ensures ReservesExact(s) ==> ReservesExact(r)
  {
  }

  lemma InfoRoles(info: map<Account, Metadata>, delegators: map<Account, Delegator>, c: Account, m: Metadata)
    requires info.Keys !! delegators.Keys && c in info
    ensures info[c := m].Keys !! delegators.Keys
  {
    assert info[c := m].Keys == info.Keys;
  }

  lemma InfoConsistent(s: Ledger, r: Ledger, c: Account, m: Metadata, delta: int)
    requires Consistent(s) && c in s.info && OnlyInfo(s, r, c, m) && PoolOk(r.pool, r.info)
    requires c in s.top && c in s.bottom && Candidates.Ok(Candidates.Candidate(m, s.top[c], s.bottom[c]))
    requires m.bond == s.info[c].bond + delta && HeldMoves(s, r, c, delta)
    ensures Consistent(r)
  {
    InfoBooks(s.info, s.top, s.bottom, c, m);
    InfoHolds(s, r, c, m, delta);
    InfoRoles(s.info, s.delegators, c, m);
  }

  lemma InfoBacking(s: Ledger, r: Ledger, c: Account, m: Metadata, delta: int)
    requires Listed(s, c) && OnlyInfo(s, r, c, m) && m.bond == s.info[c].bond + delta
    ensures TotalBacking(r) == TotalBacking(s) + delta
  {
    var after := Candidates.Candidate(m, s.top[c], s.bottom[c]);
    BackingAfterPut(s, c, after);
    assert r.top == s.top[c := after.top] && r.bottom == s.bottom[c := after.bottom];
  }

  lemma InfoConserved(s: Ledger, r: Ledger, c: Account, m: Metadata, delta: int)
    requires Listed(s, c) && Conserved(s) && OnlyInfo(s, r, c, m)
    requires m.bond == s.info[c].bond + delta && HeldMoves(s, r, c, delta)
    requires r.total == if s.total + delta < 0 then 0 else s.total + delta
    ensures Conserved(r)
    ensures Exact(s) ==> Exact(r)
  {
    InfoHolds(s, r, c, m, delta);
    InfoBacking(s, r, c, m, delta);
  }

  /** A change of bond, request or status, brought along everywhere it is recorded. */
  lemma InfoKeeps(s: Ledger, r: Ledger, c: Account, delta: int, request: Option<Candidates.BondLess>,
                  status: Candidates.CollatorStatus)
    requires Consistent(s) && c in s.info && s.info[c].bond + delta >= 0 && s.info[c].totalCounted + delta >= 0
    requires OnlyInfo(s, r, c, Candidates.Revised(s.info[c], delta, request, status)) && PoolOk(r.pool, r.info)
    requires Candidates.BondOk(Candidates.Revised(s.info[c], delta, request, status)) && HeldMoves(s, r, c, delta)
    requires r.total == if s.total + delta < 0 then 0 else s.total + delta
    ensures Keeps(s, r)
  {
    var m := Candidates.Revised(s.info[c], delta, request, status);
    assert Listed(s, c);
    Candidates.RevisedOk(CandidateAt(s, c), delta, request, status);
    InfoConsistent(s, r, c, m, delta);
    if Conserved(s) {
      InfoConserved(s, r, c, m, delta);
    }
  }

  lemma BondIsOk(s: Ledger, c: Account)
    requires Consistent(s) && c in s.info
    ensures Candidates.BondOk(s.info[c]) && s.info[c].totalCounted >= s.info[c].bond
  {
    assert Candidates.Ok(CandidateAt(s, c));
  }

  lemma LeavesPool(s: Ledger, c: Account, m: Metadata)
    requires Consistent(s) && c in s.info && !m.status.Active?
    ensures PoolOk(Without(s.pool, c), s.info[c := m])
  {
    WithoutMeasures(s.pool, c);
    WithoutKeepsOrder(s.pool, c);
    PoolFollows(s.pool, s.info, c, m, Without(s.pool, c));
  }

  lemma EntersPool(s: Ledger, c: Account, m: Metadata)
    requires Consistent(s) && c in s.info && !s.info[c].status.Active? && m.status.Active?
    ensures PoolOk(Put(s.pool, Bond(c, m.totalCounted)), s.info[c := m])
    ensures Count(s.pool, c) == 0
  {
    assert Count(s.pool, c) == PoolCount(s.info, c) && StakeOf(s.pool, c) == PoolStake(s.info, c);
    PutMeasures(s.pool, Bond(c, m.totalCounted));
    PutKeepsOrder(s.pool, Bond(c, m.totalCounted));
    PoolFollows(s.pool, s.info, c, m, Put(s.pool, Bond(c, m.totalCounted)));
  }

  /** A change of status moves the candidate in or out of the pool and nothing else. */
  lemma StatusKeeps(s: Ledger, r: Ledger, c: Account, status: Candidates.CollatorStatus)
    requires Consistent(s) && c in s.info && r == PutInfo(s, c, s.info[c].(status := status)).(pool := r.pool)
    requires PoolOk(r.pool, r.info)
    ensures Keeps(s, r)
  {
    BondIsOk(s, c);
    InfoKeeps(s, r, c, 0, s.info[c].request, status);
  }

  lemma LeavePoolKeeps(s: Ledger, c: Account, status: Candidates.CollatorStatus)
    requires Consistent(s) && c in s.info && !status.Active?
    ensures Keeps(s, PutInfo(s, c, s.info[c].(status := status)).(pool := Without(s.pool, c)))
  {
    LeavesPool(s, c, s.info[c].(status := status));
    StatusKeeps(s, PutInfo(s, c, s.info[c].(status := status)).(pool := Without(s.pool, c)), c, status);
  }

  lemma EnterPoolKeeps(s: Ledger, c: Account)
    requires Consistent(s) && c in s.info && !s.info[c].status.Active?
    ensures Keeps(s, PutInfo(s, c, s.info[c].(status := Candidates.Active)).(
                       pool := Put(s.pool, Bond(c, s.info[c].totalCounted))))
  {
    EntersPool(s, c, s.info[c].(status := Candidates.Active));
    StatusKeeps(s, PutInfo(s, c, s.info[c].(status := Candidates.Active)).(
                  pool := Put(s.pool, Bond(c, s.info[c].totalCounted))), c, Candidates.Active);
  }

  lemma ScheduleLeaveCandidatesKeeps(s: Ledger, c: Account, hint: nat)
    requires Consistent(s)
    ensures Keeps(s, ScheduleLeaveCandidates(s, c, hint).ledger)
  {
    hide Keeps, Consistent;
    KeepsSame(s);
    if ScheduleLeaveCandidates(s, c, hint).outcome.Success? {
      LeavePoolKeeps(s, c, Candidates.Leaving(s.round + LEAVE_CANDIDATES_DELAY));
    }
  }

  lemma GoOfflineKeeps(s: Ledger, c: Account)
    requires Consistent(s)
    ensures Keeps(s, GoOffline(s, c).ledger)
  {
    hide Keeps, Consistent;
    KeepsSame(s);
    if GoOffline(s, c).outcome.Success? {
      LeavePoolKeeps(s, c, Candidates.Idle);
    }
  }

  lemma CancelLeaveCandidatesKeeps(s: Ledger, c: Account, hint: nat)
    requires Consistent(s)
    ensures Keeps(s, CancelLeaveCandidates(s, c, hint).ledger)
  {
    hide Keeps, Consistent;
    KeepsSame(s);
    if CancelLeaveCandidates(s, c, hint).outcome.Success? {
      EnterPoolKeeps(s, c);
    }
  }

  lemma GoOnlineKeeps(s: Ledger, c: Account)
    requires Consistent(s)
    ensures Keeps(s, GoOnline(s, c).ledger)
  {
    hide Keeps, Consistent;
    KeepsSame(s);
    if GoOnline(s, c).outcome.Success? {
      EnterPoolKeeps(s, c);
    }
  }

  /** The self bond moves by `delta`; the pool, `Total` and the hold follow. */
  lemma BondKeeps(s: Ledger, r: Ledger, c: Account, delta: int, request: Option<Candidates.BondLess>)
    requires Consistent(s) && c in s.info && s.info[c].bond + delta >= 0 && s.info[c].totalCounted + delta >= 0
    requires var m := Candidates.Revised(s.info[c], delta, request, s.info[c].status);
             OnlyInfo(s, r, c, m) && r.pool == Reindex(s.pool, c, m) && Candidates.BondOk(m)
    requires HeldMoves(s, r, c, delta) && r.total == if s.total + delta < 0 then 0 else s.total + delta
    ensures Keeps(s, r)
  {
    ReindexKeepsPool(s.pool, s.info, c, Candidates.Revised(s.info[c], delta, request, s.info[c].status));
    InfoKeeps(s, r, c, delta, request, s.info[c].status);
  }

  lemma CandidateBondMoreKeeps(s: Ledger, c: Account, more: Balance)
    requires Consistent(s)
    ensures Keeps(s, CandidateBondMore(s, c, more).ledger)
  {
    hide Keeps, Consistent;
    KeepsSame(s);
    if CandidateBondMore(s, c, more).outcome.Success? {
      BondIsOk(s, c);
      BondKeeps(s, CandidateBondMore(s, c, more).ledger, c, more, s.info[c].request);
    }
  }

  lemma RequestKeeps(s: Ledger, c: Account, request: Option<Candidates.BondLess>)
    requires Consistent(s) && c in s.info && Candidates.BondOk(s.info[c].(request := request))
    ensures Keeps(s, PutInfo(s, c, s.info[c].(request := request)))
  {
    BondIsOk(s, c);
    var m := s.info[c].(request := request);
    SamePool(s.pool, s.info, c, m);
    InfoKeeps(s, PutInfo(s, c, m), c, 0, request, s.info[c].status);
  }

  lemma SamePool(pool: seq<Bond>, info: map<Account, Metadata>, c: Account, m: Metadata)
    requires PoolOk(pool, info) && c in info && m.status == info[c].status && m.totalCounted == info[c].totalCounted
    ensures PoolOk(pool, info[c := m])
  {
    PoolFollows(pool, info, c, m, pool);
  }

  lemma ScheduleCandidateBondLessKeeps(s: Ledger, c: Account, less: Balance)
    requires Consistent(s)
    ensures Keeps(s, ScheduleCandidateBondLess(s, c, less).ledger)
  {
    hide Keeps, Consistent;
    KeepsSame(s);
    var r := ScheduleCandidateBondLess(s, c, less);
    if r.outcome.Success? {
      RequestKeeps(s, c, r.ledger.info[c].request);
    }
  }

  lemma CancelCandidateBondLessKeeps(s: Ledger, c: Account)
    requires Consistent(s)
    ensures Keeps(s, CancelCandidateBondLess(s, c).ledger)
  {
    hide Keeps, Consistent;
    KeepsSame(s);
    var r := CancelCandidateBondLess(s, c);
    if r.outcome.Success? {
      BondIsOk(s, c);
      RequestKeeps(s, c, None);
    }
  }

  /** The bond covers its pending decrease, so no subtraction saturates and the minimum survives. */
  lemma BondLessAffords(s: Ledger, c: Account)
    requires Consistent(s) && c in s.info && s.info[c].request.Some?
    ensures var less := s.info[c].request.value.amount;
            s.info[c].bond >= less + MIN_CANDIDATE_STK && s.info[c].totalCounted >= less && Get(s.reserved, c) >= less
  {
    BondIsOk(s, c);
    assert Get(s.reserved, c) >= SelfBond(s.info, c) + Delegated(s.delegators, c);
  }

  lemma ExecuteCandidateBondLessKeeps(s: Ledger, c: Account)
    requires Consistent(s)
    ensures Keeps(s, ExecuteCandidateBondLess(s, c).ledger)
  {
    hide Keeps, Consistent;
    KeepsSame(s);
    if ExecuteCandidateBondLess(s, c).outcome.Success? {
      var less: int := s.info[c].request.value.amount;
      BondLessAffords(s, c);
      BondKeeps(s, ExecuteCandidateBondLess(s, c).ledger, c, 0 - less, None);
    }
  }

  // ----- joining -----

  lemma JoinPool(s: Ledger, acc: Account, m: Metadata)
    requires PoolOk(s.pool, s.info) && acc !in s.info && m.status.Active?
    ensures PoolOk(Put(s.pool, Bond(acc, m.totalCounted)), s.info[acc := m])
    ensures Count(s.pool, acc) == 0
  {
    assert Count(s.pool, acc) == PoolCount(s.info, acc) && StakeOf(s.pool, acc) == PoolStake(s.info, acc);
    PutMeasures(s.pool, Bond(acc, m.totalCounted));
    PutKeepsOrder(s.pool, Bond(acc, m.totalCounted));
    PoolFollows(s.pool, s.info, acc, m, Put(s.pool, Bond(acc, m.totalCounted)));
  }

  ghost predicate Joined(s: Ledger, r: Ledger, acc: Account, bond: Balance) {
    && r.info == s.info[acc := Candidates.Fresh(bond).info]
    && r.top == s.top[acc := DelegationData([], 0)] && r.bottom == s.bottom[acc := DelegationData([], 0)]
    && r.delegators == s.delegators && r.pool == Put(s.pool, Bond(acc, bond))
    && r.total == s.total + bond && HeldMoves(s, r, acc, bond)
  }

  lemma JoinBooks(s: Ledger, r: Ledger, acc: Account, bond: Balance)
    requires BooksOk(s) && bond >= MIN_CANDIDATE_STK && Joined(s, r, acc, bond)
    ensures BooksOk(r)
  {
    Candidates.FreshOk(bond);
    PutCandidateBooks(s, acc, Candidates.Fresh(bond));
  }

  lemma JoinLinked(s: Ledger, r: Ledger, acc: Account, bond: Balance)
    requires BooksOk(s) && Linked(s) && Joined(s, r, acc, bond) && acc !in s.info
    ensures Linked(r)
  {
    forall d, c
      ensures Stake(r.delegators, d, c) == Backed(r.top, r.bottom, c, d)
    {
      assert Stake(s.delegators, d, c) == Backed(s.top, s.bottom, c, d);
    }
  }

  lemma JoinHolds(s: Ledger, r: Ledger, acc: Account, bond: Balance)
    requires Joined(s, r, acc, bond) && acc !in s.info
    ensures Covered(s) ==> Covered(r)
    ensures ReservesExact(s) ==> ReservesExact(r)
  {
  }

  lemma JoinBacking(s: Ledger, r: Ledger, acc: Account, bond: Balance)
    requires Joined(s, r, acc, bond) && acc !in s.info
    ensures TotalBacking(r) == TotalBacking(s) + bond
    ensures NoDrift(s) ==> NoDrift(r)
  {
    hide Backings, Sums.SumMap, TotalsSum;
    JoinedBackings(s, r, acc, bond);
    Sums.Update(Backings(s.info, s.top, s.bottom), acc, bond);
    JoinedTotals(s, r, acc, bond);
  }

  lemma JoinedBackings(s: Ledger, r: Ledger, acc: Account, bond: Balance)
    requires Joined(s, r, acc, bond) && acc !in s.info
    ensures Backings(r.info, r.top, r.bottom) == Backings(s.info, s.top, s.bottom)[acc := bond]
    ensures acc !in Backings(s.info, s.top, s.bottom)
  {
    hide HeldMoves, Put;
  }

  lemma JoinedTotals(s: Ledger, r: Ledger, acc: Account, bond: Balance)
    requires Joined(s, r, acc, bond)
    ensures NoDrift(s) ==> NoDrift(r)
  {
    hide HeldMoves, Put;
  }

  lemma JoinedKeeps(s: Ledger, r: Ledger, acc: Account, bond: Balance)
    requires Consistent(s) && Joined(s, r, acc, bond)
    requires acc !in s.info && acc !in s.delegators && bond >= MIN_CANDIDATE_STK
    ensures Keeps(s, r)
  {
    hide BooksAgree, DelegatorsOk, StakesAgree, PoolOk, HoldsCover, HoldsEqual, Backings, TotalsSum;
    JoinBooks(s, r, acc, bond);
    JoinLinked(s, r, acc, bond);
    JoinHolds(s, r, acc, bond);
    JoinBacking(s, r, acc, bond);
    JoinPool(s, acc, Candidates.Fresh(bond).info);
  }

  lemma JoinCandidatesKeeps(s: Ledger, acc: Account, bond: Balance, hint: nat)
    requires Consistent(s)
    ensures Keeps(s, JoinCandidates(s, acc, bond, hint).ledger)
  {
    hide Keeps, Consistent;
    KeepsSame(s);
    var r := JoinCandidates(s, acc, bond, hint);
    if r.outcome.Success? {
      JoinedKeeps(s, r.ledger, acc, bond);
    }
  }
}

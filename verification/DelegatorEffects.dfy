/** What each call of a delegator does, and to whom: which stakes, holds and requests change by how much,
    that no other fact changes, and exactly when the call succeeds. */
module DelegatorEffects {
  import opened Bonds
  import opened Params
  import opened Ledgers
  import opened Transitions
  import opened Calls
  import opened DelegatorCalls
  import opened Facts
  import Guarantees
  import Queues
  import Candidates
  import Delegators

  // ----- what is common to all moves of stake -----

  lemma BothLinked(s: Ledger, r: Ledger, d: Account, c: Account, delta: int)
    requires Consistent(s) && Consistent(r)
    requires forall x, y :: Stake(r.delegators, x, y) == Stake(s.delegators, x, y) + if x == d && y == c then delta
             else 0
    ensures StakeMoves(s, r, d, c, delta)
  {
    hide BooksOk, DelegatorsOk, PoolOk, Covered, Stake, Backed;
    forall x, y
      ensures Backed(r.top, r.bottom, y, x) == Backed(s.top, s.bottom, y, x) + (if x == d && y == c then delta else 0)
    {
      assert Stake(s.delegators, x, y) == Backed(s.top, s.bottom, y, x);
      assert Stake(r.delegators, x, y) == Backed(r.top, r.bottom, y, x);
    }
  }

  lemma PutQueueOthers(s: Ledger, c: Account, q: Queues.Queue, excess: nat)
    requires Listed(s, c)
    ensures var p := PutQueue(s, c, q, excess);
            && OtherCandidates(s, p, c) && SameCandidate(s, p, c)
            && p.delegators == s.delegators && p.reserved == s.reserved && p.free == s.free && p.round == s.round
            && p.total == s.total
  {
    hide Reindex;
  }

  /** Somebody is a delegator exactly with a stake on somebody. */
  lemma DelegatorIff(s: Ledger, d: Account)
    requires Consistent(s)
    ensures d in s.delegators <==> exists c :: Stake(s.delegators, d, c) > 0
  {
    if d in s.delegators {
      RecordIsOk(s, d);
      EntryCounts(s.delegators[d].delegations, 0);
      PositiveStakeOf(s, d, s.delegators[d].delegations[0].owner);
    }
  }

  /** Requests are on delegations only. */
  lemma RequestHasStake(s: Ledger, d: Account, c: Account)
    requires Consistent(s) && RequestOn(s, d, c).Some?
    ensures Stake(s.delegators, d, c) > 0
  {
    RequestIsFor(s, d, c);
  }

  // ----- ending a delegation -----

  /** The request on the delegation from `d` to `c` is gone, no other. */
  ghost predicate RequestEnds(s: Ledger, r: Ledger, d: Account, c: Account) {
    forall x, y :: RequestOn(r, x, y) == if x == d && y == c then None else RequestOn(s, x, y)
  }

  /** `d`'s stake on `c` moves by `delta` on both sides, `held` more is held for `d`, and a delegator keeps
      its status; nothing else differs but requests and `Total`. */
  ghost predicate Moves(s: Ledger, r: Ledger, d: Account, c: Account, delta: int, held: int) {
    && StakeMoves(s, r, d, c, delta) && FundsMove(s, r, d, held)
    && OtherDelegators(s, r, d)
    && (d in r.delegators && d in s.delegators ==> r.delegators[d].status == s.delegators[d].status)
    && OtherCandidates(s, r, c) && SameCandidate(s, r, c) && r.round == s.round
  }

  lemma SeverEnds(s: Ledger, d: Account, c: Account, amount: Balance)
    requires Consistent(s) && 0 < Stake(s.delegators, d, c) && amount <= Stake(s.delegators, d, c)
    ensures Listed(s, c) && Moves(s, Sever(s, d, c, amount), d, c, 0 - Stake(s.delegators, d, c), 0 - amount)
    ensures RequestEnds(s, Sever(s, d, c, amount), d, c)
    ensures Consistent(Sever(s, d, c, amount)) && Sever(s, d, c, amount).total == SatSub(s.total, amount)
  {
    hide Consistent, StakeMoves, RequestEnds, FundsMove, Sever, OtherCandidates, SameCandidate, OtherDelegators, Stake;
    SeverConsistent(s, d, c, amount);
    var r := Sever(s, d, c, amount);
    BothSides(s, d, c);
    SeverOthers(s, d, c, amount);
    OwnSever(s, r, d, c);
    BothLinked(s, r, d, c, 0 - Stake(s.delegators, d, c));
    DelegatedAtLeast(s, d, c);
    SeverFunds(s, d, c, amount);
    SeverRequests(s, r, d, c);
  }

  lemma SeverFunds(s: Ledger, d: Account, c: Account, amount: Balance)
    requires Listed(s, c) && amount <= Get(s.reserved, d)
    ensures FundsMove(s, Sever(s, d, c, amount), d, 0 - amount)
  {
    hide PutQueue, Queues.Dequeue, ExcessAt;
    PutQueueOthers(s, c, Queues.Dequeue(QueueAt(s, c), d), ExcessAt(s, c));
  }

  lemma SeverOthers(s: Ledger, d: Account, c: Account, amount: Balance)
    requires Listed(s, c) && d in s.delegators
    ensures var r := Sever(s, d, c, amount);
            && r.delegators == DropFrom(s.delegators, d, c) && OtherDelegators(s, r, d)
            && (d in r.delegators ==> r.delegators[d].status == s.delegators[d].status)
            && OtherCandidates(s, r, c) && SameCandidate(s, r, c)
            && r.round == s.round && r.total == SatSub(s.total, amount)
  {
    hide PutQueue, Queues.Dequeue, ExcessAt;
    PutQueueOthers(s, c, Queues.Dequeue(QueueAt(s, c), d), ExcessAt(s, c));
  }

  lemma SeverRequests(s: Ledger, r: Ledger, d: Account, c: Account)
    requires Consistent(s) && Stake(s.delegators, d, c) > 0 && r.delegators == DropFrom(s.delegators, d, c)
    ensures RequestEnds(s, r, d, c)
  {
    hide Consistent;
    BothSides(s, d, c);
    forall x, y
      ensures RequestOn(r, x, y) == if x == d && y == c then None else RequestOn(s, x, y)
    {
      if x == d && |s.delegators[d].delegations| == 1 && RequestOn(s, d, y).Some? {
        RequestHasStake(s, d, y);
        OnlyDelegation(s.delegators[d].delegations, c, y);
      }
    }
  }

  lemma OnlyDelegation(delegations: seq<Bond>, c: Account, y: Account)
    requires |delegations| == 1 && Count(delegations, c) > 0 && StakeOf(delegations, y) > 0
    ensures y == c
  {
    assert DropLast(delegations) == [];
  }

  // ----- changing a delegation -----

  ghost predicate SameRequests(s: Ledger, r: Ledger) {
    forall x, y :: RequestOn(r, x, y) == RequestOn(s, x, y)
  }

  lemma RaiseMoves(s: Ledger, d: Account, c: Account, more: Balance)
    requires Consistent(s) && Stake(s.delegators, d, c) > 0 && CanReserve(s, d, more)
    ensures Listed(s, c) && d in s.delegators
    ensures var r := RaiseStake(s, d, c, more);
            Moves(s, r, d, c, more, more) && SameRequests(s, r) && r.total == s.total + more && d in r.delegators
  {
    hide Consistent, StakeMoves, SameRequests, FundsMove, RaiseStake, OtherCandidates, SameCandidate, OtherDelegators,
      Stake;
    RaiseKeeps(s, d, c, more);
    BothSides(s, d, c);
    var r := RaiseStake(s, d, c, more);
    RaiseOthers(s, d, c, more);
    RaisedRecord(s, r, d, c, more);
    BothLinked(s, r, d, c, more);
  }

  lemma RaiseOthers(s: Ledger, d: Account, c: Account, more: Balance)
    requires Listed(s, c) && d in s.delegators && CanReserve(s, d, more)
    ensures var r := RaiseStake(s, d, c, more);
            && r.delegators == s.delegators[d := Delegators.Raise(s.delegators[d], c, more)]
            && OtherDelegators(s, r, d) && r.delegators[d].status == s.delegators[d].status && SameRequests(s, r)
            && FundsMove(s, r, d, more)
            && OtherCandidates(s, r, c) && SameCandidate(s, r, c)
            && r.round == s.round && r.total == s.total + more
  {
    hide PutQueue, Queues.Raise, ExcessAt;
    PutQueueOthers(s, c, Queues.Raise(QueueAt(s, c), d, more), ExcessAt(s, c));
  }

  lemma LowerMoves(s: Ledger, d: Account, c: Account, less: Balance)
    requires Consistent(s) && DecreasePending(s, d, c, less)
    ensures Listed(s, c)
    ensures var r := LowerStake(s, d, c, less);
            && Moves(s, r, d, c, 0 - less, 0 - less) && RequestEnds(s, r, d, c)
            && r.total == SatSub(s.total, less) && d in r.delegators
  {
    hide Consistent, StakeMoves, RequestEnds, FundsMove, LowerStake, OtherCandidates, SameCandidate, OtherDelegators,
      Stake;
    LowerKeeps(s, d, c, less);
    LowerAffords(s, d, c, less);
    var r := LowerStake(s, d, c, less);
    LowerOthers(s, d, c, less);
    LowerOwnSide(s, r, d, c, less);
    BothLinked(s, r, d, c, 0 - less);
  }

  lemma LowerOthers(s: Ledger, d: Account, c: Account, less: Balance)
    requires Listed(s, c) && d in s.delegators && less <= Get(s.reserved, d)
    ensures var r := LowerStake(s, d, c, less);
            && r.delegators == s.delegators[d := Delegators.Lower(s.delegators[d], c, less)]
            && OtherDelegators(s, r, d) && r.delegators[d].status == s.delegators[d].status && RequestEnds(s, r, d, c)
            && FundsMove(s, r, d, 0 - less)
            && OtherCandidates(s, r, c) && SameCandidate(s, r, c)
            && r.round == s.round && r.total == SatSub(s.total, less)
  {
    hide PutQueue, Queues.Lower, ExcessAt, Drift;
    PutQueueOthers(s, c, Queues.Lower(QueueAt(s, c), d, less), ExcessAt(s, c) + Drift(s, d, c, less));
  }

  // ----- a request carried out -----

  ghost predicate RequestDue(s: Ledger, d: Account, c: Account) {
    RequestOn(s, d, c).Some? && RequestOn(s, d, c).value.whenExecutable <= s.round
  }

  /** What remains is at least the minimum, or, for a revocation, nothing. */
  predicate LeavesMinimum(s: Ledger, d: Account, c: Account)
    requires RequestOn(s, d, c).Some?
  {
    var q := RequestOn(s, d, c).value;
    if q.action.Revoke? then
      |s.delegators[d].delegations| == 1 || SatSub(s.delegators[d].total, MIN_DELEGATOR_STK) >= q.amount
    else s.delegators[d].total >= q.amount + MIN_DELEGATOR_STK
  }

  ghost predicate DelegatesElsewhere(s: Ledger, d: Account, c: Account) {
    exists y :: y != c && Stake(s.delegators, d, y) > 0
  }

  /** The delegation has ended on both sides; `d` is a delegator still if and only if it has another. */
  ghost predicate Revoked(s: Ledger, r: Ledger, d: Account, c: Account, released: Balance) {
    && Moves(s, r, d, c, 0 - Stake(s.delegators, d, c), 0 - released)
    && Stake(r.delegators, d, c) == 0 && Backed(r.top, r.bottom, c, d) == 0
    && (d in r.delegators <==> DelegatesElsewhere(s, d, c))
  }

  lemma MovedAway(s: Ledger, r: Ledger, d: Account, c: Account, released: Balance)
    requires Consistent(s) && Consistent(r) && Moves(s, r, d, c, 0 - Stake(s.delegators, d, c), 0 - released)
    ensures Revoked(s, r, d, c, released)
  {
    hide BooksOk, DelegatorsOk, PoolOk, Covered, Stake, Backed;
    DelegatorIff(r, d);
    assert Stake(r.delegators, d, c) == 0;
    assert Stake(s.delegators, d, c) == Backed(s.top, s.bottom, c, d);
    if d in r.delegators {
      var y :| Stake(r.delegators, d, y) > 0;
      assert y != c && Stake(s.delegators, d, y) > 0;
    }
    if DelegatesElsewhere(s, d, c) {
      var y :| y != c && Stake(s.delegators, d, y) > 0;
      assert Stake(r.delegators, d, y) > 0;
    }
  }

  /** What a call that carries out a request does: exactly when it succeeds, a revocation ends the
      delegation and frees the stored amount, a decrease takes the amount out of stake and holds; in
      top and in bottom alike. */
  lemma ExecuteRequestEffect(s: Ledger, d: Account, c: Account)
    requires Consistent(s)
    ensures var r := ExecuteDelegationRequest(s, d, c); var t := r.ledger;
            && (r.outcome.Success? <==>
                  && RequestDue(s, d, c) && LeavesMinimum(s, d, c)
                  && !(RequestOn(s, d, c).value.action.Revoke? && Guarantees.StoredBelowTop(s, d, c)))
            && (r.outcome.Failure? ==> t == s)
            && (r.outcome.Success? ==>
                  var q := RequestOn(s, d, c).value;
                  && RequestEnds(s, t, d, c) && t.total == SatSub(s.total, q.amount)
                  && if q.action.Revoke? then Revoked(s, t, d, c, q.amount)
                     else Moves(s, t, d, c, 0 - q.amount, 0 - q.amount) && d in t.delegators)
  {
    hide Consistent, Moves, Revoked, RequestEnds, Sever, LowerStake, Candidates.Reaches, Guarantees.StoredBelowTop,
      Stake;
    if RequestOn(s, d, c).Some? {
      var q := RequestOn(s, d, c).value;
      RequestIsFor(s, d, c);
      BothSides(s, d, c);
      if q.action.Revoke? {
        RevokeReaches(s, d, c);
        SeverEnds(s, d, c, q.amount);
        MovedAway(s, Sever(s, d, c, q.amount), d, c, q.amount);
      } else {
        DecreaseFits(s, d, c);
        LowerMoves(s, d, c, q.amount);
      }
    }
  }

  lemma RevokeReaches(s: Ledger, d: Account, c: Account)
    requires Consistent(s) && RequestOn(s, d, c).Some?
    ensures Listed(s, c)
    ensures Candidates.Reaches(CandidateAt(s, c), d, RequestOn(s, d, c).value.amount) <==>
              !Guarantees.StoredBelowTop(s, d, c)
  {
    hide Consistent, Candidates.Reaches, Candidates.Ok;
    RequestIsFor(s, d, c);
    BothSides(s, d, c);
    Guarantees.CandidateIsOk(s, c);
    Candidates.ReachesIff(CandidateAt(s, c), d, RequestOn(s, d, c).value.amount);
  }

  /** A pending decrease is below the stake and within the total. */
  lemma DecreaseFits(s: Ledger, d: Account, c: Account)
    requires Consistent(s) && RequestOn(s, d, c).Some? && RequestOn(s, d, c).value.action.Decrease?
    ensures RequestOn(s, d, c).value.amount < Stake(s.delegators, d, c) <= s.delegators[d].total
    ensures Count(s.delegators[d].delegations, c) == 1 && DecreasePending(s, d, c, RequestOn(s, d, c).value.amount)
    ensures Listed(s, c)
  {
    hide Consistent;
    RequestIsFor(s, d, c);
    BothSides(s, d, c);
    Guarantees.CandidateIsOk(s, c);
    RecordIsOk(s, d);
    StakeBounds(s.delegators[d].delegations, c);
  }

  // ----- bonding more -----

  lemma BondMoreEffect(s: Ledger, d: Account, c: Account, more: Balance)
    requires Consistent(s)
    ensures var r := DelegatorBondMore(s, d, c, more); var t := r.ledger;
            && (r.outcome.Success? <==> Stake(s.delegators, d, c) > 0 && Get(s.free, d) >= more)
            && (r.outcome.Failure? ==> t == s)
            && (r.outcome.Success? ==>
                  && Moves(s, t, d, c, more, more) && SameRequests(s, t) && d in t.delegators
                  && t.total == s.total + more)
  {
    hide Consistent, Moves, SameRequests, RaiseStake;
    if d in s.delegators && Count(s.delegators[d].delegations, c) > 0 {
      PositiveStakeOf(s, d, c);
    }
    if Stake(s.delegators, d, c) > 0 {
      BothSides(s, d, c);
      Guarantees.CandidateIsOk(s, c);
      if CanReserve(s, d, more) {
        RaiseMoves(s, d, c, more);
      }
    }
  }

  // ----- requests and exits scheduled and cancelled -----

  /** Only the request on `(d, c)` differs, and the pending totals with it. */
  ghost predicate OnlyRequest(s: Ledger, r: Ledger, d: Account, c: Account,
      request: Option<Delegators.DelegationRequest>)
  {
    && (forall x, y :: RequestOn(r, x, y) == if x == d && y == c then request else RequestOn(s, x, y))
    && d in s.delegators && d in r.delegators && OtherDelegators(s, r, d)
    && r.delegators[d] == s.delegators[d].(requests := r.delegators[d].requests)
    && r == s.(delegators := r.delegators)
  }

  /** Only `d`'s status differs. */
  ghost predicate OnlyExit(s: Ledger, r: Ledger, d: Account, status: Delegators.DelegatorStatus) {
    d in s.delegators && r == s.(delegators := s.delegators[d := s.delegators[d].(status := status)])
  }

  lemma ScheduleRevokeEffect(s: Ledger, d: Account, c: Account)
    requires Consistent(s)
    ensures var r := ScheduleRevokeDelegation(s, d, c); var t := r.ledger;
            && (r.outcome.Success? <==> Stake(s.delegators, d, c) > 0 && RequestOn(s, d, c).None?)
            && (r.outcome.Failure? ==> t == s)
            && (r.outcome.Success? ==>
                  OnlyRequest(s, t, d, c, Some(Delegators.DelegationRequest(
                                                 c, Stake(s.delegators, d, c), s.round + REVOKE_DELEGATION_DELAY,
                                                 Delegators.Revoke))))
  {
    hide Consistent;
    StakeIff(s, d, c);
  }

  lemma StakeIff(s: Ledger, d: Account, c: Account)
    requires Consistent(s)
    ensures Stake(s.delegators, d, c) > 0 <==> d in s.delegators && Count(s.delegators[d].delegations, c) > 0
  {
    hide BooksOk, Linked, PoolOk, Covered, Delegators.Ok;
    PositiveStake(s.delegators, d, c);
    if d in s.delegators && Count(s.delegators[d].delegations, c) > 0 {
      PositiveStakeOf(s, d, c);
    }
  }

  /** There is no request yet; the delegation keeps the minimum of a delegation and the delegator, after
      everything pending, that of a delegator. */
  predicate MayDecrease(s: Ledger, d: Account, c: Account, less: Balance) {
    && Stake(s.delegators, d, c) >= less + MIN_DELEGATION && RequestOn(s, d, c).None?
    && (less == 0 || s.delegators[d].total >= s.delegators[d].requests.lessTotal + less + MIN_DELEGATOR_STK)
  }

  lemma ScheduleBondLessEffect(s: Ledger, d: Account, c: Account, less: Balance)
    requires Consistent(s)
    ensures var r := ScheduleDelegatorBondLess(s, d, c, less); var t := r.ledger;
            && (r.outcome.Success? <==> MayDecrease(s, d, c, less))
            && (r.outcome.Failure? ==> t == s)
            && (r.outcome.Success? ==>
                  OnlyRequest(s, t, d, c, Some(Delegators.DelegationRequest(
                                                 c, less, s.round + DELEGATION_BOND_LESS_DELAY, Delegators.Decrease))))
  {
    hide Consistent;
    StakeIff(s, d, c);
  }

  lemma CancelRequestEffect(s: Ledger, d: Account, c: Account)
    requires Consistent(s)
    ensures var r := CancelDelegationRequest(s, d, c); var t := r.ledger;
            && (r.outcome.Success? <==> RequestOn(s, d, c).Some?)
            && (r.outcome.Failure? ==> t == s)
            && (r.outcome.Success? ==> OnlyRequest(s, t, d, c, None))
  {
    hide Consistent;
  }

  lemma ScheduleLeaveEffect(s: Ledger, d: Account)
    ensures var r := ScheduleLeaveDelegators(s, d); var t := r.ledger;
            && (r.outcome.Success? <==> d in s.delegators && s.delegators[d].status.Staying?)
            && (r.outcome.Failure? ==> t == s)
            && (r.outcome.Success? ==> OnlyExit(s, t, d, Delegators.Exiting(s.round + LEAVE_DELEGATORS_DELAY)))
  {
  }

  lemma CancelLeaveEffect(s: Ledger, d: Account)
    ensures var r := CancelLeaveDelegators(s, d); var t := r.ledger;
            && (r.outcome.Success? <==> d in s.delegators && s.delegators[d].status.Exiting?)
            && (r.outcome.Failure? ==> t == s)
            && (r.outcome.Success? ==> OnlyExit(s, t, d, Delegators.Staying))
  {
  }

  // ----- delegating -----

  lemma AdmitMoves(s: Ledger, d: Account, c: Account, amount: Balance, after: Delegator)
    requires Consistent(s) && c in s.info && d !in s.info && amount >= MIN_DELEGATION && CanReserve(s, d, amount)
    requires RecordAdmits(s, d, c, amount, after) && Queues.Evicted(QueueAt(s, c)).None?
    ensures var r := Admit(s, d, c, amount, after);
            && Moves(s, r, d, c, amount, amount) && SameRequests(s, r) && Consistent(r)
            && d in r.delegators && r.delegators[d] == after && Stake(r.delegators, d, c) == amount
  {
    hide Consistent, StakeMoves, SameRequests, FundsMove, Admit, OtherCandidates, SameCandidate, OtherDelegators, Stake,
      RecordAdmits;
    Guarantees.CandidateIsOk(s, c);
    AdmitKeeps(s, d, c, amount, after);
    var r := Admit(s, d, c, amount, after);
    AdmitOthers(s, d, c, amount, after);
    OwnAdmitted(s, r, d, c, amount, after);
    BothLinked(s, r, d, c, amount);
  }

  lemma OwnAdmitted(s: Ledger, r: Ledger, d: Account, c: Account, amount: Balance, after: Delegator)
    requires Consistent(s) && RecordAdmits(s, d, c, amount, after) && amount >= MIN_DELEGATION
    requires r.delegators == s.delegators[d := after]
    ensures OwnSideMoves(s, r, d, c, amount) && Stake(r.delegators, d, c) == amount
  {
    hide OwnSideMoves, BooksOk, Linked, PoolOk, Covered, RecordAdmits;
    OwnAdmit(s, r, d, c, amount, after);
    MovedStake(s, r, d, c, amount);
  }

  lemma MovedStake(s: Ledger, r: Ledger, d: Account, c: Account, delta: int)
    requires OwnSideMoves(s, r, d, c, delta)
    ensures Stake(r.delegators, d, c) == Stake(s.delegators, d, c) + delta
  {
  }

  lemma AdmitOthers(s: Ledger, d: Account, c: Account, amount: Balance, after: Delegator)
    requires Listed(s, c) && CanReserve(s, d, amount) && RecordAdmits(s, d, c, amount, after)
    ensures var r := Admit(s, d, c, amount, after);
            && r.delegators == s.delegators[d := after]
            && OtherDelegators(s, r, d) && SameRequests(s, r)
            && (d in s.delegators ==> r.delegators[d].status == s.delegators[d].status)
            && FundsMove(s, r, d, amount)
            && OtherCandidates(s, r, c) && SameCandidate(s, r, c) && r.round == s.round
  {
    hide PutQueue, Queues.Enqueue, ExcessAt, RecordAdmits, SameRequests;
    PutQueueOthers(s, c, Queues.Enqueue(QueueAt(s, c), Bond(d, amount)), ExcessAt(s, c));
    AdmittedRecord(s, Admit(s, d, c, amount, after), d, c, amount, after);
  }

  lemma AdmittedRecord(s: Ledger, r: Ledger, d: Account, c: Account, amount: Balance, after: Delegator)
    requires RecordAdmits(s, d, c, amount, after) && r.delegators == s.delegators[d := after]
    ensures SameRequests(s, r) && (d in s.delegators ==> after.status == s.delegators[d].status)
  {
  }

  /** Who has to go when somebody else is admitted: nobody, or the last of a full bottom list. */
  function KickedFrom(s: Ledger, c: Account): Option<Bond>
    requires Listed(s, c)
  {
    if |s.top[c].delegations| == MAX_TOP && |s.bottom[c].delegations| == MAX_BOTTOM then
      Some(Last(s.bottom[c].delegations))
    else None
  }

  lemma KickedIs(s: Ledger, c: Account, b: Bond)
    requires Consistent(s) && Listed(s, c)
    ensures Queues.Evicted(QueueAt(s, c)) == KickedFrom(s, c)
    ensures Queues.Accepts(QueueAt(s, c), b) <==> (KickedFrom(s, c).Some? ==> b.amount > KickedFrom(s, c).value.amount)
    ensures KickedAmount(s, c) == if KickedFrom(s, c).Some? then KickedFrom(s, c).value.amount else 0
  {
    hide Consistent;
    QueueIsOk(s, c);
  }

  /** What a delegator, or somebody who is not one yet, must bring. */
  predicate MayDelegate(s: Ledger, d: Account, c: Account, amount: Balance, hint: nat) {
    && Get(s.free, d) >= amount
    && if d in s.delegators then
         && s.delegators[d].status.Staying? && amount >= MIN_DELEGATION
         && |s.delegators[d].delegations| <= hint && |s.delegators[d].delegations| < MAX_DELEGATIONS_PER_DELEGATOR
         && Stake(s.delegators, d, c) == 0
       else amount >= MIN_DELEGATOR_STK && d !in s.info
  }

  /** What must be left of it at the candidate. */
  predicate MayBeDelegatedTo(s: Ledger, c: Account, amount: Balance, hint: nat) {
    && Listed(s, c) && s.info[c].delegationCount <= hint
    && (KickedFrom(s, c).Some? ==> amount > KickedFrom(s, c).value.amount)
  }

  function StakeAfter(s: Ledger, d: Account, c: Account, amount: Balance, kicked: Option<Bond>, x: Account,
      y: Account): Balance
  {
    if x == d && y == c then amount
    else if kicked.Some? && x == kicked.value.owner && y == c then 0
    else Stake(s.delegators, x, y)
  }

  function HeldMore(d: Account, amount: Balance, kicked: Option<Bond>, x: Account): int {
    (if x == d then amount else 0) - if kicked.Some? && x == kicked.value.owner then kicked.value.amount else 0
  }

  /** `amount` from `d` is staked on `c`, on both sides, and held; whoever was kicked, with its whole
      stake, is not any more; no other stake, hold or request differs, and no other record. */
  ghost predicate Placed(s: Ledger, t: Ledger, d: Account, c: Account, amount: Balance, kicked: Option<Bond>) {
    && (forall x, y ::
          && Stake(t.delegators, x, y) == StakeAfter(s, d, c, amount, kicked, x, y)
          && Backed(t.top, t.bottom, y, x) == StakeAfter(s, d, c, amount, kicked, x, y))
    && (forall x ::
          && Get(t.reserved, x) == Get(s.reserved, x) + HeldMore(d, amount, kicked, x)
          && Get(t.free, x) == Get(s.free, x) - HeldMore(d, amount, kicked, x))
    && (forall x, y ::
          RequestOn(t, x, y)
          == if kicked.Some? && x == kicked.value.owner && y == c then None else RequestOn(s, x, y))
    && d in t.delegators && t.delegators[d].status.Staying?
    && (kicked.Some? ==>
          var k := kicked.value.owner;
          && k != d && Stake(s.delegators, k, c) == kicked.value.amount
          && (k in t.delegators <==> DelegatesElsewhere(s, k, c))
          && (k in t.delegators ==> k in s.delegators && t.delegators[k].status == s.delegators[k].status))
    && (forall x :: x != d && (kicked.Some? ==> x != kicked.value.owner) ==>
          (x in t.delegators <==> x in s.delegators)
          && (x in s.delegators ==> t.delegators[x] == s.delegators[x]))
    && OtherCandidates(s, t, c) && SameCandidate(s, t, c) && t.round == s.round
    && t.total == s.total + amount - if kicked.Some? then kicked.value.amount else 0
  }

  /** Severing the kicked and admitting the new delegation, one after the other. */
  lemma PlacedInSteps(s: Ledger, v: Ledger, t: Ledger, r: Ledger, d: Account, c: Account, amount: Balance, k: Bond)
    requires Consistent(s) && Consistent(v) && Consistent(t)
    requires 0 < k.amount == Stake(s.delegators, k.owner, c) && k.owner != d
    requires Revoked(s, v, k.owner, c, k.amount) && RequestEnds(s, v, k.owner, c)
    requires Moves(v, t, d, c, amount, amount) && SameRequests(v, t)
    requires Stake(t.delegators, d, c) == amount && d in t.delegators && t.delegators[d].status.Staying?
    requires r == t.(total := r.total) && r.total == s.total + amount - k.amount
    ensures Placed(s, r, d, c, amount, Some(k))
  {
    hide Consistent, Stake, Backed, Get, FundsMove, StakeMoves;
    PlacedStakes(s, v, t, d, c, amount, k);
    PlacedFunds(s, v, t, d, amount, k);
    PlacedCandidates(s, v, t, c);
    PlacedRecords(s, v, t, d, k.owner);
    BothSides(s, k.owner, c);
    forall x, y
      ensures RequestOn(r, x, y) == if x == k.owner && y == c then None else RequestOn(s, x, y)
    {
      assert RequestOn(t, x, y) == RequestOn(v, x, y);
    }
  }

  lemma PlacedStakes(s: Ledger, v: Ledger, t: Ledger, d: Account, c: Account, amount: Balance, k: Bond)
    requires Consistent(t) && k.owner != d && Stake(t.delegators, d, c) == amount
    requires StakeMoves(s, v, k.owner, c, 0 - Stake(s.delegators, k.owner, c)) && StakeMoves(v, t, d, c, amount)
    ensures forall x, y :: Stake(t.delegators, x, y) == StakeAfter(s, d, c, amount, Some(k), x, y)
    ensures forall x, y :: Backed(t.top, t.bottom, y, x) == StakeAfter(s, d, c, amount, Some(k), x, y)
  {
    hide BooksOk, DelegatorsOk, PoolOk, Covered, Stake, Backed;
    forall x, y
      ensures Stake(t.delegators, x, y) == StakeAfter(s, d, c, amount, Some(k), x, y)
    {
      assert Stake(v.delegators, x, y)
             == Stake(s.delegators, x, y) + (if x == k.owner && y == c then 0 - Stake(s.delegators, k.owner, c) else 0);
    }
    forall x, y
      ensures Backed(t.top, t.bottom, y, x) == StakeAfter(s, d, c, amount, Some(k), x, y)
    {
      assert Stake(t.delegators, x, y) == Backed(t.top, t.bottom, y, x);
    }
  }

  lemma PlacedFunds(s: Ledger, v: Ledger, t: Ledger, d: Account, amount: Balance, k: Bond)
    requires FundsMove(s, v, k.owner, 0 - k.amount) && FundsMove(v, t, d, amount)
    ensures forall x :: Get(t.reserved, x) == Get(s.reserved, x) + HeldMore(d, amount, Some(k), x)
    ensures forall x :: Get(t.free, x) == Get(s.free, x) - HeldMore(d, amount, Some(k), x)
  {
    hide Get;
  }

  lemma PlacedCandidates(s: Ledger, v: Ledger, t: Ledger, c: Account)
    requires OtherCandidates(s, v, c) && OtherCandidates(v, t, c) && SameCandidate(s, v, c) && SameCandidate(v, t, c)
    ensures OtherCandidates(s, t, c) && SameCandidate(s, t, c)
  {
  }

  lemma PlacedRecords(s: Ledger, v: Ledger, t: Ledger, d: Account, k: Account)
    requires OtherDelegators(s, v, k) && OtherDelegators(v, t, d) && k != d
    ensures forall x :: x != d ==> (x in t.delegators <==> x in v.delegators)
                                   && (x in t.delegators ==> t.delegators[x] == v.delegators[x])
    ensures forall x :: x != k ==> (x in v.delegators <==> x in s.delegators)
                                   && (x in v.delegators ==> v.delegators[x] == s.delegators[x])
  {
    forall x | x != d
      ensures (x in t.delegators <==> x in v.delegators) && (x in t.delegators ==> t.delegators[x] == v.delegators[x])
    {
      SameElsewhere(v.delegators, t.delegators, d, x);
    }
    forall x | x != k
      ensures (x in v.delegators <==> x in s.delegators) && (x in v.delegators ==> v.delegators[x] == s.delegators[x])
    {
      SameElsewhere(s.delegators, v.delegators, k, x);
    }
  }

  lemma SameElsewhere(m: map<Account, Delegator>, n: map<Account, Delegator>, d: Account, x: Account)
    requires n - {d} == m - {d} && x != d
    ensures (x in n <==> x in m) && (x in n ==> n[x] == m[x])
  {
    assert x in n <==> x in n - {d};
    assert x in m <==> x in m - {d};
    assert x in n ==> n[x] == (n - {d})[x];
    assert x in m ==> m[x] == (m - {d})[x];
  }

  lemma PlacedAtOnce(s: Ledger, t: Ledger, r: Ledger, d: Account, c: Account, amount: Balance)
    requires Consistent(s) && Consistent(t) && Moves(s, t, d, c, amount, amount) && SameRequests(s, t)
    requires Stake(t.delegators, d, c) == amount && d in t.delegators && t.delegators[d].status.Staying?
    requires r == t.(total := r.total) && r.total == s.total + amount
    ensures Placed(s, r, d, c, amount, None)
  {
    hide Get, BooksOk, DelegatorsOk, PoolOk, Covered, Stake, Backed;
    forall x, y
      ensures Backed(t.top, t.bottom, y, x) == StakeAfter(s, d, c, amount, None, x, y)
    {
      assert Stake(t.delegators, x, y) == Backed(t.top, t.bottom, y, x);
    }
    forall x | x != d
      ensures (x in t.delegators <==> x in s.delegators) && (x in s.delegators ==> t.delegators[x] == s.delegators[x])
    {
      SameElsewhere(s.delegators, t.delegators, d, x);
    }
  }

  /** The whole of a successful delegation. */
  lemma DelegatePlaces(s: Ledger, d: Account, c: Account, amount: Balance, after: Delegator)
    requires Consistent(s) && Listed(s, c) && d !in s.info && amount >= MIN_DELEGATION && CanReserve(s, d, amount)
    requires RecordAdmits(s, d, c, amount, after) && after.status.Staying? && amount >= KickedAmount(s, c)
    ensures Placed(s, Admit(Evict(s, c), d, c, amount, after).(total := s.total + SatSub(amount, KickedAmount(s, c))),
                   d, c, amount, KickedFrom(s, c))
  {
    hide Consistent, Placed, Admit, Evict, Moves, SameRequests, RequestEnds, RecordAdmits, Revoked, Stake, Room, Sever,
      KickedFrom, KickedAmount, Keeps, CanReserve, Queues.Evicted;
    var v := Room(s, c);
    var total := s.total + SatSub(amount, KickedAmount(s, c));
    KickedIs(s, c, Bond(d, amount));
    NoStakeYet(s, d, c, amount, after);
    RoomKeeps(s, c);
    KeepsHere(s, v);
    RoomRecord(s, d, c);
    RoomAdmits(s, v, d, c, amount, after);
    RoomFunds(s, d, c, amount);
    AdmitMoves(v, d, c, amount, after);
    EvictIsRoom(s, c);
    ReserveSameFields(v, Evict(s, c), d, c, amount, after, total);
    var t := Admit(v, d, c, amount, after);
    if KickedFrom(s, c).None? {
      RoomIs(s, c);
      PlacedAtOnce(s, t, t.(total := total), d, c, amount);
    } else {
      var k := KickedFrom(s, c).value;
      RoomIs(s, c);
      EvictedIsLinked(s, c);
      SeverEnds(s, k.owner, c, k.amount);
      MovedAway(s, v, k.owner, c, k.amount);
      PlacedInSteps(s, v, t, t.(total := total), d, c, amount, k);
    }
  }

  lemma KeepsHere(s: Ledger, r: Ledger)
    requires Keeps(s, r)
    ensures Consistent(r)
  {
  }

  lemma RoomIs(s: Ledger, c: Account)
    requires Listed(s, c)
    ensures Room(s, c) == match Queues.Evicted(QueueAt(s, c))
                          case None => s
                          case Some(k) => Sever(s, k.owner, c, k.amount)
  {
  }

  /** Making room takes nothing from the newcomer. */
  lemma RoomFunds(s: Ledger, d: Account, c: Account, amount: Balance)
    requires Consistent(s) && Listed(s, c) && CanReserve(s, d, amount) && Stake(s.delegators, d, c) == 0
    ensures CanReserve(Room(s, c), d, amount)
  {
    hide Consistent, Sever, Stake, Queues.Evicted, Moves;
    if Queues.Evicted(QueueAt(s, c)).Some? {
      var k := Queues.Evicted(QueueAt(s, c)).value;
      EvictedIsLinked(s, c);
      SeverEnds(s, k.owner, c, k.amount);
      FundsElsewhere(s, Sever(s, k.owner, c, k.amount), k.owner, c, k.amount, d);
    }
  }

  lemma FundsElsewhere(s: Ledger, r: Ledger, k: Account, c: Account, amount: Balance, d: Account)
    requires Moves(s, r, k, c, 0 - Stake(s.delegators, k, c), 0 - amount) && k != d
    ensures Get(r.free, d) == Get(s.free, d)
  {
  }

  lemma DelegateEffect(s: Ledger, d: Account, c: Account, amount: Balance, candidateHint: nat, delegatorHint: nat)
    requires Consistent(s)
    ensures var r := Delegate(s, d, c, amount, candidateHint, delegatorHint); var t := r.ledger;
            && (r.outcome.Success? <==>
                  MayDelegate(s, d, c, amount, delegatorHint) && MayBeDelegatedTo(s, c, amount, candidateHint))
            && (r.outcome.Failure? ==> t == s)
            && (r.outcome.Success? ==> Placed(s, t, d, c, amount, KickedFrom(s, c)))
  {
    hide Consistent, Placed, Admit, Evict, KickedFrom, KickedAmount, Queues.Accepts, Stake;
    StakeIff(s, d, c);
    NoBothRoles(s, d);
    if Listed(s, c) {
      KickedIs(s, c, Bond(d, amount));
    }
    if Delegate(s, d, c, amount, candidateHint, delegatorHint).outcome.Success? {
      var after := if d in s.delegators then Delegators.Add(s.delegators[d], c, amount)
        else Delegators.New(d, c, amount);
      DelegatePlaces(s, d, c, amount, after);
    }
  }

  // ----- what one call undoes -----

  lemma CancelUndoesLeave(s: Ledger, d: Account)
    requires ScheduleLeaveDelegators(s, d).outcome.Success?
    ensures CancelLeaveDelegators(ScheduleLeaveDelegators(s, d).ledger, d) == Done(s)
  {
    var t := CancelLeaveDelegators(ScheduleLeaveDelegators(s, d).ledger, d).ledger;
    assert t.delegators == s.delegators;
  }

  lemma CancelUndoesRequest(s: Ledger, d: Account, r: Delegators.DelegationRequest)
    requires d in s.delegators && r.collator !in s.delegators[d].requests.requests
    ensures CancelDelegationRequest(WithRequest(s, d, r), d, r.collator) == Done(s)
  {
    var p := s.delegators[d].requests;
    assert Delegators.DropRequest(Delegators.AddRequest(p, r), r.collator) == p by {
      assert p.requests[r.collator := r] - {r.collator} == p.requests;
    }
    var t := CancelDelegationRequest(WithRequest(s, d, r), d, r.collator).ledger;
    assert t.delegators == s.delegators;
  }

  /** Cancelling a request restores the ledger, pending totals included. */
  lemma CancelUndoesSchedule(s: Ledger, d: Account, c: Account, less: Balance)
    ensures ScheduleRevokeDelegation(s, d, c).outcome.Success? ==>
              CancelDelegationRequest(ScheduleRevokeDelegation(s, d, c).ledger, d, c) == Done(s)
    ensures ScheduleDelegatorBondLess(s, d, c, less).outcome.Success? ==>
              CancelDelegationRequest(ScheduleDelegatorBondLess(s, d, c, less).ledger, d, c) == Done(s)
  {
    hide CancelDelegationRequest, WithRequest;
    if ScheduleRevokeDelegation(s, d, c).outcome.Success? {
      CancelUndoesRequest(s, d, Delegators.DelegationRequest(
                            c, Stake(s.delegators, d, c), s.round + REVOKE_DELEGATION_DELAY, Delegators.Revoke));
    }
    if ScheduleDelegatorBondLess(s, d, c, less).outcome.Success? {
      CancelUndoesRequest(s, d, Delegators.DelegationRequest(
                            c, less, s.round + DELEGATION_BOND_LESS_DELAY, Delegators.Decrease));
    }
  }
}

/** Calls of delegators, and the two exits that end many delegations at once, keep the ledger's
    invariants. */
module DelegatorCalls {
  import opened Bonds
  import opened Params
  import opened OrderedSets
  import opened DelegationLists
  import opened Ledgers
  import opened Transitions
  import opened Calls
  import Queues
  import Candidates
  import Delegators

  // ----- records without a move of stake -----

  function WithRecord(s: Ledger, d: Account, after: Delegator): Ledger {
    s.(delegators := s.delegators[d := after])
  }

  lemma RecordLinked(s: Ledger, d: Account, after: Delegator)
    requires d in s.delegators && after.delegations == s.delegators[d].delegations
             && after.total == s.delegators[d].total
    ensures Linked(s) ==> Linked(WithRecord(s, d, after))
    ensures Covered(s) ==> Covered(WithRecord(s, d, after))
    ensures ReservesExact(s) ==> ReservesExact(WithRecord(s, d, after))
    ensures OneRole(s) ==> OneRole(WithRecord(s, d, after))
  {
    hide Delegators.Stake;
    var r := WithRecord(s, d, after);
    assert r.delegators.Keys == s.delegators.Keys;
    if Linked(s) {
      forall x, y
        ensures Stake(r.delegators, x, y) == Backed(r.top, r.bottom, y, x)
      {
        assert Stake(s.delegators, x, y) == Backed(s.top, s.bottom, y, x);
        SameStake(s.delegators[d], after, y);
      }
    }
    assert forall a :: Delegated(r.delegators, a) == Delegated(s.delegators, a);
  }

  lemma SameStake(d: Delegator, e: Delegator, c: Account)
    requires d.delegations == e.delegations
    ensures Delegators.Stake(d, c) == Delegators.Stake(e, c)
  {
  }

  /** A record that changes its requests or status only. */
  lemma RecordKeeps(s: Ledger, d: Account, after: Delegator)
    requires Consistent(s) && d in s.delegators && Delegators.Ok(after, d)
    requires after.delegations == s.delegators[d].delegations && after.total == s.delegators[d].total
    requires Delegators.RevokesCurrent(s.delegators[d]) ==> Delegators.RevokesCurrent(after)
    ensures Keeps(s, WithRecord(s, d, after))
  {
    hide Delegators.Ok, Delegators.RevokesCurrent, Linked, Covered, ReservesExact, OneRole;
    RecordLinked(s, d, after);
  }

  lemma RecordIsOk(s: Ledger, d: Account)
    requires Consistent(s) && d in s.delegators
    ensures Delegators.Ok(s.delegators[d], d)
  {
  }

  lemma ScheduleLeaveDelegatorsKeeps(s: Ledger, d: Account)
    requires Consistent(s)
    ensures Keeps(s, ScheduleLeaveDelegators(s, d).ledger)
  {
    hide Keeps, Consistent;
    KeepsSame(s);
    if ScheduleLeaveDelegators(s, d).outcome.Success? {
      RecordIsOk(s, d);
      RecordKeeps(s, d, s.delegators[d].(status := Delegators.Exiting(s.round + LEAVE_DELEGATORS_DELAY)));
    }
  }

  lemma CancelLeaveDelegatorsKeeps(s: Ledger, d: Account)
    requires Consistent(s)
    ensures Keeps(s, CancelLeaveDelegators(s, d).ledger)
  {
    hide Keeps, Consistent;
    KeepsSame(s);
    if CancelLeaveDelegators(s, d).outcome.Success? {
      RecordIsOk(s, d);
      RecordKeeps(s, d, s.delegators[d].(status := Delegators.Staying));
    }
  }

  lemma WithRequestKeeps(s: Ledger, d: Account, r: Delegators.DelegationRequest)
    requires Consistent(s) && d in s.delegators && r.collator !in s.delegators[d].requests.requests
    requires Count(s.delegators[d].delegations, r.collator) > 0
    requires Delegators.RequestFits(r, r.collator, Stake(s.delegators, d, r.collator))
    requires r.action.Revoke? ==> r.amount == Stake(s.delegators, d, r.collator)
    ensures Keeps(s, WithRequest(s, d, r))
  {
    hide Keeps, Consistent;
    RecordIsOk(s, d);
    var before := s.delegators[d];
    OnePerOwner(before.delegations, r.collator);
    Delegators.AddRequestKeepsOk(before, d, r);
    RecordKeeps(s, d, before.(requests := Delegators.AddRequest(before.requests, r)));
  }

  lemma ScheduleRevokeDelegationKeeps(s: Ledger, d: Account, c: Account)
    requires Consistent(s)
    ensures Keeps(s, ScheduleRevokeDelegation(s, d, c).ledger)
  {
    hide Keeps, Consistent;
    KeepsSame(s);
    if ScheduleRevokeDelegation(s, d, c).outcome.Success? {
      WithRequestKeeps(s, d, Delegators.DelegationRequest(
        c, Stake(s.delegators, d, c), s.round + REVOKE_DELEGATION_DELAY, Delegators.Revoke));
    }
  }

  lemma ScheduleDelegatorBondLessKeeps(s: Ledger, d: Account, c: Account, less: Balance)
    requires Consistent(s)
    ensures Keeps(s, ScheduleDelegatorBondLess(s, d, c, less).ledger)
  {
    hide Keeps, Consistent;
    KeepsSame(s);
    if ScheduleDelegatorBondLess(s, d, c, less).outcome.Success? {
      WithRequestKeeps(s, d, Delegators.DelegationRequest(
        c, less, s.round + DELEGATION_BOND_LESS_DELAY, Delegators.Decrease));
    }
  }

  lemma CancelDelegationRequestKeeps(s: Ledger, d: Account, c: Account)
    requires Consistent(s)
    ensures Keeps(s, CancelDelegationRequest(s, d, c).ledger)
  {
    hide Keeps, Consistent;
    KeepsSame(s);
    if CancelDelegationRequest(s, d, c).outcome.Success? {
      RecordIsOk(s, d);
      Delegators.DropRequestKeepsOk(s.delegators[d], d, c);
      RecordKeeps(s, d, s.delegators[d].(requests := Delegators.DropRequest(s.delegators[d].requests, c)));
    }
  }

  // ----- severing, with the cached bottom totals -----

  lemma SeverDrift(s: Ledger, d: Account, c: Account, amount: Balance)
    requires Listed(s, c) && Get(s.reserved, d) >= amount
    ensures NoDrift(s) ==> NoDrift(Sever(s, d, c, amount))
  {
    ForgetSides(s, d, c, amount);
    if NoDrift(s) {
      PutQueueDrift(s, Sever(s, d, c, amount), c, Queues.Dequeue(QueueAt(s, c), d));
    }
  }

  /** Severing a delegation with its whole stake keeps everything. */
  lemma SeverKeeps(s: Ledger, d: Account, c: Account, amount: Balance)
    requires Consistent(s) && 0 < amount == Stake(s.delegators, d, c)
    ensures Listed(s, c) && Keeps(s, Sever(s, d, c, amount))
  {
    hide Sever, Consistent, Conserved, NoDrift, Stake;
    SeverConsistent(s, d, c, amount);
    DelegatedAtLeast(s, d, c);
    SeverDrift(s, d, c, amount);
    if Conserved(s) {
      SeverConserved(s, d, c, amount);
    }
  }

  lemma SeverStakes(s: Ledger, d: Account, c: Account, amount: Balance)
    requires Consistent(s) && Listed(s, c) && 0 < Stake(s.delegators, d, c)
    ensures forall x, y :: Stake(Sever(s, d, c, amount).delegators, x, y)
                           == if x == d && y == c then 0 else Stake(s.delegators, x, y)
  {
    OwnSever(s, Sever(s, d, c, amount), d, c);
  }

  /** For a revocation due: what is held stays exact if and only if the request still asks for the
      whole stake. */
  lemma RevokeConservesIff(s: Ledger, d: Account, c: Account, amount: Balance)
    requires Consistent(s) && ReservesExact(s) && Stake(s.delegators, d, c) > 0 && amount <= Stake(s.delegators, d, c)
    ensures Listed(s, c)
    ensures ReservesExact(Sever(s, d, c, amount)) <==> amount == Stake(s.delegators, d, c)
  {
    BothSides(s, d, c);
    DelegatedAtLeast(s, d, c);
    ForgetSides(s, d, c, amount);
    OwnSever(s, Sever(s, d, c, amount), d, c);
    PutQueueBonds(s, c, Queues.Dequeue(QueueAt(s, c), d), ExcessAt(s, c));
    SeveredHolds(s, Sever(s, d, c, amount), d, amount, Stake(s.delegators, d, c));
  }

  lemma SeveredHolds(s: Ledger, r: Ledger, d: Account, released: Balance, stake: Balance)
    requires ReservesExact(s) && HeldMoves(s, r, d, 0 - released)
    requires forall a :: SelfBond(r.info, a) == SelfBond(s.info, a)
    requires forall a :: Delegated(r.delegators, a) == Delegated(s.delegators, a) - if a == d then stake else 0
    ensures ReservesExact(r) <==> released == stake
  {
    assert Get(s.reserved, d) == SelfBond(s.info, d) + Delegated(s.delegators, d);
    assert Get(r.reserved, d) == Get(s.reserved, d) - released;
    if released == stake {
      forall a
        ensures Get(r.reserved, a) == SelfBond(r.info, a) + Delegated(r.delegators, a)
      {
        assert Get(s.reserved, a) == SelfBond(s.info, a) + Delegated(s.delegators, a);
      }
    } else {
      assert Get(r.reserved, d) != SelfBond(r.info, d) + Delegated(r.delegators, d);
    }
  }

  // ----- delegating, with or without a kick -----

  lemma WithTotalKeeps(s: Ledger, total: Balance)
    ensures Consistent(s) ==> Consistent(s.(total := total))
    ensures TotalBacking(s.(total := total)) == TotalBacking(s)
    ensures Conserved(s) && total <= TotalBacking(s) ==> Conserved(s.(total := total))
    ensures NoDrift(s) ==> NoDrift(s.(total := total))
  {
  }

  lemma SeverBacking(s: Ledger, d: Account, c: Account, amount: Balance)
    requires Consistent(s) && Listed(s, c) && 0 < amount == Stake(s.delegators, d, c)
    ensures TotalBacking(Sever(s, d, c, amount)) == TotalBacking(s) - amount
  {
    hide Sever, Consistent, TotalBacking, OwnSideMoves, HeldMoves, Queues.Backing, Queues.Ok;
    SeverSides(s, d, c, amount);
    BackingTogether(s, Sever(s, d, c, amount), d, c, Queues.Dequeue(QueueAt(s, c), d), ExcessAt(s, c), 0 - amount);
  }

  lemma AdmitBacking(s: Ledger, d: Account, c: Account, amount: Balance, after: Delegator)
    requires Consistent(s) && Listed(s, c) && Stake(s.delegators, d, c) == 0
    requires amount >= MIN_DELEGATION && Queues.Evicted(QueueAt(s, c)).None?
    ensures TotalBacking(Admit(s, d, c, amount, after)) == TotalBacking(s) + amount
    ensures NoDrift(s) ==> NoDrift(Admit(s, d, c, amount, after))
  {
    hide Consistent, Admit, TotalBacking, Queues.Ok, Queues.Enqueue, Queues.Evicted, Stake, NoDrift, CandidateSide;
    NotYetEntered(s, d, c);
    AdmitSides(s, d, c, amount, after);
    var q := Queues.Enqueue(QueueAt(s, c), Bond(d, amount));
    var r := Admit(s, d, c, amount, after);
    AdmittedBacking(s, r, d, c, q, amount);
    if NoDrift(s) {
      PutQueueDrift(s, r, c, q);
    }
  }

  lemma AdmittedBacking(s: Ledger, r: Ledger, d: Account, c: Account, q: Queues.Queue, amount: Balance)
    requires Listed(s, c) && Queues.Ok(QueueAt(s, c)) && Queues.Entered(QueueAt(s, c), d) == 0
    requires q == Queues.Enqueue(QueueAt(s, c), Bond(d, amount))
    requires amount >= MIN_DELEGATION && Queues.Evicted(QueueAt(s, c)).None?
    requires CandidateSide(s, r, c, q, ExcessAt(s, c))
    ensures TotalBacking(r) == TotalBacking(s) + amount
  {
    hide TotalBacking, CandidateSide;
    ListAdmit(QueueAt(s, c), d, amount);
    BackingTogether(s, r, d, c, q, ExcessAt(s, c), amount);
  }

  lemma LowestBottom(q: Queues.Queue)
    requires Queues.Ok(q) && Queues.Evicted(q).Some?
    ensures var k := Queues.Evicted(q).value;
            && 0 < k.amount == Queues.Backed(q, k.owner) && Queues.Entered(q, k.owner) == 1
            && Queues.Evicted(Queues.Dequeue(q, k.owner)).None?
  {
    var k := Queues.Evicted(q).value;
    EntryCounts(q.bottom, |q.bottom| - 1);
    assert Queues.Entered(q, k.owner) <= 1;
    StakeBounds(q.top, k.owner);
    WithoutMeasures(q.bottom, k.owner);
  }

  /** What is kicked is a delegation both sides know, with its whole stake. */
  lemma EvictedIsLinked(s: Ledger, c: Account)
    requires Consistent(s) && c in s.info && Listed(s, c) && Queues.Evicted(QueueAt(s, c)).Some?
    ensures var k := Queues.Evicted(QueueAt(s, c)).value;
            && 0 < k.amount == Stake(s.delegators, k.owner, c)
            && Queues.Evicted(Queues.Dequeue(QueueAt(s, c), k.owner)).None?
            && Queues.Entered(QueueAt(s, c), k.owner) == 1
  {
    hide Queues.Ok, Queues.Evicted, Queues.Dequeue, Queues.Entered, Candidates.Ok, DelegatorsOk, PoolOk, Covered;
    QueueIsOk(s, c);
    LowestBottom(QueueAt(s, c));
    var k := Queues.Evicted(QueueAt(s, c)).value;
    BackedAt(s, c, k.owner);
    assert Stake(s.delegators, k.owner, c) == Backed(s.top, s.bottom, c, k.owner);
  }

  /** An accepted newcomer brings at least what the kicked delegation takes away. */
  lemma AcceptedCoversKick(q: Queues.Queue, d: Bond)
    requires Queues.Ok(q) && Queues.Accepts(q, d)
    ensures d.amount >= Queues.EvictedAmount(q)
  {
    if Queues.Evicted(q).Some? {
      assert q.bottom[0].amount >= Last(q.bottom).amount;
    }
  }

  /** The ledger just before the newcomer is admitted: the kicked delegation severed. */
  function Room(s: Ledger, c: Account): (r: Ledger)
    requires Listed(s, c)
    ensures Listed(r, c)
  {
    match Queues.Evicted(QueueAt(s, c))
    case None => s
    case Some(kicked) => Sever(s, kicked.owner, c, kicked.amount)
  }

  lemma RoomKeeps(s: Ledger, c: Account)
    requires Consistent(s) && Listed(s, c)
    ensures Keeps(s, Room(s, c)) && c in Room(s, c).info
    ensures Queues.Evicted(QueueAt(Room(s, c), c)).None?
    ensures TotalBacking(Room(s, c)) == TotalBacking(s) - KickedAmount(s, c)
    ensures Room(s, c).info.Keys == s.info.Keys
  {
    match Queues.Evicted(QueueAt(s, c))
    case None => KeepsSame(s);
    case Some(k) =>
      hide Keeps, Consistent, TotalBacking;
      EvictedIsLinked(s, c);
      SeverKeeps(s, k.owner, c, k.amount);
      SeverBacking(s, k.owner, c, k.amount);
      SeveredQueue(s, k.owner, c, k.amount);
  }

  lemma SeveredQueue(s: Ledger, d: Account, c: Account, amount: Balance)
    requires Listed(s, c)
    ensures Listed(Sever(s, d, c, amount), c)
    ensures QueueAt(Sever(s, d, c, amount), c) == Queues.Dequeue(QueueAt(s, c), d)
    ensures Sever(s, d, c, amount).info.Keys == s.info.Keys
  {
  }

  lemma RoomRecord(s: Ledger, d: Account, c: Account)
    requires Consistent(s) && Listed(s, c) && Stake(s.delegators, d, c) == 0
    ensures d in Room(s, c).delegators <==> d in s.delegators
    ensures d in s.delegators ==> Room(s, c).delegators[d] == s.delegators[d]
  {
    hide Consistent, Sever, Stake;
    if Queues.Evicted(QueueAt(s, c)).Some? {
      var k := Queues.Evicted(QueueAt(s, c)).value;
      EvictedIsLinked(s, c);
      OthersRecord(s, k.owner, d, c, k.amount);
    }
  }

  lemma OthersRecord(s: Ledger, k: Account, d: Account, c: Account, amount: Balance)
    requires Listed(s, c) && k != d
    ensures d in Sever(s, k, c, amount).delegators <==> d in s.delegators
    ensures d in s.delegators ==> Sever(s, k, c, amount).delegators[d] == s.delegators[d]
  {
  }

  lemma ReserveSameFields(s: Ledger, t: Ledger, d: Account, c: Account, amount: Balance, after: Delegator,
      total: Balance)
    requires Listed(s, c) && t == s.(total := t.total)
    ensures Admit(t, d, c, amount, after).(total := total) == Admit(s, d, c, amount, after).(total := total)
  {
  }

  /** Admission into the room made, with `Total` moved by the net amount. */
  lemma AdmittedKeeps(s: Ledger, d: Account, c: Account, amount: Balance, after: Delegator)
    requires Consistent(s) && Listed(s, c) && d !in s.info && amount >= MIN_DELEGATION
    requires RecordAdmits(s, d, c, amount, after) && amount >= KickedAmount(s, c)
    ensures Keeps(s, Admit(Room(s, c), d, c, amount, after).(total := s.total + SatSub(amount, KickedAmount(s, c))))
  {
    hide Admit, Room, Consistent, Conserved, NoDrift, TotalBacking;
    var v := Room(s, c);
    NoStakeYet(s, d, c, amount, after);
    RoomKeeps(s, c);
    RoomRecord(s, d, c);
    RoomAdmits(s, v, d, c, amount, after);
    AdmitKeeps(v, d, c, amount, after);
    NoStakeYet(v, d, c, amount, after);
    AdmitBacking(v, d, c, amount, after);
    WithTotalKeeps(Admit(v, d, c, amount, after), s.total + SatSub(amount, KickedAmount(s, c)));
    TotalWithin(s);
  }

  lemma RoomAdmits(s: Ledger, v: Ledger, d: Account, c: Account, amount: Balance, after: Delegator)
    requires RecordAdmits(s, d, c, amount, after)
    requires (d in v.delegators <==> d in s.delegators) && (d in s.delegators ==> v.delegators[d] == s.delegators[d])
    ensures RecordAdmits(v, d, c, amount, after)
  {
  }

  lemma TotalWithin(s: Ledger)
    ensures Conserved(s) ==> s.total <= TotalBacking(s)
    ensures Exact(s) ==> NoDrift(s) && s.total == TotalBacking(s)
    ensures NoDrift(s) && s.total == TotalBacking(s) ==> Exact(s)
  {
  }

  lemma NoStakeYet(s: Ledger, d: Account, c: Account, amount: Balance, after: Delegator)
    requires RecordAdmits(s, d, c, amount, after)
    ensures Stake(s.delegators, d, c) == 0
  {
    if d in s.delegators {
      StakeBounds(s.delegators[d].delegations, c);
    }
  }

  lemma DelegateKeeps(s: Ledger, d: Account, c: Account, amount: Balance, candidateHint: nat, delegatorHint: nat)
    requires Consistent(s)
    ensures Keeps(s, Delegate(s, d, c, amount, candidateHint, delegatorHint).ledger)
  {
    hide Keeps, Consistent, Admit, Evict;
    KeepsSame(s);
    if Delegate(s, d, c, amount, candidateHint, delegatorHint).outcome.Success? {
      var after := if d in s.delegators then Delegators.Add(s.delegators[d], c, amount)
        else Delegators.New(d, c, amount);
      NoBothRoles(s, d);
      QueueIsOk(s, c);
      AcceptedCoversKick(QueueAt(s, c), Bond(d, amount));
      AdmittedKeeps(s, d, c, amount, after);
      EvictIsRoom(s, c);
      ReserveSameFields(Room(s, c), Evict(s, c), d, c, amount, after, s.total + SatSub(amount, KickedAmount(s, c)));
    }
  }

  lemma NoBothRoles(s: Ledger, d: Account)
    requires Consistent(s)
    ensures d in s.delegators ==> d !in s.info
  {
  }

  lemma QueueIsOk(s: Ledger, c: Account)
    requires Consistent(s) && Listed(s, c)
    ensures Queues.Ok(QueueAt(s, c))
  {
    assert Candidates.Ok(CandidateAt(s, c));
  }

  lemma EvictIsRoom(s: Ledger, c: Account)
    requires Listed(s, c)
    ensures Evict(s, c) == Room(s, c).(total := s.total)
  {
  }

  // ----- bonding more, and requests carried out -----

  predicate BondMoreGuard(s: Ledger, d: Account, c: Account, more: Balance) {
    d in s.delegators ==> RaiseGuard(s, d, c, more)
  }

  /** Bonding more is consistent and opens no gap in any case: what is held, `Total` and the bottom
      totals are as exact as before. It keeps pending revocations current exactly when it does not
      touch a delegation awaiting one. */
  lemma DelegatorBondMoreKeeps(s: Ledger, d: Account, c: Account, more: Balance)
    requires Consistent(s)
    ensures var r := DelegatorBondMore(s, d, c, more);
            && Consistent(r.ledger)
            && Balanced(s, r.ledger)
            && (Conserved(s) ==> (Conserved(r.ledger) <==> r.outcome.Failure? || BondMoreGuard(s, d, c, more)))
            && (Conserved(s) && Exact(s) ==> Exact(r.ledger))
  {
    hide Consistent, Conserved, RaiseStake, TotalBacking, RaiseGuard, Balanced;
    var r := DelegatorBondMore(s, d, c, more);
    BalancedSame(s);
    if r.outcome.Success? {
      RecordIsOk(s, d);
      PositiveStakeOf(s, d, c);
      RaiseGaps(s, d, c, more);
      RaiseKeeps(s, d, c, more);
      RaiseDrift(s, d, c, more);
    }
  }

  lemma BalancedSame(s: Ledger)
    ensures Balanced(s, s)
  {
  }

  lemma PositiveStakeOf(s: Ledger, d: Account, c: Account)
    requires Consistent(s) && d in s.delegators && Count(s.delegators[d].delegations, c) > 0
    ensures Stake(s.delegators, d, c) > 0
  {
    OnePerOwner(s.delegators[d].delegations, c);
    PositiveStake(s.delegators, d, c);
  }

  lemma RaiseDrift(s: Ledger, d: Account, c: Account, more: Balance)
    requires Listed(s, c) && d in s.delegators
    ensures NoDrift(s) ==> NoDrift(RaiseStake(s, d, c, more))
  {
    hide NoDrift, Queues.Raise;
    RaiseSides(s, d, c, more);
    if NoDrift(s) {
      PutQueueDrift(s, RaiseStake(s, d, c, more), c, Queues.Raise(QueueAt(s, c), d, more));
    }
  }

  /** The bottom totals stay true through a decrease if and only if it happens in the top list, or
      takes nothing. */
  lemma LowerDrift(s: Ledger, d: Account, c: Account, less: Balance)
    requires Consistent(s) && Listed(s, c) && d in s.delegators && NoDrift(s)
    ensures NoDrift(LowerStake(s, d, c, less)) <==> Drift(s, d, c, less) == 0
  {
    hide Queues.Lower, Drift, Consistent, Unreserve;
    var r := LowerStake(s, d, c, less);
    var q := Queues.Lower(QueueAt(s, c), d, less);
    assert r.bottom
      == s.bottom[c := DelegationData(q.bottom, Sum(q.bottom) + ExcessAt(s, c) + Drift(s, d, c, less))] by {
      LoweredBottom(s, d, c, less);
    }
    assert ExcessAt(s, c) == 0;
    if NoDrift(r) {
      assert r.bottom[c].total == Sum(r.bottom[c].delegations);
    }
  }

  lemma LoweredBottom(s: Ledger, d: Account, c: Account, less: Balance)
    requires Listed(s, c) && d in s.delegators
    ensures var q := Queues.Lower(QueueAt(s, c), d, less);
            LowerStake(s, d, c, less).bottom
            == s.bottom[c := DelegationData(q.bottom, Sum(q.bottom) + ExcessAt(s, c) + Drift(s, d, c, less))]
  {
    hide Queues.Lower, Drift, ExcessAt;
  }

  /** The request on `(d, c)` is a decrease that happens inside the bottom list and takes something. */
  predicate DriftsBottom(s: Ledger, d: Account, c: Account) {
    && d in s.delegators && c in s.delegators[d].requests.requests && Listed(s, c)
    && s.delegators[d].requests.requests[c].action.Decrease?
    && Drift(s, d, c, s.delegators[d].requests.requests[c].amount) > 0
  }

  /** The request on `(d, c)` is a revocation that no longer asks for the whole stake. */
  predicate RevokesStale(s: Ledger, d: Account, c: Account) {
    && d in s.delegators && c in s.delegators[d].requests.requests
    && s.delegators[d].requests.requests[c].action.Revoke?
    && s.delegators[d].requests.requests[c].amount != Stake(s.delegators, d, c)
  }

  /** What carrying out such a revocation leaves held. */
  function LeftHeld(s: Ledger, d: Account, c: Account): nat {
    if RevokesStale(s, d, c) then SatSub(Stake(s.delegators, d, c), s.delegators[d].requests.requests[c].amount) else 0
  }

  /** What carrying out a decrease in a bottom list adds to the list's lead. */
  function DriftOf(s: Ledger, d: Account, c: Account): nat {
    if DriftsBottom(s, d, c) then s.delegators[d].requests.requests[c].amount else 0
  }

  /** The gaps after a request is carried out, to the unit: held for `d` stays what a stale revocation
      did not release, `Total` keeps that rest, too, and a bottom total runs ahead by what a decrease
      took in its list. */
  lemma ExecuteDelegationRequestGaps(s: Ledger, d: Account, c: Account)
    requires Consistent(s) && ExecuteDelegationRequest(s, d, c).outcome.Success?
    ensures var r := ExecuteDelegationRequest(s, d, c).ledger;
            && (forall a :: Surplus(r, a) == Surplus(s, a) + if a == d then LeftHeld(s, d, c) else 0)
            && ShortfallMoves(s, r, 0 - LeftHeld(s, d, c))
            && r.bottom.Keys == s.bottom.Keys
            && forall x :: Ahead(r.bottom, x) == Ahead(s.bottom, x) + if x == c then DriftOf(s, d, c) else 0
  {
    hide Consistent, LowerStake, Sever, TotalBacking, Surplus, Ahead, Candidates.Reaches;
    var request := s.delegators[d].requests.requests[c];
    RequestIsFor(s, d, c);
    if request.action.Revoke? {
      SeverGaps(s, d, c, request.amount);
    } else {
      LowerGaps(s, d, c, request.amount);
    }
  }

  /** Carrying out a request is consistent in every case and conserves when holds were exact; no bottom
      total comes apart from its list if and only if no decrease inside one is carried out. */
  lemma ExecuteDelegationRequestKeeps(s: Ledger, d: Account, c: Account)
    requires Consistent(s)
    ensures var r := ExecuteDelegationRequest(s, d, c);
            && Consistent(r.ledger)
            && (Conserved(s) ==> Conserved(r.ledger))
            && (Conserved(s) && Exact(s) ==> (Exact(r.ledger) <==> r.outcome.Failure? || !DriftsBottom(s, d, c)))
  {
    hide Consistent, Conserved, LowerStake, Sever, Drift, NoDrift, TotalBacking;
    var r := ExecuteDelegationRequest(s, d, c);
    if r.outcome.Success? {
      var request := s.delegators[d].requests.requests[c];
      RequestIsFor(s, d, c);
      if request.action.Revoke? {
        SeverConsistent(s, d, c, request.amount);
        if Conserved(s) {
          RevokeIsCurrent(s, d, c);
          SeverKeeps(s, d, c, request.amount);
        }
      } else {
        LowerKeeps(s, d, c, request.amount);
        if NoDrift(s) {
          LowerDrift(s, d, c, request.amount);
        }
      }
    }
  }

  lemma RequestIsFor(s: Ledger, d: Account, c: Account)
    requires Consistent(s) && d in s.delegators && c in s.delegators[d].requests.requests
    ensures s.delegators[d].requests.requests[c].amount <= Stake(s.delegators, d, c)
    ensures Stake(s.delegators, d, c) > 0
  {
    RecordIsOk(s, d);
    PositiveStakeOf(s, d, c);
  }

  lemma RevokeIsCurrent(s: Ledger, d: Account, c: Account)
    requires Conserved(s) && d in s.delegators && c in s.delegators[d].requests.requests
    requires s.delegators[d].requests.requests[c].action.Revoke?
    ensures s.delegators[d].requests.requests[c].amount == Stake(s.delegators, d, c)
  {
    assert Delegators.RevokesCurrent(s.delegators[d]);
  }
}

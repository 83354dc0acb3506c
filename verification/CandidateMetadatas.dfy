/** A candidate's metadata while a call works on it: decoded, changed in place together with the
    stored lists, and encoded again by the caller. The methods decide by the cached fields; their
    contracts speak of the lists. */
module CandidateMetadatas {
  import opened Bonds
  import opened Params
  import opened OrderedSets
  import opened DelegationLists
  import opened Ledgers
  import opened Transitions
  import opened Calls
  import opened Storages
  import opened DelegatorStates
  import DelegatorCalls
  import Queues
  import Candidates
  import Delegators

  class CandidateMetadata {
    var bond: Balance
    var delegationCount: nat
    var totalCounted: Balance
    var lowestTop: Balance
    var highestBottom: Balance
    var lowestBottom: Balance
    var topCapacity: CapacityStatus
    var bottomCapacity: CapacityStatus
    var request: Option<Candidates.BondLess>
    var status: Candidates.CollatorStatus

    constructor Decode(m: Metadata)
      ensures Encode() == m
    {
      bond, delegationCount, totalCounted := m.bond, m.delegationCount, m.totalCounted;
      lowestTop, highestBottom, lowestBottom := m.lowestTop, m.highestBottom, m.lowestBottom;
      topCapacity, bottomCapacity, request, status := m.topCapacity, m.bottomCapacity, m.request, m.status;
    }

    function Encode(): Metadata
      reads this
    {
      Candidates.Metadata(bond, delegationCount, totalCounted, lowestTop, highestBottom, lowestBottom,
                          topCapacity, bottomCapacity, request, status)
    }

    /** The storage as it will be once this metadata is written back for `candidate`. */
    ghost function Written(st: Storage, candidate: Account): Ledger
      reads this, st
    {
      PutInfo(st.View(), candidate, Encode())
    }

    /** Decoded from a storage whose candidates and pool are in order, and not changed since. */
    ghost predicate Synced(st: Storage, candidate: Account)
      reads this, st
    {
      && Listed(st.View(), candidate) && Encode() == st.candidateInfo[candidate]
      && Candidates.Ok(CandidateAt(st.View(), candidate)) && PoolOk(st.candidatePool, st.candidateInfo)
    }

    /** Recomputes what depends on the top list and keeps the pool entry in step. */
    method ResetTopData(st: Storage, candidate: Account, top: Delegations)
      requires PoolOk(st.candidatePool, st.candidateInfo) && candidate in st.candidateInfo
      requires st.candidateInfo[candidate].status == status && st.candidateInfo[candidate].totalCounted == totalCounted
      modifies this`lowestTop, this`topCapacity, this`totalCounted, st`candidatePool
      ensures lowestTop == Lowest(top.delegations) && topCapacity == Capacity(|top.delegations|, MAX_TOP)
      ensures totalCounted == bond + top.total
      ensures st.candidatePool == if status.Active? then UpdateActive(old(st.candidatePool), candidate, totalCounted)
                                  else old(st.candidatePool)
    {
      lowestTop := top.LowestDelegationAmount();
      topCapacity := top.TopCapacity();
      var oldTotalCounted := totalCounted;
      totalCounted := bond + top.total;
      if oldTotalCounted != totalCounted && status.Active? {
        st.UpdateActiveCandidate(candidate, totalCounted);
      } else {
        ReindexSame(st.candidatePool, st.candidateInfo, candidate, st.candidateInfo[candidate]);
      }
    }

    /** Recomputes what depends on the bottom list. */
    method ResetBottomData(bottom: Delegations)
      modifies this`lowestBottom, this`highestBottom, this`bottomCapacity
      ensures lowestBottom == Lowest(bottom.delegations) && highestBottom == Highest(bottom.delegations)
      ensures bottomCapacity == Capacity(|bottom.delegations|, MAX_BOTTOM)
    {
      lowestBottom := bottom.LowestDelegationAmount();
      highestBottom := bottom.HighestDelegationAmount();
      bottomCapacity := bottom.BottomCapacity();
    }

    /** Moves the highest bottom delegation into `top`. */
    method BumpHighestBottom(st: Storage, candidate: Account, top: Delegations)
      requires candidate in st.bottomDelegations && st.bottomDelegations[candidate].delegations != []
      requires Desc(top.delegations)
      modifies this`lowestBottom, this`highestBottom, this`bottomCapacity, st`bottomDelegations, top
      ensures var before := old(st.bottomDelegations[candidate]);
              && top.delegations == InsertDesc(old(top.delegations), before.delegations[0])
              && top.total == old(top.total) + before.delegations[0].amount
              && st.bottomDelegations == old(st.bottomDelegations)[candidate := DelegationData(
                   before.delegations[1..], SatSub(before.total, before.delegations[0].amount))]
              && lowestBottom == Lowest(before.delegations[1..]) && highestBottom == Highest(before.delegations[1..])
              && bottomCapacity == Capacity(|before.delegations| - 1, MAX_BOTTOM)
    {
      hide InsertDesc, Desc, Capacity, Lowest, Highest;
      var bottom := new Delegations.Decode(st.bottomDelegations[candidate]);
      var highest := bottom.RemoveFirst();
      bottom.total := SatSub(bottom.total, highest.amount);
      ResetBottomData(bottom);
      st.bottomDelegations := st.bottomDelegations[candidate := bottom.Encode()];
      top.InsertSortedGreatestToLeast(highest);
    }

    /** The top list is written back beside a bottom list that is up to date already, starting from
        `base`, and everything that depends on the top list recomputed. */
    method WriteTop(st: Storage, candidate: Account, top: Delegations, ghost base: Ledger, ghost bottom: seq<Bond>,
        ghost excess: nat)
      requires Listed(base, candidate) && PoolOk(base.pool, base.info)
               && st.View() == base.(bottom := st.bottomDelegations)
      requires NowAt(base.bottom, st.bottomDelegations, candidate, DelegationData(bottom, Sum(bottom) + excess))
      requires var m := base.info[candidate];
               m.bond == bond && m.request == request && m.status == status && m.totalCounted == totalCounted
      requires delegationCount == |top.delegations| + |bottom| && top.total == Sum(top.delegations)
      requires lowestBottom == Lowest(bottom) && highestBottom == Highest(bottom)
               && bottomCapacity == Capacity(|bottom|, MAX_BOTTOM)
      modifies this`lowestTop, this`topCapacity, this`totalCounted, st`topDelegations, st`candidatePool
      ensures Written(st, candidate) == PutQueue(base, candidate, Queues.Queue(top.delegations, bottom), excess)
    {
      hide PutQueue, PoolOk, Lowest, Highest, Capacity, UpdateActive, Sum, NowAt;
      ResetTopData(st, candidate, top);
      st.topDelegations := st.topDelegations[candidate := top.Encode()];
      WrittenTop(base, st.topDelegations, candidate, DelegationData(top.delegations, Sum(top.delegations)));
      WritesQueue(base, Written(st, candidate), candidate, Queues.Queue(top.delegations, bottom), excess);
    }

    /** Both lists are written back, and everything that depends on them recomputed. */
    method WriteLists(st: Storage, candidate: Account, top: Delegations, bottom: Delegations, ghost excess: nat)
      requires Listed(st.View(), candidate) && PoolOk(st.candidatePool, st.candidateInfo)
      requires var m := st.candidateInfo[candidate];
               m.bond == bond && m.request == request && m.status == status && m.totalCounted == totalCounted
      requires delegationCount == |top.delegations| + |bottom.delegations|
      requires top.total == Sum(top.delegations) && bottom.total == Sum(bottom.delegations) + excess
      modifies this, st`topDelegations, st`bottomDelegations, st`candidatePool
      ensures Written(st, candidate)
              == PutQueue(old(st.View()), candidate, Queues.Queue(top.delegations, bottom.delegations), excess)
    {
      hide PutQueue, PoolOk, Lowest, Highest, Capacity, UpdateActive, Sum;
      ghost var s := st.View();
      ResetTopData(st, candidate, top);
      st.topDelegations := st.topDelegations[candidate := top.Encode()];
      ResetBottomData(bottom);
      st.bottomDelegations := st.bottomDelegations[candidate := bottom.Encode()];
      WritesQueue(s, Written(st, candidate), candidate, Queues.Queue(top.delegations, bottom.delegations), excess);
    }

    /** Takes `delegator` out of the top list; the highest bottom delegation moves up. */
    method RmTopDelegation(st: Storage, candidate: Account, delegator: Account) returns (r: Outcome)
      requires Synced(st, candidate)
      modifies this, st`topDelegations, st`bottomDelegations, st`candidatePool
      ensures r == if Count(old(st.topDelegations[candidate].delegations), delegator) == 0 then Failure(DelegationDNE)
              else Success
      ensures r.Failure? ==> st.View() == old(st.View()) && Encode() == old(Encode())
      ensures r.Success? ==>
                Written(st, candidate) == PutQueue(old(st.View()), candidate,
                                                   Queues.Dequeue(QueueAt(old(st.View()), candidate), delegator),
                                                   ExcessAt(old(st.View()), candidate))
    {
      hide Candidates.Ok, Candidates.Excess, Candidates.WithQueue, PutQueue, PoolOk, Desc, Lowest, Highest, Capacity,
        Queues.Dequeue, UpdateActive, InsertDesc, Sum, StakeOf, Count, Without, Last, DropLast;
      ghost var s := st.View();
      ghost var q := QueueAt(s, candidate);
      Candidates.Decoded(CandidateAt(s, candidate), delegator);
      ghost var after := Queues.Dequeue(q, delegator);
      DequeueTop(q, delegator);
      var top := new Delegations.Decode(st.topDelegations[candidate]);
      var taken := top.TakeOwner(delegator);
      if taken.None? {
        return Failure(DelegationDNE);
      }
      top.total := SatSub(top.total, taken.value);
      BottomIsEmpty(q.bottom);
      if bottomCapacity != Empty {
        BumpHighestBottom(st, candidate, top);
      }
      delegationCount := SatSub(delegationCount, 1);
      WriteTop(st, candidate, top, s, after.bottom, ExcessAt(s, candidate));
      return Success;
    }

    method RmBottomDelegation(st: Storage, candidate: Account, delegator: Account) returns (r: Outcome)
      requires Synced(st, candidate)
      modifies this, st`bottomDelegations
      ensures r == if Count(old(st.bottomDelegations[candidate].delegations), delegator) == 0 then
                Failure(DelegationDNE) else Success
      ensures r.Failure? ==> st.View() == old(st.View()) && Encode() == old(Encode())
      ensures r.Success? ==>
                Written(st, candidate) == PutQueue(old(st.View()), candidate,
                                                   Queues.Dequeue(QueueAt(old(st.View()), candidate), delegator),
                                                   ExcessAt(old(st.View()), candidate))
    {
      hide Candidates.Ok, Candidates.Excess, Candidates.WithQueue, PutQueue, PoolOk, Desc, Lowest, Highest, Capacity,
        Queues.Dequeue, Sum, StakeOf, Count, Without, Reindex;
      ghost var s := st.View();
      ghost var q := QueueAt(s, candidate);
      Candidates.Decoded(CandidateAt(s, candidate), delegator);
      ghost var after := Queues.Dequeue(q, delegator);
      DequeueBottom(q, delegator);
      var bottom := new Delegations.Decode(st.bottomDelegations[candidate]);
      var taken := bottom.TakeOwner(delegator);
      if taken.None? {
        return Failure(DelegationDNE);
      }
      bottom.total := SatSub(bottom.total, taken.value);
      ResetBottomData(bottom);
      delegationCount := SatSub(delegationCount, 1);
      st.bottomDelegations := st.bottomDelegations[candidate := bottom.Encode()];
      ReindexSame(st.candidatePool, st.candidateInfo, candidate, Encode());
      WritesQueue(s, Written(st, candidate), candidate, after, ExcessAt(s, candidate));
      return Success;
    }

    // ----- adding -----

    /** The lowest bottom delegation is kicked: its owner gets the amount back and loses the
        delegation, and leaves if it was the last one. */
    method KickLowest(st: Storage, candidate: Account, bottom: Delegations)
      requires Consistent(st.View()) && Listed(st.View(), candidate)
               && Queues.Evicted(QueueAt(st.View(), candidate)).Some?
      requires bottom.Encode() == st.bottomDelegations[candidate]
      modifies bottom, st`delegatorState, st`reserved, st`free
      ensures var k := Last(old(bottom.delegations));
              && bottom.delegations == DropLast(old(bottom.delegations))
              && bottom.total == SatSub(old(bottom.total), k.amount)
              && st.View() == Kicked(old(st.View()), candidate, k)
    {
      hide Consistent, DropFrom, Delegators.Stake, Delegators.DropRequest, Sum, StakeOf, Without, Queues.Dequeue,
        Queues.Entered;
      ghost var s := st.View();
      DelegatorCalls.EvictedIsLinked(s, candidate);
      var kicked := bottom.Pop();
      bottom.total := SatSub(bottom.total, kicked.amount);
      st.UnreserveCurrency(kicked.owner, kicked.amount);
      BothSides(s, kicked.owner, candidate);
      DelegatorCalls.RecordIsOk(s, kicked.owner);
      var state := new DelegatorState.Decode(st.delegatorState[kicked.owner]);
      var leaving := |state.delegations| == 1;
      var remaining := state.RmDelegation(candidate);
      var removed := state.RemoveRequest(candidate);
      DropFromDecoded(s.delegators, kicked.owner, candidate);
      if leaving {
        st.delegatorState := st.delegatorState - {kicked.owner};
      } else {
        st.delegatorState := st.delegatorState[kicked.owner := state.Encode()];
      }
    }

    /** Into the bottom list, which a full list makes room for by a kick. */
    method AddBottomDelegation(st: Storage, bumpedFromTop: bool, candidate: Account, delegation: Bond)
      requires Consistent(st.View()) && Listed(st.View(), candidate)
               && |st.topDelegations[candidate].delegations| == MAX_TOP
      modifies this`delegationCount, this`lowestBottom, this`highestBottom, this`bottomCapacity
      modifies st`bottomDelegations, st`delegatorState, st`reserved, st`free
      ensures var s := old(st.View()); var q := QueueAt(s, candidate);
              var bottom := Queues.PushBottom(q.bottom, delegation);
              && st.View() == MadeRoom(s, candidate).(bottom := s.bottom[candidate := DelegationData(
                                bottom, SatSub(s.bottom[candidate].total, Queues.EvictedAmount(q)) +
                                  delegation.amount)])
              && lowestBottom == Lowest(bottom) && highestBottom == Highest(bottom)
              && bottomCapacity == Capacity(|bottom|, MAX_BOTTOM)
              && delegationCount == old(delegationCount) + if Queues.Evicted(q).Some? || bumpedFromTop then 0 else 1
    {
      hide Consistent, InsertDesc, Desc, Lowest, Highest, Capacity, Kicked, Candidates.Ok;
      ghost var s := st.View();
      DelegatorCalls.QueueIsOk(s, candidate);
      BottomIsSorted(QueueAt(s, candidate));
      var bottom := new Delegations.Decode(st.bottomDelegations[candidate]);
      var increaseDelegationCount;
      if |bottom.delegations| == MAX_BOTTOM {
        KickLowest(st, candidate, bottom);
        increaseDelegationCount := false;
      } else {
        increaseDelegationCount := !bumpedFromTop;
      }
      if increaseDelegationCount {
        delegationCount := delegationCount + 1;
      }
      bottom.InsertSortedGreatestToLeast(delegation);
      ResetBottomData(bottom);
      st.bottomDelegations := st.bottomDelegations[candidate := bottom.Encode()];
    }

    /** Moves the lowest entry of a full `top` to the bottom list. */
    method BumpLowestTop(st: Storage, candidate: Account, top: Delegations) returns (less: Option<Balance>)
      requires Consistent(st.View()) && Synced(st, candidate) && |st.topDelegations[candidate].delegations| == MAX_TOP
      requires top.Encode() == st.topDelegations[candidate]
      modifies this`delegationCount, this`lowestBottom, this`highestBottom, this`bottomCapacity, top
      modifies st`bottomDelegations, st`delegatorState, st`reserved, st`free
      ensures var s := old(st.View()); var q := QueueAt(s, candidate);
              var bottom := Queues.PushBottom(q.bottom, Last(q.top));
              && top.delegations == DropLast(q.top) && top.total == SatSub(old(top.total), Last(q.top).amount)
              && st.View() == MadeRoom(s, candidate).(bottom := s.bottom[candidate := DelegationData(
                                bottom, SatSub(s.bottom[candidate].total, Queues.EvictedAmount(q)) +
                                  Last(q.top).amount)])
              && lowestBottom == Lowest(bottom) && highestBottom == Highest(bottom)
              && bottomCapacity == Capacity(|bottom|, MAX_BOTTOM) && delegationCount == old(delegationCount)
              && less == if Queues.Evicted(q).Some? then Some(Queues.EvictedAmount(q)) else None
    {
      hide Consistent, Candidates.Ok, Candidates.Excess, Desc, Capacity, Lowest, Highest, Queues.PushBottom, MadeRoom,
        PoolOk, Queues.EvictedAmount, Queues.Evicted, Sum, Candidates.WithQueue;
      ghost var q := QueueAt(st.View(), candidate);
      Candidates.Decoded(CandidateAt(st.View(), candidate), 0);
      EvictedBottom(q);
      var newBottom := top.Pop();
      top.total := SatSub(top.total, newBottom.amount);
      less := if bottomCapacity == Full then Some(lowestBottom) else None;
      AddBottomDelegation(st, true, candidate, newBottom);
    }

    /** Into the top list; a full top list bumps its lowest delegation to the bottom. Returns what a
        kick takes off the total staked. */
    method AddTopDelegation(st: Storage, candidate: Account, delegation: Bond) returns (less: Option<Balance>)
      requires Consistent(st.View()) && Synced(st, candidate)
      requires topCapacity == Full ==> lowestTop < delegation.amount
      modifies this, st`topDelegations, st`bottomDelegations, st`candidatePool, st`delegatorState, st`reserved, st`free
      ensures var s := old(st.View()); var q := QueueAt(s, candidate);
              && less == (if Queues.Evicted(q).Some? then Some(Queues.EvictedAmount(q)) else None)
              && Written(st, candidate)
                   == PutQueue(MadeRoom(s, candidate), candidate, Queues.Enqueue(q, delegation), ExcessAt(s, candidate))
    {
      hide Consistent, Candidates.Ok, Candidates.Excess, Candidates.WithQueue, PutQueue, PoolOk, Desc, Lowest, Highest,
        Capacity, Queues.Enqueue, UpdateActive, InsertDesc, Sum, Last, DropLast, Queues.PushBottom, MadeRoom,
        Queues.Evicted, Queues.EvictedAmount;
      ghost var s := st.View();
      ghost var q := QueueAt(s, candidate);
      Candidates.Decoded(CandidateAt(s, candidate), delegation.owner);
      EnqueueTop(q, delegation, ExcessAt(s, candidate));
      RoomFrame(s, candidate);
      less := None;
      var top := new Delegations.Decode(st.topDelegations[candidate]);
      if |top.delegations| == MAX_TOP {
        less := BumpLowestTop(st, candidate, top);
      }
      top.InsertSortedGreatestToLeast(delegation);
      if less.None? {
        delegationCount := delegationCount + 1;
      }
      WriteTop(st, candidate, top, MadeRoom(s, candidate), Queues.Enqueue(q, delegation).bottom,
               ExcessAt(s, candidate));
    }

    /** Into the bottom list, behind a full top. */
    method AddBelow(st: Storage, candidate: Account, delegation: Bond)
      requires Consistent(st.View()) && Synced(st, candidate) && topCapacity == Full && delegation.amount <= lowestTop
      modifies this, st`topDelegations, st`bottomDelegations, st`candidatePool, st`delegatorState, st`reserved, st`free
      ensures var s := old(st.View()); var q := QueueAt(s, candidate);
              Written(st, candidate)
                == PutQueue(MadeRoom(s, candidate), candidate, Queues.Enqueue(q, delegation), ExcessAt(s, candidate))
    {
      hide Consistent, Candidates.Ok, Candidates.Excess, Candidates.WithQueue, PutQueue, PoolOk, Desc, Lowest, Highest,
        Queues.Enqueue, UpdateActive, InsertDesc, Sum, Last, DropLast, Queues.PushBottom, MadeRoom, Queues.Evicted,
        Queues.EvictedAmount;
      ghost var s := st.View();
      ghost var q := QueueAt(s, candidate);
      Candidates.Decoded(CandidateAt(s, candidate), delegation.owner);
      EnqueueBottom(q, delegation, ExcessAt(s, candidate));
      RoomFrame(s, candidate);
      AddBottomDelegation(st, false, candidate, delegation);
      ReindexSame(s.pool, s.info, candidate, Encode());
      WritesQueue(MadeRoom(s, candidate), Written(st, candidate), candidate, Queues.Enqueue(q, delegation),
                  ExcessAt(s, candidate));
    }

    /** Adds a delegation where it belongs, or refuses it. Returns what a kick takes off the total
        staked. */
    method AddDelegation(st: Storage, candidate: Account, delegation: Bond) returns (r: Outcome, less: Option<Balance>)
      requires Consistent(st.View()) && Synced(st, candidate)
      modifies this, st`topDelegations, st`bottomDelegations, st`candidatePool, st`delegatorState, st`reserved, st`free
      ensures var s := old(st.View()); var q := QueueAt(s, candidate);
              && (r == if Queues.Accepts(q, delegation) then Success
                  else Failure(CannotDelegateLessThanLowestBottomWhenBottomIsFull))
              && (r.Failure? ==> st.View() == s && Encode() == old(Encode()))
              && (r.Success? ==>
                    && less == (if Queues.Evicted(q).Some? then Some(Queues.EvictedAmount(q)) else None)
                    && Written(st, candidate)
                       == PutQueue(MadeRoom(s, candidate), candidate, Queues.Enqueue(q, delegation),
                                   ExcessAt(s, candidate)))
    {
      hide Consistent, Candidates.Ok, Candidates.Excess, Candidates.WithQueue, PutQueue, PoolOk, Desc, Lowest, Highest,
        Capacity, Queues.Enqueue, Sum, MadeRoom, Queues.Evicted, Queues.EvictedAmount, Queues.Accepts;
      ghost var s := st.View();
      ghost var q := QueueAt(s, candidate);
      Candidates.Decoded(CandidateAt(s, candidate), delegation.owner);
      AcceptsByCaches(q, delegation);
      less := None;
      match topCapacity {
        case Full =>
          if lowestTop < delegation.amount {
            less := AddTopDelegation(st, candidate, delegation);
          } else {
            if bottomCapacity == Full {
              if delegation.amount <= lowestBottom {
                return Failure(CannotDelegateLessThanLowestBottomWhenBottomIsFull), None;
              }
              less := Some(lowestBottom);
            }
            AddBelow(st, candidate, delegation);
          }
        case _ =>
          less := AddTopDelegation(st, candidate, delegation);
      }
      return Success, less;
    }

    // ----- status and self bond -----

    method ScheduleLeave(now: nat) returns (r: Outcome)
      modifies this`status
      ensures r == if old(status).Leaving? then Failure(CandidateAlreadyLeaving) else Success
      ensures status == if r.Success? then Candidates.Leaving(now + LEAVE_CANDIDATES_DELAY) else old(status)
    {
      if status.Leaving? {
        return Failure(CandidateAlreadyLeaving);
      }
      status := Candidates.Leaving(now + LEAVE_CANDIDATES_DELAY);
      return Success;
    }

    method CanLeave(now: nat) returns (r: Outcome)
      ensures r == if !status.Leaving? then Failure(CandidateNotLeaving)
                   else if now < status.when then Failure(CandidateCannotLeaveYet) else Success
    {
      match status {
        case Leaving(when) => r := if now >= when then Success else Failure(CandidateCannotLeaveYet);
        case _ => r := Failure(CandidateNotLeaving);
      }
    }

    method GoOffline()
      modifies this`status
      ensures status == Candidates.Idle
    {
      status := Candidates.Idle;
    }

    method GoOnline()
      modifies this`status
      ensures status == Candidates.Active
    {
      status := Candidates.Active;
    }

    method BondMore(st: Storage, who: Account, more: Balance) returns (r: Outcome)
      modifies this`bond, this`totalCounted, st`reserved, st`free, st`total
      ensures r == if CanReserve(old(st.View()), who, more) then Success else Failure(InsufficientBalance)
      ensures r.Failure? ==> st.View() == old(st.View()) && Encode() == old(Encode())
      ensures r.Success? ==>
                && st.View() == Reserve(old(st.View()).(total := old(st.total) + more), who, more)
                && Encode() == BondMoved(old(Encode()), more)
    {
      var ok := st.ReserveCurrency(who, more);
      if !ok {
        return Failure(InsufficientBalance);
      }
      st.total := st.total + more;
      bond := bond + more;
      totalCounted := totalCounted + more;
      return Success;
    }

    method ScheduleBondLess(now: nat, less: Balance) returns (r: Outcome)
      modifies this`request
      ensures r == if old(request).Some? then Failure(PendingCandidateRequestAlreadyExists)
                   else if bond <= less || bond - less < MIN_CANDIDATE_STK then Failure(CandidateBondBelowMin)
                   else Success
      ensures request == if r.Success? then Some(Candidates.BondLess(less, now + CANDIDATE_BOND_LESS_DELAY))
              else old(request)
    {
      if request.Some? {
        return Failure(PendingCandidateRequestAlreadyExists);
      }
      if bond <= less {
        return Failure(CandidateBondBelowMin);
      }
      if bond - less < MIN_CANDIDATE_STK {
        return Failure(CandidateBondBelowMin);
      }
      request := Some(Candidates.BondLess(less, now + CANDIDATE_BOND_LESS_DELAY));
      return Success;
    }

    method ExecuteBondLess(st: Storage, who: Account) returns (r: Outcome)
      requires ByOwner(st.candidatePool)
      modifies this`bond, this`totalCounted, this`request, st`reserved, st`free, st`total, st`candidatePool
      ensures r == if old(request).None? then Failure(PendingCandidateRequestsDNE)
                   else if old(request).value.whenExecutable > st.round then Failure(PendingCandidateRequestNotDueYet)
                   else Success
      ensures r.Failure? ==> st.View() == old(st.View()) && Encode() == old(Encode())
      ensures r.Success? ==>
                var less := old(request).value.amount;
                && Encode() == old(Encode()).(bond := SatSub(old(bond), less),
                                              totalCounted := SatSub(old(totalCounted), less), request := None)
                && st.View() == Unreserve(old(st.View()).(pool := Reindex(old(st.candidatePool), who, Encode()),
                                                          total := SatSub(old(st.total), less)), who, less)
    {
      if request.None? {
        return Failure(PendingCandidateRequestsDNE);
      }
      var pending := request.value;
      if pending.whenExecutable > st.round {
        return Failure(PendingCandidateRequestNotDueYet);
      }
      st.UnreserveCurrency(who, pending.amount);
      st.total := SatSub(st.total, pending.amount);
      bond := SatSub(bond, pending.amount);
      totalCounted := SatSub(totalCounted, pending.amount);
      request := None;
      if status.Active? {
        st.UpdateActiveCandidate(who, totalCounted);
      }
      return Success;
    }

    method CancelBondLess() returns (r: Outcome)
      modifies this`request
      ensures r == if old(request).None? then Failure(PendingCandidateRequestsDNE) else Success
      ensures request == None
    {
      if request.None? {
        return Failure(PendingCandidateRequestsDNE);
      }
      request := None;
      return Success;
    }

    // ----- removing -----

    /** Removes a delegation of the claimed amount from the list the cached extremes point to, or,
        when they cannot tell, from the one that has it. */
    method RmDelegationIfExists(st: Storage, candidate: Account, delegator: Account, amount: Balance)
        returns (r: Outcome)
      requires Synced(st, candidate)
      modifies this, st`topDelegations, st`bottomDelegations, st`candidatePool
      ensures var s := old(st.View());
              && (r == if Candidates.Reaches(CandidateAt(s, candidate), delegator, amount) then Success
                  else Failure(DelegationDNE))
              && (r.Failure? ==> st.View() == s && Encode() == old(Encode()))
              && (r.Success? ==>
                    Written(st, candidate) == PutQueue(s, candidate, Queues.Dequeue(QueueAt(s, candidate), delegator),
                                                                    ExcessAt(s, candidate)))
    {
      hide Candidates.Excess, PutQueue, PoolOk, Queues.Dequeue, Candidates.Ok, Count;
      ghost var s := st.View();
      NotInEmptyBottom(CandidateAt(s, candidate), delegator);
      var amountGeqLowestTop := amount >= lowestTop;
      var topIsNotFull := topCapacity != Full;
      var lowestTopEqHighestBottom := lowestTop == highestBottom;
      if topIsNotFull || (amountGeqLowestTop && !lowestTopEqHighestBottom) {
        r := RmTopDelegation(st, candidate, delegator);
      } else if amountGeqLowestTop && lowestTopEqHighestBottom {
        r := RmTopDelegation(st, candidate, delegator);
        if r == Failure(DelegationDNE) {
          r := RmBottomDelegation(st, candidate, delegator);
        }
      } else {
        r := RmBottomDelegation(st, candidate, delegator);
      }
    }

    // ----- increasing -----

    method IncreaseTopDelegation(st: Storage, candidate: Account, delegator: Account, more: Balance)
        returns (r: Outcome)
      requires Synced(st, candidate)
      modifies this, st`topDelegations, st`candidatePool
      ensures r == if Count(old(st.topDelegations[candidate].delegations), delegator) == 0 then Failure(DelegationDNE)
              else Success
      ensures r.Failure? ==> st.View() == old(st.View()) && Encode() == old(Encode())
      ensures r.Success? ==>
                Written(st, candidate) == PutQueue(old(st.View()), candidate,
                                                   Queues.Raise(QueueAt(old(st.View()), candidate), delegator, more),
                                                   ExcessAt(old(st.View()), candidate))
    {
      hide Consistent, Candidates.Ok, Candidates.Excess, Candidates.WithQueue, PutQueue, PoolOk, Desc, Lowest, Highest,
        Capacity, UpdateActive, InsertDesc, SortDesc, Shift, Sum, StakeOf, Count, Without, Last, DropLast, Queues.Raise,
        Queues.Lower;
      ghost var s := st.View();
      ghost var q := QueueAt(s, candidate);
      Candidates.Decoded(CandidateAt(s, candidate), delegator);
      RaiseInTop(q, delegator, more);
      var top := new Delegations.Decode(st.topDelegations[candidate]);
      var inTop := top.ChangeOwner(delegator, more);
      if !inTop {
        return Failure(DelegationDNE);
      }
      top.total := top.total + more;
      top.SortGreatestToLeast();
      Untouched(s.bottom, candidate);
      WriteTop(st, candidate, top, s, q.bottom, ExcessAt(s, candidate));
      return Success;
    }

    /** The delegation grows past the lowest top one and changes places with it. */
    method PromoteDelegation(st: Storage, candidate: Account, delegator: Account, bond: Balance, more: Balance)
        returns (r: Outcome)
      requires Synced(st, candidate) && bond + more > lowestTop
      requires Count(st.bottomDelegations[candidate].delegations, delegator) > 0 ==>
                 bond == StakeOf(st.bottomDelegations[candidate].delegations, delegator)
      modifies this, st`topDelegations, st`bottomDelegations, st`candidatePool
      ensures r == if Count(old(st.bottomDelegations[candidate].delegations), delegator) == 0 then
                Failure(DelegationDNE) else Success
      ensures r.Failure? ==> st.View() == old(st.View()) && Encode() == old(Encode())
      ensures r.Success? ==>
                Written(st, candidate) == PutQueue(old(st.View()), candidate,
                                                   Queues.Raise(QueueAt(old(st.View()), candidate), delegator, more),
                                                   ExcessAt(old(st.View()), candidate))
    {
      hide Consistent, Candidates.Ok, Candidates.Excess, Candidates.WithQueue, PutQueue, PoolOk, Desc, Lowest, Highest,
        Capacity, UpdateActive, InsertDesc, SortDesc, Shift, Sum, StakeOf, Count, Without, Last, DropLast, Queues.Raise,
        Queues.Lower;
      ghost var s := st.View();
      ghost var q := QueueAt(s, candidate);
      Candidates.Decoded(CandidateAt(s, candidate), delegator);
      RaiseByPromotion(q, delegator, more);
      var bottom := new Delegations.Decode(st.bottomDelegations[candidate]);
      var taken := bottom.TakeOwner(delegator);
      if taken.None? {
        return Failure(DelegationDNE);
      }
      bottom.total := SatSub(bottom.total, bond);
      var top := new Delegations.Decode(st.topDelegations[candidate]);
      if top.TopCapacity() == Full {
        var newBottom := top.Pop();
        top.total := SatSub(top.total, newBottom.amount);
        bottom.InsertSortedGreatestToLeast(newBottom);
      }
      top.InsertSortedGreatestToLeast(Bond(delegator, taken.value + more));
      WriteLists(st, candidate, top, bottom, ExcessAt(s, candidate));
      return Success;
    }

    method IncreaseBottomDelegation(st: Storage, candidate: Account, delegator: Account, bond: Balance, more: Balance)
        returns (r: Outcome)
      requires Synced(st, candidate)
      requires Count(st.topDelegations[candidate].delegations, delegator) == 0
      requires Count(st.bottomDelegations[candidate].delegations, delegator) > 0 ==>
                 bond == StakeOf(st.bottomDelegations[candidate].delegations, delegator)
      modifies this, st`topDelegations, st`bottomDelegations, st`candidatePool
      ensures r == if Count(old(st.bottomDelegations[candidate].delegations), delegator) == 0 then
                Failure(DelegationDNE) else Success
      ensures r.Failure? ==> st.View() == old(st.View()) && Encode() == old(Encode())
      ensures r.Success? ==>
                Written(st, candidate) == PutQueue(old(st.View()), candidate,
                                                   Queues.Raise(QueueAt(old(st.View()), candidate), delegator, more),
                                                   ExcessAt(old(st.View()), candidate))
    {
      hide Consistent, Candidates.Ok, Candidates.Excess, Candidates.WithQueue, PutQueue, PoolOk, Desc, Lowest, Highest,
        Capacity, UpdateActive, InsertDesc, SortDesc, Shift, Sum, StakeOf, Count, Without, Last, DropLast, Queues.Raise,
        Queues.Lower;
      if bond + more > lowestTop {
        r := PromoteDelegation(st, candidate, delegator, bond, more);
        return;
      }
      ghost var s := st.View();
      ghost var q := QueueAt(s, candidate);
      Candidates.Decoded(CandidateAt(s, candidate), delegator);
      RaiseInBottom(q, delegator, more);
      var bottom := new Delegations.Decode(st.bottomDelegations[candidate]);
      var inBottom := bottom.ChangeOwner(delegator, more);
      if !inBottom {
        return Failure(DelegationDNE);
      }
      bottom.total := bottom.total + more;
      bottom.SortGreatestToLeast();
      ResetBottomData(bottom);
      st.bottomDelegations := st.bottomDelegations[candidate := bottom.Encode()];
      ReindexSame(s.pool, s.info, candidate, Encode());
      WritesQueue(s, Written(st, candidate), candidate, Queues.Raise(q, delegator, more), ExcessAt(s, candidate));
      return Success;
    }

    /** `bond` is the delegation's amount before. */
    method IncreaseDelegation(st: Storage, candidate: Account, delegator: Account, bond: Balance, more: Balance)
        returns (r: Outcome)
      requires Synced(st, candidate)
      requires Queues.Entered(QueueAt(st.View(), candidate), delegator) > 0 ==>
                 bond == Queues.Backed(QueueAt(st.View(), candidate), delegator)
      modifies this, st`topDelegations, st`bottomDelegations, st`candidatePool
      ensures var s := old(st.View()); var q := QueueAt(s, candidate);
              && (r == if Queues.Entered(q, delegator) > 0 then Success else Failure(DelegationDNE))
              && (r.Failure? ==> st.View() == s && Encode() == old(Encode()))
              && (r.Success? ==>
                    Written(st, candidate)
                      == PutQueue(s, candidate, Queues.Raise(q, delegator, more), ExcessAt(s, candidate)))
    {
      hide Candidates.Excess, PutQueue, PoolOk, Queues.Raise, Candidates.Ok, Count, StakeOf;
      ghost var s := st.View();
      InTopOrBottom(CandidateAt(s, candidate), delegator);
      var lowestTopEqHighestBottom := lowestTop == highestBottom;
      var bondGeqLowestTop := bond >= lowestTop;
      if bondGeqLowestTop && !lowestTopEqHighestBottom {
        r := IncreaseTopDelegation(st, candidate, delegator, more);
      } else if bondGeqLowestTop && lowestTopEqHighestBottom {
        r := IncreaseTopDelegation(st, candidate, delegator, more);
        if r == Failure(DelegationDNE) {
          r := IncreaseBottomDelegation(st, candidate, delegator, bond, more);
        }
      } else {
        r := IncreaseBottomDelegation(st, candidate, delegator, bond, more);
      }
    }

    // ----- decreasing -----

    /** The delegation shrinks below the highest bottom one and changes places with it. */
    method DemoteDelegation(st: Storage, candidate: Account, delegator: Account, less: Balance) returns (r: Outcome)
      requires Synced(st, candidate) && bottomCapacity != Empty
      requires Count(st.topDelegations[candidate].delegations, delegator) > 0 ==>
                 less <= StakeOf(st.topDelegations[candidate].delegations, delegator)
                 && SatSub(StakeOf(st.topDelegations[candidate].delegations, delegator), less) < highestBottom
      modifies this, st`topDelegations, st`bottomDelegations, st`candidatePool
      ensures r == if Count(old(st.topDelegations[candidate].delegations), delegator) == 0 then Failure(DelegationDNE)
              else Success
      ensures r.Failure? ==> st.View() == old(st.View()) && Encode() == old(Encode())
      ensures r.Success? ==>
                Written(st, candidate) == PutQueue(old(st.View()), candidate,
                                                   Queues.Lower(QueueAt(old(st.View()), candidate), delegator, less),
                                                   ExcessAt(old(st.View()), candidate))
    {
      hide Consistent, Candidates.Ok, Candidates.Excess, Candidates.WithQueue, PutQueue, PoolOk, Desc, Lowest, Highest,
        Capacity, UpdateActive, InsertDesc, SortDesc, Shift, Sum, StakeOf, Count, Without, Last, DropLast, Queues.Raise,
        Queues.Lower;
      ghost var s := st.View();
      ghost var q := QueueAt(s, candidate);
      Candidates.Decoded(CandidateAt(s, candidate), delegator);
      BottomIsEmpty(q.bottom);
      LowerByDemotion(q, delegator, less);
      var top := new Delegations.Decode(st.topDelegations[candidate]);
      var taken := top.TakeOwner(delegator);
      if taken.None? {
        return Failure(DelegationDNE);
      }
      top.total := SatSub(top.total, taken.value);
      var bottom := new Delegations.Decode(st.bottomDelegations[candidate]);
      var highest := bottom.RemoveFirst();
      bottom.total := SatSub(bottom.total, highest.amount);
      top.InsertSortedGreatestToLeast(highest);
      bottom.InsertSortedGreatestToLeast(Bond(delegator, SatSub(taken.value, less)));
      WriteLists(st, candidate, top, bottom, ExcessAt(s, candidate));
      return Success;
    }

    method DecreaseTopDelegation(st: Storage, candidate: Account, delegator: Account, bond: Balance, less: Balance)
        returns (r: Outcome)
      requires Synced(st, candidate)
      requires Count(st.topDelegations[candidate].delegations, delegator) > 0 ==>
                 less <= bond == StakeOf(st.topDelegations[candidate].delegations, delegator)
      modifies this, st`topDelegations, st`bottomDelegations, st`candidatePool
      ensures r == if Count(old(st.topDelegations[candidate].delegations), delegator) == 0 then Failure(DelegationDNE)
              else Success
      ensures r.Failure? ==> st.View() == old(st.View()) && Encode() == old(Encode())
      ensures r.Success? ==>
                Written(st, candidate) == PutQueue(old(st.View()), candidate,
                                                   Queues.Lower(QueueAt(old(st.View()), candidate), delegator, less),
                                                   ExcessAt(old(st.View()), candidate))
    {
      hide Consistent, Candidates.Ok, Candidates.Excess, Candidates.WithQueue, PutQueue, PoolOk, Desc, Lowest, Highest,
        Capacity, UpdateActive, InsertDesc, SortDesc, Shift, Sum, StakeOf, Count, Without, Last, DropLast, Queues.Raise,
        Queues.Lower;
      var bondAfterLessThanHighestBottom := SatSub(bond, less) < highestBottom;
      var fullTopAndNonemptyBottom := topCapacity == Full && bottomCapacity != Empty;
      if bondAfterLessThanHighestBottom && fullTopAndNonemptyBottom {
        r := DemoteDelegation(st, candidate, delegator, less);
        return;
      }
      ghost var s := st.View();
      ghost var q := QueueAt(s, candidate);
      Candidates.Decoded(CandidateAt(s, candidate), delegator);
      TopIsFull(q);
      LowerInTop(q, delegator, less);
      var top := new Delegations.Decode(st.topDelegations[candidate]);
      var isInTop := top.ChangeOwner(delegator, 0 - less);
      if !isInTop {
        return Failure(DelegationDNE);
      }
      top.total := SatSub(top.total, less);
      top.SortGreatestToLeast();
      Untouched(s.bottom, candidate);
      WriteTop(st, candidate, top, s, q.bottom, ExcessAt(s, candidate));
      return Success;
    }

    /** The entry shrinks, the cached bottom total does not. */
    method DecreaseBottomDelegation(st: Storage, candidate: Account, delegator: Account, less: Balance)
        returns (r: Outcome)
      requires Synced(st, candidate)
      requires Count(st.topDelegations[candidate].delegations, delegator) == 0
      requires Count(st.bottomDelegations[candidate].delegations, delegator) > 0 ==>
                 less <= StakeOf(st.bottomDelegations[candidate].delegations, delegator)
      modifies this, st`bottomDelegations
      ensures r == if Count(old(st.bottomDelegations[candidate].delegations), delegator) == 0 then
                Failure(DelegationDNE) else Success
      ensures r.Failure? ==> st.View() == old(st.View()) && Encode() == old(Encode())
      ensures r.Success? ==>
                Written(st, candidate) == PutQueue(old(st.View()), candidate,
                                                   Queues.Lower(QueueAt(old(st.View()), candidate), delegator, less),
                                                   ExcessAt(old(st.View()), candidate) + less)
    {
      hide Consistent, Candidates.Ok, Candidates.Excess, Candidates.WithQueue, PutQueue, PoolOk, Desc, Lowest, Highest,
        Capacity, UpdateActive, InsertDesc, SortDesc, Shift, Sum, StakeOf, Count, Without, Last, DropLast, Queues.Raise,
        Queues.Lower;
      ghost var s := st.View();
      ghost var q := QueueAt(s, candidate);
      Candidates.Decoded(CandidateAt(s, candidate), delegator);
      LowerInBottom(q, delegator, less);
      var bottom := new Delegations.Decode(st.bottomDelegations[candidate]);
      var inBottom := bottom.ChangeOwner(delegator, 0 - less);
      if !inBottom {
        return Failure(DelegationDNE);
      }
      bottom.SortGreatestToLeast();
      ResetBottomData(bottom);
      st.bottomDelegations := st.bottomDelegations[candidate := bottom.Encode()];
      ReindexSame(s.pool, s.info, candidate, Encode());
      WritesQueue(s, Written(st, candidate), candidate, Queues.Lower(q, delegator, less),
                  ExcessAt(s, candidate) + less);
      return Success;
    }

    method DecreaseDelegation(st: Storage, candidate: Account, delegator: Account, bond: Balance, less: Balance)
        returns (r: Outcome)
      requires Synced(st, candidate)
      requires Queues.Entered(QueueAt(st.View(), candidate), delegator) > 0 ==>
                 less <= bond == Queues.Backed(QueueAt(st.View(), candidate), delegator)
      modifies this, st`topDelegations, st`bottomDelegations, st`candidatePool
      ensures var s := old(st.View()); var q := QueueAt(s, candidate);
              && (r == if Queues.Entered(q, delegator) > 0 then Success else Failure(DelegationDNE))
              && (r.Failure? ==> st.View() == s && Encode() == old(Encode()))
              && (r.Success? ==> Written(st, candidate) == PutQueue(s, candidate, Queues.Lower(q, delegator, less),
                                                                    ExcessAt(s, candidate) +
                                                                      Drift(s, delegator, candidate, less)))
    {
      hide Candidates.Excess, PutQueue, PoolOk, Queues.Lower, Candidates.Ok, Count, StakeOf;
      ghost var s := st.View();
      InTopOrBottom(CandidateAt(s, candidate), delegator);
      var lowestTopEqHighestBottom := lowestTop == highestBottom;
      var bondGeqLowestTop := bond >= lowestTop;
      if bondGeqLowestTop && !lowestTopEqHighestBottom {
        r := DecreaseTopDelegation(st, candidate, delegator, bond, less);
      } else if bondGeqLowestTop && lowestTopEqHighestBottom {
        r := DecreaseTopDelegation(st, candidate, delegator, bond, less);
        if r == Failure(DelegationDNE) {
          r := DecreaseBottomDelegation(st, candidate, delegator, less);
        }
      } else {
        r := DecreaseBottomDelegation(st, candidate, delegator, less);
      }
    }
  }

  // ----- what the cached extremes tell -----

  lemma NotInEmptyBottom(c: Candidate, o: Account)
    requires Candidates.Ok(c)
    ensures Count(c.top.delegations, o) + Count(c.bottom.delegations, o) <= 1
    ensures c.info.topCapacity != Full ==> Count(c.bottom.delegations, o) == 0
  {
    Candidates.Decoded(c, o);
  }

  lemma InTopOrBottom(c: Candidate, o: Account)
    requires Candidates.Ok(c)
    ensures var q := Candidates.QueueOf(c);
            && Queues.Entered(q, o) == Count(q.top, o) + Count(q.bottom, o) <= 1
            && (Count(q.top, o) > 0 ==> StakeOf(q.top, o) == Queues.Backed(q, o) >= c.info.lowestTop)
            && (Count(q.bottom, o) > 0 ==>
                  StakeOf(q.bottom, o) == Queues.Backed(q, o) <= c.info.highestBottom <= c.info.lowestTop)
  {
    var q := Candidates.QueueOf(c);
    assert Queues.Entered(q, o) <= 1;
    if Queues.Entered(q, o) == 1 {
      Candidates.WhereStakeIs(c, o);
    }
  }

  lemma TopIsFull(q: Queues.Queue)
    requires |q.top| <= MAX_TOP && (q.bottom != [] ==> |q.top| == MAX_TOP)
    ensures q.bottom != [] ==> Capacity(|q.top|, MAX_TOP) == Full && Capacity(|q.bottom|, MAX_BOTTOM) != Empty
  {
  }

  // ----- the lists after an increase or a decrease, with the sums the code keeps beside them -----

  lemma RaiseInTop(q: Queues.Queue, o: Account, more: Balance)
    requires Count(q.top, o) + Count(q.bottom, o) <= 1
    ensures Count(q.top, o) > 0 ==>
              && Queues.Raise(q, o, more) == Queues.Queue(SortDesc(Shift(q.top, o, more)), q.bottom)
              && Sum(SortDesc(Shift(q.top, o, more))) == Sum(q.top) + more
                   && |SortDesc(Shift(q.top, o, more))| == |q.top|
  {
    if Count(q.top, o) > 0 {
      Queues.ChangedMeasures(q.top, o, more);
    }
  }

  lemma RaiseInBottom(q: Queues.Queue, o: Account, more: Balance)
    requires Count(q.top, o) == 0 && Count(q.bottom, o) <= 1 && (q.bottom != [] ==> |q.top| == MAX_TOP)
    requires Count(q.bottom, o) > 0 ==> StakeOf(q.bottom, o) + more <= Lowest(q.top)
    ensures Count(q.bottom, o) > 0 ==>
              && Queues.Raise(q, o, more) == Queues.Queue(q.top, SortDesc(Shift(q.bottom, o, more)))
              && Sum(SortDesc(Shift(q.bottom, o, more))) == Sum(q.bottom) + more
              && |SortDesc(Shift(q.bottom, o, more))| == |q.bottom|
  {
    if Count(q.bottom, o) > 0 {
      Queues.ChangedMeasures(q.bottom, o, more);
    }
  }

  lemma RaiseByPromotion(q: Queues.Queue, o: Account, more: Balance)
    requires Count(q.top, o) + Count(q.bottom, o) <= 1 && |q.top| <= MAX_TOP && (q.bottom != [] ==> |q.top| == MAX_TOP)
    requires Desc(q.top) && Desc(q.bottom) && (Count(q.bottom, o) > 0 ==> StakeOf(q.bottom, o) + more > Lowest(q.top))
    ensures Count(q.bottom, o) > 0 ==>
              var d := Bond(o, StakeOf(q.bottom, o) + more);
              && Capacity(|q.top|, MAX_TOP) == Full && q.top != [] && Desc(DropLast(q.top))
                   && Desc(Without(q.bottom, o))
              && Queues.Raise(q, o, more)
                   == Queues.Queue(InsertDesc(DropLast(q.top), d), InsertDesc(Without(q.bottom, o), Last(q.top)))
              && Sum(q.top) == Sum(DropLast(q.top)) + Last(q.top).amount && StakeOf(q.bottom, o) <= Sum(q.bottom)
              && Sum(InsertDesc(DropLast(q.top), d)) == Sum(q.top) - Last(q.top).amount + d.amount
              && Sum(InsertDesc(Without(q.bottom, o), Last(q.top)))
                   == Sum(q.bottom) - StakeOf(q.bottom, o) + Last(q.top).amount
              && |InsertDesc(DropLast(q.top), d)| == |q.top|
                   && |InsertDesc(Without(q.bottom, o), Last(q.top))| == |q.bottom|
  {
    hide InsertDesc, Without;
    if Count(q.bottom, o) > 0 {
      var d := Bond(o, StakeOf(q.bottom, o) + more);
      InsertDescMeasures(DropLast(q.top), d);
      WithoutMeasures(q.bottom, o);
      WithoutSorted(q.bottom, o);
      StakeBounds(q.bottom, o);
      InsertDescMeasures(Without(q.bottom, o), Last(q.top));
    }
  }

  lemma LowerInTop(q: Queues.Queue, o: Account, less: int)
    requires 0 <= less && Count(q.top, o) + Count(q.bottom, o) <= 1
    requires Count(q.top, o) > 0 ==>
               less <= StakeOf(q.top, o) && (q.bottom != [] ==> StakeOf(q.top, o) - less >= Highest(q.bottom))
    ensures Count(q.top, o) > 0 ==>
              && Queues.Lower(q, o, less) == Queues.Queue(SortDesc(Shift(q.top, o, 0 - less)), q.bottom)
              && Sum(SortDesc(Shift(q.top, o, 0 - less))) == Sum(q.top) - less
                   && |SortDesc(Shift(q.top, o, 0 - less))| == |q.top|
  {
    if Count(q.top, o) > 0 {
      Queues.ChangedMeasures(q.top, o, 0 - less);
    }
  }

  lemma LowerInBottom(q: Queues.Queue, o: Account, less: int)
    requires 0 <= less && Count(q.top, o) == 0 && Count(q.bottom, o) <= 1
    requires Count(q.bottom, o) > 0 ==> less <= StakeOf(q.bottom, o)
    ensures Count(q.bottom, o) > 0 ==>
              && Queues.Lower(q, o, less) == Queues.Queue(q.top, SortDesc(Shift(q.bottom, o, 0 - less)))
              && Sum(SortDesc(Shift(q.bottom, o, 0 - less))) == Sum(q.bottom) - less
              && |SortDesc(Shift(q.bottom, o, 0 - less))| == |q.bottom|
  {
    if Count(q.bottom, o) > 0 {
      Queues.ChangedMeasures(q.bottom, o, 0 - less);
    }
  }

  lemma LowerByDemotion(q: Queues.Queue, o: Account, less: Balance)
    requires Count(q.top, o) + Count(q.bottom, o) <= 1 && Desc(q.top) && Desc(q.bottom) && q.bottom != []
    requires Count(q.top, o) > 0 ==> less <= StakeOf(q.top, o) && SatSub(StakeOf(q.top, o), less) < Highest(q.bottom)
    ensures Count(q.top, o) > 0 ==>
              var d := Bond(o, SatSub(StakeOf(q.top, o), less));
              && Desc(Without(q.top, o)) && Desc(q.bottom[1..])
              && Queues.Lower(q, o, less)
                   == Queues.Queue(InsertDesc(Without(q.top, o), q.bottom[0]), InsertDesc(q.bottom[1..], d))
              && StakeOf(q.top, o) <= Sum(q.top) && q.bottom[0].amount <= Sum(q.bottom)
              && Sum(InsertDesc(Without(q.top, o), q.bottom[0])) == Sum(q.top) - StakeOf(q.top, o) + q.bottom[0].amount
              && Sum(InsertDesc(q.bottom[1..], d)) == Sum(q.bottom) - q.bottom[0].amount + d.amount
              && |InsertDesc(Without(q.top, o), q.bottom[0])| == |q.top| && |InsertDesc(q.bottom[1..], d)| == |q.bottom|
  {
    if Count(q.top, o) > 0 {
      WithoutMeasures(q.top, o);
      WithoutSorted(q.top, o);
      StakeBounds(q.top, o);
      InsertDescMeasures(Without(q.top, o), q.bottom[0]);
      HeadMeasures(q.bottom);
      InsertDescMeasures(q.bottom[1..], Bond(o, SatSub(StakeOf(q.top, o), less)));
    }
  }

  /** The decision by cached extremes and capacities is the decision by the lists. */
  lemma AcceptsByCaches(q: Queues.Queue, d: Bond)
    requires |q.top| <= MAX_TOP && |q.bottom| <= MAX_BOTTOM && (q.bottom != [] ==> |q.top| == MAX_TOP)
    ensures Queues.Accepts(q, d) <==> !(Capacity(|q.top|, MAX_TOP) == Full && d.amount <= Lowest(q.top)
                                        && Capacity(|q.bottom|, MAX_BOTTOM) == Full && d.amount <= Lowest(q.bottom))
    ensures Queues.Evicted(q).Some? <==> Capacity(|q.bottom|, MAX_BOTTOM) == Full
    ensures Queues.Evicted(q).Some? ==> Queues.EvictedAmount(q) == Lowest(q.bottom)
  {
  }

  lemma EnqueueBottom(q: Queues.Queue, d: Bond, excess: nat)
    requires |q.top| == MAX_TOP && |q.bottom| <= MAX_BOTTOM && d.amount <= Lowest(q.top)
    ensures var after := Queues.Enqueue(q, d);
            && after == Queues.Queue(q.top, Queues.PushBottom(q.bottom, d))
            && SatSub(Sum(q.bottom) + excess, Queues.EvictedAmount(q)) + d.amount == Sum(after.bottom) + excess
            && |after.bottom| == |q.bottom| + (if Queues.Evicted(q).Some? then 0 else 1)
  {
    InsertDescMeasures(if |q.bottom| >= MAX_BOTTOM then DropLast(q.bottom) else q.bottom, d);
  }

  lemma EvictedBottom(q: Queues.Queue)
    requires |q.top| == MAX_TOP && |q.bottom| <= MAX_BOTTOM
    ensures Queues.Evicted(q).Some? <==> Capacity(|q.bottom|, MAX_BOTTOM) == Full
    ensures Queues.Evicted(q).Some? ==> Queues.EvictedAmount(q) == Lowest(q.bottom)
  {
  }

  lemma RoomFrame(s: Ledger, c: Account)
    requires Listed(s, c)
    ensures MadeRoom(s, c)
            == s.(delegators := MadeRoom(s, c).delegators, reserved := MadeRoom(s, c).reserved,
                  free := MadeRoom(s, c).free)
    ensures Queues.Evicted(QueueAt(s, c)).None? ==> MadeRoom(s, c) == s
  {
  }

  /** The lists after an admission into the top, with the sums the code keeps beside them. */
  lemma EnqueueTop(q: Queues.Queue, d: Bond, excess: nat)
    requires Desc(q.top) && Desc(q.bottom) && |q.top| <= MAX_TOP && |q.bottom| <= MAX_BOTTOM
    requires q.bottom != [] ==> |q.top| == MAX_TOP
    requires Capacity(|q.top|, MAX_TOP) == Full ==> Lowest(q.top) < d.amount
    ensures var after := Queues.Enqueue(q, d);
            if |q.top| == MAX_TOP then
              && after == Queues.Queue(InsertDesc(DropLast(q.top), d), Queues.PushBottom(q.bottom, Last(q.top)))
              && Desc(DropLast(q.top)) && Sum(q.top) == Sum(DropLast(q.top)) + Last(q.top).amount
              && Sum(after.top) == Sum(DropLast(q.top)) + d.amount && |after.top| == |q.top|
              && SatSub(Sum(q.bottom) + excess, Queues.EvictedAmount(q)) + Last(q.top).amount
                   == Sum(after.bottom) + excess
              && |after.bottom| == |q.bottom| + (if Queues.Evicted(q).Some? then 0 else 1)
            else
              && after == Queues.Queue(InsertDesc(q.top, d), q.bottom) && Queues.Evicted(q).None?
              && Sum(after.top) == Sum(q.top) + d.amount && |after.top| == |q.top| + 1
  {
    hide InsertDesc;
    if |q.top| == MAX_TOP {
      InsertDescMeasures(DropLast(q.top), d);
      InsertDescMeasures(if |q.bottom| >= MAX_BOTTOM then DropLast(q.bottom) else q.bottom, Last(q.top));
    } else {
      InsertDescMeasures(q.top, d);
    }
  }

  /** The records and holds after `k` was kicked from `c`. */
  ghost function Kicked(s: Ledger, c: Account, k: Bond): Ledger {
    Unreserve(s, k.owner, k.amount).(delegators := DropFrom(s.delegators, k.owner, c))
  }

  /** ... or as they were, when both lists are not full. */
  ghost function MadeRoom(s: Ledger, c: Account): Ledger
    requires Listed(s, c)
  {
    match Queues.Evicted(QueueAt(s, c))
    case None => s
    case Some(k) => Kicked(s, c, k)
  }

  lemma BottomIsSorted(q: Queues.Queue)
    requires Queues.Ok(q)
    ensures Desc(q.bottom) && |q.bottom| <= MAX_BOTTOM && |q.top| <= MAX_TOP
    ensures q.bottom != [] ==> Desc(DropLast(q.bottom))
  {
  }

  lemma DropFromDecoded(delegators: map<Account, Delegator>, d: Account, c: Account)
    requires d in delegators
    ensures DropFrom(delegators, d, c) ==
            var r := delegators[d];
            if |r.delegations| == 1 then delegators - {d}
            else delegators[d := Delegators.Delegator(
                              r.id, Without(r.delegations, c), SatSub(r.total, StakeOf(r.delegations, c)),
                              Delegators.DropRequest(r.requests, c), r.status)]
  {
  }

  // ----- from decoded values to the written ledger -----

  lemma BottomIsEmpty(bottom: seq<Bond>)
    ensures Capacity(|bottom|, MAX_BOTTOM) == Empty <==> bottom == []
  {
  }

  /** Lists with their sums and recomputed caches are what `PutQueue` writes. */
  lemma WritesQueue(s: Ledger, w: Ledger, c: Account, q: Queues.Queue, excess: nat)
    requires Listed(s, c) && w == s.(info := w.info, top := w.top, bottom := w.bottom, pool := w.pool)
    requires var m := Candidates.Recomputed(s.info[c].bond, s.info[c].request, s.info[c].status, q);
             w.info == s.info[c := m] && w.pool == Reindex(s.pool, c, m)
    requires NowAt(s.top, w.top, c, DelegationData(q.top, Sum(q.top)))
    requires NowAt(s.bottom, w.bottom, c, DelegationData(q.bottom, Sum(q.bottom) + excess))
    ensures w == PutQueue(s, c, q, excess)
  {
    assert s.top == s.top[c := s.top[c]] && s.bottom == s.bottom[c := s.bottom[c]];
  }

  lemma WrittenTop(s: Ledger, top: map<Account, DelegationData>, c: Account, v: DelegationData)
    requires top == s.top[c := v]
    ensures NowAt(s.top, top, c, v)
  {
  }

  lemma Untouched(m: map<Account, DelegationData>, c: Account)
    requires c in m
    ensures NowAt(m, m, c, m[c])
  {
  }

  /** Written as `v` at `c`, or left alone where it was `v` already. */
  ghost predicate NowAt(m: map<Account, DelegationData>, w: map<Account, DelegationData>, c: Account,
      v: DelegationData) {
    w == m[c := v] || (w == m && c in m && m[c] == v)
  }

  lemma DequeueBottom(q: Queues.Queue, o: Account)
    requires Count(q.top, o) + Count(q.bottom, o) <= 1
    ensures var after := Queues.Dequeue(q, o);
            Count(q.bottom, o) == 1 ==>
              && after == Queues.Queue(q.top, Without(q.bottom, o)) && StakeOf(q.bottom, o) <= Sum(q.bottom)
              && Sum(Without(q.bottom, o)) == Sum(q.bottom) - StakeOf(q.bottom, o)
              && |Without(q.bottom, o)| == |q.bottom| - 1
  {
    WithoutMeasures(q.bottom, o);
    StakeBounds(q.bottom, o);
  }

  lemma DequeueTop(q: Queues.Queue, o: Account)
    requires Count(q.top, o) + Count(q.bottom, o) <= 1 && Desc(q.top) && Desc(q.bottom)
    ensures var after := Queues.Dequeue(q, o);
            Count(q.top, o) == 1 ==>
              && (if q.bottom == [] then after == Queues.Queue(Without(q.top, o), q.bottom)
                  else after == Queues.Queue(InsertDesc(Without(q.top, o), q.bottom[0]), q.bottom[1..]))
              && Desc(Without(q.top, o)) && StakeOf(q.top, o) <= Sum(q.top)
              && Sum(Without(q.top, o)) == Sum(q.top) - StakeOf(q.top, o)
              && (q.bottom != [] ==> Sum(q.bottom) == q.bottom[0].amount + Sum(q.bottom[1..])
                                     && Sum(after.top) == Sum(q.top) - StakeOf(q.top, o) + q.bottom[0].amount)
              && |after.top| + |after.bottom| == |q.top| + |q.bottom| - 1
  {
    WithoutMeasures(q.top, o);
    StakeBounds(q.top, o);
    WithoutSorted(q.top, o);
    if q.bottom != [] {
      HeadMeasures(q.bottom);
      InsertDescMeasures(Without(q.top, o), q.bottom[0]);
    }
  }
}

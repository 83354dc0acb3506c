/** A delegator's record while a call works on it: decoded, changed in place, encoded again. */
module DelegatorStates {
  import opened Bonds
  import opened Params
  import opened OrderedSets
  import opened Calls
  import Delegators

  class DelegatorState {
    var id: Account
    var delegations: seq<Bond>
    var total: Balance
    var requests: Delegators.Pending
    var status: Delegators.DelegatorStatus

    constructor Decode(d: Delegators.Delegator)
      ensures Encode() == d
    {
      id, delegations, total, requests, status := d.id, d.delegations, d.total, d.requests, d.status;
    }

    function Encode(): Delegators.Delegator
      reads this
    {
      Delegators.Delegator(id, delegations, total, requests, status)
    }

    /** Adds a delegation unless the candidate is delegated to already. */
    method AddDelegation(bond: Bond) returns (added: bool)
      requires ByOwner(delegations)
      modifies this`delegations, this`total
      ensures added <==> Count(old(delegations), bond.owner) == 0
      ensures Encode() == if added then Delegators.Add(old(Encode()), bond.owner, bond.amount) else old(Encode())
    {
      var current := new OrderedSet.FromSortedSet(delegations);
      added := current.Insert(bond);
      if added {
        delegations := current.items;
        total := total + bond.amount;
      }
    }

    /** Removes the delegation to `candidate`; what is left of the total, or `None` without one. */
    method RmDelegation(candidate: Account) returns (remaining: Option<Balance>)
      requires ByOwner(delegations)
      modifies this`delegations, this`total
      ensures delegations == Without(old(delegations), candidate)
      ensures total == SatSub(old(total), StakeOf(old(delegations), candidate))
      ensures remaining == if Count(old(delegations), candidate) > 0 then Some(total) else None
    {
      var amount: Option<Balance> := None;
      var all, kept: seq<Bond> := delegations, [];
      for i := 0 to |all|
        invariant delegations == all && total == old(total)
        invariant kept == Without(all[..i], candidate)
        invariant Count(all[..i], candidate) <= 1
        invariant amount == if Count(all[..i], candidate) == 1 then Some(StakeOf(all[..i], candidate)) else None
      {
        var x := all[i];
        assert DropLast(all[..i + 1]) == all[..i];
        OnePerOwner(all, candidate);
        PrefixCount(all, i + 1, candidate);
        StakeBounds(all[..i], candidate);
        if x.owner == candidate {
          amount := Some(x.amount);
        } else {
          kept := kept + [x];
        }
      }
      assert all[..|all|] == all;
      StakeBounds(delegations, candidate);
      if amount.Some? {
        WithoutKeepsOrder(delegations, candidate);
        var rest := new OrderedSet.From(kept);
        delegations := rest.items;
        total := SatSub(total, amount.value);
        remaining := Some(total);
      } else {
        AbsentOwner(delegations, candidate);
        remaining := None;
      }
    }

    /** Forgets the request on `candidate`, if there is one, and takes it out of the totals. */
    method RemoveRequest(candidate: Account) returns (removed: Option<Delegators.DelegationRequest>)
      modifies this`requests
      ensures requests == Delegators.DropRequest(old(requests), candidate)
      ensures removed == if candidate in old(requests).requests then Some(old(requests).requests[candidate]) else None
    {
      if candidate !in requests.requests {
        return None;
      }
      var request := requests.requests[candidate];
      requests := requests.(requests := requests.requests - {candidate});
      requests := requests.(lessTotal := SatSub(requests.lessTotal, request.amount));
      if request.action.Revoke? {
        requests := requests.(revocationsCount := SatSub(requests.revocationsCount, 1));
      }
      removed := Some(request);
    }

    /** The delegation to `candidate`, found by scanning. */
    method FindDelegation(candidate: Account) returns (amount: Option<Balance>)
      requires ByOwner(delegations)
      ensures amount == if Count(delegations, candidate) > 0 then Some(StakeOf(delegations, candidate)) else None
    {
      for i := 0 to |delegations|
        invariant forall k :: 0 <= k < i ==> delegations[k].owner != candidate
      {
        if delegations[i].owner == candidate {
          EntryCounts(delegations, i);
          OnePerOwner(delegations, candidate);
          return Some(delegations[i].amount);
        }
      }
      NoneOf(delegations, candidate);
      return None;
    }

    /** Moves the amount of the delegation to `candidate`, and the total, by `delta`; reports the
        amount before. */
    method ChangeDelegation(candidate: Account, delta: int) returns (before: Option<Balance>)
      requires ByOwner(delegations)
      modifies this`delegations, this`total
      ensures before == if Count(old(delegations), candidate) > 0 then Some(StakeOf(old(delegations), candidate))
              else None
      ensures delegations == Shift(old(delegations), candidate, delta)
      ensures total == if before.Some? then Moved(old(total), delta) else old(total)
    {
      for i := 0 to |delegations|
        invariant delegations == old(delegations) && total == old(total)
        invariant forall k :: 0 <= k < i ==> delegations[k].owner != candidate
      {
        var x := delegations[i];
        if x.owner == candidate {
          EntryCounts(delegations, i);
          OnePerOwner(delegations, candidate);
          ShiftAt(delegations, i, delta);
          delegations := delegations[i := Bond(x.owner, Moved(x.amount, delta))];
          total := Moved(total, delta);
          return Some(x.amount);
        }
      }
      NoneOf(delegations, candidate);
      AbsentOwner(delegations, candidate);
      return None;
    }

    method ScheduleLeave(now: nat)
      modifies this`status
      ensures status == Delegators.Exiting(now + LEAVE_DELEGATORS_DELAY)
    {
      status := Delegators.Exiting(now + LEAVE_DELEGATORS_DELAY);
    }

    method CancelLeave()
      modifies this`status
      ensures status == Delegators.Staying
    {
      status := Delegators.Staying;
    }

    method CanExecuteLeave(now: nat, hint: nat) returns (r: Outcome)
      ensures r == if hint < |delegations| then Failure(TooLowDelegationCountToLeaveDelegators)
                   else if !status.Exiting? then Failure(DelegatorNotLeaving)
                   else if now < status.when then Failure(DelegatorCannotLeaveYet)
                   else Success
    {
      if hint < |delegations| {
        return Failure(TooLowDelegationCountToLeaveDelegators);
      }
      match status {
        case Exiting(when) =>
          r := if now >= when then Success else Failure(DelegatorCannotLeaveYet);
        case Staying =>
          r := Failure(DelegatorNotLeaving);
      }
    }

    /** At most one request per delegation. */
    method PutRequest(request: Delegators.DelegationRequest) returns (r: Outcome)
      modifies this`requests
      ensures r == if request.collator in old(requests).requests then Failure(PendingDelegationRequestAlreadyExists)
              else Success
      ensures requests == if r.Success? then Delegators.AddRequest(old(requests), request) else old(requests)
    {
      if request.collator in requests.requests {
        return Failure(PendingDelegationRequestAlreadyExists);
      }
      requests := requests.(requests := requests.requests[request.collator := request]);
      if request.action.Revoke? {
        requests := requests.(revocationsCount := requests.revocationsCount + 1);
      }
      requests := requests.(lessTotal := requests.lessTotal + request.amount);
      return Success;
    }

    method ScheduleRevoke(now: nat, candidate: Account) returns (r: Outcome)
      requires ByOwner(delegations)
      modifies this`requests
      ensures r == if Count(delegations, candidate) == 0 then Failure(DelegationDNE)
                   else if candidate in old(requests).requests then Failure(PendingDelegationRequestAlreadyExists)
                   else Success
      ensures requests == if r.Failure? then old(requests)
                          else Delegators.AddRequest(old(requests), Delegators.DelegationRequest(
                                 candidate, StakeOf(delegations, candidate), now + REVOKE_DELEGATION_DELAY,
                                   Delegators.Revoke))
    {
      var found := FindDelegation(candidate);
      if found.None? {
        return Failure(DelegationDNE);
      }
      r := PutRequest(Delegators.DelegationRequest(candidate, found.value, now + REVOKE_DELEGATION_DELAY,
                                                   Delegators.Revoke));
    }

    /** A decrease must leave the minimum on the delegation and, counting everything pending, on the
        delegator. */
    method ScheduleDecrease(now: nat, candidate: Account, less: Balance) returns (r: Outcome)
      requires ByOwner(delegations)
      modifies this`requests
      ensures r == if Count(delegations, candidate) == 0 then Failure(DelegationDNE)
                   else if StakeOf(delegations, candidate) <= less then Failure(DelegatorBondBelowMin)
                   else if StakeOf(delegations, candidate) - less < MIN_DELEGATION then Failure(DelegationBelowMin)
                   else if less > SatSub(SatSub(total, old(requests).lessTotal), MIN_DELEGATOR_STK) then
                     Failure(DelegatorBondBelowMin)
                   else if candidate in old(requests).requests then Failure(PendingDelegationRequestAlreadyExists)
                   else Success
      ensures requests == if r.Failure? then old(requests)
                          else Delegators.AddRequest(old(requests), Delegators.DelegationRequest(
                                 candidate, less, now + DELEGATION_BOND_LESS_DELAY, Delegators.Decrease))
    {
      var found := FindDelegation(candidate);
      if found.None? {
        return Failure(DelegationDNE);
      }
      var amount := found.value;
      if amount <= less {
        return Failure(DelegatorBondBelowMin);
      }
      var expected := amount - less;
      if expected < MIN_DELEGATION {
        return Failure(DelegationBelowMin);
      }
      var netTotal := SatSub(total, requests.lessTotal);
      var maxSubtracted := SatSub(netTotal, MIN_DELEGATOR_STK);
      if less > maxSubtracted {
        return Failure(DelegatorBondBelowMin);
      }
      r := PutRequest(Delegators.DelegationRequest(candidate, less, now + DELEGATION_BOND_LESS_DELAY,
                                                   Delegators.Decrease));
    }

    method CancelPendingRequest(candidate: Account) returns (r: Outcome)
      modifies this`requests
      ensures r == if candidate in old(requests).requests then Success else Failure(PendingDelegationRequestDNE)
      ensures requests == Delegators.DropRequest(old(requests), candidate)
    {
      var removed := RemoveRequest(candidate);
      r := if removed.Some? then Success else Failure(PendingDelegationRequestDNE);
    }
  }

  lemma PrefixCount(s: seq<Bond>, i: nat, o: Account)
    requires i <= |s|
    ensures Count(s[..i], o) <= Count(s, o)
  {
    ConcatMeasures(s[..i], s[i..]);
    assert s == s[..i] + s[i..];
  }

  lemma {:induction false} ShiftAt(s: seq<Bond>, i: nat, delta: int)
    requires ByOwner(s) && i < |s|
    ensures Shift(s, s[i].owner, delta) == s[i := Bond(s[i].owner, Moved(s[i].amount, delta))]
  {
    if i == |s| - 1 {
      NoneOf(DropLast(s), s[i].owner);
      AbsentOwner(DropLast(s), s[i].owner);
    } else {
      ShiftAt(DropLast(s), i, delta);
    }
  }
}

/** The extrinsics of the pallet over its storage. Each does to the stored items exactly what its
    function in `Calls` does to the ledger, and so keeps the ledger's invariants. */
module Extrinsics {
  import opened Bonds
  import opened Params
  import opened OrderedSets
  import opened DelegationLists
  import opened Ledgers
  import opened Storages
  import opened CandidateMetadatas
  import opened DelegatorStates
  import Calls
  import CandidateCalls
  import DelegatorCalls
  import Candidates
  import Delegators

  type Outcome = Calls.Outcome

  // ----- candidates -----

  method JoinCandidates(st: Storage, acc: Account, bond: Balance, hint: nat) returns (r: Outcome)
    requires Consistent(st.View())
    modifies st
    ensures Calls.Result(st.View(), r) == Calls.JoinCandidates(old(st.View()), acc, bond, hint)
    ensures Keeps(old(st.View()), st.View())
  {
    hide Consistent, Keeps, Put, SatSub, PoolOk, Count, Reserve;
    ghost var s := st.View();
    CandidateCalls.JoinCandidatesKeeps(s, acc, bond, hint);
    if acc in st.candidateInfo {
      return Calls.Failure(Calls.CandidateExists);
    }
    if acc in st.delegatorState {
      return Calls.Failure(Calls.DelegatorExists);
    }
    if bond < MIN_CANDIDATE_STK {
      return Calls.Failure(Calls.CandidateBondBelowMin);
    }
    PoolIsOk(s);
    CandidateCalls.JoinPool(s, acc, Candidates.Fresh(bond).info);
    var candidates := new OrderedSet.FromSortedSet(st.candidatePool);
    if hint < |candidates.items| {
      return Calls.Failure(Calls.TooLowCandidateCountWeightHintJoinCandidates);
    }
    var inserted := candidates.Insert(Bond(acc, bond));
    if !inserted {
      return Calls.Failure(Calls.CandidateExists);
    }
    var ok := st.ReserveCurrency(acc, bond);
    if !ok {
      return Calls.Failure(Calls.InsufficientBalance);
    }
    StoreCandidate(st, acc, bond, candidates.items);
    ReservedFirst(s, acc, bond, candidates.items);
    return Calls.Success;
  }

  /** The records of a new candidate. */
  method StoreCandidate(st: Storage, acc: Account, bond: Balance, pool: seq<Bond>)
    modifies st
    ensures st.View() == StoredCandidate(old(st.View()), acc, bond, pool)
  {
    st.candidateInfo := st.candidateInfo[acc := Candidates.Fresh(bond).info];
    st.topDelegations := st.topDelegations[acc := DelegationData([], 0)];
    st.bottomDelegations := st.bottomDelegations[acc := DelegationData([], 0)];
    st.candidatePool := pool;
    st.total := st.total + bond;
  }

  function StoredCandidate(s: Ledger, acc: Account, bond: Balance, pool: seq<Bond>): Ledger {
    PutCandidate(s, acc, Candidates.Fresh(bond)).(pool := pool, total := s.total + bond)
  }

  lemma ReservedFirst(s: Ledger, acc: Account, bond: Balance, pool: seq<Bond>)
    ensures StoredCandidate(Reserve(s, acc, bond), acc, bond, pool)
            == Reserve(StoredCandidate(s, acc, bond, pool), acc, bond)
  {
  }

  lemma PoolIsOk(s: Ledger)
    requires Consistent(s)
    ensures PoolOk(s.pool, s.info) && ByOwner(s.pool)
  {
  }

  lemma IsSynced(s: Ledger, c: Account)
    requires Consistent(s) && c in s.info
    ensures Listed(s, c) && Candidates.Ok(CandidateAt(s, c)) && PoolOk(s.pool, s.info)
  {
  }

  method ScheduleLeaveCandidates(st: Storage, candidate: Account, hint: nat) returns (r: Outcome)
    requires Consistent(st.View())
    modifies st
    ensures Calls.Result(st.View(), r) == Calls.ScheduleLeaveCandidates(old(st.View()), candidate, hint)
    ensures Keeps(old(st.View()), st.View())
  {
    hide Consistent, Keeps, Without;
    ghost var s := st.View();
    CandidateCalls.ScheduleLeaveCandidatesKeeps(s, candidate, hint);
    PoolIsOk(s);
    if candidate !in st.candidateInfo {
      return Calls.Failure(Calls.CandidateDNE);
    }
    var state := new CandidateMetadata.Decode(st.candidateInfo[candidate]);
    r := state.ScheduleLeave(st.round);
    if r.Failure? {
      return;
    }
    var candidates := new OrderedSet.FromSortedSet(st.candidatePool);
    if hint < |candidates.items| {
      return Calls.Failure(Calls.TooLowCandidateCountToLeaveCandidates);
    }
    var removed := candidates.Remove(candidate);
    AbsentStays(s.pool, candidate);
    if removed {
      st.candidatePool := candidates.items;
    }
    st.candidateInfo := st.candidateInfo[candidate := state.Encode()];
    return Calls.Success;
  }

  lemma AbsentStays(s: seq<Bond>, o: Account)
    ensures Count(s, o) == 0 ==> Without(s, o) == s
  {
    if Count(s, o) == 0 {
      AbsentOwner(s, o);
    }
  }

  method CancelLeaveCandidates(st: Storage, candidate: Account, hint: nat) returns (r: Outcome)
    requires Consistent(st.View())
    modifies st
    ensures Calls.Result(st.View(), r) == Calls.CancelLeaveCandidates(old(st.View()), candidate, hint)
    ensures Keeps(old(st.View()), st.View())
  {
    hide Consistent, Keeps, Put;
    ghost var s := st.View();
    CandidateCalls.CancelLeaveCandidatesKeeps(s, candidate, hint);
    PoolIsOk(s);
    if candidate !in st.candidateInfo {
      return Calls.Failure(Calls.CandidateDNE);
    }
    var state := new CandidateMetadata.Decode(st.candidateInfo[candidate]);
    if !state.status.Leaving? {
      return Calls.Failure(Calls.CandidateNotLeaving);
    }
    state.GoOnline();
    var candidates := new OrderedSet.FromSortedSet(st.candidatePool);
    if hint < |candidates.items| {
      return Calls.Failure(Calls.TooLowCandidateCountWeightHintCancelLeaveCandidates);
    }
    CandidateCalls.EntersPool(s, candidate, state.Encode());
    var inserted := candidates.Insert(Bond(candidate, state.totalCounted));
    if !inserted {
      return Calls.Failure(Calls.AlreadyActive);
    }
    st.candidatePool := candidates.items;
    st.candidateInfo := st.candidateInfo[candidate := state.Encode()];
    return Calls.Success;
  }

  method GoOffline(st: Storage, candidate: Account) returns (r: Outcome)
    requires Consistent(st.View())
    modifies st
    ensures Calls.Result(st.View(), r) == Calls.GoOffline(old(st.View()), candidate)
    ensures Keeps(old(st.View()), st.View())
  {
    hide Consistent, Keeps, Without;
    ghost var s := st.View();
    CandidateCalls.GoOfflineKeeps(s, candidate);
    PoolIsOk(s);
    if candidate !in st.candidateInfo {
      return Calls.Failure(Calls.CandidateDNE);
    }
    var state := new CandidateMetadata.Decode(st.candidateInfo[candidate]);
    if !state.status.Active? {
      return Calls.Failure(Calls.AlreadyOffline);
    }
    state.GoOffline();
    var candidates := new OrderedSet.FromSortedSet(st.candidatePool);
    var removed := candidates.Remove(candidate);
    AbsentStays(s.pool, candidate);
    if removed {
      st.candidatePool := candidates.items;
    }
    st.candidateInfo := st.candidateInfo[candidate := state.Encode()];
    return Calls.Success;
  }

  method GoOnline(st: Storage, candidate: Account) returns (r: Outcome)
    requires Consistent(st.View())
    modifies st
    ensures Calls.Result(st.View(), r) == Calls.GoOnline(old(st.View()), candidate)
    ensures Keeps(old(st.View()), st.View())
  {
    hide Consistent, Keeps, Put;
    ghost var s := st.View();
    CandidateCalls.GoOnlineKeeps(s, candidate);
    PoolIsOk(s);
    if candidate !in st.candidateInfo {
      return Calls.Failure(Calls.CandidateDNE);
    }
    var state := new CandidateMetadata.Decode(st.candidateInfo[candidate]);
    if state.status.Active? {
      return Calls.Failure(Calls.AlreadyActive);
    }
    if state.status.Leaving? {
      return Calls.Failure(Calls.CannotGoOnlineIfLeaving);
    }
    state.GoOnline();
    var candidates := new OrderedSet.FromSortedSet(st.candidatePool);
    CandidateCalls.EntersPool(s, candidate, state.Encode());
    var inserted := candidates.Insert(Bond(candidate, state.totalCounted));
    if !inserted {
      return Calls.Failure(Calls.AlreadyActive);
    }
    st.candidatePool := candidates.items;
    st.candidateInfo := st.candidateInfo[candidate := state.Encode()];
    return Calls.Success;
  }

  method CandidateBondMore(st: Storage, candidate: Account, more: Balance) returns (r: Outcome)
    requires Consistent(st.View())
    modifies st
    ensures Calls.Result(st.View(), r) == Calls.CandidateBondMore(old(st.View()), candidate, more)
    ensures Keeps(old(st.View()), st.View())
  {
    hide Consistent, Keeps, UpdateActive;
    ghost var s := st.View();
    CandidateCalls.CandidateBondMoreKeeps(s, candidate, more);
    PoolIsOk(s);
    if candidate !in st.candidateInfo {
      return Calls.Failure(Calls.CandidateDNE);
    }
    var state := new CandidateMetadata.Decode(st.candidateInfo[candidate]);
    r := state.BondMore(st, candidate, more);
    if r.Failure? {
      return;
    }
    var isActive, totalCounted := state.status.Active?, state.totalCounted;
    st.candidateInfo := st.candidateInfo[candidate := state.Encode()];
    if isActive {
      st.UpdateActiveCandidate(candidate, totalCounted);
    }
  }

  method ScheduleCandidateBondLess(st: Storage, candidate: Account, less: Balance) returns (r: Outcome)
    requires Consistent(st.View())
    modifies st
    ensures Calls.Result(st.View(), r) == Calls.ScheduleCandidateBondLess(old(st.View()), candidate, less)
    ensures Keeps(old(st.View()), st.View())
  {
    hide Consistent, Keeps;
    CandidateCalls.ScheduleCandidateBondLessKeeps(st.View(), candidate, less);
    if candidate !in st.candidateInfo {
      return Calls.Failure(Calls.CandidateDNE);
    }
    var state := new CandidateMetadata.Decode(st.candidateInfo[candidate]);
    r := state.ScheduleBondLess(st.round, less);
    if r.Failure? {
      return;
    }
    st.candidateInfo := st.candidateInfo[candidate := state.Encode()];
  }

  method ExecuteCandidateBondLess(st: Storage, candidate: Account) returns (r: Outcome)
    requires Consistent(st.View())
    modifies st
    ensures Calls.Result(st.View(), r) == Calls.ExecuteCandidateBondLess(old(st.View()), candidate)
    ensures Keeps(old(st.View()), st.View())
  {
    hide Consistent, Keeps, UpdateActive;
    CandidateCalls.ExecuteCandidateBondLessKeeps(st.View(), candidate);
    PoolIsOk(st.View());
    if candidate !in st.candidateInfo {
      return Calls.Failure(Calls.CandidateDNE);
    }
    var state := new CandidateMetadata.Decode(st.candidateInfo[candidate]);
    r := state.ExecuteBondLess(st, candidate);
    if r.Failure? {
      return;
    }
    st.candidateInfo := st.candidateInfo[candidate := state.Encode()];
  }

  method CancelCandidateBondLess(st: Storage, candidate: Account) returns (r: Outcome)
    requires Consistent(st.View())
    modifies st
    ensures Calls.Result(st.View(), r) == Calls.CancelCandidateBondLess(old(st.View()), candidate)
    ensures Keeps(old(st.View()), st.View())
  {
    hide Consistent, Keeps;
    CandidateCalls.CancelCandidateBondLessKeeps(st.View(), candidate);
    if candidate !in st.candidateInfo {
      return Calls.Failure(Calls.CandidateDNE);
    }
    var state := new CandidateMetadata.Decode(st.candidateInfo[candidate]);
    r := state.CancelBondLess();
    if r.Failure? {
      return;
    }
    st.candidateInfo := st.candidateInfo[candidate := state.Encode()];
  }

  // ----- delegators -----

  method ScheduleLeaveDelegators(st: Storage, delegator: Account) returns (r: Outcome)
    requires Consistent(st.View())
    modifies st
    ensures Calls.Result(st.View(), r) == Calls.ScheduleLeaveDelegators(old(st.View()), delegator)
    ensures Keeps(old(st.View()), st.View())
  {
    hide Consistent, Keeps;
    DelegatorCalls.ScheduleLeaveDelegatorsKeeps(st.View(), delegator);
    if delegator !in st.delegatorState {
      return Calls.Failure(Calls.DelegatorDNE);
    }
    var state := new DelegatorState.Decode(st.delegatorState[delegator]);
    if state.status.Exiting? {
      return Calls.Failure(Calls.DelegatorAlreadyLeaving);
    }
    state.ScheduleLeave(st.round);
    st.delegatorState := st.delegatorState[delegator := state.Encode()];
    return Calls.Success;
  }

  method CancelLeaveDelegators(st: Storage, delegator: Account) returns (r: Outcome)
    requires Consistent(st.View())
    modifies st
    ensures Calls.Result(st.View(), r) == Calls.CancelLeaveDelegators(old(st.View()), delegator)
    ensures Keeps(old(st.View()), st.View())
  {
    hide Consistent, Keeps;
    DelegatorCalls.CancelLeaveDelegatorsKeeps(st.View(), delegator);
    if delegator !in st.delegatorState {
      return Calls.Failure(Calls.DelegatorDNE);
    }
    var state := new DelegatorState.Decode(st.delegatorState[delegator]);
    if !state.status.Exiting? {
      return Calls.Failure(Calls.DelegatorDNE);
    }
    state.CancelLeave();
    st.delegatorState := st.delegatorState[delegator := state.Encode()];
    return Calls.Success;
  }

  lemma RecordIsSet(s: Ledger, d: Account)
    requires Consistent(s) && d in s.delegators
    ensures Delegators.Ok(s.delegators[d], d) && ByOwner(s.delegators[d].delegations)
  {
  }

  method ScheduleRevokeDelegation(st: Storage, delegator: Account, candidate: Account) returns (r: Outcome)
    requires Consistent(st.View())
    modifies st
    ensures Calls.Result(st.View(), r) == Calls.ScheduleRevokeDelegation(old(st.View()), delegator, candidate)
    ensures Keeps(old(st.View()), st.View())
  {
    hide Consistent, Keeps, Delegators.Ok, Count, StakeOf, Delegators.AddRequest;
    DelegatorCalls.ScheduleRevokeDelegationKeeps(st.View(), delegator, candidate);
    if delegator !in st.delegatorState {
      return Calls.Failure(Calls.DelegatorDNE);
    }
    RecordIsSet(st.View(), delegator);
    var state := new DelegatorState.Decode(st.delegatorState[delegator]);
    r := state.ScheduleRevoke(st.round, candidate);
    if r.Failure? {
      return;
    }
    st.delegatorState := st.delegatorState[delegator := state.Encode()];
  }

  method ScheduleDelegatorBondLess(st: Storage, delegator: Account, candidate: Account, less: Balance)
      returns (r: Outcome)
    requires Consistent(st.View())
    modifies st
    ensures Calls.Result(st.View(), r) == Calls.ScheduleDelegatorBondLess(old(st.View()), delegator, candidate, less)
    ensures Keeps(old(st.View()), st.View())
  {
    hide Consistent, Keeps, Delegators.Ok, Count, StakeOf, Delegators.AddRequest;
    DelegatorCalls.ScheduleDelegatorBondLessKeeps(st.View(), delegator, candidate, less);
    if delegator !in st.delegatorState {
      return Calls.Failure(Calls.DelegatorDNE);
    }
    RecordIsSet(st.View(), delegator);
    var state := new DelegatorState.Decode(st.delegatorState[delegator]);
    r := state.ScheduleDecrease(st.round, candidate, less);
    if r.Failure? {
      return;
    }
    st.delegatorState := st.delegatorState[delegator := state.Encode()];
  }

  method CancelDelegationRequest(st: Storage, delegator: Account, candidate: Account) returns (r: Outcome)
    requires Consistent(st.View())
    modifies st
    ensures Calls.Result(st.View(), r) == Calls.CancelDelegationRequest(old(st.View()), delegator, candidate)
    ensures Keeps(old(st.View()), st.View())
  {
    hide Consistent, Keeps, Delegators.DropRequest;
    DelegatorCalls.CancelDelegationRequestKeeps(st.View(), delegator, candidate);
    if delegator !in st.delegatorState {
      return Calls.Failure(Calls.DelegatorDNE);
    }
    var state := new DelegatorState.Decode(st.delegatorState[delegator]);
    r := state.CancelPendingRequest(candidate);
    if r.Failure? {
      return;
    }
    st.delegatorState := st.delegatorState[delegator := state.Encode()];
  }
}

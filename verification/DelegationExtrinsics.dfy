/** The extrinsics that move stake between a delegator and a candidate, and the two exits. */
module DelegationExtrinsics {
  import opened Bonds
  import opened Params
  import opened OrderedSets
  import opened DelegationLists
  import opened Ledgers
  import opened Transitions
  import opened Storages
  import opened CandidateMetadatas
  import opened DelegatorStates
  import Calls
  import DelegatorCalls
  import Exits
  import Extrinsics
  import Queues
  import Candidates
  import Delegators

  type Outcome = Calls.Outcome

  // ----- delegating -----

  /** The record a delegation by `delegator` would lead to, or why it may not delegate. */
  method CheckDelegator(st: Storage, delegator: Account, candidate: Account, amount: Balance, hint: nat)
    returns (r: Outcome, after: Delegator)
    requires Consistent(st.View())
    ensures var s := st.View();
            r == if delegator in s.delegators && s.delegators[delegator].status.Exiting? then
              Calls.Failure(Calls.CannotDelegateIfLeaving)
                 else if delegator in s.delegators
                   && amount < MIN_DELEGATION then Calls.Failure(Calls.DelegationBelowMin)
                 else if delegator in s.delegators && hint < |s.delegators[delegator].delegations| then
                   Calls.Failure(Calls.TooLowDelegationCountToDelegate)
                 else if delegator in s.delegators
                   && |s.delegators[delegator].delegations| >= MAX_DELEGATIONS_PER_DELEGATOR then
                   Calls.Failure(Calls.ExceedMaxDelegationsPerDelegator)
                 else if delegator in s.delegators && Count(s.delegators[delegator].delegations, candidate) > 0 then
                   Calls.Failure(Calls.AlreadyDelegatedCandidate)
                 else if delegator !in s.delegators
                   && amount < MIN_DELEGATOR_STK then Calls.Failure(Calls.DelegatorBondBelowMin)
                 else if delegator !in s.delegators && delegator in s.info then Calls.Failure(Calls.CandidateExists)
                 else Calls.Success
    ensures r.Success? ==>
              after == if delegator in st.delegatorState then
                Delegators.Add(st.delegatorState[delegator], candidate, amount)
                                    else Delegators.New(delegator, candidate, amount)
  {
    hide Consistent, Delegators.Ok, Count, Delegators.Add;
    if delegator in st.delegatorState {
      Extrinsics.RecordIsSet(st.View(), delegator);
      var state := new DelegatorState.Decode(st.delegatorState[delegator]);
      after := state.Encode();
      if state.status.Exiting? {
        return Calls.Failure(Calls.CannotDelegateIfLeaving), after;
      }
      if amount < MIN_DELEGATION {
        return Calls.Failure(Calls.DelegationBelowMin), after;
      }
      if hint < |state.delegations| {
        return Calls.Failure(Calls.TooLowDelegationCountToDelegate), after;
      }
      if |state.delegations| >= MAX_DELEGATIONS_PER_DELEGATOR {
        return Calls.Failure(Calls.ExceedMaxDelegationsPerDelegator), after;
      }
      var added := state.AddDelegation(Bond(candidate, amount));
      if !added {
        return Calls.Failure(Calls.AlreadyDelegatedCandidate), after;
      }
      return Calls.Success, state.Encode();
    } else {
      after := Delegators.New(delegator, candidate, amount);
      if amount < MIN_DELEGATOR_STK {
        return Calls.Failure(Calls.DelegatorBondBelowMin), after;
      }
      if delegator in st.candidateInfo {
        return Calls.Failure(Calls.CandidateExists), after;
      }
      return Calls.Success, after;
    }
  }

  /** The candidate's half of a delegation, and the write-back of both records. */
  method PlaceDelegation(st: Storage, delegator: Account, candidate: Account, amount: Balance, hint: nat,
      after: Delegator)
    returns (r: Outcome)
    requires Consistent(st.View()) && CanReserve(st.View(), delegator, amount)
    modifies st
    ensures var s := old(st.View());
            && (r == if !Listed(s, candidate) then Calls.Failure(Calls.CandidateDNE)
                     else if hint < s.info[candidate].delegationCount then
                       Calls.Failure(Calls.TooLowCandidateDelegationCountToDelegate)
                     else if !Queues.Accepts(QueueAt(s, candidate), Bond(delegator, amount)) then
                       Calls.Failure(Calls.CannotDelegateLessThanLowestBottomWhenBottomIsFull)
                     else Calls.Success)
            && (r.Failure? ==> st.View() == s)
            && (r.Success? ==> st.View() == Admit(Calls.Evict(s, candidate), delegator, candidate, amount, after).(
                                              total := s.total + SatSub(amount, Calls.KickedAmount(s, candidate))))
  {
    hide Consistent, PutQueue, MadeRoom, ExcessAt, Queues.Accepts, Queues.Enqueue, Queues.Evicted, Queues.EvictedAmount,
      Admit, Calls.Evict, Candidates.Ok, PoolOk, SatSub, Get, QueueAt, Reserve;
    ghost var s := st.View();
    ListedIfInfo(s, candidate);
    if candidate !in st.candidateInfo {
      return Calls.Failure(Calls.CandidateDNE);
    }
    var state := new CandidateMetadata.Decode(st.candidateInfo[candidate]);
    if hint < state.delegationCount {
      return Calls.Failure(Calls.TooLowCandidateDelegationCountToDelegate);
    }
    Extrinsics.IsSynced(s, candidate);
    var less;
    r, less := state.AddDelegation(st, candidate, Bond(delegator, amount));
    if r.Failure? {
      return;
    }
    RoomKeepsFree(s, candidate, delegator);
    RoomFrame(s, candidate);
    PutQueueFrame(MadeRoom(s, candidate), candidate, Queues.Enqueue(QueueAt(s, candidate), Bond(delegator, amount)),
                  ExcessAt(s, candidate));
    var reserved := st.ReserveCurrency(delegator, amount);
    var netTotalIncrease := if less.Some? then SatSub(amount, less.value) else amount;
    st.total := st.total + netTotalIncrease;
    st.candidateInfo := st.candidateInfo[candidate := state.Encode()];
    st.delegatorState := st.delegatorState[delegator := after];
    AdmittedByCode(s, delegator, candidate, amount, after, st.View().total);
    NetIncrease(s, candidate, amount);
    assert st.View().total == s.total + SatSub(amount, Calls.KickedAmount(s, candidate));
    WrittenLast(PutQueue(MadeRoom(s, candidate), candidate,
                         Queues.Enqueue(QueueAt(s, candidate), Bond(delegator, amount)),
                         ExcessAt(s, candidate)), s.info, delegator, amount, after, st.View().total);
  }

  /** The order of the last writes does not matter. */
  lemma WrittenLast(w: Ledger, info: map<Account, Metadata>, d: Account, amount: Balance, after: Delegator,
      total: Balance)
    ensures Reserve(w.(info := info), d, amount).(info := w.info, delegators := w.delegators[d := after],
                                                  total := total)
            == Reserve(w, d, amount).(delegators := w.delegators[d := after], total := total)
  {
  }

  method Delegate(st: Storage, delegator: Account, candidate: Account, amount: Balance, candidateHint: nat,
      delegatorHint: nat)
    returns (r: Outcome)
    requires Consistent(st.View())
    modifies st
    ensures Calls.Result(st.View(), r)
            == Calls.Delegate(old(st.View()), delegator, candidate, amount, candidateHint, delegatorHint)
    ensures Keeps(old(st.View()), st.View())
  {
    hide Consistent, Keeps, Queues.Accepts, Admit, Calls.Evict, Count, Delegators.Add, Delegators.New, SatSub,
      Calls.KickedAmount, Listed;
    DelegatorCalls.DelegateKeeps(st.View(), delegator, candidate, amount, candidateHint, delegatorHint);
    if !(amount == 0 || Get(st.free, delegator) >= amount) {
      return Calls.Failure(Calls.InsufficientBalance);
    }
    var after;
    r, after := CheckDelegator(st, delegator, candidate, amount, delegatorHint);
    if r.Success? {
      r := PlaceDelegation(st, delegator, candidate, amount, candidateHint, after);
    }
  }

  lemma PutQueueFrame(s: Ledger, c: Account, q: Queues.Queue, excess: nat)
    requires Listed(s, c)
    ensures var p := PutQueue(s, c, q, excess);
            p == s.(info := p.info, top := p.top, bottom := p.bottom, pool := p.pool)
  {
  }

  lemma ListedIfInfo(s: Ledger, c: Account)
    requires Consistent(s)
    ensures Listed(s, c) <==> c in s.info
  {
  }

  lemma NetIncrease(s: Ledger, c: Account, amount: Balance)
    requires Listed(s, c)
    ensures Queues.Evicted(QueueAt(s, c)).None? ==> SatSub(amount, Calls.KickedAmount(s, c)) == amount
    ensures Queues.Evicted(QueueAt(s, c)).Some? ==> Calls.KickedAmount(s, c) == Queues.EvictedAmount(QueueAt(s, c))
  {
  }

  /** A kick only adds to free balances, so the newcomer can still reserve. */
  lemma RoomKeepsFree(s: Ledger, c: Account, d: Account)
    requires Listed(s, c)
    ensures Get(MadeRoom(s, c).free, d) >= Get(s.free, d)
  {
    hide DropFrom;
  }

  /** The steps of the code, put together, are the eviction and the admission. */
  lemma AdmittedByCode(s: Ledger, d: Account, c: Account, amount: Balance, after: Delegator, total: Balance)
    requires Consistent(s) && Listed(s, c)
    ensures Listed(MadeRoom(s, c), c)
    ensures var q := Queues.Enqueue(QueueAt(s, c), Bond(d, amount));
            var w := PutQueue(MadeRoom(s, c), c, q, ExcessAt(s, c));
            Reserve(w, d, amount).(delegators := w.delegators[d := after], total := total)
            == Admit(Calls.Evict(s, c), d, c, amount, after).(total := total)
  {
    hide Consistent, Calls.Evict, MadeRoom, PutQueue, Queues.Enqueue, ExcessAt, Admit, Reserve;
    RoomFrame(s, c);
    EvictVersusRoom(s, c, Bond(d, amount));
    AdmittedAfterKick(Calls.Evict(s, c), MadeRoom(s, c), d, c, amount, after, total,
                      Queues.Enqueue(QueueAt(s, c), Bond(d, amount)), ExcessAt(s, c));
  }

  /** The ledger after the eviction and the storage after the kick differ only in what the admission
      overwrites. */
  lemma EvictVersusRoom(s: Ledger, c: Account, d: Bond)
    requires Consistent(s) && Listed(s, c) && Listed(MadeRoom(s, c), c)
    ensures var v := Calls.Evict(s, c); var q := Queues.Enqueue(QueueAt(s, c), d); var excess := ExcessAt(s, c);
            && Queues.Enqueue(QueueAt(v, c), d) == q && ExcessAt(v, c) == excess
            && PutQueue(v, c, q, excess) == PutQueue(MadeRoom(s, c), c, q, excess)
  {
    hide Consistent, PutQueue, Queues.Enqueue, ExcessAt, Sever, Kicked, Queues.Dequeue;
    if Queues.Evicted(QueueAt(s, c)).Some? {
      var k := Queues.Evicted(QueueAt(s, c)).value;
      EnqueueAfterKick(s, c, k, d);
      QueueAfterSever(s, k, c);
      PutTwice(s, Calls.Evict(s, c), k, c, Queues.Enqueue(QueueAt(s, c), d), ExcessAt(s, c));
    }
  }

  lemma AdmittedAfterKick(v: Ledger, room: Ledger, d: Account, c: Account, amount: Balance, after: Delegator,
      total: Balance,
                          q: Queues.Queue, excess: nat)
    requires Listed(v, c) && Listed(room, c) && PutQueue(v, c, q, excess) == PutQueue(room, c, q, excess)
    requires Queues.Enqueue(QueueAt(v, c), Bond(d, amount)) == q && ExcessAt(v, c) == excess
    ensures var w := PutQueue(room, c, q, excess);
            Reserve(w, d, amount).(delegators := w.delegators[d := after], total := total)
            == Admit(v, d, c, amount, after).(total := total)
  {
    PutQueueFrame(v, c, q, excess);
    hide PutQueue, Queues.Enqueue, ExcessAt;
  }

  lemma QueueAfterSever(s: Ledger, k: Bond, c: Account)
    requires Consistent(s) && Listed(s, c)
    ensures var v := Sever(s, k.owner, c, k.amount).(total := s.total);
            Listed(v, c) && QueueAt(v, c) == Queues.Dequeue(QueueAt(s, c), k.owner) && ExcessAt(v, c) == ExcessAt(s, c)
  {
    hide Consistent, Queues.Dequeue, Reindex, DropFrom;
  }

  lemma EnqueueAfterKick(s: Ledger, c: Account, k: Bond, d: Bond)
    requires Consistent(s) && Listed(s, c) && Queues.Evicted(QueueAt(s, c)) == Some(k)
    ensures Queues.Enqueue(Queues.Dequeue(QueueAt(s, c), k.owner), d) == Queues.Enqueue(QueueAt(s, c), d)
  {
    hide Consistent;
    var q := QueueAt(s, c);
    DelegatorCalls.QueueIsOk(s, c);
    KickIsDropLast(q, k);
  }

  lemma KickIsDropLast(q: Queues.Queue, k: Bond)
    requires Queues.Ok(q) && Queues.Evicted(q) == Some(k)
    ensures Queues.Dequeue(q, k.owner) == Queues.Queue(q.top, DropLast(q.bottom))
  {
    DelegatorCalls.LowestBottom(q);
    EntryCounts(q.bottom, |q.bottom| - 1);
    AbsentOwner(DropLast(q.bottom), k.owner);
  }

  /** `v` is `w` with `c`'s records written. */
  ghost predicate Rewritten(v: Ledger, w: Ledger, c: Account) {
    && Listed(v, c) && Listed(w, c)
    && v.info[c].bond == w.info[c].bond && v.info[c].request == w.info[c].request
         && v.info[c].status == w.info[c].status
    && v == w.(info := w.info[c := v.info[c]], top := w.top[c := v.top[c]], bottom := w.bottom[c := v.bottom[c]],
               pool := Reindex(w.pool, c, v.info[c]))
  }

  /** Writing them again leaves no trace of the writing in between. */
  lemma PutOver(v: Ledger, w: Ledger, c: Account, q: Queues.Queue, excess: nat)
    requires Rewritten(v, w, c) && ByOwner(w.pool)
    ensures PutQueue(v, c, q, excess) == PutQueue(w, c, q, excess)
  {
    hide Reindex;
    ReindexTwice(w.pool, c, v.info[c], Candidates.WithQueue(CandidateAt(w, c), q, excess).info);
  }

  lemma SeverRewrites(s: Ledger, v: Ledger, k: Bond, c: Account)
    requires Listed(s, c) && v == Sever(s, k.owner, c, k.amount).(total := s.total)
    ensures Rewritten(v, Kicked(s, c, k), c)
  {
    hide Queues.Dequeue, DropFrom, Reindex, ExcessAt, Min;
  }

  /** Writing a candidate after a kick. */
  lemma PutTwice(s: Ledger, v: Ledger, k: Bond, c: Account, q: Queues.Queue, excess: nat)
    requires Consistent(s) && Listed(s, c) && v == Sever(s, k.owner, c, k.amount).(total := s.total)
    ensures Listed(v, c)
    ensures PutQueue(v, c, q, excess) == PutQueue(Kicked(s, c, k), c, q, excess)
  {
    hide Consistent, Sever, DropFrom, PutQueue, Min, Reindex;
    Extrinsics.PoolIsOk(s);
    SeverRewrites(s, v, k, c);
    PutOver(v, Kicked(s, c, k), c, q, excess);
  }

  lemma ReindexTwice(pool: seq<Bond>, c: Account, first: Metadata, second: Metadata)
    requires ByOwner(pool) && first.status == second.status
    ensures Reindex(Reindex(pool, c, first), c, second) == Reindex(pool, c, second)
  {
    if second.status.Active? {
      UpdateActiveMeasures(pool, c, first.totalCounted);
      UpdateActiveMeasures(pool, c, second.totalCounted);
      UpdateActiveMeasures(UpdateActive(pool, c, first.totalCounted), c, second.totalCounted);
      hide UpdateActive;
      SetExtensional(UpdateActive(UpdateActive(pool, c, first.totalCounted), c, second.totalCounted),
                     UpdateActive(pool, c, second.totalCounted));
    }
  }

  // ----- changing a delegation -----

  /** The candidate's half of an increase: hold, lists, pool, `Total`. */
  method RaiseAtCandidate(st: Storage, delegator: Account, candidate: Account, before: Balance, more: Balance)
      returns (r: Outcome)
    requires Consistent(st.View()) && delegator in st.delegatorState
    requires Count(st.delegatorState[delegator].delegations, candidate) > 0
    requires before == StakeOf(st.delegatorState[delegator].delegations, candidate)
    modifies st`candidateInfo, st`topDelegations, st`bottomDelegations, st`candidatePool, st`total, st`reserved, st`free
    ensures var s := old(st.View());
            && (r == if !Listed(s, candidate) then Calls.Failure(Calls.CandidateDNE)
                     else if !CanReserve(s, delegator, more) then Calls.Failure(Calls.InsufficientBalance)
                     else Calls.Success)
            && (r.Failure? ==> st.View() == s)
            && (r.Success? ==> st.View() == RaiseStake(s, delegator, candidate, more).(delegators := s.delegators))
  {
    hide Consistent, PutQueue, ExcessAt, Candidates.Ok, Count, StakeOf, Queues.Raise, Queues.Entered, Queues.Backed,
      UpdateActive, PoolOk, RaiseStake;
    ghost var s := st.View();
    ListedIfInfo(s, candidate);
    if candidate !in st.candidateInfo {
      return Calls.Failure(Calls.CandidateDNE);
    }
    var collator := new CandidateMetadata.Decode(st.candidateInfo[candidate]);
    var ok := st.ReserveCurrency(delegator, more);
    if !ok {
      return Calls.Failure(Calls.InsufficientBalance);
    }
    Extrinsics.IsSynced(s, candidate);
    DelegationIsEntered(s, delegator, candidate);
    var totalBefore := collator.totalCounted;
    ghost var q := Queues.Raise(QueueAt(s, candidate), delegator, more);
    r := collator.IncreaseDelegation(st, candidate, delegator, before, more);
    PoolAfterPut(s, Reserve(s, delegator, more), candidate, q, ExcessAt(s, candidate));
    if collator.status.Active? && totalBefore != collator.totalCounted {
      st.UpdateActiveCandidate(candidate, collator.totalCounted);
    }
    st.candidateInfo := st.candidateInfo[candidate := collator.Encode()];
    st.total := st.total + more;
    RaisedByCode(s, delegator, candidate, more);
  }

  method DelegatorBondMore(st: Storage, delegator: Account, candidate: Account, more: Balance) returns (r: Outcome)
    requires Consistent(st.View())
    modifies st
    ensures Calls.Result(st.View(), r) == Calls.DelegatorBondMore(old(st.View()), delegator, candidate, more)
    ensures Consistent(st.View()) && Balanced(old(st.View()), st.View())
    ensures Conserved(old(st.View())) ==>
              (Conserved(st.View()) <==>
                 r.Failure? || DelegatorCalls.BondMoreGuard(old(st.View()), delegator, candidate, more))
  {
    hide Consistent, Conserved, Balanced, Delegators.Ok, Count, StakeOf, Shift, DelegatorCalls.BondMoreGuard,
      CanReserve, Listed, PutQueue;
    ghost var s := st.View();
    DelegatorCalls.DelegatorBondMoreKeeps(s, delegator, candidate, more);
    if delegator !in st.delegatorState {
      return Calls.Failure(Calls.DelegatorDNE);
    }
    Extrinsics.RecordIsSet(s, delegator);
    var state := new DelegatorState.Decode(st.delegatorState[delegator]);
    var before := state.ChangeDelegation(candidate, more);
    if before.None? {
      return Calls.Failure(Calls.DelegationDNE);
    }
    r := RaiseAtCandidate(st, delegator, candidate, before.value, more);
    if r.Failure? {
      return;
    }
    st.delegatorState := st.delegatorState[delegator := state.Encode()];
  }

  /** What writing lists does to a ledger that agrees with `s` on candidates and pool; entering the
      candidate's pool value once more changes nothing. */
  lemma PoolAfterPut(s: Ledger, t: Ledger, c: Account, q: Queues.Queue, excess: nat)
    requires Consistent(s) && Listed(s, c)
    requires t.info == s.info && t.top == s.top && t.bottom == s.bottom && t.pool == s.pool
    ensures var p := PutQueue(s, c, q, excess);
            && c in p.info && ByOwner(p.pool)
            && (p.info[c].status.Active? ==> UpdateActive(p.pool, c, p.info[c].totalCounted) == p.pool)
            && ExcessAt(t, c) == ExcessAt(s, c)
            && PutQueue(t, c, q, excess) == t.(info := p.info, top := p.top, bottom := p.bottom, pool := p.pool)
  {
    hide Consistent, UpdateActive;
    Extrinsics.PoolIsOk(s);
    var m := Candidates.WithQueue(CandidateAt(s, c), q, excess).info;
    ReindexTwice(s.pool, c, m, m);
    UpdateActiveMeasures(s.pool, c, m.totalCounted);
  }

  lemma RaisedByCode(s: Ledger, d: Account, c: Account, more: Balance)
    requires Listed(s, c) && d in s.delegators
    ensures var p := PutQueue(s, c, Queues.Raise(QueueAt(s, c), d, more), ExcessAt(s, c));
            RaiseStake(s, d, c, more)
            == Reserve(s, d, more).(info := p.info, top := p.top, bottom := p.bottom, pool := p.pool,
                                    total := s.total + more,
                                    delegators := s.delegators[d := Delegators.Raise(s.delegators[d], c, more)])
  {
    PutQueueFrame(s, c, Queues.Raise(QueueAt(s, c), d, more), ExcessAt(s, c));
    hide PutQueue, Queues.Raise, ExcessAt;
  }

  lemma DelegationIsEntered(s: Ledger, d: Account, c: Account)
    requires Consistent(s) && Listed(s, c)
    ensures d in s.delegators ==> Count(s.delegators[d].delegations, c) == Queues.Entered(QueueAt(s, c), d)
    ensures d in s.delegators ==> StakeOf(s.delegators[d].delegations, c) == Queues.Backed(QueueAt(s, c), d)
  {
    if d in s.delegators {
      hide Consistent, Queues.Backed, Queues.Entered;
      Exits.BackedByStake(s, c, d);
      if Stake(s.delegators, d, c) > 0 {
        BothSides(s, d, c);
      } else {
        NotYetEntered(s, d, c);
        DelegatorCalls.RecordIsOk(s, d);
        OnePerOwner(s.delegators[d].delegations, c);
        CountPositive(s.delegators[d].delegations, c, MIN_DELEGATION);
      }
    }
  }

  /** Takes a delegation out of the candidate's lists and releases its amount. */
  method DelegatorLeavesCandidate(st: Storage, candidate: Account, delegator: Account, amount: Balance)
      returns (r: Outcome)
    requires BooksOk(st.View()) && PoolOk(st.candidatePool, st.candidateInfo)
    modifies st`candidateInfo, st`topDelegations, st`bottomDelegations, st`candidatePool, st`total, st`reserved, st`free
    ensures var s := old(st.View());
            && (r == if !Listed(s, candidate) then Calls.Failure(Calls.CandidateDNE)
                     else if !Candidates.Reaches(CandidateAt(s, candidate), delegator, amount) then
                       Calls.Failure(Calls.DelegationDNE)
                     else Calls.Success)
            && (r.Failure? ==> st.View() == s)
            && (r.Success? ==> st.View() == Forget(s, delegator, candidate, amount))
  {
    hide PutQueue, ExcessAt, PoolOk, Queues.Dequeue, Candidates.Reaches, BooksAgree, BooksOk, QueueAt, SatSub, Min;
    ghost var s := st.View();
    BooksGiveListed(s, candidate);
    if candidate !in st.candidateInfo {
      return Calls.Failure(Calls.CandidateDNE);
    }
    var state := new CandidateMetadata.Decode(st.candidateInfo[candidate]);
    r := state.RmDelegationIfExists(st, candidate, delegator, amount);
    if r.Failure? {
      return;
    }
    PutQueueFrame(s, candidate, Queues.Dequeue(QueueAt(s, candidate), delegator), ExcessAt(s, candidate));
    st.UnreserveCurrency(delegator, amount);
    st.total := SatSub(st.total, amount);
    st.candidateInfo := st.candidateInfo[candidate := state.Encode()];
  }

  lemma BooksGiveListed(s: Ledger, c: Account)
    requires BooksOk(s)
    ensures Listed(s, c) <==> c in s.info
    ensures c in s.info ==> Candidates.Ok(CandidateAt(s, c))
  {
  }

  // ----- requests carried out -----

  method ExecuteRevoke(st: Storage, state: DelegatorState, candidate: Account, ghost s: Ledger,
      request: Delegators.DelegationRequest)
    returns (r: Outcome)
    requires Consistent(s) && st.View() == s && state.id in s.delegators
             && candidate in s.delegators[state.id].requests.requests
    requires s.delegators[state.id].requests.requests[candidate] == request
    requires state.Encode()
             == s.delegators[state.id].(requests := Delegators.DropRequest(s.delegators[state.id].requests, candidate))
    modifies st, state
    ensures Calls.Result(st.View(), r) == Calls.ExecuteRevoke(s, old(state.id), candidate, request.amount)
  {
    hide Consistent, Candidates.Reaches, Forget, Delegators.Ok, Delegators.DropRequest, DropFrom, Delegators.Stake,
      PoolOk, BooksOk;
    Extrinsics.RecordIsSet(s, state.id);
    HasDelegation(s, state.id, candidate);
    var leaving;
    if |state.delegations| == 1 {
      leaving := true;
    } else {
      if SatSub(state.total, MIN_DELEGATOR_STK) < request.amount {
        return Calls.Failure(Calls.DelegatorBondBelowMin);
      }
      leaving := false;
    }
    var remaining := state.RmDelegation(candidate);
    BooksAndPool(s);
    r := DelegatorLeavesCandidate(st, candidate, state.id, request.amount);
    if r.Failure? {
      return;
    }
    DropFromDecoded(s.delegators, state.id, candidate);
    ForgetFrame(s, state.id, candidate, request.amount);
    if leaving {
      st.delegatorState := st.delegatorState - {state.id};
    } else {
      st.delegatorState := st.delegatorState[state.id := state.Encode()];
    }
  }

  lemma ForgetFrame(s: Ledger, d: Account, c: Account, amount: Balance)
    requires Listed(s, c)
    ensures Forget(s, d, c, amount).delegators == s.delegators
  {
  }

  lemma BooksAndPool(s: Ledger)
    requires Consistent(s)
    ensures BooksOk(s) && PoolOk(s.pool, s.info)
  {
  }

  lemma HasDelegation(s: Ledger, d: Account, c: Account)
    requires Consistent(s) && d in s.delegators && c in s.delegators[d].requests.requests
    ensures Count(s.delegators[d].delegations, c) == 1
  {
    DelegatorCalls.RecordIsOk(s, d);
  }

  /** The candidate's half of a decrease. */
  method LowerAtCandidate(st: Storage, delegator: Account, candidate: Account, before: Balance, less: Balance)
    requires Consistent(st.View()) && DecreasePending(st.View(), delegator, candidate, less)
    requires before == StakeOf(st.delegatorState[delegator].delegations, candidate) && Listed(st.View(), candidate)
    modifies st`candidateInfo, st`topDelegations, st`bottomDelegations, st`candidatePool, st`total, st`reserved, st`free
    ensures var s := old(st.View()); st.View() == LowerStake(s, delegator, candidate, less).(delegators := s.delegators)
  {
    hide Consistent, PutQueue, ExcessAt, Candidates.Ok, Count, StakeOf, Queues.Lower, Queues.Entered, Queues.Backed,
      PoolOk, LowerStake, Drift;
    ghost var s := st.View();
    LowerAffords(s, delegator, candidate, less);
    var collator := new CandidateMetadata.Decode(st.candidateInfo[candidate]);
    st.UnreserveCurrency(delegator, less);
    Extrinsics.IsSynced(s, candidate);
    ghost var excess := ExcessAt(s, candidate) + Drift(s, delegator, candidate, less);
    ghost var q := Queues.Lower(QueueAt(s, candidate), delegator, less);
    SameDrift(s, Unreserve(s, delegator, less), delegator, candidate, less);
    var r := collator.DecreaseDelegation(st, candidate, delegator, before, less);
    PoolAfterPut(s, Unreserve(s, delegator, less), candidate, q, excess);
    st.candidateInfo := st.candidateInfo[candidate := collator.Encode()];
    st.total := SatSub(st.total, less);
    LoweredByCode(s, delegator, candidate, less);
  }

  method ExecuteDecrease(st: Storage, state: DelegatorState, candidate: Account, ghost s: Ledger,
      request: Delegators.DelegationRequest)
    returns (r: Outcome)
    requires Consistent(s) && st.View() == s && DecreasePending(s, state.id, candidate, request.amount)
    requires state.Encode()
             == s.delegators[state.id].(requests := Delegators.DropRequest(s.delegators[state.id].requests, candidate))
    modifies st, state
    ensures Calls.Result(st.View(), r) == Calls.ExecuteDecrease(s, old(state.id), candidate, request.amount)
  {
    hide Consistent, Delegators.Ok, Count, StakeOf, Shift, Delegators.DropRequest, PutQueue, Drift;
    Extrinsics.RecordIsSet(s, state.id);
    LowerAffords(s, state.id, candidate, request.amount);
    ListedIfInfo(s, candidate);
    var amountBefore := state.FindDelegation(candidate);
    if amountBefore.None? {
      return Calls.Failure(Calls.DelegationDNE);
    }
    if amountBefore.value <= request.amount {
      return Calls.Failure(Calls.DelegationBelowMin);
    }
    var before := state.ChangeDelegation(candidate, 0 - request.amount);
    if state.total < MIN_DELEGATION {
      return Calls.Failure(Calls.DelegationBelowMin);
    }
    if state.total < MIN_DELEGATOR_STK {
      return Calls.Failure(Calls.DelegatorBondBelowMin);
    }
    LowerAtCandidate(st, state.id, candidate, amountBefore.value, request.amount);
    st.delegatorState := st.delegatorState[state.id := state.Encode()];
    return Calls.Success;
  }

  lemma SameDrift(s: Ledger, t: Ledger, d: Account, c: Account, less: Balance)
    requires Listed(s, c) && t.info == s.info && t.top == s.top && t.bottom == s.bottom
    ensures Drift(t, d, c, less) == Drift(s, d, c, less) && ExcessAt(t, c) == ExcessAt(s, c)
  {
  }

  lemma LoweredByCode(s: Ledger, d: Account, c: Account, less: Balance)
    requires Listed(s, c) && d in s.delegators
    ensures var p := PutQueue(s, c, Queues.Lower(QueueAt(s, c), d, less), ExcessAt(s, c) + Drift(s, d, c, less));
            LowerStake(s, d, c, less)
            == Unreserve(s, d, less).(info := p.info, top := p.top, bottom := p.bottom, pool := p.pool,
                                      total := SatSub(s.total, less),
                                      delegators := s.delegators[d := Delegators.Lower(s.delegators[d], c, less)])
  {
    hide PutQueue, Queues.Lower, ExcessAt, Drift, Delegators.Lower, QueueAt, SatSub, Min;
    PutQueueFrame(s, c, Queues.Lower(QueueAt(s, c), d, less), ExcessAt(s, c) + Drift(s, d, c, less));
  }

  method ExecuteDelegationRequest(st: Storage, delegator: Account, candidate: Account) returns (r: Outcome)
    requires Consistent(st.View())
    modifies st
    ensures Calls.Result(st.View(), r) == Calls.ExecuteDelegationRequest(old(st.View()), delegator, candidate)
    ensures Consistent(st.View()) && (Conserved(old(st.View())) ==> Conserved(st.View()))
  {
    hide Consistent, Conserved, Calls.ExecuteRevoke, Calls.ExecuteDecrease, Delegators.DropRequest;
    ghost var s := st.View();
    DelegatorCalls.ExecuteDelegationRequestKeeps(s, delegator, candidate);
    if delegator !in st.delegatorState {
      return Calls.Failure(Calls.DelegatorDNE);
    }
    RecordHasId(s, delegator);
    var state := new DelegatorState.Decode(st.delegatorState[delegator]);
    var removed := state.RemoveRequest(candidate);
    if removed.None? {
      return Calls.Failure(Calls.PendingDelegationRequestDNE);
    }
    var request := removed.value;
    if request.whenExecutable > st.round {
      return Calls.Failure(Calls.PendingDelegationRequestNotDueYet);
    }
    match request.action {
      case Revoke => r := ExecuteRevoke(st, state, candidate, s, request);
      case Decrease => r := ExecuteDecrease(st, state, candidate, s, request);
    }
  }

  lemma RecordHasId(s: Ledger, d: Account)
    requires Consistent(s) && d in s.delegators
    ensures s.delegators[d].id == d
  {
    DelegatorCalls.RecordIsOk(s, d);
  }

  // ----- exits -----

  /** The prefix of a batch behaves like the batch. */
  lemma BatchPrefix(s: Ledger, links: seq<Calls.Link>, i: nat)
    requires Consistent(s) && Exits.LinksOf(s, links) && i < |links|
    ensures var v := Calls.SeverEach(s, links[..i]); var l := links[i];
            && Consistent(v) && 0 < l.amount == Stake(v.delegators, l.delegator, l.candidate)
            && Listed(v, l.candidate)
            && Calls.SeverEach(s, links[..i + 1]) == Sever(v, l.delegator, l.candidate, l.amount)
  {
    hide Consistent, Keeps, Sever, Stake;
    var upTo := links[..i + 1];
    assert upTo[..|upTo| - 1] == links[..i];
    Exits.SeverEachKeeps(s, links[..i]);
    Exits.KeepsConsistent(s, Calls.SeverEach(s, links[..i]));
    Exits.LastLinkRemains(s, Calls.SeverEach(s, links[..i]), upTo);
    StakedIsListed(Calls.SeverEach(s, links[..i]), links[i].delegator, links[i].candidate);
  }

  lemma StakedIsListed(s: Ledger, d: Account, c: Account)
    requires Consistent(s) && Stake(s.delegators, d, c) > 0
    ensures Listed(s, c) && Candidates.Reaches(CandidateAt(s, c), d, Stake(s.delegators, d, c))
  {
    hide Candidates.Reaches;
    BothSides(s, d, c);
    ListedIfInfo(s, c);
    Extrinsics.IsSynced(s, c);
    Exits.BackedByStake(s, c, d);
    Candidates.DispatchIsSound(CandidateAt(s, c), d);
  }

  method ExecuteLeaveDelegators(st: Storage, delegator: Account, hint: nat) returns (r: Outcome)
    requires Consistent(st.View())
    modifies st
    ensures Calls.Result(st.View(), r) == Calls.ExecuteLeaveDelegators(old(st.View()), delegator, hint)
    ensures Keeps(old(st.View()), st.View())
  {
    hide Consistent, Keeps, Calls.SeverEach, Forget, Sever, DropFrom, PoolOk, BooksOk, Candidates.Reaches, Stake,
      Exits.StakesWithout;
    ghost var s := st.View();
    Exits.ExecuteLeaveDelegatorsKeeps(s, delegator, hint);
    if delegator !in st.delegatorState {
      return Calls.Failure(Calls.DelegatorDNE);
    }
    var state := new DelegatorState.Decode(st.delegatorState[delegator]);
    r := state.CanExecuteLeave(st.round, hint);
    if r.Failure? {
      return;
    }
    var bonds := state.delegations;
    ghost var links := Calls.LinksFrom(delegator, bonds);
    Exits.OwnLinks(s, delegator);
    Exits.LinksFromAt(delegator, bonds);
    SeverNone(s, links);
    for i := 0 to |bonds|
      invariant st.View() == Calls.SeverEach(s, links[..i]).(delegators := s.delegators)
    {
      ghost var v := Calls.SeverEach(s, links[..i]);
      BatchPrefix(s, links, i);
      StakedIsListed(v, delegator, bonds[i].owner);
      BooksAndPool(v);
      SameBooks(v, st.View());
      var left := DelegatorLeavesCandidate(st, bonds[i].owner, delegator, bonds[i].amount);
      assert left.Success?;  // the branch that logs a storage corruption is never taken
      ForgetOtherRecords(v, st.delegatorState, delegator, bonds[i].owner, bonds[i].amount);
    }
    assert links[..|bonds|] == links;
    ExitedRecord(s, delegator);
    st.delegatorState := st.delegatorState - {delegator};
  }

  lemma SeverNone(s: Ledger, links: seq<Calls.Link>)
    ensures Calls.SeverEach(s, links[..0]) == s
  {
  }

  lemma SameBooks(s: Ledger, t: Ledger)
    requires t == s.(delegators := t.delegators)
    ensures BooksOk(s) ==> BooksOk(t)
    ensures forall c :: Listed(s, c) ==> Listed(t, c) && CandidateAt(s, c) == CandidateAt(t, c)
  {
  }

  /** Forgetting at the candidate does not look at delegator records. */
  lemma ForgetOtherRecords(v: Ledger, records: map<Account, Delegator>, d: Account, c: Account, amount: Balance)
    requires Listed(v, c)
    ensures Forget(v.(delegators := records), d, c, amount) == Sever(v, d, c, amount).(delegators := records)
  {
    hide Queues.Dequeue, Reindex;
  }

  /** After the batch of a delegator's links its record is gone and the others are as before. */
  lemma ExitedRecord(s: Ledger, d: Account)
    requires Consistent(s) && d in s.delegators
    ensures Calls.SeverEach(s, Calls.LinksFrom(d, s.delegators[d].delegations)).delegators == s.delegators - {d}
  {
    hide Consistent, Keeps, Stake, Calls.SeverEach, Calls.LinksFrom, Exits.LinksOf;
    var links := Calls.LinksFrom(d, s.delegators[d].delegations);
    Exits.OwnLinks(s, d);
    Exits.LinksFromAt(d, s.delegators[d].delegations);
    Exits.SeverEachKeeps(s, links);
    Exits.KeepsConsistent(s, Calls.SeverEach(s, links));
    Exits.NothingLeft(s, Calls.SeverEach(s, links), d);
    OthersKept(s, links, d);
  }

  lemma {:induction false} OthersKept(s: Ledger, links: seq<Calls.Link>, d: Account)
    requires forall i :: 0 <= i < |links| ==> links[i].delegator == d
    ensures Calls.SeverEach(s, links).delegators - {d} == s.delegators - {d}
  {
    if links != [] {
      var r := Calls.SeverEach(s, links[..|links| - 1]);
      var l := links[|links| - 1];
      OthersKept(s, links[..|links| - 1], d);
      if Listed(r, l.candidate) {
        SeverKeepsOthers(r, d, l.candidate, l.amount);
      }
    }
  }

  lemma SeverKeepsOthers(s: Ledger, d: Account, c: Account, amount: Balance)
    requires Listed(s, c)
    ensures Sever(s, d, c, amount).delegators - {d} == s.delegators - {d}
  {
  }

  /** Gives one backer its stake back and drops the delegation from its record. */
  method ReturnStake(st: Storage, candidate: Account, bond: Bond)
    requires bond.owner in st.delegatorState && Delegators.Ok(st.delegatorState[bond.owner], bond.owner)
    requires Count(st.delegatorState[bond.owner].delegations, candidate) == 1
    modifies st`delegatorState, st`reserved, st`free
    ensures var s := old(st.View());
            st.View() == Unreserve(s, bond.owner,
                                   bond.amount).(delegators := DropFrom(s.delegators, bond.owner, candidate))
  {
    hide Delegators.Stake, Delegators.DropRequest, Sum, StakeOf, Without, DropFrom;
    ghost var s := st.View();
    LastDelegation(st.delegatorState[bond.owner], bond.owner, candidate);
    DropFromDecoded(s.delegators, bond.owner, candidate);
    st.UnreserveCurrency(bond.owner, bond.amount);
    var delegator := new DelegatorState.Decode(st.delegatorState[bond.owner]);
    var remaining := delegator.RmDelegation(candidate);
    if remaining.Some? {
      if remaining.value == 0 {
        st.delegatorState := st.delegatorState - {bond.owner};
      } else {
        var removed := delegator.RemoveRequest(candidate);
        st.delegatorState := st.delegatorState[bond.owner := delegator.Encode()];
      }
    }
  }

  /** Nothing remains of a delegator's total exactly when its only delegation goes. */
  lemma LastDelegation(d: Delegator, id: Account, c: Account)
    requires Delegators.Ok(d, id) && Count(d.delegations, c) == 1
    ensures SatSub(d.total, StakeOf(d.delegations, c)) == 0 <==> |d.delegations| == 1
  {
    WithoutMeasures(d.delegations, c);
    WithoutBounds(d.delegations, c, MIN_DELEGATION);
    StakeBounds(d.delegations, c);
    var rest := Without(d.delegations, c);
    if rest != [] {
      EntryCounts(rest, |rest| - 1);
      StakeBounds(rest, Last(rest).owner);
    }
  }

  /** A batch of links to an inactive candidate leaves the pool and the other candidates alone. */
  lemma {:induction false} BatchToOne(s: Ledger, c: Account, links: seq<Calls.Link>)
    requires Listed(s, c) && !s.info[c].status.Active? && AllTo(links, c)
    ensures var r := Calls.SeverEach(s, links);
            && Listed(r, c) && !r.info[c].status.Active? && r.pool == s.pool && r.round == s.round
            && r.info - {c} == s.info - {c} && r.top - {c} == s.top - {c} && r.bottom - {c} == s.bottom - {c}
  {
    hide Sever;
    if links != [] {
      BatchToOne(s, c, links[..|links| - 1]);
      var l := links[|links| - 1];
      SeverInactive(Calls.SeverEach(s, links[..|links| - 1]), l.delegator, c, l.amount);
    }
  }

  lemma SeverInactive(s: Ledger, d: Account, c: Account, amount: Balance)
    requires Listed(s, c) && !s.info[c].status.Active?
    ensures var r := Sever(s, d, c, amount); var u := Unreserve(s, d, amount);
            && Listed(r, c) && !r.info[c].status.Active? && r.pool == s.pool && r.round == s.round
            && r.info - {c} == s.info - {c} && r.top - {c} == s.top - {c} && r.bottom - {c} == s.bottom - {c}
            && r.delegators == DropFrom(s.delegators, d, c) && r.reserved == u.reserved && r.free == u.free
  {
    hide Queues.Dequeue, DropFrom, ExcessAt;
  }

  /** The stored items while stakes are being returned: records and holds follow the batch, the
      candidate's items are on their way out. */
  ghost function Returning(s: Ledger, v: Ledger, top: map<Account, DelegationData>,
      bottom: map<Account, DelegationData>): Ledger {
    s.(delegators := v.delegators, reserved := v.reserved, free := v.free, top := top, bottom := bottom)
  }

  /** From `from` on, `links` are those of these entries of `c`. */
  ghost predicate LinksAt(links: seq<Calls.Link>, from: nat, c: Account, bonds: seq<Bond>)
    requires from + |bonds| <= |links|
  {
    forall i :: 0 <= i < |bonds| ==> links[from + i] == Calls.Link(bonds[i].owner, c, bonds[i].amount)
  }

  ghost predicate AllTo(links: seq<Calls.Link>, c: Account) {
    forall i :: 0 <= i < |links| ==> links[i].candidate == c
  }

  lemma EntryLinks(c: Account, q: Queues.Queue)
    ensures var links := Calls.LinksTo(c, Queues.Entries(q));
            && |links| == |q.top| + |q.bottom| && AllTo(links, c)
            && LinksAt(links, 0, c, q.top) && LinksAt(links, |q.top|, c, q.bottom)
  {
    Exits.LinksToAt(c, Queues.Entries(q));
  }

  method ReturnStakes(st: Storage, candidate: Account, bonds: seq<Bond>, ghost s: Ledger, ghost links: seq<Calls.Link>,
      ghost from: nat)
    requires Consistent(s) && Listed(s, candidate) && !s.info[candidate].status.Active? && Exits.LinksOf(s, links)
    requires from + |bonds| <= |links| && LinksAt(links, from, candidate, bonds) && AllTo(links, candidate)
    requires st.View() == Returning(s, Calls.SeverEach(s, links[..from]), st.topDelegations, st.bottomDelegations)
    modifies st`delegatorState, st`reserved, st`free
    ensures st.View()
            == Returning(s, Calls.SeverEach(s, links[..from + |bonds|]), st.topDelegations, st.bottomDelegations)
  {
    hide Consistent, Calls.SeverEach, Exits.LinksOf, AllTo, Returning;
    for i := 0 to |bonds|
      invariant st.View()
                == Returning(s, Calls.SeverEach(s, links[..from + i]), st.topDelegations, st.bottomDelegations)
    {
      ReturnLinked(st, candidate, bonds[i], s, links, from + i);
    }
  }

  method ReturnLinked(st: Storage, candidate: Account, bond: Bond, ghost s: Ledger, ghost links: seq<Calls.Link>,
      ghost i: nat)
    requires Consistent(s) && Listed(s, candidate) && !s.info[candidate].status.Active? && Exits.LinksOf(s, links)
    requires i < |links| && links[i] == Calls.Link(bond.owner, candidate, bond.amount) && AllTo(links, candidate)
    requires st.View() == Returning(s, Calls.SeverEach(s, links[..i]), st.topDelegations, st.bottomDelegations)
    modifies st`delegatorState, st`reserved, st`free
    ensures st.View() == Returning(s, Calls.SeverEach(s, links[..i + 1]), st.topDelegations, st.bottomDelegations)
  {
    hide Consistent, Calls.SeverEach, Exits.LinksOf, Sever, DropFrom, Stake, Delegators.Ok, Min;
    ghost var v := Calls.SeverEach(s, links[..i]);
    BatchPrefix(s, links, i);
    BatchToOne(s, candidate, links[..i]);
    BackerRecord(v, bond.owner, candidate);
    ReturnStake(st, candidate, bond);
    SeverInactive(v, bond.owner, candidate, bond.amount);
  }

  lemma BackerRecord(s: Ledger, d: Account, c: Account)
    requires Consistent(s) && Stake(s.delegators, d, c) > 0
    ensures d in s.delegators && Delegators.Ok(s.delegators[d], d) && Count(s.delegators[d].delegations, c) == 1
  {
    BothSides(s, d, c);
    DelegatorCalls.RecordIsOk(s, d);
  }

  method ExecuteLeaveCandidates(st: Storage, candidate: Account, hint: nat) returns (r: Outcome)
    requires Consistent(st.View())
    modifies st
    ensures Calls.Result(st.View(), r) == Calls.ExecuteLeaveCandidates(old(st.View()), candidate, hint)
    ensures Keeps(old(st.View()), st.View())
  {
    hide Consistent, Keeps, Calls.SeverEach, Calls.LinksTo, Calls.RemoveCandidate, SatSub;
    ghost var s := st.View();
    Exits.ExecuteLeaveCandidatesKeeps(s, candidate, hint);
    ListedIfInfo(s, candidate);
    if candidate !in st.candidateInfo {
      return Calls.Failure(Calls.CandidateDNE);
    }
    var state := new CandidateMetadata.Decode(st.candidateInfo[candidate]);
    if state.delegationCount > hint {
      return Calls.Failure(Calls.TooLowCandidateDelegationCountToLeaveCandidates);
    }
    r := state.CanLeave(st.round);
    if r.Failure? {
      return;
    }
    Disband(st, candidate, state.bond);
    return Calls.Success;
  }

  /** All backers and the candidate get their stake back, and the candidate is removed. */
  method Disband(st: Storage, candidate: Account, bond: Balance)
    requires Consistent(st.View()) && Listed(st.View(), candidate) && bond == st.candidateInfo[candidate].bond
    requires !st.candidateInfo[candidate].status.Active?
    modifies st
    ensures var s := old(st.View());
            st.View() == Calls.RemoveCandidate(Severed(s, candidate), candidate, bond,
                                               SatSub(s.total,
                                                      bond + s.top[candidate].total + s.bottom[candidate].total))
  {
    hide Consistent, Severed, Calls.RemoveCandidate, Unreserve, SatSub, Returning;
    ghost var s := st.View();
    var totalBacking := bond;
    // return all delegations
    var returned := ReturnBackers(st, candidate);
    totalBacking := totalBacking + returned;
    ghost var v := Returning(s, Severed(s, candidate), s.top - {candidate}, s.bottom - {candidate});
    ReturningRest(s, Severed(s, candidate), s.top - {candidate}, s.bottom - {candidate});
    // return the self bond
    st.UnreserveCurrency(candidate, bond);
    UnreserveRest(v, candidate, bond);
    st.candidateInfo := st.candidateInfo - {candidate};
    st.total := SatSub(st.total, totalBacking);
    SeveredRest(s, candidate);
    RemovedByCode(s, Severed(s, candidate), candidate, bond, st.total);
  }

  ghost function Severed(s: Ledger, c: Account): Ledger
    requires Listed(s, c)
  {
    Calls.SeverEach(s, Calls.LinksTo(c, Queues.Entries(QueueAt(s, c))))
  }

  /** All backers of an inactive candidate get their stake back, and its lists are removed. */
  method ReturnBackers(st: Storage, candidate: Account) returns (returned: Balance)
    requires Consistent(st.View()) && Listed(st.View(), candidate)
    requires !st.candidateInfo[candidate].status.Active?
    modifies st
    ensures var s := old(st.View());
            && st.View() == Returning(s, Severed(s, candidate), s.top - {candidate}, s.bottom - {candidate})
            && returned == s.top[candidate].total + s.bottom[candidate].total
  {
    hide Consistent, Calls.SeverEach, Exits.LinksOf, Calls.LinksTo, Queues.Entries, LinksAt, AllTo, Get, Min;
    ghost var s := st.View();
    var top := st.topDelegations[candidate];
    var bottom := st.bottomDelegations[candidate];
    ghost var links := Calls.LinksTo(candidate, Queues.Entries(QueueAt(s, candidate)));
    Exits.BackerLinks(s, candidate);
    EntryLinks(candidate, QueueAt(s, candidate));
    SeverNone(s, links);
    // the top list's owners first
    st.topDelegations := st.topDelegations - {candidate};
    ReturnStakes(st, candidate, top.delegations, s, links, 0);
    returned := top.total;
    // then the bottom list's
    st.bottomDelegations := st.bottomDelegations - {candidate};
    ReturnStakes(st, candidate, bottom.delegations, s, links, |top.delegations|);
    returned := returned + bottom.total;
    assert links[..|links|] == links;
  }

  lemma ReturningRest(s: Ledger, v: Ledger, top: map<Account, DelegationData>, bottom: map<Account, DelegationData>)
    ensures var r := Returning(s, v, top, bottom); r.info == s.info && r.total == s.total
  {
  }

  lemma UnreserveRest(s: Ledger, a: Account, amount: Balance)
    ensures var r := Unreserve(s, a, amount); r.info == s.info && r.total == s.total
  {
  }

  lemma SeveredRest(s: Ledger, c: Account)
    requires Consistent(s) && Listed(s, c) && !s.info[c].status.Active?
    ensures var v := Severed(s, c);
            && v.pool == s.pool && v.round == s.round
            && v.info - {c} == s.info - {c} && v.top - {c} == s.top - {c} && v.bottom - {c} == s.bottom - {c}
  {
    hide Consistent, Calls.SeverEach, Calls.LinksTo, Exits.LinksOf;
    EntryLinks(c, QueueAt(s, c));
    BatchToOne(s, c, Calls.LinksTo(c, Queues.Entries(QueueAt(s, c))));
  }

  lemma RemovedByCode(s: Ledger, v: Ledger, c: Account, bond: Balance, total: Balance)
    requires v.pool == s.pool && v.round == s.round
    requires v.info - {c} == s.info - {c} && v.top - {c} == s.top - {c} && v.bottom - {c} == s.bottom - {c}
    ensures Calls.RemoveCandidate(v, c, bond, total)
            == Unreserve(Returning(s, v, s.top - {c}, s.bottom - {c}), c, bond).(info := s.info - {c}, total := total)
  {
  }
}

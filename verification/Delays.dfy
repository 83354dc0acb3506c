/** Nothing that was scheduled happens early. Every exit, bond decrease, revocation and delegation
    decrease in a run goes back to a call that scheduled it, at least the configured number of
    rounds before, and stayed pending in between. */
module Delays {
  import opened Bonds
  import opened Params
  import opened OrderedSets
  import opened Ledgers
  import opened Transitions
  import opened Calls
  import opened Runs
  import Queues
  import Candidates
  import Delegators

  /** The things that can be pending. */
  datatype Item =
    | CandidateExit(c: Account)
    | CandidateBondLess(c: Account)
    | DelegatorExit(d: Account)
    | DelegationChange(d: Account, c: Account)

  /** What is promised of a pending item: the round from which it may be carried out, the amount it is
      for, and whether it revokes. */
  datatype Promise = Promise(when: nat, amount: Balance, revokes: bool)

  function Due(s: Ledger, item: Item): Option<Promise> {
    match item
    case CandidateExit(c) =>
      if c in s.info && s.info[c].status.Leaving? then Some(Promise(s.info[c].status.when, 0, false)) else None
    case CandidateBondLess(c) =>
      if c in s.info && s.info[c].request.Some? then
        Some(Promise(s.info[c].request.value.whenExecutable, s.info[c].request.value.amount, false))
      else None
    case DelegatorExit(d) =>
      if d in s.delegators && s.delegators[d].status.Exiting? then Some(Promise(s.delegators[d].status.when, 0, false))
      else None
    case DelegationChange(d, c) => DueChange(s.delegators, d, c)
  }

  function DueChange(delegators: map<Account, Delegator>, d: Account, c: Account): Option<Promise> {
    if d in delegators && c in delegators[d].requests.requests then
      var r := delegators[d].requests.requests[c];
      Some(Promise(r.whenExecutable, r.amount, r.action.Revoke?))
    else None
  }

  predicate Schedules(call: Call, item: Item) {
    match item
    case CandidateExit(c) => call.CallScheduleLeaveCandidates? && call.c == c
    case CandidateBondLess(c) => call.CallScheduleCandidateBondLess? && call.c == c
    case DelegatorExit(d) => call.CallScheduleLeaveDelegators? && call.d == d
    case DelegationChange(d, c) =>
      (call.CallScheduleRevokeDelegation? || call.CallScheduleDelegatorBondLess?) && call.d == d && call.c == c
  }

  predicate Executes(call: Call, item: Item) {
    match item
    case CandidateExit(c) => call.CallExecuteLeaveCandidates? && call.c == c
    case CandidateBondLess(c) => call.CallExecuteCandidateBondLess? && call.c == c
    case DelegatorExit(d) => call.CallExecuteLeaveDelegators? && call.d == d
    case DelegationChange(d, c) => call.CallExecuteDelegationRequest? && call.d == d && call.c == c
  }

  /** The delay the scheduling call promises. */
  function DelayOf(call: Call): nat {
    match call
    case CallScheduleLeaveCandidates(_, _) => LEAVE_CANDIDATES_DELAY
    case CallScheduleCandidateBondLess(_, _) => CANDIDATE_BOND_LESS_DELAY
    case CallScheduleLeaveDelegators(_) => LEAVE_DELEGATORS_DELAY
    case CallScheduleRevokeDelegation(_, _) => REVOKE_DELEGATION_DELAY
    case CallScheduleDelegatorBondLess(_, _, _) => DELEGATION_BOND_LESS_DELAY
    case _ => 0
  }

  /** What a scheduling call promises in state `s`. */
  function PromiseOf(s: Ledger, call: Call): Promise {
    var amount :=
      match call
      case CallScheduleCandidateBondLess(_, less) => less
      case CallScheduleRevokeDelegation(d, c) => Stake(s.delegators, d, c)
      case CallScheduleDelegatorBondLess(_, _, less) => less
      case _ => 0;
    Promise(s.round + DelayOf(call), amount, call.CallScheduleRevokeDelegation?)
  }

  // ----- nothing becomes pending by itself -----

  /** Whatever is pending in `r` was pending, with the same due round, in `s`. */
  ghost predicate NothingNew(s: Ledger, r: Ledger) {
    forall item :: Due(r, item) == Due(s, item) || Due(r, item).None?
  }

  lemma NothingNewTransitive(s: Ledger, r: Ledger, t: Ledger)
    requires NothingNew(s, r) && NothingNew(r, t)
    ensures NothingNew(s, t)
  {
    hide Due;
    forall item
      ensures Due(t, item) == Due(s, item) || Due(t, item).None?
    {
      assert Due(r, item) == Due(s, item) || Due(r, item).None?;
    }
  }

  /** Records change only in ways that drop pending items. */
  ghost predicate RecordsOnlyDrop(s: Ledger, r: Ledger) {
    && (forall c :: c in r.info && r.info[c].status.Leaving? ==> c in s.info && r.info[c].status == s.info[c].status)
    && (forall c :: c in r.info && r.info[c].request.Some? ==> c in s.info && r.info[c].request == s.info[c].request)
    && (forall d :: d in r.delegators && r.delegators[d].status.Exiting? ==>
          d in s.delegators && r.delegators[d].status == s.delegators[d].status)
    && (forall d, c :: DueChange(r.delegators, d, c) == DueChange(s.delegators, d, c)
          || DueChange(r.delegators, d, c).None?)
  }

  lemma OnlyDropIsNothingNew(s: Ledger, r: Ledger)
    requires RecordsOnlyDrop(s, r)
    ensures NothingNew(s, r)
  {
  }

  lemma DropRequests(p: Delegators.Pending, c: Account)
    ensures forall x :: x in Delegators.DropRequest(p, c).requests ==>
              x in p.requests && Delegators.DropRequest(p, c).requests[x] == p.requests[x]
  {
  }

  lemma SeverNothingNew(s: Ledger, d: Account, c: Account, amount: Balance)
    requires Listed(s, c)
    ensures NothingNew(s, Sever(s, d, c, amount))
  {
    hide Reindex, Queues.Dequeue, ExcessAt, NothingNew, Delegators.DropRequest;
    if d in s.delegators {
      DropRequests(s.delegators[d].requests, c);
    }
    OnlyDropIsNothingNew(s, Sever(s, d, c, amount));
  }

  lemma {:induction false} SeverEachNothingNew(s: Ledger, links: seq<Link>)
    ensures NothingNew(s, SeverEach(s, links))
  {
    hide Sever, Due;
    if links != [] {
      var r := SeverEach(s, links[..|links| - 1]);
      var l := links[|links| - 1];
      SeverEachNothingNew(s, links[..|links| - 1]);
      if Listed(r, l.candidate) {
        SeverNothingNew(r, l.delegator, l.candidate, l.amount);
        NothingNewTransitive(s, r, Sever(r, l.delegator, l.candidate, l.amount));
      }
    }
  }

  lemma RemoveCandidateNothingNew(s: Ledger, c: Account, bond: Balance, total: Balance)
    ensures NothingNew(s, RemoveCandidate(s, c, bond, total))
  {
    hide NothingNew;
    OnlyDropIsNothingNew(s, RemoveCandidate(s, c, bond, total));
  }

  lemma ExecuteLeaveCandidatesNothingNew(s: Ledger, c: Account, hint: nat)
    ensures NothingNew(s, ExecuteLeaveCandidates(s, c, hint).ledger)
  {
    hide SeverEach, RemoveCandidate, Due;
    var result := ExecuteLeaveCandidates(s, c, hint);
    if result.outcome.Success? {
      var r := SeverEach(s, LinksTo(c, Queues.Entries(QueueAt(s, c))));
      var total := SatSub(s.total, s.info[c].bond + s.top[c].total + s.bottom[c].total);
      SeverEachNothingNew(s, LinksTo(c, Queues.Entries(QueueAt(s, c))));
      RemoveCandidateNothingNew(r, c, s.info[c].bond, total);
      NothingNewTransitive(s, r, RemoveCandidate(r, c, s.info[c].bond, total));
    }
  }

  lemma ExecuteLeaveDelegatorsNothingNew(s: Ledger, d: Account, hint: nat)
    ensures NothingNew(s, ExecuteLeaveDelegators(s, d, hint).ledger)
  {
    hide SeverEach, Due;
    if ExecuteLeaveDelegators(s, d, hint).outcome.Success? {
      SeverEachNothingNew(s, LinksFrom(d, s.delegators[d].delegations));
    }
  }

  lemma TotalNothingNew(s: Ledger, r: Ledger, total: Balance)
    requires NothingNew(s, r)
    ensures NothingNew(s, r.(total := total))
  {
    forall item
      ensures Due(r.(total := total), item) == Due(r, item)
    {
    }
  }

  lemma EvictNothingNew(s: Ledger, c: Account)
    requires Listed(s, c)
    ensures NothingNew(s, Evict(s, c))
  {
    hide Sever, NothingNew;
    match Queues.Evicted(QueueAt(s, c))
    case None => OnlyDropIsNothingNew(s, s);
    case Some(k) =>
      SeverNothingNew(s, k.owner, c, k.amount);
      TotalNothingNew(s, Sever(s, k.owner, c, k.amount), s.total);
  }

  /** A record with the same requests and status, or a new one with none. */
  predicate NoNewRequests(s: Ledger, d: Account, after: Delegator) {
    if d in s.delegators then after.requests == s.delegators[d].requests && after.status == s.delegators[d].status
    else after.status.Staying? && after.requests.requests == map[]
  }

  lemma AdmitNothingNew(s: Ledger, d: Account, c: Account, amount: Balance, after: Delegator, total: Balance)
    requires Listed(s, c) && NoNewRequests(s, d, after)
    ensures NothingNew(s, Admit(s, d, c, amount, after).(total := total))
  {
    hide Reindex, Queues.Enqueue, ExcessAt, NothingNew;
    OnlyDropIsNothingNew(s, Admit(s, d, c, amount, after).(total := total));
  }

  lemma DelegateNothingNew(s: Ledger, d: Account, c: Account, amount: Balance, candidateHint: nat, delegatorHint: nat)
    requires Consistent(s)
    ensures NothingNew(s, Delegate(s, d, c, amount, candidateHint, delegatorHint).ledger)
  {
    hide Evict, Admit, NothingNew, Consistent;
    OnlyDropIsNothingNew(s, s);
    if Delegate(s, d, c, amount, candidateHint, delegatorHint).outcome.Success? {
      var after := if d in s.delegators then Delegators.Add(s.delegators[d], c, amount)
        else Delegators.New(d, c, amount);
      EvictNothingNew(s, c);
      EvictRecord(s, d, c);
      AdmitNothingNew(Evict(s, c), d, c, amount, after, s.total + SatSub(amount, KickedAmount(s, c)));
      NothingNewTransitive(s, Evict(s, c),
                           Admit(Evict(s, c), d, c, amount,
                                 after).(total := s.total + SatSub(amount, KickedAmount(s, c))));
    }
  }

  lemma EvictRecord(s: Ledger, d: Account, c: Account)
    requires Consistent(s) && Listed(s, c) && (d in s.delegators ==> Count(s.delegators[d].delegations, c) == 0)
    ensures d in Evict(s, c).delegators <==> d in s.delegators
    ensures d in s.delegators ==> Evict(s, c).delegators[d] == s.delegators[d]
  {
    hide Consistent, Sever;
    if d in s.delegators {
      StakeBounds(s.delegators[d].delegations, c);
    }
    DelegatorCalls.RoomRecord(s, d, c);
    DelegatorCalls.EvictIsRoom(s, c);
  }

  lemma RaiseStakeNothingNew(s: Ledger, d: Account, c: Account, more: Balance)
    requires Listed(s, c) && d in s.delegators
    ensures NothingNew(s, RaiseStake(s, d, c, more))
  {
    hide Queues.Raise, ExcessAt, NothingNew, Reindex, Shift;
    OnlyDropIsNothingNew(s, RaiseStake(s, d, c, more));
  }

  lemma DelegatorBondMoreNothingNew(s: Ledger, d: Account, c: Account, more: Balance)
    ensures NothingNew(s, DelegatorBondMore(s, d, c, more).ledger)
  {
    hide Queues.Raise, ExcessAt, NothingNew, Reindex;
    OnlyDropIsNothingNew(s, s);
    if DelegatorBondMore(s, d, c, more).outcome.Success? {
      RaiseStakeNothingNew(s, d, c, more);
    }
  }

  lemma LowerStakeNothingNew(s: Ledger, d: Account, c: Account, less: Balance)
    requires Listed(s, c) && d in s.delegators
    ensures NothingNew(s, LowerStake(s, d, c, less))
  {
    hide Reindex, Queues.Lower, ExcessAt, Drift, NothingNew, Delegators.DropRequest;
    DropRequests(s.delegators[d].requests, c);
    OnlyDropIsNothingNew(s, LowerStake(s, d, c, less));
  }

  lemma ExecuteDelegationRequestNothingNew(s: Ledger, d: Account, c: Account)
    ensures NothingNew(s, ExecuteDelegationRequest(s, d, c).ledger)
  {
    hide Sever, LowerStake, NothingNew;
    OnlyDropIsNothingNew(s, s);
    var r := ExecuteDelegationRequest(s, d, c);
    if r.outcome.Success? {
      var request := s.delegators[d].requests.requests[c];
      if request.action.Revoke? {
        SeverNothingNew(s, d, c, request.amount);
      } else {
        LowerStakeNothingNew(s, d, c, request.amount);
      }
    }
  }

  lemma InfoNothingNew(s: Ledger, r: Ledger, c: Account, m: Metadata)
    requires r.delegators == s.delegators && (r.info == s.info[c := m] || r.info == s.info)
    requires m.status.Leaving? ==> c in s.info && m.status == s.info[c].status
    requires m.request.Some? ==> c in s.info && m.request == s.info[c].request
    ensures NothingNew(s, r)
  {
    hide NothingNew, DueChange;
    OnlyDropIsNothingNew(s, r);
  }

  lemma RecordNothingNew(s: Ledger, r: Ledger, d: Account, after: Delegator)
    requires r.info == s.info && (r.delegators == s.delegators[d := after] || r.delegators == s.delegators)
    requires d in s.delegators && (after.status.Exiting? ==> after.status == s.delegators[d].status)
    requires forall x :: x in after.requests.requests ==>
               x in s.delegators[d].requests.requests
                 && after.requests.requests[x] == s.delegators[d].requests.requests[x]
    ensures NothingNew(s, r)
  {
    hide NothingNew;
    OnlyDropIsNothingNew(s, r);
  }

  lemma StatusCallsNothingNew(s: Ledger, call: Call)
    requires call.CallCancelLeaveCandidates? || call.CallGoOffline? || call.CallGoOnline?
    ensures NothingNew(s, Apply(s, call).ledger)
  {
    hide NothingNew, Reindex, Put, Without, CanReserve, Get;
    var r := Apply(s, call);
    var c := call.c;
    if r.outcome.Success? {
      InfoNothingNew(s, r.ledger, c, r.ledger.info[c]);
    } else {
      OnlyDropIsNothingNew(s, s);
    }
  }

  lemma JoinNothingNew(s: Ledger, acc: Account, bond: Balance, hint: nat)
    ensures NothingNew(s, JoinCandidates(s, acc, bond, hint).ledger)
  {
    hide NothingNew, Put, CanReserve, Get;
    var r := JoinCandidates(s, acc, bond, hint);
    if r.outcome.Success? {
      InfoNothingNew(s, r.ledger, acc, r.ledger.info[acc]);
    } else {
      OnlyDropIsNothingNew(s, s);
    }
  }

  lemma BondCallsNothingNew(s: Ledger, call: Call)
    requires call.CallCandidateBondMore? || call.CallExecuteCandidateBondLess? || call.CallCancelCandidateBondLess?
    ensures NothingNew(s, Apply(s, call).ledger)
  {
    hide NothingNew, Reindex, Put, Without, CanReserve, Get;
    var r := Apply(s, call);
    if r.outcome.Success? {
      InfoNothingNew(s, r.ledger, call.c, r.ledger.info[call.c]);
    } else {
      OnlyDropIsNothingNew(s, s);
    }
  }

  lemma CancelsNothingNew(s: Ledger, call: Call)
    requires call.CallCancelLeaveDelegators? || call.CallCancelDelegationRequest?
    ensures NothingNew(s, Apply(s, call).ledger)
  {
    hide NothingNew, Delegators.DropRequest;
    var r := Apply(s, call);
    if r.outcome.Success? {
      DropRequests(s.delegators[call.d].requests, if call.CallCancelDelegationRequest? then call.c else 0);
      RecordNothingNew(s, r.ledger, call.d, r.ledger.delegators[call.d]);
    } else {
      OnlyDropIsNothingNew(s, s);
    }
  }

  predicate IsScheduling(call: Call) {
    call.CallScheduleLeaveCandidates? || call.CallScheduleCandidateBondLess? || call.CallScheduleLeaveDelegators?
    || call.CallScheduleRevokeDelegation? || call.CallScheduleDelegatorBondLess?
  }

  lemma SameRecordsNothingNew(s: Ledger, r: Ledger)
    requires r.info == s.info && r.delegators == s.delegators
    ensures NothingNew(s, r)
  {
  }

  lemma NonSchedulingNothingNew(s: Ledger, call: Call)
    requires Consistent(s) && !IsScheduling(call)
    ensures NothingNew(s, Apply(s, call).ledger)
  {
    hide NothingNew, Consistent, Delegate, ExecuteLeaveCandidates, ExecuteLeaveDelegators, DelegatorBondMore,
      ExecuteDelegationRequest, JoinCandidates, CancelLeaveCandidates, GoOffline, GoOnline, CandidateBondMore,
      ExecuteCandidateBondLess, CancelCandidateBondLess, CancelLeaveDelegators, CancelDelegationRequest;
    match call
    case CallDelegate(d, c, amount, ch, dh) => DelegateNothingNew(s, d, c, amount, ch, dh);
    case CallExecuteLeaveCandidates(c, hint) => ExecuteLeaveCandidatesNothingNew(s, c, hint);
    case CallExecuteLeaveDelegators(d, hint) => ExecuteLeaveDelegatorsNothingNew(s, d, hint);
    case CallDelegatorBondMore(d, c, more) => DelegatorBondMoreNothingNew(s, d, c, more);
    case CallExecuteDelegationRequest(d, c) => ExecuteDelegationRequestNothingNew(s, d, c);
    case CallCancelLeaveDelegators(_) => CancelsNothingNew(s, call);
    case CallCancelDelegationRequest(_, _) => CancelsNothingNew(s, call);
    case CallJoinCandidates(acc, bond, hint) => JoinNothingNew(s, acc, bond, hint);
    case NewRound => SameRecordsNothingNew(s, Apply(s, call).ledger);
    case FreeBalancesChange(_) => SameRecordsNothingNew(s, Apply(s, call).ledger);
    case CallCancelLeaveCandidates(_, _) => StatusCallsNothingNew(s, call);
    case CallGoOffline(_) => StatusCallsNothingNew(s, call);
    case CallGoOnline(_) => StatusCallsNothingNew(s, call);
    case _ => BondCallsNothingNew(s, call);
  }

  /** One call: an item is due as before, or not pending, or just scheduled by this very call. */
  lemma StepDue(s: Ledger, call: Call, item: Item)
    requires Consistent(s)
    ensures var r := Apply(s, call);
            DueOrScheduled(s, r, call, item) || Due(r.ledger, item).None?
  {
    if IsScheduling(call) {
      ScheduleDue(s, call, item);
    } else {
      hide Consistent, Apply;
      NonSchedulingNothingNew(s, call);
    }
  }

  ghost predicate DueOrScheduled(s: Ledger, r: Result, call: Call, item: Item) {
    || Due(r.ledger, item) == Due(s, item)
    || (Schedules(call, item) && r.outcome.Success? && Due(r.ledger, item) == Some(PromiseOf(s, call)))
  }

  lemma ScheduleByCandidate(s: Ledger, call: Call, item: Item)
    requires call.CallScheduleLeaveCandidates? || call.CallScheduleCandidateBondLess?
    ensures DueOrScheduled(s, Apply(s, call), call, item)
  {
    hide Without, DueChange;
  }

  lemma ScheduleByDelegator(s: Ledger, call: Call, item: Item)
    requires call.CallScheduleLeaveDelegators? || call.CallScheduleRevokeDelegation?
             || call.CallScheduleDelegatorBondLess?
    ensures DueOrScheduled(s, Apply(s, call), call, item)
  {
    hide Count, Stake, SatSub;
  }

  lemma ScheduleDue(s: Ledger, call: Call, item: Item)
    requires IsScheduling(call)
    ensures DueOrScheduled(s, Apply(s, call), call, item)
  {
    hide Apply, DueOrScheduled;
    if call.CallScheduleLeaveCandidates? || call.CallScheduleCandidateBondLess? {
      ScheduleByCandidate(s, call, item);
    } else {
      ScheduleByDelegator(s, call, item);
    }
  }

  lemma {:induction false} SeverEachRound(s: Ledger, links: seq<Link>)
    ensures SeverEach(s, links).round == s.round
  {
    if links != [] {
      SeverEachRound(s, links[..|links| - 1]);
    }
  }

  lemma MovesKeepRound(s: Ledger, d: Account, c: Account, amount: Balance, after: Delegator)
    requires Listed(s, c)
    ensures Sever(s, d, c, amount).round == s.round && Admit(s, d, c, amount, after).round == s.round
    ensures d in s.delegators ==>
              RaiseStake(s, d, c, amount).round == s.round && LowerStake(s, d, c, amount).round == s.round
    ensures Evict(s, c).round == s.round
  {
  }

  lemma DelegateKeepsRound(s: Ledger, d: Account, c: Account, amount: Balance, candidateHint: nat, delegatorHint: nat)
    ensures Delegate(s, d, c, amount, candidateHint, delegatorHint).ledger.round == s.round
  {
    hide Admit, Evict, Queues.Accepts, KickedAmount, Delegators.Add, Delegators.New, CanReserve, SatSub;
    if Listed(s, c) {
      var after := if d in s.delegators then Delegators.Add(s.delegators[d], c, amount)
        else Delegators.New(d, c, amount);
      MovesKeepRound(s, d, c, amount, after);
      MovesKeepRound(Evict(s, c), d, c, amount, after);
    }
  }

  lemma BondMoreKeepsRound(s: Ledger, d: Account, c: Account, more: Balance)
    ensures DelegatorBondMore(s, d, c, more).ledger.round == s.round
  {
    hide RaiseStake, LowerStake, Sever, Admit, Evict;
    if Listed(s, c) && d in s.delegators {
      MovesKeepRound(s, d, c, more, s.delegators[d]);
    }
  }

  lemma RequestKeepsRound(s: Ledger, d: Account, c: Account)
    ensures ExecuteDelegationRequest(s, d, c).ledger.round == s.round
  {
    hide RaiseStake, LowerStake, Sever, Admit, Evict, Candidates.Reaches;
    if Listed(s, c) && d in s.delegators && c in s.delegators[d].requests.requests {
      MovesKeepRound(s, d, c, s.delegators[d].requests.requests[c].amount, s.delegators[d]);
    }
  }

  lemma DelegationCallsKeepRound(s: Ledger, call: Call)
    requires call.CallDelegate? || call.CallDelegatorBondMore? || call.CallExecuteDelegationRequest?
    ensures Apply(s, call).ledger.round == s.round
  {
    hide Delegate, DelegatorBondMore, ExecuteDelegationRequest;
    if call.CallDelegate? {
      DelegateKeepsRound(s, call.d, call.c, call.amount, call.candidateHint, call.delegatorHint);
    } else if call.CallDelegatorBondMore? {
      BondMoreKeepsRound(s, call.d, call.c, call.more);
    } else {
      RequestKeepsRound(s, call.d, call.c);
    }
  }

  lemma ExitsKeepRound(s: Ledger, call: Call)
    requires call.CallExecuteLeaveCandidates? || call.CallExecuteLeaveDelegators?
    ensures Apply(s, call).ledger.round == s.round
  {
    hide SeverEach;
    if call.CallExecuteLeaveCandidates? && Listed(s, call.c) {
      SeverEachRound(s, LinksTo(call.c, Queues.Entries(QueueAt(s, call.c))));
    } else if call.CallExecuteLeaveDelegators? && call.d in s.delegators {
      SeverEachRound(s, LinksFrom(call.d, s.delegators[call.d].delegations));
    }
  }

  /** Only a new round moves the round index, and by one. */
  lemma RoundsAdvance(s: Ledger, call: Call)
    ensures Apply(s, call).ledger.round == s.round + if call.NewRound? then 1 else 0
  {
    if call.CallDelegate? || call.CallDelegatorBondMore? || call.CallExecuteDelegationRequest? {
      hide Apply;
      DelegationCallsKeepRound(s, call);
    } else if call.CallExecuteLeaveCandidates? || call.CallExecuteLeaveDelegators? {
      hide Apply;
      ExitsKeepRound(s, call);
    } else {
      hide Reindex, Put, Without, Delegate, DelegatorBondMore, ExecuteDelegationRequest, ExecuteLeaveCandidates,
        ExecuteLeaveDelegators;
    }
  }

  /** What is carried out was pending and due. */
  lemma ExecutedWhenDue(s: Ledger, call: Call, item: Item)
    requires Executes(call, item) && Apply(s, call).outcome.Success?
    ensures Due(s, item).Some? && Due(s, item).value.when <= s.round
  {
    hide SeverEach, LowerStake, Sever;
  }

  // ----- over runs -----

  /** Call `i` of the run scheduled the item, which then stayed pending as promised up to state `j`. */
  ghost predicate ScheduledAt(s: Ledger, calls: seq<Call>, item: Item, i: nat, j: nat)
    requires i < j <= |calls|
  {
    && Schedules(calls[i], item)
    && Apply(Run(s, calls[..i]), calls[i]).outcome.Success?
    && forall k :: i < k <= j ==> Due(Run(s, calls[..k]), item) == Some(PromiseOf(Run(s, calls[..i]), calls[i]))
  }

  lemma RunStep(s: Ledger, calls: seq<Call>, j: nat)
    requires j < |calls|
    ensures Run(s, calls[..j + 1]) == Apply(Run(s, calls[..j]), calls[j]).ledger
  {
    assert calls[..j + 1][..j] == calls[..j];
  }

  lemma {:induction false} PendingWasScheduled(s: Ledger, calls: seq<Call>, item: Item, j: nat) returns (i: nat)
    requires Consistent(s) && Due(s, item).None? && j <= |calls| && Due(Run(s, calls[..j]), item).Some?
    ensures i < j && ScheduledAt(s, calls, item, i, j)
  {
    hide Consistent, Due, Apply, Schedules, PromiseOf;
    assert calls[..0] == [];
    if j == 0 {
      assert false;
    } else {
      var before := Run(s, calls[..j - 1]);
      RunStep(s, calls, j - 1);
      RunConsistent(s, calls[..j - 1]);
      StepDue(before, calls[j - 1], item);
      if Due(Run(s, calls[..j]), item) == Due(before, item) {
        i := PendingWasScheduled(s, calls, item, j - 1);
      } else {
        i := j - 1;
      }
    }
  }

  lemma {:induction false} RunRoundNeverFalls(s: Ledger, calls: seq<Call>, i: nat, j: nat)
    requires i <= j <= |calls|
    ensures Run(s, calls[..j]).round >= Run(s, calls[..i]).round
  {
    hide Apply;
    if i < j {
      RunRoundNeverFalls(s, calls, i, j - 1);
      RunStep(s, calls, j - 1);
      RoundsAdvance(Run(s, calls[..j - 1]), calls[j - 1]);
    }
  }

  /** Delay safety: whatever call `j` carries out was scheduled by an earlier call of the run, not
      cancelled since, at least that call's delay ago; with the amount it was scheduled with, and as a
      revocation if and only if a revocation was scheduled. */
  lemma DelayTheorem(s: Ledger, calls: seq<Call>, item: Item, j: nat) returns (i: nat)
    requires Consistent(s) && Due(s, item).None? && j < |calls|
    requires Executes(calls[j], item) && Apply(Run(s, calls[..j]), calls[j]).outcome.Success?
    ensures i < j && ScheduledAt(s, calls, item, i, j)
    ensures Run(s, calls[..j]).round >= Run(s, calls[..i]).round + DelayOf(calls[i])
    ensures Due(Run(s, calls[..j]), item) == Some(PromiseOf(Run(s, calls[..i]), calls[i]))
    ensures Due(Run(s, calls[..j]), item).value.revokes <==> calls[i].CallScheduleRevokeDelegation?
  {
    hide Consistent, Due, Apply, Schedules, Executes;
    ExecutedWhenDue(Run(s, calls[..j]), calls[j], item);
    i := PendingWasScheduled(s, calls, item, j);
    assert Due(Run(s, calls[..j]), item) == Some(PromiseOf(Run(s, calls[..i]), calls[i]));
  }
}

/** Every call at once: on any consistent ledger it succeeds exactly when `Succeeds` says so of the ledger
    before; then exactly the facts that `Happens` names have changed, and otherwise nothing has. */
module Effects {
  import opened Bonds
  import opened Params
  import opened Ledgers
  import opened Calls
  import opened Runs
  import opened Facts
  import CE = CandidateEffects
  import opened DelegatorEffects
  import opened ExitEffects
  import Candidates
  import Delegators
  import Guarantees

  ghost predicate Succeeds(s: Ledger, call: Call) {
    match call
    case CallJoinCandidates(acc, bond, hint) =>
      acc !in s.info && acc !in s.delegators && bond >= MIN_CANDIDATE_STK && hint >= |s.pool|
        && Get(s.free, acc) >= bond
    case CallScheduleLeaveCandidates(c, hint) => c in s.info && !s.info[c].status.Leaving? && hint >= |s.pool|
    case CallCancelLeaveCandidates(c, hint) => c in s.info && s.info[c].status.Leaving? && hint >= |s.pool|
    case CallExecuteLeaveCandidates(c, hint) =>
      && c in s.info && s.info[c].delegationCount <= hint
      && s.info[c].status.Leaving? && s.info[c].status.when <= s.round
    case CallGoOffline(c) => c in s.info && s.info[c].status.Active?
    case CallGoOnline(c) => c in s.info && s.info[c].status.Idle?
    case CallCandidateBondMore(c, more) => c in s.info && Get(s.free, c) >= more
    case CallScheduleCandidateBondLess(c, less) =>
      c in s.info && s.info[c].request.None? && less < s.info[c].bond && s.info[c].bond - less >= MIN_CANDIDATE_STK
    case CallExecuteCandidateBondLess(c) =>
      c in s.info && s.info[c].request.Some? && s.info[c].request.value.whenExecutable <= s.round
    case CallCancelCandidateBondLess(c) => c in s.info && s.info[c].request.Some?
    case CallDelegate(d, c, amount, candidateHint, delegatorHint) =>
      MayDelegate(s, d, c, amount, delegatorHint) && MayBeDelegatedTo(s, c, amount, candidateHint)
    case CallDelegatorBondMore(d, c, more) => Stake(s.delegators, d, c) > 0 && Get(s.free, d) >= more
    case CallScheduleRevokeDelegation(d, c) => Stake(s.delegators, d, c) > 0 && RequestOn(s, d, c).None?
    case CallScheduleDelegatorBondLess(d, c, less) => MayDecrease(s, d, c, less)
    case CallExecuteDelegationRequest(d, c) =>
      && RequestDue(s, d, c) && LeavesMinimum(s, d, c)
      && !(RequestOn(s, d, c).value.action.Revoke? && Guarantees.StoredBelowTop(s, d, c))
    case CallCancelDelegationRequest(d, c) => RequestOn(s, d, c).Some?
    case CallScheduleLeaveDelegators(d) => d in s.delegators && s.delegators[d].status.Staying?
    case CallCancelLeaveDelegators(d) => d in s.delegators && s.delegators[d].status.Exiting?
    case CallExecuteLeaveDelegators(d, hint) =>
      && d in s.delegators && |s.delegators[d].delegations| <= hint
      && s.delegators[d].status.Exiting? && s.delegators[d].status.when <= s.round
    case NewRound => true
    case FreeBalancesChange(_) => true
  }

  ghost predicate Happens(s: Ledger, call: Call, t: Ledger)
    requires Succeeds(s, call)
  {
    match call
    case CallJoinCandidates(acc, bond, _) =>
      CE.OnlyJoined(s, t, acc, bond) && OtherPool(s, t, acc) && Bond(acc, bond) in t.pool
    case CallScheduleLeaveCandidates(c, _) =>
      CE.OnlyStatus(s, t, c, Candidates.Leaving(s.round + LEAVE_CANDIDATES_DELAY)) && Count(t.pool, c) == 0
    case CallCancelLeaveCandidates(c, _) =>
      CE.OnlyStatus(s, t, c, Candidates.Active) && Bond(c, s.info[c].totalCounted) in t.pool
    case CallExecuteLeaveCandidates(c, _) =>
      && Disbanded(s, t, c) && t.pool == s.pool && Count(t.pool, c) == 0 && c in s.top && c in s.bottom
      && t.total == SatSub(s.total, s.info[c].bond + s.top[c].total + s.bottom[c].total)
    case CallGoOffline(c) => CE.OnlyStatus(s, t, c, Candidates.Idle) && Count(t.pool, c) == 0
    case CallGoOnline(c) => CE.OnlyStatus(s, t, c, Candidates.Active) && Bond(c, s.info[c].totalCounted) in t.pool
    case CallCandidateBondMore(c, more) => CE.OnlyBond(s, t, c, more, s.info[c].request) && FundsMove(s, t, c, more)
    case CallScheduleCandidateBondLess(c, less) =>
      && CE.OnlyBond(s, t, c, 0, Some(Candidates.BondLess(less, s.round + CANDIDATE_BOND_LESS_DELAY)))
      && SameFunds(s, t)
    case CallExecuteCandidateBondLess(c) =>
      && CE.OnlyBond(s, t, c, 0 - s.info[c].request.value.amount, None)
      && FundsMove(s, t, c, 0 - s.info[c].request.value.amount)
    case CallCancelCandidateBondLess(c) => CE.OnlyBond(s, t, c, 0, None) && SameFunds(s, t)
    case CallDelegate(d, c, amount, _, _) => Placed(s, t, d, c, amount, KickedFrom(s, c))
    case CallDelegatorBondMore(d, c, more) =>
      Moves(s, t, d, c, more, more) && SameRequests(s, t) && d in t.delegators && t.total == s.total + more
    case CallScheduleRevokeDelegation(d, c) =>
      OnlyRequest(s, t, d, c, Some(Delegators.DelegationRequest(
                                     c, Stake(s.delegators, d, c), s.round + REVOKE_DELEGATION_DELAY,
                                       Delegators.Revoke)))
    case CallScheduleDelegatorBondLess(d, c, less) =>
      OnlyRequest(s, t, d, c, Some(Delegators.DelegationRequest(
                                     c, less, s.round + DELEGATION_BOND_LESS_DELAY, Delegators.Decrease)))
    case CallExecuteDelegationRequest(d, c) =>
      var q := RequestOn(s, d, c).value;
      && RequestEnds(s, t, d, c) && t.total == SatSub(s.total, q.amount)
      && if q.action.Revoke? then Revoked(s, t, d, c, q.amount)
         else Moves(s, t, d, c, 0 - q.amount, 0 - q.amount) && d in t.delegators
    case CallCancelDelegationRequest(d, c) => OnlyRequest(s, t, d, c, None)
    case CallScheduleLeaveDelegators(d) => OnlyExit(s, t, d, Delegators.Exiting(s.round + LEAVE_DELEGATORS_DELAY))
    case CallCancelLeaveDelegators(d) => OnlyExit(s, t, d, Delegators.Staying)
    case CallExecuteLeaveDelegators(d, _) => Departed(s, t, d)
    case NewRound => t == s.(round := s.round + 1)
    case FreeBalancesChange(free) => t == s.(free := free)
  }

  ghost predicate HasEffect(s: Ledger, call: Call) {
    var r := Apply(s, call);
    && (r.outcome.Success? <==> Succeeds(s, call))
    && (r.outcome.Success? ==> Happens(s, call, r.ledger))
    && (r.outcome.Failure? ==> r.ledger == s)
  }

  /** What each call does, and exactly when. */
  lemma EffectTheorem(s: Ledger, call: Call)
    requires Consistent(s)
    ensures HasEffect(s, call)
  {
    hide Consistent, HasEffect;
    if call.NewRound? || call.FreeBalancesChange? {
      EnvironmentEffect(s, call);
    } else if ByCandidate(call) {
      CandidateCallEffect(s, call);
    } else if ByDelegator(call) {
      DelegatorCallEffect(s, call);
    } else {
      MoveCallEffect(s, call);
    }
  }

  predicate ByCandidate(call: Call) {
    || call.CallJoinCandidates? || call.CallScheduleLeaveCandidates? || call.CallCancelLeaveCandidates?
    || call.CallExecuteLeaveCandidates? || call.CallGoOffline? || call.CallGoOnline? || call.CallCandidateBondMore?
    || call.CallScheduleCandidateBondLess? || call.CallExecuteCandidateBondLess? || call.CallCancelCandidateBondLess?
  }

  /** Requests and exits scheduled and cancelled. */
  predicate ByDelegator(call: Call) {
    || call.CallScheduleRevokeDelegation? || call.CallScheduleDelegatorBondLess? || call.CallCancelDelegationRequest?
    || call.CallScheduleLeaveDelegators? || call.CallCancelLeaveDelegators?
  }

  lemma EnvironmentEffect(s: Ledger, call: Call)
    requires call.NewRound? || call.FreeBalancesChange?
    ensures HasEffect(s, call)
  {
  }

  lemma CandidateCallEffect(s: Ledger, call: Call)
    requires Consistent(s) && ByCandidate(call)
    ensures HasEffect(s, call)
  {
    hide Consistent, CE.OnlyJoined, CE.OnlyStatus, CE.OnlyBond, OtherPool, FundsMove, SameFunds, Disbanded,
      JoinCandidates, ScheduleLeaveCandidates, ExecuteLeaveCandidates, CancelLeaveCandidates, GoOffline, GoOnline,
      CandidateBondMore, ScheduleCandidateBondLess, ExecuteCandidateBondLess, CancelCandidateBondLess;
    match call
    case CallJoinCandidates(acc, bond, hint) => CE.JoinEffect(s, acc, bond, hint);
    case CallScheduleLeaveCandidates(c, hint) => CE.ScheduleLeaveEffect(s, c, hint);
    case CallCancelLeaveCandidates(c, hint) => CE.CancelLeaveEffect(s, c, hint);
    case CallExecuteLeaveCandidates(c, hint) =>
      LeaveCandidatesEffect(s, c, hint);
      Guarantees.ListedIfCandidate(s, c);
    case CallGoOffline(c) => CE.GoOfflineEffect(s, c);
    case CallGoOnline(c) => CE.GoOnlineEffect(s, c);
    case CallCandidateBondMore(c, more) => CE.BondMoreEffect(s, c, more);
    case CallScheduleCandidateBondLess(c, less) => CE.ScheduleBondLessEffect(s, c, less);
    case CallExecuteCandidateBondLess(c) => CE.ExecuteBondLessEffect(s, c);
    case CallCancelCandidateBondLess(c) => CE.CancelBondLessEffect(s, c);
  }

  lemma DelegatorCallEffect(s: Ledger, call: Call)
    requires Consistent(s) && ByDelegator(call)
    ensures HasEffect(s, call)
  {
    hide Consistent, OnlyRequest, OnlyExit, ScheduleLeaveDelegators, CancelLeaveDelegators, ScheduleRevokeDelegation,
      ScheduleDelegatorBondLess, CancelDelegationRequest, Stake, RequestOn, MayDecrease;
    match call
    case CallScheduleRevokeDelegation(d, c) => ScheduleRevokeEffect(s, d, c);
    case CallScheduleDelegatorBondLess(d, c, less) => ScheduleBondLessEffect(s, d, c, less);
    case CallCancelDelegationRequest(d, c) => CancelRequestEffect(s, d, c);
    case CallScheduleLeaveDelegators(d) => ScheduleLeaveEffect(s, d);
    case CallCancelLeaveDelegators(d) => CancelLeaveEffect(s, d);
  }

  /** The calls that move stake between a delegator and a candidate, and a delegator's exit. */
  lemma MoveCallEffect(s: Ledger, call: Call)
    requires Consistent(s)
    requires call.CallDelegate? || call.CallDelegatorBondMore? || call.CallExecuteDelegationRequest?
             || call.CallExecuteLeaveDelegators?
    ensures HasEffect(s, call)
  {
    hide Consistent, Departed, Placed, Moves, Revoked, RequestEnds, SameRequests, MayDelegate, MayBeDelegatedTo,
      LeavesMinimum, RequestDue, Guarantees.StoredBelowTop, KickedFrom, Delegate, ExecuteLeaveDelegators,
      DelegatorBondMore, ExecuteDelegationRequest, Stake, RequestOn;
    match call
    case CallDelegate(d, c, amount, candidateHint, delegatorHint) =>
      DelegateEffect(s, d, c, amount, candidateHint, delegatorHint);
    case CallDelegatorBondMore(d, c, more) => BondMoreEffect(s, d, c, more);
    case CallExecuteDelegationRequest(d, c) => ExecuteRequestEffect(s, d, c);
    case CallExecuteLeaveDelegators(d, hint) => LeaveDelegatorsEffect(s, d, hint);
  }

  /** So it is in every state of every run from an empty chain. */
  lemma RunEffects(round: nat, free: map<Account, Balance>, calls: seq<Call>, i: nat)
    requires i < |calls|
    ensures var s := Run(Start(round, free), calls[..i]); var t := Run(Start(round, free), calls[..i + 1]);
            if Succeeds(s, calls[i]) then Happens(s, calls[i], t) else t == s
  {
    hide Apply, Succeeds, Happens, Consistent, Run;
    var start := Start(round, free);
    StartOk(round, free);
    RunConsistent(start, calls[..i]);
    EffectTheorem(Run(start, calls[..i]), calls[i]);
    NextInRun(start, calls, i);
  }

  lemma NextInRun(s: Ledger, calls: seq<Call>, i: nat)
    requires i < |calls|
    ensures Run(s, calls[..i + 1]) == Apply(Run(s, calls[..i]), calls[i]).ledger
  {
    hide Apply;
    assert calls[..i + 1][..i] == calls[..i];
  }
}

/** What an error tells the caller: whichever call is refused, the reason it names is true of the ledger
    before. */
module Refusals {
  import opened Bonds
  import opened Params
  import opened Ledgers
  import opened Calls
  import opened OrderedSets
  import opened DelegatorCalls
  import opened Runs
  import opened Transitions
  import opened Facts
  import opened DelegatorEffects
  import Queues
  import Candidates
  import Guarantees

  /** The candidate a call is about. */
  function CandidateOf(call: Call): Account {
    match call
    case CallScheduleLeaveCandidates(c, _) => c
    case CallExecuteLeaveCandidates(c, _) => c
    case CallCancelLeaveCandidates(c, _) => c
    case CallGoOffline(c) => c
    case CallGoOnline(c) => c
    case CallCandidateBondMore(c, _) => c
    case CallScheduleCandidateBondLess(c, _) => c
    case CallExecuteCandidateBondLess(c) => c
    case CallCancelCandidateBondLess(c) => c
    case CallDelegate(_, c, _, _, _) => c
    case CallScheduleRevokeDelegation(_, c) => c
    case CallDelegatorBondMore(_, c, _) => c
    case CallScheduleDelegatorBondLess(_, c, _) => c
    case CallExecuteDelegationRequest(_, c) => c
    case CallCancelDelegationRequest(_, c) => c
    case _ => 0
  }

  /** The account that calls. */
  function CallerOf(call: Call): Account {
    match call
    case CallJoinCandidates(acc, _, _) => acc
    case CallDelegate(d, _, _, _, _) => d
    case CallScheduleLeaveDelegators(d) => d
    case CallExecuteLeaveDelegators(d, _) => d
    case CallCancelLeaveDelegators(d) => d
    case CallScheduleRevokeDelegation(d, _) => d
    case CallDelegatorBondMore(d, _, _) => d
    case CallScheduleDelegatorBondLess(d, _, _) => d
    case CallExecuteDelegationRequest(d, _) => d
    case CallCancelDelegationRequest(d, _) => d
    case _ => CandidateOf(call)
  }

  function AmountOf(call: Call): Balance {
    match call
    case CallJoinCandidates(_, bond, _) => bond
    case CallCandidateBondMore(_, more) => more
    case CallScheduleCandidateBondLess(_, less) => less
    case CallDelegate(_, _, amount, _, _) => amount
    case CallDelegatorBondMore(_, _, more) => more
    case CallScheduleDelegatorBondLess(_, _, less) => less
    case _ => 0
  }

  /** The count a call was told to expect. */
  function HintOf(call: Call): nat {
    match call
    case CallJoinCandidates(_, _, hint) => hint
    case CallScheduleLeaveCandidates(_, hint) => hint
    case CallExecuteLeaveCandidates(_, hint) => hint
    case CallCancelLeaveCandidates(_, hint) => hint
    case CallExecuteLeaveDelegators(_, hint) => hint
    case CallDelegate(_, _, _, candidateHint, _) => candidateHint
    case _ => 0
  }

  // ----- reasons -----

  predicate Has(s: Ledger, d: Account, status: bool) {
    d in s.delegators && s.delegators[d].status.Exiting? == status
  }

  ghost predicate CandidateReason(s: Ledger, call: Call, e: Error) {
    var c := CandidateOf(call);
    match e
    case CandidateDNE => c !in s.info
    case DelegatorExists => CallerOf(call) in s.delegators
    case CandidateExists => CallerOf(call) in s.info
    case CandidateBondBelowMin =>
      if call.CallJoinCandidates? then AmountOf(call) < MIN_CANDIDATE_STK
      else c in s.info && (s.info[c].bond <= AmountOf(call) || s.info[c].bond < AmountOf(call) + MIN_CANDIDATE_STK)
    case AlreadyOffline => c in s.info && !s.info[c].status.Active?
    case AlreadyActive => c in s.info && s.info[c].status.Active?
    case CandidateAlreadyLeaving => c in s.info && s.info[c].status.Leaving?
    case CandidateNotLeaving => c in s.info && !s.info[c].status.Leaving?
    case CandidateCannotLeaveYet => c in s.info && s.info[c].status.Leaving? && s.round < s.info[c].status.when
    case CannotGoOnlineIfLeaving => c in s.info && s.info[c].status.Leaving?
    case TooLowCandidateCountWeightHintJoinCandidates => HintOf(call) < |s.pool|
    case TooLowCandidateCountWeightHintCancelLeaveCandidates => HintOf(call) < |s.pool|
    case TooLowCandidateCountToLeaveCandidates => HintOf(call) < |s.pool|
    case TooLowCandidateDelegationCountToDelegate => Listed(s, c) && HintOf(call) < s.info[c].delegationCount
    case TooLowCandidateDelegationCountToLeaveCandidates => c in s.info && HintOf(call) < s.info[c].delegationCount
    case PendingCandidateRequestsDNE => c in s.info && s.info[c].request.None?
    case PendingCandidateRequestAlreadyExists => c in s.info && s.info[c].request.Some?
    case PendingCandidateRequestNotDueYet =>
      c in s.info && s.info[c].request.Some? && s.info[c].request.value.whenExecutable > s.round
    case CannotDelegateLessThanLowestBottomWhenBottomIsFull =>
      Listed(s, c) && KickedFrom(s, c).Some? && AmountOf(call) <= KickedFrom(s, c).value.amount
    case _ => false
  }

  ghost predicate DelegatorReason(s: Ledger, call: Call, e: Error) {
    var d, c := CallerOf(call), CandidateOf(call);
    match e
    case DelegatorDNE => d !in s.delegators || (call.CallCancelLeaveDelegators? && s.delegators[d].status.Staying?)
    case DelegationDNE => Stake(s.delegators, d, c) == 0 || Guarantees.StoredBelowTop(s, d, c)
    case AlreadyDelegatedCandidate => Stake(s.delegators, d, c) > 0
    case DelegatorAlreadyLeaving => Has(s, d, true)
    case CannotDelegateIfLeaving => Has(s, d, true)
    case DelegatorNotLeaving => Has(s, d, false)
    case DelegatorCannotLeaveYet => Has(s, d, true) && s.round < s.delegators[d].status.when
    case ExceedMaxDelegationsPerDelegator =>
      d in s.delegators && |s.delegators[d].delegations| == MAX_DELEGATIONS_PER_DELEGATOR
    case TooLowDelegationCountToDelegate =>
      call.CallDelegate? && d in s.delegators && call.delegatorHint < |s.delegators[d].delegations|
    case TooLowDelegationCountToLeaveDelegators =>
      d in s.delegators && HintOf(call) < |s.delegators[d].delegations|
    case PendingDelegationRequestDNE => RequestOn(s, d, c).None?
    case PendingDelegationRequestAlreadyExists => RequestOn(s, d, c).Some?
    case PendingDelegationRequestNotDueYet =>
      RequestOn(s, d, c).Some? && RequestOn(s, d, c).value.whenExecutable > s.round
    case _ => false
  }

  /** A balance or a minimum stands in the way. */
  ghost predicate AmountReason(s: Ledger, call: Call, e: Error) {
    var d, c := CallerOf(call), CandidateOf(call);
    match e
    case InsufficientBalance => Get(s.free, d) < AmountOf(call)
    case DelegationBelowMin =>
      if call.CallDelegate? then AmountOf(call) < MIN_DELEGATION
      else call.CallScheduleDelegatorBondLess? && Stake(s.delegators, d, c) < AmountOf(call) + MIN_DELEGATION
    case DelegatorBondBelowMin =>
      if call.CallDelegate? then d !in s.delegators && AmountOf(call) < MIN_DELEGATOR_STK
      else if call.CallScheduleDelegatorBondLess? then
        && d in s.delegators
        && (Stake(s.delegators, d, c) <= AmountOf(call)
            || s.delegators[d].total < s.delegators[d].requests.lessTotal + AmountOf(call) + MIN_DELEGATOR_STK)
      else RequestOn(s, d, c).Some? && s.delegators[d].total < RequestOn(s, d, c).value.amount + MIN_DELEGATOR_STK
    case _ => false
  }

  /** Whatever error a call is refused with, it tells the truth. */
  ghost predicate TellsTruth(s: Ledger, call: Call) {
    var r := Apply(s, call).outcome;
    r.Failure? ==>
      CandidateReason(s, call, r.error) || DelegatorReason(s, call, r.error) || AmountReason(s, call, r.error)
  }

  lemma ErrorTheorem(s: Ledger, call: Call)
    requires Consistent(s)
    ensures TellsTruth(s, call)
  {
    hide Consistent, TellsTruth;
    if call.CallDelegate? {
      DelegateErrors(s, call);
    } else if call.CallExecuteDelegationRequest? {
      RequestErrors(s, call);
    } else if call.CallScheduleRevokeDelegation? || call.CallScheduleDelegatorBondLess? || call.CallDelegatorBondMore?
              || call.CallCancelDelegationRequest? {
      DelegationErrors(s, call);
    } else if call.CallScheduleLeaveDelegators? || call.CallExecuteLeaveDelegators? || call.CallCancelLeaveDelegators? {
      LeaveErrors(s, call);
    } else if call.CallJoinCandidates? || call.CallExecuteLeaveCandidates? {
      EntryErrors(s, call);
    } else {
      CandidateErrors(s, call);
    }
  }

  lemma DelegateErrors(s: Ledger, call: Call)
    requires Consistent(s) && call.CallDelegate?
    ensures TellsTruth(s, call)
  {
    hide Consistent, Stake, KickedFrom, Admit, Evict, KickedAmount, Queues.Accepts;
    StakeIff(s, call.d, call.c);
    if call.d in s.delegators {
      RecordWithinMax(s, call.d);
    }
    Guarantees.ListedIfCandidate(s, call.c);
    if Listed(s, call.c) {
      KickedIs(s, call.c, Bond(call.d, call.amount));
    }
  }

  lemma RecordWithinMax(s: Ledger, d: Account)
    requires Consistent(s) && d in s.delegators
    ensures |s.delegators[d].delegations| <= MAX_DELEGATIONS_PER_DELEGATOR
  {
    RecordIsOk(s, d);
  }

  lemma RequestErrors(s: Ledger, call: Call)
    requires Consistent(s) && call.CallExecuteDelegationRequest?
    ensures TellsTruth(s, call)
  {
    hide Consistent, Stake, Sever, LowerStake, Candidates.Reaches, Guarantees.StoredBelowTop;
    if RequestOn(s, call.d, call.c).Some? {
      RequestIsFor(s, call.d, call.c);
      RevokeReaches(s, call.d, call.c);
      if RequestOn(s, call.d, call.c).value.action.Decrease? {
        DecreaseFits(s, call.d, call.c);
        DecreaseLeaves(s, call.d, call.c);
      }
    }
  }

  /** What a pending decrease leaves is at least the minimum of a delegation. */
  lemma DecreaseLeaves(s: Ledger, d: Account, c: Account)
    requires Consistent(s) && RequestOn(s, d, c).Some? && RequestOn(s, d, c).value.action.Decrease?
    ensures SatSub(s.delegators[d].total, RequestOn(s, d, c).value.amount) >= MIN_DELEGATION
  {
    RecordIsOk(s, d);
    StakeBounds(s.delegators[d].delegations, c);
  }

  lemma DelegationErrors(s: Ledger, call: Call)
    requires Consistent(s)
    requires call.CallScheduleRevokeDelegation? || call.CallScheduleDelegatorBondLess? || call.CallDelegatorBondMore?
             || call.CallCancelDelegationRequest?
    ensures TellsTruth(s, call)
  {
    hide Consistent, RaiseStake, WithRequest;
    StakeIff(s, call.d, call.c);
    Guarantees.ListedIfCandidate(s, call.c);
  }

  lemma LeaveErrors(s: Ledger, call: Call)
    requires call.CallScheduleLeaveDelegators? || call.CallExecuteLeaveDelegators? || call.CallCancelLeaveDelegators?
    ensures TellsTruth(s, call)
  {
    hide SeverEach;
  }

  lemma EntryErrors(s: Ledger, call: Call)
    requires Consistent(s) && (call.CallJoinCandidates? || call.CallExecuteLeaveCandidates?)
    ensures TellsTruth(s, call)
  {
    hide Consistent, SeverEach, RemoveCandidate, Put;
    Guarantees.ListedIfCandidate(s, CandidateOf(call));
  }

  predicate OfCandidate(call: Call) {
    || call.CallScheduleLeaveCandidates? || call.CallCancelLeaveCandidates? || call.CallGoOffline? || call.CallGoOnline?
    || call.CallCandidateBondMore? || call.CallScheduleCandidateBondLess? || call.CallExecuteCandidateBondLess?
    || call.CallCancelCandidateBondLess? || call.NewRound? || call.FreeBalancesChange?
  }

  lemma CandidateErrors(s: Ledger, call: Call)
    requires OfCandidate(call)
    ensures TellsTruth(s, call)
  {
    hide Reindex, Put, Without;
  }
}

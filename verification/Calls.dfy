/** What each extrinsic does to the ledger, as a function: the checks in the order the code makes
    them, and the new ledger. A call that fails leaves the ledger as it was. */
module Calls {
  import opened Bonds
  import opened Params
  import opened OrderedSets
  import opened Ledgers
  import opened Transitions
  import Queues
  import Candidates
  import Delegators

  datatype Error =
    | DelegatorDNE
    | CandidateDNE
    | DelegationDNE
    | DelegatorExists
    | CandidateExists
    | CandidateBondBelowMin
    | InsufficientBalance
    | DelegatorBondBelowMin
    | DelegationBelowMin
    | AlreadyOffline
    | AlreadyActive
    | DelegatorAlreadyLeaving
    | DelegatorNotLeaving
    | DelegatorCannotLeaveYet
    | CannotDelegateIfLeaving
    | CandidateAlreadyLeaving
    | CandidateNotLeaving
    | CandidateCannotLeaveYet
    | CannotGoOnlineIfLeaving
    | ExceedMaxDelegationsPerDelegator
    | AlreadyDelegatedCandidate
    | TooLowCandidateCountWeightHintJoinCandidates
    | TooLowCandidateCountWeightHintCancelLeaveCandidates
    | TooLowCandidateCountToLeaveCandidates
    | TooLowDelegationCountToDelegate
    | TooLowCandidateDelegationCountToDelegate
    | TooLowCandidateDelegationCountToLeaveCandidates
    | TooLowDelegationCountToLeaveDelegators
    | PendingCandidateRequestsDNE
    | PendingCandidateRequestAlreadyExists
    | PendingCandidateRequestNotDueYet
    | PendingDelegationRequestDNE
    | PendingDelegationRequestAlreadyExists
    | PendingDelegationRequestNotDueYet
    | CannotDelegateLessThanLowestBottomWhenBottomIsFull

  datatype Outcome = Success | Failure(error: Error)

  datatype Result = Result(ledger: Ledger, outcome: Outcome)

  function Fail(s: Ledger, e: Error): Result {
    Result(s, Failure(e))
  }

  function Done(s: Ledger): Result {
    Result(s, Success)
  }

  function PutInfo(s: Ledger, c: Account, m: Metadata): Ledger {
    s.(info := s.info[c := m])
  }

  // ----- candidates -----

  function JoinCandidates(s: Ledger, acc: Account, bond: Balance, hint: nat): Result {
    if acc in s.info then Fail(s, CandidateExists)
    else if acc in s.delegators then Fail(s, DelegatorExists)
    else if bond < MIN_CANDIDATE_STK then Fail(s, CandidateBondBelowMin)
    else if hint < |s.pool| then Fail(s, TooLowCandidateCountWeightHintJoinCandidates)
    else if !CanReserve(s, acc, bond) then Fail(s, InsufficientBalance)
    else Done(Reserve(PutCandidate(s, acc, Candidates.Fresh(bond)).(
                        pool := Put(s.pool, Bond(acc, bond)), total := s.total + bond), acc, bond))
  }

  function ScheduleLeaveCandidates(s: Ledger, c: Account, hint: nat): Result {
    if c !in s.info then Fail(s, CandidateDNE)
    else if s.info[c].status.Leaving? then Fail(s, CandidateAlreadyLeaving)
    else if hint < |s.pool| then Fail(s, TooLowCandidateCountToLeaveCandidates)
    else Done(PutInfo(s, c, s.info[c].(status := Candidates.Leaving(s.round + LEAVE_CANDIDATES_DELAY))).(
                pool := Without(s.pool, c)))
  }

  function CancelLeaveCandidates(s: Ledger, c: Account, hint: nat): Result {
    if c !in s.info then Fail(s, CandidateDNE)
    else if !s.info[c].status.Leaving? then Fail(s, CandidateNotLeaving)
    else if hint < |s.pool| then Fail(s, TooLowCandidateCountWeightHintCancelLeaveCandidates)
    else Done(PutInfo(s, c, s.info[c].(status := Candidates.Active)).(
                pool := Put(s.pool, Bond(c, s.info[c].totalCounted))))
  }

  function GoOffline(s: Ledger, c: Account): Result {
    if c !in s.info then Fail(s, CandidateDNE)
    else if !s.info[c].status.Active? then Fail(s, AlreadyOffline)
    else Done(PutInfo(s, c, s.info[c].(status := Candidates.Idle)).(pool := Without(s.pool, c)))
  }

  function GoOnline(s: Ledger, c: Account): Result {
    if c !in s.info then Fail(s, CandidateDNE)
    else if s.info[c].status.Active? then Fail(s, AlreadyActive)
    else if s.info[c].status.Leaving? then Fail(s, CannotGoOnlineIfLeaving)
    else Done(PutInfo(s, c, s.info[c].(status := Candidates.Active)).(
                pool := Put(s.pool, Bond(c, s.info[c].totalCounted))))
  }

  function BondMoved(m: Metadata, delta: int): Metadata
    requires m.bond + delta >= 0 && m.totalCounted + delta >= 0
  {
    m.(bond := m.bond + delta, totalCounted := m.totalCounted + delta)
  }

  function CandidateBondMore(s: Ledger, c: Account, more: Balance): Result {
    if c !in s.info then Fail(s, CandidateDNE)
    else if !CanReserve(s, c, more) then Fail(s, InsufficientBalance)
    else
      var m := BondMoved(s.info[c], more);
      Done(Reserve(PutInfo(s, c, m).(pool := Reindex(s.pool, c, m), total := s.total + more), c, more))
  }

  function ScheduleCandidateBondLess(s: Ledger, c: Account, less: Balance): Result {
    if c !in s.info then Fail(s, CandidateDNE)
    else if s.info[c].request.Some? then Fail(s, PendingCandidateRequestAlreadyExists)
    else if s.info[c].bond <= less || s.info[c].bond - less < MIN_CANDIDATE_STK then Fail(s, CandidateBondBelowMin)
    else Done(PutInfo(s, c,
                      s.info[c].(request := Some(Candidates.BondLess(less, s.round + CANDIDATE_BOND_LESS_DELAY)))))
  }

  function ExecuteCandidateBondLess(s: Ledger, c: Account): Result {
    if c !in s.info then Fail(s, CandidateDNE)
    else if s.info[c].request.None? then Fail(s, PendingCandidateRequestsDNE)
    else if s.info[c].request.value.whenExecutable > s.round then Fail(s, PendingCandidateRequestNotDueYet)
    else
      var less := s.info[c].request.value.amount;
      var m := s.info[c].(bond := SatSub(s.info[c].bond, less), totalCounted := SatSub(s.info[c].totalCounted, less),
                          request := None);
      Done(Unreserve(PutInfo(s, c, m).(pool := Reindex(s.pool, c, m), total := SatSub(s.total, less)), c, less))
  }

  function CancelCandidateBondLess(s: Ledger, c: Account): Result {
    if c !in s.info then Fail(s, CandidateDNE)
    else if s.info[c].request.None? then Fail(s, PendingCandidateRequestsDNE)
    else Done(PutInfo(s, c, s.info[c].(request := None)))
  }

  // ----- ending many delegations -----

  /** One delegation and the amount it is released with. */
  datatype Link = Link(delegator: Account, candidate: Account, amount: Balance)

  /** The delegations to `c` among these entries of its lists. */
  function LinksTo(c: Account, entries: seq<Bond>): seq<Link> {
    if entries == [] then [] else LinksTo(c, DropLast(entries)) + [Link(Last(entries).owner, c, Last(entries).amount)]
  }

  /** The delegations of `d` among these entries of its record. */
  function LinksFrom(d: Account, entries: seq<Bond>): seq<Link> {
    if entries == [] then [] else LinksFrom(d, DropLast(entries)) + [Link(d, Last(entries).owner, Last(entries).amount)]
  }

  function SeverEach(s: Ledger, links: seq<Link>): Ledger {
    if links == [] then s
    else
      var r := SeverEach(s, links[..|links| - 1]);
      var l := links[|links| - 1];
      if Listed(r, l.candidate) then Sever(r, l.delegator, l.candidate, l.amount) else r
  }

  /** `c` is no candidate any more and gets its bond back. */
  function RemoveCandidate(s: Ledger, c: Account, bond: Balance, total: Balance): Ledger {
    Unreserve(s.(info := s.info - {c}, top := s.top - {c}, bottom := s.bottom - {c}, total := total), c, bond)
  }

  function ExecuteLeaveCandidates(s: Ledger, c: Account, hint: nat): Result {
    if !Listed(s, c) then Fail(s, CandidateDNE)
    else if s.info[c].delegationCount > hint then Fail(s, TooLowCandidateDelegationCountToLeaveCandidates)
    else if !s.info[c].status.Leaving? then Fail(s, CandidateNotLeaving)
    else if s.round < s.info[c].status.when then Fail(s, CandidateCannotLeaveYet)
    else
      var m := s.info[c];
      var r := SeverEach(s, LinksTo(c, Queues.Entries(QueueAt(s, c))));
      Done(RemoveCandidate(r, c, m.bond, SatSub(s.total, m.bond + s.top[c].total + s.bottom[c].total)))
  }

  // ----- delegators -----

  /** The lowest bottom delegation is kicked out when both lists are full. */
  function Evict(s: Ledger, c: Account): (r: Ledger)
    requires Listed(s, c)
    ensures Listed(r, c)
  {
    match Queues.Evicted(QueueAt(s, c))
    case None => s
    case Some(kicked) => Sever(s, kicked.owner, c, kicked.amount).(total := s.total)
  }

  function KickedAmount(s: Ledger, c: Account): Balance
    requires Listed(s, c)
  {
    Queues.EvictedAmount(QueueAt(s, c))
  }

  function Delegate(s: Ledger, d: Account, c: Account, amount: Balance, candidateHint: nat,
      delegatorHint: nat): Result {
    if !CanReserve(s, d, amount) then Fail(s, InsufficientBalance)
    else if d in s.delegators && s.delegators[d].status.Exiting? then Fail(s, CannotDelegateIfLeaving)
    else if d in s.delegators && amount < MIN_DELEGATION then Fail(s, DelegationBelowMin)
    else if d in s.delegators && delegatorHint < |s.delegators[d].delegations| then
      Fail(s, TooLowDelegationCountToDelegate)
    else if d in s.delegators && |s.delegators[d].delegations| >= MAX_DELEGATIONS_PER_DELEGATOR then
      Fail(s, ExceedMaxDelegationsPerDelegator)
    else if d in s.delegators && Count(s.delegators[d].delegations, c) > 0 then Fail(s, AlreadyDelegatedCandidate)
    else if d !in s.delegators && amount < MIN_DELEGATOR_STK then Fail(s, DelegatorBondBelowMin)
    else if d !in s.delegators && d in s.info then Fail(s, CandidateExists)
    else if !Listed(s, c) then Fail(s, CandidateDNE)
    else if candidateHint < s.info[c].delegationCount then Fail(s, TooLowCandidateDelegationCountToDelegate)
    else if !Queues.Accepts(QueueAt(s, c), Bond(d, amount)) then
      Fail(s, CannotDelegateLessThanLowestBottomWhenBottomIsFull)
    else
      var after := if d in s.delegators then Delegators.Add(s.delegators[d], c, amount)
        else Delegators.New(d, c, amount);
      Done(Admit(Evict(s, c), d, c, amount, after).(total := s.total + SatSub(amount, KickedAmount(s, c))))
  }

  function ScheduleLeaveDelegators(s: Ledger, d: Account): Result {
    if d !in s.delegators then Fail(s, DelegatorDNE)
    else if s.delegators[d].status.Exiting? then Fail(s, DelegatorAlreadyLeaving)
    else Done(s.(delegators := s.delegators[d := s.delegators[d].(
                   status := Delegators.Exiting(s.round + LEAVE_DELEGATORS_DELAY))]))
  }

  function CancelLeaveDelegators(s: Ledger, d: Account): Result {
    if d !in s.delegators then Fail(s, DelegatorDNE)
    else if !s.delegators[d].status.Exiting? then Fail(s, DelegatorDNE)
    else Done(s.(delegators := s.delegators[d := s.delegators[d].(status := Delegators.Staying)]))
  }

  function ExecuteLeaveDelegators(s: Ledger, d: Account, hint: nat): Result {
    if d !in s.delegators then Fail(s, DelegatorDNE)
    else if hint < |s.delegators[d].delegations| then Fail(s, TooLowDelegationCountToLeaveDelegators)
    else if !s.delegators[d].status.Exiting? then Fail(s, DelegatorNotLeaving)
    else if s.round < s.delegators[d].status.when then Fail(s, DelegatorCannotLeaveYet)
    else Done(SeverEach(s, LinksFrom(d, s.delegators[d].delegations)))
  }

  function WithRequest(s: Ledger, d: Account, r: Delegators.DelegationRequest): Ledger
    requires d in s.delegators
  {
    s.(delegators :=
       s.delegators[d := s.delegators[d].(requests := Delegators.AddRequest(s.delegators[d].requests, r))])
  }

  function ScheduleRevokeDelegation(s: Ledger, d: Account, c: Account): Result {
    if d !in s.delegators then Fail(s, DelegatorDNE)
    else if Count(s.delegators[d].delegations, c) == 0 then Fail(s, DelegationDNE)
    else if c in s.delegators[d].requests.requests then Fail(s, PendingDelegationRequestAlreadyExists)
    else Done(WithRequest(s, d, Delegators.DelegationRequest(
                            c, Stake(s.delegators, d, c), s.round + REVOKE_DELEGATION_DELAY, Delegators.Revoke)))
  }

  function ScheduleDelegatorBondLess(s: Ledger, d: Account, c: Account, less: Balance): Result {
    if d !in s.delegators then Fail(s, DelegatorDNE)
    else if Count(s.delegators[d].delegations, c) == 0 then Fail(s, DelegationDNE)
    else if Stake(s.delegators, d, c) <= less then Fail(s, DelegatorBondBelowMin)
    else if Stake(s.delegators, d, c) - less < MIN_DELEGATION then Fail(s, DelegationBelowMin)
    else if less > SatSub(SatSub(s.delegators[d].total, s.delegators[d].requests.lessTotal), MIN_DELEGATOR_STK) then
      Fail(s, DelegatorBondBelowMin)
    else if c in s.delegators[d].requests.requests then Fail(s, PendingDelegationRequestAlreadyExists)
    else Done(WithRequest(s, d, Delegators.DelegationRequest(
                            c, less, s.round + DELEGATION_BOND_LESS_DELAY, Delegators.Decrease)))
  }

  function DelegatorBondMore(s: Ledger, d: Account, c: Account, more: Balance): Result {
    if d !in s.delegators then Fail(s, DelegatorDNE)
    else if Count(s.delegators[d].delegations, c) == 0 then Fail(s, DelegationDNE)
    else if !Listed(s, c) then Fail(s, CandidateDNE)
    else if !CanReserve(s, d, more) then Fail(s, InsufficientBalance)
    else Done(RaiseStake(s, d, c, more))
  }

  function ExecuteRevoke(s: Ledger, d: Account, c: Account, amount: Balance): Result
    requires d in s.delegators
  {
    if |s.delegators[d].delegations| != 1 && SatSub(s.delegators[d].total, MIN_DELEGATOR_STK) < amount then
      Fail(s, DelegatorBondBelowMin)
    else if !Listed(s, c) then Fail(s, CandidateDNE)
    else if !Candidates.Reaches(CandidateAt(s, c), d, amount) then Fail(s, DelegationDNE)
    else Done(Sever(s, d, c, amount))
  }

  function ExecuteDecrease(s: Ledger, d: Account, c: Account, less: Balance): Result
    requires d in s.delegators
  {
    if Count(s.delegators[d].delegations, c) == 0 then Fail(s, DelegationDNE)
    else if Stake(s.delegators, d, c) <= less then Fail(s, DelegationBelowMin)
    else if SatSub(s.delegators[d].total, less) < MIN_DELEGATION then Fail(s, DelegationBelowMin)
    else if SatSub(s.delegators[d].total, less) < MIN_DELEGATOR_STK then Fail(s, DelegatorBondBelowMin)
    else if !Listed(s, c) then Fail(s, CandidateDNE)
    else Done(LowerStake(s, d, c, less))
  }

  function ExecuteDelegationRequest(s: Ledger, d: Account, c: Account): Result {
    if d !in s.delegators then Fail(s, DelegatorDNE)
    else if c !in s.delegators[d].requests.requests then Fail(s, PendingDelegationRequestDNE)
    else
      var r := s.delegators[d].requests.requests[c];
      if r.whenExecutable > s.round then Fail(s, PendingDelegationRequestNotDueYet)
      else if r.action.Revoke? then ExecuteRevoke(s, d, c, r.amount)
      else ExecuteDecrease(s, d, c, r.amount)
  }

  function CancelDelegationRequest(s: Ledger, d: Account, c: Account): Result {
    if d !in s.delegators then Fail(s, DelegatorDNE)
    else if c !in s.delegators[d].requests.requests then Fail(s, PendingDelegationRequestDNE)
    else Done(s.(delegators := s.delegators[d := s.delegators[d].(
                   requests := Delegators.DropRequest(s.delegators[d].requests, c))]))
  }
}

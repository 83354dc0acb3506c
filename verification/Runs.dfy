/** Runs: any sequence of calls, interleaved with new rounds and with whatever else happens to free
    balances, from a chain on which nothing is staked. */
module Runs {
  import opened Bonds
  import opened Ledgers
  import opened Calls
  import opened CandidateCalls
  import opened DelegatorCalls
  import opened Exits

  datatype Call =
    | CallJoinCandidates(acc: Account, bond: Balance, hint: nat)
    | CallScheduleLeaveCandidates(c: Account, hint: nat)
    | CallExecuteLeaveCandidates(c: Account, hint: nat)
    | CallCancelLeaveCandidates(c: Account, hint: nat)
    | CallGoOffline(c: Account)
    | CallGoOnline(c: Account)
    | CallCandidateBondMore(c: Account, more: Balance)
    | CallScheduleCandidateBondLess(c: Account, less: Balance)
    | CallExecuteCandidateBondLess(c: Account)
    | CallCancelCandidateBondLess(c: Account)
    | CallDelegate(d: Account, c: Account, amount: Balance, candidateHint: nat, delegatorHint: nat)
    | CallScheduleLeaveDelegators(d: Account)
    | CallExecuteLeaveDelegators(d: Account, hint: nat)
    | CallCancelLeaveDelegators(d: Account)
    | CallScheduleRevokeDelegation(d: Account, c: Account)
    | CallDelegatorBondMore(d: Account, c: Account, more: Balance)
    | CallScheduleDelegatorBondLess(d: Account, c: Account, less: Balance)
    | CallExecuteDelegationRequest(d: Account, c: Account)
    | CallCancelDelegationRequest(d: Account, c: Account)
    | NewRound
    | FreeBalancesChange(free: map<Account, Balance>)

  function Apply(s: Ledger, call: Call): Result {
    match call
    case CallJoinCandidates(acc, bond, hint) => JoinCandidates(s, acc, bond, hint)
    case CallScheduleLeaveCandidates(c, hint) => ScheduleLeaveCandidates(s, c, hint)
    case CallExecuteLeaveCandidates(c, hint) => ExecuteLeaveCandidates(s, c, hint)
    case CallCancelLeaveCandidates(c, hint) => CancelLeaveCandidates(s, c, hint)
    case CallGoOffline(c) => GoOffline(s, c)
    case CallGoOnline(c) => GoOnline(s, c)
    case CallCandidateBondMore(c, more) => CandidateBondMore(s, c, more)
    case CallScheduleCandidateBondLess(c, less) => ScheduleCandidateBondLess(s, c, less)
    case CallExecuteCandidateBondLess(c) => ExecuteCandidateBondLess(s, c)
    case CallCancelCandidateBondLess(c) => CancelCandidateBondLess(s, c)
    case CallDelegate(d, c, amount, candidateHint, delegatorHint) =>
      Delegate(s, d, c, amount, candidateHint, delegatorHint)
    case CallScheduleLeaveDelegators(d) => ScheduleLeaveDelegators(s, d)
    case CallExecuteLeaveDelegators(d, hint) => ExecuteLeaveDelegators(s, d, hint)
    case CallCancelLeaveDelegators(d) => CancelLeaveDelegators(s, d)
    case CallScheduleRevokeDelegation(d, c) => ScheduleRevokeDelegation(s, d, c)
    case CallDelegatorBondMore(d, c, more) => DelegatorBondMore(s, d, c, more)
    case CallScheduleDelegatorBondLess(d, c, less) => ScheduleDelegatorBondLess(s, d, c, less)
    case CallExecuteDelegationRequest(d, c) => ExecuteDelegationRequest(s, d, c)
    case CallCancelDelegationRequest(d, c) => CancelDelegationRequest(s, d, c)
    case NewRound => Done(s.(round := s.round + 1))
    case FreeBalancesChange(free) => Done(s.(free := free))
  }

  /** Nothing staked yet. */
  function Start(round: nat, free: map<Account, Balance>): Ledger {
    Ledger(round, map[], map[], map[], map[], [], 0, map[], free)
  }

  function Run(s: Ledger, calls: seq<Call>): Ledger {
    if calls == [] then s else Apply(Run(s, calls[..|calls| - 1]), calls[|calls| - 1]).ledger
  }

  lemma {:induction false} RunConcat(s: Ledger, a: seq<Call>, b: seq<Call>)
    ensures Run(s, a + b) == Run(Run(s, a), b)
  {
    hide Apply;
    if b == [] {
      assert a + b == a;
    } else {
      assert (a + b)[..|a + b| - 1] == a + b[..|b| - 1];
      RunConcat(s, a, b[..|b| - 1]);
    }
  }

  lemma RunOne(s: Ledger, call: Call)
    ensures Run(s, [call]) == Apply(s, call).ledger
  {
    hide Apply;
    assert [call][..0] == [];
  }

  // ----- which calls keep what -----

  /** A bond-more on a delegation awaiting revocation is the one call after which a pending revocation
      is no longer for the whole stake. */
  predicate Guarded(s: Ledger, call: Call) {
    call.CallDelegatorBondMore? ==>
      Apply(s, call).outcome.Failure? || BondMoreGuard(s, call.d, call.c, call.more)
  }

  /** A decrease inside a bottom list is the one call after which a bottom total is no longer the sum of
      its list. `Total` itself suffers only later, when such a candidate leaves. */
  predicate Drifts(s: Ledger, call: Call) {
    call.CallExecuteDelegationRequest? && Apply(s, call).outcome.Success? && DriftsBottom(s, call.d, call.c)
  }

  lemma KeepsParts(s: Ledger, r: Ledger)
    requires Keeps(s, r)
    ensures Consistent(r) && (Conserved(s) ==> Conserved(r)) && (Conserved(s) && Exact(s) ==> Exact(r))
  {
  }

  lemma EnvironmentKeeps(s: Ledger, round: nat, free: map<Account, Balance>)
    requires Consistent(s)
    ensures Keeps(s, s.(round := round)) && Keeps(s, s.(free := free))
  {
  }

  /** Every call keeps everything, except a request carried out and a bond-more. */
  lemma ApplyKeeps(s: Ledger, call: Call)
    requires Consistent(s) && !call.CallDelegatorBondMore? && !call.CallExecuteDelegationRequest?
    ensures Keeps(s, Apply(s, call).ledger)
  {
    hide Keeps, Consistent, JoinCandidates, ScheduleLeaveCandidates, ExecuteLeaveCandidates, CancelLeaveCandidates,
      GoOffline, GoOnline, CandidateBondMore, ScheduleCandidateBondLess, ExecuteCandidateBondLess,
      CancelCandidateBondLess, Delegate, ScheduleLeaveDelegators, ExecuteLeaveDelegators, CancelLeaveDelegators,
      ScheduleRevokeDelegation, ScheduleDelegatorBondLess, CancelDelegationRequest;
    match call
    case CallJoinCandidates(acc, bond, hint) => JoinCandidatesKeeps(s, acc, bond, hint);
    case CallScheduleLeaveCandidates(c, hint) => ScheduleLeaveCandidatesKeeps(s, c, hint);
    case CallExecuteLeaveCandidates(c, hint) => ExecuteLeaveCandidatesKeeps(s, c, hint);
    case CallCancelLeaveCandidates(c, hint) => CancelLeaveCandidatesKeeps(s, c, hint);
    case CallGoOffline(c) => GoOfflineKeeps(s, c);
    case CallGoOnline(c) => GoOnlineKeeps(s, c);
    case CallCandidateBondMore(c, more) => CandidateBondMoreKeeps(s, c, more);
    case CallScheduleCandidateBondLess(c, less) => ScheduleCandidateBondLessKeeps(s, c, less);
    case CallExecuteCandidateBondLess(c) => ExecuteCandidateBondLessKeeps(s, c);
    case CallCancelCandidateBondLess(c) => CancelCandidateBondLessKeeps(s, c);
    case CallDelegate(d, c, amount, candidateHint, delegatorHint) =>
      DelegateKeeps(s, d, c, amount, candidateHint, delegatorHint);
    case CallScheduleLeaveDelegators(d) => ScheduleLeaveDelegatorsKeeps(s, d);
    case CallExecuteLeaveDelegators(d, hint) => ExecuteLeaveDelegatorsKeeps(s, d, hint);
    case CallCancelLeaveDelegators(d) => CancelLeaveDelegatorsKeeps(s, d);
    case CallScheduleRevokeDelegation(d, c) => ScheduleRevokeDelegationKeeps(s, d, c);
    case CallScheduleDelegatorBondLess(d, c, less) => ScheduleDelegatorBondLessKeeps(s, d, c, less);
    case CallCancelDelegationRequest(d, c) => CancelDelegationRequestKeeps(s, d, c);
    case NewRound => EnvironmentKeeps(s, s.round + 1, s.free);
    case FreeBalancesChange(free) => EnvironmentKeeps(s, s.round, free);
  }

  /** One call, from any consistent ledger: consistency always; conserved holds if and only if the
      call is guarded; exact totals if and only if, besides, it does not drift. */
  lemma StepTheorem(s: Ledger, call: Call)
    requires Consistent(s)
    ensures Consistent(Apply(s, call).ledger)
    ensures Conserved(s) ==> (Conserved(Apply(s, call).ledger) <==> Guarded(s, call))
    ensures Conserved(s) && Exact(s) ==> (Exact(Apply(s, call).ledger) <==> !Drifts(s, call))
  {
    hide Consistent, Conserved, Exact, Keeps, DelegatorBondMore, ExecuteDelegationRequest, DriftsBottom, BondMoreGuard;
    match call
    case CallDelegatorBondMore(d, c, more) => DelegatorBondMoreKeeps(s, d, c, more);
    case CallExecuteDelegationRequest(d, c) => ExecuteDelegationRequestKeeps(s, d, c);
    case _ =>
      ApplyKeeps(s, call);
      KeepsParts(s, Apply(s, call).ledger);
  }

  // ----- runs -----

  ghost predicate GuardedRun(s: Ledger, calls: seq<Call>) {
    forall i :: 0 <= i < |calls| ==> Guarded(Run(s, calls[..i]), calls[i])
  }

  ghost predicate DriftlessRun(s: Ledger, calls: seq<Call>) {
    forall i :: 0 <= i < |calls| ==> !Drifts(Run(s, calls[..i]), calls[i])
  }

  lemma StartOk(round: nat, free: map<Account, Balance>)
    ensures Consistent(Start(round, free)) && Conserved(Start(round, free)) && Exact(Start(round, free))
  {
    var s := Start(round, free);
    assert Backings(s.info, s.top, s.bottom) == map[];
  }

  /** Every reachable ledger is consistent, whatever was called. */
  lemma {:induction false} RunConsistent(s: Ledger, calls: seq<Call>)
    requires Consistent(s)
    ensures Consistent(Run(s, calls))
  {
    hide Consistent, Apply;
    if calls != [] {
      RunConsistent(s, calls[..|calls| - 1]);
      StepTheorem(Run(s, calls[..|calls| - 1]), calls[|calls| - 1]);
    }
  }

  lemma GuardedPrefix(s: Ledger, calls: seq<Call>)
    requires calls != []
    ensures GuardedRun(s, calls) ==>
              GuardedRun(s, calls[..|calls| - 1]) && Guarded(Run(s, calls[..|calls| - 1]), calls[|calls| - 1])
    ensures DriftlessRun(s, calls) ==>
              DriftlessRun(s, calls[..|calls| - 1]) && !Drifts(Run(s, calls[..|calls| - 1]), calls[|calls| - 1])
  {
    hide Guarded, Drifts, Run;
    var init := calls[..|calls| - 1];
    assert forall i :: 0 <= i < |init| ==> init[..i] == calls[..i];
  }

  /** Reserve conservation and `Total` tracking over every guarded run; exact tracking over every
      run that moreover never decreases inside a bottom list. */
  lemma {:induction false} RunConserved(s: Ledger, calls: seq<Call>)
    requires Consistent(s) && Conserved(s) && GuardedRun(s, calls)
    ensures Conserved(Run(s, calls))
    ensures Exact(s) && DriftlessRun(s, calls) ==> Exact(Run(s, calls))
  {
    hide Consistent, Conserved, Exact, Apply, Guarded, Drifts, GuardedRun, DriftlessRun;
    if calls != [] {
      GuardedPrefix(s, calls);
      RunConserved(s, calls[..|calls| - 1]);
      RunConsistent(s, calls[..|calls| - 1]);
      StepTheorem(Run(s, calls[..|calls| - 1]), calls[|calls| - 1]);
    }
  }

  /** What the invariants mean in any run from the start, spelled out account by account. */
  lemma LedgerTheorem(round: nat, free: map<Account, Balance>, calls: seq<Call>)
    ensures var s := Run(Start(round, free), calls);
            && Consistent(s)
            && (GuardedRun(Start(round, free), calls) ==>
                  && (forall a :: Get(s.reserved, a) == SelfBond(s.info, a) + Delegated(s.delegators, a))
                  && s.total <= TotalBacking(s))
            && (GuardedRun(Start(round, free), calls) && DriftlessRun(Start(round, free), calls) ==>
                  s.total == TotalBacking(s))
  {
    var s := Start(round, free);
    StartOk(round, free);
    RunConsistent(s, calls);
    if GuardedRun(s, calls) {
      RunConserved(s, calls);
      ConservedMeans(Run(s, calls));
    }
  }

  lemma ConservedMeans(s: Ledger)
    requires Conserved(s)
    ensures forall a :: Get(s.reserved, a) == SelfBond(s.info, a) + Delegated(s.delegators, a)
    ensures s.total <= TotalBacking(s)
    ensures Exact(s) ==> s.total == TotalBacking(s)
  {
  }
}

/** The gaps between the redundant copies, to the unit, after every call and over every run: what is
    held beyond bonds and delegations, `Total` against all capital, and cached bottom totals against
    their lists. Only three kinds of call ever open one. */
module Gaps {
  import opened Bonds
  import opened Params
  import opened OrderedSets
  import opened Ledgers
  import opened Transitions
  import opened Calls
  import opened CandidateCalls
  import opened DelegatorCalls
  import opened Exits
  import opened Runs
  import Queues
  import Candidates
  import Delegators

  // ----- the three kinds of call -----

  /** A revocation is carried out that no longer asks for the whole stake: the rest stays held. */
  predicate StaleRevocation(s: Ledger, call: Call) {
    call.CallExecuteDelegationRequest? && Apply(s, call).outcome.Success? && RevokesStale(s, call.d, call.c)
  }

  function Lost(s: Ledger, call: Call, a: Account): nat {
    if StaleRevocation(s, call) && a == call.d then LeftHeld(s, call.d, call.c) else 0
  }

  /** A candidate leaves whose bottom total runs ahead, and is not alone: `Total` loses the lead, too. */
  ghost predicate DriftedExit(s: Ledger, call: Call) {
    && call.CallExecuteLeaveCandidates? && Apply(s, call).outcome.Success?
    && Ahead(s.bottom, call.c) > 0
    && TotalBacking(s) > Candidates.Backing(CandidateAt(s, call.c))
  }

  /** What a call adds to the shortfall of `Total`: an exit takes the bottom total's lead out with the
      candidate's capital, a stale revocation leaves in what stays held. */
  function Strays(s: Ledger, call: Call): int {
    if call.CallExecuteLeaveCandidates? && Apply(s, call).outcome.Success? then Ahead(s.bottom, call.c)
    else if StaleRevocation(s, call) then 0 - LeftHeld(s, call.d, call.c)
    else 0
  }

  /** A decrease is carried out inside a bottom list. */
  function DriftBy(s: Ledger, call: Call, c: Account): nat {
    if call.CallExecuteDelegationRequest? && Apply(s, call).outcome.Success?
      && c == call.c then DriftOf(s, call.d, call.c) else 0
  }

  // ----- calls that open no gap -----

  ghost predicate NoNewGap(s: Ledger, r: Ledger) {
    SameSurplus(s, r) && TotalFollows(s, r) && forall c :: c in r.bottom ==> Ahead(r.bottom, c) == Ahead(s.bottom, c)
  }

  lemma NoGapSame(s: Ledger)
    ensures NoNewGap(s, s)
  {
  }

  lemma BalancedNoGap(s: Ledger, r: Ledger)
    requires Balanced(s, r)
    ensures NoNewGap(s, r)
  {
  }

  lemma InfoNoGap(s: Ledger, r: Ledger, c: Account, m: Metadata, delta: int)
    requires Consistent(s) && c in s.info && OnlyInfo(s, r, c, m)
    requires m.bond == s.info[c].bond + delta && HeldMoves(s, r, c, delta)
    requires r.total == if s.total + delta < 0 then 0 else s.total + delta
    ensures NoNewGap(s, r)
  {
    hide TotalBacking, StakesAgree, PoolOk, HoldsCover, DelegatorsOk, Candidates.Ok;
    InfoBacking(s, r, c, m, delta);
  }

  lemma JoinNoGap(s: Ledger, acc: Account, bond: Balance, hint: nat)
    requires Consistent(s)
    ensures NoNewGap(s, JoinCandidates(s, acc, bond, hint).ledger)
  {
    hide TotalBacking, StakesAgree, PoolOk, HoldsCover, DelegatorsOk, Candidates.Ok, Put, NoNewGap;
    NoGapSame(s);
    var r := JoinCandidates(s, acc, bond, hint).ledger;
    if JoinCandidates(s, acc, bond, hint).outcome.Success? {
      JoinBacking(s, r, acc, bond);
      JoinedNoGap(s, r, acc, bond);
    }
  }

  lemma JoinedNoGap(s: Ledger, r: Ledger, acc: Account, bond: Balance)
    requires Joined(s, r, acc, bond) && acc !in s.info && acc !in s.bottom
    requires TotalBacking(r) == TotalBacking(s) + bond
    ensures NoNewGap(s, r)
  {
    hide TotalBacking, Put;
    assert r.bottom[acc].delegations == [];
  }

  /** A candidate's call that revises its status, and the pool with it. */
  lemma StatusNoGap(s: Ledger, c: Account, status: Candidates.CollatorStatus, pool: seq<Bond>)
    requires Consistent(s) && c in s.info
    ensures NoNewGap(s, PutInfo(s, c, s.info[c].(status := status)).(pool := pool))
  {
    hide Consistent, NoNewGap;
    InfoNoGap(s, PutInfo(s, c, s.info[c].(status := status)).(pool := pool), c, s.info[c].(status := status), 0);
  }

  lemma StatusCallNoGap(s: Ledger, call: Call)
    requires Consistent(s)
    requires call.CallScheduleLeaveCandidates? || call.CallCancelLeaveCandidates? || call.CallGoOffline?
             || call.CallGoOnline?
    ensures NoNewGap(s, Apply(s, call).ledger)
  {
    hide Consistent, NoNewGap, Put, Without, PutInfo;
    NoGapSame(s);
    var c := call.c;
    if c in s.info {
      var status := if call.CallScheduleLeaveCandidates? then Candidates.Leaving(s.round + LEAVE_CANDIDATES_DELAY)
                    else if call.CallGoOffline? then Candidates.Idle else Candidates.Active;
      var joins := call.CallCancelLeaveCandidates? || call.CallGoOnline?;
      StatusNoGap(s, c, status, if joins then Put(s.pool, Bond(c, s.info[c].totalCounted)) else Without(s.pool, c));
    }
  }

  lemma BondRequestNoGap(s: Ledger, call: Call)
    requires Consistent(s) && (call.CallScheduleCandidateBondLess? || call.CallCancelCandidateBondLess?)
    ensures NoNewGap(s, Apply(s, call).ledger)
  {
    hide Consistent, NoNewGap;
    NoGapSame(s);
    var r := Apply(s, call);
    if r.outcome.Success? {
      InfoNoGap(s, r.ledger, call.c, r.ledger.info[call.c], 0);
    }
  }

  lemma CandidateBondMoreNoGap(s: Ledger, c: Account, more: Balance)
    requires Consistent(s)
    ensures NoNewGap(s, CandidateBondMore(s, c, more).ledger)
  {
    hide Consistent, NoNewGap, Reindex;
    NoGapSame(s);
    var r := CandidateBondMore(s, c, more);
    if r.outcome.Success? {
      InfoNoGap(s, r.ledger, c, r.ledger.info[c], more);
    }
  }

  lemma CandidateBondLessNoGap(s: Ledger, c: Account)
    requires Consistent(s)
    ensures NoNewGap(s, ExecuteCandidateBondLess(s, c).ledger)
  {
    hide Consistent, NoNewGap, Reindex;
    NoGapSame(s);
    var r := ExecuteCandidateBondLess(s, c);
    if r.outcome.Success? {
      var less: int := s.info[c].request.value.amount;
      BondLessAffords(s, c);
      InfoNoGap(s, r.ledger, c, r.ledger.info[c], 0 - less);
    }
  }

  lemma RecordNoGap(s: Ledger, d: Account, after: Delegator)
    requires d in s.delegators && after.total == s.delegators[d].total
    ensures NoNewGap(s, WithRecord(s, d, after))
  {
  }

  lemma ExitScheduleNoGap(s: Ledger, call: Call)
    requires call.CallScheduleLeaveDelegators? || call.CallCancelLeaveDelegators?
    ensures NoNewGap(s, Apply(s, call).ledger)
  {
    hide NoNewGap;
    NoGapSame(s);
    var r := Apply(s, call);
    if r.outcome.Success? {
      RecordNoGap(s, call.d, r.ledger.delegators[call.d]);
    }
  }

  lemma RequestCallNoGap(s: Ledger, call: Call)
    requires call.CallScheduleRevokeDelegation? || call.CallScheduleDelegatorBondLess?
             || call.CallCancelDelegationRequest?
    ensures NoNewGap(s, Apply(s, call).ledger)
  {
    hide NoNewGap, Delegators.AddRequest, Delegators.DropRequest, Count, Stake, SatSub;
    NoGapSame(s);
    var r := Apply(s, call);
    if r.outcome.Success? {
      RecordNoGap(s, call.d, r.ledger.delegators[call.d]);
    }
  }

  lemma EnvironmentNoGap(s: Ledger, round: nat, free: map<Account, Balance>)
    ensures NoNewGap(s, s.(round := round)) && NoNewGap(s, s.(free := free))
  {
  }

  // ----- delegating -----

  lemma RoomGaps(s: Ledger, c: Account)
    requires Consistent(s) && Listed(s, c)
    ensures SameSurplus(s, Room(s, c)) && SameAhead(s, Room(s, c))
  {
    hide Consistent, Sever, TotalBacking, Surplus, Ahead, Queues.Evicted;
    match Queues.Evicted(QueueAt(s, c))
    case None =>
    case Some(k) =>
      EvictedIsLinked(s, c);
      SeverGaps(s, k.owner, c, k.amount);
  }

  lemma GapsThrough(s: Ledger, v: Ledger, r: Ledger, t: Ledger)
    requires SameSurplus(s, v) && SameAhead(s, v) && SameSurplus(v, r) && SameAhead(v, r)
    requires t == r.(total := t.total) && TotalFollows(s, t)
    ensures NoNewGap(s, t)
  {
    hide TotalBacking;
  }

  lemma DelegateNoGap(s: Ledger, d: Account, c: Account, amount: Balance, candidateHint: nat, delegatorHint: nat)
    requires Consistent(s)
    ensures NoNewGap(s, Delegate(s, d, c, amount, candidateHint, delegatorHint).ledger)
  {
    hide NoNewGap, Keeps, Consistent, Admit, Evict, Room, SameSurplus, SameAhead, TotalBacking;
    NoGapSame(s);
    var r := Delegate(s, d, c, amount, candidateHint, delegatorHint);
    if r.outcome.Success? {
      var after := if d in s.delegators then Delegators.Add(s.delegators[d], c, amount)
        else Delegators.New(d, c, amount);
      var v := Room(s, c);
      var t := Admit(v, d, c, amount, after);
      QueueIsOk(s, c);
      AcceptedCoversKick(QueueAt(s, c), Bond(d, amount));
      NoStakeYet(s, d, c, amount, after);
      RoomKeeps(s, c);
      KeepsConsistent(s, v);
      RoomRecord(s, d, c);
      RoomAdmits(s, v, d, c, amount, after);
      RoomGaps(s, c);
      AdmitGaps(v, d, c, amount, after);
      EvictIsRoom(s, c);
      ReserveSameFields(v, Evict(s, c), d, c, amount, after, s.total + SatSub(amount, KickedAmount(s, c)));
      WithTotalKeeps(t, r.ledger.total);
      GapsThrough(s, v, t, r.ledger);
    }
  }

  // ----- exits -----

  lemma {:induction false} SeverEachGaps(s: Ledger, links: seq<Link>)
    requires Consistent(s) && LinksOf(s, links)
    ensures Balanced(s, SeverEach(s, links))
  {
    hide Consistent, Keeps, Sever, Stake, Balanced;
    if links == [] {
      BalancedSame(s);
    } else {
      var init := links[..|links| - 1];
      var l := links[|links| - 1];
      var r := SeverEach(s, init);
      SeverEachGaps(s, init);
      SeverEachKeeps(s, init);
      KeepsConsistent(s, r);
      LastLinkRemains(s, r, links);
      SeverBalanced(r, l.delegator, l.candidate, l.amount);
      BalancedTransitive(s, r, Sever(r, l.delegator, l.candidate, l.amount));
    }
  }

  lemma SeverBalanced(s: Ledger, d: Account, c: Account, amount: Balance)
    requires Consistent(s) && 0 < amount == Stake(s.delegators, d, c)
    ensures Listed(s, c) && Balanced(s, Sever(s, d, c, amount))
    ensures TotalBacking(Sever(s, d, c, amount)) <= TotalBacking(s)
  {
    hide Consistent, Sever, TotalBacking, Surplus, Ahead, Stake;
    SeverGaps(s, d, c, amount);
  }

  lemma BalancedTransitive(s: Ledger, r: Ledger, t: Ledger)
    requires Balanced(s, r) && Balanced(r, t) && TotalBacking(t) <= TotalBacking(r)
    ensures Balanced(s, t)
  {
    hide TotalBacking, Surplus, Ahead;
  }

  lemma LeaveDelegatorsNoGap(s: Ledger, d: Account, hint: nat)
    requires Consistent(s)
    ensures NoNewGap(s, ExecuteLeaveDelegators(s, d, hint).ledger)
  {
    hide Consistent, NoNewGap, SeverEach, Balanced;
    NoGapSame(s);
    if ExecuteLeaveDelegators(s, d, hint).outcome.Success? {
      OwnLinks(s, d);
      SeverEachGaps(s, LinksFrom(d, s.delegators[d].delegations));
      BalancedNoGap(s, ExecuteLeaveDelegators(s, d, hint).ledger);
    }
  }

  lemma LeavesGaps(r: Ledger, t: Ledger, c: Account, bond: Balance)
    requires Leaves(r, t, c, bond) && c in r.info && r.info[c].bond == bond
    ensures SameSurplus(r, t)
    ensures forall x :: x in t.bottom ==> Ahead(t.bottom, x) == Ahead(r.bottom, x)
  {
  }

  /** A candidate's exit: no hold is left behind, and `Total` stays right if and only if the bottom
      total had not run ahead of its list, or nothing else is staked at all. */
  lemma ExecuteLeaveCandidatesGaps(s: Ledger, c: Account, hint: nat)
    requires Consistent(s) && ExecuteLeaveCandidates(s, c, hint).outcome.Success?
    ensures var t := ExecuteLeaveCandidates(s, c, hint).ledger;
            && SameSurplus(s, t)
            && (forall x :: x in t.bottom ==> Ahead(t.bottom, x) == Ahead(s.bottom, x))
            && TotalBacking(t) == TotalBacking(s) - Candidates.Backing(CandidateAt(s, c))
            && ShortfallMoves(s, t, Ahead(s.bottom, c))
            && (s.total == TotalBacking(s) ==>
                  (t.total == TotalBacking(t) <==> Ahead(s.bottom, c) == 0 || TotalBacking(t) == 0))
  {
    hide Consistent, Keeps, SeverEach, RemoveCandidate, LinksTo, Queues.Entries, TotalBacking, ExcessAt, Surplus, Ahead;
    var t := ExecuteLeaveCandidates(s, c, hint).ledger;
    var links := LinksTo(c, Queues.Entries(QueueAt(s, c)));
    var r := SeverEach(s, links);
    BackerLinks(s, c);
    SeverEachKeeps(s, links);
    SeverEachGaps(s, links);
    SeverEachBacking(s, links);
    SeverEachCandidates(s, links);
    KeepsConsistent(s, r);
    ListedIn(s, r, c);
    NoBackersLeft(s, r, c);
    EmptyQueue(r, c);
    HoldsBond(r, c);
    RemovedLeaves(r, c, s.info[c].bond, SatSub(s.total, s.info[c].bond + s.top[c].total + s.bottom[c].total));
    LinksToAt(c, Queues.Entries(QueueAt(s, c)));
    EntriesSum(s, c);
    ExitAmount(s, c);
    ExcessIsAhead(s, c);
    LeavesBacking(r, t, c, s.info[c].bond);
    LeavesGaps(r, t, c, s.info[c].bond);
  }

  // ----- one call -----

  lemma CallNoGap(s: Ledger, call: Call)
    requires Consistent(s) && !call.CallExecuteDelegationRequest? && !call.CallExecuteLeaveCandidates?
    ensures NoNewGap(s, Apply(s, call).ledger)
  {
    hide NoNewGap, Consistent, JoinCandidates, ExecuteLeaveDelegators, Delegate, DelegatorBondMore,
      ScheduleLeaveCandidates, CancelLeaveCandidates, GoOffline, GoOnline, ScheduleCandidateBondLess,
      CancelCandidateBondLess, CandidateBondMore, ExecuteCandidateBondLess, ScheduleLeaveDelegators,
      CancelLeaveDelegators, ScheduleRevokeDelegation, ScheduleDelegatorBondLess, CancelDelegationRequest, Balanced;
    match call
    case CallJoinCandidates(acc, bond, hint) => JoinNoGap(s, acc, bond, hint);
    case CallDelegate(d, c, amount, candidateHint, delegatorHint) =>
      DelegateNoGap(s, d, c, amount, candidateHint, delegatorHint);
    case CallExecuteLeaveDelegators(d, hint) => LeaveDelegatorsNoGap(s, d, hint);
    case CallDelegatorBondMore(d, c, more) =>
      DelegatorBondMoreKeeps(s, d, c, more);
      BalancedNoGap(s, DelegatorBondMore(s, d, c, more).ledger);
    case CallCandidateBondMore(c, more) => CandidateBondMoreNoGap(s, c, more);
    case CallExecuteCandidateBondLess(c) => CandidateBondLessNoGap(s, c);
    case CallScheduleCandidateBondLess(_, _) => BondRequestNoGap(s, call);
    case CallCancelCandidateBondLess(_) => BondRequestNoGap(s, call);
    case CallScheduleLeaveDelegators(_) => ExitScheduleNoGap(s, call);
    case CallCancelLeaveDelegators(_) => ExitScheduleNoGap(s, call);
    case CallScheduleRevokeDelegation(_, _) => RequestCallNoGap(s, call);
    case CallScheduleDelegatorBondLess(_, _, _) => RequestCallNoGap(s, call);
    case CallCancelDelegationRequest(_, _) => RequestCallNoGap(s, call);
    case NewRound => EnvironmentNoGap(s, s.round + 1, s.free);
    case FreeBalancesChange(free) => EnvironmentNoGap(s, s.round, free);
    case _ => StatusCallNoGap(s, call);
  }

  /** What one call does to the gaps, from any consistent ledger: what is held beyond what is owed
      changes only by what a stale revocation leaves, a bottom total's lead only by a decrease in its
      list, what `Total` falls short of all capital only by such a rest and by the lead of a candidate
      that leaves, and `Total` stops being all capital if and only if the call is a stale revocation or the
      exit of a candidate whose bottom total had run ahead. */
  lemma GapTheorem(s: Ledger, call: Call)
    requires Consistent(s)
    ensures var r := Apply(s, call).ledger;
            && (forall a :: Surplus(r, a) == Surplus(s, a) + Lost(s, call, a))
            && (forall c :: c in r.bottom ==> Ahead(r.bottom, c) == Ahead(s.bottom, c) + DriftBy(s, call, c))
            && ShortfallMoves(s, r, Strays(s, call))
            && (s.total == TotalBacking(s) ==>
                  (r.total == TotalBacking(r) <==> !StaleRevocation(s, call) && !DriftedExit(s, call)))
  {
    hide Consistent, Surplus, Ahead, TotalBacking, ExecuteDelegationRequest, ExecuteLeaveCandidates, RevokesStale,
      DriftOf, LeftHeld;
    match call
    case CallExecuteDelegationRequest(d, c) =>
      RequestGaps(s, d, c);
      LeftWhenStale(s, d, c);
    case CallExecuteLeaveCandidates(c, hint) => ExitGaps(s, c, hint);
    case _ =>
      hide Apply;
      CallNoGap(s, call);
  }

  lemma LeftWhenStale(s: Ledger, d: Account, c: Account)
    requires Consistent(s)
    ensures LeftHeld(s, d, c) > 0 <==> RevokesStale(s, d, c)
  {
    hide Consistent;
    if RevokesStale(s, d, c) {
      RequestIsFor(s, d, c);
    }
  }

  lemma RequestGaps(s: Ledger, d: Account, c: Account)
    requires Consistent(s)
    ensures var r := ExecuteDelegationRequest(s, d, c).ledger;
            var done := ExecuteDelegationRequest(s, d, c).outcome.Success?;
            && (forall a :: Surplus(r, a) == Surplus(s, a) + if done && RevokesStale(s, d, c)
                  && a == d then LeftHeld(s, d, c) else 0)
            && (forall x :: Ahead(r.bottom, x) == Ahead(s.bottom, x) + if done && x == c then DriftOf(s, d, c) else 0)
            && ShortfallMoves(s, r, if done then 0 - LeftHeld(s, d, c) else 0)
  {
    hide Consistent, Surplus, Ahead, TotalBacking, RevokesStale, DriftOf, Sever, LowerStake, Candidates.Reaches;
    if ExecuteDelegationRequest(s, d, c).outcome.Success? {
      ExecuteDelegationRequestGaps(s, d, c);
    }
  }

  lemma ExitGaps(s: Ledger, c: Account, hint: nat)
    requires Consistent(s)
    ensures var r := ExecuteLeaveCandidates(s, c, hint).ledger; var call := CallExecuteLeaveCandidates(c, hint);
            && SameSurplus(s, r)
            && (forall x :: x in r.bottom ==> Ahead(r.bottom, x) == Ahead(s.bottom, x))
            && ShortfallMoves(s, r, if ExecuteLeaveCandidates(s, c, hint).outcome.Success? then Ahead(s.bottom, c)
                              else 0)
            && (s.total == TotalBacking(s) ==> (r.total == TotalBacking(r) <==> !DriftedExit(s, call)))
  {
    hide Consistent, Surplus, Ahead, TotalBacking, SeverEach, RemoveCandidate, Candidates.Backing;
    if ExecuteLeaveCandidates(s, c, hint).outcome.Success? {
      ExecuteLeaveCandidatesGaps(s, c, hint);
    }
  }

  // ----- runs -----

  /** All that stale revocations of the run left held for `a`. */
  function LostIn(s: Ledger, calls: seq<Call>, a: Account): nat {
    if calls == [] then 0
    else LostIn(s, calls[..|calls| - 1], a) + Lost(Run(s, calls[..|calls| - 1]), calls[|calls| - 1], a)
  }

  /** All that was taken by decreases inside `c`'s bottom list since `c` last joined. */
  function DriftIn(s: Ledger, calls: seq<Call>, c: Account): nat {
    if calls == [] || c !in Run(s, calls).bottom then 0
    else DriftIn(s, calls[..|calls| - 1], c) + DriftBy(Run(s, calls[..|calls| - 1]), calls[|calls| - 1], c)
  }

  /** What is held beyond bonds and delegations, over any run, to the unit. */
  lemma {:induction false} RunSurplus(s: Ledger, calls: seq<Call>, a: Account)
    requires Consistent(s)
    ensures Surplus(Run(s, calls), a) == Surplus(s, a) + LostIn(s, calls, a)
  {
    hide Consistent, Surplus, Apply, Lost;
    if calls != [] {
      RunSurplus(s, calls[..|calls| - 1], a);
      RunConsistent(s, calls[..|calls| - 1]);
      GapTheorem(Run(s, calls[..|calls| - 1]), calls[|calls| - 1]);
    }
  }

  /** How far each bottom total runs ahead, over any run from a ledger without candidates. */
  lemma {:induction false} RunAhead(s: Ledger, calls: seq<Call>, c: Account)
    requires Consistent(s) && s.bottom == map[]
    ensures Ahead(Run(s, calls).bottom, c) == DriftIn(s, calls, c)
  {
    hide Consistent, Apply, DriftBy, TotalBacking, Surplus, Sum;
    if calls != [] {
      RunAhead(s, calls[..|calls| - 1], c);
      RunConsistent(s, calls[..|calls| - 1]);
      GapTheorem(Run(s, calls[..|calls| - 1]), calls[|calls| - 1]);
    }
  }

  /** No stale revocation is carried out in the run. */
  ghost predicate NoneStale(s: Ledger, calls: seq<Call>) {
    forall i :: 0 <= i < |calls| ==> !StaleRevocation(Run(s, calls[..i]), calls[i])
  }

  lemma StalePrefix(s: Ledger, calls: seq<Call>)
    requires calls != []
    ensures var init := calls[..|calls| - 1];
            NoneStale(s, calls) <==> NoneStale(s, init) && !StaleRevocation(Run(s, init), calls[|calls| - 1])
  {
    hide StaleRevocation, Run;
    var init := calls[..|calls| - 1];
    assert forall i :: 0 <= i < |init| ==> init[..i] == calls[..i] && init[i] == calls[i];
    if NoneStale(s, calls) {
      forall i | 0 <= i < |init|
        ensures !StaleRevocation(Run(s, init[..i]), init[i])
      {
        assert !StaleRevocation(Run(s, calls[..i]), calls[i]);
      }
    }
    if NoneStale(s, init) && !StaleRevocation(Run(s, init), calls[|calls| - 1]) {
      forall i | 0 <= i < |calls|
        ensures !StaleRevocation(Run(s, calls[..i]), calls[i])
      {
        if i < |init| {
          assert !StaleRevocation(Run(s, init[..i]), init[i]);
        }
      }
    }
  }

  /** What is held is exact at the end of a run if and only if no stale revocation was carried out. */
  lemma {:induction false} RunHoldsIff(s: Ledger, calls: seq<Call>)
    requires Consistent(s) && ReservesExact(s)
    ensures ReservesExact(Run(s, calls)) <==> NoneStale(s, calls)
  {
    hide Consistent, Apply, NoneStale, ReservesExact;
    if calls == [] {
      NoneStaleAtFirst(s);
    } else {
      var init := calls[..|calls| - 1];
      RunHoldsIff(s, init);
      RunConsistent(s, init);
      StepHoldsIff(Run(s, init), calls[|calls| - 1]);
      StalePrefix(s, calls);
    }
  }

  lemma NoneStaleAtFirst(s: Ledger)
    ensures NoneStale(s, [])
  {
  }

  /** Once held in excess, always in excess; exact holds end exactly with a stale revocation. */
  lemma StepHoldsIff(s: Ledger, call: Call)
    requires Consistent(s)
    ensures ReservesExact(Apply(s, call).ledger) <==> ReservesExact(s) && !StaleRevocation(s, call)
  {
    hide Consistent, Apply, TotalBacking, Surplus, ReservesExact, Covered, LeftHeld;
    var r := Apply(s, call).ledger;
    GapTheorem(s, call);
    ExactIsNoSurplus(s);
    ExactIsNoSurplus(r);
    ConsistentCovers(s);
    if StaleRevocation(s, call) {
      LeftWhenStale(s, call.d, call.c);
      assert Surplus(r, call.d) == Surplus(s, call.d) + Lost(s, call, call.d);
      assert Surplus(s, call.d) >= 0;
    } else if !ReservesExact(s) {
      var a :| Surplus(s, a) != 0;
      assert Surplus(r, a) == Surplus(s, a) + Lost(s, call, a);
    }
  }

  lemma ConsistentCovers(s: Ledger)
    requires Consistent(s)
    ensures Covered(s)
  {
  }

  ghost predicate TotalRight(s: Ledger) {
    s.total == TotalBacking(s)
  }

  ghost predicate TotalStaysRight(s: Ledger, calls: seq<Call>) {
    forall i :: 0 <= i <= |calls| ==> TotalRight(Run(s, calls[..i]))
  }

  /** Call `i` of the run is one after which `Total` is no longer all capital. */
  ghost predicate Unbalances(s: Ledger, calls: seq<Call>, i: nat)
    requires i < |calls|
  {
    var before := Run(s, calls[..i]);
    StaleRevocation(before, calls[i]) || DriftedExit(before, calls[i])
  }

  /** `Total` is all capital throughout a run if and only if the run has neither a stale revocation nor
      the exit of a candidate whose bottom total had run ahead. */
  lemma {:induction false} RunTotalIff(s: Ledger, calls: seq<Call>)
    requires Consistent(s) && TotalRight(s)
    ensures TotalStaysRight(s, calls) <==> forall i :: 0 <= i < |calls| ==> !Unbalances(s, calls, i)
  {
    hide Consistent, Apply, Unbalances, TotalRight;
    if calls == [] {
      assert calls[..0] == [];
    } else {
      var init := calls[..|calls| - 1];
      RunTotalIff(s, init);
      RunConsistent(s, init);
      TotalPrefix(s, calls);
      if TotalRight(Run(s, init)) {
        StepTotalIff(Run(s, init), calls[|calls| - 1]);
      }
    }
  }

  lemma StepTotalIff(s: Ledger, call: Call)
    requires Consistent(s) && TotalRight(s)
    ensures TotalRight(Apply(s, call).ledger) <==> !StaleRevocation(s, call) && !DriftedExit(s, call)
  {
    hide Consistent, Apply, TotalBacking, Surplus;
    GapTheorem(s, call);
  }

  lemma TotalPrefix(s: Ledger, calls: seq<Call>)
    requires calls != []
    ensures var init := calls[..|calls| - 1];
            && (TotalStaysRight(s, calls) <==> TotalStaysRight(s, init) && TotalRight(Run(s, calls)))
            && (TotalStaysRight(s, init) ==> TotalRight(Run(s, init)))
            && (forall i :: 0 <= i < |init| ==> (Unbalances(s, init, i) <==> Unbalances(s, calls, i)))
            && (Unbalances(s, calls, |calls| - 1) <==>
                  StaleRevocation(Run(s, init), calls[|calls| - 1]) || DriftedExit(Run(s, init), calls[|calls| - 1]))
  {
    hide StaleRevocation, DriftedExit, Run, TotalRight;
    var init := calls[..|calls| - 1];
    assert forall i :: 0 <= i <= |init| ==> init[..i] == calls[..i];
    assert calls[..|calls|] == calls && init[..|init|] == init;
    if TotalStaysRight(s, calls) {
      assert TotalRight(Run(s, calls[..|calls|]));
      forall i | 0 <= i <= |init|
        ensures TotalRight(Run(s, init[..i]))
      {
        assert TotalRight(Run(s, calls[..i]));
      }
    }
    if TotalStaysRight(s, init) {
      assert TotalRight(Run(s, init[..|init|]));
      if TotalRight(Run(s, calls)) {
        forall i | 0 <= i <= |calls|
          ensures TotalRight(Run(s, calls[..i]))
        {
          if i <= |init| {
            assert TotalRight(Run(s, init[..i]));
          }
        }
      }
    }
  }

  // ----- how far `Total` is off -----

  /** All that the calls of the run added to the shortfall of `Total`. */
  function StraysIn(s: Ledger, calls: seq<Call>): int {
    if calls == [] then 0
    else StraysIn(s, calls[..|calls| - 1]) + Strays(Run(s, calls[..|calls| - 1]), calls[|calls| - 1])
  }

  /** The call would take more out of `Total` than is in it. */
  ghost predicate Saturates(s: Ledger, call: Call) {
    Shortfall(s) + Strays(s, call) > TotalBacking(Apply(s, call).ledger)
  }

  ghost predicate NoneSaturates(s: Ledger, calls: seq<Call>) {
    forall i :: 0 <= i < |calls| ==> !Saturates(Run(s, calls[..i]), calls[i])
  }

  lemma SaturatesPrefix(s: Ledger, calls: seq<Call>)
    requires calls != [] && NoneSaturates(s, calls)
    ensures NoneSaturates(s, calls[..|calls| - 1]) && !Saturates(Run(s, calls[..|calls| - 1]), calls[|calls| - 1])
  {
    hide Saturates, Run;
    var init := calls[..|calls| - 1];
    assert forall i :: 0 <= i < |init| ==> init[..i] == calls[..i] && init[i] == calls[i];
  }

  /** `Total` over any run in which no call takes more out of it than is in it, to the unit. */
  lemma {:induction false} RunShortfall(s: Ledger, calls: seq<Call>)
    requires Consistent(s) && NoneSaturates(s, calls)
    ensures Shortfall(Run(s, calls)) == Shortfall(s) + StraysIn(s, calls)
  {
    hide Consistent, Apply, Strays, TotalBacking, NoneSaturates;
    if calls != [] {
      var init := calls[..|calls| - 1];
      SaturatesPrefix(s, calls);
      RunShortfall(s, init);
      RunConsistent(s, init);
      StepShortfall(Run(s, init), calls[|calls| - 1]);
    }
  }

  /** One call's effect on `Total`, from any gap: the shortfall grows by what strays; where `Total`
      saturates, and only there, it is all capital that is left. */
  lemma StepShortfall(s: Ledger, call: Call)
    requires Consistent(s)
    ensures var r := Apply(s, call).ledger;
            Shortfall(r) == if Saturates(s, call) then TotalBacking(r) else Shortfall(s) + Strays(s, call)
  {
    hide Consistent, Apply, Strays, TotalBacking, Surplus, Ahead;
    GapTheorem(s, call);
  }

  /** From an empty chain, account by account and candidate by candidate. */
  lemma ChainGaps(round: nat, free: map<Account, Balance>, calls: seq<Call>)
    ensures var s := Start(round, free); var r := Run(s, calls);
            && (forall a :: Get(r.reserved, a)
                  == SelfBond(r.info, a) + Delegated(r.delegators, a) + LostIn(s, calls, a))
            && (ReservesExact(r) <==> NoneStale(s, calls))
            && (TotalStaysRight(s, calls) <==> forall i :: 0 <= i < |calls| ==> !Unbalances(s, calls, i))
            && (NoneSaturates(s, calls) ==> r.total + StraysIn(s, calls) == TotalBacking(r))
            && (forall c :: c in r.bottom ==> r.bottom[c].total == Sum(r.bottom[c].delegations) + DriftIn(s, calls, c))
  {
    hide Run, LostIn, DriftIn, StraysIn, NoneStale, NoneSaturates, Unbalances, TotalStaysRight, ReservesExact,
      Candidates.Ok, TotalBacking;
    var s := Start(round, free);
    var r := Run(s, calls);
    StartOk(round, free);
    StartRight(round, free);
    RunConsistent(s, calls);
    RunHoldsIff(s, calls);
    RunTotalIff(s, calls);
    if NoneSaturates(s, calls) {
      RunShortfall(s, calls);
    }
    forall a
      ensures Get(r.reserved, a) == SelfBond(r.info, a) + Delegated(r.delegators, a) + LostIn(s, calls, a)
    {
      RunSurplus(s, calls, a);
    }
    forall c | c in r.bottom
      ensures r.bottom[c].total == Sum(r.bottom[c].delegations) + DriftIn(s, calls, c)
    {
      RunAhead(s, calls, c);
      BottomAhead(r, c);
    }
  }

  lemma StartRight(round: nat, free: map<Account, Balance>)
    ensures ReservesExact(Start(round, free)) && TotalRight(Start(round, free))
  {
    StartOk(round, free);
  }

  lemma BottomAhead(s: Ledger, c: Account)
    requires Consistent(s) && c in s.bottom
    ensures s.bottom[c].total == Sum(s.bottom[c].delegations) + Ahead(s.bottom, c)
  {
    hide StakesAgree, PoolOk, HoldsCover, DelegatorsOk, Sum;
    assert Candidates.Ok(CandidateAt(s, c));
  }
}

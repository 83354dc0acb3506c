/** What the ledger's invariants mean to a reader of the storage items, in every reachable state. */
module Guarantees {
  import opened Bonds
  import opened Params
  import opened OrderedSets
  import opened DelegationLists
  import opened Ledgers
  import opened Transitions
  import opened Calls
  import opened Runs
  import DelegatorCalls
  import Queues
  import Candidates
  import Delegators
  import Sums
  import TopK

  ghost predicate Reachable(s: Ledger) {
    exists round, free, calls :: s == Run(Start(round, free), calls)
  }

  lemma ReachableConsistent(s: Ledger)
    requires Reachable(s)
    ensures Consistent(s)
  {
    hide Run, Start, Consistent, Conserved, Exact;
    var round, free, calls :| s == Run(Start(round, free), calls);
    StartOk(round, free);
    RunConsistent(Start(round, free), calls);
  }

  // ----- entries and measures -----

  /** An entry occurs exactly once in a list that has one entry per owner. */
  lemma {:induction false} OccursOnce(s: seq<Bond>, b: Bond)
    requires Count(s, b.owner) <= 1
    ensures multiset(s)[b] == if Count(s, b.owner) == 1 && StakeOf(s, b.owner) == b.amount then 1 else 0
  {
    if s != [] {
      assert s == DropLast(s) + [Last(s)];
      StakeBounds(DropLast(s), b.owner);
      OccursOnce(DropLast(s), b);
    }
  }

  lemma MemberOnce(s: seq<Bond>, b: Bond)
    requires Count(s, b.owner) <= 1
    ensures b in s <==> Count(s, b.owner) == 1 && StakeOf(s, b.owner) == b.amount
  {
    OccursOnce(s, b);
  }

  // ----- the two-way index -----

  /** A delegation is in its delegator's record if and only if it occurs, with the same amount and
      exactly once, in its candidate's lists; and nobody is both candidate and delegator. */
  lemma TwoWayIndex(s: Ledger, d: Account, c: Account, amount: Balance)
    requires Reachable(s)
    ensures d in s.delegators && Bond(c, amount) in s.delegators[d].delegations <==>
            Listed(s, c) && multiset(s.top[c].delegations + s.bottom[c].delegations)[Bond(d, amount)] == 1
    ensures !(d in s.info && d in s.delegators)
  {
    hide Reachable, PoolOk, Covered, Linked, Delegators.PendingOk, Delegators.RequestFits, Candidates.CachesOk,
      Candidates.BondOk, Queues.Shape;
    ReachableConsistent(s);
    RecordSide(s, d, c, amount);
    ListSide(s, d, c, amount);
    LinkedAt(s, d, c);
  }

  lemma LinkedAt(s: Ledger, d: Account, c: Account)
    requires Consistent(s)
    ensures Stake(s.delegators, d, c) == Backed(s.top, s.bottom, c, d)
  {
  }

  lemma RecordSide(s: Ledger, d: Account, c: Account, amount: Balance)
    requires Consistent(s)
    ensures d in s.delegators && Bond(c, amount) in s.delegators[d].delegations <==>
            amount > 0 && Stake(s.delegators, d, c) == amount
  {
    hide PoolOk, Covered, Linked, BooksOk, OneRole;
    PositiveStake(s.delegators, d, c);
    if d in s.delegators {
      assert Delegators.Ok(s.delegators[d], d);
      OnePerOwner(s.delegators[d].delegations, c);
      MemberOnce(s.delegators[d].delegations, Bond(c, amount));
    }
  }

  lemma ListSide(s: Ledger, d: Account, c: Account, amount: Balance)
    requires Consistent(s)
    ensures Listed(s, c) && multiset(s.top[c].delegations + s.bottom[c].delegations)[Bond(d, amount)] == 1 <==>
            amount > 0 && Backed(s.top, s.bottom, c, d) == amount
  {
    hide PoolOk, Covered, Linked, DelegatorsOk, OneRole;
    PositiveBacked(s, c, d);
    if c in s.info {
      var top, bottom := s.top[c].delegations, s.bottom[c].delegations;
      assert Candidates.Ok(CandidateAt(s, c));
      assert Queues.Entered(QueueAt(s, c), d) <= 1;
      ConcatMeasures(top, bottom);
      OccursOnce(top + bottom, Bond(d, amount));
    }
  }

  // ----- the pool -----

  /** The candidate pool is strictly sorted by account, and its members are exactly the active
      candidates, each with its counted total. */
  lemma PoolIsIndex(s: Ledger, c: Account, amount: Balance)
    requires Reachable(s)
    ensures Bond(c, amount) in s.pool <==> c in s.info && s.info[c].status.Active? && s.info[c].totalCounted == amount
    ensures forall i, j :: 0 <= i < j < |s.pool| ==> s.pool[i].owner < s.pool[j].owner
  {
    hide Reachable, Covered, Linked, DelegatorsOk, BooksOk, OneRole;
    ReachableConsistent(s);
    OnePerOwner(s.pool, c);
    MemberOnce(s.pool, Bond(c, amount));
    assert Count(s.pool, c) == PoolCount(s.info, c) && StakeOf(s.pool, c) == PoolStake(s.info, c);
  }

  // ----- candidates -----

  /** For every candidate: the top list is the `MAX_TOP` largest delegations, the bottom list the
      others in order; all cached metadata is what the lists say; and the self bond keeps its
      minimum. */
  lemma CandidateBooks(s: Ledger, c: Account)
    requires Reachable(s) && c in s.info
    ensures Listed(s, c)
    ensures var top, bottom, m := s.top[c].delegations, s.bottom[c].delegations, s.info[c];
            && |top| == Min(MAX_TOP, |top + bottom|) && |bottom| <= MAX_BOTTOM
            && TopK.Amounts(top) == TopK.Ranked(top + bottom)[..|top|]
            && TopK.Amounts(bottom) == TopK.Ranked(top + bottom)[|top|..]
            && m.totalCounted == m.bond + Sum(top) && m.delegationCount == |top| + |bottom|
            && s.top[c].total == Sum(top) && s.bottom[c].total >= Sum(bottom)
            && m.lowestTop == Lowest(top) && m.highestBottom == Highest(bottom) && m.lowestBottom == Lowest(bottom)
            && m.topCapacity == Capacity(|top|, MAX_TOP) && m.bottomCapacity == Capacity(|bottom|, MAX_BOTTOM)
            && m.bond >= MIN_CANDIDATE_STK
  {
    hide Reachable, Covered, Linked, DelegatorsOk, PoolOk, OneRole, TopK.Ranked, TopK.Amounts;
    ReachableConsistent(s);
    assert Candidates.Ok(CandidateAt(s, c));
    TopK.TopHoldsLargest(QueueAt(s, c));
  }

  // ----- delegators -----

  /** For every delegator: the total is the sum, the pending totals are exact, every request is on a
      current delegation and within it, and so what is pending never exceeds what is staked. */
  lemma DelegatorBooks(s: Ledger, d: Account)
    requires Reachable(s) && d in s.delegators
    ensures var x := s.delegators[d]; var p := x.requests;
            && x.total == Sum(x.delegations) && x.delegations != []
            && p.lessTotal == Sums.SumMap(Delegators.Amounts(p.requests))
            && p.revocationsCount == Sums.SumMap(Delegators.Revocations(p.requests))
            && p.lessTotal <= x.total
            && forall c :: c in p.requests ==>
                 Count(x.delegations, c) == 1 && p.requests[c].amount <= StakeOf(x.delegations, c)
  {
    hide Reachable, Covered, Linked, BooksOk, PoolOk, OneRole;
    ReachableConsistent(s);
    assert Delegators.Ok(s.delegators[d], d);
    Delegators.LessTotalWithinTotal(s.delegators[d], d);
  }

  // ----- requests carried out -----

  /** The request on `(d, c)` is a due revocation that passes the minimum checked first. */
  predicate RevocationDue(s: Ledger, d: Account, c: Account) {
    && d in s.delegators && c in s.delegators[d].requests.requests
    && var r := s.delegators[d].requests.requests[c];
       && r.action.Revoke? && r.whenExecutable <= s.round
       && (|s.delegators[d].delegations| == 1 || SatSub(s.delegators[d].total, MIN_DELEGATOR_STK) >= r.amount)
  }

  /** `d`'s delegation is in `c`'s top list, which is full, and the amount stored with the request is
      below everything in it. */
  predicate StoredBelowTop(s: Ledger, d: Account, c: Account) {
    && d in s.delegators && c in s.delegators[d].requests.requests && Listed(s, c)
    && Count(s.top[c].delegations, d) > 0 && s.info[c].topCapacity.Full?
    && s.delegators[d].requests.requests[c].amount < s.info[c].lowestTop
  }

  /** A request carried out on a consistent ledger always finds its candidate, and misses its
      delegation, which exists, in one case only: the stored amount of a due revocation sends the
      search to the bottom list while the delegation is in top. */
  lemma RequestsFindTheirDelegation(s: Ledger, d: Account, c: Account)
    requires Consistent(s)
    ensures ExecuteDelegationRequest(s, d, c).outcome == Failure(DelegationDNE) <==>
              RevocationDue(s, d, c) && StoredBelowTop(s, d, c)
    ensures ExecuteDelegationRequest(s, d, c).outcome != Failure(CandidateDNE)
    ensures StoredBelowTop(s, d, c) ==> 0 < Stake(s.delegators, d, c) != s.delegators[d].requests.requests[c].amount
  {
    hide Consistent, TotalBacking, Sever, LowerStake, Candidates.Reaches, Candidates.Ok;
    if d in s.delegators && c in s.delegators[d].requests.requests {
      DelegatorCalls.RequestIsFor(s, d, c);
      BothSides(s, d, c);
      CandidateIsOk(s, c);
      Candidates.ReachesIff(CandidateAt(s, c), d, s.delegators[d].requests.requests[c].amount);
      Candidates.WhereStakeIs(CandidateAt(s, c), d);
    }
  }

  lemma ListedIfCandidate(s: Ledger, c: Account)
    requires Consistent(s)
    ensures Listed(s, c) <==> c in s.info
  {
  }

  lemma CandidateIsOk(s: Ledger, c: Account)
    requires Consistent(s) && c in s.info
    ensures Listed(s, c) && Candidates.Ok(CandidateAt(s, c))
  {
  }

  /** Where every pending revocation is for the whole stake, as after any run without a bond-more on a
      delegation awaiting one, no request misses. */
  lemma ConservedFinds(s: Ledger, d: Account, c: Account)
    requires Consistent(s) && Conserved(s)
    ensures ExecuteDelegationRequest(s, d, c).outcome != Failure(DelegationDNE)
  {
    hide Consistent, Conserved, ExecuteDelegationRequest, Stake;
    RequestsFindTheirDelegation(s, d, c);
    if RevocationDue(s, d, c) {
      DelegatorCalls.RevokeIsCurrent(s, d, c);
    }
  }

  // ----- currency -----

  /** No account's balance, free and reserved together, differs. */
  ghost predicate SameHoldings(s: Ledger, r: Ledger) {
    forall a :: Get(r.free, a) + Get(r.reserved, a) == Get(s.free, a) + Get(s.reserved, a)
  }

  lemma PutQueueHoldings(s: Ledger, c: Account, q: Queues.Queue, excess: nat)
    requires Listed(s, c)
    ensures PutQueue(s, c, q, excess).free == s.free && PutQueue(s, c, q, excess).reserved == s.reserved
  {
  }

  lemma SeverHoldings(s: Ledger, d: Account, c: Account, v: Balance)
    requires Listed(s, c)
    ensures SameHoldings(s, Sever(s, d, c, v)) && forall a :: Get(Sever(s, d, c, v).free, a) >= Get(s.free, a)
  {
    hide PutQueue, Queues.Dequeue, ExcessAt, QueueAt;
    PutQueueHoldings(s, c, Queues.Dequeue(QueueAt(s, c), d), ExcessAt(s, c));
  }

  lemma EvictHoldings(s: Ledger, c: Account)
    requires Listed(s, c)
    ensures SameHoldings(s, Evict(s, c)) && forall a :: Get(Evict(s, c).free, a) >= Get(s.free, a)
  {
    hide Sever;
    if Queues.Evicted(QueueAt(s, c)).Some? {
      var kicked := Queues.Evicted(QueueAt(s, c)).value;
      SeverHoldings(s, kicked.owner, c, kicked.amount);
    }
  }

  lemma AdmitHoldings(s: Ledger, d: Account, c: Account, v: Balance, after: Delegator)
    requires Listed(s, c) && CanReserve(s, d, v)
    ensures SameHoldings(s, Admit(s, d, c, v, after))
  {
    hide PutQueue, Queues.Enqueue, ExcessAt, QueueAt;
    PutQueueHoldings(s, c, Queues.Enqueue(QueueAt(s, c), Bond(d, v)), ExcessAt(s, c));
  }

  lemma ChangeHoldings(s: Ledger, d: Account, c: Account, v: Balance)
    requires Listed(s, c) && d in s.delegators
    ensures CanReserve(s, d, v) ==> SameHoldings(s, RaiseStake(s, d, c, v))
    ensures SameHoldings(s, LowerStake(s, d, c, v))
  {
    hide PutQueue, Queues.Raise, Queues.Lower, ExcessAt, QueueAt, Drift, Delegators.Raise, Delegators.Lower;
    PutQueueHoldings(s, c, Queues.Raise(QueueAt(s, c), d, v), ExcessAt(s, c));
    PutQueueHoldings(s, c, Queues.Lower(QueueAt(s, c), d, v), ExcessAt(s, c) + Drift(s, d, c, v));
  }

  lemma {:induction false} SeverEachHoldings(s: Ledger, links: seq<Link>)
    ensures SameHoldings(s, SeverEach(s, links))
  {
    hide Sever;
    if links != [] {
      var l := links[|links| - 1];
      var r := SeverEach(s, links[..|links| - 1]);
      SeverEachHoldings(s, links[..|links| - 1]);
      if Listed(r, l.candidate) {
        SeverHoldings(r, l.delegator, l.candidate, l.amount);
      }
    }
  }

  lemma DelegateHoldings(s: Ledger, d: Account, c: Account, amount: Balance, candidateHint: nat, delegatorHint: nat)
    ensures SameHoldings(s, Delegate(s, d, c, amount, candidateHint, delegatorHint).ledger)
  {
    hide Admit, Evict, Queues.Accepts, KickedAmount, Delegators.Add, Delegators.New;
    if Listed(s, c) && CanReserve(s, d, amount) {
      var after := if d in s.delegators then Delegators.Add(s.delegators[d], c, amount)
        else Delegators.New(d, c, amount);
      EvictHoldings(s, c);
      AdmitHoldings(Evict(s, c), d, c, amount, after);
    }
  }

  lemma BondMoreHoldings(s: Ledger, d: Account, c: Account, more: Balance)
    ensures SameHoldings(s, DelegatorBondMore(s, d, c, more).ledger)
  {
    hide RaiseStake, LowerStake;
    if Listed(s, c) && d in s.delegators {
      ChangeHoldings(s, d, c, more);
    }
  }

  lemma RequestHoldings(s: Ledger, d: Account, c: Account)
    ensures SameHoldings(s, ExecuteDelegationRequest(s, d, c).ledger)
  {
    hide Sever, RaiseStake, LowerStake, Candidates.Reaches;
    if Listed(s, c) && d in s.delegators && c in s.delegators[d].requests.requests {
      var amount := s.delegators[d].requests.requests[c].amount;
      ChangeHoldings(s, d, c, amount);
      SeverHoldings(s, d, c, amount);
    }
  }

  lemma ExitHoldings(s: Ledger, call: Call)
    requires call.CallExecuteLeaveCandidates? || call.CallExecuteLeaveDelegators?
    ensures SameHoldings(s, Apply(s, call).ledger)
  {
    hide SeverEach;
    if call.CallExecuteLeaveCandidates? && Listed(s, call.c) {
      SeverEachHoldings(s, LinksTo(call.c, Queues.Entries(QueueAt(s, call.c))));
    } else if call.CallExecuteLeaveDelegators? && call.d in s.delegators {
      SeverEachHoldings(s, LinksFrom(call.d, s.delegators[call.d].delegations));
    }
  }

  /** Holding or releasing, whatever else was changed before. */
  lemma HeldOver(s: Ledger, x: Ledger, a: Account, v: Balance)
    requires x.free == s.free && x.reserved == s.reserved
    ensures CanReserve(s, a, v) ==> SameHoldings(s, Reserve(x, a, v))
    ensures SameHoldings(s, Unreserve(x, a, v))
  {
  }

  lemma JoinHoldings(s: Ledger, acc: Account, bond: Balance, hint: nat)
    ensures SameHoldings(s, JoinCandidates(s, acc, bond, hint).ledger)
  {
    hide Reserve, Unreserve, SameHoldings, CanReserve, Put, Candidates.Fresh;
    SameRefl(s);
    HeldOver(s, PutCandidate(s, acc, Candidates.Fresh(bond)).(pool := Put(s.pool, Bond(acc, bond)),
                                                              total := s.total + bond), acc, bond);
  }

  lemma SameRefl(s: Ledger)
    ensures SameHoldings(s, s)
  {
  }

  lemma CandidateBondMoreHoldings(s: Ledger, c: Account, more: Balance)
    ensures SameHoldings(s, CandidateBondMore(s, c, more).ledger)
  {
    hide Reserve, Unreserve, SameHoldings, CanReserve, Reindex, BondMoved;
    SameRefl(s);
    if c in s.info {
      var m := BondMoved(s.info[c], more);
      HeldOver(s, PutInfo(s, c, m).(pool := Reindex(s.pool, c, m), total := s.total + more), c, more);
    }
  }

  lemma CandidateBondLessHoldings(s: Ledger, c: Account)
    ensures SameHoldings(s, ExecuteCandidateBondLess(s, c).ledger)
  {
    hide Reserve, Unreserve, SameHoldings, Reindex;
    SameRefl(s);
    if c in s.info && s.info[c].request.Some? {
      var less := s.info[c].request.value.amount;
      var m := s.info[c].(bond := SatSub(s.info[c].bond, less), totalCounted := SatSub(s.info[c].totalCounted, less),
                          request := None);
      HeldOver(s, PutInfo(s, c, m).(pool := Reindex(s.pool, c, m), total := SatSub(s.total, less)), c, less);
    }
  }

  lemma StatusCallHoldings(s: Ledger, call: Call)
    requires call.CallScheduleLeaveCandidates? || call.CallCancelLeaveCandidates?
             || call.CallGoOffline? || call.CallGoOnline?
             || call.CallScheduleCandidateBondLess? || call.CallCancelCandidateBondLess?
    ensures SameHoldings(s, Apply(s, call).ledger)
  {
    hide Put, Without;
  }

  lemma RecordCallHoldings(s: Ledger, call: Call)
    requires call.CallScheduleLeaveDelegators? || call.CallCancelLeaveDelegators? || call.CallScheduleRevokeDelegation?
             || call.CallScheduleDelegatorBondLess? || call.CallCancelDelegationRequest? || call.NewRound?
    ensures SameHoldings(s, Apply(s, call).ledger)
  {
    hide Delegators.AddRequest, Delegators.DropRequest;
  }

  /** No call of this pallet moves currency between accounts, creates it or destroys it. */
  lemma CallsKeepHoldings(s: Ledger, call: Call)
    requires !call.FreeBalancesChange?
    ensures SameHoldings(s, Apply(s, call).ledger)
  {
    hide Apply, SameHoldings;
    match call
    case CallDelegate(d, c, amount, candidateHint, delegatorHint) =>
      DelegateHoldings(s, d, c, amount, candidateHint, delegatorHint);
      ApplyIs(s, call);
    case CallDelegatorBondMore(d, c, more) =>
      BondMoreHoldings(s, d, c, more);
      ApplyIs(s, call);
    case CallExecuteDelegationRequest(d, c) =>
      RequestHoldings(s, d, c);
      ApplyIs(s, call);
    case CallJoinCandidates(acc, bond, hint) =>
      JoinHoldings(s, acc, bond, hint);
      ApplyIs(s, call);
    case CallCandidateBondMore(c, more) =>
      CandidateBondMoreHoldings(s, c, more);
      ApplyIs(s, call);
    case CallExecuteCandidateBondLess(c) =>
      CandidateBondLessHoldings(s, c);
      ApplyIs(s, call);
    case CallExecuteLeaveCandidates(_, _) => ExitHoldings(s, call);
    case CallExecuteLeaveDelegators(_, _) => ExitHoldings(s, call);
    case _ =>
      if call.CallScheduleLeaveDelegators? || call.CallCancelLeaveDelegators? || call.CallScheduleRevokeDelegation?
         || call.CallScheduleDelegatorBondLess? || call.CallCancelDelegationRequest? || call.NewRound? {
        RecordCallHoldings(s, call);
      } else {
        StatusCallHoldings(s, call);
      }
  }

  lemma ApplyIs(s: Ledger, call: Call)
    ensures call.CallDelegate? ==>
              Apply(s, call) == Delegate(s, call.d, call.c, call.amount, call.candidateHint, call.delegatorHint)
    ensures call.CallDelegatorBondMore? ==> Apply(s, call) == DelegatorBondMore(s, call.d, call.c, call.more)
    ensures call.CallExecuteDelegationRequest? ==> Apply(s, call) == ExecuteDelegationRequest(s, call.d, call.c)
    ensures call.CallJoinCandidates? ==> Apply(s, call) == JoinCandidates(s, call.acc, call.bond, call.hint)
    ensures call.CallCandidateBondMore? ==> Apply(s, call) == CandidateBondMore(s, call.c, call.more)
    ensures call.CallExecuteCandidateBondLess? ==> Apply(s, call) == ExecuteCandidateBondLess(s, call.c)
  {
    hide Delegate, DelegatorBondMore, ExecuteDelegationRequest, JoinCandidates, CandidateBondMore,
      ExecuteCandidateBondLess;
  }
}

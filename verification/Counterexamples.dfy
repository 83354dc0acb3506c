/** Where the code falls short of what its storage items promise: runs from an empty chain, and states
    the repairs are called on, that show it. The exact conditions are in `Gaps`, `Repairs` and
    `SplitMigration`. */
module Counterexamples {
  import opened Bonds
  import opened Params
  import opened OrderedSets
  import opened Ledgers
  import opened Transitions
  import opened Calls
  import opened Runs
  import opened DelegatorCalls
  import opened Gaps
  import Queues
  import Candidates
  import Delegators
  import Guarantees
  import Repairs
  import Split = SplitMigration
  import Sums

  function Rounds(k: nat): seq<Call> {
    if k == 0 then [] else Rounds(k - 1) + [NewRound]
  }

  lemma {:induction false} RoundsPass(s: Ledger, k: nat)
    ensures Run(s, Rounds(k)) == s.(round := s.round + k)
  {
    hide Apply;
    if k > 0 {
      RoundsPass(s, k - 1);
      assert Rounds(k)[..|Rounds(k)| - 1] == Rounds(k - 1);
      OneRound(Run(s, Rounds(k - 1)));
    }
  }

  lemma OneRound(s: Ledger)
    ensures Apply(s, NewRound).ledger == s.(round := s.round + 1)
  {
  }

  lemma Then(s: Ledger, calls: seq<Call>, call: Call)
    ensures Run(s, calls + [call]) == Apply(Run(s, calls), call).ledger
  {
    hide Apply;
    assert (calls + [call])[..|calls|] == calls;
  }

  lemma ThenRounds(s: Ledger, calls: seq<Call>, k: nat)
    ensures Run(s, calls + Rounds(k)) == Run(s, calls).(round := Run(s, calls).round + k)
  {
    hide Apply;
    RunConcat(s, calls, Rounds(k));
    RoundsPass(Run(s, calls), k);
  }

  /** The counts of a list of one or two. */
  lemma Few(b: Bond, o: Account)
    ensures Count([b], o) == (if b.owner == o then 1 else 0) && StakeOf([b], o) == if b.owner == o then b.amount else 0
    ensures Sum([b]) == b.amount
  {
    assert DropLast([b]) == [];
  }

  // ----- a bottom total that runs ahead -----

  const BOND: nat := MIN_CANDIDATE_STK + 1
  const AMOUNT: nat := MIN_DELEGATOR_STK + 1
  const LAST: Account := MAX_TOP + 2

  /** Accounts below `n`, each with enough for either role. */
  function Funded(n: nat): map<Account, Balance> {
    if n == 0 then map[] else Funded(n - 1)[n - 1 := BOND + AMOUNT]
  }

  lemma {:induction false} FundedIs(n: nat)
    ensures forall a: Account :: Get(Funded(n), a) == if a < n then BOND + AMOUNT else 0
  {
    if n > 0 {
      FundedIs(n - 1);
      forall a: Account
        ensures Get(Funded(n), a) == if a < n then BOND + AMOUNT else 0
      {
        assert Get(Funded(n - 1), a) == if a < n - 1 then BOND + AMOUNT else 0;
      }
    }
  }

  /** Room for two candidates, 0 and 1, and `MAX_TOP + 1` delegators, 2 and up. */
  function DriftStart(): Ledger {
    Start(1, Funded(LAST + 1))
  }

  /** Accounts 2 to `n + 1` delegate the same amount to candidate 0. */
  function Delegates(n: nat): seq<Call> {
    if n == 0 then [CallJoinCandidates(0, BOND, 0), CallJoinCandidates(1, BOND, 1)]
    else Delegates(n - 1) + [CallDelegate(n + 1, 0, AMOUNT, n, 0)]
  }

  /** The last of them finds the top list full; it schedules a decrease by one unit, and waits. */
  function DriftCalls(): seq<Call> {
    Delegates(MAX_TOP + 1) + [CallScheduleDelegatorBondLess(LAST, 0, 1)] + Rounds(DELEGATION_BOND_LESS_DELAY)
  }

  function DriftCall(): Call {
    CallExecuteDelegationRequest(LAST, 0)
  }

  /** `n` entries of the same amount, from this owner on. */
  function Equal(from: Account, n: nat, amount: Balance): seq<Bond> {
    if n == 0 then [] else Equal(from, n - 1, amount) + [Bond(from + n - 1, amount)]
  }

  lemma {:induction false} EqualIs(from: Account, n: nat, amount: Balance)
    ensures |Equal(from, n, amount)| == n
    ensures forall i :: 0 <= i < n ==> Equal(from, n, amount)[i] == Bond(from + i, amount)
    ensures forall o: Account :: Count(Equal(from, n, amount), o) == if from <= o < from + n then 1 else 0
    ensures forall o: Account :: StakeOf(Equal(from, n, amount), o) == if from <= o < from + n then amount else 0
  {
    if n > 0 {
      EqualIs(from, n - 1, amount);
      SnocMeasures(Equal(from, n - 1, amount), Bond(from + n - 1, amount));
    }
  }

  function Filled(n: nat): Queues.Queue {
    if n <= MAX_TOP then Queues.Queue(Equal(2, n, AMOUNT), [])
    else Queues.Queue(Equal(2, MAX_TOP, AMOUNT), [Bond(LAST, AMOUNT)])
  }

  lemma FilledNext(n: nat)
    requires n <= MAX_TOP
    ensures Queues.Enqueue(Filled(n), Bond(n + 2, AMOUNT)) == Filled(n + 1)
    ensures Queues.Accepts(Filled(n), Bond(n + 2, AMOUNT)) && Queues.Evicted(Filled(n)).None?
  {
    EqualIs(2, n, AMOUNT);
  }

  /** What is known after the first `n` delegations. */
  ghost predicate Filling(s: Ledger, n: nat) {
    && Consistent(s) && s.total == TotalBacking(s)
    && Listed(s, 0) && Listed(s, 1) && s.info[1].bond == BOND && s.info[0].status.Active?
    && QueueAt(s, 0) == Filled(n) && Ahead(s.bottom, 0) == 0
    && (forall d :: 2 <= d <= n + 1 ==> d in s.delegators && s.delegators[d] == Delegators.New(d, 0, AMOUNT))
    && (forall d :: n + 1 < d <= LAST ==> d !in s.delegators && d !in s.info && Get(s.free, d) >= AMOUNT)
  }

  /** The facts that every call keeps, in one place. */
  lemma StepKeeps(s: Ledger, call: Call)
    requires Consistent(s) && s.total == TotalBacking(s)
    requires !call.CallExecuteDelegationRequest? && !call.CallExecuteLeaveCandidates?
    ensures Consistent(Apply(s, call).ledger) && Apply(s, call).ledger.total == TotalBacking(Apply(s, call).ledger)
    ensures forall c :: c in Apply(s, call).ledger.bottom ==>
              Ahead(Apply(s, call).ledger.bottom, c) == Ahead(s.bottom, c)
  {
    hide Consistent, Apply, TotalBacking, Ahead, Surplus;
    StepTheorem(s, call);
    GapTheorem(s, call);
  }

  lemma Joins()
    ensures Filling(Run(DriftStart(), Delegates(0)), 0)
  {
    hide Filling, Apply, DriftStart;
    var s := DriftStart();
    var join0, join1 := CallJoinCandidates(0, BOND, 0), CallJoinCandidates(1, BOND, 1);
    assert [join0, join1] == [join0] + [join1];
    assert [join0] == [] + [join0];
    Then(s, [], join0);
    Then(s, [join0], join1);
    BothJoin(s);
  }

  lemma BothJoin(s: Ledger)
    requires s == DriftStart()
    ensures Filling(Apply(Apply(s, CallJoinCandidates(0, BOND, 0)).ledger, CallJoinCandidates(1, BOND, 1)).ledger, 0)
  {
    hide Consistent, TotalBacking, Ahead, Apply, Funded, Filled;
    var join0, join1 := CallJoinCandidates(0, BOND, 0), CallJoinCandidates(1, BOND, 1);
    var s1 := Apply(s, join0).ledger;
    StartOk(1, s.free);
    StartIs(s);
    JoinedFirst(s);
    StepKeeps(s, join0);
    JoinedSecond(s1);
    StepKeeps(s1, join1);
    var r := Apply(s1, join1).ledger;
    forall d | 1 < d <= LAST
      ensures d !in r.delegators && d !in r.info && Get(r.free, d) >= AMOUNT
    {
      assert Get(r.free, d) == BOND + AMOUNT;
    }
  }

  lemma StartIs(s: Ledger)
    requires s == DriftStart()
    ensures s.total == TotalBacking(s) && s.info == map[] && s.delegators == map[] && s.pool == [] && s.bottom == map[]
    ensures forall a :: 0 <= a <= LAST ==> Get(s.free, a) == BOND + AMOUNT
  {
    hide Funded;
    StartOk(1, s.free);
    FundedIs(LAST + 1);
  }

  lemma JoinedFirst(s: Ledger)
    requires s == DriftStart()
    ensures var r := Apply(s, CallJoinCandidates(0, BOND, 0)).ledger;
            && Listed(r, 0) && r.info == map[0 := Candidates.Fresh(BOND).info] && r.delegators == map[] && |r.pool| == 1
            && QueueAt(r, 0) == Queues.Queue([], []) && Ahead(r.bottom, 0) == 0
            && forall a :: 0 < a <= LAST ==> Get(r.free, a) == BOND + AMOUNT
  {
    hide Funded;
    StartIs(s);
    assert s.info[0 := Candidates.Fresh(BOND).info] == map[0 := Candidates.Fresh(BOND).info];
    assert Get(s.free, 0) == BOND + AMOUNT;
    forall a | 0 < a <= LAST
      ensures Get(Apply(s, CallJoinCandidates(0, BOND, 0)).ledger.free, a) == BOND + AMOUNT
    {
      assert Get(s.free, a) == BOND + AMOUNT;
    }
  }

  lemma JoinedSecond(s: Ledger)
    requires Listed(s, 0) && s.info == map[0 := Candidates.Fresh(BOND).info] && s.delegators == map[] && |s.pool| == 1
    requires QueueAt(s, 0) == Queues.Queue([], [])
    requires forall a :: 0 < a <= LAST ==> Get(s.free, a) == BOND + AMOUNT
    ensures var r := Apply(s, CallJoinCandidates(1, BOND, 1)).ledger;
            && Listed(r, 0) && Listed(r, 1) && r.info[1].bond == BOND && r.info[0].status.Active?
                 && r.delegators == map[]
            && r.info.Keys == {0, 1} && QueueAt(r, 0) == Filled(0)
            && forall a :: 1 < a <= LAST ==> Get(r.free, a) == BOND + AMOUNT
  {
    hide Put;
    assert s.info[1 := Candidates.Fresh(BOND).info].Keys == {0, 1};
    assert Filled(0) == Queues.Queue([], []);
    assert Get(s.free, 1) == BOND + AMOUNT;
    forall a | 1 < a <= LAST
      ensures Get(Apply(s, CallJoinCandidates(1, BOND, 1)).ledger.free, a) == BOND + AMOUNT
    {
      assert Get(s.free, a) == BOND + AMOUNT;
    }
  }

  lemma OneMoreDelegates(s: Ledger, n: nat)
    requires Filling(s, n) && n <= MAX_TOP
    ensures Filling(Apply(s, CallDelegate(n + 2, 0, AMOUNT, n + 1, 0)).ledger, n + 1)
  {
    hide Consistent, TotalBacking, Ahead, Filled, Admit, Delegators.New;
    var d := n + 2;
    var call := CallDelegate(d, 0, AMOUNT, n + 1, 0);
    FilledNext(n);
    FilledCount(s, n);
    StepKeeps(s, call);
    AdmittedAs(s, d, 0, AMOUNT, Delegators.New(d, 0, AMOUNT), s.total + AMOUNT);
    NoneKicked(s, 0, AMOUNT);
  }

  lemma NoneKicked(s: Ledger, c: Account, amount: Balance)
    requires Listed(s, c) && Queues.Evicted(QueueAt(s, c)).None?
    ensures Evict(s, c) == s && SatSub(amount, KickedAmount(s, c)) == amount
  {
  }

  lemma FilledCount(s: Ledger, n: nat)
    requires Consistent(s) && Listed(s, 0) && QueueAt(s, 0) == Filled(n) && n <= MAX_TOP
    ensures s.info[0].delegationCount == n
  {
    hide StakesAgree, PoolOk, HoldsCover, DelegatorsOk;
    EqualIs(2, n, AMOUNT);
    assert Candidates.Ok(CandidateAt(s, 0));
  }

  lemma AdmittedAs(s: Ledger, d: Account, c: Account, amount: Balance, after: Delegator, total: Balance)
    requires Listed(s, c)
    ensures var r := Admit(s, d, c, amount, after).(total := total);
            && Listed(r, c) && QueueAt(r, c) == Queues.Enqueue(QueueAt(s, c), Bond(d, amount))
            && r.info.Keys == s.info.Keys && r.info[c].status == s.info[c].status
            && r.top.Keys == s.top.Keys && r.bottom.Keys == s.bottom.Keys
            && (forall x :: x in s.info && x != c ==> r.info[x] == s.info[x])
            && r.delegators == s.delegators[d := after]
            && (forall a :: a != d ==> Get(r.free, a) == Get(s.free, a))
            && Get(r.free, d) == SatSub(Get(s.free, d), amount)
  {
    hide Queues.Enqueue, Reindex, ExcessAt;
  }

  lemma {:induction false} AllDelegate(n: nat)
    requires n <= MAX_TOP + 1
    ensures Filling(Run(DriftStart(), Delegates(n)), n)
  {
    hide Filling, Apply, DriftStart;
    if n == 0 {
      Joins();
    } else {
      AllDelegate(n - 1);
      OneMoreDelegates(Run(DriftStart(), Delegates(n - 1)), n - 1);
      Then(DriftStart(), Delegates(n - 1), CallDelegate(n + 1, 0, AMOUNT, n, 0));
    }
  }

  /** The ledger the decrease is carried out on. */
  ghost predicate BeforeDrift(s: Ledger) {
    && Consistent(s) && s.total == TotalBacking(s)
    && Listed(s, 0) && Listed(s, 1) && s.info[1].bond == BOND && s.info[0].status.Active?
    && QueueAt(s, 0) == Filled(MAX_TOP + 1) && Ahead(s.bottom, 0) == 0
    && DecreasePending(s, LAST, 0, 1) && s.delegators[LAST].requests.requests[0].whenExecutable <= s.round
    && s.delegators[LAST].delegations == [Bond(0, AMOUNT)] && s.delegators[LAST].total == AMOUNT
  }

  lemma DecreaseScheduled(s: Ledger)
    requires Filling(s, MAX_TOP + 1)
    ensures var r := Apply(s, CallScheduleDelegatorBondLess(LAST, 0, 1)).ledger;
            BeforeDrift(r.(round := r.round + DELEGATION_BOND_LESS_DELAY))
  {
    hide Consistent, TotalBacking, Ahead, Filled;
    var call := CallScheduleDelegatorBondLess(LAST, 0, 1);
    Few(Bond(0, AMOUNT), 0);
    StepKeeps(s, call);
    RoundKeeps(Apply(s, call).ledger, DELEGATION_BOND_LESS_DELAY);
  }

  lemma RoundKeeps(s: Ledger, k: nat)
    requires Consistent(s)
    ensures Consistent(s.(round := s.round + k)) && TotalBacking(s.(round := s.round + k)) == TotalBacking(s)
  {
  }

  lemma BeforeDriftHolds()
    ensures BeforeDrift(Run(DriftStart(), DriftCalls()))
  {
    hide Filling, Apply, DriftStart, BeforeDrift;
    var calls := Delegates(MAX_TOP + 1);
    var call := CallScheduleDelegatorBondLess(LAST, 0, 1);
    AllDelegate(MAX_TOP + 1);
    DecreaseScheduled(Run(DriftStart(), calls));
    Then(DriftStart(), calls, call);
    ThenRounds(DriftStart(), calls + [call], DELEGATION_BOND_LESS_DELAY);
  }

  lemma DecreaseSucceeds(s: Ledger)
    requires BeforeDrift(s)
    ensures Apply(s, DriftCall()).outcome.Success? && DriftsBottom(s, LAST, 0) && DriftOf(s, LAST, 0) == 1
    ensures var r := Apply(s, DriftCall()).ledger;
            Listed(r, 0) && Listed(r, 1) && r.info[1].bond == BOND && r.info[0].status.Active?
  {
    hide Consistent, TotalBacking, Ahead, Queues.Lower, ExcessAt, Reindex, Delegators.Lower;
    Few(Bond(0, AMOUNT), 0);
    EqualIs(2, MAX_TOP, AMOUNT);
  }

  /** In a run from an empty chain a decrease inside a bottom list succeeds, and leaves the list's cached
      total one unit above its sum: the branch changes the entry and not the total. */
  lemma BottomTotalRunsAhead()
    ensures var s := Run(DriftStart(), DriftCalls()); var r := Apply(s, DriftCall());
            && r.outcome.Success? && Drifts(s, DriftCall()) && !NoDrift(r.ledger)
            && 0 in r.ledger.bottom && r.ledger.bottom[0].total == Sum(r.ledger.bottom[0].delegations) + 1
  {
    hide Consistent, TotalBacking, Ahead, Apply, DriftStart, DriftCalls, Filled, Surplus, DriftsBottom, Run;
    var s := Run(DriftStart(), DriftCalls());
    BeforeDriftHolds();
    DecreaseSucceeds(s);
    GapTheorem(s, DriftCall());
    StepTheorem(s, DriftCall());
    assert Ahead(Apply(s, DriftCall()).ledger.bottom, 0) == Ahead(s.bottom, 0) + DriftBy(s, DriftCall(), 0);
    BottomAhead(Apply(s, DriftCall()).ledger, 0);
  }

  // ----- `Total` below all capital -----

  /** Candidate 0 then leaves. The hints are the counts of the moment. */
  function ExitCalls(): seq<Call> {
    var drifted := DriftCalls() + [DriftCall()];
    drifted + [CallScheduleLeaveCandidates(0, |Run(DriftStart(), drifted).pool|)] + Rounds(LEAVE_CANDIDATES_DELAY)
  }

  function ExitCall(): Call {
    CallExecuteLeaveCandidates(0, MAX_TOP + MAX_BOTTOM)
  }

  ghost predicate BeforeExit(s: Ledger) {
    && Consistent(s) && s.total == TotalBacking(s) && Ahead(s.bottom, 0) == 1
    && Listed(s, 0) && Listed(s, 1) && s.info[1].bond == BOND
    && s.info[0].status.Leaving? && s.info[0].status.when <= s.round
  }

  lemma Drifted()
    ensures var r := Apply(Run(DriftStart(), DriftCalls()), DriftCall()).ledger;
            && Consistent(r) && r.total == TotalBacking(r) && Ahead(r.bottom, 0) == 1
            && Listed(r, 0) && Listed(r, 1) && r.info[1].bond == BOND && r.info[0].status.Active?
  {
    hide Consistent, TotalBacking, Ahead, Apply, DriftStart, DriftCalls, Filled, Surplus, DriftsBottom, Run;
    var s := Run(DriftStart(), DriftCalls());
    BeforeDriftHolds();
    DecreaseSucceeds(s);
    GapTheorem(s, DriftCall());
    StepTheorem(s, DriftCall());
    assert DriftBy(s, DriftCall(), 0) == 1;
  }

  lemma ExitScheduled(s: Ledger)
    requires Consistent(s) && s.total == TotalBacking(s) && Ahead(s.bottom, 0) == 1
    requires Listed(s, 0) && Listed(s, 1) && s.info[1].bond == BOND && s.info[0].status.Active?
    ensures var r := Apply(s, CallScheduleLeaveCandidates(0, |s.pool|)).ledger;
            BeforeExit(r.(round := r.round + LEAVE_CANDIDATES_DELAY))
  {
    hide Consistent, TotalBacking, Ahead, Without;
    var call := CallScheduleLeaveCandidates(0, |s.pool|);
    StepKeeps(s, call);
    RoundKeeps(Apply(s, call).ledger, LEAVE_CANDIDATES_DELAY);
  }

  lemma ExitAfter(start: Ledger, drifted: seq<Call>, k: nat)
    requires k == LEAVE_CANDIDATES_DELAY
    requires var s := Run(start, drifted);
             && Consistent(s) && s.total == TotalBacking(s) && Ahead(s.bottom, 0) == 1
             && Listed(s, 0) && Listed(s, 1) && s.info[1].bond == BOND && s.info[0].status.Active?
    ensures BeforeExit(Run(start, drifted + [CallScheduleLeaveCandidates(0, |Run(start, drifted).pool|)] + Rounds(k)))
  {
    hide Apply, BeforeExit, Consistent, TotalBacking, Ahead, Run;
    var call := CallScheduleLeaveCandidates(0, |Run(start, drifted).pool|);
    ExitScheduled(Run(start, drifted));
    Then(start, drifted, call);
    ThenRounds(start, drifted + [call], k);
  }

  lemma BeforeExitHolds()
    ensures BeforeExit(Run(DriftStart(), ExitCalls()))
  {
    hide Apply, DriftStart, BeforeExit, DriftCalls, DriftCall, Consistent, TotalBacking, Ahead, Run;
    Drifted();
    Then(DriftStart(), DriftCalls(), DriftCall());
    ExitAfter(DriftStart(), DriftCalls() + [DriftCall()], LEAVE_CANDIDATES_DELAY);
  }

  lemma ExitSucceeds(s: Ledger)
    requires BeforeExit(s)
    ensures Apply(s, ExitCall()).outcome.Success?
  {
    hide TotalBacking, Ahead, SeverEach, RemoveCandidate, Consistent;
    CountWithin(s, 0);
  }

  lemma CountWithin(s: Ledger, c: Account)
    requires Consistent(s) && Listed(s, c)
    ensures s.info[c].delegationCount <= MAX_TOP + MAX_BOTTOM
  {
    hide StakesAgree, PoolOk, HoldsCover, DelegatorsOk;
    assert Candidates.Ok(CandidateAt(s, c));
  }

  lemma OtherRemains(s: Ledger)
    requires Listed(s, 0) && Listed(s, 1)
    ensures TotalBacking(s) >= Candidates.Backing(CandidateAt(s, 0)) + Candidates.Backing(CandidateAt(s, 1))
  {
    var backings := Backings(s.info, s.top, s.bottom);
    Sums.TakeOut(backings, 0);
    Sums.TakeOut(backings - {0}, 1);
  }

  /** After that exit `Total` is one unit below all capital. */
  lemma TotalFallsBehind()
    ensures var s := Run(DriftStart(), ExitCalls()); var r := Apply(s, ExitCall());
            && r.outcome.Success? && s.total == TotalBacking(s) && DriftedExit(s, ExitCall())
            && r.ledger.total + 1 == TotalBacking(r.ledger)
  {
    hide Consistent, TotalBacking, Ahead, DriftStart, ExitCalls, Run, Surplus, ExecuteLeaveCandidates;
    var s := Run(DriftStart(), ExitCalls());
    BeforeExitHolds();
    ExitSucceeds(s);
    OtherRemains(s);
    ExecuteLeaveCandidatesGaps(s, 0, MAX_TOP + MAX_BOTTOM);
  }

  // ----- a revocation gone stale -----

  const STAKE: nat := MIN_DELEGATOR_STK

  /** Account 1 joins as a candidate and account 2 delegates to it; when the top list has one place only,
      account 3 has taken it with two units more. */
  function StakeCalls(): seq<Call> {
    [CallJoinCandidates(1, MIN_CANDIDATE_STK, 0)] +
    (if MAX_TOP == 1 then [CallDelegate(3, 1, STAKE + 2, 0, 0)] else []) +
    [CallDelegate(2, 1, STAKE, 1, 0)]
  }

  /** Account 2 schedules the revocation, bonds one unit more, and waits until it is due. */
  function StaleCalls(): seq<Call> {
    StakeCalls() + [CallScheduleRevokeDelegation(2, 1)] + [CallDelegatorBondMore(2, 1, 1)] +
      Rounds(REVOKE_DELEGATION_DELAY)
  }

  function StaleCall(): Call {
    CallExecuteDelegationRequest(2, 1)
  }

  function StaleStart(): Ledger {
    Start(1, map[1 := MIN_CANDIDATE_STK, 2 := STAKE + 1, 3 := STAKE + 2])
  }

  /** Candidate 1's lists, with account 2 at this amount. */
  function Staked(amount: Balance): Queues.Queue {
    if MAX_TOP == 1 then Queues.Queue([Bond(3, STAKE + 2)], [Bond(2, amount)]) else Queues.Queue([Bond(2, amount)], [])
  }

  ghost predicate Open(s: Ledger) {
    && Consistent(s) && ReservesExact(s) && Listed(s, 1) && s.info.Keys == {1} && 2 !in s.delegators
    && QueueAt(s, 1) == (if MAX_TOP == 1 then Queues.Queue([Bond(3, STAKE + 2)], []) else Queues.Queue([], []))
    && Get(s.free, 2) == STAKE + 1
  }

  lemma HoldsKept(s: Ledger, call: Call)
    requires Consistent(s) && ReservesExact(s) && !call.CallExecuteDelegationRequest?
    ensures Consistent(Apply(s, call).ledger) && ReservesExact(Apply(s, call).ledger)
  {
    hide Consistent, Apply, ReservesExact;
    StepTheorem(s, call);
    StepHoldsIff(s, call);
  }

  lemma FirstJoins()
    ensures var s := Apply(StaleStart(), CallJoinCandidates(1, MIN_CANDIDATE_STK, 0)).ledger;
            && Consistent(s) && ReservesExact(s) && Listed(s, 1)
                 && s.info == map[1 := Candidates.Fresh(MIN_CANDIDATE_STK).info]
            && s.delegators == map[] && QueueAt(s, 1) == Queues.Queue([], [])
            && Get(s.free, 2) == STAKE + 1 && Get(s.free, 3) == STAKE + 2
  {
    hide Consistent, ReservesExact;
    var s := StaleStart();
    StartOk(1, s.free);
    StartRight(1, s.free);
    HoldsKept(s, CallJoinCandidates(1, MIN_CANDIDATE_STK, 0));
    assert s.info[1 := Candidates.Fresh(MIN_CANDIDATE_STK).info] == map[1 := Candidates.Fresh(MIN_CANDIDATE_STK).info];
  }

  lemma LargerDelegates(s: Ledger)
    requires Consistent(s) && ReservesExact(s) && Listed(s, 1)
             && s.info == map[1 := Candidates.Fresh(MIN_CANDIDATE_STK).info]
    requires s.delegators == map[] && QueueAt(s, 1) == Queues.Queue([], [])
    requires Get(s.free, 2) == STAKE + 1 && Get(s.free, 3) == STAKE + 2 && MAX_TOP == 1
    ensures Open(Apply(s, CallDelegate(3, 1, STAKE + 2, 0, 0)).ledger)
  {
    hide Consistent, ReservesExact, Admit, Evict, KickedAmount, QueueAt, Delegators.New;
    HoldsKept(s, CallDelegate(3, 1, STAKE + 2, 0, 0));
    AdmittedAs(s, 3, 1, STAKE + 2, Delegators.New(3, 1, STAKE + 2), s.total + STAKE + 2);
    NoneKicked(s, 1, STAKE + 2);
    assert InsertDesc([], Bond(3, STAKE + 2)) == [] + [Bond(3, STAKE + 2)];
  }

  lemma OpenHolds()
    ensures Open(Run(StaleStart(), StakeCalls()[..|StakeCalls()| - 1]))
  {
    hide Apply, Consistent, ReservesExact, StaleStart;
    var s := StaleStart();
    var join := CallJoinCandidates(1, MIN_CANDIDATE_STK, 0);
    FirstJoins();
    assert [] + [join] == [join];
    Then(s, [], join);
    if MAX_TOP == 1 {
      LargerDelegates(Run(s, [join]));
      Then(s, [join], CallDelegate(3, 1, STAKE + 2, 0, 0));
      assert StakeCalls()[..|StakeCalls()| - 1] == [join] + [CallDelegate(3, 1, STAKE + 2, 0, 0)];
    } else {
      assert StakeCalls()[..|StakeCalls()| - 1] == [join];
    }
  }

  /** Account 2 has this one delegation, with no request on it yet. */
  ghost predicate Delegated2(s: Ledger) {
    && Consistent(s) && ReservesExact(s) && Listed(s, 1) && s.info.Keys == {1}
    && 2 in s.delegators && s.delegators[2] == Delegators.New(2, 1, STAKE)
    && QueueAt(s, 1) == Staked(STAKE) && Get(s.free, 2) == 1
  }

  lemma SecondDelegates(s: Ledger)
    requires Open(s)
    ensures Delegated2(Apply(s, CallDelegate(2, 1, STAKE, 1, 0)).ledger)
  {
    hide Consistent, ReservesExact, Admit, Evict, KickedAmount, QueueAt, Delegators.New;
    OpenCount(s);
    HoldsKept(s, CallDelegate(2, 1, STAKE, 1, 0));
    AdmittedAs(s, 2, 1, STAKE, Delegators.New(2, 1, STAKE), s.total + STAKE);
    NoneKicked(s, 1, STAKE);
    assert InsertDesc([], Bond(2, STAKE)) == [] + [Bond(2, STAKE)];
  }

  lemma OpenCount(s: Ledger)
    requires Open(s)
    ensures s.info[1].delegationCount <= 1
  {
    hide StakesAgree, PoolOk, HoldsCover, DelegatorsOk, ReservesExact;
    assert Candidates.Ok(CandidateAt(s, 1));
  }

  ghost predicate Revoking(s: Ledger, amount: Balance) {
    && Consistent(s) && ReservesExact(s) && Listed(s, 1) && s.info.Keys == {1}
    && 2 in s.delegators && s.delegators[2].delegations == [Bond(1, amount)] && s.delegators[2].total == amount
    && 1 in s.delegators[2].requests.requests
    && s.delegators[2].requests.requests[1].action.Revoke? && s.delegators[2].requests.requests[1].amount == STAKE
    && s.delegators[2].requests.requests[1].whenExecutable <= s.round + REVOKE_DELEGATION_DELAY
    && QueueAt(s, 1) == Staked(amount) && Get(s.free, 2) == 1 + STAKE - amount
  }

  lemma RevocationScheduled(s: Ledger)
    requires Delegated2(s)
    ensures Revoking(Apply(s, CallScheduleRevokeDelegation(2, 1)).ledger, STAKE)
  {
    hide Consistent, ReservesExact, Staked;
    Few(Bond(1, STAKE), 1);
    HoldsKept(s, CallScheduleRevokeDelegation(2, 1));
  }

  lemma BondsMore(s: Ledger)
    requires Revoking(s, STAKE)
    ensures Revoking(Apply(s, CallDelegatorBondMore(2, 1, 1)).ledger, STAKE + 1)
  {
    hide Consistent, ReservesExact, Reindex, ExcessAt, Queues.Raise, Staked;
    Few(Bond(1, STAKE), 1);
    HoldsKept(s, CallDelegatorBondMore(2, 1, 1));
    StakedRaised();
    RaisedDelegation();
  }

  lemma RaisedDelegation()
    ensures Shift([Bond(1, STAKE)], 1, 1) == [Bond(1, STAKE + 1)]
  {
    assert DropLast([Bond(1, STAKE)]) == [];
    assert [] + [Bond(1, STAKE + 1)] == [Bond(1, STAKE + 1)];
  }

  lemma StakedRaised()
    ensures Queues.Raise(Staked(STAKE), 2, 1) == Staked(STAKE + 1)
  {
    var one := [Bond(2, STAKE)];
    var more := [Bond(2, STAKE + 1)];
    Few(Bond(2, STAKE), 2);
    Few(Bond(3, STAKE + 2), 2);
    assert DropLast(one) == [] && DropLast(more) == [];
    assert Shift(one, 2, 1) == [] + more;
    assert InsertDesc([], Bond(2, STAKE + 1)) == [] + more;
    assert SortDesc(more) == more;
  }

  lemma RevokingHolds()
    ensures Revoking(Run(StaleStart(), StakeCalls() + [CallScheduleRevokeDelegation(2, 1)] +
                         [CallDelegatorBondMore(2, 1, 1)]), STAKE + 1)
  {
    hide Apply, Open, Delegated2, Revoking, StaleStart;
    var s := StaleStart();
    var before := StakeCalls()[..|StakeCalls()| - 1];
    var last := CallDelegate(2, 1, STAKE, 1, 0);
    var revoke := CallScheduleRevokeDelegation(2, 1);
    OpenHolds();
    SecondDelegates(Run(s, before));
    assert StakeCalls() == before + [last];
    Then(s, before, last);
    RevocationScheduled(Run(s, StakeCalls()));
    Then(s, StakeCalls(), revoke);
    BondsMore(Run(s, StakeCalls() + [revoke]));
    Then(s, StakeCalls() + [revoke], CallDelegatorBondMore(2, 1, 1));
  }

  /** The stored amount still leads to the list that holds the entry. */
  lemma StaleReaches(s: Ledger)
    requires Consistent(s) && Listed(s, 1) && QueueAt(s, 1) == Staked(STAKE + 1)
    ensures Candidates.Reaches(CandidateAt(s, 1), 2, STAKE)
  {
    hide StakesAgree, PoolOk, HoldsCover, DelegatorsOk;
    Few(Bond(2, STAKE + 1), 2);
    Few(Bond(3, STAKE + 2), 2);
    assert Candidates.Ok(CandidateAt(s, 1));
  }

  lemma SeversOnly(s: Ledger, amount: Balance)
    requires Listed(s, 1) && 2 in s.delegators && |s.delegators[2].delegations| == 1
    ensures var r := Sever(s, 2, 1, amount); 2 !in r.delegators && r.info.Keys == s.info.Keys
  {
    hide Reindex, ExcessAt, Queues.Dequeue;
  }

  lemma RevocationSucceeds(s: Ledger)
    requires Revoking(s, STAKE + 1) && s.delegators[2].requests.requests[1].whenExecutable <= s.round
    ensures Apply(s, StaleCall()).outcome.Success? && StaleRevocation(s, StaleCall()) && LeftHeld(s, 2, 1) == 1
    ensures var r := Apply(s, StaleCall()).ledger; 2 !in r.delegators && 2 !in r.info
  {
    hide Consistent, ReservesExact, Staked, Sever, Candidates.Reaches, QueueAt;
    Few(Bond(1, STAKE + 1), 1);
    StaleReaches(s);
    SeversOnly(s, STAKE);
  }

  /** In a run from an empty chain a revocation succeeds that no longer asks for the whole stake. The
      delegator is gone, and one unit stays held for it, with nothing left to release it. */
  lemma HoldsStayBehind()
    ensures var s := Run(StaleStart(), StaleCalls()); var r := Apply(s, StaleCall());
            && r.outcome.Success? && ReservesExact(s) && !ReservesExact(r.ledger)
            && 2 !in r.ledger.delegators && 2 !in r.ledger.info && Get(r.ledger.reserved, 2) == 1
  {
    hide Apply, StaleStart, Consistent, Staked, StaleRevocation, LeftHeld, ReservesExact, Run;
    var before := StakeCalls() + [CallScheduleRevokeDelegation(2, 1)] + [CallDelegatorBondMore(2, 1, 1)];
    var s := Run(StaleStart(), StaleCalls());
    RevokingHolds();
    ThenRounds(StaleStart(), before, REVOKE_DELEGATION_DELAY);
    LaterRevoking(Run(StaleStart(), before), REVOKE_DELEGATION_DELAY);
    RevocationSucceeds(s);
    StepHoldsIff(s, StaleCall());
    GapTheorem(s, StaleCall());
    ExactIsNoSurplus(s);
    assert Surplus(Apply(s, StaleCall()).ledger, 2) == Surplus(s, 2) + Lost(s, StaleCall(), 2);
  }

  lemma LaterRevoking(s: Ledger, k: nat)
    requires Revoking(s, STAKE + 1)
    ensures var r := s.(round := s.round + k); Revoking(r, STAKE + 1)
  {
    hide Staked;
    RoundKeeps(s, k);
  }

  // ----- a revocation that misses -----

  const LOW: Account := MAX_TOP + 1

  /** All places but one of candidate 0's top list are taken; account `LOW` takes the last with one unit
      less than the others, schedules a revocation, and bonds that unit more. */
  function MissCalls(): seq<Call> {
    Delegates(MAX_TOP - 1) + [CallDelegate(LOW, 0, STAKE, MAX_TOP, 0)] + [CallScheduleRevokeDelegation(LOW, 0)] +
    [CallDelegatorBondMore(LOW, 0, 1)] + Rounds(REVOKE_DELEGATION_DELAY)
  }

  function MissCall(): Call {
    CallExecuteDelegationRequest(LOW, 0)
  }

  function LowQueue(): Queues.Queue {
    Queues.Queue(Equal(2, MAX_TOP - 1, AMOUNT) + [Bond(LOW, STAKE)], [])
  }

  lemma LowEnqueued()
    ensures Queues.Enqueue(Filled(MAX_TOP - 1), Bond(LOW, STAKE)) == LowQueue()
    ensures Queues.Accepts(Filled(MAX_TOP - 1), Bond(LOW, STAKE)) && Queues.Evicted(Filled(MAX_TOP - 1)).None?
  {
    EqualIs(2, MAX_TOP - 1, AMOUNT);
  }

  /** With that unit every entry of the full top list is the same. */
  lemma LowRaised()
    ensures var q := Queues.Raise(LowQueue(), LOW, 1);
            && |q.top| == MAX_TOP && AllAtLeast(q.top, AMOUNT) && Count(q.top, LOW) == 1
  {
    var others := Equal(2, MAX_TOP - 1, AMOUNT);
    var top := LowQueue().top;
    EqualIs(2, MAX_TOP - 1, AMOUNT);
    SnocMeasures(others, Bond(LOW, STAKE));
    assert DropLast(top) == others;
    ShiftMeasures(top, LOW, 1);
    EntriesAbove(others, LOW);
    SortDescMeasures(Shift(top, LOW, 1));
    SortDescBounds(Shift(top, LOW, 1), AMOUNT);
  }

  lemma EntriesAbove(others: seq<Bond>, o: Account)
    requires AllAtLeast(others, AMOUNT) && Count(others, o) == 0
    ensures AllAtLeast(Shift(others + [Bond(o, STAKE)], o, 1), AMOUNT)
  {
    assert DropLast(others + [Bond(o, STAKE)]) == others;
    ShiftBounds(others, o, 1, AMOUNT);
  }

  ghost predicate LowDelegated(s: Ledger) {
    && Consistent(s) && Listed(s, 0) && QueueAt(s, 0) == LowQueue() && Get(s.free, LOW) >= 1
    && LOW in s.delegators && s.delegators[LOW] == Delegators.New(LOW, 0, STAKE)
  }

  lemma LowDelegates(s: Ledger)
    requires Filling(s, MAX_TOP - 1)
    ensures LowDelegated(Apply(s, CallDelegate(LOW, 0, STAKE, MAX_TOP, 0)).ledger)
  {
    hide Consistent, TotalBacking, Ahead, Filled, LowQueue, Admit, Delegators.New;
    var call := CallDelegate(LOW, 0, STAKE, MAX_TOP, 0);
    LowEnqueued();
    FilledCount(s, MAX_TOP - 1);
    StepKeeps(s, call);
    AdmittedAs(s, LOW, 0, STAKE, Delegators.New(LOW, 0, STAKE), s.total + STAKE);
    NoneKicked(s, 0, STAKE);
  }

  ghost predicate LowRevoking(s: Ledger) {
    && Consistent(s) && Listed(s, 0) && QueueAt(s, 0) == LowQueue() && Get(s.free, LOW) >= 1
    && LOW in s.delegators && s.delegators[LOW].delegations == [Bond(0, STAKE)]
    && s.delegators[LOW].requests.requests
       == map[0 := Delegators.DelegationRequest(0, STAKE, s.round + REVOKE_DELEGATION_DELAY, Delegators.Revoke)]
  }

  lemma LowSchedules(s: Ledger)
    requires LowDelegated(s)
    ensures LowRevoking(Apply(s, CallScheduleRevokeDelegation(LOW, 0)).ledger)
  {
    hide Consistent, LowQueue;
    Few(Bond(0, STAKE), 0);
    RunConsistent(s, [CallScheduleRevokeDelegation(LOW, 0)]);
    RunOne(s, CallScheduleRevokeDelegation(LOW, 0));
  }

  /** The ledger the revocation is carried out on. */
  ghost predicate Missing(s: Ledger) {
    && Consistent(s) && Listed(s, 0) && QueueAt(s, 0) == Queues.Raise(LowQueue(), LOW, 1)
    && LOW in s.delegators && s.delegators[LOW].delegations == [Bond(0, AMOUNT)]
    && 0 in s.delegators[LOW].requests.requests
    && var r := s.delegators[LOW].requests.requests[0];
         r.action.Revoke? && r.amount == STAKE && r.whenExecutable <= s.round
  }

  lemma LowBondsMore(s: Ledger)
    requires LowRevoking(s)
    ensures var r := Apply(s, CallDelegatorBondMore(LOW, 0, 1)).ledger;
            Missing(r.(round := r.round + REVOKE_DELEGATION_DELAY))
  {
    hide Consistent, Reindex, ExcessAt, Queues.Raise, LowQueue;
    var call := CallDelegatorBondMore(LOW, 0, 1);
    Few(Bond(0, STAKE), 0);
    RunConsistent(s, [call]);
    RunOne(s, call);
    RoundKeeps(Apply(s, call).ledger, REVOKE_DELEGATION_DELAY);
    LowRaisedDelegation();
  }

  lemma LowRaisedDelegation()
    ensures Shift([Bond(0, STAKE)], 0, 1) == [Bond(0, AMOUNT)]
  {
    assert DropLast([Bond(0, STAKE)]) == [];
    assert [] + [Bond(0, AMOUNT)] == [Bond(0, AMOUNT)];
  }

  lemma MissingHolds()
    ensures Missing(Run(DriftStart(), MissCalls()))
  {
    hide Filling, Apply, DriftStart, LowDelegated, LowRevoking, Missing;
    var s := DriftStart();
    var calls := Delegates(MAX_TOP - 1);
    var delegate := CallDelegate(LOW, 0, STAKE, MAX_TOP, 0);
    var revoke := CallScheduleRevokeDelegation(LOW, 0);
    var more := CallDelegatorBondMore(LOW, 0, 1);
    AllDelegate(MAX_TOP - 1);
    LowDelegates(Run(s, calls));
    Then(s, calls, delegate);
    LowSchedules(Run(s, calls + [delegate]));
    Then(s, calls + [delegate], revoke);
    LowBondsMore(Run(s, calls + [delegate] + [revoke]));
    Then(s, calls + [delegate] + [revoke], more);
    ThenRounds(s, calls + [delegate] + [revoke] + [more], REVOKE_DELEGATION_DELAY);
  }

  lemma MissingIsBelow(s: Ledger)
    requires Missing(s)
    ensures Guarantees.RevocationDue(s, LOW, 0) && Guarantees.StoredBelowTop(s, LOW, 0)
    ensures Stake(s.delegators, LOW, 0) == AMOUNT && Listed(s, 0) && Count(s.top[0].delegations, LOW) == 1
  {
    hide StakesAgree, PoolOk, HoldsCover, DelegatorsOk, Queues.Raise, LowQueue;
    LowRaised();
    Few(Bond(0, AMOUNT), 0);
    assert Candidates.Ok(CandidateAt(s, 0));
  }

  /** In a run from an empty chain a due revocation is refused with `DelegationDNE`, although its
      delegation is in the candidate's top list. */
  lemma RevocationMisses()
    ensures var s := Run(DriftStart(), MissCalls());
            && Apply(s, MissCall()).outcome == Failure(DelegationDNE)
            && Stake(s.delegators, LOW, 0) == AMOUNT && Listed(s, 0) && Count(s.top[0].delegations, LOW) == 1
  {
    hide Missing, DriftStart, MissCalls, Run, Stake, ExecuteDelegationRequest, Guarantees.RevocationDue,
      Guarantees.StoredBelowTop;
    var s := Run(DriftStart(), MissCalls());
    MissingHolds();
    MissingIsBelow(s);
    MissingConsistent(s);
    Guarantees.RequestsFindTheirDelegation(s, LOW, 0);
  }

  lemma MissingConsistent(s: Ledger)
    requires Missing(s)
    ensures Consistent(s)
  {
  }

  // ----- a hotfix that does not look -----

  function IdleCalls(): seq<Call> {
    [CallJoinCandidates(1, MIN_CANDIDATE_STK, 0)] + [CallGoOffline(1)]
  }

  /** On a consistent ledger, with a candidate listed that has gone offline, the hotfix of pool values
      puts it into the pool. */
  lemma HotfixBreaksPool()
    ensures var s := Run(StaleStart(), IdleCalls());
            && Consistent(s) && 1 in s.info && !s.info[1].status.Active?
            && PoolOk(s.pool, s.info) && !PoolOk(Repairs.Refresh(s.pool, s.info, [1]), s.info)
  {
    hide Apply, StaleStart, Consistent, ReservesExact, Repairs.Refresh;
    var join := CallJoinCandidates(1, MIN_CANDIDATE_STK, 0);
    var s := Run(StaleStart(), IdleCalls());
    FirstJoins();
    assert [] + [join] == [join];
    Then(StaleStart(), [], join);
    Then(StaleStart(), [join], CallGoOffline(1));
    StepTheorem(Run(StaleStart(), [join]), CallGoOffline(1));
    GoesOffline(Run(StaleStart(), [join]));
    ConsistentPool(s);
    Repairs.HotfixPoolIff(s.pool, s.info, [1]);
  }

  lemma GoesOffline(s: Ledger)
    requires 1 in s.info && s.info[1].status.Active?
    ensures var r := Apply(s, CallGoOffline(1)).ledger; 1 in r.info && !r.info[1].status.Active?
  {
    hide Without;
  }

  lemma ConsistentPool(s: Ledger)
    requires Consistent(s)
    ensures PoolOk(s.pool, s.info)
  {
  }

  // ----- a migration that forgets requests -----

  // The old candidate whose bottom list is one too long, and another one
  const FULL: Account := MAX_TOP + MAX_BOTTOM + 1
  const OTHER: Account := FULL + 1

  function OldFull(): Split.OldCandidate {
    var top := Equal(0, MAX_TOP, STAKE);
    Split.OldCandidate(MIN_CANDIDATE_STK, top, Equal(MAX_TOP, MAX_BOTTOM + 1, STAKE), MIN_CANDIDATE_STK + Sum(top),
                       None, Candidates.Idle)
  }

  function OldOther(): Split.OldCandidate {
    Split.OldCandidate(MIN_CANDIDATE_STK, [Bond(MAX_TOP, STAKE)], [], MIN_CANDIDATE_STK + STAKE, None, Candidates.Idle)
  }

  function Stored(): Split.OldCandidates {
    map[FULL := OldFull(), OTHER := OldOther()]
  }

  /** The first in the bottom list delegates to both candidates and is about to leave the first. */
  function BothWays(): Delegator {
    Delegators.Delegator(MAX_TOP, [Bond(FULL, STAKE), Bond(OTHER, STAKE)], STAKE + STAKE,
                         Delegators.Pending(1,
                                            map[FULL := Delegators.DelegationRequest(FULL, STAKE, 0,
                                                                                     Delegators.Revoke)], STAKE),
                         Delegators.Staying)
  }

  /** Accounts below `n` delegate to the first candidate. */
  function OldDelegators(n: nat): map<Account, Delegator> {
    if n == 0 then map[]
    else OldDelegators(n - 1)[n - 1 := if n - 1 == MAX_TOP then BothWays() else Delegators.New(n - 1, FULL, STAKE)]
  }

  lemma {:induction false} OldDelegatorsAre(n: nat)
    ensures forall d: Account :: d in OldDelegators(n) <==> d < n
    ensures forall d: Account :: d < n ==>
              OldDelegators(n)[d] == if d == MAX_TOP then BothWays() else Delegators.New(d, FULL, STAKE)
  {
    hide BothWays, Delegators.New;
    if n > 0 {
      OldDelegatorsAre(n - 1);
    }
  }

  function Owed(a: Account): Balance {
    if a == FULL || a == OTHER then MIN_CANDIDATE_STK
    else if a == MAX_TOP then STAKE + STAKE
    else if a < FULL then STAKE
    else 0
  }

  function Held(n: nat): map<Account, Balance> {
    if n == 0 then map[] else Held(n - 1)[n - 1 := Owed(n - 1)]
  }

  lemma {:induction false} HeldIs(n: nat)
    ensures forall a: Account :: Get(Held(n), a) == if a < n then Owed(a) else 0
  {
    hide Owed;
    if n > 0 {
      HeldIs(n - 1);
      forall a: Account
        ensures Get(Held(n), a) == if a < n then Owed(a) else 0
      {
        assert Get(Held(n - 1), a) == if a < n - 1 then Owed(a) else 0;
      }
    }
  }

  /** The ledger before the migration, whose candidates are still stored the old way. */
  ghost function OldLedger(): Ledger {
    var s := Ledger(0, map[], map[], map[], OldDelegators(FULL), [], 0, Held(OTHER + 1), map[]);
    s.(total := TotalBacking(Split.Whole(s, Stored())))
  }

  lemma OldIsOk()
    ensures Split.OldOk(OldFull()) && Split.OldOk(OldOther())
  {
    hide Equal;
    EqualIs(0, MAX_TOP, STAKE);
    EqualIs(MAX_TOP, MAX_BOTTOM + 1, STAKE);
    SingleIs(Bond(MAX_TOP, STAKE));
  }

  lemma SingleIs(b: Bond)
    ensures Sum([b]) == b.amount
    ensures forall o: Account :: Count([b], o) == if o == b.owner then 1 else 0
    ensures forall o: Account :: StakeOf([b], o) == if o == b.owner then b.amount else 0
  {
    Few(b, b.owner);
    forall o: Account
      ensures Count([b], o) == if o == b.owner then 1 else 0
      ensures StakeOf([b], o) == if o == b.owner then b.amount else 0
    {
      Few(b, o);
    }
  }

  lemma BothWaysIs()
    ensures forall c: Account :: Delegators.Stake(BothWays(), c) == if c == FULL || c == OTHER then STAKE else 0
    ensures forall c: Account :: Count(BothWays().delegations, c) == if c == FULL || c == OTHER then 1 else 0
    ensures Sum(BothWays().delegations) == STAKE + STAKE
  {
    var first := [Bond(FULL, STAKE)];
    SingleIs(Bond(FULL, STAKE));
    assert BothWays().delegations == first + [Bond(OTHER, STAKE)];
    SnocMeasures(first, Bond(OTHER, STAKE));
  }

  lemma BothWaysOk()
    requires MAX_DELEGATIONS_PER_DELEGATOR >= 2
    ensures Delegators.Ok(BothWays(), MAX_TOP) && Split.RecordOk(BothWays(), MAX_TOP)
  {
    var d := BothWays();
    BothWaysIs();
    assert Delegators.Amounts(d.requests.requests) == map[][FULL := STAKE];
    assert Delegators.Revocations(d.requests.requests) == map[][FULL := 1];
    Sums.Update(map[], FULL, STAKE);
    Sums.Update(map[], FULL, 1);
    Split.RecordIsOk(d, MAX_TOP);
  }

  lemma OldDelegatorsOk()
    requires MAX_DELEGATIONS_PER_DELEGATOR >= 2
    ensures DelegatorsOk(OldDelegators(FULL)) && Split.RecordsOk(OldDelegators(FULL))
  {
    hide BothWays, Delegators.New, Delegators.Ok, Split.RecordOk;
    OldDelegatorsAre(FULL);
    forall d | d in OldDelegators(FULL)
      ensures Delegators.Ok(OldDelegators(FULL)[d], d) && Split.RecordOk(OldDelegators(FULL)[d], d)
    {
      if d == MAX_TOP {
        BothWaysOk();
      } else {
        Delegators.NewOk(d, FULL, STAKE);
        Split.RecordIsOk(OldDelegators(FULL)[d], d);
      }
    }
  }

  lemma OldStakes(d: Account, c: Account)
    ensures Stake(OldDelegators(FULL), d, c)
            == if d < FULL && (c == FULL || (c == OTHER && d == MAX_TOP)) then STAKE else 0
  {
    hide BothWays, Delegators.New;
    OldDelegatorsAre(FULL);
    BothWaysIs();
    if d < FULL && d != MAX_TOP {
      Delegators.NewOk(d, FULL, STAKE);
    }
  }

  /** The lists of one old candidate, put in whole. */
  lemma TrimmedLists(o: Split.OldCandidate)
    ensures var c := Split.Trimmed(o, 0);
            && c.top.delegations == o.top
            && (forall d :: StakeOf(c.bottom.delegations, d) == StakeOf(o.bottom, d))
            && (forall d :: Count(c.bottom.delegations, d) == Count(o.bottom, d))
            && (AllAtLeast(o.bottom, MIN_DELEGATION) ==> AllAtLeast(c.bottom.delegations, MIN_DELEGATION))
            && c.info.bond == o.bond && c.info.status == o.status
  {
    assert o.bottom[0..] == o.bottom;
    ReversedMeasures(o.bottom);
  }

  lemma WholeLists(w: Ledger)
    requires w == Split.Whole(OldLedger(), Stored())
    ensures w.info.Keys == w.top.Keys == w.bottom.Keys == {FULL, OTHER}
    ensures CandidateAt(w, FULL) == Split.Trimmed(OldFull(), 0) && CandidateAt(w, OTHER) == Split.Trimmed(OldOther(), 0)
  {
    hide Split.Trimmed, OldDelegators, Held, TotalBacking;
  }

  lemma WholeLinked(w: Ledger)
    requires w == Split.Whole(OldLedger(), Stored())
    ensures Linked(w)
  {
    hide OldDelegators, Held, TotalBacking, OldFull, OldOther, Split.Trimmed, Stake, Equal;
    WholeLists(w);
    TrimmedLists(OldFull());
    TrimmedLists(OldOther());
    OldLists();
    forall d: Account, c: Account
      ensures Stake(w.delegators, d, c) == Backed(w.top, w.bottom, c, d)
    {
      OldStakes(d, c);
    }
  }

  lemma OldLists()
    ensures forall d: Account :: StakeOf(OldFull().top, d) + StakeOf(OldFull().bottom, d) == if d < FULL then STAKE
            else 0
    ensures forall d: Account ::
              StakeOf(OldOther().top, d) + StakeOf(OldOther().bottom, d) == if d == MAX_TOP then STAKE else 0
    ensures OldFull().bond == OldOther().bond == MIN_CANDIDATE_STK
    ensures OldFull().status == OldOther().status == Candidates.Idle
  {
    EqualIs(0, MAX_TOP, STAKE);
    EqualIs(MAX_TOP, MAX_BOTTOM + 1, STAKE);
    SingleIs(Bond(MAX_TOP, STAKE));
  }

  lemma WholeBooks(w: Ledger)
    requires w == Split.Whole(OldLedger(), Stored())
    ensures Split.LooseBooks(w)
  {
    hide OldDelegators, Held, TotalBacking, OldFull, OldOther, Split.Trimmed;
    WholeLists(w);
    TrimmedLists(OldFull());
    TrimmedLists(OldOther());
    OldIsOk();
  }

  lemma WholeRoles(w: Ledger)
    requires w == Split.Whole(OldLedger(), Stored())
    ensures OneRole(w)
  {
    hide OldDelegators, Held, TotalBacking, OldFull, OldOther, Split.Trimmed, BothWays, Delegators.New, Split.Infos,
      Stored;
    WholeLists(w);
    OldDelegatorsAre(FULL);
  }

  /** Nobody is active, so the pool is empty. */
  lemma WholePool(w: Ledger)
    requires w == Split.Whole(OldLedger(), Stored())
    ensures PoolOk(w.pool, w.info)
  {
    hide OldDelegators, Held, TotalBacking, OldFull, OldOther, Split.Trimmed;
    WholeLists(w);
    TrimmedLists(OldFull());
    TrimmedLists(OldOther());
    OldLists();
  }

  lemma WholeHolds(w: Ledger)
    requires w == Split.Whole(OldLedger(), Stored())
    ensures ReservesExact(w)
  {
    hide OldDelegators, Held, TotalBacking, OldFull, OldOther, Split.Trimmed, BothWays, Delegators.New, Delegated;
    WholeLists(w);
    TrimmedLists(OldFull());
    TrimmedLists(OldOther());
    OldLists();
    HeldIs(OTHER + 1);
    forall a: Account
      ensures Get(w.reserved, a) == SelfBond(w.info, a) + Delegated(w.delegators, a)
    {
      OldTotal(a);
    }
  }

  lemma OldTotal(a: Account)
    ensures Delegated(OldDelegators(FULL), a) == if a == MAX_TOP then STAKE + STAKE else if a < FULL then STAKE else 0
  {
    OldDelegatorsAre(FULL);
  }

  lemma OldReady()
    requires MAX_DELEGATIONS_PER_DELEGATOR >= 2
    ensures Split.Ready(OldLedger(), Stored()) && DelegatorsOk(OldLedger().delegators)
    ensures Split.Enumerates([FULL, OTHER], Stored())
  {
    hide OldDelegators, Held, TotalBacking, OldFull, OldOther, Split.OldOk, Split.Trimmed, Split.LooseBooks,
      Split.RecordsOk, Linked, PoolOk, ReservesExact, DelegatorsOk;
    var w := Split.Whole(OldLedger(), Stored());
    OldIsOk();
    OldDelegatorsOk();
    WholeBooks(w);
    WholeLinked(w);
    WholeRoles(w);
    WholePool(w);
    WholeHolds(w);
    WholeTotal();
  }

  lemma WholeTotal()
    ensures Split.Whole(OldLedger(), Stored()).total == TotalBacking(Split.Whole(OldLedger(), Stored()))
  {
    hide OldDelegators, Held, Stored, Split.Infos, Split.Tops, Split.Bottoms, Backings, Sums.SumMap;
  }

  /** A migration, from records that all agree, that leaves a request without its delegation: where a
      delegator may have two delegations, one is kicked with a request on it, and the other stays. */
  lemma SplitForgetsRequest()
    requires MAX_DELEGATIONS_PER_DELEGATOR >= 2
    ensures var r := Split.SplitEach(OldLedger(), Stored(), [FULL, OTHER]);
            && Split.Ready(OldLedger(), Stored()) && DelegatorsOk(OldLedger().delegators)
            && Split.KickedAndStays(Stored(), MAX_TOP, FULL)
            && Split.Orphan(r.delegators, MAX_TOP, FULL) && !Consistent(r)
  {
    hide OldLedger, Split.Ready, DelegatorsOk, Split.SplitEach, Consistent, Split.KickedAndStays, Split.Orphan,
      Split.Tied, Split.Requested, BooksOk, NoDrift, OldFull, OldOther;
    var s := OldLedger();
    OldReady();
    Split.SplitTheorem(s, Stored(), [FULL, OTHER]);
    StaysDelegator();
    OldRequested();
    Split.OrphanIff(s, Stored(), [FULL, OTHER], MAX_TOP, FULL);
    Split.ConsistentIff(s, Stored(), [FULL, OTHER]);
  }

  lemma OldRequested()
    ensures Split.Requested(OldLedger().delegators, MAX_TOP, FULL)
  {
    hide TotalBacking, Held, OldDelegators, Delegators.New;
    OldDelegatorsAre(FULL);
  }

  /** The other candidate keeps its only delegation. */
  lemma StaysDelegator()
    ensures Split.KickedAndStays(Stored(), MAX_TOP, FULL)
  {
    hide OldFull, Split.Kicked, Split.KeptBottom;
    SingleIs(Bond(MAX_TOP, STAKE));
    FirstKicked();
    assert OTHER in Stored() && Count(Stored()[OTHER].top, MAX_TOP) > 0;
  }

  lemma FirstKicked()
    ensures Count(Split.Kicked(OldFull()), MAX_TOP) > 0
  {
    EqualIs(MAX_TOP, MAX_BOTTOM + 1, STAKE);
    EntryCounts(Split.Kicked(OldFull()), 0);
  }
}

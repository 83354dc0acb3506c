/** The elementary moves of stake every extrinsic is made of: a delegation is severed, admitted,
    raised or lowered. Each keeps both records of the delegation, the pool, the holds and the totals
    in step. */
module Transitions {
  import opened Bonds
  import opened Params
  import opened OrderedSets
  import opened DelegationLists
  import opened Ledgers
  import Queues
  import Candidates
  import Delegators

  /** The candidate's side of a move: new lists, recomputed caches, pool entry brought along. */
  function PutQueue(s: Ledger, c: Account, q: Queues.Queue, excess: nat): Ledger
    requires Listed(s, c)
  {
    var candidate := Candidates.WithQueue(CandidateAt(s, c), q, excess);
    PutCandidate(s, c, candidate).(pool := Reindex(s.pool, c, candidate.info))
  }

  function QueueAt(s: Ledger, c: Account): Queues.Queue
    requires Listed(s, c)
  {
    Candidates.QueueOf(CandidateAt(s, c))
  }

  function ExcessAt(s: Ledger, c: Account): nat
    requires Listed(s, c)
  {
    Candidates.Excess(CandidateAt(s, c))
  }

  /** The candidate forgets `d` and releases `amount`; `d`'s own record is not touched. */
  function Forget(s: Ledger, d: Account, c: Account, amount: Balance): Ledger
    requires Listed(s, c)
  {
    var r := PutQueue(s, c, Queues.Dequeue(QueueAt(s, c), d), ExcessAt(s, c));
    Unreserve(r.(total := SatSub(s.total, amount)), d, amount)
  }

  /** The delegation from `d` to `c` ends on both sides and `amount` is released. */
  function Sever(s: Ledger, d: Account, c: Account, amount: Balance): Ledger
    requires Listed(s, c)
  {
    Forget(s, d, c, amount).(delegators := DropFrom(s.delegators, d, c))
  }

  /** `d`, with record `after`, now delegates `amount` to `c`, whose lists have room. */
  function Admit(s: Ledger, d: Account, c: Account, amount: Balance, after: Delegator): Ledger
    requires Listed(s, c)
  {
    var r := PutQueue(s, c, Queues.Enqueue(QueueAt(s, c), Bond(d, amount)), ExcessAt(s, c));
    Reserve(r.(delegators := s.delegators[d := after], total := s.total + amount), d, amount)
  }

  /** The delegation from `d` to `c` grows by `more`. */
  function RaiseStake(s: Ledger, d: Account, c: Account, more: Balance): Ledger
    requires Listed(s, c) && d in s.delegators
  {
    var r := PutQueue(s, c, Queues.Raise(QueueAt(s, c), d, more), ExcessAt(s, c));
    Reserve(r.(delegators := s.delegators[d := Delegators.Raise(s.delegators[d], c, more)], total := s.total + more), d,
            more)
  }

  /** What a decrease adds to the drift of the bottom total. */
  function Drift(s: Ledger, d: Account, c: Account, less: Balance): nat
    requires Listed(s, c)
  {
    if Count(s.top[c].delegations, d) == 0 then less else 0
  }

  /** The delegation from `d` to `c` shrinks by `less` and the request on it is gone. */
  function LowerStake(s: Ledger, d: Account, c: Account, less: Balance): Ledger
    requires Listed(s, c) && d in s.delegators
  {
    var r := PutQueue(s, c, Queues.Lower(QueueAt(s, c), d, less), ExcessAt(s, c) + Drift(s, d, c, less));
    Unreserve(r.(delegators := s.delegators[d := Delegators.Lower(s.delegators[d], c, less)],
                 total := SatSub(s.total, less)),
              d, less)
  }

  // ----- putting the sides together -----

  /** `d`'s own record of its stake on `c` moves by `delta`; no other stake moves. */
  ghost predicate OwnSideMoves(s: Ledger, r: Ledger, d: Account, c: Account, delta: int) {
    && DelegatorsOk(r.delegators)
    && r.delegators.Keys <= s.delegators.Keys + {d}
    && (forall x, y :: Stake(r.delegators, x, y) == Stake(s.delegators, x, y) + if x == d && y == c then delta else 0)
    && (forall x :: Delegated(r.delegators, x) == Delegated(s.delegators, x) + if x == d then delta else 0)
  }

  /** `c`'s lists move `d`'s stake by `delta`, no other. */
  ghost predicate ListSideMoves(q: Queues.Queue, r: Queues.Queue, d: Account, delta: int) {
    && Queues.Ok(r)
    && (forall o :: Queues.Backed(r, o) == Queues.Backed(q, o) + if o == d then delta else 0)
    && Queues.Backing(r) == Queues.Backing(q) + delta
  }

  ghost predicate HeldMoves(s: Ledger, r: Ledger, d: Account, delta: int) {
    forall a :: Get(r.reserved, a) == Get(s.reserved, a) + if a == d then delta else 0
  }

  /** The candidate side of `r` is that of `s` after `c`'s lists became `q`. */
  ghost predicate CandidateSide(s: Ledger, r: Ledger, c: Account, q: Queues.Queue, excess: nat)
    requires Listed(s, c)
  {
    var p := PutQueue(s, c, q, excess);
    r.info == p.info && r.top == p.top && r.bottom == p.bottom && r.pool == p.pool
  }

  lemma PutQueueBooks(s: Ledger, r: Ledger, c: Account, q: Queues.Queue, excess: nat)
    requires BooksOk(s) && c in s.info && Queues.Ok(q) && CandidateSide(s, r, c, q, excess)
    ensures BooksOk(r)
  {
    Candidates.WithQueueOk(CandidateAt(s, c), q, excess);
    PutCandidateBooks(s, c, Candidates.WithQueue(CandidateAt(s, c), q, excess));
  }

  lemma PutQueuePool(s: Ledger, r: Ledger, c: Account, q: Queues.Queue, excess: nat)
    requires BooksOk(s) && PoolOk(s.pool, s.info) && c in s.info && CandidateSide(s, r, c, q, excess)
    ensures PoolOk(r.pool, r.info)
  {
    ReindexKeepsPool(s.pool, s.info, c, Candidates.WithQueue(CandidateAt(s, c), q, excess).info);
  }

  lemma PutQueueBonds(s: Ledger, c: Account, q: Queues.Queue, excess: nat)
    requires Listed(s, c)
    ensures forall a :: SelfBond(PutQueue(s, c, q, excess).info, a) == SelfBond(s.info, a)
    ensures PutQueue(s, c, q, excess).info.Keys == s.info.Keys
  {
  }

  /** Both sides of one delegation moving together keep every record consistent. */
  lemma Together(s: Ledger, r: Ledger, d: Account, c: Account, q: Queues.Queue, excess: nat, delta: int)
    requires Consistent(s) && c in s.info && d !in s.info
    requires ListSideMoves(QueueAt(s, c), q, d, delta) && OwnSideMoves(s, r, d, c, delta)
    requires CandidateSide(s, r, c, q, excess)
    requires forall a :: Get(r.reserved, a) - Get(s.reserved, a) >= if a == d then delta else 0
    ensures Consistent(r)
  {
    PutQueueBooks(s, r, c, q, excess);
    PutQueuePool(s, r, c, q, excess);
    LinkedTogether(s, r, d, c, q, excess, delta);
    OneRoleTogether(s, r, d, c, q, excess, delta);
    CoveredTogether(s, r, d, c, q, excess, delta);
  }

  lemma OneRoleTogether(s: Ledger, r: Ledger, d: Account, c: Account, q: Queues.Queue, excess: nat, delta: int)
    requires OneRole(s) && Listed(s, c) && d !in s.info
    requires OwnSideMoves(s, r, d, c, delta) && CandidateSide(s, r, c, q, excess)
    ensures OneRole(r)
  {
    PutQueueBonds(s, c, q, excess);
  }

  lemma CoveredTogether(s: Ledger, r: Ledger, d: Account, c: Account, q: Queues.Queue, excess: nat, delta: int)
    requires Covered(s) && Listed(s, c) && OwnSideMoves(s, r, d, c, delta)
    requires CandidateSide(s, r, c, q, excess)
    requires forall a :: Get(r.reserved, a) - Get(s.reserved, a) >= if a == d then delta else 0
    ensures Covered(r)
  {
    PutQueueBonds(s, c, q, excess);
    forall a
      ensures Get(r.reserved, a) >= SelfBond(r.info, a) + Delegated(r.delegators, a)
    {
      assert Get(s.reserved, a) >= SelfBond(s.info, a) + Delegated(s.delegators, a);
    }
  }

  lemma LinkedTogether(s: Ledger, r: Ledger, d: Account, c: Account, q: Queues.Queue, excess: nat, delta: int)
    requires Linked(s) && Listed(s, c)
    requires ListSideMoves(QueueAt(s, c), q, d, delta) && OwnSideMoves(s, r, d, c, delta)
    requires CandidateSide(s, r, c, q, excess)
    ensures Linked(r)
  {
    forall x, y
      ensures Stake(r.delegators, x, y) == Backed(r.top, r.bottom, y, x)
    {
      assert Stake(s.delegators, x, y) == Backed(s.top, s.bottom, y, x);
      if y == c {
        BackedAt(s, c, x);
        assert Queues.Backed(q, x) == Queues.Backed(QueueAt(s, c), x) + if x == d then delta else 0;
      }
    }
  }

  /** ... and keep holds and totals exact, when the amount held and `Total` move along. */
  lemma ConservedTogether(s: Ledger, r: Ledger, d: Account, c: Account, q: Queues.Queue, excess: nat, delta: int)
    requires Listed(s, c) && Conserved(s) && RevokesCurrent(r.delegators)
    requires ListSideMoves(QueueAt(s, c), q, d, delta) && OwnSideMoves(s, r, d, c, delta)
    requires CandidateSide(s, r, c, q, excess)
    requires HeldMoves(s, r, d, delta)
    requires r.total == if s.total + delta < 0 then 0 else s.total + delta
    ensures Conserved(r)
    ensures s.total == TotalBacking(s) ==> r.total == TotalBacking(r)
  {
    BackingTogether(s, r, d, c, q, excess, delta);
    forall a
      ensures Get(r.reserved, a) == SelfBond(r.info, a) + Delegated(r.delegators, a)
    {
      assert Get(s.reserved, a) == SelfBond(s.info, a) + Delegated(s.delegators, a);
    }
  }

  lemma BackingTogether(s: Ledger, r: Ledger, d: Account, c: Account, q: Queues.Queue, excess: nat, delta: int)
    requires Listed(s, c) && Queues.Backing(q) == Queues.Backing(QueueAt(s, c)) + delta
    requires CandidateSide(s, r, c, q, excess)
    ensures TotalBacking(r) == TotalBacking(s) + delta
  {
    var candidate := Candidates.WithQueue(CandidateAt(s, c), q, excess);
    BackingAfterPut(s, c, candidate);
  }

  /** How a move of stake changes the gaps: what is held may move by another amount than the stake. */
  lemma MoveGaps(s: Ledger, r: Ledger, d: Account, c: Account, q: Queues.Queue, excess: nat, delta: int, held: int)
    requires Listed(s, c) && CandidateSide(s, r, c, q, excess)
    requires OwnSideMoves(s, r, d, c, delta) && HeldMoves(s, r, d, held)
    requires Queues.Backing(q) == Queues.Backing(QueueAt(s, c)) + delta
    ensures forall a :: Surplus(r, a) == Surplus(s, a) + if a == d then held - delta else 0
    ensures TotalBacking(r) == TotalBacking(s) + delta
    ensures r.bottom.Keys == s.bottom.Keys
    ensures forall x :: Ahead(r.bottom, x) == if x == c then excess else Ahead(s.bottom, x)
  {
    hide TotalBacking, ExcessAt;
    BackingTogether(s, r, d, c, q, excess, delta);
    PutQueueBonds(s, c, q, excess);
    PutQueueAhead(s, c, q, excess);
  }

  lemma PutQueueAhead(s: Ledger, c: Account, q: Queues.Queue, excess: nat)
    requires Listed(s, c)
    ensures PutQueue(s, c, q, excess).bottom == s.bottom[c := DelegationData(q.bottom, Sum(q.bottom) + excess)]
    ensures PutQueue(s, c, q, excess).bottom.Keys == s.bottom.Keys
  {
  }

  lemma ExcessIsAhead(s: Ledger, c: Account)
    requires Listed(s, c)
    ensures ExcessAt(s, c) == Ahead(s.bottom, c)
  {
  }

  // ----- severing -----

  /** A delegation known to one side is known to the other. */
  lemma BothSides(s: Ledger, d: Account, c: Account)
    requires Consistent(s) && Stake(s.delegators, d, c) > 0
    ensures d in s.delegators && Count(s.delegators[d].delegations, c) == 1 && d !in s.info
    ensures c in s.info && Queues.Ok(QueueAt(s, c)) && Queues.Entered(QueueAt(s, c), d) == 1
    ensures Queues.Backed(QueueAt(s, c), d) == Stake(s.delegators, d, c) >= MIN_DELEGATION
  {
    PositiveStake(s.delegators, d, c);
    assert Stake(s.delegators, d, c) == Backed(s.top, s.bottom, c, d);
    PositiveBacked(s, c, d);
    assert Candidates.Ok(CandidateAt(s, c));
    BackedAt(s, c, d);
  }

  lemma OwnSever(s: Ledger, r: Ledger, d: Account, c: Account)
    requires Consistent(s) && Stake(s.delegators, d, c) > 0 && r.delegators == DropFrom(s.delegators, d, c)
    ensures OwnSideMoves(s, r, d, c, 0 - Stake(s.delegators, d, c))
  {
    BothSides(s, d, c);
    DropFromStakes(s.delegators, d, c);
  }

  lemma ListSever(q: Queues.Queue, d: Account)
    requires Queues.Ok(q) && Queues.Entered(q, d) == 1
    ensures ListSideMoves(q, Queues.Dequeue(q, d), d, 0 - Queues.Backed(q, d))
  {
    Queues.DequeueKeepsOk(q, d);
    Queues.DequeueStakes(q, d);
  }

  lemma DelegatedAtLeast(s: Ledger, d: Account, c: Account)
    requires Consistent(s)
    ensures Get(s.reserved, d) >= Delegated(s.delegators, d) >= Stake(s.delegators, d, c)
  {
    assert Get(s.reserved, d) >= SelfBond(s.info, d) + Delegated(s.delegators, d);
    if d in s.delegators {
      assert Delegators.Ok(s.delegators[d], d);
      StakeBounds(s.delegators[d].delegations, c);
    }
  }

  lemma ForgetSides(s: Ledger, d: Account, c: Account, amount: Balance)
    requires Listed(s, c) && Get(s.reserved, d) >= amount
    ensures CandidateSide(s, Forget(s, d, c, amount), c, Queues.Dequeue(QueueAt(s, c), d), ExcessAt(s, c))
    ensures HeldMoves(s, Forget(s, d, c, amount), d, 0 - amount)
  {
  }

  /** Severing keeps everything consistent, even when less than the whole stake is released. */
  lemma SeverConsistent(s: Ledger, d: Account, c: Account, amount: Balance)
    requires Consistent(s) && 0 < Stake(s.delegators, d, c) && amount <= Stake(s.delegators, d, c)
    ensures Listed(s, c) && Consistent(Sever(s, d, c, amount))
  {
    BothSides(s, d, c);
    DelegatedAtLeast(s, d, c);
    var q := QueueAt(s, c);
    var r := Sever(s, d, c, amount);
    ForgetSides(s, d, c, amount);
    ListSever(q, d);
    OwnSever(s, r, d, c);
    Together(s, r, d, c, Queues.Dequeue(q, d), ExcessAt(s, c), 0 - Stake(s.delegators, d, c));
  }

  lemma DropKeepsRevokes(s: Ledger, d: Account, c: Account)
    requires Consistent(s) && RevokesCurrent(s.delegators) && Stake(s.delegators, d, c) > 0
    ensures RevokesCurrent(DropFrom(s.delegators, d, c))
  {
    BothSides(s, d, c);
    WithoutMeasures(s.delegators[d].delegations, c);
  }

  /** Releasing the whole stake conserves holds and totals. */
  lemma SeverConserved(s: Ledger, d: Account, c: Account, amount: Balance)
    requires Consistent(s) && Conserved(s) && 0 < amount == Stake(s.delegators, d, c)
    ensures Listed(s, c) && Conserved(Sever(s, d, c, amount))
    ensures s.total == TotalBacking(s) ==> Sever(s, d, c, amount).total == TotalBacking(Sever(s, d, c, amount))
  {
    BothSides(s, d, c);
    DelegatedAtLeast(s, d, c);
    DropKeepsRevokes(s, d, c);
    SeverSides(s, d, c, amount);
    ConservedTogether(s, Sever(s, d, c, amount), d, c, Queues.Dequeue(QueueAt(s, c), d), ExcessAt(s, c), 0 - amount);
  }

  lemma SeverSides(s: Ledger, d: Account, c: Account, amount: Balance)
    requires Consistent(s) && Listed(s, c) && 0 < amount == Stake(s.delegators, d, c)
    ensures var r := Sever(s, d, c, amount);
            var q := Queues.Dequeue(QueueAt(s, c), d);
            && CandidateSide(s, r, c, q, ExcessAt(s, c)) && HeldMoves(s, r, d, 0 - amount)
            && ListSideMoves(QueueAt(s, c), q, d, 0 - amount) && OwnSideMoves(s, r, d, c, 0 - amount)
  {
    BothSides(s, d, c);
    DelegatedAtLeast(s, d, c);
    ForgetSides(s, d, c, amount);
    ListSever(QueueAt(s, c), d);
    OwnSever(s, Sever(s, d, c, amount), d, c);
  }

  // ----- admitting -----

  /** Severing releases `amount` of the stake; the rest stays held, and stays in `Total`. */
  lemma SeverGaps(s: Ledger, d: Account, c: Account, amount: Balance)
    requires Consistent(s) && 0 < Stake(s.delegators, d, c) && amount <= Stake(s.delegators, d, c)
    ensures Listed(s, c)
    ensures var r := Sever(s, d, c, amount); var stake := Stake(s.delegators, d, c);
            && (forall a :: Surplus(r, a) == Surplus(s, a) + if a == d then stake - amount else 0)
            && SameAhead(s, r) && TotalBacking(r) == TotalBacking(s) - stake && ShortfallMoves(s, r, amount - stake)
  {
    hide TotalBacking, DropFrom, Queues.Dequeue, OwnSideMoves, Queues.Ok, PutQueue, Surplus, Stake, StakesAgree, PoolOk,
      HoldsCover, Candidates.Ok, Delegators.Ok;
    BothSides(s, d, c);
    DelegatedAtLeast(s, d, c);
    var q := QueueAt(s, c);
    var r := Sever(s, d, c, amount);
    ForgetSides(s, d, c, amount);
    ListSever(q, d);
    OwnSever(s, r, d, c);
    MoveGaps(s, r, d, c, Queues.Dequeue(q, d), ExcessAt(s, c), 0 - Stake(s.delegators, d, c), 0 - amount);
    ExcessIsAhead(s, c);
  }

  lemma PutQueueDrift(s: Ledger, r: Ledger, c: Account, q: Queues.Queue)
    requires Listed(s, c) && NoDrift(s) && CandidateSide(s, r, c, q, ExcessAt(s, c))
    ensures NoDrift(r)
  {
  }

  /** The record of a new delegation's owner: a first delegation, or one more beside the others. */
  ghost predicate RecordAdmits(s: Ledger, d: Account, c: Account, amount: Balance, after: Delegator) {
    if d in s.delegators then
      && Count(s.delegators[d].delegations, c) == 0
      && |s.delegators[d].delegations| < MAX_DELEGATIONS_PER_DELEGATOR
      && after == Delegators.Add(s.delegators[d], c, amount)
    else
      after == Delegators.New(d, c, amount)
  }

  lemma OwnAdmit(s: Ledger, r: Ledger, d: Account, c: Account, amount: Balance, after: Delegator)
    requires DelegatorsOk(s.delegators) && RecordAdmits(s, d, c, amount, after) && amount >= MIN_DELEGATION
    requires r.delegators == s.delegators[d := after]
    ensures OwnSideMoves(s, r, d, c, amount)
    ensures Stake(s.delegators, d, c) == 0
  {
    hide Delegators.Ok;
    if d in s.delegators {
      var del := s.delegators[d].delegations;
      Delegators.AddOk(s.delegators[d], d, c, amount);
      PutMeasures(del, Bond(c, amount));
      StakeBounds(del, c);
    } else {
      Delegators.NewOk(d, c, amount);
    }
  }

  lemma AdmitKeepsRevokes(s: Ledger, d: Account, c: Account, amount: Balance, after: Delegator)
    requires DelegatorsOk(s.delegators) && RevokesCurrent(s.delegators) && RecordAdmits(s, d, c, amount, after)
    ensures RevokesCurrent(s.delegators[d := after])
  {
    if d in s.delegators {
      assert Delegators.Ok(s.delegators[d], d);
      PutMeasures(s.delegators[d].delegations, Bond(c, amount));
    }
  }

  lemma ListAdmit(q: Queues.Queue, d: Account, amount: Balance)
    requires Queues.Ok(q) && Queues.Entered(q, d) == 0 && amount >= MIN_DELEGATION && Queues.Evicted(q).None?
    ensures ListSideMoves(q, Queues.Enqueue(q, Bond(d, amount)), d, amount)
  {
    Queues.EnqueueKeepsOk(q, Bond(d, amount));
    Queues.EnqueueStakes(q, Bond(d, amount));
  }

  lemma AdmitSides(s: Ledger, d: Account, c: Account, amount: Balance, after: Delegator)
    requires Listed(s, c)
    ensures CandidateSide(s, Admit(s, d, c, amount, after), c, Queues.Enqueue(QueueAt(s, c), Bond(d, amount)),
                          ExcessAt(s, c))
    ensures HeldMoves(s, Admit(s, d, c, amount, after), d, amount)
  {
  }

  lemma NotYetEntered(s: Ledger, d: Account, c: Account)
    requires Consistent(s) && c in s.info && Stake(s.delegators, d, c) == 0
    ensures Queues.Ok(QueueAt(s, c)) && Queues.Entered(QueueAt(s, c), d) == 0
  {
    assert Stake(s.delegators, d, c) == Backed(s.top, s.bottom, c, d);
    PositiveBacked(s, c, d);
    assert Candidates.Ok(CandidateAt(s, c));
    assert Queues.Entered(QueueAt(s, c), d) <= 1;
  }

  lemma AdmitKeeps(s: Ledger, d: Account, c: Account, amount: Balance, after: Delegator)
    requires Consistent(s) && c in s.info && d !in s.info && amount >= MIN_DELEGATION
    requires RecordAdmits(s, d, c, amount, after) && Queues.Evicted(QueueAt(s, c)).None?
    ensures Consistent(Admit(s, d, c, amount, after))
    ensures Conserved(s) ==> Conserved(Admit(s, d, c, amount, after))
    ensures Conserved(s) && s.total == TotalBacking(s) ==>
              Admit(s, d, c, amount, after).total == TotalBacking(Admit(s, d, c, amount, after))
  {
    hide StakesAgree, PoolOk, HoldsCover, HoldsEqual, OwnSideMoves, CandidateSide, Candidates.Ok, Delegators.Ok,
      Delegators.RevokesCurrent, Queues.Ok, Queues.Enqueue, Backings;
    var r := Admit(s, d, c, amount, after);
    var q := Queues.Enqueue(QueueAt(s, c), Bond(d, amount));
    OwnAdmit(s, r, d, c, amount, after);
    NotYetEntered(s, d, c);
    ListAdmit(QueueAt(s, c), d, amount);
    AdmitSides(s, d, c, amount, after);
    Together(s, r, d, c, q, ExcessAt(s, c), amount);
    if Conserved(s) {
      AdmitKeepsRevokes(s, d, c, amount, after);
      ConservedTogether(s, r, d, c, q, ExcessAt(s, c), amount);
    }
  }

  lemma AdmitGaps(s: Ledger, d: Account, c: Account, amount: Balance, after: Delegator)
    requires Consistent(s) && c in s.info && amount >= MIN_DELEGATION
    requires RecordAdmits(s, d, c, amount, after) && Queues.Evicted(QueueAt(s, c)).None?
    ensures var r := Admit(s, d, c, amount, after);
            SameSurplus(s, r) && SameAhead(s, r) && TotalBacking(r) == TotalBacking(s) + amount
  {
    hide TotalBacking, Queues.Enqueue, OwnSideMoves, Queues.Ok, PutQueue, Surplus, Candidates.Ok, StakesAgree, PoolOk,
      HoldsCover, Delegators.Ok;
    var r := Admit(s, d, c, amount, after);
    OwnAdmit(s, r, d, c, amount, after);
    NotYetEntered(s, d, c);
    ListAdmit(QueueAt(s, c), d, amount);
    AdmitSides(s, d, c, amount, after);
    MoveGaps(s, r, d, c, Queues.Enqueue(QueueAt(s, c), Bond(d, amount)), ExcessAt(s, c), amount, amount);
    ExcessIsAhead(s, c);
  }

  // ----- raising and lowering -----

  lemma ShiftedStakes(s: Ledger, r: Ledger, d: Account, c: Account, delta: int, after: Delegator)
    requires d in s.delegators && r.delegators == s.delegators[d := after]
    requires forall y :: Delegators.Stake(after, y) == Delegators.Stake(s.delegators[d], y) + if y == c then delta
             else 0
    ensures forall x, y :: Stake(r.delegators, x, y) == Stake(s.delegators, x, y) + if x == d && y == c then delta
            else 0
  {
  }

  lemma OwnShift(s: Ledger, r: Ledger, d: Account, c: Account, delta: int, after: Delegator)
    requires d in s.delegators && DelegatorsOk(s.delegators) && Count(s.delegators[d].delegations, c) == 1
    requires Stake(s.delegators, d, c) + delta >= 0
    requires Delegators.Ok(after, d) && after.delegations == Shift(s.delegators[d].delegations, c, delta)
    requires r.delegators == s.delegators[d := after]
    ensures OwnSideMoves(s, r, d, c, delta)
  {
    ShiftMeasures(s.delegators[d].delegations, c, delta);
    ShiftedStakes(s, r, d, c, delta, after);
    ShiftedTotals(s, r, d, delta, after);
  }

  lemma ShiftedTotals(s: Ledger, r: Ledger, d: Account, delta: int, after: Delegator)
    requires d in s.delegators && DelegatorsOk(s.delegators) && r.delegators == s.delegators[d := after]
    requires Delegators.Ok(after, d) && Sum(after.delegations) == Sum(s.delegators[d].delegations) + delta
    ensures DelegatorsOk(r.delegators)
    ensures forall x :: Delegated(r.delegators, x) == Delegated(s.delegators, x) + if x == d then delta else 0
  {
    assert Delegators.Ok(s.delegators[d], d);
  }

  lemma ListRaise(q: Queues.Queue, d: Account, more: Balance)
    requires Queues.Ok(q) && Queues.Entered(q, d) == 1
    ensures ListSideMoves(q, Queues.Raise(q, d, more), d, more)
  {
    Queues.RaiseKeepsOk(q, d, more);
    Queues.RaiseStakes(q, d, more);
  }

  lemma ListLower(q: Queues.Queue, d: Account, less: Balance)
    requires Queues.Ok(q) && Queues.Entered(q, d) == 1 && Queues.Backed(q, d) >= less + MIN_DELEGATION
    ensures ListSideMoves(q, Queues.Lower(q, d, less), d, 0 - less)
  {
    Queues.LowerKeepsOk(q, d, less);
    Queues.LowerStakes(q, d, less);
  }

  /** The guard under which a bond-more keeps pending revocations meaningful. */
  predicate RaiseGuard(s: Ledger, d: Account, c: Account, more: Balance)
    requires d in s.delegators
  {
    var requests := s.delegators[d].requests.requests;
    more == 0 || c !in requests || !requests[c].action.Revoke?
  }

  lemma RaiseRevokes(s: Ledger, d: Account, c: Account, more: Balance)
    requires DelegatorsOk(s.delegators) && RevokesCurrent(s.delegators) && d in s.delegators
    requires Count(s.delegators[d].delegations, c) == 1
    ensures RevokesCurrent(s.delegators[d := Delegators.Raise(s.delegators[d], c, more)]) <==> RaiseGuard(s, d, c, more)
  {
    var before := s.delegators[d];
    assert Delegators.Ok(before, d) && Delegators.RevokesCurrent(before);
    var after := Delegators.Raise(before, c, more);
    var delegators := s.delegators[d := after];
    ShiftMeasures(before.delegations, c, more);
    assert Delegators.RevokesCurrent(after) <==> RaiseGuard(s, d, c, more) by {
      if c in before.requests.requests {
        assert Delegators.Stake(after, c) == Delegators.Stake(before, c) + more;
      }
    }
    if RevokesCurrent(delegators) {
      assert Delegators.RevokesCurrent(delegators[d]);
    }
  }

  lemma RaiseSides(s: Ledger, d: Account, c: Account, more: Balance)
    requires Listed(s, c) && d in s.delegators
    ensures CandidateSide(s, RaiseStake(s, d, c, more), c, Queues.Raise(QueueAt(s, c), d, more), ExcessAt(s, c))
    ensures HeldMoves(s, RaiseStake(s, d, c, more), d, more)
  {
  }

  /** Bonding more is consistent in every case, and conserves exactly under the guard. */
  lemma RaiseKeeps(s: Ledger, d: Account, c: Account, more: Balance)
    requires Consistent(s) && Stake(s.delegators, d, c) > 0
    ensures Listed(s, c) && d in s.delegators && Consistent(RaiseStake(s, d, c, more))
    ensures Conserved(s) ==> (Conserved(RaiseStake(s, d, c, more)) <==> RaiseGuard(s, d, c, more))
    ensures Conserved(s) && s.total == TotalBacking(s) ==>
              RaiseStake(s, d, c, more).total == TotalBacking(RaiseStake(s, d, c, more))
  {
    hide StakesAgree, PoolOk, HoldsCover, HoldsEqual, OwnSideMoves, CandidateSide, Candidates.Ok,
      Delegators.RevokesCurrent, Queues.Ok, Queues.Raise, Backings, RaiseGuard;
    BothSides(s, d, c);
    var r := RaiseStake(s, d, c, more);
    var q := Queues.Raise(QueueAt(s, c), d, more);
    Delegators.RaiseOk(s.delegators[d], d, c, more);
    OwnShift(s, r, d, c, more, Delegators.Raise(s.delegators[d], c, more));
    ListRaise(QueueAt(s, c), d, more);
    RaiseSides(s, d, c, more);
    Together(s, r, d, c, q, ExcessAt(s, c), more);
    if Conserved(s) {
      RaiseRevokes(s, d, c, more);
      if RaiseGuard(s, d, c, more) {
        ConservedTogether(s, r, d, c, q, ExcessAt(s, c), more);
      } else if s.total == TotalBacking(s) {
        BackingTogether(s, r, d, c, q, ExcessAt(s, c), more);
      }
    }
  }

  /** Bonding more leaves no gap, whatever is pending. */
  lemma RaiseGaps(s: Ledger, d: Account, c: Account, more: Balance)
    requires Consistent(s) && Stake(s.delegators, d, c) > 0
    ensures Listed(s, c) && d in s.delegators && Balanced(s, RaiseStake(s, d, c, more))
  {
    hide TotalBacking, Queues.Raise, OwnSideMoves, Queues.Ok, PutQueue, Surplus, Candidates.Ok, StakesAgree, PoolOk,
      HoldsCover, Delegators.Raise;
    BothSides(s, d, c);
    var r := RaiseStake(s, d, c, more);
    var q := Queues.Raise(QueueAt(s, c), d, more);
    RaisedRecord(s, r, d, c, more);
    ListRaise(QueueAt(s, c), d, more);
    RaiseSides(s, d, c, more);
    MoveGaps(s, r, d, c, q, ExcessAt(s, c), more, more);
    ExcessIsAhead(s, c);
  }

  lemma RaisedRecord(s: Ledger, r: Ledger, d: Account, c: Account, more: Balance)
    requires Consistent(s) && d in s.delegators && Count(s.delegators[d].delegations, c) == 1
    requires r.delegators == s.delegators[d := Delegators.Raise(s.delegators[d], c, more)]
    ensures OwnSideMoves(s, r, d, c, more)
  {
    hide BooksAgree, StakesAgree, PoolOk, HoldsCover, Delegators.Ok, OwnSideMoves;
    Delegators.RaiseOk(s.delegators[d], d, c, more);
    OwnShift(s, r, d, c, more, Delegators.Raise(s.delegators[d], c, more));
  }

  lemma LowerKeepsRevokes(s: Ledger, d: Account, c: Account)
    requires DelegatorsOk(s.delegators) && RevokesCurrent(s.delegators) && d in s.delegators
    requires c in s.delegators[d].requests.requests && s.delegators[d].requests.requests[c].action.Decrease?
    ensures RevokesCurrent(s.delegators[d :=
                                        Delegators.Lower(s.delegators[d], c,
                                                         s.delegators[d].requests.requests[c].amount)])
  {
    var before := s.delegators[d];
    var less: int := before.requests.requests[c].amount;
    assert Delegators.Ok(before, d) && Delegators.RevokesCurrent(before);
    ShiftMeasures(before.delegations, c, 0 - less);
  }

  lemma LowerSides(s: Ledger, d: Account, c: Account, less: Balance)
    requires Listed(s, c) && d in s.delegators && Get(s.reserved, d) >= less
    ensures CandidateSide(s, LowerStake(s, d, c, less), c, Queues.Lower(QueueAt(s, c), d, less),
                          ExcessAt(s, c) + Drift(s, d, c, less))
    ensures HeldMoves(s, LowerStake(s, d, c, less), d, 0 - less)
  {
    hide Queues.Lower, Delegators.Lower, Drift, ExcessAt;
  }

  /** The request `d` has on `c` is a decrease by `less`. */
  predicate DecreasePending(s: Ledger, d: Account, c: Account, less: Balance) {
    && d in s.delegators && c in s.delegators[d].requests.requests
    && s.delegators[d].requests.requests[c].action.Decrease? && s.delegators[d].requests.requests[c].amount == less
  }

  lemma LowerAffords(s: Ledger, d: Account, c: Account, less: Balance)
    requires Consistent(s) && DecreasePending(s, d, c, less)
    ensures Stake(s.delegators, d, c) >= less + MIN_DELEGATION
    ensures c in s.info && d !in s.info && Count(s.delegators[d].delegations, c) == 1
    ensures Queues.Ok(QueueAt(s, c)) && Queues.Entered(QueueAt(s, c), d) == 1
    ensures Queues.Backed(QueueAt(s, c), d) == Stake(s.delegators, d, c)
    ensures Get(s.reserved, d) >= less
  {
    assert Delegators.Ok(s.delegators[d], d);
    BothSides(s, d, c);
    DelegatedAtLeast(s, d, c);
  }

  lemma LowerListSide(s: Ledger, d: Account, c: Account, less: Balance)
    requires Consistent(s) && DecreasePending(s, d, c, less) && Listed(s, c)
    ensures ListSideMoves(QueueAt(s, c), Queues.Lower(QueueAt(s, c), d, less), d, 0 - less)
  {
    LowerAffords(s, d, c, less);
    ListLower(QueueAt(s, c), d, less);
  }

  lemma LowerOwnSide(s: Ledger, r: Ledger, d: Account, c: Account, less: Balance)
    requires Consistent(s) && DecreasePending(s, d, c, less)
    requires r.delegators == s.delegators[d := Delegators.Lower(s.delegators[d], c, less)]
    ensures OwnSideMoves(s, r, d, c, 0 - less)
  {
    hide Delegators.Ok, OwnSideMoves, BooksAgree, StakesAgree, PoolOk, HoldsCover;
    LowerAffords(s, d, c, less);
    Delegators.LowerOk(s.delegators[d], d, c);
    OwnShift(s, r, d, c, 0 - less, Delegators.Lower(s.delegators[d], c, less));
  }

  /** Carrying out a pending decrease keeps everything; `Total` stays exact as well. */
  lemma LowerKeeps(s: Ledger, d: Account, c: Account, less: Balance)
    requires Consistent(s) && DecreasePending(s, d, c, less)
    ensures Listed(s, c) && Consistent(LowerStake(s, d, c, less))
    ensures Conserved(s) ==> Conserved(LowerStake(s, d, c, less))
    ensures Conserved(s) && s.total == TotalBacking(s) ==>
              LowerStake(s, d, c, less).total == TotalBacking(LowerStake(s, d, c, less))
  {
    LowerAffords(s, d, c, less);
    LowerSides(s, d, c, less);
    var r := LowerStake(s, d, c, less);
    LowerListSide(s, d, c, less);
    LowerOwnSide(s, r, d, c, less);
    LoweredTogether(s, r, d, c, Queues.Lower(QueueAt(s, c), d, less), ExcessAt(s, c) + Drift(s, d, c, less), less);
    if Conserved(s) {
      LowerKeepsRevokes(s, d, c);
      LoweredConserved(s, r, d, c, Queues.Lower(QueueAt(s, c), d, less), ExcessAt(s, c) + Drift(s, d, c, less), less);
    }
  }

  /** A decrease leaves what is held and `Total` without a gap; in a bottom list it moves the list's
      total ahead. */
  lemma LowerGaps(s: Ledger, d: Account, c: Account, less: Balance)
    requires Consistent(s) && DecreasePending(s, d, c, less)
    ensures Listed(s, c)
    ensures var r := LowerStake(s, d, c, less);
            && SameSurplus(s, r) && TotalFollows(s, r) && r.bottom.Keys == s.bottom.Keys
            && forall x :: Ahead(r.bottom, x) == Ahead(s.bottom, x) + if x == c then Drift(s, d, c, less) else 0
  {
    hide TotalBacking, Queues.Lower, OwnSideMoves, Queues.Ok, PutQueue, Surplus, StakesAgree, PoolOk, HoldsCover,
      Delegators.Lower, Drift, Candidates.Ok;
    LowerAffords(s, d, c, less);
    LowerSides(s, d, c, less);
    var r := LowerStake(s, d, c, less);
    LowerListSide(s, d, c, less);
    LowerOwnSide(s, r, d, c, less);
    MoveGaps(s, r, d, c, Queues.Lower(QueueAt(s, c), d, less), ExcessAt(s, c) + Drift(s, d, c, less), 0 - less,
             0 - less);
    ExcessIsAhead(s, c);
  }

  lemma LoweredTogether(s: Ledger, r: Ledger, d: Account, c: Account, q: Queues.Queue, excess: nat, less: Balance)
    requires Consistent(s) && c in s.info && d !in s.info && CandidateSide(s, r, c, q, excess)
    requires ListSideMoves(QueueAt(s, c), q, d, 0 - less) && OwnSideMoves(s, r, d, c, 0 - less)
    requires HeldMoves(s, r, d, 0 - less)
    ensures Consistent(r)
  {
    Together(s, r, d, c, q, excess, 0 - less);
  }

  lemma LoweredConserved(s: Ledger, r: Ledger, d: Account, c: Account, q: Queues.Queue, excess: nat, less: Balance)
    requires Listed(s, c) && Conserved(s) && RevokesCurrent(r.delegators) && CandidateSide(s, r, c, q, excess)
    requires ListSideMoves(QueueAt(s, c), q, d, 0 - less) && OwnSideMoves(s, r, d, c, 0 - less)
    requires HeldMoves(s, r, d, 0 - less) && r.total == SatSub(s.total, less)
    ensures Conserved(r) && (s.total == TotalBacking(s) ==> r.total == TotalBacking(r))
  {
    ConservedTogether(s, r, d, c, q, excess, 0 - less);
  }
}

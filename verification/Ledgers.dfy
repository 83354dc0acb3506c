/** The staking ledger: every storage item that records who has staked what on whom, the currency
    held for it, and the invariants tying the redundant copies together. */
module Ledgers {
  import opened Bonds
  import opened Params
  import opened OrderedSets
  import opened DelegationLists
  import Queues
  import Candidates
  import Delegators
  import Sums

  type Candidate = Candidates.Candidate
  type Metadata = Candidates.Metadata
  type Delegator = Delegators.Delegator

  datatype Ledger = Ledger(
    round: nat,
    info: map<Account, Metadata>,
    top: map<Account, DelegationData>,
    bottom: map<Account, DelegationData>,
    delegators: map<Account, Delegator>,
    pool: seq<Bond>,
    total: Balance,
    reserved: map<Account, Balance>,
    free: map<Account, Balance>)

  // ----- reading -----

  function Get(m: map<Account, Balance>, a: Account): Balance {
    if a in m then m[a] else 0
  }

  predicate Listed(s: Ledger, c: Account) {
    c in s.info && c in s.top && c in s.bottom
  }

  function CandidateAt(s: Ledger, c: Account): Candidate
    requires Listed(s, c)
  {
    Candidates.Candidate(s.info[c], s.top[c], s.bottom[c])
  }

  /** What `d`'s own record says it has staked on `c`. */
  function Stake(delegators: map<Account, Delegator>, d: Account, c: Account): Balance {
    if d in delegators then Delegators.Stake(delegators[d], c) else 0
  }

  /** What `c`'s lists say `d` has staked on it. */
  function Backed(top: map<Account, DelegationData>, bottom: map<Account, DelegationData>, c: Account,
      d: Account): Balance {
    (if c in top then StakeOf(top[c].delegations, d) else 0) +
    (if c in bottom then StakeOf(bottom[c].delegations, d) else 0)
  }

  function SelfBond(info: map<Account, Metadata>, a: Account): Balance {
    if a in info then info[a].bond else 0
  }

  function Delegated(delegators: map<Account, Delegator>, a: Account): Balance {
    if a in delegators then delegators[a].total else 0
  }

  // ----- invariants of every run -----

  /** Every candidate has both lists, and all its caches agree with them. */
  ghost predicate BooksOk(s: Ledger) {
    BooksAgree(s.info, s.top, s.bottom)
  }

  ghost predicate BooksAgree(info: map<Account, Metadata>, top: map<Account, DelegationData>,
                             bottom: map<Account, DelegationData>)
  {
    && info.Keys == top.Keys == bottom.Keys
    && forall c :: c in info ==> Candidates.Ok(Candidates.Candidate(info[c], top[c], bottom[c]))
  }

  ghost predicate DelegatorsOk(delegators: map<Account, Delegator>) {
    forall d :: d in delegators ==> Delegators.Ok(delegators[d], d)
  }

  /** The two-way index: both records of a delegation give the same amount. */
  ghost predicate Linked(s: Ledger) {
    StakesAgree(s.delegators, s.top, s.bottom)
  }

  ghost predicate StakesAgree(delegators: map<Account, Delegator>, top: map<Account, DelegationData>,
                              bottom: map<Account, DelegationData>)
  {
    forall d, c :: Stake(delegators, d, c) == Backed(top, bottom, c, d)
  }

  ghost predicate OneRole(s: Ledger) {
    s.info.Keys !! s.delegators.Keys
  }

  /** What the pool must hold for `a`. */
  function PoolCount(info: map<Account, Metadata>, a: Account): nat {
    if a in info && info[a].status.Active? then 1 else 0
  }

  function PoolStake(info: map<Account, Metadata>, a: Account): Balance {
    if a in info && info[a].status.Active? then info[a].totalCounted else 0
  }

  /** The pool is a set holding exactly the active candidates, each with its counted total. */
  ghost predicate PoolOk(pool: seq<Bond>, info: map<Account, Metadata>) {
    && ByOwner(pool)
    && (forall a :: Count(pool, a) == PoolCount(info, a))
    && (forall a :: StakeOf(pool, a) == PoolStake(info, a))
  }

  /** Enough is held for every account to release all its bonds. */
  ghost predicate Covered(s: Ledger) {
    HoldsCover(s.reserved, s.info, s.delegators)
  }

  ghost predicate HoldsCover(reserved: map<Account, Balance>, info: map<Account, Metadata>,
                             delegators: map<Account, Delegator>)
  {
    forall a :: Get(reserved, a) >= SelfBond(info, a) + Delegated(delegators, a)
  }

  ghost predicate Consistent(s: Ledger) {
    BooksOk(s) && DelegatorsOk(s.delegators) && Linked(s) && OneRole(s) && PoolOk(s.pool, s.info) && Covered(s)
  }

  // ----- invariants of runs without a bond-more on a delegation awaiting revocation -----

  /** What is held for each account is exactly its bond and its delegations. */
  ghost predicate ReservesExact(s: Ledger) {
    HoldsEqual(s.reserved, s.info, s.delegators)
  }

  ghost predicate HoldsEqual(reserved: map<Account, Balance>, info: map<Account, Metadata>,
                             delegators: map<Account, Delegator>)
  {
    forall a :: Get(reserved, a) == SelfBond(info, a) + Delegated(delegators, a)
  }

  ghost predicate RevokesCurrent(delegators: map<Account, Delegator>) {
    forall d :: d in delegators ==> Delegators.RevokesCurrent(delegators[d])
  }

  ghost function Backings(info: map<Account, Metadata>, top: map<Account, DelegationData>,
                          bottom: map<Account, DelegationData>): map<Account, nat>
  {
    map c | c in info && c in top && c in bottom :: Candidates.Backing(Candidates.Candidate(info[c], top[c], bottom[c]))
  }

  /** All capital behind all candidates. */
  ghost function TotalBacking(s: Ledger): Balance {
    Sums.SumMap(Backings(s.info, s.top, s.bottom))
  }

  ghost predicate Conserved(s: Ledger) {
    ReservesExact(s) && RevokesCurrent(s.delegators) && s.total <= TotalBacking(s)
  }

  /** No cached bottom total has drifted from its entries. */
  ghost predicate NoDrift(s: Ledger) {
    TotalsSum(s.bottom)
  }

  ghost predicate TotalsSum(bottom: map<Account, DelegationData>) {
    forall c :: c in bottom ==> bottom[c].total == Sum(bottom[c].delegations)
  }

  /** `Total` is all capital, to the last unit. */
  ghost predicate Exact(s: Ledger) {
    NoDrift(s) && s.total == TotalBacking(s)
  }

  // ----- gaps between the copies -----

  /** What is held for `a` beyond its bond and its delegations. */
  function Surplus(s: Ledger, a: Account): int {
    Get(s.reserved, a) - SelfBond(s.info, a) - Delegated(s.delegators, a)
  }

  /** How far the cached bottom total of `c` runs ahead of its entries. */
  function Ahead(bottom: map<Account, DelegationData>, c: Account): nat {
    if c in bottom then SatSub(bottom[c].total, Sum(bottom[c].delegations)) else 0
  }

  ghost predicate SameSurplus(s: Ledger, r: Ledger) {
    forall a :: Surplus(r, a) == Surplus(s, a)
  }

  ghost predicate SameAhead(s: Ledger, r: Ledger) {
    r.bottom.Keys == s.bottom.Keys && forall c :: Ahead(r.bottom, c) == Ahead(s.bottom, c)
  }

  /** How far `Total` is below all capital; negative when it is above. */
  ghost function Shortfall(s: Ledger): int {
    TotalBacking(s) - s.total
  }

  /** `extra` is added to the shortfall. As `Total` saturates at zero, no more can be missing than all
      capital there is. */
  ghost predicate ShortfallMoves(s: Ledger, r: Ledger, extra: int) {
    Shortfall(r) == if Shortfall(s) + extra > TotalBacking(r) then TotalBacking(r) else Shortfall(s) + extra
  }

  /** `Total` moves with all capital, whatever it was. */
  ghost predicate TotalFollows(s: Ledger, r: Ledger) {
    ShortfallMoves(s, r, 0)
  }

  /** No gap changes. */
  ghost predicate Balanced(s: Ledger, r: Ledger) {
    SameSurplus(s, r) && SameAhead(s, r) && TotalFollows(s, r)
  }

  lemma ExactIsNoSurplus(s: Ledger)
    ensures ReservesExact(s) <==> forall a :: Surplus(s, a) == 0
    ensures Covered(s) ==> forall a :: Surplus(s, a) >= 0
  {
    if ReservesExact(s) {
      forall a
        ensures Surplus(s, a) == 0
      {
        assert Get(s.reserved, a) == SelfBond(s.info, a) + Delegated(s.delegators, a);
      }
    }
    if forall a :: Surplus(s, a) == 0 {
      forall a
        ensures Get(s.reserved, a) == SelfBond(s.info, a) + Delegated(s.delegators, a)
      {
        assert Surplus(s, a) == 0;
      }
    }
    if Covered(s) {
      forall a
        ensures Surplus(s, a) >= 0
      {
        assert Get(s.reserved, a) >= SelfBond(s.info, a) + Delegated(s.delegators, a);
      }
    }
  }

  /** A call keeps what it must: consistency always; exact holds and totals when they were exact. */
  ghost predicate Keeps(s: Ledger, r: Ledger) {
    && Consistent(r)
    && (Conserved(s) ==> Conserved(r))
    && (Conserved(s) && Exact(s) ==> Exact(r))
  }

  lemma KeepsSame(s: Ledger)
    requires Consistent(s)
    ensures Keeps(s, s)
  {
  }

  // ----- writing -----

  function PutCandidate(s: Ledger, c: Account, candidate: Candidate): Ledger {
    s.(info := s.info[c := candidate.info], top := s.top[c := candidate.top], bottom := s.bottom[c := candidate.bottom])
  }

  function UpdateActive(pool: seq<Bond>, c: Account, total: Balance): seq<Bond> {
    Put(Without(pool, c), Bond(c, total))
  }

  /** The pool after `c`'s metadata became `info`. */
  function Reindex(pool: seq<Bond>, c: Account, info: Metadata): seq<Bond> {
    if info.status.Active? then UpdateActive(pool, c, info.totalCounted) else pool
  }

  predicate CanReserve(s: Ledger, a: Account, v: Balance) {
    v == 0 || Get(s.free, a) >= v
  }

  function Reserve(s: Ledger, a: Account, v: Balance): Ledger {
    s.(free := s.free[a := SatSub(Get(s.free, a), v)], reserved := s.reserved[a := Get(s.reserved, a) + v])
  }

  /** Releases `v`, or as much as is held. */
  function Unreserve(s: Ledger, a: Account, v: Balance): Ledger {
    var released := Min(v, Get(s.reserved, a));
    s.(free := s.free[a := Get(s.free, a) + released], reserved := s.reserved[a := Get(s.reserved, a) - released])
  }

  /** `d` no longer delegates to `c`; without any delegation left it is no delegator. */
  function DropFrom(delegators: map<Account, Delegator>, d: Account, c: Account): map<Account, Delegator> {
    if d !in delegators then delegators
    else if |delegators[d].delegations| == 1 then delegators - {d}
    else delegators[d := Delegators.Drop(delegators[d], c)]
  }

  // ----- one candidate at a time -----

  lemma PutCandidateBooks(s: Ledger, c: Account, candidate: Candidate)
    requires BooksOk(s) && Candidates.Ok(candidate)
    ensures BooksOk(PutCandidate(s, c, candidate))
  {
    hide Candidates.Ok;
    var r := PutCandidate(s, c, candidate);
    assert r.info.Keys == s.info.Keys + {c} && r.top.Keys == s.top.Keys + {c} && r.bottom.Keys == s.bottom.Keys + {c};
    forall x | x in r.info
      ensures Candidates.Ok(Candidates.Candidate(r.info[x], r.top[x], r.bottom[x]))
    {
      if x != c {
        assert x in s.info;
      }
    }
  }

  lemma BackedAt(s: Ledger, c: Account, d: Account)
    requires Listed(s, c)
    ensures Backed(s.top, s.bottom, c, d) == Candidates.Backed(CandidateAt(s, c), d)
  {
  }

  lemma ReindexKeepsPool(pool: seq<Bond>, info: map<Account, Metadata>, c: Account, m: Metadata)
    requires PoolOk(pool, info) && c in info && (info[c].status.Active? <==> m.status.Active?)
    ensures PoolOk(Reindex(pool, c, m), info[c := m])
  {
    if m.status.Active? {
      var r := UpdateActive(pool, c, m.totalCounted);
      UpdateActiveMeasures(pool, c, m.totalCounted);
      PoolFollows(pool, info, c, m, r);
    } else {
      PoolFollows(pool, info, c, m, pool);
    }
  }

  /** A pool whose entry for `c` follows `c`'s new metadata, and is otherwise as it was. */
  lemma PoolFollows(pool: seq<Bond>, info: map<Account, Metadata>, c: Account, m: Metadata, r: seq<Bond>)
    requires PoolOk(pool, info) && ByOwner(r)
    requires forall a :: a != c ==> Count(r, a) == Count(pool, a) && StakeOf(r, a) == StakeOf(pool, a)
    requires Count(r, c) == (if m.status.Active? then 1 else 0)
    requires StakeOf(r, c) == if m.status.Active? then m.totalCounted else 0
    ensures PoolOk(r, info[c := m])
  {
    var after := info[c := m];
    forall a
      ensures Count(r, a) == PoolCount(after, a)
      ensures StakeOf(r, a) == PoolStake(after, a)
    {
      assert Count(pool, a) == PoolCount(info, a) && StakeOf(pool, a) == PoolStake(info, a);
    }
  }

  lemma UpdateActiveMeasures(pool: seq<Bond>, c: Account, total: Balance)
    requires ByOwner(pool)
    ensures ByOwner(UpdateActive(pool, c, total))
    ensures forall a :: Count(UpdateActive(pool, c, total), a) == if a == c then 1 else Count(pool, a)
    ensures forall a :: StakeOf(UpdateActive(pool, c, total), a) == if a == c then total else StakeOf(pool, a)
  {
    WithoutMeasures(pool, c);
    WithoutKeepsOrder(pool, c);
    PutMeasures(Without(pool, c), Bond(c, total));
    PutKeepsOrder(Without(pool, c), Bond(c, total));
  }

  /** A set by owner is determined by its measures. */
  lemma {:induction false} SetExtensional(s: seq<Bond>, t: seq<Bond>)
    requires ByOwner(s) && ByOwner(t)
    requires forall a :: Count(s, a) == Count(t, a) && StakeOf(s, a) == StakeOf(t, a)
    ensures s == t
  {
    if s == [] || t == [] {
      if s != [] {
        EntryCounts(s, |s| - 1);
        assert false;
      } else if t != [] {
        EntryCounts(t, |t| - 1);
        assert false;
      }
    } else {
      LastIsLargest(s, t);
      LastIsLargest(t, s);
      var o := Last(s).owner;
      NoneOf(DropLast(s), o);
      NoneOf(DropLast(t), o);
      StakeBounds(DropLast(s), o);
      StakeBounds(DropLast(t), o);
      assert Count(s, o) == Count(t, o) && StakeOf(s, o) == StakeOf(t, o);
      forall a
        ensures Count(DropLast(s), a) == Count(DropLast(t), a) && StakeOf(DropLast(s), a) == StakeOf(DropLast(t), a)
      {
        assert Count(s, a) == Count(t, a) && StakeOf(s, a) == StakeOf(t, a);
      }
      SetExtensional(DropLast(s), DropLast(t));
      assert s == DropLast(s) + [Last(s)] && t == DropLast(t) + [Last(t)];
    }
  }

  lemma LastIsLargest(s: seq<Bond>, t: seq<Bond>)
    requires s != [] && t != [] && ByOwner(t)
    requires forall a :: Count(s, a) == Count(t, a)
    ensures Last(s).owner <= Last(t).owner
  {
    EntryCounts(s, |s| - 1);
    var i := FindEntry(t, Last(s).owner);
  }

  /** Re-entering the value the pool already has changes nothing. */
  lemma ReindexSame(pool: seq<Bond>, info: map<Account, Metadata>, c: Account, m: Metadata)
    requires PoolOk(pool, info) && c in info && info[c].status == m.status && info[c].totalCounted == m.totalCounted
    ensures Reindex(pool, c, m) == pool
  {
    if m.status.Active? {
      UpdateActiveMeasures(pool, c, m.totalCounted);
      forall a
        ensures Count(pool, a) == Count(Reindex(pool, c, m), a) && StakeOf(pool, a) == StakeOf(Reindex(pool, c, m), a)
      {
        assert Count(pool, a) == PoolCount(info, a) && StakeOf(pool, a) == PoolStake(info, a);
      }
      SetExtensional(Reindex(pool, c, m), pool);
    }
  }

  lemma BackingAfterPut(s: Ledger, c: Account, candidate: Candidate)
    requires Listed(s, c)
    ensures TotalBacking(PutCandidate(s, c, candidate))
            == TotalBacking(s) - Candidates.Backing(CandidateAt(s, c)) + Candidates.Backing(candidate)
    ensures TotalBacking(s) >= Candidates.Backing(CandidateAt(s, c))
  {
    var before := Backings(s.info, s.top, s.bottom);
    var r := PutCandidate(s, c, candidate);
    assert Backings(r.info, r.top, r.bottom) == before[c := Candidates.Backing(candidate)];
    Sums.Update(before, c, Candidates.Backing(candidate));
    Sums.TakeOut(before, c);
  }

  // ----- one delegator at a time -----

  lemma DropFromStakes(delegators: map<Account, Delegator>, d: Account, c: Account)
    requires DelegatorsOk(delegators) && d in delegators && Count(delegators[d].delegations, c) == 1
    ensures DelegatorsOk(DropFrom(delegators, d, c))
    ensures forall x, y :: Stake(DropFrom(delegators, d, c), x, y)
                           == if x == d && y == c then 0 else Stake(delegators, x, y)
    ensures forall x :: Delegated(DropFrom(delegators, d, c), x)
                        == Delegated(delegators, x) - if x == d then Stake(delegators, d, c) else 0
    ensures DropFrom(delegators, d, c).Keys <= delegators.Keys
  {
    hide Delegators.Ok;
    var del := delegators[d].delegations;
    WithoutMeasures(del, c);
    DelegatorTotal(delegators[d], d, c);
    if |del| == 1 {
      assert Without(del, c) == [];
    } else {
      Delegators.DropOk(delegators[d], d, c);
    }
  }

  lemma DelegatorTotal(d: Delegator, id: Account, c: Account)
    requires Delegators.Ok(d, id)
    ensures d.total == Sum(d.delegations) >= Delegators.Stake(d, c)
  {
    StakeBounds(d.delegations, c);
  }

  lemma PositiveStake(delegators: map<Account, Delegator>, d: Account, c: Account)
    requires DelegatorsOk(delegators)
    ensures Stake(delegators, d, c) > 0 <==> d in delegators && Count(delegators[d].delegations, c) == 1
    ensures Stake(delegators, d, c) > 0 ==> Stake(delegators, d, c) >= MIN_DELEGATION
  {
    if d in delegators {
      var del := delegators[d].delegations;
      OnePerOwner(del, c);
      StakeBounds(del, c);
      CountPositive(del, c, MIN_DELEGATION);
    }
  }

  lemma PositiveBacked(s: Ledger, c: Account, d: Account)
    requires BooksOk(s)
    ensures Backed(s.top, s.bottom, c, d) > 0 <==>
              c in s.info && Queues.Entered(Candidates.QueueOf(CandidateAt(s, c)), d) == 1
  {
    if c in s.info {
      var q := Candidates.QueueOf(CandidateAt(s, c));
      assert Candidates.Ok(CandidateAt(s, c));
      assert Queues.Entered(q, d) <= 1;
      StakeBounds(q.top, d);
      StakeBounds(q.bottom, d);
      CountPositive(q.top, d, MIN_DELEGATION);
      CountPositive(q.bottom, d, MIN_DELEGATION);
    }
  }
}

/** A candidate as stored: metadata with cached totals, extremes and capacity flags beside the two
    delegation lists. `Ok` says every cache equals what the lists say. */
module Candidates {
  import opened Bonds
  import opened Params
  import opened DelegationLists
  import Queues

  type RoundIndex = nat

  datatype CollatorStatus = Active | Idle | Leaving(when: RoundIndex)

  datatype BondLess = BondLess(amount: Balance, whenExecutable: RoundIndex)

  datatype Metadata = Metadata(
    bond: Balance,
    delegationCount: nat,
    totalCounted: Balance,
    lowestTop: Balance,
    highestBottom: Balance,
    lowestBottom: Balance,
    topCapacity: CapacityStatus,
    bottomCapacity: CapacityStatus,
    request: Option<BondLess>,
    status: CollatorStatus)

  datatype Candidate = Candidate(info: Metadata, top: DelegationData, bottom: DelegationData)

  function QueueOf(c: Candidate): Queues.Queue {
    Queues.Queue(c.top.delegations, c.bottom.delegations)
  }

  /** The metadata that a self bond and two lists determine. */
  function Recomputed(bond: Balance, request: Option<BondLess>, status: CollatorStatus, q: Queues.Queue): Metadata {
    Metadata(bond, |q.top| + |q.bottom|, bond + Sum(q.top), Lowest(q.top), Highest(q.bottom), Lowest(q.bottom),
             Capacity(|q.top|, MAX_TOP), Capacity(|q.bottom|, MAX_BOTTOM), request, status)
  }

  /** How far the cached bottom total runs ahead of the entries. It starts at zero; only a decrease
      inside the bottom list, which leaves the total as it was, adds to it. */
  function Excess(c: Candidate): nat {
    SatSub(c.bottom.total, Sum(c.bottom.delegations))
  }

  /** The candidate with these lists and every cache brought up to date. */
  function WithQueue(c: Candidate, q: Queues.Queue, excess: nat): Candidate {
    Candidate(Recomputed(c.info.bond, c.info.request, c.info.status, q),
              DelegationData(q.top, Sum(q.top)), DelegationData(q.bottom, Sum(q.bottom) + excess))
  }

  ghost predicate CachesOk(c: Candidate) {
    c.bottom.total >= Sum(c.bottom.delegations) && c == WithQueue(c, QueueOf(c), Excess(c))
  }

  /** The self bond keeps its minimum, also after a pending decrease. */
  ghost predicate BondOk(info: Metadata) {
    info.bond >= MIN_CANDIDATE_STK + if info.request.Some? then info.request.value.amount else 0
  }

  ghost predicate Ok(c: Candidate) {
    CachesOk(c) && BondOk(c.info) && Queues.Ok(QueueOf(c))
  }

  /** All the stake behind a candidate. */
  function Backing(c: Candidate): Balance {
    c.info.bond + Queues.Backing(QueueOf(c))
  }

  function Backed(c: Candidate, o: Account): Balance {
    Queues.Backed(QueueOf(c), o)
  }

  function Fresh(bond: Balance): Candidate {
    Candidate(Metadata(bond, 0, bond, 0, 0, 0, Empty, Empty, None, Active), DelegationData([], 0),
              DelegationData([], 0))
  }

  /** Which list the cached extremes send a removal to, for a claimed amount. */
  predicate TriesTop(info: Metadata, amount: Balance) {
    info.topCapacity != Full || amount >= info.lowestTop
  }

  predicate TriesBottom(info: Metadata, amount: Balance) {
    info.topCapacity == Full && (amount < info.lowestTop || info.lowestTop == info.highestBottom)
  }

  /** The removal of `o` under a claimed amount finds its entry. */
  predicate Reaches(c: Candidate, o: Account, amount: Balance) {
    || (Count(c.top.delegations, o) > 0 && TriesTop(c.info, amount))
    || (Count(c.bottom.delegations, o) > 0 && TriesBottom(c.info, amount))
  }

  /** The metadata with the self bond moved by `delta`, another request and another status. */
  function Revised(m: Metadata, delta: int, request: Option<BondLess>, status: CollatorStatus): Metadata
    requires m.bond + delta >= 0 && m.totalCounted + delta >= 0
  {
    m.(bond := m.bond + delta, totalCounted := m.totalCounted + delta, request := request, status := status)
  }

  lemma RevisedOk(c: Candidate, delta: int, request: Option<BondLess>, status: CollatorStatus)
    requires Ok(c) && c.info.bond + delta >= 0
    ensures c.info.totalCounted + delta >= 0
    ensures BondOk(Revised(c.info, delta, request, status)) ==>
              Ok(Candidate(Revised(c.info, delta, request, status), c.top, c.bottom))
  {
  }

  lemma FreshOk(bond: Balance)
    requires bond >= MIN_CANDIDATE_STK
    ensures Ok(Fresh(bond))
  {
  }

  lemma WithQueueOk(c: Candidate, q: Queues.Queue, excess: nat)
    requires Ok(c) && Queues.Ok(q)
    ensures Ok(WithQueue(c, q, excess))
    ensures Excess(WithQueue(c, q, excess)) == excess
    ensures QueueOf(WithQueue(c, q, excess)) == q
  {
  }

  /** Where a delegation with its true amount can be: the cached extremes never point away from the
      list that holds it. */
  lemma WhereStakeIs(c: Candidate, o: Account)
    requires Ok(c) && Queues.Entered(QueueOf(c), o) == 1
    ensures Count(c.top.delegations, o) > 0 ==>
              StakeOf(c.top.delegations, o) == Backed(c, o) && Backed(c, o) >= c.info.lowestTop
    ensures Count(c.bottom.delegations, o) > 0 ==>
              && StakeOf(c.bottom.delegations, o) == Backed(c, o) && c.info.topCapacity == Full
              && Backed(c, o) <= c.info.highestBottom <= c.info.lowestTop
  {
    var q := QueueOf(c);
    Queues.BoundaryOf(q);
    StakeBounds(q.top, o);
    StakeBounds(q.bottom, o);
    if Count(q.top, o) > 0 {
      Queues.StakeSide(q.top, o, Lowest(q.top));
    } else {
      Queues.StakeSide(q.bottom, o, Highest(q.bottom));
    }
  }

  /** Dispatch by the cached extremes is sound for the true amount, also when the lowest top entry
      equals the highest bottom entry. */
  lemma DispatchIsSound(c: Candidate, o: Account)
    requires Ok(c) && Queues.Entered(QueueOf(c), o) == 1
    ensures Reaches(c, o, Backed(c, o))
  {
    WhereStakeIs(c, o);
  }

  /** A claimed amount up to the true one misses the entry in one case only: the entry is in a full top
      list, and the claim is below the list's lowest entry. */
  lemma ReachesIff(c: Candidate, o: Account, amount: Balance)
    requires Ok(c) && Queues.Entered(QueueOf(c), o) == 1 && amount <= Backed(c, o)
    ensures Reaches(c, o, amount) <==>
              !(Count(c.top.delegations, o) > 0 && c.info.topCapacity == Full && amount < c.info.lowestTop)
  {
    WhereStakeIs(c, o);
  }

  /** What decoding a stored candidate yields, for the owner `o` a call is about. */
  lemma Decoded(c: Candidate, o: Account)
    requires Ok(c)
    ensures var q := QueueOf(c);
            && c.info == Recomputed(c.info.bond, c.info.request, c.info.status, q)
            && c.top == DelegationData(q.top, Sum(q.top))
            && c.bottom == DelegationData(q.bottom, Sum(q.bottom) + Excess(c))
            && Desc(q.top) && Desc(q.bottom) && |q.top| <= MAX_TOP && |q.bottom| <= MAX_BOTTOM
            && (q.bottom != [] ==> |q.top| == MAX_TOP) && Lowest(q.top) >= Highest(q.bottom)
            && Count(q.top, o) + Count(q.bottom, o) <= 1
  {
    assert Queues.Entered(QueueOf(c), o) <= 1;
  }
}

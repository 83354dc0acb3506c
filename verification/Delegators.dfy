/** A delegator as stored: a sorted set of delegations with its total, and at most one pending
    request per delegation with a running total of what the requests would take away. */
module Delegators {
  import opened Bonds
  import opened Params
  import opened OrderedSets
  import Sums

  type RoundIndex = nat

  datatype DelegationChange = Revoke | Decrease

  datatype DelegationRequest = DelegationRequest(
    collator: Account, amount: Balance, whenExecutable: RoundIndex, action: DelegationChange)

  datatype Pending = Pending(revocationsCount: nat, requests: map<Account, DelegationRequest>, lessTotal: Balance)

  datatype DelegatorStatus = Staying | Exiting(when: RoundIndex)

  datatype Delegator = Delegator(
    id: Account, delegations: seq<Bond>, total: Balance, requests: Pending, status: DelegatorStatus)

  type Requests = map<Account, DelegationRequest>

  function New(id: Account, candidate: Account, amount: Balance): Delegator {
    Delegator(id, [Bond(candidate, amount)], amount, Pending(0, map[], 0), Staying)
  }

  function Stake(d: Delegator, c: Account): Balance {
    StakeOf(d.delegations, c)
  }

  // ----- the request ledger -----

  ghost function Amounts(r: Requests): map<Account, nat> {
    map k | k in r :: r[k].amount
  }

  ghost function Revocations(r: Requests): map<Account, nat> {
    map k | k in r :: if r[k].action.Revoke? then 1 else 0
  }

  ghost predicate PendingOk(p: Pending) {
    p.lessTotal == Sums.SumMap(Amounts(p.requests)) && p.revocationsCount == Sums.SumMap(Revocations(p.requests))
  }

  /** A request never asks for more than the delegation has; a decrease leaves the minimum. */
  ghost predicate RequestFits(r: DelegationRequest, c: Account, stake: Balance) {
    r.collator == c && r.amount + (if r.action.Decrease? then MIN_DELEGATION else 0) <= stake
  }

  ghost predicate Ok(d: Delegator, id: Account) {
    && d.id == id
    && d.delegations != []
    && |d.delegations| <= MAX_DELEGATIONS_PER_DELEGATOR
    && ByOwner(d.delegations)
    && AllAtLeast(d.delegations, MIN_DELEGATION)
    && d.total == Sum(d.delegations)
    && PendingOk(d.requests)
    && forall c :: c in d.requests.requests ==>
         Count(d.delegations, c) == 1 && RequestFits(d.requests.requests[c], c, Stake(d, c))
  }

  /** A revocation stores the amount at scheduling time; this says it is still the whole stake. */
  ghost predicate RevokesCurrent(d: Delegator) {
    forall c :: c in d.requests.requests && d.requests.requests[c].action.Revoke? ==>
      d.requests.requests[c].amount == Stake(d, c)
  }

  function AddRequest(p: Pending, r: DelegationRequest): Pending {
    Pending(p.revocationsCount + (if r.action.Revoke? then 1 else 0), p.requests[r.collator := r],
            p.lessTotal + r.amount)
  }

  function DropRequest(p: Pending, c: Account): Pending {
    if c !in p.requests then p
    else
      var r := p.requests[c];
      Pending(SatSub(p.revocationsCount, if r.action.Revoke? then 1 else 0), p.requests - {c},
              SatSub(p.lessTotal, r.amount))
  }

  /** The delegator without its delegation to `c` and the request on it. */
  function Drop(d: Delegator, c: Account): Delegator {
    d.(delegations := Without(d.delegations, c),
       total := SatSub(d.total, Stake(d, c)),
       requests := DropRequest(d.requests, c))
  }

  function Add(d: Delegator, c: Account, amount: Balance): Delegator {
    d.(delegations := Put(d.delegations, Bond(c, amount)), total := d.total + amount)
  }

  function Raise(d: Delegator, c: Account, more: Balance): Delegator {
    d.(delegations := Shift(d.delegations, c, more), total := d.total + more)
  }

  /** A pending decrease carried out. */
  function Lower(d: Delegator, c: Account, less: Balance): Delegator {
    d.(delegations := Shift(d.delegations, c, 0 - less),
       total := SatSub(d.total, less),
       requests := DropRequest(d.requests, c))
  }

  lemma AddRequestOk(p: Pending, r: DelegationRequest)
    requires PendingOk(p) && r.collator !in p.requests
    ensures PendingOk(AddRequest(p, r))
  {
    var q := p.requests[r.collator := r];
    var one: nat := if r.action.Revoke? then 1 else 0;
    assert Amounts(q) == Amounts(p.requests)[r.collator := r.amount];
    assert Revocations(q) == Revocations(p.requests)[r.collator := one];
    Sums.Update(Amounts(p.requests), r.collator, r.amount);
    Sums.Update(Revocations(p.requests), r.collator, one);
  }

  /** The saturating subtractions are exact: the totals cover every pending request. */
  lemma DropRequestOk(p: Pending, c: Account)
    requires PendingOk(p)
    ensures PendingOk(DropRequest(p, c))
    ensures c in p.requests ==>
              && p.requests[c].amount <= p.lessTotal
              && (p.requests[c].action.Revoke? ==> p.revocationsCount >= 1)
  {
    if c in p.requests {
      assert Amounts(p.requests - {c}) == Amounts(p.requests) - {c};
      assert Revocations(p.requests - {c}) == Revocations(p.requests) - {c};
      Sums.TakeOut(Amounts(p.requests), c);
      Sums.TakeOut(Revocations(p.requests), c);
    }
  }

  /** What is pending never exceeds what is staked. */
  lemma {:induction false} PendingWithinTotal(delegations: seq<Bond>, m: map<Account, nat>)
    requires ByOwner(delegations)
    requires forall c :: c in m ==> Count(delegations, c) == 1 && m[c] <= StakeOf(delegations, c)
    ensures Sums.SumMap(m) <= Sum(delegations)
  {
    if delegations == [] {
      assert forall c :: c !in m by {
        forall c
          ensures c !in m
        {
          assert Count(delegations, c) == 0;
        }
      }
      assert m == map[];
    } else {
      var c := Last(delegations).owner;
      NoneOf(DropLast(delegations), c);
      StakeBounds(DropLast(delegations), c);
      PendingWithinTotal(DropLast(delegations), m - {c});
      Sums.Remove(m, c);
    }
  }

  lemma LessTotalWithinTotal(d: Delegator, id: Account)
    requires Ok(d, id)
    ensures d.requests.lessTotal <= d.total
  {
    PendingWithinTotal(d.delegations, Amounts(d.requests.requests));
  }

  lemma NewOk(id: Account, c: Account, amount: Balance)
    requires amount >= MIN_DELEGATION
    ensures Ok(New(id, c, amount), id) && RevokesCurrent(New(id, c, amount))
    ensures forall x :: Stake(New(id, c, amount), x) == if x == c then amount else 0
  {
    var d := New(id, c, amount);
    assert Amounts(d.requests.requests) == map[] && Revocations(d.requests.requests) == map[];
    SnocMeasures([], Bond(c, amount));
    assert d.delegations == [] + [Bond(c, amount)];
    forall x
      ensures Stake(d, x) == if x == c then amount else 0
    {
      assert StakeOf([], x) == 0;
    }
  }

  lemma DropOk(d: Delegator, id: Account, c: Account)
    requires Ok(d, id) && Count(d.delegations, c) == 1 && |d.delegations| > 1
    ensures Ok(Drop(d, c), id)
  {
    WithoutMeasures(d.delegations, c);
    WithoutBounds(d.delegations, c, MIN_DELEGATION);
    WithoutKeepsOrder(d.delegations, c);
    StakeBounds(d.delegations, c);
    DropRequestOk(d.requests, c);
  }

  lemma AddOk(d: Delegator, id: Account, c: Account, amount: Balance)
    requires Ok(d, id) && Count(d.delegations, c) == 0 && amount >= MIN_DELEGATION
    requires |d.delegations| < MAX_DELEGATIONS_PER_DELEGATOR
    ensures Ok(Add(d, c, amount), id)
  {
    PutMeasures(d.delegations, Bond(c, amount));
    PutBounds(d.delegations, Bond(c, amount), MIN_DELEGATION);
    PutKeepsOrder(d.delegations, Bond(c, amount));
  }

  lemma RaiseOk(d: Delegator, id: Account, c: Account, more: Balance)
    requires Ok(d, id) && Count(d.delegations, c) == 1
    ensures Ok(Raise(d, c, more), id)
  {
    ShiftMeasures(d.delegations, c, more);
    CountPositive(d.delegations, c, MIN_DELEGATION);
    ShiftBounds(d.delegations, c, more, MIN_DELEGATION);
    ShiftKeepsOrder(d.delegations, c, more);
  }

  lemma LowerOk(d: Delegator, id: Account, c: Account)
    requires Ok(d, id) && c in d.requests.requests && d.requests.requests[c].action.Decrease?
    ensures Ok(Lower(d, c, d.requests.requests[c].amount), id)
  {
    var less: int := d.requests.requests[c].amount;
    ShiftMeasures(d.delegations, c, 0 - less);
    ShiftBounds(d.delegations, c, 0 - less, MIN_DELEGATION);
    ShiftKeepsOrder(d.delegations, c, 0 - less);
    StakeBounds(d.delegations, c);
    DropRequestOk(d.requests, c);
  }

  lemma AddRequestKeepsOk(d: Delegator, id: Account, r: DelegationRequest)
    requires Ok(d, id) && r.collator !in d.requests.requests
    requires Count(d.delegations, r.collator) == 1 && RequestFits(r, r.collator, Stake(d, r.collator))
    ensures Ok(d.(requests := AddRequest(d.requests, r)), id)
  {
    AddRequestOk(d.requests, r);
  }

  lemma DropRequestKeepsOk(d: Delegator, id: Account, c: Account)
    requires Ok(d, id)
    ensures Ok(d.(requests := DropRequest(d.requests, c)), id)
  {
    DropRequestOk(d.requests, c);
  }
}

/** The pallet's storage items for staking, and the currency it holds. Storage keeps encoded values:
    reading one gives a copy, and a change counts only once it is written back. */
module Storages {
  import opened Bonds
  import opened OrderedSets
  import opened DelegationLists
  import opened Ledgers

  class Storage {
    var round: nat
    var candidateInfo: map<Account, Metadata>
    var topDelegations: map<Account, DelegationData>
    var bottomDelegations: map<Account, DelegationData>
    var delegatorState: map<Account, Delegator>
    var candidatePool: seq<Bond>
    var total: Balance
    var reserved: map<Account, Balance>
    var free: map<Account, Balance>

    /** Everything stored, as one value. */
    ghost function View(): Ledger
      reads this
    {
      Ledger(round, candidateInfo, topDelegations, bottomDelegations, delegatorState, candidatePool, total, reserved,
             free)
    }

    /** Nothing staked. */
    constructor (round: nat, free: map<Account, Balance>)
      ensures View() == Ledger(round, map[], map[], map[], map[], [], 0, map[], free)
    {
      this.round, this.free := round, free;
      candidateInfo, topDelegations, bottomDelegations, delegatorState := map[], map[], map[], map[];
      candidatePool, total, reserved := [], 0, map[];
    }

    method ReserveCurrency(a: Account, v: Balance) returns (ok: bool)
      modifies this`reserved, this`free
      ensures ok <==> CanReserve(old(View()), a, v)
      ensures View() == if ok then Reserve(old(View()), a, v) else old(View())
    {
      ok := v == 0 || Get(free, a) >= v;
      if ok {
        free := free[a := SatSub(Get(free, a), v)];
        reserved := reserved[a := Get(reserved, a) + v];
      }
    }

    method UnreserveCurrency(a: Account, v: Balance)
      modifies this`reserved, this`free
      ensures View() == Unreserve(old(View()), a, v)
    {
      var released := Min(v, Get(reserved, a));
      free := free[a := Get(free, a) + released];
      reserved := reserved[a := Get(reserved, a) - released];
    }

    /** Replaces `candidate`'s pool entry. */
    method UpdateActiveCandidate(candidate: Account, total: Balance)
      requires ByOwner(candidatePool)
      modifies this`candidatePool
      ensures candidatePool == UpdateActive(old(candidatePool), candidate, total)
    {
      var candidates := new OrderedSet.FromSortedSet(candidatePool);
      WithoutMeasures(candidatePool, candidate);
      var removed := candidates.Remove(candidate);
      var inserted := candidates.Insert(Bond(candidate, total));
      candidatePool := candidates.items;
    }
  }
}

/** The calls and the migration that repair records written by earlier releases: recomputed totals
    and pool values, and requests whose delegation is gone. For each, what it repairs, that it leaves
    sound records alone, and exactly when the result is sound. */
module Repairs {
  import opened Bonds
  import opened OrderedSets
  import opened DelegationLists
  import opened Ledgers
  import opened Storages
  import opened DelegatorStates
  import opened SplitMigration
  import Queues
  import Candidates
  import Delegators
  import Sums

  // ----- the pool -----

  /** The pool entries of these candidates re-entered with their counted totals. */
  function Refresh(pool: seq<Bond>, info: map<Account, Metadata>, order: seq<Account>): seq<Bond> {
    if order == [] then pool
    else
      var r := Refresh(pool, info, order[..|order| - 1]);
      var c := order[|order| - 1];
      if c in info then UpdateActive(r, c, info[c].totalCounted) else r
  }

  function ActiveAmong(info: map<Account, Metadata>, order: seq<Account>): seq<Account> {
    if order == [] then []
    else
      var c := order[|order| - 1];
      ActiveAmong(info, order[..|order| - 1]) + if c in info && info[c].status.Active? then [c] else []
  }

  lemma {:induction false} RefreshMeasures(pool: seq<Bond>, info: map<Account, Metadata>, order: seq<Account>)
    requires ByOwner(pool)
    ensures ByOwner(Refresh(pool, info, order))
    ensures forall a :: Count(Refresh(pool, info, order), a) == if a in order && a in info then 1 else Count(pool, a)
    ensures forall a :: StakeOf(Refresh(pool, info, order), a)
                        == if a in order && a in info then info[a].totalCounted else StakeOf(pool, a)
  {
    if order != [] {
      hide UpdateActive;
      var init := order[..|order| - 1];
      var c := order[|order| - 1];
      RefreshMeasures(pool, info, init);
      assert forall a :: a in order <==> a in init || a == c by {
        assert order == init + [c];
      }
      if c in info {
        UpdateActiveMeasures(Refresh(pool, info, init), c, info[c].totalCounted);
      }
    }
  }

  lemma {:induction false} ActiveAre(info: map<Account, Metadata>, order: seq<Account>, a: Account)
    ensures a in ActiveAmong(info, order) <==> a in order && a in info && info[a].status.Active?
  {
    if order != [] {
      ActiveAre(info, order[..|order| - 1], a);
      assert order == order[..|order| - 1] + [order[|order| - 1]];
    }
  }

  /** What the pool has for `a` is what it should have. */
  ghost predicate EntryRight(pool: seq<Bond>, info: map<Account, Metadata>, a: Account) {
    Count(pool, a) == PoolCount(info, a) && StakeOf(pool, a) == PoolStake(info, a)
  }

  /** `hotfix_update_candidate_pool_value` does not look at the status of a candidate. The resulting pool
      is right if and only if every candidate listed is active and every entry that was wrong is that of
      a candidate listed. */
  lemma HotfixPoolIff(pool: seq<Bond>, info: map<Account, Metadata>, candidates: seq<Account>)
    requires ByOwner(pool)
    ensures PoolOk(Refresh(pool, info, candidates), info) <==>
              && (forall c :: c in candidates && c in info ==> info[c].status.Active?)
              && (forall a :: (a in candidates && a in info) || EntryRight(pool, info, a))
  {
    hide Refresh;
    var r := Refresh(pool, info, candidates);
    RefreshMeasures(pool, info, candidates);
    if PoolOk(r, info) {
      forall c | c in candidates && c in info
        ensures info[c].status.Active?
      {
        assert Count(r, c) == PoolCount(info, c);
      }
      forall a
        ensures (a in candidates && a in info) || EntryRight(pool, info, a)
      {
        assert Count(r, a) == PoolCount(info, a) && StakeOf(r, a) == PoolStake(info, a);
      }
    }
    if (forall c :: c in candidates && c in info ==> info[c].status.Active?)
       && (forall a :: (a in candidates && a in info) || EntryRight(pool, info, a)) {
      forall a
        ensures Count(r, a) == PoolCount(info, a) && StakeOf(r, a) == PoolStake(info, a)
      {
        assert (a in candidates && a in info) || EntryRight(pool, info, a);
      }
    }
  }

  // ----- recomputed totals -----

  function FixDelegations(data: DelegationData): DelegationData {
    DelegationData(data.delegations, Sum(data.delegations))
  }

  function FixLists(lists: map<Account, DelegationData>): map<Account, DelegationData> {
    map c | c in lists :: FixDelegations(lists[c])
  }

  function FixInfo(info: map<Account, Metadata>, top: map<Account, DelegationData>): map<Account, Metadata> {
    map c | c in info :: if c in top then info[c].(totalCounted := info[c].bond + Sum(top[c].delegations)) else info[c]
  }

  /** All totals recomputed, the stored top lists visited in this order. */
  function Patch(s: Ledger, order: seq<Account>): Ledger {
    var info := FixInfo(s.info, s.top);
    s.(info := info, top := FixLists(s.top), bottom := FixLists(s.bottom),
       pool := Refresh(s.pool, info, ActiveAmong(info, order)))
  }

  ghost predicate Visits(order: seq<Account>, top: map<Account, DelegationData>) {
    forall c :: c in order <==> c in top
  }

  /** What the patch needs: candidates have both lists, and the pool is a set. */
  ghost predicate Patchable(s: Ledger) {
    s.info.Keys == s.top.Keys == s.bottom.Keys && ByOwner(s.pool)
  }

  /** Every cache but the totals agrees with the lists. */
  ghost predicate OkButTotals(c: Candidate) {
    && c.info == Candidates.Recomputed(c.info.bond, c.info.request, c.info.status, Candidates.QueueOf(c)).(
                   totalCounted := c.info.totalCounted)
    && Candidates.BondOk(c.info)
    && Queues.Ok(Candidates.QueueOf(c))
  }

  /** `r` is `pool` with the entries of the active candidates, and no others, brought up to date. */
  ghost predicate Refreshed(r: seq<Bond>, pool: seq<Bond>, info: map<Account, Metadata>,
      top: map<Account, DelegationData>)
    requires info.Keys <= top.Keys
  {
    && ByOwner(r)
    && (forall a :: Count(r, a) == if PoolCount(info, a) == 1 then 1 else Count(pool, a))
    && (forall a :: StakeOf(r, a) ==
                    if PoolCount(info, a) == 1 then info[a].bond + Sum(top[a].delegations) else StakeOf(pool, a))
  }

  lemma PatchedPool(s: Ledger, order: seq<Account>)
    requires Patchable(s) && Visits(order, s.top)
    ensures Refreshed(Patch(s, order).pool, s.pool, s.info, s.top)
  {
    hide Refresh, ActiveAmong, Sum;
    var info := FixInfo(s.info, s.top);
    RefreshMeasures(s.pool, info, ActiveAmong(info, order));
    forall a
      ensures a in ActiveAmong(info, order) <==> PoolCount(s.info, a) == 1
    {
      ActiveAre(info, order, a);
    }
  }

  lemma RefreshedUnique(p: seq<Bond>, q: seq<Bond>, pool: seq<Bond>, info: map<Account, Metadata>,
      top: map<Account, DelegationData>)
    requires info.Keys <= top.Keys && Refreshed(p, pool, info, top) && Refreshed(q, pool, info, top)
    ensures p == q
  {
    hide Sum, ByOwner;
    SetExtensional(p, q);
  }

  ghost predicate SameLists(lists: map<Account, DelegationData>, after: map<Account, DelegationData>) {
    after.Keys == lists.Keys && forall c :: c in lists ==> after[c].delegations == lists[c].delegations
  }

  /** Nothing but totals and the pool differs. */
  ghost predicate OnlyTotals(s: Ledger, r: Ledger) {
    && SameLists(s.top, r.top) && SameLists(s.bottom, r.bottom) && r.info.Keys == s.info.Keys
    && (forall c :: c in s.info ==> r.info[c].(totalCounted := s.info[c].totalCounted) == s.info[c])
    && r == s.(info := r.info, top := r.top, bottom := r.bottom, pool := r.pool)
  }

  /** From arbitrary totals: every list's total becomes its sum and every counted total the bond and
      the top sum; a candidate is then sound if and only if everything but its totals was. The pool is
      sound if and only if it had no member that is not an active candidate: missing members are
      added, stale ones stay. */
  lemma PatchTheorem(s: Ledger, order: seq<Account>)
    requires Patchable(s) && Visits(order, s.top)
    ensures var r := Patch(s, order);
            && (forall c :: c in r.top ==> r.top[c].total == Sum(r.top[c].delegations))
            && NoDrift(r)
            && (forall c :: c in r.info ==> r.info[c].totalCounted == r.info[c].bond + Sum(r.top[c].delegations))
            && (BooksOk(r) <==> forall c :: c in s.info ==> OkButTotals(CandidateAt(s, c)))
            && (PoolOk(r.pool, r.info) <==> forall a :: Count(s.pool, a) > 0 ==> PoolCount(s.info, a) == 1)
            && OnlyTotals(s, r) && Refreshed(r.pool, s.pool, s.info, s.top)
  {
    hide Refresh, ActiveAmong, OnlyTotals, Refreshed;
    var r := Patch(s, order);
    PatchedPool(s, order);
    PatchedTotals(s, order);
    PatchedBooks(s, order);
    PatchedPoolIff(s, order);
  }

  lemma PatchedTotals(s: Ledger, order: seq<Account>)
    ensures OnlyTotals(s, Patch(s, order))
  {
    hide Refresh, ActiveAmong;
  }

  lemma FixedIsOk(c: Candidate)
    ensures var fixed := Candidates.Candidate(c.info.(totalCounted := c.info.bond + Sum(c.top.delegations)),
                                              FixDelegations(c.top), FixDelegations(c.bottom));
            Candidates.Ok(fixed) <==> OkButTotals(c)
  {
    hide Sum, Queues.Ok;
  }

  lemma PatchedBooks(s: Ledger, order: seq<Account>)
    requires Patchable(s)
    ensures BooksOk(Patch(s, order)) <==> forall c :: c in s.info ==> OkButTotals(CandidateAt(s, c))
  {
    hide Refresh, ActiveAmong, Sum, Candidates.Ok, OkButTotals, ByOwner;
    var r := Patch(s, order);
    forall c | c in s.info
      ensures Candidates.Ok(CandidateAt(r, c)) <==> OkButTotals(CandidateAt(s, c))
    {
      FixedIsOk(CandidateAt(s, c));
    }
    if BooksOk(r) {
      forall c | c in s.info
        ensures OkButTotals(CandidateAt(s, c))
      {
        assert c in r.info && Candidates.Ok(CandidateAt(r, c));
      }
    }
  }

  lemma PatchedPoolIff(s: Ledger, order: seq<Account>)
    requires Patchable(s) && Visits(order, s.top)
    ensures var r := Patch(s, order);
            PoolOk(r.pool, r.info) <==> forall a :: Count(s.pool, a) > 0 ==> PoolCount(s.info, a) == 1
  {
    hide Refresh, ActiveAmong, Sum, Refreshed, FixInfo, FixLists;
    PatchedPool(s, order);
    RefreshedIff(Patch(s, order).pool, s.pool, s.info, s.top);
  }

  lemma RefreshedIff(r: seq<Bond>, pool: seq<Bond>, info: map<Account, Metadata>, top: map<Account, DelegationData>)
    requires info.Keys <= top.Keys && Refreshed(r, pool, info, top)
    ensures PoolOk(r, FixInfo(info, top)) <==> forall a :: Count(pool, a) > 0 ==> PoolCount(info, a) == 1
  {
    hide Sum, ByOwner;
    var after := FixInfo(info, top);
    if PoolOk(r, after) {
      forall a | Count(pool, a) > 0
        ensures PoolCount(info, a) == 1
      {
        assert Count(r, a) == PoolCount(after, a);
      }
    }
    if forall a :: Count(pool, a) > 0 ==> PoolCount(info, a) == 1 {
      forall a
        ensures Count(r, a) == PoolCount(after, a) && StakeOf(r, a) == PoolStake(after, a)
      {
        StakeBounds(pool, a);
      }
    }
  }

  lemma FixedTwice(info: map<Account, Metadata>, top: map<Account, DelegationData>)
    ensures FixLists(FixLists(top)) == FixLists(top)
    ensures FixInfo(FixInfo(info, top), FixLists(top)) == FixInfo(info, top)
  {
    hide Sum;
  }

  /** Refreshing again, from the recomputed records, is the same as refreshing once. */
  lemma RefreshedAgain(t: seq<Bond>, r: seq<Bond>, pool: seq<Bond>, info: map<Account, Metadata>,
      top: map<Account, DelegationData>)
    requires info.Keys <= top.Keys && Refreshed(r, pool, info, top)
             && Refreshed(t, r, FixInfo(info, top), FixLists(top))
    ensures t == r
  {
    hide Sum, ByOwner;
    var after := FixInfo(info, top);
    forall a
      ensures Count(t, a) == Count(r, a) && StakeOf(t, a) == StakeOf(r, a)
    {
      assert PoolCount(after, a) == PoolCount(info, a);
    }
    SetExtensional(t, r);
  }

  /** The patch is idempotent, and the order of the visits does not matter, the second time nor the
      first. */
  lemma PatchIdempotent(s: Ledger, order: seq<Account>, again: seq<Account>)
    requires Patchable(s) && Visits(order, s.top) && Visits(again, s.top)
    ensures Patch(Patch(s, order), again) == Patch(s, order)
    ensures Patch(s, again) == Patch(s, order)
  {
    hide Refresh, ActiveAmong, Sum, ByOwner, Refreshed, FixLists, FixInfo;
    var r := Patch(s, order);
    PatchedPool(s, order);
    PatchedPool(s, again);
    RefreshedUnique(Patch(s, again).pool, r.pool, s.pool, s.info, s.top);
    FixedTwice(s.info, s.top);
    FixedTwice(s.info, s.bottom);
    PatchedPatchable(s, order);
    PatchedPool(r, again);
    RefreshedAgain(Patch(r, again).pool, r.pool, s.pool, s.info, s.top);
  }

  lemma PatchedPatchable(s: Ledger, order: seq<Account>)
    requires Patchable(s) && Visits(order, s.top)
    ensures Patchable(Patch(s, order)) && Patch(s, order).top.Keys == s.top.Keys
  {
    hide Refresh, ActiveAmong, Sum;
    PatchedPool(s, order);
  }

  /** On a consistent ledger the patch changes nothing but drifted bottom totals. */
  lemma PatchOfConsistent(s: Ledger, order: seq<Account>)
    requires Consistent(s) && Visits(order, s.top)
    ensures Patch(s, order) == s.(bottom := FixLists(s.bottom))
    ensures Patch(s, order) == s <==> NoDrift(s)
  {
    hide Refresh, ActiveAmong, Consistent, Refreshed, Patchable, FixLists, FixInfo, NoDrift;
    ConsistentTotals(s);
    PatchedPool(s, order);
    ConsistentPool(s, Patch(s, order).pool);
    FixedIffNoDrift(s);
  }

  lemma ConsistentPool(s: Ledger, r: seq<Bond>)
    requires Consistent(s) && Patchable(s) && Refreshed(r, s.pool, s.info, s.top)
    ensures r == s.pool
  {
    hide Linked, DelegatorsOk, Covered, OneRole, Sum, BooksAgree, ByOwner, FixInfo, FixLists;
    ConsistentTotals(s);
    forall a
      ensures Count(r, a) == Count(s.pool, a) && StakeOf(r, a) == StakeOf(s.pool, a)
    {
      assert Count(s.pool, a) == PoolCount(s.info, a) && StakeOf(s.pool, a) == PoolStake(s.info, a);
    }
    SetExtensional(r, s.pool);
  }

  lemma FixedIffNoDrift(s: Ledger)
    ensures FixLists(s.bottom) == s.bottom <==> NoDrift(s)
  {
    hide Sum;
    if FixLists(s.bottom) == s.bottom {
      forall c | c in s.bottom
        ensures s.bottom[c].total == Sum(s.bottom[c].delegations)
      {
        assert FixLists(s.bottom)[c] == s.bottom[c];
      }
    }
  }

  lemma ConsistentTotals(s: Ledger)
    requires Consistent(s)
    ensures Patchable(s)
    ensures forall c :: c in s.info ==> s.info[c].totalCounted == s.info[c].bond + Sum(s.top[c].delegations)
    ensures FixInfo(s.info, s.top) == s.info && FixLists(s.top) == s.top
  {
    hide Linked, DelegatorsOk, Covered, OneRole, Sum, FixInfo, FixLists, Candidates.Ok, ByOwner;
    forall c | c in s.info
      ensures s.info[c].totalCounted == s.info[c].bond + Sum(s.top[c].delegations)
              && FixDelegations(s.top[c]) == s.top[c]
    {
      OkTotals(CandidateAt(s, c));
    }
    FixesNothing(s.info, s.top);
  }

  lemma OkTotals(c: Candidate)
    requires Candidates.Ok(c)
    ensures c.info.totalCounted == c.info.bond + Sum(c.top.delegations) && FixDelegations(c.top) == c.top
  {
    hide Sum;
  }

  lemma FixesNothing(info: map<Account, Metadata>, top: map<Account, DelegationData>)
    requires info.Keys == top.Keys
    requires forall c :: c in info ==> info[c].totalCounted == info[c].bond + Sum(top[c].delegations)
    requires forall c :: c in top ==> FixDelegations(top[c]) == top[c]
    ensures FixInfo(info, top) == info && FixLists(top) == top
  {
    hide Sum;
  }

  // ----- requests without a delegation -----

  /** The requests of `d` on candidates it does not delegate to. */
  function Orphans(d: Delegator): Delegators.Requests {
    map c | c in d.requests.requests && Count(d.delegations, c) == 0 :: d.requests.requests[c]
  }

  /** These requests dropped and taken out of the totals. */
  ghost function DropAll(p: Delegators.Pending, gone: Delegators.Requests): Delegators.Pending {
    Delegators.Pending(SatSub(p.revocationsCount, Sums.SumMap(Delegators.Revocations(gone))), p.requests - gone.Keys,
                       SatSub(p.lessTotal, Sums.SumMap(Delegators.Amounts(gone))))
  }

  ghost function RemoveOrphans(d: Delegator): Delegator {
    d.(requests := DropAll(d.requests, Orphans(d)))
  }

  ghost function RemoveRequests(delegators: map<Account, Delegator>, listed: seq<Account>): map<Account, Delegator> {
    map d | d in delegators :: if d in listed then RemoveOrphans(delegators[d]) else delegators[d]
  }

  lemma DropNone(p: Delegators.Pending)
    ensures DropAll(p, map[]) == p
  {
    assert Delegators.Amounts(map[]) == map[] && Delegators.Revocations(map[]) == map[];
    var none: set<Account> := {};
    assert p.requests - none == p.requests;
  }

  /** One more, in any order. */
  lemma DropOneMore(p: Delegators.Pending, gone: Delegators.Requests, c: Account)
    requires c in p.requests && c !in gone && gone.Keys <= p.requests.Keys
    ensures DropAll(p, gone[c := p.requests[c]]) == Delegators.DropRequest(DropAll(p, gone), c)
  {
    hide Sums.SumMap;
    var more := gone[c := p.requests[c]];
    var one: nat := if p.requests[c].action.Revoke? then 1 else 0;
    assert Delegators.Amounts(more) == Delegators.Amounts(gone)[c := p.requests[c].amount];
    assert Delegators.Revocations(more) == Delegators.Revocations(gone)[c := one];
    Sums.Update(Delegators.Amounts(gone), c, p.requests[c].amount);
    Sums.Update(Delegators.Revocations(gone), c, one);
    assert p.requests - more.Keys == p.requests - gone.Keys - {c};
  }

  lemma {:induction false} DropAllOk(p: Delegators.Pending, gone: Delegators.Requests)
    requires Delegators.PendingOk(p) && forall c :: c in gone ==> c in p.requests && gone[c] == p.requests[c]
    ensures Delegators.PendingOk(DropAll(p, gone))
    decreases |gone|
  {
    hide Delegators.PendingOk, Delegators.DropRequest, DropAll;
    if gone == map[] {
      DropNone(p);
    } else {
      var c :| c in gone;
      var fewer := gone - {c};
      DropAllOk(p, fewer);
      assert fewer[c := p.requests[c]] == gone;
      DropOneMore(p, fewer, c);
      Delegators.DropRequestOk(DropAll(p, fewer), c);
    }
  }

  /** The repaired record meets the whole invariant of a delegator, and a sound record is left as it
      is. */
  lemma RemoveOrphansOk(d: Delegator, id: Account)
    requires RecordOk(d, id)
    ensures Delegators.Ok(RemoveOrphans(d), id)
    ensures Delegators.Ok(d, id) ==> RemoveOrphans(d) == d
  {
    hide Delegators.PendingOk, Sums.SumMap;
    DropAllOk(d.requests, Orphans(d));
    RecordIsOk(RemoveOrphans(d), id);
    RecordIsOk(d, id);
    DropNone(d.requests);
    if Delegators.Ok(d, id) {
      assert Orphans(d) == map[];
    }
  }

  lemma RemoveOrphansTwice(d: Delegator)
    ensures RemoveOrphans(RemoveOrphans(d)) == RemoveOrphans(d)
  {
    hide DropAll;
    OrphansGone(d);
    DropNone(RemoveOrphans(d).requests);
  }

  lemma OrphansGone(d: Delegator)
    ensures Orphans(RemoveOrphans(d)) == map[]
  {
    hide Sums.SumMap;
  }

  /** On a consistent ledger `hotfix_remove_delegation_requests` changes nothing. */
  lemma RemoveRequestsOfConsistent(delegators: map<Account, Delegator>, listed: seq<Account>)
    requires DelegatorsOk(delegators)
    ensures RemoveRequests(delegators, listed) == delegators
  {
    hide RemoveOrphans, Delegators.Ok, RecordOk;
    forall d | d in delegators
      ensures RemoveRequests(delegators, listed)[d] == delegators[d]
    {
      RecordIsOk(delegators[d], d);
      RemoveOrphansOk(delegators[d], d);
    }
  }

  /** After the split migration, or any other history that left only orphaned requests behind, the
      hotfix restores consistency if and only if every delegator with an orphaned request is listed. */
  lemma HotfixRequestsIff(s: Ledger, listed: seq<Account>)
    requires Tied(s) && BooksOk(s)
    ensures var r := s.(delegators := RemoveRequests(s.delegators, listed));
            && Tied(r)
            && (Consistent(r) <==> forall d, c :: Orphan(s.delegators, d, c) ==> d in listed)
  {
    hide BooksOk, Tied, Consistent, Orphan, RemoveRequests;
    var r := s.(delegators := RemoveRequests(s.delegators, listed));
    RemovedTied(s, listed);
    TiedConsistent(r);
    forall d, c
      ensures Orphan(r.delegators, d, c) <==> Orphan(s.delegators, d, c) && d !in listed
    {
      OrphanAfter(s.delegators, listed, d, c);
    }
  }

  lemma OrphanAfter(delegators: map<Account, Delegator>, listed: seq<Account>, d: Account, c: Account)
    ensures Orphan(RemoveRequests(delegators, listed), d, c) <==> Orphan(delegators, d, c) && d !in listed
  {
    hide Sums.SumMap;
  }

  lemma RemovedTied(s: Ledger, listed: seq<Account>)
    requires Tied(s) && BooksOk(s)
    ensures var r := s.(delegators := RemoveRequests(s.delegators, listed)); Tied(r) && BooksOk(r)
  {
    hide BooksAgree, LooseQueue, PoolOk, Backings, Sums.SumMap, RecordOk, RemoveOrphans;
    var r := s.(delegators := RemoveRequests(s.delegators, listed));
    forall d | d in s.delegators
      ensures RecordOk(r.delegators[d], d)
      ensures r.delegators[d].delegations == s.delegators[d].delegations
              && r.delegators[d].total == s.delegators[d].total
    {
      RemoveOrphansOk(s.delegators[d], d);
      RecordIsOk(RemoveOrphans(s.delegators[d]), d);
      OnlyRequests(s.delegators[d]);
    }
    assert r.delegators.Keys == s.delegators.Keys;
    forall d, c
      ensures Stake(r.delegators, d, c) == Backed(r.top, r.bottom, c, d)
    {
      assert Stake(s.delegators, d, c) == Backed(s.top, s.bottom, c, d);
    }
    forall a
      ensures Get(r.reserved, a) == SelfBond(r.info, a) + Delegated(r.delegators, a)
    {
      assert Get(s.reserved, a) == SelfBond(s.info, a) + Delegated(s.delegators, a);
    }
  }

  /** The hotfix takes away the requests of those listed that are on no delegation, and nothing else. */
  lemma OnlyOrphansGo(delegators: map<Account, Delegator>, listed: seq<Account>)
    ensures var r := RemoveRequests(delegators, listed);
            && r.Keys == delegators.Keys
            && (forall d :: d in delegators ==>
                  r[d].(requests := delegators[d].requests) == delegators[d]
                  && forall c :: c in r[d].requests.requests <==>
                       c in delegators[d].requests.requests
                         && !(d in listed && Count(delegators[d].delegations, c) == 0))
            && (forall d, c :: d in delegators && c in r[d].requests.requests ==>
                  r[d].requests.requests[c] == delegators[d].requests.requests[c])
  {
    hide Sums.SumMap;
  }

  lemma OnlyRequests(d: Delegator)
    ensures RemoveOrphans(d).delegations == d.delegations && RemoveOrphans(d).total == d.total
  {
  }

  // ----- the code -----

  method HotfixUpdateCandidatePoolValue(st: Storage, candidates: seq<Account>)
    requires ByOwner(st.candidatePool)
    modifies st`candidatePool
    ensures st.candidatePool == Refresh(old(st.candidatePool), st.candidateInfo, candidates)
            && ByOwner(st.candidatePool)
  {
    hide UpdateActive;
    ghost var pool := st.candidatePool;
    for i := 0 to |candidates|
      invariant st.candidatePool == Refresh(pool, st.candidateInfo, candidates[..i]) && ByOwner(st.candidatePool)
    {
      var candidate := candidates[i];
      assert candidates[..i + 1][..i] == candidates[..i];
      if candidate in st.candidateInfo {
        UpdateActiveMeasures(st.candidatePool, candidate, st.candidateInfo[candidate].totalCounted);
        st.UpdateActiveCandidate(candidate, st.candidateInfo[candidate].totalCounted);
      }
    }
    assert candidates[..|candidates|] == candidates;
  }

  /** Goes through all requests of one record and removes those without a delegation. */
  method RemoveOrphanedRequests(state: DelegatorState)
    modifies state`requests
    ensures state.Encode() == RemoveOrphans(old(state.Encode()))
  {
    hide DropAll;
    ghost var d := state.Encode();
    var requests := state.requests.requests;
    var rest := requests.Keys;
    ghost var gone: Delegators.Requests := map[];
    DropNone(d.requests);
    while rest != {}
      invariant rest <= requests.Keys
      invariant forall c :: c in gone <==> c in requests && c !in rest && Count(state.delegations, c) == 0
      invariant forall c :: c in gone ==> gone[c] == requests[c]
      invariant state.Encode() == d.(requests := DropAll(d.requests, gone))
      decreases |rest|
    {
      var candidate :| candidate in rest;
      var delegated := Delegates(state.delegations, candidate);
      if !delegated {
        DropOneMore(d.requests, gone, candidate);
        var removed := state.RemoveRequest(candidate);
        gone := gone[candidate := requests[candidate]];
      }
      rest := rest - {candidate};
    }
    assert gone == Orphans(d);
  }

  method Delegates(delegations: seq<Bond>, candidate: Account) returns (found: bool)
    ensures found <==> Count(delegations, candidate) > 0
  {
    for i := 0 to |delegations|
      invariant forall k :: 0 <= k < i ==> delegations[k].owner != candidate
    {
      if delegations[i].owner == candidate {
        EntryCounts(delegations, i);
        return true;
      }
    }
    NoneOf(delegations, candidate);
    return false;
  }

  method HotfixRemoveDelegationRequests(st: Storage, delegators: seq<Account>)
    modifies st`delegatorState
    ensures st.delegatorState == RemoveRequests(old(st.delegatorState), delegators)
  {
    hide RemoveOrphans;
    ghost var before := st.delegatorState;
    for i := 0 to |delegators|
      invariant st.delegatorState == RemoveRequests(before, delegators[..i])
    {
      var delegator := delegators[i];
      assert delegators[..i + 1] == delegators[..i] + [delegator];
      if delegator in st.delegatorState {
        RemoveOrphansTwice(before[delegator]);
        var state := new DelegatorState.Decode(st.delegatorState[delegator]);
        RemoveOrphanedRequests(state);
        st.delegatorState := st.delegatorState[delegator := state.Encode()];
      }
      assert st.delegatorState == RemoveRequests(before, delegators[..i + 1]);
    }
    assert delegators[..|delegators|] == delegators;
  }

  /** One stored top list: its total, its candidate's counted total, and an active one's pool entry. */
  method PatchCandidate(st: Storage, account: Account, data: DelegationData)
    requires account in st.candidateInfo && ByOwner(st.candidatePool)
    modifies st`candidateInfo, st`topDelegations, st`candidatePool
    ensures st.topDelegations == old(st.topDelegations)[account := FixDelegations(data)]
    ensures var m := old(st.candidateInfo)[account]; var fixed := m.(totalCounted := m.bond + Sum(data.delegations));
            && st.candidateInfo == old(st.candidateInfo)[account := fixed]
            && st.candidatePool == if m.status.Active? then
                 UpdateActive(old(st.candidatePool), account, fixed.totalCounted)
                                   else old(st.candidatePool)
    ensures ByOwner(st.candidatePool)
  {
    hide UpdateActive, Sum;
    var total := FoldTotal(data.delegations);
    var candidateInfo := st.candidateInfo[account];
    candidateInfo := candidateInfo.(totalCounted := candidateInfo.bond + total);
    if candidateInfo.status.Active? {
      UpdateActiveMeasures(st.candidatePool, account, candidateInfo.totalCounted);
      st.UpdateActiveCandidate(account, candidateInfo.totalCounted);
    }
    st.candidateInfo := st.candidateInfo[account := candidateInfo];
    st.topDelegations := st.topDelegations[account := DelegationData(data.delegations, total)];
  }

  /** All but the lists still to visit are fixed. */
  ghost predicate ListsSoFar(now: map<Account, DelegationData>, stored: map<Account, DelegationData>,
      rest: set<Account>) {
    && now.Keys == stored.Keys
    && forall c :: c in stored ==> now[c] == if c in rest then stored[c] else FixDelegations(stored[c])
  }

  ghost predicate InfoSoFar(now: map<Account, Metadata>, info: map<Account, Metadata>, fixed: map<Account, Metadata>,
      rest: set<Account>) {
    && now.Keys == info.Keys == fixed.Keys
    && forall c :: c in info ==> now[c] == if c in rest then info[c] else fixed[c]
  }

  lemma OneMoreList(now: map<Account, DelegationData>, stored: map<Account, DelegationData>, rest: set<Account>,
      c: Account)
    requires ListsSoFar(now, stored, rest) && c in rest && c in stored
    ensures ListsSoFar(now[c := FixDelegations(stored[c])], stored, rest - {c})
  {
    hide FixDelegations;
  }

  lemma OneMoreInfo(now: map<Account, Metadata>, info: map<Account, Metadata>, fixed: map<Account, Metadata>,
      rest: set<Account>, c: Account)
    requires InfoSoFar(now, info, fixed, rest) && c in rest && c in info
    ensures now[c] == info[c] && InfoSoFar(now[c := fixed[c]], info, fixed, rest - {c})
  {
  }

  lemma AllVisited(now: map<Account, DelegationData>, stored: map<Account, DelegationData>)
    requires ListsSoFar(now, stored, {})
    ensures now == FixLists(stored)
  {
    hide FixDelegations;
  }

  lemma AllInfo(now: map<Account, Metadata>, info: map<Account, Metadata>, fixed: map<Account, Metadata>)
    requires InfoSoFar(now, info, fixed, {})
    ensures now == fixed
  {
  }

  lemma VisitsStartLists(stored: map<Account, DelegationData>)
    ensures ListsSoFar(stored, stored, stored.Keys)
  {
    hide FixDelegations;
  }

  lemma VisitsStart(info: map<Account, Metadata>, stored: map<Account, DelegationData>)
    requires stored.Keys <= info.Keys
    ensures InfoSoFar(info, info, FixInfo(info, stored), stored.Keys)
  {
    hide Sum;
  }

  lemma FixedAt(info: map<Account, Metadata>, stored: map<Account, DelegationData>, c: Account)
    requires c in info && c in stored
    ensures c in FixInfo(info, stored)
    ensures FixInfo(info, stored)[c] == info[c].(totalCounted := info[c].bond + Sum(stored[c].delegations))
  {
  }

  /** Where the patch stands: these storage items, with `rest` still to visit. */
  ghost predicate Patching(top: map<Account, DelegationData>, info: map<Account, Metadata>, pool: seq<Bond>,
                           before: Ledger, rest: set<Account>, order: seq<Account>)
  {
    var fixed := FixInfo(before.info, before.top);
    && rest <= before.top.Keys && (forall c :: c in order <==> c in before.top && c !in rest)
    && ListsSoFar(top, before.top, rest) && InfoSoFar(info, before.info, fixed, rest)
    && ByOwner(pool) && pool == Refresh(before.pool, fixed, ActiveAmong(fixed, order))
  }

  lemma PatchingStart(before: Ledger)
    requires before.top.Keys <= before.info.Keys && ByOwner(before.pool)
    ensures Patching(before.top, before.info, before.pool, before, before.top.Keys, [])
  {
    hide ListsSoFar, InfoSoFar, FixInfo, Refresh, ActiveAmong;
    VisitsStart(before.info, before.top);
    VisitsStartLists(before.top);
    NothingRefreshed(before.pool, FixInfo(before.info, before.top));
  }

  lemma PatchingAt(top: map<Account, DelegationData>, info: map<Account, Metadata>, pool: seq<Bond>,
                   before: Ledger, rest: set<Account>, order: seq<Account>, c: Account)
    requires Patching(top, info, pool, before, rest, order) && before.top.Keys <= before.info.Keys && c in rest
    ensures c in before.top && c in before.info && c in info && info[c] == before.info[c] && ByOwner(pool)
  {
    hide Refresh, ActiveAmong, FixInfo;
  }

  lemma PatchingStep(top: map<Account, DelegationData>, info: map<Account, Metadata>, pool: seq<Bond>,
                     before: Ledger, rest: set<Account>, order: seq<Account>, c: Account, after: seq<Bond>)
    requires Patching(top, info, pool, before, rest, order) && c in rest && c in before.top && c in before.info
             && ByOwner(after)
    requires var m := before.info[c].(totalCounted := before.info[c].bond + Sum(before.top[c].delegations));
             after == if m.status.Active? then UpdateActive(pool, c, m.totalCounted) else pool
    ensures var m := before.info[c].(totalCounted := before.info[c].bond + Sum(before.top[c].delegations));
            Patching(top[c := FixDelegations(before.top[c])], info[c := m], after, before, rest - {c}, order + [c])
  {
    hide ListsSoFar, InfoSoFar, FixInfo, Refresh, ActiveAmong, FixDelegations, UpdateActive, Sum, ByOwner;
    FixedAt(before.info, before.top, c);
    OneMoreList(top, before.top, rest, c);
    OneMoreInfo(info, before.info, FixInfo(before.info, before.top), rest, c);
    RefreshedOne(before.pool, FixInfo(before.info, before.top), order, c);
  }

  lemma PatchingEnd(top: map<Account, DelegationData>, info: map<Account, Metadata>, pool: seq<Bond>,
                    before: Ledger, order: seq<Account>)
    requires Patching(top, info, pool, before, {}, order)
    ensures Visits(order, before.top) && top == FixLists(before.top) && info == FixInfo(before.info, before.top)
    ensures pool == Refresh(before.pool, info, ActiveAmong(info, order))
  {
    hide ListsSoFar, InfoSoFar, FixInfo, FixLists, Refresh, ActiveAmong;
    AllVisited(top, before.top);
    AllInfo(info, before.info, FixInfo(before.info, before.top));
  }

  method PatchTop(st: Storage) returns (order: seq<Account>)
    requires st.topDelegations.Keys <= st.candidateInfo.Keys && ByOwner(st.candidatePool)
    modifies st`candidateInfo, st`topDelegations, st`candidatePool
    ensures Visits(order, old(st.topDelegations))
    ensures st.topDelegations == FixLists(old(st.topDelegations))
    ensures st.candidateInfo == FixInfo(old(st.candidateInfo), old(st.topDelegations))
    ensures st.candidatePool == Refresh(old(st.candidatePool), st.candidateInfo, ActiveAmong(st.candidateInfo, order))
  {
    hide UpdateActive, Sum, Refresh, ActiveAmong, Patching, FixInfo, FixLists, FixDelegations, ByOwner, Visits;
    ghost var before := st.View();
    var stored := st.topDelegations;
    var rest := stored.Keys;
    order := [];
    PatchingStart(before);
    while rest != {}
      invariant rest <= stored.Keys
      invariant Patching(st.topDelegations, st.candidateInfo, st.candidatePool, before, rest, order)
      decreases |rest|
    {
      var account :| account in rest;
      ghost var top, info, pool := st.topDelegations, st.candidateInfo, st.candidatePool;
      PatchingAt(top, info, pool, before, rest, order, account);
      PatchCandidate(st, account, stored[account]);
      PatchingStep(top, info, pool, before, rest, order, account, st.candidatePool);
      order := order + [account];
      rest := rest - {account};
    }
    PatchingEnd(st.topDelegations, st.candidateInfo, st.candidatePool, before, order);
  }

  lemma NothingRefreshed(pool: seq<Bond>, info: map<Account, Metadata>)
    ensures Refresh(pool, info, ActiveAmong(info, [])) == pool
  {
  }

  lemma RefreshedOne(pool: seq<Bond>, info: map<Account, Metadata>, order: seq<Account>, c: Account)
    requires c in info
    ensures Refresh(pool, info, ActiveAmong(info, order + [c]))
            == if info[c].status.Active? then
              UpdateActive(Refresh(pool, info, ActiveAmong(info, order)), c, info[c].totalCounted)
               else Refresh(pool, info, ActiveAmong(info, order))
  {
    hide UpdateActive;
    assert (order + [c])[..|order|] == order;
    var active := ActiveAmong(info, order);
    assert (active + [c])[..|active|] == active;
    assert active + [] == active;
  }

  method PatchBottom(st: Storage)
    modifies st`bottomDelegations
    ensures st.bottomDelegations == FixLists(old(st.bottomDelegations))
  {
    hide Sum, ListsSoFar;
    var stored := st.bottomDelegations;
    var rest := stored.Keys;
    VisitsStartLists(stored);
    while rest != {}
      invariant rest <= stored.Keys && ListsSoFar(st.bottomDelegations, stored, rest)
      decreases |rest|
    {
      var account :| account in rest;
      var total := FoldTotal(stored[account].delegations);
      OneMoreList(st.bottomDelegations, stored, rest, account);
      st.bottomDelegations := st.bottomDelegations[account := DelegationData(stored[account].delegations, total)];
      rest := rest - {account};
    }
    AllVisited(st.bottomDelegations, stored);
  }

  /** The migration that recomputes all totals, in whatever order storage is iterated. */
  method PatchIncorrectDelegationSums(st: Storage) returns (order: seq<Account>)
    requires st.topDelegations.Keys <= st.candidateInfo.Keys && ByOwner(st.candidatePool)
    modifies st
    ensures Visits(order, old(st.topDelegations)) && st.View() == Patch(old(st.View()), order)
  {
    order := PatchTop(st);
    PatchBottom(st);
  }
}

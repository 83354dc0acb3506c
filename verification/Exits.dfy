/** The two exits that end many delegations at once: a delegator's and a candidate's. */
module Exits {
  import opened Bonds
  import opened Params
  import opened OrderedSets
  import opened Ledgers
  import opened Transitions
  import opened Calls
  import opened DelegatorCalls
  import Queues
  import Candidates
  import Sums

  // ----- a batch of links -----

  /** Every link is a delegation of the ledger with its whole stake, and none occurs twice. */
  ghost predicate LinksOf(s: Ledger, links: seq<Link>) {
    && (forall i :: 0 <= i < |links| ==>
            0 < links[i].amount == Stake(s.delegators, links[i].delegator, links[i].candidate))
    && (forall i, j :: 0 <= i < j < |links| ==>
          links[i].delegator != links[j].delegator || links[i].candidate != links[j].candidate)
  }

  ghost predicate InLinks(links: seq<Link>, d: Account, c: Account) {
    exists i :: 0 <= i < |links| && links[i].delegator == d && links[i].candidate == c
  }

  ghost predicate StakesWithout(s: Ledger, r: Ledger, links: seq<Link>) {
    forall x, y :: Stake(r.delegators, x, y) == if InLinks(links, x, y) then 0 else Stake(s.delegators, x, y)
  }

  lemma KeepsTransitive(s: Ledger, r: Ledger, t: Ledger)
    requires Keeps(s, r) && Keeps(r, t)
    ensures Keeps(s, t)
  {
  }

  lemma StakesWithoutOne(s: Ledger, r: Ledger, t: Ledger, links: seq<Link>)
    requires links != [] && StakesWithout(s, r, links[..|links| - 1])
    requires var l := links[|links| - 1];
             forall x, y :: Stake(t.delegators, x, y)
                            == if x == l.delegator && y == l.candidate then 0 else Stake(r.delegators, x, y)
    ensures StakesWithout(s, t, links)
  {
    var init := links[..|links| - 1];
    var l := links[|links| - 1];
    forall x, y
      ensures InLinks(links, x, y) <==> InLinks(init, x, y) || (x == l.delegator && y == l.candidate)
    {
      if InLinks(init, x, y) {
        var i :| 0 <= i < |init| && init[i].delegator == x && init[i].candidate == y;
        assert links[i] == init[i];
      }
    }
  }

  /** Severing a batch keeps everything and ends exactly the delegations of the batch. */
  lemma {:induction false} SeverEachKeeps(s: Ledger, links: seq<Link>)
    requires Consistent(s) && LinksOf(s, links)
    ensures Keeps(s, SeverEach(s, links)) && StakesWithout(s, SeverEach(s, links), links)
  {
    hide Consistent, Keeps, Sever, Stake;
    if links == [] {
      KeepsSame(s);
    } else {
      var init := links[..|links| - 1];
      var l := links[|links| - 1];
      SeverEachKeeps(s, init);
      var r := SeverEach(s, init);
      KeepsConsistent(s, r);
      LastLinkRemains(s, r, links);
      SeverKeeps(r, l.delegator, l.candidate, l.amount);
      SeverStakes(r, l.delegator, l.candidate, l.amount);
      KeepsTransitive(s, r, Sever(r, l.delegator, l.candidate, l.amount));
      StakesWithoutOne(s, r, Sever(r, l.delegator, l.candidate, l.amount), links);
    }
  }

  lemma KeepsConsistent(s: Ledger, r: Ledger)
    requires Keeps(s, r)
    ensures Consistent(r)
  {
  }

  lemma LastLinkRemains(s: Ledger, r: Ledger, links: seq<Link>)
    requires links != [] && LinksOf(s, links) && StakesWithout(s, r, links[..|links| - 1])
    ensures var l := links[|links| - 1]; 0 < l.amount == Stake(r.delegators, l.delegator, l.candidate)
  {
    hide Stake;
    var l := links[|links| - 1];
    assert !InLinks(links[..|links| - 1], l.delegator, l.candidate);
  }

  /** What a batch leaves alone: the candidates themselves, apart from their lists. */
  ghost predicate SameCandidates(s: Ledger, r: Ledger) {
    && r.info.Keys == s.info.Keys && r.round == s.round
    && forall c :: c in s.info ==> r.info[c].bond == s.info[c].bond && r.info[c].status == s.info[c].status
                                   && r.info[c].request == s.info[c].request
  }

  lemma {:induction false} SeverEachCandidates(s: Ledger, links: seq<Link>)
    ensures SameCandidates(s, SeverEach(s, links))
  {
    if links != [] {
      var r := SeverEach(s, links[..|links| - 1]);
      var l := links[|links| - 1];
      SeverEachCandidates(s, links[..|links| - 1]);
      if Listed(r, l.candidate) {
        SeverCandidates(r, l.delegator, l.candidate, l.amount);
      }
    }
  }

  lemma SeverCandidates(s: Ledger, d: Account, c: Account, amount: Balance)
    requires Listed(s, c)
    ensures SameCandidates(s, Sever(s, d, c, amount))
  {
    hide Reindex, DropFrom, Queues.Dequeue, ExcessAt;
  }

  function SumLinks(links: seq<Link>): nat {
    if links == [] then 0 else SumLinks(links[..|links| - 1]) + links[|links| - 1].amount
  }

  lemma {:induction false} SeverEachBacking(s: Ledger, links: seq<Link>)
    requires Consistent(s) && LinksOf(s, links)
    ensures TotalBacking(SeverEach(s, links)) == TotalBacking(s) - SumLinks(links)
  {
    hide Consistent, Keeps, Sever, Stake, TotalBacking;
    if links != [] {
      var init := links[..|links| - 1];
      var l := links[|links| - 1];
      SeverEachBacking(s, init);
      SeverEachKeeps(s, init);
      KeepsConsistent(s, SeverEach(s, init));
      LastLinkRemains(s, SeverEach(s, init), links);
      SeverKeeps(SeverEach(s, init), l.delegator, l.candidate, l.amount);
      SeverBacking(SeverEach(s, init), l.delegator, l.candidate, l.amount);
    }
  }

  // ----- a delegator's exit -----

  lemma {:induction false} LinksFromAt(d: Account, entries: seq<Bond>)
    ensures |LinksFrom(d, entries)| == |entries|
    ensures forall i :: 0 <= i < |entries| ==> LinksFrom(d, entries)[i] == Link(d, entries[i].owner, entries[i].amount)
  {
    if entries != [] {
      LinksFromAt(d, DropLast(entries));
    }
  }

  lemma OwnLinks(s: Ledger, d: Account)
    requires Consistent(s) && d in s.delegators
    ensures LinksOf(s, LinksFrom(d, s.delegators[d].delegations))
  {
    hide Consistent;
    RecordIsOk(s, d);
    var del := s.delegators[d].delegations;
    LinksFromAt(d, del);
    forall i | 0 <= i < |del|
      ensures 0 < del[i].amount == Stake(s.delegators, d, del[i].owner)
    {
      EntryCounts(del, i);
      OnePerOwner(del, del[i].owner);
    }
  }

  /** A delegator's exit keeps everything, and no delegation of its remains on either side. */
  lemma ExecuteLeaveDelegatorsKeeps(s: Ledger, d: Account, hint: nat)
    requires Consistent(s)
    ensures Keeps(s, ExecuteLeaveDelegators(s, d, hint).ledger)
    ensures ExecuteLeaveDelegators(s, d, hint).outcome.Success? ==>
              d !in ExecuteLeaveDelegators(s, d, hint).ledger.delegators
  {
    hide Keeps, Consistent, SeverEach;
    KeepsSame(s);
    var r := ExecuteLeaveDelegators(s, d, hint);
    if r.outcome.Success? {
      OwnLinks(s, d);
      SeverEachKeeps(s, LinksFrom(d, s.delegators[d].delegations));
      KeepsConsistent(s, r.ledger);
      NothingLeft(s, r.ledger, d);
    }
  }

  lemma NothingLeft(s: Ledger, r: Ledger, d: Account)
    requires Consistent(r) && d in s.delegators && StakesWithout(s, r, LinksFrom(d, s.delegators[d].delegations))
    requires Consistent(s)
    ensures d !in r.delegators
  {
    if d in r.delegators {
      RecordIsOk(r, d);
      var c := r.delegators[d].delegations[0].owner;
      EntryCounts(r.delegators[d].delegations, 0);
      assert Stake(r.delegators, d, c) > 0;
      StakeFoundInLinks(s, d, c);
      assert false;
    }
  }

  lemma StakeFoundInLinks(s: Ledger, d: Account, c: Account)
    requires d in s.delegators && DelegatorsOk(s.delegators)
    ensures Stake(s.delegators, d, c) > 0 ==> InLinks(LinksFrom(d, s.delegators[d].delegations), d, c)
  {
    var del := s.delegators[d].delegations;
    if Stake(s.delegators, d, c) > 0 {
      PositiveStake(s.delegators, d, c);
      var i := FindEntry(del, c);
      LinksFromAt(d, del);
      assert LinksFrom(d, del)[i].candidate == c;
    }
  }

  // ----- a candidate's exit -----

  lemma {:induction false} LinksToAt(c: Account, entries: seq<Bond>)
    ensures |LinksTo(c, entries)| == |entries|
    ensures forall i :: 0 <= i < |entries| ==> LinksTo(c, entries)[i] == Link(entries[i].owner, c, entries[i].amount)
    ensures SumLinks(LinksTo(c, entries)) == Sum(entries)
  {
    if entries != [] {
      LinksToAt(c, DropLast(entries));
    }
  }

  lemma {:induction false} DistinctOwners(s: seq<Bond>, i: nat, j: nat)
    requires i < j < |s| && Count(s, s[i].owner) <= 1
    ensures s[i].owner != s[j].owner
  {
    if j < |s| - 1 {
      DistinctOwners(DropLast(s), i, j);
    } else {
      EntryCounts(DropLast(s), i);
    }
  }

  lemma EntriesCount(q: Queues.Queue)
    requires Queues.Ok(q)
    ensures forall o :: Count(Queues.Entries(q), o) == Queues.Entered(q, o) <= 1
    ensures forall o :: StakeOf(Queues.Entries(q), o) == Queues.Backed(q, o)
    ensures Sum(Queues.Entries(q)) == Queues.Backing(q)
    ensures AllAtLeast(Queues.Entries(q), MIN_DELEGATION)
  {
    ConcatMeasures(q.top, q.bottom);
  }

  lemma BackedIsQueue(s: Ledger, c: Account, o: Account)
    requires Listed(s, c)
    ensures Candidates.Backed(CandidateAt(s, c), o) == Queues.Backed(QueueAt(s, c), o)
  {
  }

  lemma BackedByStake(s: Ledger, c: Account, o: Account)
    requires Consistent(s) && Listed(s, c)
    ensures Queues.Backed(QueueAt(s, c), o) == Stake(s.delegators, o, c)
  {
    hide BooksOk, DelegatorsOk, PoolOk, Covered, Queues.Backed, Stake;
    BackedAt(s, c, o);
    BackedIsQueue(s, c, o);
    assert Stake(s.delegators, o, c) == Backed(s.top, s.bottom, c, o);
  }

  lemma BackerLinks(s: Ledger, c: Account)
    requires Consistent(s) && Listed(s, c)
    ensures LinksOf(s, LinksTo(c, Queues.Entries(QueueAt(s, c))))
  {
    hide BooksOk, DelegatorsOk, PoolOk, Covered, Queues.Ok, Queues.Entries, Queues.Entered, Queues.Backed;
    var entries := Queues.Entries(QueueAt(s, c));
    QueueIsOk(s, c);
    EntriesCount(QueueAt(s, c));
    LinksToAt(c, entries);
    forall i | 0 <= i < |entries|
      ensures 0 < entries[i].amount == Stake(s.delegators, entries[i].owner, c)
    {
      EntryCounts(entries, i);
      BackedByStake(s, c, entries[i].owner);
    }
    forall i, j | 0 <= i < j < |entries|
      ensures entries[i].owner != entries[j].owner
    {
      DistinctOwners(entries, i, j);
    }
  }

  lemma EmptyQueue(r: Ledger, c: Account)
    requires Consistent(r) && Listed(r, c) && forall x :: Stake(r.delegators, x, c) == 0
    ensures QueueAt(r, c) == Queues.Queue([], [])
  {
    var q := QueueAt(r, c);
    QueueIsOk(r, c);
    if Queues.Entries(q) != [] {
      EntriesCount(q);
      var x := Queues.Entries(q)[0].owner;
      EntryCounts(Queues.Entries(q), 0);
      BackedByStake(r, c, x);
      assert false;
    }
    assert |q.top| == 0 && |q.bottom| == 0;
  }

  /** `c`, with nobody behind it any more and outside the pool, leaves with its bond. */
  ghost predicate Leaves(r: Ledger, t: Ledger, c: Account, bond: Balance) {
    && t.info == r.info - {c} && t.top == r.top - {c} && t.bottom == r.bottom - {c}
    && t.delegators == r.delegators && t.pool == r.pool && HeldMoves(r, t, c, 0 - bond)
  }

  lemma LeavesLinked(r: Ledger, t: Ledger, c: Account, bond: Balance)
    requires Linked(r) && Leaves(r, t, c, bond) && Listed(r, c) && QueueAt(r, c) == Queues.Queue([], [])
    ensures Linked(t)
  {
    hide Stake;
    forall x, y
      ensures Stake(t.delegators, x, y) == Backed(t.top, t.bottom, y, x)
    {
      assert Stake(r.delegators, x, y) == Backed(r.top, r.bottom, y, x);
    }
  }

  lemma LeavesBooks(r: Ledger, t: Ledger, c: Account, bond: Balance)
    requires BooksOk(r) && Leaves(r, t, c, bond)
    ensures BooksOk(t)
  {
    hide Candidates.Ok;
    assert t.info.Keys == r.info.Keys - {c} && t.top.Keys == r.top.Keys - {c} && t.bottom.Keys == r.bottom.Keys - {c};
  }

  lemma LeavesPool(r: Ledger, t: Ledger, c: Account, bond: Balance)
    requires PoolOk(r.pool, r.info) && Leaves(r, t, c, bond) && c in r.info && !r.info[c].status.Active?
    ensures PoolOk(t.pool, t.info)
  {
    forall a
      ensures Count(t.pool, a) == PoolCount(t.info, a) && StakeOf(t.pool, a) == PoolStake(t.info, a)
    {
      assert Count(r.pool, a) == PoolCount(r.info, a) && StakeOf(r.pool, a) == PoolStake(r.info, a);
    }
  }

  lemma LeavesHolds(r: Ledger, t: Ledger, c: Account, bond: Balance)
    requires Leaves(r, t, c, bond) && c in r.info && r.info[c].bond == bond
    ensures Covered(r) ==> Covered(t)
    ensures ReservesExact(r) ==> ReservesExact(t)
  {
  }

  lemma LeavesBacking(r: Ledger, t: Ledger, c: Account, bond: Balance)
    requires Leaves(r, t, c, bond) && Listed(r, c) && r.info[c].bond == bond && QueueAt(r, c) == Queues.Queue([], [])
    ensures TotalBacking(t) == TotalBacking(r) - bond
    ensures NoDrift(r) ==> NoDrift(t)
  {
    var before: map<Account, nat> := Backings(r.info, r.top, r.bottom);
    assert Backings(t.info, t.top, t.bottom) == before - {c};
    assert before[c] == bond;
    Sums.Remove(before, c);
  }

  lemma LeavesConsistent(r: Ledger, t: Ledger, c: Account, bond: Balance)
    requires Consistent(r) && Leaves(r, t, c, bond) && Listed(r, c) && QueueAt(r, c) == Queues.Queue([], [])
    requires r.info[c].bond == bond && !r.info[c].status.Active?
    ensures Consistent(t)
  {
    hide BooksOk, DelegatorsOk, Linked, PoolOk, Covered;
    LeavesLinked(r, t, c, bond);
    LeavesBooks(r, t, c, bond);
    LeavesPool(r, t, c, bond);
    LeavesHolds(r, t, c, bond);
  }

  /** What the exit subtracts from `Total`: the backing, and any drift of the bottom total. */
  lemma ExitAmount(s: Ledger, c: Account)
    requires Consistent(s) && Listed(s, c)
    ensures s.info[c].bond + s.top[c].total + s.bottom[c].total
            == s.info[c].bond + Queues.Backing(QueueAt(s, c)) + ExcessAt(s, c)
    ensures NoDrift(s) ==> ExcessAt(s, c) == 0
    ensures TotalBacking(s) >= s.info[c].bond + Queues.Backing(QueueAt(s, c))
  {
    assert Candidates.Ok(CandidateAt(s, c));
    BackingAfterPut(s, c, CandidateAt(s, c));
  }

  lemma RemovedLeaves(r: Ledger, c: Account, bond: Balance, total: Balance)
    requires Get(r.reserved, c) >= bond
    ensures Leaves(r, RemoveCandidate(r, c, bond, total), c, bond)
    ensures RemoveCandidate(r, c, bond, total).total == total
  {
  }

  lemma HoldsBond(r: Ledger, c: Account)
    requires Consistent(r) && c in r.info
    ensures Get(r.reserved, c) >= r.info[c].bond
  {
    assert Get(r.reserved, c) >= SelfBond(r.info, c) + Delegated(r.delegators, c);
  }

  lemma NoBackersLeft(s: Ledger, r: Ledger, c: Account)
    requires Consistent(s) && Listed(s, c) && StakesWithout(s, r, LinksTo(c, Queues.Entries(QueueAt(s, c))))
    ensures forall x :: Stake(r.delegators, x, c) == 0
  {
    hide BooksOk, DelegatorsOk, PoolOk, Covered, Queues.Ok, Queues.Entries, Queues.Entered, Queues.Backed;
    var entries := Queues.Entries(QueueAt(s, c));
    QueueIsOk(s, c);
    EntriesCount(QueueAt(s, c));
    LinksToAt(c, entries);
    forall x
      ensures Stake(r.delegators, x, c) == 0
    {
      if Stake(s.delegators, x, c) > 0 {
        BackedByStake(s, c, x);
        StakeBounds(entries, x);
        var i := FindEntry(entries, x);
        assert LinksTo(c, entries)[i].delegator == x;
      }
    }
  }

  /** A candidate's exit keeps everything: every backer and the candidate get their stake back, and
      `Total` loses the backing, or more only by what the bottom total had drifted. */
  lemma ExecuteLeaveCandidatesKeeps(s: Ledger, c: Account, hint: nat)
    requires Consistent(s)
    ensures Keeps(s, ExecuteLeaveCandidates(s, c, hint).ledger)
    ensures ExecuteLeaveCandidates(s, c, hint).outcome.Success? ==>
              c !in ExecuteLeaveCandidates(s, c, hint).ledger.info
  {
    hide Keeps, Consistent, SeverEach, RemoveCandidate, LinksTo, Queues.Entries;
    KeepsSame(s);
    var result := ExecuteLeaveCandidates(s, c, hint);
    if result.outcome.Success? {
      var links := LinksTo(c, Queues.Entries(QueueAt(s, c)));
      var r := SeverEach(s, links);
      BackerLinks(s, c);
      SeverEachKeeps(s, links);
      SeverEachCandidates(s, links);
      KeepsConsistent(s, r);
      ListedIn(s, r, c);
      NoBackersLeft(s, r, c);
      EmptyQueue(r, c);
      HoldsBond(r, c);
      RemovedLeaves(r, c, s.info[c].bond, SatSub(s.total, s.info[c].bond + s.top[c].total + s.bottom[c].total));
      LeavesConsistent(r, result.ledger, c, s.info[c].bond);
      ExitTotals(s, r, result.ledger, c);
    }
  }

  lemma ListedIn(s: Ledger, r: Ledger, c: Account)
    requires Consistent(r) && SameCandidates(s, r) && c in s.info
    ensures Listed(r, c)
  {
  }

  lemma ExitTotals(s: Ledger, r: Ledger, t: Ledger, c: Account)
    requires Consistent(s) && Listed(s, c) && Listed(r, c)
             && r == SeverEach(s, LinksTo(c, Queues.Entries(QueueAt(s, c))))
    requires Keeps(s, r) && Leaves(r, t, c, s.info[c].bond) && r.info[c].bond == s.info[c].bond
    requires QueueAt(r, c) == Queues.Queue([], []) && Consistent(t)
    requires t.total == SatSub(s.total, s.info[c].bond + s.top[c].total + s.bottom[c].total)
    ensures Keeps(s, t)
  {
    hide Consistent, SeverEach, TotalBacking, NoDrift, ReservesExact, RevokesCurrent, Queues.Entries, ExcessAt, LinksTo;
    var entries := Queues.Entries(QueueAt(s, c));
    BackerLinks(s, c);
    SeverEachBacking(s, LinksTo(c, entries));
    LinksToAt(c, entries);
    EntriesSum(s, c);
    ExitAmount(s, c);
    LeavesBacking(r, t, c, s.info[c].bond);
    LeavesHolds(r, t, c, s.info[c].bond);
  }

  lemma EntriesSum(s: Ledger, c: Account)
    requires Consistent(s) && Listed(s, c)
    ensures Sum(Queues.Entries(QueueAt(s, c))) == Queues.Backing(QueueAt(s, c))
  {
    QueueIsOk(s, c);
    EntriesCount(QueueAt(s, c));
  }
}

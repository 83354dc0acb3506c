/** What the two exits do, and to whom: every delegation that ends is released with its whole stake, the
    requests on these delegations go, and no other fact changes. */
module ExitEffects {
  import opened Bonds
  import opened Ledgers
  import opened Transitions
  import opened Calls
  import opened DelegatorCalls
  import opened Exits
  import opened Facts
  import opened DelegatorEffects
  import Guarantees
  import Queues

  // ----- a batch -----

  /** What a batch of links releases to `x`. */
  function ReleasedTo(links: seq<Link>, x: Account): nat {
    if links == [] then 0
    else ReleasedTo(links[..|links| - 1], x) +
         if links[|links| - 1].delegator == x then links[|links| - 1].amount else 0
  }

  ghost predicate FundsReleased(s: Ledger, r: Ledger, links: seq<Link>) {
    && (forall x :: Get(r.reserved, x) == Get(s.reserved, x) - ReleasedTo(links, x))
    && (forall x :: Get(r.free, x) == Get(s.free, x) + ReleasedTo(links, x))
  }

  ghost predicate RequestsWithout(s: Ledger, r: Ledger, links: seq<Link>) {
    forall x, y :: RequestOn(r, x, y) == if InLinks(links, x, y) then None else RequestOn(s, x, y)
  }

  ghost predicate Untied(links: seq<Link>, x: Account) {
    forall y :: !InLinks(links, x, y)
  }

  ghost predicate Untouched(links: seq<Link>, c: Account) {
    forall x :: !InLinks(links, x, c)
  }

  /** Records of delegators that are in no link are as before; the others keep their status. */
  ghost predicate RecordsWithout(s: Ledger, r: Ledger, links: seq<Link>) {
    && (forall x :: x in r.delegators ==> x in s.delegators && r.delegators[x].status == s.delegators[x].status)
    && (forall x :: Untied(links, x) ==>
          (x in r.delegators <==> x in s.delegators)
          && (x in s.delegators ==> r.delegators[x] == s.delegators[x]))
  }

  ghost predicate CandidateAsBefore(s: Ledger, r: Ledger, c: Account) {
    && (c in r.info <==> c in s.info) && (c in s.info ==> r.info[c] == s.info[c])
    && (c in r.top <==> c in s.top) && (c in s.top ==> r.top[c] == s.top[c])
    && (c in r.bottom <==> c in s.bottom) && (c in s.bottom ==> r.bottom[c] == s.bottom[c])
  }

  /** What is stored for candidates that are in no link is as before. */
  ghost predicate ListsWithout(s: Ledger, r: Ledger, links: seq<Link>) {
    forall c :: Untouched(links, c) ==> CandidateAsBefore(s, r, c)
  }

  ghost predicate EndsEach(s: Ledger, r: Ledger, links: seq<Link>) {
    && StakesWithout(s, r, links) && FundsReleased(s, r, links) && RequestsWithout(s, r, links)
    && RecordsWithout(s, r, links) && ListsWithout(s, r, links)
  }

  lemma InLinksStep(links: seq<Link>)
    requires links != []
    ensures var init := links[..|links| - 1]; var l := links[|links| - 1];
            forall x, y :: InLinks(links, x, y) <==> InLinks(init, x, y) || (x == l.delegator && y == l.candidate)
  {
    var init := links[..|links| - 1];
    var l := links[|links| - 1];
    forall x, y
      ensures InLinks(links, x, y) <==> InLinks(init, x, y) || (x == l.delegator && y == l.candidate)
    {
      if InLinks(init, x, y) {
        var i :| 0 <= i < |init| && init[i].delegator == x && init[i].candidate == y;
        assert links[i] == init[i];
      }
    }
  }

  lemma EndsNone(s: Ledger)
    ensures EndsEach(s, s, [])
  {
  }

  lemma ReleasedStep(s: Ledger, r: Ledger, t: Ledger, links: seq<Link>)
    requires links != [] && FundsReleased(s, r, links[..|links| - 1])
    requires FundsMove(r, t, links[|links| - 1].delegator, 0 - links[|links| - 1].amount)
    ensures FundsReleased(s, t, links)
  {
    hide Get;
  }

  lemma RequestsStep(s: Ledger, r: Ledger, t: Ledger, links: seq<Link>)
    requires links != [] && RequestsWithout(s, r, links[..|links| - 1])
    requires RequestEnds(r, t, links[|links| - 1].delegator, links[|links| - 1].candidate)
    ensures RequestsWithout(s, t, links)
  {
    hide RequestOn, InLinks;
    InLinksStep(links);
    forall x, y
      ensures RequestOn(t, x, y) == if InLinks(links, x, y) then None else RequestOn(s, x, y)
    {
      assert RequestOn(r, x, y) == if InLinks(links[..|links| - 1], x, y) then None else RequestOn(s, x, y);
    }
  }

  lemma RecordsStep(s: Ledger, r: Ledger, t: Ledger, links: seq<Link>)
    requires links != [] && RecordsWithout(s, r, links[..|links| - 1])
    requires var d := links[|links| - 1].delegator;
             && OtherDelegators(r, t, d)
             && (d in t.delegators ==> d in r.delegators && t.delegators[d].status == r.delegators[d].status)
    ensures RecordsWithout(s, t, links)
  {
    hide InLinks;
    InLinksStep(links);
    var l := links[|links| - 1];
    assert InLinks(links, l.delegator, l.candidate);
    forall x | x != l.delegator
      ensures (x in t.delegators <==> x in r.delegators) && (x in t.delegators ==> t.delegators[x] == r.delegators[x])
    {
      SameElsewhere(r.delegators, t.delegators, l.delegator, x);
    }
  }

  lemma ListsStep(s: Ledger, r: Ledger, t: Ledger, links: seq<Link>)
    requires links != [] && ListsWithout(s, r, links[..|links| - 1])
    requires OtherCandidates(r, t, links[|links| - 1].candidate)
    ensures ListsWithout(s, t, links)
  {
    hide InLinks;
    InLinksStep(links);
    var l := links[|links| - 1];
    assert InLinks(links, l.delegator, l.candidate);
    forall c | Untouched(links, c)
      ensures CandidateAsBefore(s, t, c)
    {
      assert c != l.candidate;
      assert Untouched(links[..|links| - 1], c);
      ElsewhereAsBefore(r, t, l.candidate, c);
    }
  }

  lemma ElsewhereAsBefore(s: Ledger, r: Ledger, c: Account, x: Account)
    requires OtherCandidates(s, r, c) && x != c
    ensures CandidateAsBefore(s, r, x)
  {
    assert x in s.info <==> x in s.info - {c};
    assert x in r.info <==> x in r.info - {c};
    assert x in s.top <==> x in s.top - {c};
    assert x in r.top <==> x in r.top - {c};
    assert x in s.bottom <==> x in s.bottom - {c};
    assert x in r.bottom <==> x in r.bottom - {c};
    assert x in s.info ==> (s.info - {c})[x] == s.info[x] && (r.info - {c})[x] == r.info[x];
    assert x in s.top ==> (s.top - {c})[x] == s.top[x] && (r.top - {c})[x] == r.top[x];
    assert x in s.bottom ==> (s.bottom - {c})[x] == s.bottom[x] && (r.bottom - {c})[x] == r.bottom[x];
  }

  /** Severing a batch ends exactly its delegations. */
  lemma {:induction false} SeverEachEnds(s: Ledger, links: seq<Link>)
    requires Consistent(s) && LinksOf(s, links)
    ensures EndsEach(s, SeverEach(s, links), links)
  {
    hide Consistent, Keeps, Sever, Stake, StakesWithout, FundsReleased, RequestsWithout, RecordsWithout, ListsWithout,
      Moves, RequestEnds;
    if links == [] {
      EndsNone(s);
    } else {
      var init := links[..|links| - 1];
      var l := links[|links| - 1];
      var r := SeverEach(s, init);
      SeverEachEnds(s, init);
      SeverEachKeeps(s, init);
      SeverEachKeeps(s, links);
      KeepsConsistent(s, r);
      LastLinkRemains(s, r, links);
      SeverEnds(r, l.delegator, l.candidate, l.amount);
      var t := Sever(r, l.delegator, l.candidate, l.amount);
      StepFacts(r, t, l.delegator, l.candidate, l.amount);
      ReleasedStep(s, r, t, links);
      RequestsStep(s, r, t, links);
      RecordsStep(s, r, t, links);
      ListsStep(s, r, t, links);
    }
  }

  lemma StepFacts(r: Ledger, t: Ledger, d: Account, c: Account, amount: Balance)
    requires Consistent(r) && 0 < amount == Stake(r.delegators, d, c)
    requires Moves(r, t, d, c, 0 - amount, 0 - amount)
    ensures FundsMove(r, t, d, 0 - amount) && OtherDelegators(r, t, d) && OtherCandidates(r, t, c)
    ensures d in t.delegators ==> d in r.delegators && t.delegators[d].status == r.delegators[d].status
  {
    hide Consistent;
    BothSides(r, d, c);
  }

  // ----- a delegator's exit -----

  lemma {:induction false} ReleasedFrom(d: Account, entries: seq<Bond>, x: Account)
    ensures ReleasedTo(LinksFrom(d, entries), x) == if x == d then Sum(entries) else 0
  {
    if entries != [] {
      ReleasedFrom(d, DropLast(entries), x);
      var links := LinksFrom(d, entries);
      assert links[..|links| - 1] == LinksFrom(d, DropLast(entries));
    }
  }

  lemma OwnLinksAre(s: Ledger, d: Account)
    requires Consistent(s) && d in s.delegators
    ensures var links := LinksFrom(d, s.delegators[d].delegations);
            forall x, y :: InLinks(links, x, y) <==> x == d && Stake(s.delegators, d, y) > 0
  {
    hide BooksOk, Linked, PoolOk, Covered, Delegators.Ok;
    var del := s.delegators[d].delegations;
    var links := LinksFrom(d, del);
    LinksFromAt(d, del);
    forall x, y
      ensures InLinks(links, x, y) <==> x == d && Stake(s.delegators, d, y) > 0
    {
      if InLinks(links, x, y) {
        var i :| 0 <= i < |links| && links[i].delegator == x && links[i].candidate == y;
        EntryCounts(del, i);
        StakeIff(s, d, y);
      }
      if x == d {
        StakeFoundInLinks(s, d, y);
      }
    }
  }

  /** `d` is no delegator and backs nobody any more; all it had staked is free again, and its requests
      are gone. Nobody else's stake, hold, request or record differs, nor any candidate it did not back. */
  ghost predicate Departed(s: Ledger, r: Ledger, d: Account) {
    && d !in r.delegators && OtherDelegators(s, r, d)
    && (forall x, y :: Stake(r.delegators, x, y) == if x == d then 0 else Stake(s.delegators, x, y))
    && (forall x, y :: Backed(r.top, r.bottom, y, x) == if x == d then 0 else Backed(s.top, s.bottom, y, x))
    && (forall x, y :: RequestOn(r, x, y) == if x == d then None else RequestOn(s, x, y))
    && FundsMove(s, r, d, 0 - Delegated(s.delegators, d))
    && (forall c :: c in s.info ==> SameCandidate(s, r, c))
    && (forall c :: Stake(s.delegators, d, c) == 0 ==> CandidateAsBefore(s, r, c))
    && r.info.Keys == s.info.Keys && r.round == s.round
  }

  lemma LeaveDelegatorsEffect(s: Ledger, d: Account, hint: nat)
    requires Consistent(s)
    ensures var r := ExecuteLeaveDelegators(s, d, hint); var t := r.ledger;
            && (r.outcome.Success? <==>
                  && d in s.delegators && |s.delegators[d].delegations| <= hint
                  && s.delegators[d].status.Exiting? && s.delegators[d].status.when <= s.round)
            && (r.outcome.Failure? ==> t == s)
            && (r.outcome.Success? ==> Departed(s, t, d))
  {
    hide Consistent, Keeps, SeverEach, Departed, EndsEach, LinksOf;
    var r := ExecuteLeaveDelegators(s, d, hint);
    if r.outcome.Success? {
      var links := LinksFrom(d, s.delegators[d].delegations);
      ExecuteLeaveDelegatorsKeeps(s, d, hint);
      KeepsConsistent(s, r.ledger);
      OwnLinks(s, d);
      SeverEachEnds(s, links);
      SeverEachCandidates(s, links);
      DepartedBy(s, r.ledger, d, links);
    }
  }

  lemma DepartedBy(s: Ledger, r: Ledger, d: Account, links: seq<Link>)
    requires Consistent(s) && Consistent(r) && d in s.delegators && d !in r.delegators
    requires links == LinksFrom(d, s.delegators[d].delegations) && EndsEach(s, r, links) && SameCandidates(s, r)
    ensures Departed(s, r, d)
  {
    hide BooksOk, DelegatorsOk, PoolOk, Covered, Stake, Backed, Get, RequestOn, InLinks;
    OwnLinksAre(s, d);
    RecordTotalIs(s, d);
    forall x, y
      ensures RequestOn(r, x, y) == if x == d then None else RequestOn(s, x, y)
    {
      if x == d {
        NoRecordNoRequest(r, d, y);
      }
    }
    forall x, y
      ensures Stake(r.delegators, x, y) == if x == d then 0 else Stake(s.delegators, x, y)
      ensures Backed(r.top, r.bottom, y, x) == if x == d then 0 else Backed(s.top, s.bottom, y, x)
    {
      assert Stake(s.delegators, x, y) == Backed(s.top, s.bottom, y, x);
      assert Stake(r.delegators, x, y) == Backed(r.top, r.bottom, y, x);
    }
    forall x
      ensures ReleasedTo(links, x) == if x == d then Delegated(s.delegators, d) else 0
    {
      ReleasedFrom(d, s.delegators[d].delegations, x);
    }
    OnlyGone(s, r, d);
  }

  lemma RecordTotalIs(s: Ledger, d: Account)
    requires Consistent(s) && d in s.delegators
    ensures Delegated(s.delegators, d) == Sum(s.delegators[d].delegations)
  {
    RecordIsOk(s, d);
  }

  lemma NoRecordNoRequest(s: Ledger, d: Account, c: Account)
    requires d !in s.delegators
    ensures RequestOn(s, d, c) == None
  {
  }

  lemma OnlyGone(s: Ledger, r: Ledger, d: Account)
    requires d !in r.delegators
    requires forall x :: x != d ==> (x in r.delegators <==> x in s.delegators)
                                    && (x in s.delegators ==> r.delegators[x] == s.delegators[x])
    ensures OtherDelegators(s, r, d)
  {
    assert r.delegators - {d} == r.delegators;
  }

  // ----- a candidate's exit -----

  lemma {:induction false} ReleasedBackers(c: Account, entries: seq<Bond>, x: Account)
    ensures ReleasedTo(LinksTo(c, entries), x) == StakeOf(entries, x)
  {
    if entries != [] {
      ReleasedBackers(c, DropLast(entries), x);
      var links := LinksTo(c, entries);
      assert links[..|links| - 1] == LinksTo(c, DropLast(entries));
    }
  }

  lemma BackerLinksAre(s: Ledger, c: Account)
    requires Consistent(s) && Listed(s, c)
    ensures var links := LinksTo(c, Queues.Entries(QueueAt(s, c)));
            && (forall x, y :: InLinks(links, x, y) <==> y == c && Stake(s.delegators, x, c) > 0)
            && (forall x :: ReleasedTo(links, x) == Stake(s.delegators, x, c))
  {
    hide Consistent, Queues.Ok, Queues.Entries, Queues.Entered, Queues.Backed, Stake;
    var entries := Queues.Entries(QueueAt(s, c));
    var links := LinksTo(c, entries);
    QueueIsOk(s, c);
    EntriesCount(QueueAt(s, c));
    LinksToAt(c, entries);
    forall x
      ensures ReleasedTo(links, x) == Stake(s.delegators, x, c)
    {
      ReleasedBackers(c, entries, x);
      BackedByStake(s, c, x);
    }
    forall x, y
      ensures InLinks(links, x, y) <==> y == c && Stake(s.delegators, x, c) > 0
    {
      BackedByStake(s, c, x);
      if InLinks(links, x, y) {
        var i :| 0 <= i < |links| && links[i].delegator == x && links[i].candidate == y;
        EntryCounts(entries, i);
      }
      if y == c && Stake(s.delegators, x, c) > 0 {
        StakeBounds(entries, x);
        var i := FindEntry(entries, x);
        assert links[i].delegator == x && links[i].candidate == c;
      }
    }
  }

  /** `c` is no candidate any more; every backer has its stake on `c`, and `c` its bond, free again; the
      requests on these delegations are gone. No other stake, hold, request or candidate differs; a
      backer is a delegator still if and only if it has another delegation. */
  ghost predicate Disbanded(s: Ledger, r: Ledger, c: Account)
    requires c in s.info
  {
    && c !in r.info && c !in r.top && c !in r.bottom && OtherCandidates(s, r, c)
    && (forall x, y :: Stake(r.delegators, x, y) == if y == c then 0 else Stake(s.delegators, x, y))
    && (forall x, y :: RequestOn(r, x, y) == if y == c then None else RequestOn(s, x, y))
    && (forall x :: Get(r.reserved, x) == Get(s.reserved, x) - Freed(s, c, x))
    && (forall x :: Get(r.free, x) == Get(s.free, x) + Freed(s, c, x))
    && (forall x :: x in r.delegators <==>
          x in s.delegators && (Stake(s.delegators, x, c) == 0 || DelegatesElsewhere(s, x, c)))
    && (forall x :: x in r.delegators ==>
          x in s.delegators && r.delegators[x].status == s.delegators[x].status
          && (Stake(s.delegators, x, c) == 0 ==> r.delegators[x] == s.delegators[x]))
    && r.round == s.round
  }

  /** What `c`'s exit frees for `x`. */
  function Freed(s: Ledger, c: Account, x: Account): Balance {
    Stake(s.delegators, x, c) + if x == c then SelfBond(s.info, c) else 0
  }

  lemma LeaveCandidatesEffect(s: Ledger, c: Account, hint: nat)
    requires Consistent(s)
    ensures var r := ExecuteLeaveCandidates(s, c, hint); var t := r.ledger;
            && (r.outcome.Success? <==>
                  && c in s.info && s.info[c].delegationCount <= hint
                  && s.info[c].status.Leaving? && s.info[c].status.when <= s.round)
            && (r.outcome.Failure? ==> t == s)
            && (r.outcome.Success? ==>
                  && Disbanded(s, t, c) && t.pool == s.pool && Count(t.pool, c) == 0
                  && t.total == SatSub(s.total, s.info[c].bond + s.top[c].total + s.bottom[c].total))
  {
    hide Consistent, Keeps, SeverEach, Disbanded, LinksOf, LinksTo, Queues.Entries, RemoveCandidate, StakesWithout,
      FundsReleased, RequestsWithout, RecordsWithout, ListsWithout;
    Guarantees.ListedIfCandidate(s, c);
    if ExecuteLeaveCandidates(s, c, hint).outcome.Success? {
      var links := LinksTo(c, Queues.Entries(QueueAt(s, c)));
      var r := SeverEach(s, links);
      BackerLinks(s, c);
      BackerLinksAre(s, c);
      SeverEachEnds(s, links);
      SeverEachKeeps(s, links);
      SeverEachCandidates(s, links);
      KeepsConsistent(s, r);
      BondStillHeld(s, r, c);
      OthersAsBefore(s, r, c, links);
      SamePoolThen(s, r, c);
      RemovedFacts(r, c, s.info[c].bond, SatSub(s.total, s.info[c].bond + s.top[c].total + s.bottom[c].total));
      DisbandedBy(s, r, ExecuteLeaveCandidates(s, c, hint).ledger, c, links);
    }
  }

  lemma BondStillHeld(s: Ledger, r: Ledger, c: Account)
    requires Consistent(r) && SameCandidates(s, r) && c in s.info
    ensures Get(r.reserved, c) >= s.info[c].bond && Listed(r, c)
  {
    HoldsBond(r, c);
  }

  /** The pool of two ledgers with the same active candidates and counted totals is the same. */
  lemma SamePoolThen(s: Ledger, r: Ledger, c: Account)
    requires Consistent(s) && Consistent(r) && SameCandidates(s, r) && c in s.info && !s.info[c].status.Active?
    requires forall x :: x != c ==> CandidateAsBefore(s, r, x)
    ensures r.pool == s.pool && Count(s.pool, c) == 0
  {
    hide BooksOk, DelegatorsOk, Linked, Covered, OneRole;
    forall x
      ensures Count(r.pool, x) == Count(s.pool, x) && StakeOf(r.pool, x) == StakeOf(s.pool, x)
    {
      assert Count(s.pool, x) == PoolCount(s.info, x) && StakeOf(s.pool, x) == PoolStake(s.info, x);
      assert Count(r.pool, x) == PoolCount(r.info, x) && StakeOf(r.pool, x) == PoolStake(r.info, x);
      assert x != c ==> CandidateAsBefore(s, r, x);
    }
    SetExtensional(r.pool, s.pool);
    PoolHasNot(s, c);
  }

  lemma RemovedFacts(r: Ledger, c: Account, bond: Balance, total: Balance)
    requires Get(r.reserved, c) >= bond
    ensures var t := RemoveCandidate(r, c, bond, total);
            && Leaves(r, t, c, bond) && FundsMove(r, t, c, 0 - bond) && t.round == r.round && t.total == total
  {
  }

  lemma DisbandedBy(s: Ledger, r: Ledger, t: Ledger, c: Account, links: seq<Link>)
    requires Consistent(s) && Consistent(r) && Listed(s, c) && EndsEach(s, r, links) && SameCandidates(s, r)
    requires Leaves(r, t, c, s.info[c].bond) && FundsMove(r, t, c, 0 - s.info[c].bond) && t.round == r.round
    requires forall x, y :: InLinks(links, x, y) <==> y == c && Stake(s.delegators, x, c) > 0
    requires forall x :: ReleasedTo(links, x) == Stake(s.delegators, x, c)
    ensures Disbanded(s, t, c)
  {
    hide Consistent, InLinks, Stake, Get, RequestOn, DelegatesElsewhere, OtherCandidates;
    DisbandedRequests(s, r, t, c, links);
    DisbandedFunds(s, r, t, c, links);
    DisbandedDelegators(s, r, c, links);
    DisbandedLists(s, r, t, c, links);
    forall x, y
      ensures Stake(t.delegators, x, y) == if y == c then 0 else Stake(s.delegators, x, y)
    {
      assert Stake(r.delegators, x, y) == if InLinks(links, x, y) then 0 else Stake(s.delegators, x, y);
    }
  }

  lemma DisbandedRequests(s: Ledger, r: Ledger, t: Ledger, c: Account, links: seq<Link>)
    requires Consistent(s) && RequestsWithout(s, r, links) && t.delegators == r.delegators
    requires forall x, y :: InLinks(links, x, y) <==> y == c && Stake(s.delegators, x, c) > 0
    ensures forall x, y :: RequestOn(t, x, y) == if y == c then None else RequestOn(s, x, y)
  {
    hide Consistent, InLinks, Stake;
    forall x, y
      ensures RequestOn(t, x, y) == if y == c then None else RequestOn(s, x, y)
    {
      assert RequestOn(r, x, y) == if InLinks(links, x, y) then None else RequestOn(s, x, y);
      if RequestOn(s, x, y).Some? {
        RequestHasStake(s, x, y);
      }
    }
  }

  lemma DisbandedFunds(s: Ledger, r: Ledger, t: Ledger, c: Account, links: seq<Link>)
    requires c in s.info && FundsReleased(s, r, links) && FundsMove(r, t, c, 0 - s.info[c].bond)
    requires forall x :: ReleasedTo(links, x) == Stake(s.delegators, x, c)
    ensures forall x :: Get(t.reserved, x) == Get(s.reserved, x) - Freed(s, c, x)
    ensures forall x :: Get(t.free, x) == Get(s.free, x) + Freed(s, c, x)
  {
    hide Get, Stake;
  }

  lemma DisbandedDelegators(s: Ledger, r: Ledger, c: Account, links: seq<Link>)
    requires Consistent(s) && Consistent(r) && StakesWithout(s, r, links) && RecordsWithout(s, r, links)
    requires forall x, y :: InLinks(links, x, y) <==> y == c && Stake(s.delegators, x, c) > 0
    ensures forall x :: x in r.delegators <==>
                          x in s.delegators && (Stake(s.delegators, x, c) == 0 || DelegatesElsewhere(s, x, c))
    ensures forall x :: x in r.delegators ==>
                          x in s.delegators && r.delegators[x].status == s.delegators[x].status
                          && (Stake(s.delegators, x, c) == 0 ==> r.delegators[x] == s.delegators[x])
  {
    hide Consistent, InLinks, Stake;
    forall x
      ensures x in r.delegators <==>
                x in s.delegators && (Stake(s.delegators, x, c) == 0 || DelegatesElsewhere(s, x, c))
      ensures x in r.delegators && Stake(s.delegators, x, c) == 0 ==> r.delegators[x] == s.delegators[x]
    {
      if Stake(s.delegators, x, c) == 0 {
        assert Untied(links, x);
      } else {
        forall y
          ensures Stake(r.delegators, x, y) == if y == c then 0 else Stake(s.delegators, x, y)
        {
          assert Stake(r.delegators, x, y) == if InLinks(links, x, y) then 0 else Stake(s.delegators, x, y);
        }
        StillDelegates(s, r, c, x);
      }
    }
  }

  lemma StillDelegates(s: Ledger, r: Ledger, c: Account, x: Account)
    requires Consistent(s) && Consistent(r) && Stake(s.delegators, x, c) > 0
    requires forall y :: Stake(r.delegators, x, y) == if y == c then 0 else Stake(s.delegators, x, y)
    ensures x in s.delegators && (x in r.delegators <==> DelegatesElsewhere(s, x, c))
  {
    hide Consistent, Stake;
    DelegatorIff(s, x);
    DelegatorIff(r, x);
    if DelegatesElsewhere(s, x, c) {
      var y :| y != c && Stake(s.delegators, x, y) > 0;
      assert Stake(r.delegators, x, y) > 0;
    }
  }

  lemma DisbandedLists(s: Ledger, r: Ledger, t: Ledger, c: Account, links: seq<Link>)
    requires ListsWithout(s, r, links) && t.info == r.info - {c} && t.top == r.top - {c} && t.bottom == r.bottom - {c}
    requires forall x, y :: InLinks(links, x, y) ==> y == c
    ensures OtherCandidates(s, t, c)
  {
    hide InLinks;
    OthersAsBefore(s, r, c, links);
    forall x
      ensures x != c ==> CandidateAsBefore(s, r, x)
      ensures x in t.info <==> x != c && x in s.info
      ensures x in t.top <==> x != c && x in s.top
      ensures x in t.bottom <==> x != c && x in s.bottom
    {
    }
    assert t.info - {c} == s.info - {c} && t.top - {c} == s.top - {c} && t.bottom - {c} == s.bottom - {c};
  }

  lemma OthersAsBefore(s: Ledger, r: Ledger, c: Account, links: seq<Link>)
    requires ListsWithout(s, r, links) && forall x, y :: InLinks(links, x, y) ==> y == c
    ensures forall x :: x != c ==> CandidateAsBefore(s, r, x)
  {
    hide InLinks, CandidateAsBefore;
    forall x | x != c
      ensures CandidateAsBefore(s, r, x)
    {
      assert Untouched(links, x);
    }
  }
}

/** The migration that split each candidate's old record into metadata, a top and a bottom list. The
    old bottom list was unbounded and kept least to greatest; the new one is bounded and kept
    greatest to least, so the smallest entries beyond its capacity are revoked. */
module SplitMigration {
  import opened Bonds
  import opened Params
  import opened OrderedSets
  import opened DelegationLists
  import opened Ledgers
  import opened Storages
  import opened DelegatorStates
  import Selection
  import Queues
  import Candidates
  import Delegators

  datatype OldCandidate = OldCandidate(
    bond: Balance, top: seq<Bond>, bottom: seq<Bond>, totalCounted: Balance,
    request: Option<Candidates.BondLess>, status: Candidates.CollatorStatus)

  type OldCandidates = map<Account, OldCandidate>

  ghost predicate Ascending(s: seq<Bond>) {
    forall i, j :: 0 <= i < j < |s| ==> s[i].amount <= s[j].amount
  }

  /** What the old code kept of a candidate. */
  ghost predicate OldOk(o: OldCandidate) {
    && |o.top| <= MAX_TOP
    && (o.bottom != [] ==> |o.top| == MAX_TOP && Lowest(o.top) >= Last(o.bottom).amount)
    && Desc(o.top)
    && Ascending(o.bottom)
    && AllAtLeast(o.top, MIN_DELEGATION)
    && AllAtLeast(o.bottom, MIN_DELEGATION)
    && (forall x :: Count(o.top, x) + Count(o.bottom, x) <= 1)
    && o.totalCounted == o.bond + Sum(o.top)
    && o.bond >= MIN_CANDIDATE_STK + if o.request.Some? then o.request.value.amount else 0
  }

  // ----- one candidate -----

  /** How many entries are too many. */
  function Rest(o: OldCandidate): nat {
    SatSub(|o.bottom|, MAX_BOTTOM)
  }

  function Kicked(o: OldCandidate): seq<Bond> {
    o.bottom[..Rest(o)]
  }

  function KeptBottom(o: OldCandidate): seq<Bond> {
    if |o.bottom| > MAX_BOTTOM then Reversed(o.bottom)[..MAX_BOTTOM] else Reversed(o.bottom)
  }

  /** The subtraction is exact for a candidate the old code kept. */
  function SplitCandidate(o: OldCandidate): Candidate {
    var bottom := KeptBottom(o);
    Candidates.Candidate(
      Candidates.Metadata(o.bond, |o.top| + |bottom|, o.totalCounted, Lowest(o.top), Highest(bottom), Lowest(bottom),
                          Capacity(|o.top|, MAX_TOP), Capacity(|bottom|, MAX_BOTTOM), o.request, o.status),
      DelegationData(o.top, SatSub(o.totalCounted, o.bond)),
      DelegationData(bottom, Sum(bottom)))
  }

  /** The candidate as it is while the lowest `n` entries are gone: every cache recomputed. */
  function Trimmed(o: OldCandidate, n: nat): Candidate
    requires n <= |o.bottom|
  {
    var q := Queues.Queue(o.top, Reversed(o.bottom[n..]));
    Candidates.Candidate(Candidates.Recomputed(o.bond, o.request, o.status, q),
                         DelegationData(q.top, Sum(q.top)), DelegationData(q.bottom, Sum(q.bottom)))
  }

  lemma KeptIsReversed(o: OldCandidate)
    ensures KeptBottom(o) == Reversed(o.bottom[Rest(o)..])
    ensures |KeptBottom(o)| == Min(MAX_BOTTOM, |o.bottom|)
  {
  }

  /** What is kicked and what is kept make up what was there. */
  lemma KickedAndKept(o: OldCandidate)
    ensures Sum(Kicked(o)) + Sum(KeptBottom(o)) == Sum(o.bottom)
    ensures forall d :: Count(Kicked(o), d) + Count(KeptBottom(o), d) == Count(o.bottom, d)
  {
    KeptIsReversed(o);
    ReversedMeasures(o.bottom[Rest(o)..]);
    assert o.bottom == Kicked(o) + o.bottom[Rest(o)..];
    ConcatMeasures(Kicked(o), o.bottom[Rest(o)..]);
  }

  lemma KeptDescends(o: OldCandidate)
    requires Ascending(o.bottom) && AllAtLeast(o.bottom, MIN_DELEGATION)
    ensures Desc(KeptBottom(o)) && AllAtLeast(KeptBottom(o), MIN_DELEGATION)
    ensures o.bottom != [] ==> KeptBottom(o) != [] && Highest(KeptBottom(o)) == Last(o.bottom).amount
  {
  }

  /** The migrated candidate meets the whole invariant of a candidate. */
  lemma SplitCandidateOk(o: OldCandidate)
    requires OldOk(o)
    ensures SplitCandidate(o) == Trimmed(o, Rest(o))
    ensures Candidates.Ok(SplitCandidate(o)) && Candidates.Excess(SplitCandidate(o)) == 0
  {
    hide KeptBottom, Kicked, Sum, Ascending;
    KeptIsReversed(o);
    KickedAndKept(o);
    KeptDescends(o);
    assert forall x :: Count(o.top, x) + Count(KeptBottom(o), x) <= 1;
  }

  /** The bottom entries kept are the largest of them. */
  lemma KeepsLargestBottom(o: OldCandidate)
    requires OldOk(o)
    ensures |KeptBottom(o)| == Min(MAX_BOTTOM, |o.bottom|)
    ensures forall x, y :: x in KeptBottom(o) && y in Kicked(o) ==> x.amount >= y.amount
  {
    KeptIsReversed(o);
  }

  // ----- the ledger -----

  /** What kicking a delegation touches. */
  datatype Purse = Purse(delegators: map<Account, Delegator>, reserved: map<Account, Balance>,
                         free: map<Account, Balance>)

  function PurseOf(s: Ledger): Purse {
    Purse(s.delegators, s.reserved, s.free)
  }

  function WithPurse(s: Ledger, p: Purse): Ledger {
    s.(delegators := p.delegators, reserved := p.reserved, free := p.free)
  }

  /** The record without the delegation to `c`; a request on it stays behind. */
  function RmDelegation(d: Delegator, c: Account): Delegator {
    d.(delegations := Without(d.delegations, c), total := SatSub(d.total, Delegators.Stake(d, c)))
  }

  function KickFrom(delegators: map<Account, Delegator>, d: Account, c: Account): map<Account, Delegator> {
    if d !in delegators then delegators
    else if |delegators[d].delegations| == 1 then delegators - {d}
    else delegators[d := RmDelegation(delegators[d], c)]
  }

  function KickOne(p: Purse, c: Account, b: Bond): Purse {
    var released := Min(b.amount, Get(p.reserved, b.owner));
    Purse(KickFrom(p.delegators, b.owner, c),
          p.reserved[b.owner := Get(p.reserved, b.owner) - released],
          p.free[b.owner := Get(p.free, b.owner) + released])
  }

  function KickEach(p: Purse, c: Account, kicked: seq<Bond>): Purse {
    if kicked == [] then p else KickOne(KickEach(p, c, DropLast(kicked)), c, Last(kicked))
  }

  function SplitOne(s: Ledger, c: Account, o: OldCandidate): Ledger {
    PutCandidate(WithPurse(s, KickEach(PurseOf(s), c, Kicked(o))).(total := SatSub(s.total, Sum(Kicked(o)))),
                 c, SplitCandidate(o))
  }

  ghost predicate AllOld(stored: OldCandidates) {
    forall c :: c in stored ==> OldOk(stored[c])
  }

  /** Some of the stored candidates migrated, in this order. */
  function SplitEach(s: Ledger, stored: OldCandidates, order: seq<Account>): Ledger
    requires forall c :: c in order ==> c in stored
  {
    if order == [] then s
    else SplitOne(SplitEach(s, stored, order[..|order| - 1]), order[|order| - 1], stored[order[|order| - 1]])
  }

  ghost function Infos(stored: OldCandidates): map<Account, Metadata> {
    map c | c in stored :: Trimmed(stored[c], 0).info
  }

  ghost function Tops(stored: OldCandidates): map<Account, DelegationData> {
    map c | c in stored :: Trimmed(stored[c], 0).top
  }

  ghost function Bottoms(stored: OldCandidates): map<Account, DelegationData> {
    map c | c in stored :: Trimmed(stored[c], 0).bottom
  }

  /** The ledger with the candidates still to be migrated put in as they are. */
  ghost function Whole(s: Ledger, stored: OldCandidates): Ledger {
    s.(info := s.info + Infos(stored), top := s.top + Tops(stored), bottom := s.bottom + Bottoms(stored))
  }

  lemma OneLess(stored: OldCandidates, c: Account)
    ensures Infos(stored - {c}) == Infos(stored) - {c}
    ensures Tops(stored - {c}) == Tops(stored) - {c}
    ensures Bottoms(stored - {c}) == Bottoms(stored) - {c}
  {
    hide Trimmed;
  }

  lemma Overlay<T>(base: map<Account, T>, over: map<Account, T>, c: Account, v: T)
    requires c in over
    ensures (base + over)[c := v] == base[c := v] + (over - {c})
  {
  }

  // ----- what holds throughout -----

  /** A delegator's record in which a request may have outlived its delegation. */
  ghost predicate RecordOk(d: Delegator, id: Account) {
    && d.id == id
    && d.delegations != []
    && |d.delegations| <= MAX_DELEGATIONS_PER_DELEGATOR
    && ByOwner(d.delegations)
    && AllAtLeast(d.delegations, MIN_DELEGATION)
    && d.total == Sum(d.delegations)
    && Delegators.PendingOk(d.requests)
    && forall c :: c in d.requests.requests ==>
         Count(d.delegations, c) == 0 || Delegators.RequestFits(d.requests.requests[c], c, Delegators.Stake(d, c))
  }

  ghost predicate RecordsOk(delegators: map<Account, Delegator>) {
    forall d :: d in delegators ==> RecordOk(delegators[d], d)
  }

  /** A request without its delegation. */
  predicate Orphan(delegators: map<Account, Delegator>, d: Account, c: Account) {
    d in delegators && c in delegators[d].requests.requests && Count(delegators[d].delegations, c) == 0
  }

  ghost predicate LooseBooks(s: Ledger) {
    && s.info.Keys == s.top.Keys == s.bottom.Keys
    && forall c :: c in s.info ==> LooseQueue(s.top[c].delegations, s.bottom[c].delegations)
  }

  ghost predicate LooseQueue(top: seq<Bond>, bottom: seq<Bond>) {
    AllAtLeast(top, MIN_DELEGATION) && AllAtLeast(bottom, MIN_DELEGATION)
      && forall o :: Count(top, o) + Count(bottom, o) <= 1
  }

  /** Every record agrees with every other, whatever the length of the lists. */
  ghost predicate Tied(s: Ledger) {
    && LooseBooks(s)
    && RecordsOk(s.delegators)
    && Linked(s)
    && OneRole(s)
    && PoolOk(s.pool, s.info)
    && ReservesExact(s)
    && s.total == TotalBacking(s)
  }

  lemma RecordIsOk(d: Delegator, id: Account)
    ensures Delegators.Ok(d, id) <==> RecordOk(d, id) && forall c :: c in d.requests.requests ==>
              Count(d.delegations, c) > 0
  {
    if RecordOk(d, id) {
      forall c | c in d.requests.requests
        ensures Count(d.delegations, c) <= 1
      {
        OnePerOwner(d.delegations, c);
      }
    }
  }

  lemma RmDelegationOk(d: Delegator, id: Account, c: Account)
    requires RecordOk(d, id) && Count(d.delegations, c) == 1 && |d.delegations| > 1
    ensures RecordOk(RmDelegation(d, c), id)
  {
    WithoutMeasures(d.delegations, c);
    WithoutBounds(d.delegations, c, MIN_DELEGATION);
    WithoutKeepsOrder(d.delegations, c);
    StakeBounds(d.delegations, c);
  }

  lemma KickFromStakes(delegators: map<Account, Delegator>, d: Account, c: Account)
    requires RecordsOk(delegators) && d in delegators && Count(delegators[d].delegations, c) == 1
    ensures RecordsOk(KickFrom(delegators, d, c))
    ensures forall x, y :: Stake(KickFrom(delegators, d, c), x, y)
                           == if x == d && y == c then 0 else Stake(delegators, x, y)
    ensures forall x :: Delegated(KickFrom(delegators, d, c), x)
                        == Delegated(delegators, x) - if x == d then Stake(delegators, d, c) else 0
    ensures KickFrom(delegators, d, c).Keys <= delegators.Keys
  {
    hide RecordOk;
    var del := delegators[d].delegations;
    WithoutMeasures(del, c);
    RecordTotal(delegators[d], d, c);
    if |del| == 1 {
      assert Without(del, c) == [];
    } else {
      RmDelegationOk(delegators[d], d, c);
    }
  }

  lemma RecordTotal(d: Delegator, id: Account, c: Account)
    requires RecordOk(d, id)
    ensures d.total == Sum(d.delegations) >= Delegators.Stake(d, c)
    ensures Count(d.delegations, c) <= 1 && (Delegators.Stake(d, c) > 0 <==> Count(d.delegations, c) == 1)
  {
    OnePerOwner(d.delegations, c);
    StakeBounds(d.delegations, c);
    CountPositive(d.delegations, c, MIN_DELEGATION);
  }

  // ----- one kick -----

  /** `t` is `s` after the last of `c`'s bottom entries was kicked. */
  ghost predicate Kicks(s: Ledger, t: Ledger, c: Account)
    requires Listed(s, c) && s.bottom[c].delegations != []
  {
    var b := Last(s.bottom[c].delegations);
    && PurseOf(t) == KickOne(PurseOf(s), c, b)
    && t.pool == s.pool
    && t.total == SatSub(s.total, b.amount)
    && t.top == s.top
    && c in t.bottom && t.bottom == s.bottom[c := t.bottom[c]]
         && t.bottom[c].delegations == DropLast(s.bottom[c].delegations)
    && c in t.info && t.info == s.info[c := t.info[c]] && t.info[c].bond == s.info[c].bond
    && t.info[c].status == s.info[c].status && t.info[c].totalCounted == s.info[c].totalCounted
  }

  /** The kicked entry is the whole stake of its owner on `c`, on both sides. */
  lemma KickedStake(s: Ledger, c: Account)
    requires Tied(s) && Listed(s, c) && s.bottom[c].delegations != []
    ensures var b := Last(s.bottom[c].delegations);
            && Stake(s.delegators, b.owner, c) == b.amount > 0
            && b.owner in s.delegators && Count(s.delegators[b.owner].delegations, c) == 1
            && StakeOf(s.top[c].delegations, b.owner) == 0
            && Count(DropLast(s.bottom[c].delegations), b.owner) == 0
            && Get(s.reserved, b.owner) >= b.amount
  {
    hide RecordOk, PoolOk, TotalBacking;
    var bottom := s.bottom[c].delegations;
    var b := Last(bottom);
    EntryCounts(bottom, |bottom| - 1);
    StakeBounds(s.top[c].delegations, b.owner);
    StakeBounds(DropLast(bottom), b.owner);
    assert LooseQueue(s.top[c].delegations, bottom);
    assert Count(s.top[c].delegations, b.owner) + Count(bottom, b.owner) <= 1;
    assert Stake(s.delegators, b.owner, c) == Backed(s.top, s.bottom, c, b.owner);
    assert Get(s.reserved, b.owner) == SelfBond(s.info, b.owner) + Delegated(s.delegators, b.owner);
    if b.owner in s.delegators {
      RecordTotal(s.delegators[b.owner], b.owner, c);
    }
  }

  lemma KickLinked(s: Ledger, t: Ledger, c: Account)
    requires Tied(s) && Listed(s, c) && s.bottom[c].delegations != [] && Kicks(s, t, c)
    ensures Linked(t) && RecordsOk(t.delegators) && OneRole(t)
  {
    hide RecordOk, PoolOk, TotalBacking, KickFrom, RecordsOk;
    var b := Last(s.bottom[c].delegations);
    KickedStake(s, c);
    KickFromStakes(s.delegators, b.owner, c);
    StakeBounds(DropLast(s.bottom[c].delegations), b.owner);
    forall d, x
      ensures Stake(t.delegators, d, x) == Backed(t.top, t.bottom, x, d)
    {
      assert Stake(s.delegators, d, x) == Backed(s.top, s.bottom, x, d);
    }
  }

  lemma KickHolds(s: Ledger, t: Ledger, c: Account)
    requires Tied(s) && Listed(s, c) && s.bottom[c].delegations != [] && Kicks(s, t, c)
    ensures ReservesExact(t)
  {
    hide RecordOk, PoolOk, TotalBacking, KickFrom, RecordsOk, Linked;
    var b := Last(s.bottom[c].delegations);
    KickedStake(s, c);
    KickFromStakes(s.delegators, b.owner, c);
    forall a
      ensures Get(t.reserved, a) == SelfBond(t.info, a) + Delegated(t.delegators, a)
    {
      assert Get(s.reserved, a) == SelfBond(s.info, a) + Delegated(s.delegators, a);
    }
  }

  lemma KickLoose(s: Ledger, t: Ledger, c: Account)
    requires LooseBooks(s) && Listed(s, c) && s.bottom[c].delegations != [] && Kicks(s, t, c)
    ensures LooseBooks(t)
  {
    hide KickOne, LooseQueue;
    forall x | x in t.info
      ensures LooseQueue(t.top[x].delegations, t.bottom[x].delegations)
    {
      assert LooseQueue(s.top[x].delegations, s.bottom[x].delegations);
      if x == c {
        LastLeaves(s.top[c].delegations, s.bottom[c].delegations);
      }
    }
  }

  lemma LastLeaves(top: seq<Bond>, bottom: seq<Bond>)
    requires LooseQueue(top, bottom) && bottom != []
    ensures LooseQueue(top, DropLast(bottom))
  {
    assert forall o :: Count(bottom, o) >= Count(DropLast(bottom), o);
  }

  lemma KickBooks(s: Ledger, t: Ledger, c: Account)
    requires Tied(s) && Listed(s, c) && s.bottom[c].delegations != [] && Kicks(s, t, c)
    ensures LooseBooks(t) && PoolOk(t.pool, t.info) && t.total == TotalBacking(t)
  {
    hide RecordsOk, Linked, KickOne, LooseBooks, PoolOk, TotalBacking, ReservesExact, OneRole;
    KickLoose(s, t, c);
    KickPool(s, t, c);
    KickBacking(s, t, c);
  }

  lemma KickPool(s: Ledger, t: Ledger, c: Account)
    requires PoolOk(s.pool, s.info) && Listed(s, c) && s.bottom[c].delegations != [] && Kicks(s, t, c)
    ensures PoolOk(t.pool, t.info)
  {
    assert forall a :: PoolCount(t.info, a) == PoolCount(s.info, a) && PoolStake(t.info, a) == PoolStake(s.info, a);
  }

  lemma KickBacking(s: Ledger, t: Ledger, c: Account)
    requires Listed(s, c) && s.bottom[c].delegations != [] && Kicks(s, t, c)
    ensures TotalBacking(t) == TotalBacking(s) - Last(s.bottom[c].delegations).amount
    ensures TotalBacking(s) >= Last(s.bottom[c].delegations).amount
  {
    hide KickOne;
    var candidate := Candidates.Candidate(t.info[c], s.top[c], t.bottom[c]);
    BackingAfterPut(s, c, candidate);
    assert s.top[c := s.top[c]] == s.top;
    assert Candidates.Backing(candidate)
      == Candidates.Backing(CandidateAt(s, c)) - Last(s.bottom[c].delegations).amount;
  }

  lemma KickKeepsTied(s: Ledger, t: Ledger, c: Account)
    requires Tied(s) && Listed(s, c) && s.bottom[c].delegations != [] && Kicks(s, t, c)
    ensures Tied(t)
  {
    hide Kicks, LooseBooks, RecordsOk, Linked, OneRole, PoolOk, ReservesExact, TotalBacking;
    KickLinked(s, t, c);
    KickHolds(s, t, c);
    KickBooks(s, t, c);
  }

  // ----- one candidate in the ledger -----

  /** The whole ledger after `n` of `c`'s entries were kicked. */
  ghost function Mid(s: Ledger, stored: OldCandidates, c: Account, n: nat): Ledger
    requires c in stored && n <= Rest(stored[c])
  {
    var o := stored[c];
    var w := PutCandidate(Whole(s, stored), c, Trimmed(o, n));
    WithPurse(w, KickEach(PurseOf(s), c, o.bottom[..n])).(total := SatSub(s.total, Sum(o.bottom[..n])))
  }

  lemma MidKicks(s: Ledger, stored: OldCandidates, c: Account, n: nat)
    requires c in stored && n < Rest(stored[c]) && Sum(stored[c].bottom[..n]) <= s.total
    ensures var m := Mid(s, stored, c, n);
            && Listed(m, c) && m.bottom[c].delegations != []
            && Last(m.bottom[c].delegations) == stored[c].bottom[n]
            && Kicks(m, Mid(s, stored, c, n + 1), c)
  {
    hide KickOne, Whole;
    var o := stored[c];
    var m := Mid(s, stored, c, n);
    var t := Mid(s, stored, c, n + 1);
    assert DropLast(o.bottom[..n + 1]) == o.bottom[..n];
    assert DropLast(Reversed(o.bottom[n..])) == Reversed(o.bottom[n + 1..]);
    assert t.bottom == m.bottom[c := t.bottom[c]] && t.info == m.info[c := t.info[c]] && t.top == m.top;
  }

  lemma {:induction false} MidTied(s: Ledger, stored: OldCandidates, c: Account, n: nat)
    requires Tied(Whole(s, stored)) && c in stored && n <= Rest(stored[c])
    ensures Tied(Mid(s, stored, c, n))
    ensures Sum(stored[c].bottom[..n]) <= s.total
  {
    hide Tied, KickEach, Whole;
    if n == 0 {
      MidStart(s, stored, c);
    } else {
      var m := Mid(s, stored, c, n - 1);
      MidTied(s, stored, c, n - 1);
      MidKicks(s, stored, c, n - 1);
      KickKeepsTied(m, Mid(s, stored, c, n), c);
      TiedCovers(m, c);
      assert DropLast(stored[c].bottom[..n]) == stored[c].bottom[..n - 1];
    }
  }

  lemma MidStart(s: Ledger, stored: OldCandidates, c: Account)
    requires c in stored
    ensures Mid(s, stored, c, 0) == Whole(s, stored)
  {
    hide Trimmed;
    var o := stored[c];
    var w := Whole(s, stored);
    assert o.bottom[..0] == [];
    assert w.info[c := w.info[c]] == w.info && w.top[c := w.top[c]] == w.top && w.bottom[c := w.bottom[c]] == w.bottom;
  }

  lemma TiedCovers(s: Ledger, c: Account)
    requires Tied(s) && Listed(s, c) && s.bottom[c].delegations != []
    ensures s.total >= Last(s.bottom[c].delegations).amount
  {
    hide LooseBooks, RecordsOk, Linked, OneRole, PoolOk, ReservesExact;
    BackingAfterPut(s, c, CandidateAt(s, c));
  }

  lemma MidEnd(s: Ledger, stored: OldCandidates, c: Account)
    requires c in stored && OldOk(stored[c])
    ensures Mid(s, stored, c, Rest(stored[c])) == Whole(SplitOne(s, c, stored[c]), stored - {c})
  {
    hide KickEach, OldOk, SplitCandidate, Trimmed, Candidates.Ok, Candidates.Excess, Sum;
    var o := stored[c];
    SplitCandidateOk(o);
    OneLess(stored, c);
    Overlay(s.info, Infos(stored), c, SplitCandidate(o).info);
    Overlay(s.top, Tops(stored), c, SplitCandidate(o).top);
    Overlay(s.bottom, Bottoms(stored), c, SplitCandidate(o).bottom);
  }

  /** Migrating one candidate keeps every record in step and lowers `Total` by what it kicks. */
  lemma SplitOneKeeps(s: Ledger, stored: OldCandidates, c: Account)
    requires Tied(Whole(s, stored)) && c in stored && OldOk(stored[c])
    ensures Tied(Whole(SplitOne(s, c, stored[c]), stored - {c}))
    ensures SplitOne(s, c, stored[c]).total + Sum(Kicked(stored[c])) == s.total
  {
    hide Tied, Whole, KickEach, OldOk, SplitCandidate, Mid;
    MidTied(s, stored, c, Rest(stored[c]));
    MidEnd(s, stored, c);
  }

  // ----- the whole migration -----

  /** Every stored candidate once. */
  ghost predicate Enumerates(order: seq<Account>, stored: OldCandidates) {
    Selection.NoRepeats(order) && forall c :: c in order <==> c in stored
  }

  function KickedSum(stored: OldCandidates, order: seq<Account>): Balance
    requires forall c :: c in order ==> c in stored
  {
    if order == [] then 0
    else KickedSum(stored, order[..|order| - 1]) + Sum(Kicked(stored[order[|order| - 1]]))
  }

  /** The candidates migrated so far are as `SplitCandidate` makes them. */
  ghost predicate Migrated(s: Ledger, stored: OldCandidates, order: seq<Account>)
    requires forall c :: c in order ==> c in stored
  {
    && (forall c :: c in order <==> c in s.info)
    && s.info.Keys == s.top.Keys == s.bottom.Keys
    && forall c :: c in order ==> CandidateAt(s, c) == SplitCandidate(stored[c])
  }

  lemma MigratesOne(r: Ledger, stored: OldCandidates, init: seq<Account>, c: Account)
    requires (forall x :: x in init ==> x in stored) && c in stored && c !in init && Migrated(r, stored, init)
    ensures Migrated(SplitOne(r, c, stored[c]), stored, init + [c])
  {
    hide SplitCandidate, KickEach, Kicked;
    var t := SplitOne(r, c, stored[c]);
    forall x | x in init + [c]
      ensures CandidateAt(t, x) == SplitCandidate(stored[x])
    {
      if x != c {
        assert x in init && CandidateAt(r, x) == SplitCandidate(stored[x]);
      }
    }
  }

  ghost function Remaining(stored: OldCandidates, order: seq<Account>): OldCandidates {
    stored - (set c | c in order)
  }

  lemma RemainingOne(stored: OldCandidates, init: seq<Account>, c: Account)
    requires c in stored && c !in init
    ensures c in Remaining(stored, init) && Remaining(stored, init)[c] == stored[c]
    ensures Remaining(stored, init + [c]) == Remaining(stored, init) - {c}
  {
  }

  lemma RemainingEnds(stored: OldCandidates, order: seq<Account>)
    ensures Remaining(stored, []) == stored
    ensures Enumerates(order, stored) ==> Remaining(stored, order) == map[]
  {
  }

  /** Old records in order, and nothing migrated yet. */
  ghost predicate Ready(s: Ledger, stored: OldCandidates) {
    AllOld(stored) && Tied(Whole(s, stored)) && s.info == map[] && s.top == map[] && s.bottom == map[]
  }

  /** `r` is `s` with these candidates migrated. */
  ghost predicate Underway(s: Ledger, stored: OldCandidates, order: seq<Account>, r: Ledger)
    requires forall c :: c in order ==> c in stored
  {
    && Tied(Whole(r, Remaining(stored, order)))
    && Migrated(r, stored, order)
    && r.total + KickedSum(stored, order) == s.total
  }

  lemma UnderwayStep(s: Ledger, stored: OldCandidates, init: seq<Account>, c: Account, r: Ledger)
    requires AllOld(stored) && (forall x :: x in init ==> x in stored) && c in stored && c !in init
    requires Underway(s, stored, init, r)
    ensures Underway(s, stored, init + [c], SplitOne(r, c, stored[c]))
  {
    hide Tied, Whole, SplitOne, OldOk, Kicked, Migrated, Remaining;
    RemainingOne(stored, init, c);
    SplitOneKeeps(r, Remaining(stored, init), c);
    MigratesOne(r, stored, init, c);
    assert (init + [c])[..|init|] == init;
  }

  lemma UnderwayStart(s: Ledger, stored: OldCandidates)
    requires Ready(s, stored)
    ensures Underway(s, stored, [], s)
  {
    hide Tied, Whole, AllOld;
    RemainingEnds(stored, []);
  }

  lemma {:induction false} SplitEachKeeps(s: Ledger, stored: OldCandidates, order: seq<Account>)
    requires Ready(s, stored) && Selection.NoRepeats(order) && forall c :: c in order ==> c in stored
    ensures Underway(s, stored, order, SplitEach(s, stored, order))
  {
    hide Tied, Whole, SplitOne, OldOk, Underway;
    if order == [] {
      UnderwayStart(s, stored);
    } else {
      var init := order[..|order| - 1];
      assert order == init + [order[|order| - 1]];
      SplitEachKeeps(s, stored, init);
      UnderwayStep(s, stored, init, order[|order| - 1], SplitEach(s, stored, init));
    }
  }

  /** Kicking never touches the requests of a delegator that stays. */
  lemma {:induction false} KickEachRequests(p: Purse, c: Account, kicked: seq<Bond>)
    ensures forall d :: d in KickEach(p, c, kicked).delegators ==>
              d in p.delegators && KickEach(p, c, kicked).delegators[d].requests == p.delegators[d].requests
  {
    if kicked != [] {
      KickEachRequests(p, c, DropLast(kicked));
    }
  }

  lemma {:induction false} SplitEachRequests(s: Ledger, stored: OldCandidates, order: seq<Account>)
    requires forall c :: c in order ==> c in stored
    ensures var r := SplitEach(s, stored, order);
            forall d :: d in r.delegators ==> d in s.delegators && r.delegators[d].requests == s.delegators[d].requests
  {
    hide OldOk, KickEach, SplitCandidate, Kicked;
    if order != [] {
      var init := order[..|order| - 1];
      var c := order[|order| - 1];
      SplitEachRequests(s, stored, init);
      KickEachRequests(PurseOf(SplitEach(s, stored, init)), c, Kicked(stored[c]));
    }
  }

  /** The migration, whatever the order of the stored records: every candidate then meets its whole
      invariant, every record agrees with every other, holds and `Total` are exact, and `Total` is
      lower by exactly what was kicked. */
  lemma SplitTheorem(s: Ledger, stored: OldCandidates, order: seq<Account>)
    requires Ready(s, stored) && Enumerates(order, stored)
    ensures var r := SplitEach(s, stored, order);
            && BooksOk(r) && NoDrift(r) && Tied(r)
            && r.info.Keys == stored.Keys
                 && (forall c :: c in stored ==> Listed(r, c) && CandidateAt(r, c) == SplitCandidate(stored[c]))
            && r.total + KickedSum(stored, order) == s.total
  {
    hide Tied, SplitCandidate, OldOk, SplitEach, BooksOk, NoDrift, KickedSum, Whole, Remaining;
    var r := SplitEach(s, stored, order);
    SplitEachKeeps(s, stored, order);
    RemainingEnds(stored, order);
    NothingLeft(r);
    MigratedBooks(r, stored, order);
    assert r.info.Keys == stored.Keys;
  }

  lemma MigratedBooks(r: Ledger, stored: OldCandidates, order: seq<Account>)
    requires AllOld(stored) && Enumerates(order, stored) && Migrated(r, stored, order)
    ensures BooksOk(r) && NoDrift(r)
  {
    hide SplitCandidate, OldOk, Candidates.Ok;
    forall c | c in r.info
      ensures Candidates.Ok(CandidateAt(r, c)) && r.bottom[c].total == Sum(r.bottom[c].delegations)
    {
      SplitCandidateOk(stored[c]);
      SplitTotals(stored[c]);
      assert CandidateAt(r, c) == SplitCandidate(stored[c]);
    }
  }

  lemma SplitTotals(o: OldCandidate)
    ensures SplitCandidate(o).bottom.total == Sum(SplitCandidate(o).bottom.delegations)
  {
  }

  lemma NothingLeft(s: Ledger)
    ensures Whole(s, map[]) == s
  {
    hide Trimmed;
    assert Infos(map[]) == map[] && Tops(map[]) == map[] && Bottoms(map[]) == map[];
    assert s.info + map[] == s.info && s.top + map[] == s.top && s.bottom + map[] == s.bottom;
  }

  // ----- what the migration leaves and what it takes -----

  /** The migrated candidate keeps bond, request, status and top list, and of its bottom list the last
      entries, the last one first. */
  ghost predicate KeptOf(o: OldCandidate, m: Candidate) {
    && m.info.bond == o.bond && m.info.request == o.request && m.info.status == o.status
    && m.top.delegations == o.top && |m.bottom.delegations| == Min(MAX_BOTTOM, |o.bottom|)
    && forall i :: 0 <= i < |m.bottom.delegations| ==> m.bottom.delegations[i] == o.bottom[|o.bottom| - 1 - i]
  }

  lemma SplitKeeps(o: OldCandidate)
    ensures KeptOf(o, SplitCandidate(o))
  {
  }

  /** Whoever stays a delegator keeps its identity, its status and its requests. */
  ghost predicate SameButDelegations(before: map<Account, Delegator>, after: map<Account, Delegator>) {
    forall d :: d in after ==>
      && d in before && after[d].id == before[d].id && after[d].status == before[d].status
      && after[d].requests == before[d].requests
  }

  lemma {:induction false} KickEachKeeps(p: Purse, c: Account, kicked: seq<Bond>)
    ensures SameButDelegations(p.delegators, KickEach(p, c, kicked).delegators)
    ensures var r := KickEach(p, c, kicked);
            forall a :: Get(r.free, a) + Get(r.reserved, a) == Get(p.free, a) + Get(p.reserved, a)
  {
    if kicked != [] {
      KickEachKeeps(p, c, DropLast(kicked));
    }
  }

  lemma {:induction false} SplitEachOthers(s: Ledger, stored: OldCandidates, order: seq<Account>)
    requires forall c :: c in order ==> c in stored
    ensures var r := SplitEach(s, stored, order);
            && SameButDelegations(s.delegators, r.delegators) && r.pool == s.pool && r.round == s.round
            && forall a :: Get(r.free, a) + Get(r.reserved, a) == Get(s.free, a) + Get(s.reserved, a)
  {
    hide OldOk, KickEach, SplitCandidate, Kicked;
    if order != [] {
      var init := order[..|order| - 1];
      var c := order[|order| - 1];
      SplitEachOthers(s, stored, init);
      KickEachKeeps(PurseOf(SplitEach(s, stored, init)), c, Kicked(stored[c]));
    }
  }

  /** What the migration leaves to everybody: candidates keep all but the lowest entries of a bottom list
      that is too long; whoever is kicked loses that delegation and no other, its stake is free again
      where holds were exact, and the requests and the status of those who stay are untouched. */
  lemma SplitEffect(s: Ledger, stored: OldCandidates, order: seq<Account>)
    requires Ready(s, stored) && Enumerates(order, stored)
    ensures var r := SplitEach(s, stored, order);
            && (forall c :: c in stored ==> Listed(r, c) && KeptOf(stored[c], CandidateAt(r, c)))
            && (forall d, c :: c in stored ==>
                  Stake(r.delegators, d, c) == if Count(Kicked(stored[c]), d) > 0 then 0 else Stake(s.delegators, d, c))
            && SameButDelegations(s.delegators, r.delegators) && ReservesExact(r)
            && (forall a :: Get(r.free, a) + Get(r.reserved, a) == Get(s.free, a) + Get(s.reserved, a))
            && r.info.Keys == stored.Keys && r.pool == s.pool && r.round == s.round
  {
    hide Tied, SplitEach, KeptBottom, Kicked, OldOk, BooksOk, NoDrift, SplitCandidate, Whole, Stake, KeptOf,
      SameButDelegations, ReservesExact;
    var r := SplitEach(s, stored, order);
    SplitTheorem(s, stored, order);
    SplitEachOthers(s, stored, order);
    TiedHolds(r);
    forall c | c in stored
      ensures Listed(r, c) && KeptOf(stored[c], CandidateAt(r, c))
    {
      SplitKeeps(stored[c]);
    }
    forall d, c | c in stored
      ensures Stake(r.delegators, d, c) == if Count(Kicked(stored[c]), d) > 0 then 0 else Stake(s.delegators, d, c)
    {
      SplitStake(s, r, stored, d, c);
    }
  }

  lemma TiedHolds(s: Ledger)
    requires Tied(s)
    ensures ReservesExact(s)
  {
  }

  lemma SplitStake(s: Ledger, r: Ledger, stored: OldCandidates, d: Account, c: Account)
    requires Ready(s, stored) && Tied(r) && c in stored && Listed(r, c)
             && CandidateAt(r, c) == SplitCandidate(stored[c])
    ensures Stake(r.delegators, d, c) == if Count(Kicked(stored[c]), d) > 0 then 0 else Stake(s.delegators, d, c)
  {
    hide Tied, Stake, Whole, OldOk, Kicked, KeptBottom, Sum;
    OldStake(s, stored, d, c);
    TiedStake(r, d, c);
    KeptStake(stored[c], d);
  }

  lemma TiedStake(r: Ledger, d: Account, c: Account)
    requires Tied(r) && Listed(r, c)
    ensures Stake(r.delegators, d, c) == StakeOf(r.top[c].delegations, d) + StakeOf(r.bottom[c].delegations, d)
  {
    hide LooseBooks, RecordsOk, OneRole, PoolOk, ReservesExact, TotalBacking, Stake;
    assert Stake(r.delegators, d, c) == Backed(r.top, r.bottom, c, d);
  }

  /** Before, a stake is what the old lists say. */
  lemma OldStake(s: Ledger, stored: OldCandidates, d: Account, c: Account)
    requires Ready(s, stored) && c in stored
    ensures Stake(s.delegators, d, c) == StakeOf(stored[c].top, d) + StakeOf(stored[c].bottom, d)
  {
    hide Tied, Stake, OldOk;
    var o := stored[c];
    TiedStake(Whole(s, stored), d, c);
    assert o.bottom[0..] == o.bottom;
    ReversedMeasures(o.bottom);
  }

  lemma KeptStake(o: OldCandidate, d: Account)
    requires OldOk(o)
    ensures StakeOf(o.top, d) + StakeOf(KeptBottom(o), d)
            == if Count(Kicked(o), d) > 0 then 0 else StakeOf(o.top, d) + StakeOf(o.bottom, d)
  {
    KeptIsReversed(o);
    var kept := o.bottom[Rest(o)..];
    ReversedMeasures(kept);
    assert o.bottom == Kicked(o) + kept;
    ConcatMeasures(Kicked(o), kept);
    StakeBounds(o.top, d);
    StakeBounds(kept, d);
    StakeBounds(Kicked(o), d);
    assert Count(o.top, d) + Count(o.bottom, d) <= 1;
  }

  predicate Requested(delegators: map<Account, Delegator>, d: Account, c: Account) {
    d in delegators && c in delegators[d].requests.requests
  }

  /** Some old candidate keeps a delegation of `d`. */
  ghost predicate Stays(stored: OldCandidates, d: Account) {
    exists c :: c in stored && Count(stored[c].top, d) + Count(KeptBottom(stored[c]), d) > 0
  }

  /** `d` is among those `c` kicks, and another candidate keeps it. */
  ghost predicate KickedAndStays(stored: OldCandidates, d: Account, c: Account) {
    c in stored && Count(Kicked(stored[c]), d) > 0 && Stays(stored, d)
  }

  /** Who is a delegator after the migration can be read off the old lists. */
  lemma StaysIff(s: Ledger, stored: OldCandidates, order: seq<Account>, d: Account)
    requires Ready(s, stored) && Enumerates(order, stored)
    ensures d in SplitEach(s, stored, order).delegators <==> Stays(stored, d)
  {
    hide Tied, SplitEach, KeptBottom, OldOk, BooksOk, NoDrift, SplitCandidate, Whole;
    var r := SplitEach(s, stored, order);
    SplitTheorem(s, stored, order);
    if d in r.delegators {
      var c := SomeDelegation(r, d);
      StakeAfter(r, stored, d, c);
    }
    if Stays(stored, d) {
      var c :| c in stored && Count(stored[c].top, d) + Count(KeptBottom(stored[c]), d) > 0;
      KeptIsRecorded(r, stored, d, c);
    }
  }

  /** A delegator has a delegation, and the candidate has lists. */
  lemma SomeDelegation(r: Ledger, d: Account) returns (c: Account)
    requires Tied(r) && d in r.delegators
    ensures Listed(r, c) && Count(r.delegators[d].delegations, c) > 0
  {
    hide OneRole, PoolOk, ReservesExact, TotalBacking, RecordOk;
    var delegations := r.delegators[d].delegations;
    assert delegations != [] by {
      HasDelegations(r, d);
    }
    c := delegations[0].owner;
    EntryCounts(delegations, 0);
    RecordTotal(r.delegators[d], d, c);
    assert Stake(r.delegators, d, c) == Backed(r.top, r.bottom, c, d);
  }

  lemma HasDelegations(r: Ledger, d: Account)
    requires Tied(r) && d in r.delegators
    ensures r.delegators[d].delegations != []
  {
    assert RecordOk(r.delegators[d], d);
  }

  /** An entry that is kept belongs to a delegator. */
  lemma KeptIsRecorded(r: Ledger, stored: OldCandidates, d: Account, c: Account)
    requires Tied(r) && Listed(r, c) && c in stored && CandidateAt(r, c) == SplitCandidate(stored[c])
    requires Count(stored[c].top, d) + Count(KeptBottom(stored[c]), d) > 0
    ensures d in r.delegators
  {
    hide OneRole, PoolOk, ReservesExact, TotalBacking, RecordOk;
    assert Stake(r.delegators, d, c) == Backed(r.top, r.bottom, c, d);
    assert LooseQueue(r.top[c].delegations, r.bottom[c].delegations);
    CountPositive(stored[c].top, d, MIN_DELEGATION);
    CountPositive(KeptBottom(stored[c]), d, MIN_DELEGATION);
  }

  /** The migrated ledger is consistent if and only if nobody who is kicked, and whom another candidate
      keeps, has a request pending on the delegation: the migration forgets such requests. All of it
      can be checked on the stored records beforehand. */
  lemma ConsistentIff(s: Ledger, stored: OldCandidates, order: seq<Account>)
    requires Ready(s, stored) && Enumerates(order, stored) && DelegatorsOk(s.delegators)
    ensures var r := SplitEach(s, stored, order);
            Consistent(r) <==> forall d, c :: KickedAndStays(stored, d, c) ==> !Requested(s.delegators, d, c)
  {
    hide Tied, SplitEach, Ready, DelegatorsOk, Consistent, Requested, KickedAndStays, Orphan, BooksOk, NoDrift;
    var r := SplitEach(s, stored, order);
    SplitTheorem(s, stored, order);
    TiedConsistent(r);
    forall d, c
      ensures Orphan(r.delegators, d, c) <==> KickedAndStays(stored, d, c) && Requested(s.delegators, d, c)
    {
      OrphanIff(s, stored, order, d, c);
    }
  }

  lemma TiedConsistent(r: Ledger)
    requires Tied(r) && BooksOk(r)
    ensures Consistent(r) <==> forall d, c :: !Orphan(r.delegators, d, c)
  {
    hide RecordOk, BooksOk, TotalBacking, Linked, PoolOk, Delegators.Ok;
    if Consistent(r) {
      forall d, c
        ensures !Orphan(r.delegators, d, c)
      {
        if d in r.delegators {
          RecordIsOk(r.delegators[d], d);
        }
      }
    }
    if forall d, c :: !Orphan(r.delegators, d, c) {
      forall d | d in r.delegators
        ensures Delegators.Ok(r.delegators[d], d)
      {
        RecordIsOk(r.delegators[d], d);
        forall c | c in r.delegators[d].requests.requests
          ensures Count(r.delegators[d].delegations, c) > 0
        {
          assert !Orphan(r.delegators, d, c);
        }
      }
    }
  }

  /** A request is orphaned exactly when its delegation was kicked. */
  lemma OrphanIff(s: Ledger, stored: OldCandidates, order: seq<Account>, d: Account, c: Account)
    requires Ready(s, stored) && Enumerates(order, stored) && DelegatorsOk(s.delegators)
    ensures var r := SplitEach(s, stored, order);
            Orphan(r.delegators, d, c) <==> KickedAndStays(stored, d, c) && Requested(s.delegators, d, c)
  {
    hide SplitEach, Tied, OldOk, Kicked, KeptBottom, DelegatorsOk, BooksOk, NoDrift, SplitCandidate, Whole, Stays;
    var r := SplitEach(s, stored, order);
    SplitTheorem(s, stored, order);
    SplitEachRequests(s, stored, order);
    if d in r.delegators && Requested(s.delegators, d, c) {
      StakeBefore(s, stored, d, c);
      StakeAfter(r, stored, d, c);
      KickedAndKept(stored[c]);
      assert Count(Kicked(stored[c]), d) + Count(KeptBottom(stored[c]), d) == Count(stored[c].bottom, d);
    }
    StaysIff(s, stored, order, d);
  }

  /** Before, a requested delegation is in the lists. */
  lemma StakeBefore(s: Ledger, stored: OldCandidates, d: Account, c: Account)
    requires Ready(s, stored) && DelegatorsOk(s.delegators) && Requested(s.delegators, d, c)
    ensures c in stored && Count(stored[c].top, d) + Count(stored[c].bottom, d) == 1
  {
    hide LooseBooks, RecordsOk, OneRole, PoolOk, ReservesExact, TotalBacking;
    var w := Whole(s, stored);
    PositiveStake(s.delegators, d, c);
    assert Stake(w.delegators, d, c) == Backed(w.top, w.bottom, c, d);
    assert c in stored;
    ReversedMeasures(stored[c].bottom[0..]);
    assert stored[c].bottom[0..] == stored[c].bottom;
    StakeBounds(stored[c].top, d);
    StakeBounds(stored[c].bottom, d);
    assert OldOk(stored[c]);
  }

  /** After, a delegation is recorded exactly when it is in a list. */
  lemma StakeAfter(r: Ledger, stored: OldCandidates, d: Account, c: Account)
    requires Tied(r) && AllOld(stored) && c in stored && Listed(r, c) && CandidateAt(r, c) == SplitCandidate(stored[c])
    requires d in r.delegators
    ensures Count(r.delegators[d].delegations, c) > 0 <==> Count(stored[c].top, d) + Count(KeptBottom(stored[c]), d) > 0
  {
    hide OneRole, PoolOk, ReservesExact, TotalBacking, RecordOk;
    var top := stored[c].top;
    var bottom := KeptBottom(stored[c]);
    RecordTotal(r.delegators[d], d, c);
    assert Stake(r.delegators, d, c) == Backed(r.top, r.bottom, c, d);
    assert LooseQueue(r.top[c].delegations, r.bottom[c].delegations);
    StakeBounds(top, d);
    StakeBounds(bottom, d);
    CountPositive(top, d, MIN_DELEGATION);
    CountPositive(bottom, d, MIN_DELEGATION);
  }

  // ----- the code -----

  /** The fold both migrations total a list with. */
  method FoldTotal(delegations: seq<Bond>) returns (total: Balance)
    ensures total == Sum(delegations)
  {
    total := 0;
    for i := 0 to |delegations|
      invariant total == Sum(delegations[..i])
    {
      assert DropLast(delegations[..i + 1]) == delegations[..i];
      total := total + delegations[i].amount;
    }
    assert delegations[..|delegations|] == delegations;
  }

  /** Revokes one delegation; its owner is a delegator. */
  method KickDelegator(st: Storage, account: Account, b: Bond)
    requires b.owner in st.delegatorState && ByOwner(st.delegatorState[b.owner].delegations)
    modifies st`delegatorState, st`reserved, st`free
    ensures st.View() == WithPurse(old(st.View()), KickOne(PurseOf(old(st.View())), account, b))
  {
    st.UnreserveCurrency(b.owner, b.amount);
    var delegatorState := new DelegatorState.Decode(st.delegatorState[b.owner]);
    var leaving := |delegatorState.delegations| == 1;
    var remaining := delegatorState.RmDelegation(account);
    if leaving {
      st.delegatorState := st.delegatorState - {b.owner};
    } else {
      st.delegatorState := st.delegatorState[b.owner := delegatorState.Encode()];
    }
  }

  /** The next entry to kick belongs to a delegator, and `Total` covers it. */
  lemma NextKicked(s: Ledger, remaining: OldCandidates, c: Account, n: nat)
    requires Tied(Whole(s, remaining)) && c in remaining && n < Rest(remaining[c])
    ensures var p := KickEach(PurseOf(s), c, remaining[c].bottom[..n]); var owner := remaining[c].bottom[n].owner;
            owner in p.delegators && ByOwner(p.delegators[owner].delegations)
    ensures Sum(remaining[c].bottom[..n]) <= s.total
  {
    hide Tied, KickEach, Whole;
    var m := Mid(s, remaining, c, n);
    MidTied(s, remaining, c, n);
    MidKicks(s, remaining, c, n);
    KickedStake(m, c);
    RecordInOrder(m, remaining[c].bottom[n].owner);
  }

  lemma RecordInOrder(s: Ledger, d: Account)
    requires Tied(s) && d in s.delegators
    ensures ByOwner(s.delegators[d].delegations)
  {
    hide LooseBooks, Linked, OneRole, PoolOk, ReservesExact, TotalBacking;
    assert RecordOk(s.delegators[d], d);
  }

  method KickRest(st: Storage, account: Account, state: OldCandidate, ghost remaining: OldCandidates)
    requires Tied(Whole(st.View(), remaining)) && account in remaining && remaining[account] == state
    requires |state.bottom| > MAX_BOTTOM
    modifies st`delegatorState, st`reserved, st`free, st`total
    ensures var s := old(st.View());
            st.View() == WithPurse(s, KickEach(PurseOf(s), account, Kicked(state))).(total :=
                SatSub(s.total, Sum(Kicked(state))))
  {
    hide Tied, Whole, KickOne;
    ghost var s := st.View();
    var rest := |state.bottom| - MAX_BOTTOM;
    var totalLess := 0;
    assert state.bottom[..0] == [];
    for i := 0 to rest
      invariant st.View() == WithPurse(s, KickEach(PurseOf(s), account, state.bottom[..i]))
      invariant totalLess == Sum(state.bottom[..i])
    {
      NextKicked(s, remaining, account, i);
      assert DropLast(state.bottom[..i + 1]) == state.bottom[..i];
      totalLess := totalLess + state.bottom[i].amount;
      KickDelegator(st, account, state.bottom[i]);
    }
    st.total := SatSub(st.total, totalLess);
  }

  method MigrateOne(st: Storage, account: Account, state: OldCandidate, ghost remaining: OldCandidates)
    requires Tied(Whole(st.View(), remaining)) && account in remaining && remaining[account] == state
    modifies st
    ensures st.View() == SplitOne(old(st.View()), account, state)
  {
    hide Tied, Whole, KickEach;
    var newBottom := Reversed(state.bottom);
    if |state.bottom| > MAX_BOTTOM {
      KickRest(st, account, state, remaining);
      newBottom := newBottom[..MAX_BOTTOM];
    } else {
      NothingKicked(st.View(), account, state);
    }
    var total := FoldTotal(newBottom);
    st.candidateInfo := st.candidateInfo[account := Candidates.Metadata(
      state.bond, |state.top| + |newBottom|, state.totalCounted, Lowest(state.top), Highest(newBottom),
        Lowest(newBottom),
      Capacity(|state.top|, MAX_TOP), Capacity(|newBottom|, MAX_BOTTOM), state.request, state.status)];
    st.topDelegations :=
      st.topDelegations[account := DelegationData(state.top, SatSub(state.totalCounted, state.bond))];
    st.bottomDelegations := st.bottomDelegations[account := DelegationData(newBottom, total)];
  }

  lemma NothingKicked(s: Ledger, c: Account, o: OldCandidate)
    requires |o.bottom| <= MAX_BOTTOM
    ensures WithPurse(s, KickEach(PurseOf(s), c, Kicked(o))).(total := SatSub(s.total, Sum(Kicked(o)))) == s
  {
    assert Kicked(o) == [];
  }

  /** The migration over all stored records, in whatever order they are iterated. No lookup it
      expects to succeed fails, and it establishes every candidate's invariant. */
  method SplitCandidateState(st: Storage, stored: OldCandidates) returns (order: seq<Account>)
    requires Ready(st.View(), stored)
    modifies st
    ensures Enumerates(order, stored) && st.View() == SplitEach(old(st.View()), stored, order)
    ensures BooksOk(st.View()) && Tied(st.View()) && NoDrift(st.View())
  {
    hide Tied, Whole, SplitOne, Ready, BooksOk, NoDrift, Remaining, Underway;
    ghost var s := st.View();
    var rest := stored.Keys;
    order := [];
    while rest != {}
      invariant Selection.NoRepeats(order)
      invariant forall c :: c in order <==> c in stored && c !in rest
      invariant rest <= stored.Keys
      invariant st.View() == SplitEach(s, stored, order)
      decreases |rest|
    {
      var account :| account in rest;
      SplitEachKeeps(s, stored, order);
      UnderwayMeans(s, stored, order, st.View());
      RemainingOne(stored, order, account);
      MigrateOne(st, account, stored[account], Remaining(stored, order));
      assert (order + [account])[..|order|] == order;
      order := order + [account];
      rest := rest - {account};
    }
    SplitTheorem(s, stored, order);
  }

  lemma UnderwayMeans(s: Ledger, stored: OldCandidates, order: seq<Account>, r: Ledger)
    requires (forall c :: c in order ==> c in stored) && Underway(s, stored, order, r)
    ensures Tied(Whole(r, Remaining(stored, order)))
  {
  }
}

/** Rounds over the staking ledger: what a block does at its start, when a round ends, which
    snapshots are taken, how points are awarded and how the rewards of an earlier round are paid, one
    author per block. */
module Rounds {
  import opened Bonds
  import opened Params
  import opened OrderedSets
  import opened Ledgers
  import opened Payments
  import opened Selection
  import Candidates
  import Delays
  import Runs
  import Sums

  type Snapshots = map<Account, Snapshot>
  type Award = map<Account, nat>

  datatype State = State(
    ledger: Ledger,
    first: nat,
    selected: seq<Account>,
    atStake: map<nat, Snapshots>,
    staked: map<nat, Balance>,
    points: map<nat, nat>,
    awarded: map<nat, Award>,
    payouts: map<nat, DelayedPayout>)

  datatype Range = Range(min: Balance, ideal: Balance, max: Balance)

  /** What governance has set at the time of a block. */
  datatype Settings = Settings(
    length: nat, totalSelected: nat, expectations: Range, issuance: Range,
    bondAccount: Account, bondPercent: nat, commission: nat)

  const POINTS_PER_BLOCK: nat := 20
  const U32_MAX: nat := 0xFFFF_FFFF

  function SatAdd32(a: nat, b: nat): nat {
    Min(a + b, U32_MAX)
  }

  /** A missing round reads as an empty map, a missing number as zero. */
  function Inner<T>(m: map<nat, map<Account, T>>, r: nat): map<Account, T> {
    if r in m then m[r] else map[]
  }

  // ----- selection -----

  function SnapshotOf(s: Ledger, c: Account): Snapshot
    requires c in s.info && c in s.top
  {
    Snapshot(s.info[c].bond, s.top[c].delegations, s.info[c].totalCounted)
  }

  function SnapshotsOf(s: Ledger, collators: seq<Account>): Snapshots {
    map c | c in collators && c in s.info && c in s.top :: SnapshotOf(s, c)
  }

  /** The selection for round `now`; without any qualified candidate the previous one stays, and its
      snapshots are copied. */
  function SelectTop(st: State, now: nat, totalSelected: nat): State {
    Reselect(st, now, TopCandidates(st.ledger.pool, totalSelected))
  }

  function Reselect(st: State, now: nat, collators: seq<Account>): State {
    if collators == [] then
      st.(atStake := st.atStake[now := Inner(st.atStake, now) + Inner(st.atStake, SatSub(now, 1))])
    else
      st.(atStake := st.atStake[now := Inner(st.atStake, now) + SnapshotsOf(st.ledger, collators)],
          selected := collators)
  }

  /** What a selection reports: collators and delegations, counted as `u32`s, and the stake. */
  datatype Counts = Counts(collators: nat, delegations: nat, total: Balance)

  function Counted(n: Counts, delegations: nat, total: Balance): Counts {
    Counts(SatAdd32(n.collators, 1), SatAdd32(n.delegations, delegations), n.total + total)
  }

  ghost function CountsOf(sizes: map<Account, nat>, totals: map<Account, nat>): Counts {
    Counts(Min(U32_MAX, |sizes|), Min(U32_MAX, Sums.SumMap(sizes)), Sums.SumMap(totals))
  }

  function SnapshotSizes(m: Snapshots): map<Account, nat> {
    map c | c in m :: |m[c].delegations|
  }

  function SnapshotTotals(m: Snapshots): map<Account, nat> {
    map c | c in m :: m[c].total
  }

  function StoredSizes(s: Ledger, collators: seq<Account>): map<Account, nat> {
    map c | c in collators && c in s.info :: s.info[c].delegationCount
  }

  function StoredTotals(s: Ledger, collators: seq<Account>): map<Account, nat> {
    map c | c in collators && c in s.info :: s.info[c].totalCounted
  }

  /** A new selection counts the delegations of both lists, a copied one those in its snapshots. */
  ghost function SelectionCounts(st: State, now: nat, totalSelected: nat): Counts {
    var collators := TopCandidates(st.ledger.pool, totalSelected);
    var last := Inner(st.atStake, SatSub(now, 1));
    if collators == [] then CountsOf(SnapshotSizes(last), SnapshotTotals(last))
    else CountsOf(StoredSizes(st.ledger, collators), StoredTotals(st.ledger, collators))
  }

  // ----- payouts -----

  predicate Exists(s: Ledger, a: Account) {
    Get(s.free, a) + Get(s.reserved, a) > 0
  }

  /** `deposit_into_existing`: nothing reaches an account that does not exist. */
  function Deposit(s: Ledger, a: Account, v: Balance): Ledger {
    if v > 0 && Exists(s, a) then s.(free := s.free[a := Get(s.free, a) + v]) else s
  }

  function DepositEach(s: Ledger, mints: seq<Mint>): Ledger {
    if mints == [] then s
    else Deposit(DepositEach(s, mints[..|mints| - 1]), mints[|mints| - 1].to, mints[|mints| - 1].amount)
  }

  function ComputeIssuance(staked: Balance, settings: Settings): Balance {
    if staked < settings.expectations.min then settings.issuance.min
    else if staked > settings.expectations.max then settings.issuance.max
    else settings.issuance.ideal
  }

  /** `pct` percent of `x`, to the nearest unit, halves down. */
  function PercentOf(pct: nat, x: nat): nat {
    (2 * (Min(pct, 100) * x) + 99) / 200
  }

  function PayoutFor(s: Ledger, staked: Balance, settings: Settings): DelayedPayout {
    var issuance := ComputeIssuance(staked, settings);
    var reserve := PercentOf(settings.bondPercent, issuance);
    DelayedPayout(issuance, SatSub(issuance, if Exists(s, settings.bondAccount) then reserve else 0),
                  settings.commission)
  }

  /** At the start of round `now`, the reward of the round `REWARD_PAYMENT_DELAY` before is fixed. */
  function Prepare(st: State, now: nat, settings: Settings): State {
    if now <= REWARD_PAYMENT_DELAY then st
    else
      var r := now - REWARD_PAYMENT_DELAY;
      if Get(st.points, r) == 0 then st
      else
        var issuance := ComputeIssuance(Get(st.staked, r), settings);
        st.(staked := st.staked - {r},
            ledger := Deposit(st.ledger, settings.bondAccount, PercentOf(settings.bondPercent, issuance)),
            payouts := st.payouts[r := PayoutFor(st.ledger, Get(st.staked, r), settings)])
  }

  /** The author a draining iteration hits next: `pick`, or any. */
  ghost function Drained(award: Award, pick: Account): (a: Account)
    requires award != map[]
    ensures a in award && (pick in award ==> a == pick)
  {
    if pick in award then pick
    else
      var a :| a in award;
      a
  }

  function Taken(snapshots: Snapshots, collator: Account): Snapshot {
    if collator in snapshots then snapshots[collator] else Snapshot(0, [], 0)
  }

  function PayOne(st: State, r: nat, payout: DelayedPayout, collator: Account): State
    requires collator in Inner(st.awarded, r)
  {
    var mints := Mints(collator, Taken(Inner(st.atStake, r), collator), payout, st.awarded[r][collator],
                       Get(st.points, r));
    st.(awarded := st.awarded[r := st.awarded[r] - {collator}],
        atStake := st.atStake[r := Inner(st.atStake, r) - {collator}],
        ledger := DepositEach(st.ledger, mints))
  }

  predicate Draining(st: State, r: nat) {
    r in st.payouts && Get(st.points, r) > 0 && Inner(st.awarded, r) != map[]
  }

  /** Each block pays one author of the round `REWARD_PAYMENT_DELAY` before; when none is left the
      round's payout and points are removed. */
  ghost function HandlePayouts(st: State, now: nat, pick: Account): State {
    if now < REWARD_PAYMENT_DELAY then st
    else
      var r := now - REWARD_PAYMENT_DELAY;
      if r !in st.payouts then st
      else if Draining(st, r) then PayOne(st, r, st.payouts[r], Drained(st.awarded[r], pick))
      else st.(payouts := st.payouts - {r}, points := st.points - {r})
  }

  // ----- steps -----

  predicate RoundEnds(st: State, now: nat, settings: Settings) {
    now - st.first >= settings.length
  }

  function NextRound(st: State, now: nat, settings: Settings): State {
    var r := st.ledger.round + 1;
    var t := SelectTop(Prepare(st, r, settings), r, settings.totalSelected);
    t.(ledger := t.ledger.(round := r), first := now, staked := t.staked[r := t.ledger.total])
  }

  ghost function Initialize(st: State, now: nat, settings: Settings, pick: Account): State {
    var t := if RoundEnds(st, now, settings) then NextRound(st, now, settings) else st;
    HandlePayouts(t, t.ledger.round, pick)
  }

  function NoteAuthor(st: State, author: Account): State {
    var now := st.ledger.round;
    var award := Inner(st.awarded, now);
    st.(awarded := st.awarded[now := award[author := SatAdd32(Get(award, author), POINTS_PER_BLOCK)]],
        points := st.points[now := SatAdd32(Get(st.points, now), POINTS_PER_BLOCK)])
  }

  datatype Step =
    | Block(now: nat, settings: Settings, pick: Account)
    | Authored(author: Account)
    | Extrinsic(call: Runs.Call)

  /** A new round comes only with a block. */
  function Extrinsically(st: State, call: Runs.Call): State {
    if call.NewRound? then st else st.(ledger := Runs.Apply(st.ledger, call).ledger)
  }

  ghost function Apply(st: State, step: Step): State {
    match step
    case Block(now, settings, pick) => Initialize(st, now, settings, pick)
    case Authored(author) => NoteAuthor(st, author)
    case Extrinsic(call) => Extrinsically(st, call)
  }

  /** Round 1 begins with block 0, on whatever was bonded and delegated at genesis. */
  function Genesis(s: Ledger, totalSelected: nat): State {
    var st := SelectTop(State(s.(round := 1), 0, [], map[], map[], map[], map[], map[]), 1, totalSelected);
    st.(staked := st.staked[1 := s.total])
  }

  // ----- invariants -----

  /** The selected of the current round are exactly the accounts with a snapshot for it, in order;
      every snapshot ever kept adds up. */
  ghost predicate SelectionOk(selected: seq<Account>, atStake: map<nat, Snapshots>, round: nat) {
    && Increasing(selected)
    && (forall c :: c in selected <==> c in Inner(atStake, round))
    && (forall r: nat, c :: c in Inner(atStake, r) ==> r <= round && SnapshotOk(Inner(atStake, r)[c]))
  }

  /** Until a round is paid its points are the sum of what was awarded, saturated like any `u32`. */
  ghost predicate PointsOk(points: map<nat, nat>, awarded: map<nat, Award>, round: nat) {
    && (forall r: nat :: r + REWARD_PAYMENT_DELAY > round ==>
          Get(points, r) == Min(U32_MAX, Sums.SumMap(Inner(awarded, r))))
    && (forall r: nat, c :: c in Inner(awarded, r) ==> r <= round && 0 < Inner(awarded, r)[c] <= U32_MAX)
  }

  /** A round being paid has points, and, unless they are saturated, enough for all still unpaid. */
  ghost predicate PayoutsOk(payouts: map<nat, DelayedPayout>, points: map<nat, nat>, awarded: map<nat, Award>,
      round: nat) {
    forall r :: r in payouts ==>
      && r + REWARD_PAYMENT_DELAY <= round
      && 0 < Get(points, r) <= U32_MAX
      && (Get(points, r) == U32_MAX || Sums.SumMap(Inner(awarded, r)) <= Get(points, r))
      && payouts[r].totalStakingReward <= payouts[r].roundIssuance
  }

  ghost predicate Valid(st: State) {
    && Consistent(st.ledger)
    && SelectionOk(st.selected, st.atStake, st.ledger.round)
    && PointsOk(st.points, st.awarded, st.ledger.round)
    && PayoutsOk(st.payouts, st.points, st.awarded, st.ledger.round)
  }

  // ----- the ledger under the rounds -----

  /** Deposits touch nothing but free balances. */
  lemma {:induction false} DepositEachIsFree(s: Ledger, mints: seq<Mint>)
    ensures DepositEach(s, mints) == s.(free := DepositEach(s, mints).free)
  {
    if mints != [] {
      DepositEachIsFree(s, mints[..|mints| - 1]);
    }
  }

  /** Credits create at most what they say; exactly that when every receiver exists. */
  lemma {:induction false} DepositsCreate(s: Ledger, mints: seq<Mint>)
    ensures Sums.SumMap(DepositEach(s, mints).free) <= Sums.SumMap(s.free) + SumMints(mints)
    ensures (forall a :: Exists(s, a) ==> Exists(DepositEach(s, mints), a))
    ensures (forall i :: 0 <= i < |mints| ==> Exists(s, mints[i].to)) ==>
              Sums.SumMap(DepositEach(s, mints).free) == Sums.SumMap(s.free) + SumMints(mints)
  {
    hide Sums.SumMap;
    if mints != [] {
      var init := mints[..|mints| - 1];
      var t := DepositEach(s, init);
      var m := mints[|mints| - 1];
      DepositsCreate(s, init);
      Sums.Update(t.free, m.to, Get(t.free, m.to) + m.amount);
    }
  }

  /** Paying one author creates at most the larger of its share and the commission, and half a unit
      for each receiver. */
  lemma PaymentCreates(st: State, r: nat, payout: DelayedPayout, c: Account)
    requires Valid(st) && c in Inner(st.awarded, r)
    ensures var paid := TotalPaid(payout, Inner(st.awarded, r)[c], Get(st.points, r));
            var commission := Commission(payout, Inner(st.awarded, r)[c], Get(st.points, r));
            2 * Sums.SumMap(PayOne(st, r, payout, c).ledger.free)
            <= 2 * Sums.SumMap(st.ledger.free) + 2 * (if paid < commission then commission else paid)
               + |Taken(Inner(st.atStake, r), c).delegations| + 1
  {
    hide Sums.SumMap, Valid, DepositEach, Mints, TotalPaid, Commission, SumMints, PayOne, Get, Taken, SnapshotOk, Inner;
    var snapshot := Taken(Inner(st.atStake, r), c);
    var pts := Inner(st.awarded, r)[c];
    var mints := Mints(c, snapshot, payout, pts, Get(st.points, r));
    TakenOk(st, r, c);
    PayoutBound(c, snapshot, payout, pts, Get(st.points, r));
    DepositsCreate(st.ledger, mints);
    PaysMints(st, r, payout, c);
  }

  lemma PaysMints(st: State, r: nat, payout: DelayedPayout, c: Account)
    requires c in Inner(st.awarded, r)
    ensures PayOne(st, r, payout, c).ledger
            == DepositEach(st.ledger,
                           Mints(c, Taken(Inner(st.atStake, r), c), payout, Inner(st.awarded, r)[c], Get(st.points, r)))
  {
    hide DepositEach, Mints;
  }

  /** What is taken for an author adds up, also for one without a snapshot. */
  lemma TakenOk(st: State, r: nat, c: Account)
    requires Valid(st)
    ensures SnapshotOk(Taken(Inner(st.atStake, r), c))
  {
    hide Consistent, PointsOk, PayoutsOk;
  }

  lemma PrepareIsFree(st: State, now: nat, settings: Settings)
    ensures Prepare(st, now, settings).ledger == st.ledger.(free := Prepare(st, now, settings).ledger.free)
  {
  }

  lemma HandleIsFree(st: State, now: nat, pick: Account)
    ensures HandlePayouts(st, now, pick).ledger == st.ledger.(free := HandlePayouts(st, now, pick).ledger.free)
  {
    hide DepositEach, Mints;
    if now >= REWARD_PAYMENT_DELAY {
      var r := now - REWARD_PAYMENT_DELAY;
      if Draining(st, r) {
        var c := Drained(st.awarded[r], pick);
        DepositEachIsFree(st.ledger,
                          Mints(c, Taken(Inner(st.atStake, r), c), st.payouts[r], st.awarded[r][c], Get(st.points, r)));
      }
    }
  }

  lemma EnvironmentConsistent(s: Ledger, round: nat, free: map<Account, Balance>)
    requires Consistent(s)
    ensures Consistent(s.(round := round)) && Consistent(s.(free := free))
  {
    hide Consistent;
    Runs.EnvironmentKeeps(s, round, free);
    Runs.KeepsParts(s, s.(round := round));
    Runs.KeepsParts(s, s.(free := free));
  }

  // ----- snapshots -----

  /** A pool member is an active candidate whose counted total is its bond and its top list. */
  lemma PoolMember(s: Ledger, c: Account)
    requires Consistent(s) && Count(s.pool, c) > 0
    ensures Listed(s, c) && s.info[c].status.Active? && StakeOf(s.pool, c) == s.info[c].totalCounted
    ensures SnapshotOk(SnapshotOf(s, c))
  {
    assert Count(s.pool, c) == PoolCount(s.info, c) && StakeOf(s.pool, c) == PoolStake(s.info, c);
    assert Candidates.Ok(CandidateAt(s, c));
  }

  /** The collators of a selection are candidates: reading their metadata and lists cannot fail. */
  lemma SelectedAreCandidates(s: Ledger, totalSelected: nat)
    requires Consistent(s)
    ensures Increasing(TopCandidates(s.pool, totalSelected))
    ensures forall c :: c in TopCandidates(s.pool, totalSelected) ==>
              Listed(s, c) && SnapshotOk(SnapshotOf(s, c)) && s.info[c].totalCounted >= MIN_COLLATOR_STK
  {
    assert ByOwner(s.pool);
    SelectionTheorem(s.pool, totalSelected);
    forall c | c in TopCandidates(s.pool, totalSelected)
      ensures Listed(s, c) && SnapshotOk(SnapshotOf(s, c)) && s.info[c].totalCounted >= MIN_COLLATOR_STK
    {
      PoolMember(s, c);
    }
  }

  lemma NoSnapshotsYet(selected: seq<Account>, atStake: map<nat, Snapshots>, now: nat)
    requires now > 0 && SelectionOk(selected, atStake, now - 1)
    ensures Inner(atStake, now) == map[]
  {
    hide SnapshotOk, Increasing;
    if c :| c in Inner(atStake, now) {
      assert false;
    }
  }

  lemma CountsStart()
    ensures CountsOf(map[], map[]) == Counts(0, 0, 0)
  {
  }

  lemma CountsOne(sizes: map<Account, nat>, totals: map<Account, nat>, c: Account, size: nat, total: Balance)
    requires c !in sizes && c !in totals
    ensures CountsOf(sizes[c := size], totals[c := total]) == Counted(CountsOf(sizes, totals), size, total)
  {
    hide Sums.SumMap;
    Sums.Update(sizes, c, size);
    Sums.Update(totals, c, total);
    assert sizes[c := size].Keys == sizes.Keys + {c};
    assert sizes[c := size] - {c} == sizes;
    assert |sizes[c := size].Keys| == |sizes.Keys| + 1;
  }

  /** In either case the collators and the stake reported are those of the snapshots taken. */
  lemma CountsAreSnapshots(st: State, now: nat, totalSelected: nat)
    requires Consistent(st.ledger) && now > 0 && SelectionOk(st.selected, st.atStake, now - 1)
    ensures var n := SelectionCounts(st, now, totalSelected);
            var taken := Inner(SelectTop(st, now, totalSelected).atStake, now);
            n.collators == Min(U32_MAX, |taken|) && n.total == Sums.SumMap(SnapshotTotals(taken))
  {
    hide Consistent, SelectionOk, TopCandidates, Sums.SumMap, Increasing, SnapshotOk;
    var collators := TopCandidates(st.ledger.pool, totalSelected);
    NoSnapshotsYet(st.selected, st.atStake, now);
    if collators == [] {
      var last := Inner(st.atStake, now - 1);
      assert SnapshotSizes(last).Keys == last.Keys;
      assert map[] + last == last;
    } else {
      SelectedAreCandidates(st.ledger, totalSelected);
      SameTotals(st.ledger, collators);
    }
  }

  lemma SameTotals(s: Ledger, collators: seq<Account>)
    requires forall c :: c in collators ==> c in s.info && c in s.top
    ensures SnapshotTotals(SnapshotsOf(s, collators)) == StoredTotals(s, collators)
    ensures |SnapshotsOf(s, collators)| == |StoredSizes(s, collators)|
    ensures map[] + SnapshotsOf(s, collators) == SnapshotsOf(s, collators)
  {
    assert SnapshotsOf(s, collators).Keys == StoredSizes(s, collators).Keys;
  }

  /** New snapshots for round `now` of exactly the accounts in `collators`. */
  lemma SnapshotsAdded(selected: seq<Account>, atStake: map<nat, Snapshots>, now: nat, collators: seq<Account>,
      added: Snapshots)
    requires now > 0 && SelectionOk(selected, atStake, now - 1) && Increasing(collators)
    requires forall c :: c in collators <==> c in added
    requires forall c :: c in added ==> SnapshotOk(added[c])
    ensures SelectionOk(collators, atStake[now := Inner(atStake, now) + added], now)
  {
    hide SnapshotOk, Increasing;
    var after := atStake[now := Inner(atStake, now) + added];
    NoSnapshotsYet(selected, atStake, now);
    assert Inner(after, now) == added;
    forall r: nat, c | c in Inner(after, r)
      ensures r <= now && SnapshotOk(Inner(after, r)[c])
    {
      if r != now {
        assert c in Inner(atStake, r) && Inner(after, r)[c] == Inner(atStake, r)[c];
      }
    }
  }

  /** After a selection, failed or not, the accounts with a snapshot for the new round are the
      selected ones: the snapshot sought for each selected candidate is always there. */
  lemma SelectKeeps(st: State, now: nat, totalSelected: nat)
    requires Consistent(st.ledger) && now > 0 && SelectionOk(st.selected, st.atStake, now - 1)
    ensures var t := SelectTop(st, now, totalSelected); SelectionOk(t.selected, t.atStake, now)
  {
    hide Consistent, TopCandidates;
    SelectedAreCandidates(st.ledger, totalSelected);
    ReselectKeeps(st, now, TopCandidates(st.ledger.pool, totalSelected));
  }

  lemma ReselectKeeps(st: State, now: nat, collators: seq<Account>)
    requires now > 0 && SelectionOk(st.selected, st.atStake, now - 1) && Increasing(collators)
    requires forall c :: c in collators ==> Listed(st.ledger, c) && SnapshotOk(SnapshotOf(st.ledger, c))
    ensures var t := Reselect(st, now, collators); SelectionOk(t.selected, t.atStake, now)
  {
    hide SnapshotOk, Increasing;
    if collators == [] {
      SnapshotsAdded(st.selected, st.atStake, now, st.selected, Inner(st.atStake, now - 1));
    } else {
      SnapshotsAdded(st.selected, st.atStake, now, collators, SnapshotsOf(st.ledger, collators));
    }
  }

  // ----- payouts -----

  lemma PercentWithin(pct: nat, x: nat)
    ensures PercentOf(pct, x) <= x
  {
    Monotone(x, Min(pct, 100), 100);
    DivBounds(2 * (Min(pct, 100) * x) + 99, 200);
  }

  /** What is set aside for the bond account and what is left for staking make up the issuance. */
  lemma IssuanceIsSplit(s: Ledger, staked: Balance, settings: Settings)
    ensures var issuance := ComputeIssuance(staked, settings);
            var reserve := PercentOf(settings.bondPercent, issuance);
            var payout := PayoutFor(s, staked, settings);
            && payout.roundIssuance == issuance
            && payout.totalStakingReward + (if Exists(s, settings.bondAccount) then reserve else 0) == issuance
  {
    PercentWithin(settings.bondPercent, ComputeIssuance(staked, settings));
  }

  /** Somebody awarded means points, and the other way round. */
  lemma {:induction false} SomePoints(award: Award)
    requires forall c :: c in award ==> award[c] > 0
    ensures Sums.SumMap(award) > 0 <==> award != map[]
  {
    if award != map[] {
      var c :| c in award;
      Sums.TakeOut(award, c);
    }
  }

  lemma PrepareKeeps(st: State, now: nat, settings: Settings)
    requires now > 0 && PointsOk(st.points, st.awarded, now - 1)
             && PayoutsOk(st.payouts, st.points, st.awarded, now - 1)
    ensures var t := Prepare(st, now, settings);
            PointsOk(t.points, t.awarded, now) && PayoutsOk(t.payouts, t.points, t.awarded, now)
  {
    hide Deposit, PayoutFor, Sums.SumMap;
    if now > REWARD_PAYMENT_DELAY {
      IssuanceIsSplit(st.ledger, Get(st.staked, now - REWARD_PAYMENT_DELAY), settings);
    }
  }

  /** Taking a snapshot of a past round out leaves the selection of the current one alone. */
  lemma SnapshotTaken(selected: seq<Account>, atStake: map<nat, Snapshots>, now: nat, r: nat, c: Account)
    requires SelectionOk(selected, atStake, now) && r < now
    ensures SelectionOk(selected, atStake[r := Inner(atStake, r) - {c}], now)
  {
    hide SnapshotOk, Increasing;
    var after := atStake[r := Inner(atStake, r) - {c}];
    assert Inner(after, now) == Inner(atStake, now);
    forall x: nat, a | a in Inner(after, x)
      ensures x <= now && SnapshotOk(Inner(after, x)[a])
    {
      assert a in Inner(atStake, x) && Inner(after, x)[a] == Inner(atStake, x)[a];
    }
  }

  /** One author of a past round less to pay. */
  lemma AwardTaken(points: map<nat, nat>, awarded: map<nat, Award>, payouts: map<nat, DelayedPayout>, now: nat, r: nat,
      c: Account)
    requires PointsOk(points, awarded, now) && PayoutsOk(payouts, points, awarded, now)
    requires r + REWARD_PAYMENT_DELAY <= now && c in Inner(awarded, r)
    ensures PointsOk(points, awarded[r := awarded[r] - {c}], now)
    ensures PayoutsOk(payouts, points, awarded[r := awarded[r] - {c}], now)
  {
    hide Sums.SumMap;
    var after := awarded[r := awarded[r] - {c}];
    Sums.Remove(awarded[r], c);
    forall x: nat, a | a in Inner(after, x)
      ensures x <= now && 0 < Inner(after, x)[a] <= U32_MAX
    {
      assert a in Inner(awarded, x) && Inner(after, x)[a] == Inner(awarded, x)[a];
    }
  }

  lemma HandleKeeps(st: State, now: nat, pick: Account)
    requires PointsOk(st.points, st.awarded, now) && PayoutsOk(st.payouts, st.points, st.awarded, now)
    requires SelectionOk(st.selected, st.atStake, now)
    ensures var t := HandlePayouts(st, now, pick);
            && PointsOk(t.points, t.awarded, now) && PayoutsOk(t.payouts, t.points, t.awarded, now)
            && SelectionOk(t.selected, t.atStake, now)
  {
    hide DepositEach, Mints, SelectionOk, Sums.SumMap;
    if now >= REWARD_PAYMENT_DELAY {
      var r := now - REWARD_PAYMENT_DELAY;
      if Draining(st, r) {
        hide PointsOk, PayoutsOk;
        var c := Drained(st.awarded[r], pick);
        AwardTaken(st.points, st.awarded, st.payouts, now, r, c);
        SnapshotTaken(st.selected, st.atStake, now, r, c);
      }
    }
  }

  // ----- every step -----

  lemma BlockKeeps(st: State, now: nat, settings: Settings, pick: Account)
    requires Valid(st)
    ensures Valid(Initialize(st, now, settings, pick))
  {
    hide Consistent, SelectionOk, PointsOk, PayoutsOk, Prepare, SelectTop, HandlePayouts;
    var r := st.ledger.round + 1;
    var t := if RoundEnds(st, now, settings) then NextRound(st, now, settings) else st;
    if RoundEnds(st, now, settings) {
      var p := Prepare(st, r, settings);
      PrepareIsFree(st, r, settings);
      PrepareFrame(st, r, settings);
      EnvironmentConsistent(st.ledger, r, p.ledger.free);
      EnvironmentConsistent(p.ledger, r, p.ledger.free);
      PrepareKeeps(st, r, settings);
      SelectKeeps(p, r, settings.totalSelected);
      SelectFrame(p, r, settings.totalSelected);
    }
    HandleKeeps(t, t.ledger.round, pick);
    HandleIsFree(t, t.ledger.round, pick);
    EnvironmentConsistent(t.ledger, r, HandlePayouts(t, t.ledger.round, pick).ledger.free);
  }

  lemma PrepareFrame(st: State, now: nat, settings: Settings)
    ensures var t := Prepare(st, now, settings);
            t.selected == st.selected && t.atStake == st.atStake && t.points == st.points && t.awarded == st.awarded
            && t.first == st.first
  {
  }

  lemma SelectFrame(st: State, now: nat, totalSelected: nat)
    ensures var t := SelectTop(st, now, totalSelected);
            t.ledger == st.ledger && t.points == st.points && t.awarded == st.awarded && t.payouts == st.payouts
            && t.first == st.first
  {
    ReselectFrame(st, now, TopCandidates(st.ledger.pool, totalSelected));
  }

  lemma ReselectFrame(st: State, now: nat, collators: seq<Account>)
    ensures var t := Reselect(st, now, collators);
            t.ledger == st.ledger && t.points == st.points && t.awarded == st.awarded && t.payouts == st.payouts
            && t.first == st.first
  {
    hide SnapshotsOf, Inner;
  }

  /** Points and awards grow together; when one of them saturates, both sums have reached the
      limit. Rounds being paid are past rounds, out of reach. */
  lemma PointsGrow(points: map<nat, nat>, awarded: map<nat, Award>, payouts: map<nat, DelayedPayout>, now: nat,
      author: Account)
    requires PointsOk(points, awarded, now) && PayoutsOk(payouts, points, awarded, now)
    ensures var award := Inner(awarded, now);
            var more := awarded[now := award[author := SatAdd32(Get(award, author), POINTS_PER_BLOCK)]];
            var after := points[now := SatAdd32(Get(points, now), POINTS_PER_BLOCK)];
            PointsOk(after, more, now) && PayoutsOk(payouts, after, more, now)
  {
    hide Sums.SumMap;
    var award := Inner(awarded, now);
    var more := awarded[now := award[author := SatAdd32(Get(award, author), POINTS_PER_BLOCK)]];
    var after := points[now := SatAdd32(Get(points, now), POINTS_PER_BLOCK)];
    Sums.Update(award, author, SatAdd32(Get(award, author), POINTS_PER_BLOCK));
    if author in award {
      Sums.TakeOut(award, author);
    }
    forall x: nat, a | a in Inner(more, x)
      ensures x <= now && 0 < Inner(more, x)[a] <= U32_MAX
    {
      if x != now || a != author {
        assert a in Inner(awarded, x) && Inner(more, x)[a] == Inner(awarded, x)[a];
      }
    }
    assert Get(points, now) == Min(U32_MAX, Sums.SumMap(award));
    forall x | x in payouts
      ensures Get(after, x) == Get(points, x) && Inner(more, x) == Inner(awarded, x)
    {
      assert x + REWARD_PAYMENT_DELAY <= now;
    }
  }

  lemma NoteAuthorKeeps(st: State, author: Account)
    requires Valid(st)
    ensures Valid(NoteAuthor(st, author))
  {
    hide Consistent, SelectionOk, PointsOk, PayoutsOk;
    PointsGrow(st.points, st.awarded, st.payouts, st.ledger.round, author);
  }

  lemma ExtrinsicKeeps(st: State, call: Runs.Call)
    requires Valid(st)
    ensures Valid(Extrinsically(st, call))
  {
    hide Consistent, SelectionOk, PointsOk, PayoutsOk, Runs.Apply;
    if !call.NewRound? {
      Runs.StepTheorem(st.ledger, call);
      Delays.RoundsAdvance(st.ledger, call);
    }
  }

  /** Every step keeps the whole invariant. */
  lemma StepKeeps(st: State, step: Step)
    requires Valid(st)
    ensures Valid(Apply(st, step))
  {
    hide Valid, Initialize, NoteAuthor, Extrinsically;
    match step
    case Block(now, settings, pick) => BlockKeeps(st, now, settings, pick);
    case Authored(author) => NoteAuthorKeeps(st, author);
    case Extrinsic(call) => ExtrinsicKeeps(st, call);
  }

  lemma GenesisValid(s: Ledger, totalSelected: nat)
    requires Consistent(s)
    ensures Valid(Genesis(s, totalSelected))
  {
    hide Consistent, SelectTop;
    var st := State(s.(round := 1), 0, [], map[], map[], map[], map[], map[]);
    EnvironmentConsistent(s, 1, s.free);
    SelectKeeps(st, 1, totalSelected);
    SelectFrame(st, 1, totalSelected);
  }
}

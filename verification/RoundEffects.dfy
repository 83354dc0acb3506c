/** What the rounds do, read off the storage before and after: which reward is fixed for which stake, what
    a snapshot holds, who is credited how much with which roundings, and what a block by an author is
    worth; for one step, and over runs of blocks. */
module RoundEffects {
  import opened Bonds
  import opened Params
  import opened Ledgers
  import opened Payments
  import opened Selection
  import opened Rounds
  import opened RoundRuns
  import Sums
  import Delays
  import Runs

  // ----- roundings -----

  /** `ratio` billionths are the largest part of the whole that is at most `p / q`, where nothing counts
      as one. */
  ghost predicate IsFloor(ratio: nat, p: nat, q: nat) {
    var d := if q == 0 then 1 else q;
    ratio * d <= p * BILLION < ratio * d + d
  }

  /** `m` is the unit nearest to `ratio` billionths of `x`, the lower one of two. */
  ghost predicate IsNearest(m: nat, ratio: nat, x: nat) {
    2 * (ratio * x) <= 2 * BILLION * m + BILLION && 2 * BILLION * m < 2 * (ratio * x) + BILLION
  }

  /** `m` is `p / q` of `x`, with both roundings. */
  ghost predicate IsPart(m: nat, p: nat, q: nat, x: nat) {
    exists ratio: nat :: IsFloor(ratio, p, q) && IsNearest(m, ratio, x)
  }

  lemma NearestIs(ratio: nat, x: nat)
    ensures IsNearest(Part(ratio, x), ratio, x)
  {
    DivBounds(2 * (ratio * x) + BILLION - 1, 2 * BILLION);
  }

  lemma PartIs(p: nat, q: nat, x: nat)
    requires p <= q
    ensures IsPart(Part(FromRational(p, q), x), p, q, x)
  {
    hide FromRational, Part, IsFloor, IsNearest;
    FloorIs(p, q);
    NearestIs(FromRational(p, q), x);
  }

  lemma FloorIs(p: nat, q: nat)
    requires p <= q
    ensures IsFloor(FromRational(p, q), p, q)
  {
    if q > 0 {
      RatioIsFloor(p, q);
    }
  }

  /** The roundings leave no choice. */
  lemma PartUnique(m: nat, n: nat, p: nat, q: nat, x: nat)
    requires IsPart(m, p, q, x) && IsPart(n, p, q, x)
    ensures m == n
  {
    hide IsFloor, IsNearest;
    var a: nat :| IsFloor(a, p, q) && IsNearest(m, a, x);
    var b: nat :| IsFloor(b, p, q) && IsNearest(n, b, x);
    FloorUnique(a, b, p, q);
    NearestUnique(m, n, a, x);
  }

  lemma FloorUnique(a: nat, b: nat, p: nat, q: nat)
    requires IsFloor(a, p, q) && IsFloor(b, p, q)
    ensures a == b
  {
    var d := if q == 0 then 1 else q;
    if a < b {
      Monotone(d, a + 1, b);
      Distribute(a, 1, d);
    }
    if b < a {
      Monotone(d, b + 1, a);
      Distribute(b, 1, d);
    }
  }

  lemma NearestUnique(m: nat, n: nat, ratio: nat, x: nat)
    requires IsNearest(m, ratio, x) && IsNearest(n, ratio, x)
    ensures m == n
  {
  }

  // ----- paying one author -----

  /** How an author's reward is split: `share` is its part of the round's reward, `fee` the commission
      rate's part of the round's issuance, and `commission` the author's part of that. Without delegators
      the collator gets the share. Otherwise it gets the commission and its bond's part of what is left of
      the share, and each delegator, in order, its delegation's part. */
  ghost predicate IsSplit(mints: seq<Mint>, collator: Account, s: Snapshot, payout: DelayedPayout, pts: nat,
      points: nat,
      share: Balance, fee: Balance, commission: Balance)
  {
    && IsPart(share, pts, points, payout.totalStakingReward)
    && IsNearest(fee, payout.collatorCommission, payout.roundIssuance)
    && IsPart(commission, pts, points, fee)
    && if s.delegations == [] then mints == [Mint(collator, share)]
       else
         var due := SatSub(share, commission);
         && |mints| == |s.delegations| + 1
         && mints[0].to == collator && mints[0].amount >= commission
         && IsPart(mints[0].amount - commission, s.bond, s.total, due)
         && forall i :: 0 <= i < |s.delegations| ==>
              mints[i + 1].to == s.delegations[i].owner
                && IsPart(mints[i + 1].amount, s.delegations[i].amount, s.total, due)
  }

  lemma PaymentIsSplit(collator: Account, s: Snapshot, payout: DelayedPayout, pts: nat, points: nat)
    returns (share: Balance, fee: Balance, commission: Balance)
    requires SnapshotOk(s) && pts <= points
    ensures IsSplit(Mints(collator, s, payout, pts, points), collator, s, payout, pts, points, share, fee, commission)
  {
    hide FromRational, Part, IsPart, IsNearest;
    share := TotalPaid(payout, pts, points);
    fee := Part(payout.collatorCommission, payout.roundIssuance);
    commission := Commission(payout, pts, points);
    PartIs(pts, points, payout.totalStakingReward);
    NearestIs(payout.collatorCommission, payout.roundIssuance);
    PartIs(pts, points, fee);
    if s.delegations != [] {
      var due := SatSub(share, commission);
      var mints := Mints(collator, s, payout, pts, points);
      PartIs(s.bond, s.total, due);
      DelegatorMintAt(s.delegations, s.total, due, 0);
      forall i | 0 <= i < |s.delegations|
        ensures mints[i + 1].to == s.delegations[i].owner
        ensures IsPart(mints[i + 1].amount, s.delegations[i].amount, s.total, due)
      {
        EntryWithinSum(s.delegations, i);
        DelegatorMintAt(s.delegations, s.total, due, i);
        PartIs(s.delegations[i].amount, s.total, due);
      }
    }
  }

  /** What a list of credits brings to `a`. */
  function CreditsTo(mints: seq<Mint>, a: Account): Balance {
    if mints == [] then 0
    else CreditsTo(mints[..|mints| - 1], a) + if mints[|mints| - 1].to == a then mints[|mints| - 1].amount else 0
  }

  /** Whoever exists gets its credits, nobody else gets anything. */
  lemma {:induction false} DepositsReach(s: Ledger, mints: seq<Mint>)
    ensures forall a :: Exists(DepositEach(s, mints), a) <==> Exists(s, a)
    ensures forall a :: Get(DepositEach(s, mints).free, a) == Get(s.free, a) + if Exists(s, a) then CreditsTo(mints, a)
            else 0
    ensures DepositEach(s, mints) == s.(free := DepositEach(s, mints).free)
  {
    if mints != [] {
      DepositsReach(s, mints[..|mints| - 1]);
      DepositReaches(DepositEach(s, mints[..|mints| - 1]), mints[|mints| - 1].to, mints[|mints| - 1].amount);
    }
  }

  lemma DepositReaches(s: Ledger, to: Account, amount: Balance)
    ensures forall a :: Exists(Deposit(s, to, amount), a) <==> Exists(s, a)
    ensures forall a :: Get(Deposit(s, to, amount).free, a) == Get(s.free, a) + if Exists(s, a) && a == to then amount
            else 0
    ensures Deposit(s, to, amount) == s.(free := Deposit(s, to, amount).free)
  {
  }

  /** While a round is paid, each block takes the award and the snapshot of one author and credits the split
      of its reward, by that snapshot; nothing else differs. */
  lemma PaymentEffect(st: State, r: nat, c: Account)
    returns (mints: seq<Mint>, share: Balance, fee: Balance, commission: Balance)
    requires Valid(st) && r in st.payouts && c in Inner(st.awarded, r)
    ensures var t := PayOne(st, r, st.payouts[r], c); var s := Taken(Inner(st.atStake, r), c);
            && IsSplit(mints, c, s, st.payouts[r], Inner(st.awarded, r)[c], Get(st.points, r), share, fee, commission)
            && (forall a :: Get(t.ledger.free, a)
                            == Get(st.ledger.free, a) + if Exists(st.ledger, a) then CreditsTo(mints, a) else 0)
            && t == st.(ledger := st.ledger.(free := t.ledger.free),
                        awarded := st.awarded[r := Inner(st.awarded, r) - {c}],
                        atStake := st.atStake[r := Inner(st.atStake, r) - {c}])
  {
    hide Mints, DepositEach, IsSplit, SnapshotOk, Valid;
    var s := Taken(Inner(st.atStake, r), c);
    TakenOk(st, r, c);
    AwardWithinPoints(st, r, c);
    share, fee, commission := PaymentIsSplit(c, s, st.payouts[r], Inner(st.awarded, r)[c], Get(st.points, r));
    mints := Mints(c, s, st.payouts[r], Inner(st.awarded, r)[c], Get(st.points, r));
    DepositsReach(st.ledger, mints);
  }

  /** The block's payment for round `r`: one of the authors awarded, with the reward fixed for the round;
      when none is left, only payout and points go. */
  lemma BlockPays(st: State, r: nat, pick: Account)
    returns (c: Account, mints: seq<Mint>, share: Balance, fee: Balance, commission: Balance)
    requires Valid(st)
    ensures var t := HandlePayouts(st, r + REWARD_PAYMENT_DELAY, pick);
            if Draining(st, r) then
              var award, s := Inner(st.awarded, r), Taken(Inner(st.atStake, r), c);
              && c in award && (pick in award ==> c == pick)
              && IsSplit(mints, c, s, st.payouts[r], award[c], Get(st.points, r), share, fee, commission)
              && (forall a :: Get(t.ledger.free, a)
                              == Get(st.ledger.free, a) + if Exists(st.ledger, a) then CreditsTo(mints, a) else 0)
              && t == st.(ledger := st.ledger.(free := t.ledger.free), awarded := st.awarded[r := award - {c}],
                          atStake := st.atStake[r := Inner(st.atStake, r) - {c}])
            else
              t == st.(payouts := st.payouts - {r}, points := if r in st.payouts then st.points - {r} else st.points)
  {
    hide Valid, IsSplit, PayOne;
    c, mints, share, fee, commission := 0, [], 0, 0, 0;
    if Draining(st, r) {
      c := Drained(st.awarded[r], pick);
      mints, share, fee, commission := PaymentEffect(st, r, c);
    } else {
      assert r !in st.payouts ==> st.payouts - {r} == st.payouts;
    }
  }

  lemma AwardWithinPoints(st: State, r: nat, c: Account)
    requires Valid(st) && r in st.payouts && c in Inner(st.awarded, r)
    ensures Inner(st.awarded, r)[c] <= Get(st.points, r)
  {
    hide Consistent, SelectionOk, Sums.SumMap;
    Sums.TakeOut(Inner(st.awarded, r), c);
  }

  // ----- what a snapshot holds -----

  /** A snapshot of `c` as this ledger has it. */
  ghost predicate IsSnapshot(m: Snapshot, s: Ledger, c: Account) {
    && Listed(s, c) && m.bond == s.info[c].bond && m.delegations == s.top[c].delegations
    && m.total == s.info[c].totalCounted
  }

  /** For round `now`, with somebody qualified, the selected are snapshotted as the ledger has them; with
      nobody, the previous round's snapshots and selection stay. No other round's snapshots differ. */
  ghost predicate Selects(st: State, t: State, now: nat, collators: seq<Account>) {
    && (if collators != [] then t.selected == collators && SnapshotsOfAll(Inner(t.atStake, now), st.ledger, collators)
        else t.selected == st.selected && Inner(t.atStake, now) == Inner(st.atStake, SatSub(now, 1)))
    && (forall r: nat :: r != now ==> Inner(t.atStake, r) == Inner(st.atStake, r))
  }

  ghost predicate SnapshotsOfAll(taken: Snapshots, s: Ledger, collators: seq<Account>) {
    && (forall c :: c in taken <==> c in collators)
    && (forall c :: c in taken ==> IsSnapshot(taken[c], s, c))
  }

  lemma SelectionEffect(st: State, now: nat, totalSelected: nat)
    requires Consistent(st.ledger) && now > 0 && SelectionOk(st.selected, st.atStake, now - 1)
    ensures Selects(st, SelectTop(st, now, totalSelected), now, TopCandidates(st.ledger.pool, totalSelected))
  {
    hide Consistent, SelectionOk, TopCandidates, Increasing, SnapshotOk, Selects, Reselect;
    NoSnapshotsYet(st.selected, st.atStake, now);
    SelectedAreCandidates(st.ledger, totalSelected);
    ReselectEffect(st, now, TopCandidates(st.ledger.pool, totalSelected));
  }

  lemma ReselectEffect(st: State, now: nat, collators: seq<Account>)
    requires now > 0 && Inner(st.atStake, now) == map[] && forall c :: c in collators ==> Listed(st.ledger, c)
    ensures Selects(st, Reselect(st, now, collators), now, collators)
  {
    hide SnapshotsOf, SnapshotsOfAll;
    var last := Inner(st.atStake, now - 1);
    var taken := SnapshotsOf(st.ledger, collators);
    assert map[] + last == last && map[] + taken == taken;
    SnapshotsAre(st.ledger, collators);
  }

  lemma SnapshotsAre(s: Ledger, collators: seq<Account>)
    requires forall c :: c in collators ==> Listed(s, c)
    ensures SnapshotsOfAll(SnapshotsOf(s, collators), s, collators)
  {
  }

  // ----- the beginning of a round -----

  /** What the block that begins round `r` does besides payouts: the round, its first block, the stake
      recorded for it, and its snapshots. */
  ghost predicate Begins(st: State, t: State, r: nat, now: nat, collators: seq<Account>)
    requires r > 0
  {
    && t.ledger.round == r && t.first == now
    && r in t.staked && t.staked[r] == st.ledger.total
    && (if collators != [] then t.selected == collators && SnapshotsOfAll(Inner(t.atStake, r), st.ledger, collators)
        else t.selected == st.selected && Inner(t.atStake, r) == Inner(st.atStake, r - 1))
  }

  /** Preparing a payout changes neither candidates nor snapshots. */
  lemma PrepareApart(st: State, now: nat, settings: Settings)
    ensures var p := Prepare(st, now, settings);
            && p.ledger == st.ledger.(free := p.ledger.free) && p.atStake == st.atStake && p.selected == st.selected
            && (forall r: nat :: r + REWARD_PAYMENT_DELAY != now ==>
                  (r in p.staked <==> r in st.staked) && (r in st.staked ==> p.staked[r] == st.staked[r]))
  {
  }

  /** A payout leaves all snapshots but those of the round it pays, and the rest of a round's record. */
  lemma HandleApart(t: State, pick: Account)
    ensures var u := HandlePayouts(t, t.ledger.round, pick);
            && u.ledger.round == t.ledger.round && u.first == t.first && u.staked == t.staked
                 && u.selected == t.selected
            && (forall r: nat :: r + REWARD_PAYMENT_DELAY != t.ledger.round ==>
                    Inner(u.atStake, r) == Inner(t.atStake, r))
  {
    hide DepositEach, Mints;
    HandleIsFree(t, t.ledger.round, pick);
  }

  lemma RoundBegins(st: State, now: nat, settings: Settings)
    requires Valid(st) && RoundEnds(st, now, settings)
    ensures Begins(st, NextRound(st, now, settings), st.ledger.round + 1, now,
                   TopCandidates(st.ledger.pool, settings.totalSelected))
    ensures forall r: nat :: r != st.ledger.round + 1 ==>
                               Inner(NextRound(st, now, settings).atStake, r) == Inner(st.atStake, r)
  {
    hide Consistent, SelectionOk, PointsOk, PayoutsOk, Prepare, SelectTop, TopCandidates, SnapshotsOfAll;
    var r := st.ledger.round + 1;
    var p := Prepare(st, r, settings);
    PrepareApart(st, r, settings);
    EnvironmentConsistent(st.ledger, r, p.ledger.free);
    SelectionEffect(p, r, settings.totalSelected);
    SelectFrame(p, r, settings.totalSelected);
    SameSnapshots(Inner(SelectTop(p, r, settings.totalSelected).atStake, r), p.ledger, st.ledger,
                  TopCandidates(st.ledger.pool, settings.totalSelected));
  }

  lemma SameSnapshots(taken: Snapshots, p: Ledger, s: Ledger, collators: seq<Account>)
    requires p == s.(free := p.free)
    ensures SnapshotsOfAll(taken, p, collators) <==> SnapshotsOfAll(taken, s, collators)
  {
  }

  /** The same for the whole block. */
  lemma BlockBegins(st: State, now: nat, settings: Settings, pick: Account)
    requires Valid(st) && RoundEnds(st, now, settings)
    ensures Begins(st, Apply(st, Block(now, settings, pick)), st.ledger.round + 1, now,
                   TopCandidates(st.ledger.pool, settings.totalSelected))
  {
    hide Valid, NextRound, HandlePayouts, TopCandidates, SnapshotsOfAll, RoundEnds;
    RoundBegins(st, now, settings);
    HandleApart(NextRound(st, now, settings), pick);
    InitializeAtEnd(st, now, settings, pick);
  }

  // ----- snapshots over runs -----

  /** A step takes the snapshot of the author it pays, and changes a round's snapshots in no other way. */
  lemma StepSnapshots(st: State, step: Step, r: nat)
    requires Valid(st) && r <= st.ledger.round
    ensures r <= Apply(st, step).ledger.round
    ensures Inner(Apply(st, step).atStake, r) == match PaidBy(st, step, r)
                                                 case None => Inner(st.atStake, r)
                                                 case Some(c) => Inner(st.atStake, r) - {c}
  {
    if step.Block? {
      hide Valid, HandlePayouts, NextRound, RoundEnds, Draining, Inner;
      var t := PayingState(st, step.now, step.settings);
      PayingFrame(st, step.now, step.settings);
      PayingSnapshots(st, step.now, step.settings, r);
      HandleSnapshots(t, step.pick, r);
    } else if step.Extrinsic? {
      hide Valid, Runs.Apply;
      Delays.RoundsAdvance(st.ledger, step.call);
    }
  }

  lemma PayingSnapshots(st: State, now: nat, settings: Settings, r: nat)
    requires Valid(st) && r <= st.ledger.round
    ensures Inner(PayingState(st, now, settings).atStake, r) == Inner(st.atStake, r)
  {
    hide Valid, NextRound, RoundEnds;
    if RoundEnds(st, now, settings) {
      RoundBegins(st, now, settings);
    }
  }

  lemma HandleSnapshots(t: State, pick: Account, r: nat)
    ensures var u := HandlePayouts(t, t.ledger.round, pick);
            && u.ledger.round == t.ledger.round
            && Inner(u.atStake, r) == if t.ledger.round == r + REWARD_PAYMENT_DELAY && Draining(t, r) then
                                        Inner(t.atStake, r) - {Drained(t.awarded[r], pick)}
                                      else Inner(t.atStake, r)
  {
    hide DepositEach, Mints;
    HandleIsFree(t, t.ledger.round, pick);
  }

  lemma {:induction false} RunSnapshots(st: State, steps: seq<Step>, r: nat)
    requires Valid(st) && r <= st.ledger.round
    ensures r <= RunSteps(st, steps).ledger.round
    ensures Inner(RunSteps(st, steps).atStake, r) == Inner(st.atStake, r) - (set c | c in Paid(st, steps, r))
  {
    hide Valid, Apply, PaidBy, Inner;
    if steps == [] {
      NoneTaken(Inner(st.atStake, r));
    } else {
      var init := steps[..|steps| - 1];
      var last := steps[|steps| - 1];
      RunSnapshots(st, init, r);
      RunValid(st, init);
      StepSnapshots(RunSteps(st, init), last, r);
      if PaidBy(RunSteps(st, init), last, r).Some? {
        OneMoreTaken(Inner(st.atStake, r), Paid(st, init, r), PaidBy(RunSteps(st, init), last, r).value);
      }
    }
  }

  lemma NoneTaken(m: Snapshots)
    ensures var none: seq<Account> := []; m - (set c | c in none) == m
  {
  }

  lemma OneMoreTaken(m: Snapshots, paid: seq<Account>, c: Account)
    ensures m - (set x | x in paid + [c]) == m - (set x | x in paid) - {c}
  {
  }

  /** Whatever happens after the block that begins a round: a snapshot of that round holds what the ledger
      held for the account when the round was selected, or, when nobody qualified, what the previous
      round's snapshot held; and the snapshots of all who are not paid yet are there. */
  lemma SnapshotTheorem(st: State, first: Step, steps: seq<Step>)
    requires Valid(st) && first.Block? && RoundEnds(st, first.now, first.settings)
    ensures var r := st.ledger.round + 1; var collators := TopCandidates(st.ledger.pool, first.settings.totalSelected);
            var paid := Paid(Apply(st, first), steps, r);
              var taken := Inner(RunSteps(Apply(st, first), steps).atStake, r);
            if collators != [] then
              && (forall c :: c in taken <==> c in collators && c !in paid)
              && (forall c :: c in taken ==> IsSnapshot(taken[c], st.ledger, c))
            else taken == Inner(st.atStake, r - 1) - (set c | c in paid)
  {
    hide Valid, Apply, RunSteps, Paid, TopCandidates, Inner, IsSnapshot, RoundEnds;
    var r := st.ledger.round + 1;
    BlockBegins(st, first.now, first.settings, first.pick);
    BlockValid(st, first);
    RunSnapshots(Apply(st, first), steps, r);
  }

  lemma BlockValid(st: State, step: Step)
    requires Valid(st)
    ensures Valid(Apply(st, step))
  {
    hide Valid, Apply;
    StepKeeps(st, step);
  }

  // ----- the reward of a round -----

  /** The unit nearest to a percentage, at most the whole, the lower one of two. */
  ghost predicate IsPercent(m: nat, pct: nat, x: nat) {
    2 * (Min(pct, 100) * x) <= 200 * m + 100 && 200 * m < 2 * (Min(pct, 100) * x) + 100
  }

  /** The payout for a round at whose beginning `staked` was staked: the least issuance of the settings below
      the expected range, the greatest above it, the ideal one in it; `reserve`, the bond account's
      percentage of that, comes out of the reward if that account exists. */
  ghost predicate IsReward(p: DelayedPayout, staked: Balance, s: Ledger, settings: Settings, reserve: Balance) {
    && (staked < settings.expectations.min ==> p.roundIssuance == settings.issuance.min)
    && (settings.expectations.min <= staked <= settings.expectations.max ==>
          p.roundIssuance == settings.issuance.ideal)
    && (settings.expectations.min <= staked && settings.expectations.max < staked ==>
          p.roundIssuance == settings.issuance.max)
    && IsPercent(reserve, settings.bondPercent, p.roundIssuance)
    && p.totalStakingReward + (if Exists(s, settings.bondAccount) then reserve else 0) == p.roundIssuance
    && p.collatorCommission == settings.commission
  }

  lemma RewardIs(s: Ledger, staked: Balance, settings: Settings)
    ensures IsReward(PayoutFor(s, staked, settings), staked, s, settings,
                     PercentOf(settings.bondPercent, PayoutFor(s, staked, settings).roundIssuance))
  {
    hide Exists;
    var issuance := ComputeIssuance(staked, settings);
    IssuanceIsSplit(s, staked, settings);
    DivBounds(2 * (Min(settings.bondPercent, 100) * issuance) + 99, 200);
  }

  /** What was staked at the beginning of a round stays recorded until the round is paid. */
  lemma StepStaked(st: State, step: Step, r: nat)
    requires r in st.staked && r <= st.ledger.round
    ensures st.ledger.round <= Apply(st, step).ledger.round
    ensures var t := Apply(st, step);
            t.ledger.round < r + REWARD_PAYMENT_DELAY ==> r in t.staked && t.staked[r] == st.staked[r]
  {
    match step
    case Authored(_) =>
    case Extrinsic(call) =>
      hide Runs.Apply;
      Delays.RoundsAdvance(st.ledger, call);
    case Block(now, settings, pick) =>
      hide HandlePayouts, NextRound, RoundEnds;
      PayingFrame(st, now, settings);
      HandleApart(PayingState(st, now, settings), pick);
      if RoundEnds(st, now, settings) {
        NextStaked(st, now, settings, r);
      }
  }

  lemma NextStaked(st: State, now: nat, settings: Settings, r: nat)
    requires r in st.staked && r <= st.ledger.round
    ensures var t := NextRound(st, now, settings);
            st.ledger.round + 1 < r + REWARD_PAYMENT_DELAY ==> r in t.staked && t.staked[r] == st.staked[r]
  {
    hide Prepare, SelectTop;
    var p := Prepare(st, st.ledger.round + 1, settings);
    PrepareApart(st, st.ledger.round + 1, settings);
    SelectStaked(p, st.ledger.round + 1, settings.totalSelected);
  }

  lemma SelectStaked(st: State, now: nat, totalSelected: nat)
    ensures SelectTop(st, now, totalSelected).staked == st.staked
  {
    hide SnapshotsOf, Inner, TopCandidates;
  }

  lemma {:induction false} RunStaked(st: State, steps: seq<Step>, r: nat)
    requires r in st.staked && r <= st.ledger.round
    ensures var t := RunSteps(st, steps);
            && st.ledger.round <= t.ledger.round
            && (t.ledger.round < r + REWARD_PAYMENT_DELAY ==> r in t.staked && t.staked[r] == st.staked[r])
  {
    hide Apply;
    if steps != [] {
      var before := RunSteps(st, steps[..|steps| - 1]);
      RunStaked(st, steps[..|steps| - 1], r);
      if before.ledger.round < r + REWARD_PAYMENT_DELAY {
        StepStaked(before, steps[|steps| - 1], r);
      } else {
        StepRound(before, steps[|steps| - 1]);
      }
    }
  }

  lemma StepRound(st: State, step: Step)
    ensures st.ledger.round <= Apply(st, step).ledger.round
  {
    match step
    case Authored(_) =>
    case Extrinsic(call) =>
      hide Runs.Apply;
      Delays.RoundsAdvance(st.ledger, call);
    case Block(now, settings, pick) =>
      hide Initialize;
      BlockLedger(st, now, settings, pick);
  }

  /** The bond account, if it exists, gets this much; nobody else's balance differs. */
  ghost predicate SetAside(s: Ledger, t: Ledger, bondAccount: Account, reserve: Balance) {
    && t == s.(round := s.round + 1, free := t.free)
    && forall a :: Get(t.free, a) == Get(s.free, a) + if Exists(s, a) && a == bondAccount then reserve else 0
  }

  lemma PreparedFunds(st: State, now: nat, settings: Settings, r: nat)
    requires Valid(st) && st.ledger.round + 1 == r + REWARD_PAYMENT_DELAY && r > 0 && Inner(st.awarded, r) != map[]
    ensures SetAside(st.ledger, NextRound(st, now, settings).ledger, settings.bondAccount,
                     PercentOf(settings.bondPercent, PayoutFor(st.ledger, Get(st.staked, r), settings).roundIssuance))
  {
    hide Valid, SelectTop, Deposit, ComputeIssuance, PercentOf, Exists;
    HasPoints(st, r);
    var p := Prepare(st, st.ledger.round + 1, settings);
    SelectFrame(p, st.ledger.round + 1, settings.totalSelected);
    DepositReaches(st.ledger, settings.bondAccount,
                   PercentOf(settings.bondPercent, ComputeIssuance(Get(st.staked, r), settings)));
  }

  /** The reward of a round, from the block that begins it to the block that fixes it: whatever is staked
      or set in between, it is computed from `Total` at the beginning of the round and the settings at
      the end. */
  lemma RewardTheorem(st: State, first: Step, steps: seq<Step>, last: Step) returns (reserve: Balance)
    requires Valid(st) && first.Block? && RoundEnds(st, first.now, first.settings)
    requires var r := st.ledger.round + 1; var before := RunSteps(Apply(st, first), steps);
             && last.Block? && RoundEnds(before, last.now, last.settings)
             && before.ledger.round + 1 == r + REWARD_PAYMENT_DELAY && Inner(before.awarded, r) != map[]
    ensures var r := st.ledger.round + 1; var before := RunSteps(Apply(st, first), steps);
            var t := NextRound(before, last.now, last.settings);
            && r in t.payouts && IsReward(t.payouts[r], st.ledger.total, before.ledger, last.settings, reserve)
            && SetAside(before.ledger, t.ledger, last.settings.bondAccount, reserve)
  {
    hide Valid, Apply, NextRound, RoundEnds, IsReward, PayoutFor, RunSteps, TopCandidates, SnapshotsOfAll;
    var r := st.ledger.round + 1;
    var before := RunSteps(Apply(st, first), steps);
    BlockBegins(st, first.now, first.settings, first.pick);
    BlockValid(st, first);
    RunValid(Apply(st, first), steps);
    RunStaked(Apply(st, first), steps, r);
    RewardFixed(before, last.now, last.settings, r);
    RewardIs(before.ledger, st.ledger.total, last.settings);
    PreparedFunds(before, last.now, last.settings, r);
    reserve := PercentOf(last.settings.bondPercent,
                         PayoutFor(before.ledger, st.ledger.total, last.settings).roundIssuance);
  }

  // ----- points -----

  /** Blocks by `a` in these steps while the round is `r`. */
  ghost function AuthoredIn(st: State, steps: seq<Step>, r: nat, a: Account): nat {
    if steps == [] then 0
    else
      AuthoredIn(st, steps[..|steps| - 1], r, a) +
      if steps[|steps| - 1] == Authored(a) && RunSteps(st, steps[..|steps| - 1]).ledger.round == r then 1 else 0
  }

  lemma StepPoints(st: State, step: Step, r: nat, a: Account)
    requires Apply(st, step).ledger.round < r + REWARD_PAYMENT_DELAY
    ensures Get(Inner(Apply(st, step).awarded, r), a)
            == if step == Authored(a) && st.ledger.round == r then Min(U32_MAX, Get(Inner(st.awarded, r), a) + 20)
               else Get(Inner(st.awarded, r), a)
  {
    match step
    case Authored(_) =>
    case Extrinsic(call) =>
    case Block(now, settings, pick) =>
      hide HandlePayouts, NextRound, RoundEnds;
      PayingFrame(st, now, settings);
      BlockAwards(PayingState(st, now, settings), pick, r);
  }

  /** Until a round is paid, an author's points are twenty for each of its blocks in that round, up to the
      limit of a `u32`; calls, other rounds and other authors make no difference. */
  lemma {:induction false} PointsAreBlocks(st: State, steps: seq<Step>, r: nat, a: Account)
    requires Valid(st) && RunSteps(st, steps).ledger.round < r + REWARD_PAYMENT_DELAY
    ensures Get(Inner(RunSteps(st, steps).awarded, r), a)
            == Min(U32_MAX, Get(Inner(st.awarded, r), a) + 20 * AuthoredIn(st, steps, r, a))
  {
    hide Valid, Apply, Inner;
    if steps == [] {
      AwardLimited(st, r, a);
    } else {
      var init := steps[..|steps| - 1];
      StepRound(RunSteps(st, init), steps[|steps| - 1]);
      PointsAreBlocks(st, init, r, a);
      StepPoints(RunSteps(st, init), steps[|steps| - 1], r, a);
    }
  }

  lemma AwardLimited(st: State, r: nat, a: Account)
    requires Valid(st)
    ensures Get(Inner(st.awarded, r), a) <= U32_MAX
  {
    hide Consistent, SelectionOk, PayoutsOk;
  }

  // ----- how long rounds last -----

  lemma NextMultiple(n: nat, length: nat)
    requires n > 0 && length > 0
    ensures var q := (n - 1) / length;
            if n - q * length >= length then n / length == q + 1 && n / length * length == n
            else n / length == q
  {
    var q := (n - 1) / length;
    DivBounds(n - 1, length);
    assert length * q == q * length;
    if n - q * length >= length {
      Distribute(q, 1, length);
      Quotient(n, q + 1, length);
    } else {
      Quotient(n, q, length);
    }
  }

  lemma Quotient(n: nat, q: nat, length: nat)
    requires length > 0 && q * length <= n < q * length + length
    ensures n / length == q
  {
    DivBounds(n, length);
    var p := n / length;
    assert length * p == p * length;
    if p < q {
      Monotone(length, p + 1, q);
      Distribute(p, 1, length);
    }
    if q < p {
      Monotone(length, q + 1, p);
      Distribute(q, 1, length);
    }
  }

  /** After `n` blocks, one after the other, since a round began at `first`. */
  ghost predicate AfterBlocks(t: State, round: nat, first: nat, n: nat, length: nat)
    requires length > 0
  {
    t.ledger.round == round + n / length && t.first == first + n / length * length
  }

  lemma BlocksNext(before: State, t: State, round: nat, first: nat, n: nat, length: nat)
    requires n > 0 && length > 0 && AfterBlocks(before, round, first, n - 1, length)
    requires var ends := first + n - before.first >= length;
             && t.ledger.round == before.ledger.round + (if ends then 1 else 0)
             && t.first == if ends then first + n else before.first
    ensures AfterBlocks(t, round, first, n, length)
  {
    NextMultiple(n, length);
  }

  /** With one block after the other, under constant settings, a round begins every `length` blocks. */
  lemma {:induction false} RoundsHaveLength(st: State, n: nat, settings: Settings)
    requires settings.length > 0
    ensures AfterBlocks(RunSteps(st, Blocks(st.first + 1, n, settings)), st.ledger.round, st.first, n, settings.length)
  {
    hide Apply, AfterBlocks;
    if n == 0 {
      NoBlocksYet(st, settings.length);
    } else {
      var init := Blocks(st.first + 1, n - 1, settings);
      var before := RunSteps(st, init);
      RoundsHaveLength(st, n - 1, settings);
      Then(st, init, Block(st.first + n, settings, 0));
      OneBlock(before, st.first + n, settings);
      BlocksNext(before, Apply(before, Block(st.first + n, settings, 0)), st.ledger.round, st.first, n,
                  settings.length);
    }
  }

  lemma NoBlocksYet(st: State, length: nat)
    requires length > 0
    ensures AfterBlocks(st, st.ledger.round, st.first, 0, length)
  {
  }

  /** A block begins a round exactly when the last one is long enough. */
  lemma OneBlock(st: State, now: nat, settings: Settings)
    ensures var t := Apply(st, Block(now, settings, 0));
            && t.ledger.round == st.ledger.round + (if now - st.first >= settings.length then 1 else 0)
            && t.first == if now - st.first >= settings.length then now else st.first
  {
    hide Initialize;
    BlockLedger(st, now, settings, 0);
    if RoundEnds(st, now, settings) {
      TurnSetsFirst(st, now, settings, 0);
    } else {
      BlockKeepsFirst(st, now, settings, 0);
    }
  }

  // ----- genesis -----

  /** Round 1 begins at block 0, with everything bonded and delegated at genesis and its own selection. */
  lemma GenesisEffect(s: Ledger, totalSelected: nat)
    requires Consistent(s)
    ensures var t := Genesis(s, totalSelected); var collators := TopCandidates(s.pool, totalSelected);
            && t.ledger == s.(round := 1) && t.first == 0 && t.staked == map[1 := s.total]
            && t.points == map[] && t.awarded == map[] && t.payouts == map[]
            && (if collators != [] then t.selected == collators && SnapshotsOfAll(Inner(t.atStake, 1), s, collators)
                else t.selected == [] && Inner(t.atStake, 1) == map[])
  {
    hide Consistent, SelectTop, TopCandidates, SnapshotsOfAll;
    var st := State(s.(round := 1), 0, [], map[], map[], map[], map[], map[]);
    EnvironmentConsistent(s, 1, s.free);
    SelectionEffect(st, 1, totalSelected);
    SelectFrame(st, 1, totalSelected);
    SelectStaked(st, 1, totalSelected);
    SameButRound(Inner(SelectTop(st, 1, totalSelected).atStake, 1), st.ledger, s, TopCandidates(s.pool, totalSelected));
  }

  lemma SameButRound(taken: Snapshots, p: Ledger, s: Ledger, collators: seq<Account>)
    requires p == s.(round := p.round)
    ensures SnapshotsOfAll(taken, p, collators) <==> SnapshotsOfAll(taken, s, collators)
  {
  }
}

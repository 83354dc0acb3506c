/** Whole runs of blocks, authors and extrinsics: the invariants hold throughout, the ledger sees
    nothing but a run of calls, and every round's rewards are paid author by author, once each and
    within the round's reward. */
module RoundRuns {
  import opened Bonds
  import opened Params
  import opened Ledgers
  import opened Payments
  import opened Selection
  import opened Rounds
  import Runs
  import Delays
  import Sums

  ghost function RunSteps(st: State, steps: seq<Step>): State {
    if steps == [] then st else Apply(RunSteps(st, steps[..|steps| - 1]), steps[|steps| - 1])
  }

  /** In every reachable state the whole invariant holds. */
  lemma {:induction false} RunValid(st: State, steps: seq<Step>)
    requires Valid(st)
    ensures Valid(RunSteps(st, steps))
  {
    hide Valid, Apply;
    if steps != [] {
      RunValid(st, steps[..|steps| - 1]);
      StepKeeps(RunSteps(st, steps[..|steps| - 1]), steps[|steps| - 1]);
    }
  }

  // ----- the ledger under a run -----

  /** What a step is to the ledger. */
  ghost function CallsOf(st: State, step: Step): seq<Runs.Call> {
    match step
    case Block(now, settings, _) =>
      (if RoundEnds(st, now, settings) then [Runs.NewRound] else []) +
      [Runs.FreeBalancesChange(Apply(st, step).ledger.free)]
    case Authored(_) => []
    case Extrinsic(call) => if call.NewRound? then [] else [call]
  }

  ghost function AllCalls(st: State, steps: seq<Step>): seq<Runs.Call> {
    if steps == [] then []
    else AllCalls(st, steps[..|steps| - 1]) + CallsOf(RunSteps(st, steps[..|steps| - 1]), steps[|steps| - 1])
  }

  lemma RunTwo(s: Ledger, a: Runs.Call, b: Runs.Call)
    ensures Runs.Run(s, [a] + [b]) == Runs.Apply(Runs.Apply(s, a).ledger, b).ledger
  {
    hide Runs.Apply;
    Runs.RunConcat(s, [a], [b]);
    Runs.RunOne(s, a);
    Runs.RunOne(Runs.Run(s, [a]), b);
  }

  /** A block changes the ledger's round and free balances, nothing else. */
  lemma BlockLedger(st: State, now: nat, settings: Settings, pick: Account)
    ensures var s := st.ledger; var r := Initialize(st, now, settings, pick).ledger;
            r == s.(round := s.round + (if RoundEnds(st, now, settings) then 1 else 0), free := r.free)
  {
    hide Prepare, SelectTop, HandlePayouts, RoundEnds;
    var r := st.ledger.round + 1;
    var t := if RoundEnds(st, now, settings) then NextRound(st, now, settings) else st;
    PrepareIsFree(st, r, settings);
    SelectFrame(Prepare(st, r, settings), r, settings.totalSelected);
    HandleIsFree(t, t.ledger.round, pick);
  }

  lemma StepIsRun(st: State, step: Step)
    ensures Apply(st, step).ledger == Runs.Run(st.ledger, CallsOf(st, step))
  {
    hide Initialize, RoundEnds;
    match step
    case Block(now, settings, pick) =>
      BlockIsRun(st, now, settings, pick);
    case Authored(_) =>
    case Extrinsic(call) =>
      hide Runs.Apply;
      Runs.RunOne(st.ledger, call);
  }

  lemma BlockIsRun(st: State, now: nat, settings: Settings, pick: Account)
    ensures Initialize(st, now, settings, pick).ledger == Runs.Run(st.ledger, CallsOf(st, Block(now, settings, pick)))
  {
    hide Initialize, RoundEnds, Runs.Run;
    var free := Runs.FreeBalancesChange(Initialize(st, now, settings, pick).ledger.free);
    BlockLedger(st, now, settings, pick);
    if RoundEnds(st, now, settings) {
      RunTwo(st.ledger, Runs.NewRound, free);
    } else {
      assert [] + [free] == [free];
      Runs.RunOne(st.ledger, free);
    }
  }

  /** Refinement: the ledger of any run of steps is the ledger of a run of calls, so everything
      proved of those (conservation, exact totals, delays) holds with rounds and rewards added. */
  lemma {:induction false} LedgerIsRun(st: State, steps: seq<Step>)
    ensures RunSteps(st, steps).ledger == Runs.Run(st.ledger, AllCalls(st, steps))
  {
    hide Apply, Runs.Apply, CallsOf;
    if steps != [] {
      var init := steps[..|steps| - 1];
      LedgerIsRun(st, init);
      StepIsRun(RunSteps(st, init), steps[|steps| - 1]);
      Runs.RunConcat(st.ledger, AllCalls(st, init), CallsOf(RunSteps(st, init), steps[|steps| - 1]));
    }
  }

  /** The chain from genesis: whatever is called in whatever blocks, the selected candidates and the
      snapshots of the current round are the same accounts, each snapshot adds up, and the ledger is
      consistent; holds and totals are conserved if no call breaks the guard. */
  lemma ChainTheorem(genesis: Ledger, totalSelected: nat, steps: seq<Step>)
    requires Consistent(genesis)
    ensures var start := Genesis(genesis, totalSelected); var st := RunSteps(start, steps);
            && (forall c :: c in st.selected <==> c in Inner(st.atStake, st.ledger.round))
            && (forall r: nat, c :: c in Inner(st.atStake, r) ==>
                  Inner(st.atStake, r)[c].total
                    == Inner(st.atStake, r)[c].bond + Sum(Inner(st.atStake, r)[c].delegations))
            && Increasing(st.selected)
            && Consistent(st.ledger)
            && (Conserved(start.ledger) && Runs.GuardedRun(start.ledger, AllCalls(start, steps)) ==>
                  Conserved(st.ledger))
  {
    hide Consistent, Conserved, Runs.GuardedRun, RunSteps, AllCalls, Genesis, Runs.Run, Increasing;
    var start := Genesis(genesis, totalSelected);
    GenesisValid(genesis, totalSelected);
    RunValid(start, steps);
    LedgerIsRun(start, steps);
    if Conserved(start.ledger) && Runs.GuardedRun(start.ledger, AllCalls(start, steps)) {
      Runs.RunConserved(start.ledger, AllCalls(start, steps));
    }
  }

  // ----- one step and the awards of a past round -----

  /** The state in which a block pays: after the round change, if there is one. */
  function PayingState(st: State, now: nat, settings: Settings): State {
    if RoundEnds(st, now, settings) then NextRound(st, now, settings) else st
  }

  /** The author whom a step pays for round `r`. */
  ghost function PaidBy(st: State, step: Step, r: nat): Option<Account> {
    if !step.Block? then None
    else
      var t := PayingState(st, step.now, step.settings);
      if t.ledger.round == r + REWARD_PAYMENT_DELAY && Draining(t, r) then Some(Drained(t.awarded[r], step.pick))
      else None
  }

  lemma NextRoundFrame(st: State, now: nat, settings: Settings)
    ensures var t := NextRound(st, now, settings);
            t.ledger.round == st.ledger.round + 1 && t.points == st.points && t.awarded == st.awarded
            && t.payouts == Prepare(st, st.ledger.round + 1, settings).payouts
  {
    hide Prepare, SelectTop;
    var r := st.ledger.round + 1;
    PrepareFrame(st, r, settings);
    PrepareIsFree(st, r, settings);
    SelectFrame(Prepare(st, r, settings), r, settings.totalSelected);
  }

  lemma PayingFrame(st: State, now: nat, settings: Settings)
    ensures var t := PayingState(st, now, settings);
            t.ledger.round == st.ledger.round + (if RoundEnds(st, now, settings) then 1 else 0)
            && t.points == st.points && t.awarded == st.awarded
  {
    hide NextRound;
    if RoundEnds(st, now, settings) {
      NextRoundFrame(st, now, settings);
    }
  }

  /** What handling the payouts of round `r` does, field by field. */
  lemma HandleFields(st: State, r: nat, pick: Account)
    ensures var t := HandlePayouts(st, r + REWARD_PAYMENT_DELAY, pick);
            && t.ledger.round == st.ledger.round
            && (if Draining(st, r) then
                  t.awarded == st.awarded[r := st.awarded[r] - {Drained(st.awarded[r], pick)}]
                  && t.points == st.points && t.payouts == st.payouts
                else
                  t.awarded == st.awarded
                  && (if r in st.payouts then t.points == st.points - {r} && t.payouts == st.payouts - {r}
                      else t.points == st.points && t.payouts == st.payouts))
  {
    hide DepositEach, Mints;
    HandleIsFree(st, r + REWARD_PAYMENT_DELAY, pick);
  }

  lemma HandleEarly(st: State, now: nat, pick: Account)
    requires now < REWARD_PAYMENT_DELAY
    ensures HandlePayouts(st, now, pick) == st
  {
  }

  /** Round `r` is over when `step` is done. */
  ghost predicate Past(st: State, step: Step, r: nat) {
    r < st.ledger.round || (r == st.ledger.round && step.Block? && RoundEnds(st, step.now, step.settings))
  }

  lemma BlockAwards(t: State, pick: Account, r: nat)
    ensures var u := HandlePayouts(t, t.ledger.round, pick);
            && u.ledger.round == t.ledger.round
            && Inner(u.awarded, r) ==
               if t.ledger.round == r + REWARD_PAYMENT_DELAY && Draining(t, r) then
                 Inner(t.awarded, r) - {Drained(t.awarded[r], pick)}
               else Inner(t.awarded, r)
  {
    hide HandlePayouts;
    if t.ledger.round >= REWARD_PAYMENT_DELAY {
      HandleFields(t, t.ledger.round - REWARD_PAYMENT_DELAY, pick);
    } else {
      HandleEarly(t, t.ledger.round, pick);
    }
  }

  lemma SomeDrained(t: State, pick: Account, r: nat)
    ensures Draining(t, r) ==> Drained(t.awarded[r], pick) in Inner(t.awarded, r)
  {
  }

  /** A step takes the author it pays out of a past round's awards, and changes them in no other
      way. */
  lemma StepAwards(st: State, step: Step, r: nat)
    requires Past(st, step, r)
    ensures r < Apply(st, step).ledger.round
    ensures var award := Inner(st.awarded, r); var after := Inner(Apply(st, step).awarded, r);
            match PaidBy(st, step, r)
            case None => after == award
            case Some(c) => c in award && after == award - {c}
  {
    if step.Block? {
      hide HandlePayouts, NextRound, RoundEnds, Draining, Inner;
      var t := PayingState(st, step.now, step.settings);
      PayingFrame(st, step.now, step.settings);
      BlockAwards(t, step.pick, r);
      SomeDrained(t, step.pick, r);
    } else if step.Extrinsic? {
      hide Runs.Apply;
      Delays.RoundsAdvance(st.ledger, step.call);
    }
  }

  // ----- paid once -----

  /** The authors paid for round `r`, in order. */
  ghost function Paid(st: State, steps: seq<Step>, r: nat): seq<Account> {
    if steps == [] then []
    else
      var init := steps[..|steps| - 1];
      match PaidBy(RunSteps(st, init), steps[|steps| - 1], r)
      case None => Paid(st, init, r)
      case Some(c) => Paid(st, init, r) + [c]
  }

  /** The awards of a round, the authors paid of them, and what is left. */
  ghost predicate PaidAndLeft(award: Award, paid: seq<Account>, left: Award) {
    && NoRepeats(paid)
    && (forall c :: c in paid ==> c in award)
    && left == award - (set c | c in paid)
    && |paid| + |left| == |award|
  }

  lemma OneMorePaid(award: Award, paid: seq<Account>, left: Award, c: Account)
    requires PaidAndLeft(award, paid, left) && c in left
    ensures PaidAndLeft(award, paid + [c], left - {c})
  {
    assert award - (set x | x in paid + [c]) == left - {c};
    assert (left - {c}).Keys == left.Keys - {c};
  }

  ghost predicate PastRun(st: State, steps: seq<Step>, r: nat) {
    steps == [] || Past(st, steps[0], r)
  }

  /** Every author awarded points in a past round is, at any later time, either paid, once, or still
      waiting with those points; in whatever order the awards are drained. */
  lemma {:induction false} PaidOnce(st: State, steps: seq<Step>, r: nat)
    requires PastRun(st, steps, r)
    ensures PaidAndLeft(Inner(st.awarded, r), Paid(st, steps, r), Inner(RunSteps(st, steps).awarded, r))
    ensures steps != [] ==> r < RunSteps(st, steps).ledger.round
  {
    hide Apply, PaidBy, PaidAndLeft;
    if steps == [] {
      NobodyPaid(Inner(st.awarded, r));
    } else {
      var init := steps[..|steps| - 1];
      var before := RunSteps(st, init);
      PaidOnce(st, init, r);
      StepAwards(before, steps[|steps| - 1], r);
      if PaidBy(before, steps[|steps| - 1], r).Some? {
        OneMorePaid(Inner(st.awarded, r), Paid(st, init, r), Inner(before.awarded, r),
                    PaidBy(before, steps[|steps| - 1], r).value);
      }
    }
  }

  lemma NobodyPaid(award: Award)
    ensures PaidAndLeft(award, [], award)
  {
    var none: seq<Account> := [];
    assert award - (set c | c in none) == award;
  }

  // ----- progress -----

  /** After `k` blocks of round `r + REWARD_PAYMENT_DELAY`, with `n` authors awarded in round `r`. */
  ghost predicate Progress(st: State, r: nat, n: nat, k: nat) {
    && st.ledger.round == r + REWARD_PAYMENT_DELAY
    && (if k <= n then r in st.payouts && Get(st.points, r) > 0 && |Inner(st.awarded, r)| == n - k
        else Inner(st.awarded, r) == map[] && r !in st.payouts && r !in st.points)
  }

  function BlocksIn(steps: seq<Step>): nat {
    if steps == [] then 0 else BlocksIn(steps[..|steps| - 1]) + if steps[|steps| - 1].Block? then 1 else 0
  }

  ghost predicate StaysInRound(st: State, step: Step) {
    step.Block? ==> !RoundEnds(st, step.now, step.settings)
  }

  ghost predicate SameRound(st: State, steps: seq<Step>) {
    forall i :: 0 <= i < |steps| ==> StaysInRound(RunSteps(st, steps[..i]), steps[i])
  }

  /** One block's payment: one author fewer, or, when none was left, the round is cleaned up. */
  lemma PaymentProgress(t: State, r: nat, n: nat, k: nat, pick: Account)
    requires Progress(t, r, n, k)
    ensures Progress(HandlePayouts(t, r + REWARD_PAYMENT_DELAY, pick), r, n, k + 1)
  {
    hide HandlePayouts;
    HandleFields(t, r, pick);
    if Draining(t, r) {
      var c := Drained(t.awarded[r], pick);
      assert (t.awarded[r] - {c}).Keys == t.awarded[r].Keys - {c};
    }
  }

  lemma StepProgress(st: State, step: Step, r: nat, n: nat, k: nat)
    requires Progress(st, r, n, k) && StaysInRound(st, step)
    ensures Progress(Apply(st, step), r, n, if step.Block? then k + 1 else k)
  {
    match step
    case Authored(_) =>
    case Extrinsic(call) =>
      hide Runs.Apply;
      Delays.RoundsAdvance(st.ledger, call);
    case Block(now, settings, pick) =>
      hide HandlePayouts, NextRound;
      PaymentProgress(st, r, n, k, pick);
  }

  /** Before a round is paid, anybody awarded in it means points. */
  lemma HasPoints(st: State, r: nat)
    requires Valid(st) && r + REWARD_PAYMENT_DELAY > st.ledger.round && Inner(st.awarded, r) != map[]
    ensures Get(st.points, r) == Min(U32_MAX, Sums.SumMap(Inner(st.awarded, r))) > 0
  {
    hide Consistent, SelectionOk, PayoutsOk, Sums.SumMap;
    SomePoints(Inner(st.awarded, r));
  }

  lemma PrepareFixes(st: State, now: nat, settings: Settings)
    requires now > REWARD_PAYMENT_DELAY && Get(st.points, now - REWARD_PAYMENT_DELAY) > 0
    ensures var r: nat := now - REWARD_PAYMENT_DELAY;
            Prepare(st, now, settings).payouts == st.payouts[r := PayoutFor(st.ledger, Get(st.staked, r), settings)]
  {
    hide Deposit, PayoutFor;
  }

  lemma InitializeAtEnd(st: State, now: nat, settings: Settings, pick: Account)
    requires RoundEnds(st, now, settings)
    ensures Initialize(st, now, settings, pick)
            == HandlePayouts(NextRound(st, now, settings), NextRound(st, now, settings).ledger.round, pick)
  {
    hide HandlePayouts, NextRound, RoundEnds;
  }

  lemma RewardFixed(st: State, now: nat, settings: Settings, r: nat)
    requires Valid(st) && st.ledger.round + 1 == r + REWARD_PAYMENT_DELAY && r > 0 && Inner(st.awarded, r) != map[]
    ensures Progress(NextRound(st, now, settings), r, |Inner(st.awarded, r)|, 0)
    ensures NextRound(st, now, settings).payouts[r] == PayoutFor(st.ledger, Get(st.staked, r), settings)
  {
    hide NextRound, Valid, Prepare, PayoutFor;
    NextRoundFrame(st, now, settings);
    HasPoints(st, r);
    PrepareFixes(st, st.ledger.round + 1, settings);
  }

  /** The block that begins round `r + REWARD_PAYMENT_DELAY` fixes the reward of round `r` and pays
      the first author. */
  lemma FirstProgress(st: State, step: Step, r: nat)
    requires Valid(st) && step.Block? && RoundEnds(st, step.now, step.settings)
    requires st.ledger.round + 1 == r + REWARD_PAYMENT_DELAY && r > 0 && Inner(st.awarded, r) != map[]
    ensures Progress(Apply(st, step), r, |Inner(st.awarded, r)|, 1)
  {
    hide HandlePayouts, NextRound, Valid, RoundEnds, PayoutFor, Initialize;
    RewardFixed(st, step.now, step.settings, r);
    InitializeAtEnd(st, step.now, step.settings, step.pick);
    PaymentProgress(NextRound(st, step.now, step.settings), r, |Inner(st.awarded, r)|, 0, step.pick);
  }

  lemma SameRoundPrefix(st: State, steps: seq<Step>)
    requires steps != [] && SameRound(st, steps)
    ensures SameRound(st, steps[..|steps| - 1]) && StaysInRound(RunSteps(st, steps[..|steps| - 1]), steps[|steps| - 1])
  {
    hide StaysInRound, RunSteps;
    var init := steps[..|steps| - 1];
    assert forall i :: 0 <= i < |init| ==> init[..i] == steps[..i];
  }

  lemma {:induction false} RunProgress(st: State, steps: seq<Step>, r: nat, n: nat, k: nat)
    requires Progress(st, r, n, k) && SameRound(st, steps)
    ensures Progress(RunSteps(st, steps), r, n, k + BlocksIn(steps))
  {
    hide Progress, Apply, SameRound, StaysInRound;
    if steps != [] {
      SameRoundPrefix(st, steps);
      RunProgress(st, steps[..|steps| - 1], r, n, k);
      StepProgress(RunSteps(st, steps[..|steps| - 1]), steps[|steps| - 1], r, n, k + BlocksIn(steps[..|steps| - 1]));
    }
  }

  /** Payout progress. Let `n` authors be awarded in round `r`, and let round
      `r + REWARD_PAYMENT_DELAY` begin. As long as that round lasts, each of its blocks pays one;
      with its `n`-th block all are paid, and one block more removes the payout and the points. */
  lemma PayoutProgress(st: State, first: Step, steps: seq<Step>, r: nat)
    requires Valid(st) && first.Block? && RoundEnds(st, first.now, first.settings)
    requires st.ledger.round + 1 == r + REWARD_PAYMENT_DELAY && r > 0 && Inner(st.awarded, r) != map[]
    requires SameRound(Apply(st, first), steps)
    ensures var n := |Inner(st.awarded, r)|; var k := 1 + BlocksIn(steps); var t := RunSteps(Apply(st, first), steps);
            && |Inner(t.awarded, r)| == SatSub(n, k)
            && (k > n ==> r !in t.payouts && r !in t.points)
  {
    hide Valid, Apply, SameRound, RunSteps, RoundEnds;
    FirstProgress(st, first, r);
    RunProgress(Apply(st, first), steps, r, |Inner(st.awarded, r)|, 1);
  }

  // ----- what a round pays altogether -----

  function PaidTotal(paid: seq<Account>, award: Award, payout: DelayedPayout, points: nat): Balance {
    if paid == [] then 0
    else PaidTotal(paid[..|paid| - 1], award, payout, points) + TotalPaid(payout, Get(award, paid[|paid| - 1]), points)
  }

  function PaidRatios(paid: seq<Account>, award: Award, points: nat): nat {
    if paid == [] then 0
    else PaidRatios(paid[..|paid| - 1], award, points) + FromRational(Get(award, paid[|paid| - 1]), points)
  }

  function PaidPoints(paid: seq<Account>, award: Award): nat {
    if paid == [] then 0 else PaidPoints(paid[..|paid| - 1], award) + Get(award, paid[|paid| - 1])
  }

  lemma {:induction false} PaidPointsTaken(paid: seq<Account>, award: Award)
    requires NoRepeats(paid) && forall c :: c in paid ==> c in award
    ensures PaidPoints(paid, award) + Sums.SumMap(award - (set c | c in paid)) == Sums.SumMap(award)
  {
    hide Sums.SumMap;
    if paid == [] {
      assert award - (set c | c in paid) == award;
    } else {
      var init := paid[..|paid| - 1];
      var c := paid[|paid| - 1];
      PaidPointsTaken(init, award);
      assert paid == init + [c];
      assert award - (set x | x in paid) == award - (set x | x in init) - {c};
      Sums.Remove(award - (set x | x in init), c);
    }
  }

  lemma {:induction false} PaidRatiosWithin(paid: seq<Account>, award: Award, points: nat)
    ensures PaidRatios(paid, award, points) * points <= PaidPoints(paid, award) * BILLION
  {
    hide FromRational;
    if paid != [] {
      var init := paid[..|paid| - 1];
      var pts := Get(award, paid[|paid| - 1]);
      PaidRatiosWithin(init, award, points);
      RatioBounds(pts, points);
      Distribute(PaidRatios(init, award, points), FromRational(pts, points), points);
    }
  }

  lemma {:induction false} PaidTotalWithin(paid: seq<Account>, award: Award, payout: DelayedPayout, points: nat)
    ensures 2 * BILLION * PaidTotal(paid, award, payout, points)
            <= 2 * (PaidRatios(paid, award, points) * payout.totalStakingReward) + |paid| * BILLION
  {
    hide FromRational, Part;
    if paid != [] {
      var init := paid[..|paid| - 1];
      var ratio := FromRational(Get(award, paid[|paid| - 1]), points);
      PaidTotalWithin(init, award, payout, points);
      PartBounds(ratio, payout.totalStakingReward);
      Distribute(PaidRatios(init, award, points), ratio, payout.totalStakingReward);
      AddBounds(PaidTotal(init, award, payout, points), Part(ratio, payout.totalStakingReward),
                PaidRatios(init, award, points) * payout.totalStakingReward, ratio * payout.totalStakingReward, |init|);
    }
  }

  /** The products round down by at most half a unit each. */
  lemma {:induction false} PaidTotalAtLeast(paid: seq<Account>, award: Award, payout: DelayedPayout, points: nat)
    ensures 2 * (PaidRatios(paid, award, points) * payout.totalStakingReward)
            <= 2 * BILLION * PaidTotal(paid, award, payout, points) + |paid| * BILLION
  {
    hide FromRational, Part;
    if paid != [] {
      var init := paid[..|paid| - 1];
      var ratio := FromRational(Get(award, paid[|paid| - 1]), points);
      PaidTotalAtLeast(init, award, payout, points);
      PartBounds(ratio, payout.totalStakingReward);
      Distribute(PaidRatios(init, award, points), ratio, payout.totalStakingReward);
    }
  }

  lemma WithinReward(total: nat, ratios: nat, reward: nat, n: nat)
    requires ratios <= BILLION && 2 * BILLION * total <= 2 * (ratios * reward) + n * BILLION
    ensures 2 * total <= 2 * reward + n
  {
    Monotone(reward, ratios, BILLION);
    Cancel(BILLION, 2 * total, 2 * reward + n);
  }

  lemma BeyondReward(total: nat, ratios: nat, reward: nat, n: nat)
    requires ratios > BILLION && reward > n * BILLION && 2 * (ratios * reward) <= 2 * BILLION * total + n * BILLION
    ensures 2 * total > 2 * reward + n
  {
    Monotone(reward, BILLION + 1, ratios);
    Distribute(BILLION, 1, reward);
  }

  /** The authors paid get together at most the reward and half a unit each. */
  predicate Within(paid: seq<Account>, award: Award, payout: DelayedPayout, points: nat) {
    2 * PaidTotal(paid, award, payout, points) <= 2 * payout.totalStakingReward + |paid|
  }

  /** Rounding included, that holds for every reward if and only if the ratios of the authors make at
      most the whole. */
  lemma WithinIff(paid: seq<Account>, award: Award, points: nat)
    ensures (forall payout :: Within(paid, award, payout, points)) <==> PaidRatios(paid, award, points) <= BILLION
  {
    hide PaidTotal, PaidRatios;
    if PaidRatios(paid, award, points) <= BILLION {
      forall payout
        ensures Within(paid, award, payout, points)
      {
        PaidTotalWithin(paid, award, payout, points);
        WithinReward(PaidTotal(paid, award, payout, points), PaidRatios(paid, award, points), payout.totalStakingReward,
                     |paid|);
      }
    } else {
      var payout := DelayedPayout(0, |paid| * BILLION + 1, 0);
      LargeRewardBeyond(paid, award, payout, points);
      assert !Within(paid, award, payout, points);
    }
  }

  lemma LargeRewardBeyond(paid: seq<Account>, award: Award, payout: DelayedPayout, points: nat)
    requires PaidRatios(paid, award, points) > BILLION && payout.totalStakingReward > |paid| * BILLION
    ensures !Within(paid, award, payout, points)
  {
    hide PaidTotal, PaidRatios;
    PaidTotalAtLeast(paid, award, payout, points);
    BeyondReward(PaidTotal(paid, award, payout, points), PaidRatios(paid, award, points), payout.totalStakingReward,
                 |paid|);
  }

  /** The parts of the reward that the authors of a round are due, in billionths. */
  function Ratios(award: Award, points: nat): map<Account, nat> {
    map c | c in award :: FromRational(award[c], points)
  }

  ghost function AwardRatios(award: Award, points: nat): nat {
    Sums.SumMap(Ratios(award, points))
  }

  lemma {:induction false} PaidRatiosTaken(paid: seq<Account>, award: Award, points: nat)
    requires NoRepeats(paid) && forall c :: c in paid ==> c in award
    ensures PaidRatios(paid, award, points) + AwardRatios(award - (set c | c in paid), points)
            == AwardRatios(award, points)
  {
    hide Sums.SumMap, FromRational;
    if paid == [] {
      assert award - (set c | c in paid) == award;
    } else {
      var init := paid[..|paid| - 1];
      var c := paid[|paid| - 1];
      PaidRatiosTaken(init, award, points);
      assert paid == init + [c];
      assert Ratios(award - (set x | x in paid), points) == Ratios(award - (set x | x in init), points) - {c};
      Sums.Remove(Ratios(award - (set x | x in init), points), c);
    }
  }

  /** Every map can be listed, each key once. */
  lemma {:induction false} Listing(award: Award) returns (all: seq<Account>)
    ensures NoRepeats(all) && forall c :: c in all <==> c in award
    decreases |award|
  {
    if award == map[] {
      all := [];
    } else {
      var c :| c in award;
      assert (award - {c}).Keys == award.Keys - {c};
      var rest := Listing(award - {c});
      all := rest + [c];
    }
  }

  /** Points that did not saturate are enough for all. */
  lemma UnsaturatedRatios(award: Award, points: nat)
    requires 0 < points && Sums.SumMap(award) <= points
    ensures AwardRatios(award, points) <= BILLION
  {
    hide Sums.SumMap, PaidRatios, PaidPoints;
    var all := Listing(award);
    PaidRatiosTaken(all, award, points);
    PaidPointsTaken(all, award);
    PaidRatiosWithin(all, award, points);
    NothingBeside(award, all, points);
    Monotone(BILLION, PaidPoints(all, award), points);
    Cancel(points, PaidRatios(all, award, points), BILLION);
  }

  lemma NothingBeside(award: Award, all: seq<Account>, points: nat)
    requires forall c :: c in award ==> c in all
    ensures Sums.SumMap(award - (set c | c in all)) == 0 && AwardRatios(award - (set c | c in all), points) == 0
  {
    assert award - (set c | c in all) == map[];
    assert Ratios(map[], points) == map[];
  }

  /** What a step pays for round `r`. */
  ghost function PaymentBy(st: State, step: Step, r: nat): Balance {
    match PaidBy(st, step, r)
    case None => 0
    case Some(c) =>
      var t := PayingState(st, step.now, step.settings);
      TotalPaid(t.payouts[r], t.awarded[r][c], Get(t.points, r))
  }

  ghost function PaymentsFor(st: State, steps: seq<Step>, r: nat): Balance {
    if steps == [] then 0
    else PaymentsFor(st, steps[..|steps| - 1], r) + PaymentBy(RunSteps(st, steps[..|steps| - 1]), steps[|steps| - 1], r)
  }

  /** The reward and the points of round `r`, once fixed, stay what they are until removed. */
  ghost predicate Settled(st: State, r: nat, payout: DelayedPayout, points: nat) {
    st.ledger.round >= r + REWARD_PAYMENT_DELAY
      && (r in st.payouts ==> st.payouts[r] == payout && Get(st.points, r) == points)
  }

  lemma PayingSettled(st: State, now: nat, settings: Settings, r: nat, payout: DelayedPayout, points: nat)
    requires Settled(st, r, payout, points)
    ensures Settled(PayingState(st, now, settings), r, payout, points)
  {
    hide Deposit, PayoutFor;
    if RoundEnds(st, now, settings) {
      hide NextRound;
      NextRoundFrame(st, now, settings);
    }
  }

  /** From a settled paying state on. */
  lemma HandleSettled(t: State, r: nat, payout: DelayedPayout, points: nat, pick: Account)
    requires Settled(t, r, payout, points)
    ensures Settled(HandlePayouts(t, t.ledger.round, pick), r, payout, points)
  {
    hide HandlePayouts;
    HandleFields(t, t.ledger.round - REWARD_PAYMENT_DELAY, pick);
  }

  lemma StepSettled(st: State, step: Step, r: nat, payout: DelayedPayout, points: nat)
    requires Settled(st, r, payout, points)
    ensures Settled(Apply(st, step), r, payout, points)
  {
    match step
    case Authored(_) =>
    case Extrinsic(call) =>
      hide Runs.Apply;
      Delays.RoundsAdvance(st.ledger, call);
    case Block(now, settings, pick) =>
      hide HandlePayouts, NextRound, Settled;
      PayingSettled(st, now, settings, r, payout, points);
      HandleSettled(PayingState(st, now, settings), r, payout, points, pick);
  }

  /** In a settled round a step pays the author's share of the settled reward. */
  lemma PaymentIsShare(st: State, step: Step, r: nat, payout: DelayedPayout, points: nat, award: Award)
    requires step.Block? ==> Settled(PayingState(st, step.now, step.settings), r, payout, points)
    requires forall c :: c in Inner(st.awarded, r) ==> c in award && Inner(st.awarded, r)[c] == award[c]
    ensures PaymentBy(st, step, r) ==
            match PaidBy(st, step, r)
            case None => 0
            case Some(c) => TotalPaid(payout, Get(award, c), points)
  {
    hide TotalPaid, NextRound;
    if PaidBy(st, step, r).Some? {
      PayingFrame(st, step.now, step.settings);
    }
  }

  /** The state in which the first payment of round `r` is made. */
  lemma FirstSettled(st: State, first: Step, r: nat)
    requires Valid(st) && first.Block? && RoundEnds(st, first.now, first.settings)
    requires st.ledger.round + 1 == r + REWARD_PAYMENT_DELAY && r > 0 && Inner(st.awarded, r) != map[]
    ensures Settled(PayingState(st, first.now, first.settings), r,
                    PayoutFor(st.ledger, Get(st.staked, r), first.settings), Get(st.points, r))
  {
    hide NextRound, Valid, PayoutFor, RoundEnds;
    RewardFixed(st, first.now, first.settings, r);
    NextRoundFrame(st, first.now, first.settings);
  }

  lemma PaidTotalStep(paid: seq<Account>, c: Account, award: Award, payout: DelayedPayout, points: nat)
    ensures PaidTotal(paid + [c], award, payout, points)
            == PaidTotal(paid, award, payout, points) + TotalPaid(payout, Get(award, c), points)
  {
    assert (paid + [c])[..|paid|] == paid;
  }

  /** So far the payments for round `r` are the shares of the authors paid. */
  ghost predicate SharesPaid(st: State, steps: seq<Step>, r: nat, payout: DelayedPayout, points: nat) {
    PaymentsFor(st, steps, r) == PaidTotal(Paid(st, steps, r), Inner(st.awarded, r), payout, points)
  }

  lemma LeftAsBefore(award: Award, paid: seq<Account>, left: Award)
    requires PaidAndLeft(award, paid, left)
    ensures forall c :: c in left ==> c in award && left[c] == award[c]
  {
  }

  lemma SharesPaidStep(st: State, steps: seq<Step>, r: nat, payout: DelayedPayout, points: nat)
    requires steps != [] && PastRun(st, steps, r)
    requires SharesPaid(st, steps[..|steps| - 1], r, payout, points)
    requires var last := steps[|steps| - 1]; last.Block? ==>
               Settled(PayingState(RunSteps(st, steps[..|steps| - 1]), last.now, last.settings), r, payout, points)
    ensures SharesPaid(st, steps, r, payout, points)
  {
    hide PayingState, TotalPaid, PaidBy, PaymentBy, PaidTotal, PaidAndLeft, Past, Settled, RunSteps, Inner;
    var init := steps[..|steps| - 1];
    var before := RunSteps(st, init);
    var last := steps[|steps| - 1];
    PaidOnce(st, init, r);
    LeftAsBefore(Inner(st.awarded, r), Paid(st, init, r), Inner(before.awarded, r));
    PaymentIsShare(before, last, r, payout, points, Inner(st.awarded, r));
    if PaidBy(before, last, r).Some? {
      PaidTotalStep(Paid(st, init, r), PaidBy(before, last, r).value, Inner(st.awarded, r), payout, points);
    }
  }

  /** Over a run that begins with round `r + REWARD_PAYMENT_DELAY`, the payments are the shares of
      the authors paid. */
  lemma {:induction false} PaymentsAreShares(st: State, first: Step, steps: seq<Step>, r: nat)
    requires Valid(st) && first.Block? && RoundEnds(st, first.now, first.settings)
    requires st.ledger.round + 1 == r + REWARD_PAYMENT_DELAY && r > 0 && Inner(st.awarded, r) != map[]
    ensures var payout := PayoutFor(st.ledger, Get(st.staked, r), first.settings);
            && SharesPaid(st, [first] + steps, r, payout, Get(st.points, r))
            && Settled(RunSteps(st, [first] + steps), r, payout, Get(st.points, r))
  {
    hide Valid, Apply, Settled, PayoutFor, SharesPaid, RoundEnds, PayingState;
    var all := [first] + steps;
    var init := all[..|all| - 1];
    var last := all[|all| - 1];
    var before := RunSteps(st, init);
    var payout := PayoutFor(st.ledger, Get(st.staked, r), first.settings);
    var points := Get(st.points, r);
    if steps == [] {
      assert init == [] && last == first;
      FirstSettled(st, first, r);
      AfterFirst(st, first, r, payout, points);
      NothingPaidYet(st, r, payout, points);
    } else {
      assert init == [first] + steps[..|steps| - 1];
      PaymentsAreShares(st, first, steps[..|steps| - 1], r);
      SettledPaying(before, last, r, payout, points);
      StepSettled(before, last, r, payout, points);
    }
    SharesPaidStep(st, all, r, payout, points);
  }

  lemma NothingPaidYet(st: State, r: nat, payout: DelayedPayout, points: nat)
    ensures SharesPaid(st, [], r, payout, points)
  {
  }

  lemma SettledPaying(st: State, step: Step, r: nat, payout: DelayedPayout, points: nat)
    requires Settled(st, r, payout, points)
    ensures step.Block? ==> Settled(PayingState(st, step.now, step.settings), r, payout, points)
  {
    hide Settled, PayingState;
    if step.Block? {
      PayingSettled(st, step.now, step.settings, r, payout, points);
    }
  }

  lemma AfterFirst(st: State, first: Step, r: nat, payout: DelayedPayout, points: nat)
    requires first.Block? && Settled(PayingState(st, first.now, first.settings), r, payout, points)
    ensures Settled(Apply(st, first), r, payout, points)
  {
    hide Settled, NextRound, HandlePayouts;
    HandleSettled(PayingState(st, first.now, first.settings), r, payout, points, first.pick);
  }

  /** The block that begins round `r + REWARD_PAYMENT_DELAY`, which pays the first author of round `r`. */
  ghost predicate Pays(st: State, first: Step, r: nat) {
    && first.Block? && RoundEnds(st, first.now, first.settings)
    && st.ledger.round + 1 == r + REWARD_PAYMENT_DELAY && r > 0 && Inner(st.awarded, r) != map[]
  }

  /** The round's bound. Whatever happens from the block that begins round
      `r + REWARD_PAYMENT_DELAY` on, the authors of round `r` are paid together at most the reward
      fixed for the round and half a unit each, as long as the parts they are due make at most the
      whole. */
  lemma RoundBound(st: State, first: Step, steps: seq<Step>, r: nat)
    requires Valid(st) && Pays(st, first, r)
    requires AwardRatios(Inner(st.awarded, r), Get(st.points, r)) <= BILLION
    ensures var all := [first] + steps;
            var issuance := ComputeIssuance(Get(st.staked, r), first.settings);
            var reserve := if Exists(st.ledger, first.settings.bondAccount) then
              PercentOf(first.settings.bondPercent, issuance) else 0;
            && reserve <= issuance
            && 2 * PaymentsFor(st, all, r) <= 2 * (issuance - reserve) + |Paid(st, all, r)|
            && |Paid(st, all, r)| <= |Inner(st.awarded, r)|
  {
    hide Apply, RoundEnds, Valid, PaymentsFor, PaidTotal, PaidRatios, AwardRatios, Paid, RunSteps, Settled, PayoutFor;
    var all := [first] + steps;
    var award := Inner(st.awarded, r);
    var points := Get(st.points, r);
    var payout := PayoutFor(st.ledger, Get(st.staked, r), first.settings);
    PaymentsAreShares(st, first, steps, r);
    PaidOnce(st, all, r);
    IssuanceIsSplit(st.ledger, Get(st.staked, r), first.settings);
    PaidRatiosTaken(Paid(st, all, r), award, points);
    WithinIff(Paid(st, all, r), award, points);
    assert Within(Paid(st, all, r), award, payout, points);
  }

  /** A round whose points did not saturate is within its reward. */
  lemma UnsaturatedWithin(st: State, r: nat)
    requires Valid(st) && r + REWARD_PAYMENT_DELAY > st.ledger.round && Inner(st.awarded, r) != map[]
    requires Sums.SumMap(Inner(st.awarded, r)) <= U32_MAX
    ensures AwardRatios(Inner(st.awarded, r), Get(st.points, r)) <= BILLION
  {
    hide Valid, Sums.SumMap, AwardRatios;
    HasPoints(st, r);
    UnsaturatedRatios(Inner(st.awarded, r), Get(st.points, r));
  }

  // ----- exactly when -----

  /** What is paid for round `r` in these steps is within the reward its first block fixes. */
  ghost predicate PaysWithin(st: State, first: Step, steps: seq<Step>, r: nat) {
    first.Block? &&
    2 * PaymentsFor(st, [first] + steps, r)
    <= 2 * PayoutFor(st.ledger, Get(st.staked, r), first.settings).totalStakingReward + |Paid(st, [first] + steps, r)|
  }

  /** As many blocks as authors pay all of them what they are due. */
  lemma AllPaid(st: State, first: Step, steps: seq<Step>, r: nat)
    requires Valid(st) && Pays(st, first, r)
    requires SameRound(Apply(st, first), steps) && 1 + BlocksIn(steps) >= |Inner(st.awarded, r)|
    ensures var award := Inner(st.awarded, r); var points := Get(st.points, r);
            var payout := PayoutFor(st.ledger, Get(st.staked, r), first.settings);
            var paid := Paid(st, [first] + steps, r);
            && PaymentsFor(st, [first] + steps, r) == PaidTotal(paid, award, payout, points)
            && PaidRatios(paid, award, points) == AwardRatios(award, points)
            && |paid| == |award| && NoRepeats(paid) && forall c :: c in paid <==> c in award
  {
    hide Apply, RoundEnds, Valid, PaymentsFor, PaidTotal, PaidRatios, AwardRatios, Paid, RunSteps, Settled, PayoutFor,
      SameRound;
    var award := Inner(st.awarded, r);
    var paid := Paid(st, [first] + steps, r);
    PaymentsAreShares(st, first, steps, r);
    PaidOnce(st, [first] + steps, r);
    PayoutProgress(st, first, steps, r);
    FirstThen(st, first, steps);
    PaidRatiosTaken(paid, award, Get(st.points, r));
    NobodyLeft(award, paid);
    NothingBeside(award, paid, Get(st.points, r));
  }

  lemma NobodyLeft(award: Award, paid: seq<Account>)
    requires award - (set c | c in paid) == map[]
    ensures forall c :: c in award ==> c in paid
  {
    forall c | c in award
      ensures c in paid
    {
      assert c !in award - (set x | x in paid);
    }
  }

  lemma FirstThen(st: State, first: Step, steps: seq<Step>)
    ensures RunSteps(st, [first] + steps) == RunSteps(Apply(st, first), steps)
  {
    hide Apply;
    RunStepsConcat(st, [first], steps);
    assert [first][..0] == [];
  }

  /** Blocks in a row, with the same settings. */
  function Blocks(start: nat, n: nat, settings: Settings): seq<Step> {
    if n == 0 then [] else Blocks(start, n - 1, settings) + [Block(start + n - 1, settings, 0)]
  }

  lemma {:induction false} BlocksStay(st: State, n: nat, settings: Settings)
    requires n < settings.length
    ensures var steps := Blocks(st.first + 1, n, settings);
            SameRound(st, steps) && BlocksIn(steps) == n && RunSteps(st, steps).first == st.first
  {
    hide Apply, SameRound, RoundEnds;
    var steps := Blocks(st.first + 1, n, settings);
    if n == 0 {
      NothingStays(st);
    } else {
      var init := Blocks(st.first + 1, n - 1, settings);
      BlocksStay(st, n - 1, settings);
      assert steps[..|steps| - 1] == init;
      StaysBefore(RunSteps(st, init), st.first + n, settings);
      BlockKeepsFirst(RunSteps(st, init), st.first + n, settings, 0);
      OneMoreStays(st, init, Block(st.first + n, settings, 0));
    }
  }

  lemma NothingStays(st: State)
    ensures SameRound(st, [])
  {
  }

  lemma StaysBefore(st: State, now: nat, settings: Settings)
    requires now - st.first < settings.length
    ensures !RoundEnds(st, now, settings)
  {
  }

  lemma OneMoreStays(st: State, steps: seq<Step>, step: Step)
    requires SameRound(st, steps) && StaysInRound(RunSteps(st, steps), step)
    ensures SameRound(st, steps + [step])
  {
    hide StaysInRound, RunSteps;
    var all := steps + [step];
    forall i | 0 <= i < |all|
      ensures StaysInRound(RunSteps(st, all[..i]), all[i])
    {
      assert all[..i] == steps[..i];
      if i == |steps| {
        assert steps[..i] == steps;
      }
    }
  }

  lemma BlockKeepsFirst(st: State, now: nat, settings: Settings, pick: Account)
    requires !RoundEnds(st, now, settings)
    ensures Apply(st, Block(now, settings, pick)).first == st.first
  {
    hide DepositEach, Mints;
  }

  lemma TurnSetsFirst(st: State, now: nat, settings: Settings, pick: Account)
    requires RoundEnds(st, now, settings)
    ensures Apply(st, Block(now, settings, pick)).first == now
  {
    hide DepositEach, Mints, Prepare, SelectTop, RoundEnds;
  }

  /** Settings under which every round is rewarded with `reward`, all of it for the authors. */
  function Rewarding(reward: Balance, length: nat, totalSelected: nat): Settings {
    Settings(length, totalSelected, Range(0, 0, 0), Range(reward, reward, reward), 0, 0, 0)
  }

  lemma RewardingPays(s: Ledger, staked: Balance, reward: Balance, length: nat, totalSelected: nat)
    ensures PayoutFor(s, staked, Rewarding(reward, length, totalSelected)).totalStakingReward == reward
  {
  }

  /** With this reward the round lasts long enough for all authors to be paid. */
  lemma RewardingRun(st: State, r: nat, reward: Balance) returns (first: Step, steps: seq<Step>)
    requires Valid(st) && st.ledger.round + 1 == r + REWARD_PAYMENT_DELAY && r > 0 && Inner(st.awarded, r) != map[]
    ensures Pays(st, first, r) && SameRound(Apply(st, first), steps) && 1 + BlocksIn(steps) == |Inner(st.awarded, r)|
    ensures PayoutFor(st.ledger, Get(st.staked, r), first.settings).totalStakingReward == reward
  {
    hide Apply, Valid, PayoutFor, SameRound, RunSteps;
    var n := |Inner(st.awarded, r)|;
    var settings := Rewarding(reward, n, 1);
    first := Block(st.first + n, settings, 0);
    steps := Blocks(st.first + n + 1, n - 1, settings);
    TurnSetsFirst(st, st.first + n, settings, 0);
    BlocksStay(Apply(st, first), n - 1, settings);
    RewardingPays(st.ledger, Get(st.staked, r), reward, n, 1);
  }

  /** The bound, exactly. Let round `r` be the next to be paid: whatever governance sets and whatever
      happens from then on, its authors are paid within the reward, if and only if the parts they are
      due make at most the whole. */
  lemma RoundBoundIff(st: State, r: nat)
    requires Valid(st) && st.ledger.round + 1 == r + REWARD_PAYMENT_DELAY && r > 0 && Inner(st.awarded, r) != map[]
    ensures (forall first: Step, steps: seq<Step> :: Pays(st, first, r) ==> PaysWithin(st, first, steps, r)) <==>
            AwardRatios(Inner(st.awarded, r), Get(st.points, r)) <= BILLION
  {
    hide Apply, Valid, Pays, PaymentsFor, Paid, PayoutFor, AwardRatios, PaidTotal, PaidRatios, SameRound, PaysWithin;
    var award := Inner(st.awarded, r);
    if AwardRatios(award, Get(st.points, r)) <= BILLION {
      forall first: Step, steps: seq<Step> | Pays(st, first, r)
        ensures PaysWithin(st, first, steps, r)
      {
        BoundPaysWithin(st, first, steps, r);
      }
    } else {
      var first, steps := RewardingRun(st, r, |award| * BILLION + 1);
      BeyondBound(st, first, steps, r);
      assert Pays(st, first, r) && !PaysWithin(st, first, steps, r);
    }
  }

  lemma BoundPaysWithin(st: State, first: Step, steps: seq<Step>, r: nat)
    requires Valid(st) && Pays(st, first, r) && AwardRatios(Inner(st.awarded, r), Get(st.points, r)) <= BILLION
    ensures PaysWithin(st, first, steps, r)
  {
    hide Apply, Valid, PaymentsFor, Paid, AwardRatios, RoundEnds, ComputeIssuance, PercentOf, Exists;
    RoundBound(st, first, steps, r);
  }

  lemma BeyondBound(st: State, first: Step, steps: seq<Step>, r: nat)
    requires Valid(st) && Pays(st, first, r)
    requires SameRound(Apply(st, first), steps) && 1 + BlocksIn(steps) >= |Inner(st.awarded, r)|
    requires AwardRatios(Inner(st.awarded, r), Get(st.points, r)) > BILLION
    requires var reward := PayoutFor(st.ledger, Get(st.staked, r), first.settings).totalStakingReward;
             reward > |Inner(st.awarded, r)| * BILLION
    ensures !PaysWithin(st, first, steps, r)
  {
    hide Apply, Valid, PaymentsFor, Paid, PayoutFor, AwardRatios, PaidTotal, PaidRatios, SameRound, RoundEnds;
    AllPaid(st, first, steps, r);
    LargeRewardBeyond(Paid(st, [first] + steps, r), Inner(st.awarded, r),
                      PayoutFor(st.ledger, Get(st.staked, r), first.settings), Get(st.points, r));
  }

  // ----- saturated points -----

  /** Blocks in a row, all by the same author. */
  function Authoring(author: Account, start: nat, n: nat, settings: Settings): seq<Step> {
    if n == 0 then []
    else Authoring(author, start, n - 1, settings) + [Block(start + n - 1, settings, 0)] + [Authored(author)]
  }

  /** The first round, with nothing to pay yet. */
  ghost predicate Opening(st: State) {
    st.ledger.round == 1 && st.first == 0 && st.payouts == map[]
  }

  lemma AuthorAwards(st: State, author: Account)
    requires Opening(st)
    ensures var t := Apply(st, Authored(author)); var award := Inner(st.awarded, 1);
            && Opening(t)
            && Inner(t.awarded, 1) == award[author := Min(U32_MAX, Get(award, author) + POINTS_PER_BLOCK)]
  {
  }

  /** A block inside the first round does nothing. */
  lemma OpeningBlock(st: State, now: nat, settings: Settings)
    requires Opening(st) && now < settings.length
    ensures Apply(st, Block(now, settings, 0)) == st
  {
  }

  lemma Then(st: State, steps: seq<Step>, step: Step)
    ensures RunSteps(st, steps + [step]) == Apply(RunSteps(st, steps), step)
  {
    hide Apply;
    assert (steps + [step])[..|steps|] == steps;
  }

  lemma {:induction false} AuthoringAwards(st: State, author: Account, start: nat, n: nat, settings: Settings)
    requires Opening(st) && start + n <= settings.length
    ensures var t := RunSteps(st, Authoring(author, start, n, settings)); var award := Inner(st.awarded, 1);
            && Opening(t)
            && Inner(t.awarded, 1) == if n == 0 then award
                                      else award[author := Min(U32_MAX, Get(award, author) + n * POINTS_PER_BLOCK)]
  {
    hide Apply, Inner, Opening;
    if n > 0 {
      var init := Authoring(author, start, n - 1, settings);
      var block := Block(start + n - 1, settings, 0);
      AuthoringAwards(st, author, start, n - 1, settings);
      OpeningBlock(RunSteps(st, init), start + n - 1, settings);
      Then(st, init, block);
      AuthorAwards(RunSteps(st, init + [block]), author);
      Then(st, init + [block], Authored(author));
    }
  }

  lemma {:induction false} RunStepsConcat(st: State, a: seq<Step>, b: seq<Step>)
    ensures RunSteps(st, a + b) == RunSteps(RunSteps(st, a), b)
  {
    hide Apply;
    if b == [] {
      assert a + b == a;
    } else {
      assert (a + b)[..|a + b| - 1] == a + b[..|b| - 1];
      RunStepsConcat(st, a, b[..|b| - 1]);
    }
  }

  /** Blocks enough for one author to reach the limit of a `u32`. */
  ghost predicate Many(n: nat) {
    n * POINTS_PER_BLOCK >= U32_MAX
  }

  /** When round `k + 1` begins, with rounds of this length. */
  function TurnAt(k: nat, length: nat): nat {
    if k == 0 then 0 else TurnAt(k - 1, length) + length
  }

  /** The blocks that begin the next `k` rounds. The others, without authors, change nothing. */
  function Turns(k: nat, settings: Settings): seq<Step> {
    if k == 0 then [] else Turns(k - 1, settings) + [Block(TurnAt(k, settings.length), settings, 0)]
  }

  /** Before a round is due its awards stay, whatever rounds begin. */
  lemma {:induction false} TurnsPass(st: State, k: nat, settings: Settings)
    requires st.ledger.round == 1 && st.first == 0 && k < REWARD_PAYMENT_DELAY
    ensures var t := RunSteps(st, Turns(k, settings));
            && t.ledger.round == k + 1 && t.first == TurnAt(k, settings.length)
            && Inner(t.awarded, 1) == Inner(st.awarded, 1)
  {
    hide Apply, Inner, RoundEnds;
    if k > 0 {
      var before := RunSteps(st, Turns(k - 1, settings));
      var now := TurnAt(k, settings.length);
      TurnsPass(st, k - 1, settings);
      Then(st, Turns(k - 1, settings), Block(now, settings, 0));
      EndsAt(before, now, settings);
      TurnSetsFirst(before, now, settings, 0);
      OneTurn(before, now, settings);
    }
  }

  lemma EndsAt(st: State, now: nat, settings: Settings)
    requires now == st.first + settings.length
    ensures RoundEnds(st, now, settings)
  {
  }

  lemma OneTurn(st: State, now: nat, settings: Settings)
    requires RoundEnds(st, now, settings) && 1 <= st.ledger.round < REWARD_PAYMENT_DELAY
    ensures var t := Apply(st, Block(now, settings, 0));
            t.ledger.round == st.ledger.round + 1 && Inner(t.awarded, 1) == Inner(st.awarded, 1)
  {
    hide Initialize, NextRound, RoundEnds, Inner;
    BlockLedger(st, now, settings, 0);
    PayingFrame(st, now, settings);
    StepAwards(st, Block(now, settings, 0), 1);
  }

  lemma GenesisEmpty(genesis: Ledger, totalSelected: nat)
    ensures var st := Genesis(genesis, totalSelected); Opening(st) && Inner(st.awarded, 1) == map[]
  {
    hide SelectTop;
    SelectFrame(State(genesis.(round := 1), 0, [], map[], map[], map[], map[], map[]), 1, totalSelected);
  }

  /** Two authors take turns over one long round, until its points are at the limit; then rounds pass
      until it is due. */
  function Saturating(n: nat, settings: Settings): seq<Step> {
    Authoring(1, 1, n, settings) + Authoring(2, n + 1, n, settings) + Turns(REWARD_PAYMENT_DELAY - 1, settings)
  }

  lemma SaturatedAwards(genesis: Ledger, totalSelected: nat, n: nat, settings: Settings)
    requires Consistent(genesis) && Many(n) && settings.length == 2 * n + 1
    ensures var st := RunSteps(Genesis(genesis, totalSelected), Saturating(n, settings));
            && Valid(st) && st.ledger.round == REWARD_PAYMENT_DELAY
            && st.first == TurnAt(REWARD_PAYMENT_DELAY - 1, settings.length)
            && Inner(st.awarded, 1) == map[1 := U32_MAX, 2 := U32_MAX]
  {
    hide Valid, Consistent, RunSteps, Authoring, Turns, TurnAt, Genesis, Inner;
    var start := Genesis(genesis, totalSelected);
    var one, two := Authoring(1, 1, n, settings), Authoring(2, n + 1, n, settings);
    GenesisValid(genesis, totalSelected);
    GenesisEmpty(genesis, totalSelected);
    RunValid(start, Saturating(n, settings));
    RunStepsConcat(start, one, two);
    RunStepsConcat(start, one + two, Turns(REWARD_PAYMENT_DELAY - 1, settings));
    AuthoringAwards(start, 1, 1, n, settings);
    AuthoringAwards(RunSteps(start, one), 2, n + 1, n, settings);
    TurnsPass(RunSteps(start, one + two), REWARD_PAYMENT_DELAY - 1, settings);
    assert map[][1 := U32_MAX][2 := U32_MAX] == map[1 := U32_MAX, 2 := U32_MAX];
  }

  /** A whole part is the reward itself. */
  lemma WholePart(reward: Balance)
    ensures FromRational(U32_MAX, U32_MAX) == BILLION && Part(BILLION, reward) == reward
  {
    PartBounds(BILLION, reward);
    assert FromRational(U32_MAX, U32_MAX) == BILLION;
  }

  lemma {:induction false} AllTheSame(paid: seq<Account>, award: Award, payout: DelayedPayout)
    requires forall c :: c in paid ==> c in award && award[c] == U32_MAX
    ensures PaidTotal(paid, award, payout, U32_MAX) == |paid| * payout.totalStakingReward
  {
    hide FromRational, Part;
    if paid != [] {
      AllTheSame(paid[..|paid| - 1], award, payout);
      WholePart(payout.totalStakingReward);
      Distribute(|paid| - 1, 1, payout.totalStakingReward);
    }
  }

  /** With saturated points the bound can fail. From any genesis, under constant settings, two authors
      fill the points of one long round; when the round is due, the two blocks that pay it pay the
      whole reward twice, whatever the reward. */
  lemma SaturationOverpays(genesis: Ledger, totalSelected: nat, reward: Balance, n: nat)
    requires Consistent(genesis) && Many(n)
    ensures var settings := Rewarding(reward, 2 * n + 1, totalSelected);
            var st := RunSteps(Genesis(genesis, totalSelected), Saturating(n, settings));
            var due := TurnAt(REWARD_PAYMENT_DELAY, settings.length);
            var first, steps := Block(due, settings, 0), Blocks(due + 1, 1, settings);
            && Pays(st, first, 1) && SameRound(Apply(st, first), steps)
            && PayoutFor(st.ledger, Get(st.staked, 1), settings).totalStakingReward == reward
            && PaymentsFor(st, [first] + steps, 1) == 2 * reward
            && (PaysWithin(st, first, steps, 1) <==> reward <= 1)
  {
    hide Valid, Consistent, RunSteps, Saturating, Genesis, Apply, SameRound, PaymentsFor, Paid, PayoutFor, Inner, Pays,
      PaysWithin, Blocks, TurnAt;
    var settings := Rewarding(reward, 2 * n + 1, totalSelected);
    var st := RunSteps(Genesis(genesis, totalSelected), Saturating(n, settings));
    SaturatedAwards(genesis, totalSelected, n, settings);
    NextTurn(REWARD_PAYMENT_DELAY, settings.length);
    RewardingPays(st.ledger, Get(st.staked, 1), reward, 2 * n + 1, totalSelected);
    SaturatedRun(st, settings);
    SaturatedPays(st, Block(st.first + settings.length, settings, 0),
                  Blocks(st.first + settings.length + 1, 1, settings));
  }

  lemma SaturatedRun(st: State, settings: Settings)
    requires st.ledger.round == REWARD_PAYMENT_DELAY && Inner(st.awarded, 1) == map[1 := U32_MAX, 2 := U32_MAX]
    requires settings.length > 1
    ensures var due := st.first + settings.length;
            var first, steps := Block(due, settings, 0), Blocks(due + 1, 1, settings);
            Pays(st, first, 1) && SameRound(Apply(st, first), steps) && BlocksIn(steps) == 1
  {
    hide RunSteps, Apply, SameRound, RoundEnds, Blocks;
    var due := st.first + settings.length;
    EndsAt(st, due, settings);
    TurnSetsFirst(st, due, settings, 0);
    BlocksStay(Apply(st, Block(due, settings, 0)), 1, settings);
    assert 1 in Inner(st.awarded, 1);
  }

  /** Two authors with all the points a round can have are each paid the whole reward. */
  lemma SaturatedPays(st: State, first: Step, steps: seq<Step>)
    requires Valid(st) && Pays(st, first, 1) && Inner(st.awarded, 1) == map[1 := U32_MAX, 2 := U32_MAX]
    requires SameRound(Apply(st, first), steps) && BlocksIn(steps) == 1
    ensures var reward := PayoutFor(st.ledger, Get(st.staked, 1), first.settings).totalStakingReward;
            && PaymentsFor(st, [first] + steps, 1) == 2 * reward
            && (PaysWithin(st, first, steps, 1) <==> reward <= 1)
  {
    hide Valid, Apply, RunSteps, SameRound, PaymentsFor, Paid, PayoutFor, Inner, PaidTotal, PaidRatios, AwardRatios,
      RoundEnds, BlocksIn;
    TwoSaturated(map[1 := U32_MAX, 2 := U32_MAX]);
    HasPoints(st, 1);
    AllPaid(st, first, steps, 1);
    AllTheSame(Paid(st, [first] + steps, 1), Inner(st.awarded, 1),
               PayoutFor(st.ledger, Get(st.staked, 1), first.settings));
  }

  lemma NextTurn(k: nat, length: nat)
    requires k > 0
    ensures TurnAt(k, length) == TurnAt(k - 1, length) + length
  {
  }

  lemma TwoSaturated(award: Award)
    requires award == map[1 := U32_MAX, 2 := U32_MAX]
    ensures |award| == 2 && Min(U32_MAX, Sums.SumMap(award)) == U32_MAX
  {
    assert award.Keys == {1, 2};
    assert 1 in award;
    Sums.TakeOut(award, 1);
  }
}

/** The pallet's storage for rounds, over its staking storage, and the code that runs in every
    block. Each method does to the stored items what its function in `Rounds` does to the state. */
module RoundStorages {
  import opened Bonds
  import opened Params
  import opened Ledgers
  import opened Storages
  import opened Payments
  import opened Rounds
  import OrderedSets
  import Selection

  class RoundStorage {
    const staking: Storage
    var first: nat
    var selectedCandidates: seq<Account>
    var atStake: map<nat, Snapshots>
    var staked: map<nat, Balance>
    var points: map<nat, nat>
    var awardedPts: map<nat, Award>
    var delayedPayouts: map<nat, DelayedPayout>

    ghost function View(): State
      reads this, staking
    {
      State(staking.View(), first, selectedCandidates, atStake, staked, points, awardedPts, delayedPayouts)
    }

    /** Round 1 starts at block 0. */
    constructor Genesis(staking: Storage, totalSelected: nat)
      requires Consistent(staking.View())
      modifies staking
      ensures this.staking == staking
      ensures View() == Rounds.Genesis(old(staking.View()), totalSelected)
    {
      this.staking := staking;
      first, selectedCandidates, atStake, staked, points, awardedPts, delayedPayouts :=
        0, [], map[], map[], map[], map[], map[];
      new;
      hide Consistent, SelectTop;
      ghost var s := staking.View();
      staking.round := 1;
      EnvironmentConsistent(s, 1, s.free);
      var _ := SelectTopCandidates(1, totalSelected);
      SelectFrame(State(s.(round := 1), 0, [], map[], map[], map[], map[], map[]), 1, totalSelected);
      staked := staked[1 := staking.total];
    }

    method DepositIntoExisting(to: Account, amount: Balance) returns (ok: bool)
      modifies staking`free
      ensures ok <==> amount == 0 || Exists(old(staking.View()), to)
      ensures staking.View() == Deposit(old(staking.View()), to, amount)
    {
      if amount == 0 {
        return true;
      }
      ok := Get(staking.free, to) + Get(staking.reserved, to) > 0;
      if ok {
        staking.free := staking.free[to := Get(staking.free, to) + amount];
      }
    }

    method PrepareStakingPayouts(now: nat, settings: Settings)
      modifies this`staked, this`delayedPayouts, staking`free
      ensures View() == Prepare(old(View()), now, settings)
    {
      if now <= REWARD_PAYMENT_DELAY {
        return;
      }
      var roundToPayout := now - REWARD_PAYMENT_DELAY;
      var totalPoints := Get(points, roundToPayout);
      if totalPoints == 0 {
        return;
      }
      var totalStaked := Get(staked, roundToPayout);
      staked := staked - {roundToPayout};
      var totalIssuance := ComputeIssuance(totalStaked, settings);
      var leftIssuance := totalIssuance;
      var reserve := PercentOf(settings.bondPercent, totalIssuance);
      var ok := DepositIntoExisting(settings.bondAccount, reserve);
      if ok {
        leftIssuance := SatSub(leftIssuance, reserve);
      }
      delayedPayouts :=
        delayedPayouts[roundToPayout := DelayedPayout(totalIssuance, leftIssuance, settings.commission)];
    }

    /** Neither the candidates' records nor, when nobody qualifies, the previous round's snapshots can
        be missing: every lookup the code expects to succeed does. */
    method SelectTopCandidates(now: nat, totalSelected: nat) returns (counts: Counts)
      requires Consistent(staking.View()) && now > 0 && SelectionOk(selectedCandidates, atStake, now - 1)
      modifies this`atStake, this`selectedCandidates
      ensures View() == SelectTop(old(View()), now, totalSelected)
      ensures counts == SelectionCounts(old(View()), now, totalSelected)
    {
      hide Consistent, SnapshotOk, Selection.Chosen, CountsOf;
      ghost var s := staking.View();
      PoolIsSet(s);
      var collators := Selection.ComputeTopCandidates(staking.candidatePool, totalSelected);
      SelectedAreCandidates(s, totalSelected);
      if collators == [] {
        counts := CopySnapshots(now, now - 1);
        var i := 0;
        while i < |selectedCandidates|
        {
          assert selectedCandidates[i] in Inner(atStake, now);
          i := i + 1;
        }
        return;
      }
      counts := TakeSnapshots(now, collators);
      selectedCandidates := collators;
    }

    /** Adds to round `now`'s snapshots those of round `last`. */
    method CopySnapshots(now: nat, last: nat) returns (counts: Counts)
      requires last != now
      modifies this`atStake
      ensures atStake == old(atStake)[now := Inner(old(atStake), now) + Inner(old(atStake), last)]
      ensures var copied := Inner(old(atStake), last); counts == CountsOf(SnapshotSizes(copied), SnapshotTotals(copied))
    {
      hide Inner, CountsOf, SnapshotSizes, SnapshotTotals;
      ghost var before := atStake;
      ghost var present := Inner(atStake, now);
      var copied := Inner(atStake, last);
      var added := Inner(atStake, now);
      atStake := atStake[now := added];
      var rest := copied.Keys;
      counts := Counts(0, 0, 0);
      NoCopies(present, copied);
      while rest != {}
        invariant rest <= copied.Keys
        invariant atStake == before[now := added]
        invariant added == present + (copied - rest)
        invariant counts == CountsOf(SnapshotSizes(copied - rest), SnapshotTotals(copied - rest))
        decreases |rest|
      {
        var account :| account in rest;
        OneMoreCopy(present, copied, rest, account);
        counts := Counted(counts, |copied[account].delegations|, copied[account].total);
        added := added[account := copied[account]];
        atStake := atStake[now := added];
        rest := rest - {account};
      }
      assert copied - {} == copied;
    }

    method TakeSnapshots(now: nat, collators: seq<Account>) returns (counts: Counts)
      requires Selection.Increasing(collators) && forall c :: c in collators ==> Listed(staking.View(), c)
      modifies this`atStake
      ensures atStake == old(atStake)[now := Inner(old(atStake), now) + SnapshotsOf(staking.View(), collators)]
      ensures counts == CountsOf(StoredSizes(staking.View(), collators), StoredTotals(staking.View(), collators))
    {
      hide CountsOf, StoredSizes, StoredTotals, SnapshotsOf, Inner;
      ghost var before := atStake;
      ghost var present := Inner(atStake, now);
      ghost var s := staking.View();
      atStake := atStake[now := Inner(atStake, now)];
      counts := Counts(0, 0, 0);
      NoSnapshots(s);
      for i := 0 to |collators|
        invariant now in atStake && atStake == before[now := atStake[now]]
        invariant atStake[now] == present + SnapshotsOf(s, collators[..i])
        invariant counts == CountsOf(StoredSizes(s, collators[..i]), StoredTotals(s, collators[..i]))
      {
        var account := collators[i];
        assert Listed(s, account);
        var state := staking.candidateInfo[account];
        var snapshot := Snapshot(state.bond, staking.topDelegations[account].delegations, state.totalCounted);
        OneMoreSnapshot(s, collators[..i], account, present);
        OneMoreCounted(s, collators[..i], account);
        counts := Counted(counts, state.delegationCount, state.totalCounted);
        assert collators[..i + 1] == collators[..i] + [account];
        atStake := atStake[now := atStake[now][account := snapshot]];
      }
      assert collators[..|collators|] == collators;
    }

    method Mint(amount: Balance, to: Account)
      modifies staking`free
      ensures staking.View() == Deposit(old(staking.View()), to, amount)
    {
      var ok := DepositIntoExisting(to, amount);
    }

    /** Pays the delegators of a snapshot their part of `due`, after `done` credits. */
    method PayDelegators(delegations: seq<Bond>, total: Balance, due: Balance)
      modifies staking`free
      ensures staking.View() == DepositEach(old(staking.View()), DelegatorMints(delegations, total, due))
    {
      ghost var s := staking.View();
      for i := 0 to |delegations|
        invariant staking.View() == DepositEach(s, DelegatorMints(delegations[..i], total, due))
      {
        var d := delegations[i];
        var percent := FromRational(d.amount, total);
        Mint(Part(percent, due), d.owner);
        assert DropLast(delegations[..i + 1]) == delegations[..i];
        EachStep(s, DelegatorMints(delegations[..i], total, due), Payments.Mint(d.owner, Part(percent, due)));
      }
      assert delegations[..|delegations|] == delegations;
    }

    /** Pays whichever author the iteration over the round's awards yields first; nobody when the
        round has no points or no awards. */
    method PayOneCollatorReward(paidForRound: nat, payoutInfo: DelayedPayout) returns (paid: Option<(Account, Balance)>)
      modifies this`awardedPts, this`atStake, staking`free
      ensures paid.None? <==> Get(points, paidForRound) == 0 || Inner(old(awardedPts), paidForRound) == map[]
      ensures paid.None? ==> View() == old(View())
      ensures paid.Some? ==>
                && paid.value.0 in Inner(old(awardedPts), paidForRound)
                && paid.value.1
                     == TotalPaid(payoutInfo, old(awardedPts)[paidForRound][paid.value.0], Get(points, paidForRound))
                && View() == PayOne(old(View()), paidForRound, payoutInfo, paid.value.0)
    {
      hide FromRational, Part, DepositEach, Deposit;
      ghost var before := View();
      var totalPoints := Get(points, paidForRound);
      if totalPoints == 0 {
        return None;
      }
      var collatorFee := payoutInfo.collatorCommission;
      var collatorIssuance := Part(collatorFee, payoutInfo.roundIssuance);
      var award := Inner(awardedPts, paidForRound);
      if award == map[] {
        return None;
      }
      var collator :| collator in award;
      var pts := award[collator];
      awardedPts := awardedPts[paidForRound := award - {collator}];
      var pctDue := FromRational(pts, totalPoints);
      var totalPaid := Part(pctDue, payoutInfo.totalStakingReward);
      var amtDue := totalPaid;
      var snapshots := Inner(atStake, paidForRound);
      var state := Taken(snapshots, collator);
      atStake := atStake[paidForRound := snapshots - {collator}];
      ghost var s := staking.View();
      if state.delegations == [] {
        Mint(amtDue, collator);
        EachOne(s, Payments.Mint(collator, amtDue));
      } else {
        var collatorPct := FromRational(state.bond, state.total);
        var commission := Part(pctDue, collatorIssuance);
        amtDue := SatSub(amtDue, commission);
        var collatorReward := Part(collatorPct, amtDue) + commission;
        Mint(collatorReward, collator);
        PayDelegators(state.delegations, state.total, amtDue);
        EachHead(s, Payments.Mint(collator, collatorReward), DelegatorMints(state.delegations, state.total, amtDue));
      }
      return Some((collator, totalPaid));
    }

    method HandleDelayedPayouts(now: nat) returns (paid: Option<Account>)
      modifies this`awardedPts, this`atStake, this`delayedPayouts, this`points, staking`free
      ensures View() == HandlePayouts(old(View()), now, if paid.Some? then paid.value else 0)
      ensures paid.Some? <==> now >= REWARD_PAYMENT_DELAY && Draining(old(View()), now - REWARD_PAYMENT_DELAY)
    {
      hide PayOne;
      paid := None;
      if now < REWARD_PAYMENT_DELAY {
        return;
      }
      var paidForRound := now - REWARD_PAYMENT_DELAY;
      if paidForRound in delayedPayouts {
        var result := PayOneCollatorReward(paidForRound, delayedPayouts[paidForRound]);
        if result.None? {
          delayedPayouts := delayedPayouts - {paidForRound};
          points := points - {paidForRound};
        } else {
          paid := Some(result.value.0);
        }
      }
    }

    /** What every block begins with. */
    method OnInitialize(now: nat, settings: Settings) returns (paid: Option<Account>)
      requires Valid(View())
      modifies this, staking
      ensures View() == Initialize(old(View()), now, settings, if paid.Some? then paid.value else 0)
      ensures Valid(View())
    {
      hide Valid, NextRound, HandlePayouts;
      ghost var before := View();
      if now - first >= settings.length {
        BeginRound(now, settings);
      }
      paid := HandleDelayedPayouts(staking.round);
      BlockKeeps(before, now, settings, if paid.Some? then paid.value else 0);
    }

    /** A new round: the payout is fixed, then collators are selected, then `Staked` is recorded. */
    method BeginRound(now: nat, settings: Settings)
      requires Valid(View())
      modifies this, staking
      ensures View() == NextRound(old(View()), now, settings)
    {
      hide Consistent, SelectionOk, PointsOk, PayoutsOk, Prepare, SelectTop, SelectionCounts;
      ghost var before := View();
      var current := staking.round + 1;
      ghost var prepared := Prepare(before, current, settings);
      PrepareFrame(before, current, settings);
      PrepareIsFree(before, current, settings);
      PrepareStakingPayouts(current, settings);
      EnvironmentConsistent(before.ledger, current, prepared.ledger.free);
      var _ := SelectTopCandidates(current, settings.totalSelected);
      SelectFrame(prepared, current, settings.totalSelected);
      staking.round := current;
      first := now;
      staked := staked[current := staking.total];
    }

    method NoteAuthor(author: Account)
      requires Valid(View())
      modifies this`awardedPts, this`points
      ensures View() == Rounds.NoteAuthor(old(View()), author)
      ensures Valid(View())
    {
      hide Valid;
      ghost var before := View();
      var now := staking.round;
      var award := Inner(awardedPts, now);
      var scorePlus20 := SatAdd32(Get(award, author), POINTS_PER_BLOCK);
      awardedPts := awardedPts[now := award[author := scorePlus20]];
      points := points[now := SatAdd32(Get(points, now), POINTS_PER_BLOCK)];
      NoteAuthorKeeps(before, author);
    }

    /** Who may author in this round: exactly those with a snapshot for it. */
    method CanAuthor(account: Account) returns (ok: bool)
      requires Valid(View())
      ensures ok <==> account in Inner(atStake, staking.round)
    {
      hide Consistent, PointsOk, PayoutsOk;
      ok := Selection.IsSelectedCandidate(selectedCandidates, account);
    }
  }

  lemma PoolIsSet(s: Ledger)
    requires Consistent(s)
    ensures OrderedSets.ByOwner(s.pool)
  {
  }

  lemma NoCopies(present: Snapshots, copied: Snapshots)
    ensures present + (copied - copied.Keys) == present
    ensures var none := copied - copied.Keys; CountsOf(SnapshotSizes(none), SnapshotTotals(none)) == Counts(0, 0, 0)
  {
    CountsStart();
    assert SnapshotSizes(copied - copied.Keys) == map[] && SnapshotTotals(copied - copied.Keys) == map[];
  }

  lemma OneMoreCopy(present: Snapshots, copied: Snapshots, rest: set<Account>, c: Account)
    requires c in rest && rest <= copied.Keys
    ensures present + (copied - (rest - {c})) == (present + (copied - rest))[c := copied[c]]
    ensures var before, after := copied - rest, copied - (rest - {c});
            CountsOf(SnapshotSizes(after), SnapshotTotals(after))
            == Counted(CountsOf(SnapshotSizes(before), SnapshotTotals(before)), |copied[c].delegations|,
                       copied[c].total)
  {
    hide CountsOf;
    var before, after := copied - rest, copied - (rest - {c});
    CountsOne(SnapshotSizes(before), SnapshotTotals(before), c, |copied[c].delegations|, copied[c].total);
    assert SnapshotSizes(after) == SnapshotSizes(before)[c := |copied[c].delegations|];
    assert SnapshotTotals(after) == SnapshotTotals(before)[c := copied[c].total];
  }

  lemma NoSnapshots(s: Ledger)
    ensures forall m: Snapshots :: m + SnapshotsOf(s, []) == m
    ensures CountsOf(StoredSizes(s, []), StoredTotals(s, [])) == Counts(0, 0, 0)
  {
    CountsStart();
    assert SnapshotsOf(s, []) == map[];
    assert StoredSizes(s, []) == map[] && StoredTotals(s, []) == map[];
  }

  lemma OneMoreCounted(s: Ledger, collators: seq<Account>, c: Account)
    requires c in s.info && c !in collators
    ensures CountsOf(StoredSizes(s, collators + [c]), StoredTotals(s, collators + [c]))
            == Counted(CountsOf(StoredSizes(s, collators), StoredTotals(s, collators)), s.info[c].delegationCount,
                       s.info[c].totalCounted)
  {
    hide CountsOf;
    CountsOne(StoredSizes(s, collators), StoredTotals(s, collators), c, s.info[c].delegationCount,
              s.info[c].totalCounted);
    assert StoredSizes(s, collators + [c]) == StoredSizes(s, collators)[c := s.info[c].delegationCount];
    assert StoredTotals(s, collators + [c]) == StoredTotals(s, collators)[c := s.info[c].totalCounted];
  }

  lemma OneMoreSnapshot(s: Ledger, collators: seq<Account>, c: Account, present: Snapshots)
    requires Listed(s, c)
    ensures present + SnapshotsOf(s, collators + [c]) == (present + SnapshotsOf(s, collators))[c := SnapshotOf(s, c)]
  {
    assert SnapshotsOf(s, collators + [c]) == SnapshotsOf(s, collators)[c := SnapshotOf(s, c)];
  }

  lemma EachOne(s: Ledger, m: Mint)
    ensures DepositEach(s, [m]) == Deposit(s, m.to, m.amount)
  {
    assert [m][..0] == [];
  }

  lemma EachStep(s: Ledger, mints: seq<Mint>, m: Mint)
    ensures DepositEach(s, mints + [m]) == Deposit(DepositEach(s, mints), m.to, m.amount)
  {
    assert (mints + [m])[..|mints|] == mints;
  }

  lemma {:induction false} EachHead(s: Ledger, m: Mint, mints: seq<Mint>)
    ensures DepositEach(s, [m] + mints) == DepositEach(Deposit(s, m.to, m.amount), mints)
  {
    hide Deposit;
    if mints == [] {
      assert [m] + mints == [m];
      EachOne(s, m);
    } else {
      var init := mints[..|mints| - 1];
      EachHead(s, m, init);
      assert [m] + mints == ([m] + init) + [mints[|mints| - 1]];
      EachStep(s, [m] + init, mints[|mints| - 1]);
    }
  }
}

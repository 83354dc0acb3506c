/** Parts per billion, and how one author's reward is split between the collator and its
    delegators. Assumed of the arithmetic library: a ratio is rounded down, a product to the nearest
    unit. */
module Payments {
  import opened Bonds

  const BILLION: nat := 1_000_000_000

  /** `p / q` in parts per billion, at most the whole. */
  function FromRational(p: nat, q: nat): nat {
    var d := if q == 0 then 1 else q;
    Min(p, d) * BILLION / d
  }

  /** `pct` billionths of `x`, to the nearest unit, halves down. */
  function Part(pct: nat, x: nat): nat {
    (2 * (pct * x) + BILLION - 1) / (2 * BILLION)
  }

  /** What a collator and its top delegations had at stake when a round began. */
  datatype Snapshot = Snapshot(bond: Balance, delegations: seq<Bond>, total: Balance)

  ghost predicate SnapshotOk(s: Snapshot) {
    s.total == s.bond + Sum(s.delegations)
  }

  datatype DelayedPayout = DelayedPayout(roundIssuance: Balance, totalStakingReward: Balance, collatorCommission: nat)

  /** One credit to one account. */
  datatype Mint = Mint(to: Account, amount: Balance)

  /** The share of the round's reward an author with `pts` of `points` has earned. */
  function TotalPaid(payout: DelayedPayout, pts: nat, points: nat): Balance {
    Part(FromRational(pts, points), payout.totalStakingReward)
  }

  function Commission(payout: DelayedPayout, pts: nat, points: nat): Balance {
    Part(FromRational(pts, points), Part(payout.collatorCommission, payout.roundIssuance))
  }

  function DelegatorMints(delegations: seq<Bond>, total: Balance, amount: Balance): seq<Mint> {
    if delegations == [] then []
    else
      DelegatorMints(DropLast(delegations), total, amount) +
      [Mint(Last(delegations).owner, Part(FromRational(Last(delegations).amount, total), amount))]
  }

  /** All credits for one author: everything to a collator without delegators; else commission and
      own share to the collator first, then a share to every delegator. */
  function Mints(collator: Account, s: Snapshot, payout: DelayedPayout, pts: nat, points: nat): seq<Mint> {
    var totalPaid := TotalPaid(payout, pts, points);
    if s.delegations == [] then [Mint(collator, totalPaid)]
    else
      var commission := Commission(payout, pts, points);
      var due := SatSub(totalPaid, commission);
      [Mint(collator, Part(FromRational(s.bond, s.total), due) + commission)] +
        DelegatorMints(s.delegations, s.total, due)
  }

  function SumMints(mints: seq<Mint>): Balance {
    if mints == [] then 0 else SumMints(mints[..|mints| - 1]) + mints[|mints| - 1].amount
  }

  // ----- rounding -----

  lemma DivBounds(n: nat, d: nat)
    requires d > 0
    ensures d * (n / d) <= n < d * (n / d) + d
  {
  }

  /** A ratio never exceeds the exact one, nor the whole. */
  lemma RatioBounds(p: nat, q: nat)
    ensures FromRational(p, q) * q <= p * BILLION
    ensures FromRational(p, q) <= BILLION
  {
    var d := if q == 0 then 1 else q;
    var m := Min(p, d);
    DivBounds(m * BILLION, d);
    assert d * FromRational(p, q) <= m * BILLION <= d * BILLION;
    Cancel(d, FromRational(p, q), BILLION);
  }

  lemma Distribute(a: int, b: int, c: int)
    ensures (a + b) * c == a * c + b * c && c * (a + b) == c * a + c * b
  {
  }

  /** A positive factor can be cancelled. */
  lemma Cancel(k: nat, a: int, b: int)
    requires k > 0 && k * a <= k * b
    ensures a <= b
  {
    if a > b {
      Distribute(b, a - b, k);
      Monotone(k, 1, a - b);
      assert false;
    }
  }

  lemma Monotone(k: nat, a: nat, b: nat)
    requires a <= b
    ensures k * a <= k * b && a * k <= b * k
  {
  }

  /** A product is off by at most half a unit. */
  lemma PartBounds(pct: nat, x: nat)
    ensures 2 * BILLION * Part(pct, x) <= 2 * (pct * x) + BILLION
    ensures 2 * (pct * x) <= 2 * BILLION * Part(pct, x) + BILLION
  {
    DivBounds(2 * (pct * x) + BILLION - 1, 2 * BILLION);
  }

  // ----- one author -----

  function SumRatios(delegations: seq<Bond>, total: Balance): nat {
    if delegations == [] then 0
    else SumRatios(DropLast(delegations), total) + FromRational(Last(delegations).amount, total)
  }

  lemma {:induction false} RatiosWithinWhole(delegations: seq<Bond>, total: Balance)
    ensures SumRatios(delegations, total) * total <= Sum(delegations) * BILLION
  {
    if delegations != [] {
      hide FromRational;
      RatiosWithinWhole(DropLast(delegations), total);
      RatioBounds(Last(delegations).amount, total);
      Distribute(SumRatios(DropLast(delegations), total), FromRational(Last(delegations).amount, total), total);
    }
  }

  lemma AddBounds(a: nat, b: nat, x: nat, y: nat, n: nat)
    requires 2 * BILLION * a <= 2 * x + n * BILLION && 2 * BILLION * b <= 2 * y + BILLION
    ensures 2 * BILLION * (a + b) <= 2 * (x + y) + (n + 1) * BILLION
  {
  }

  lemma {:induction false} DelegatorMintsBound(delegations: seq<Bond>, total: Balance, amount: Balance)
    ensures |DelegatorMints(delegations, total, amount)| == |delegations|
    ensures 2 * BILLION * SumMints(DelegatorMints(delegations, total, amount))
            <= 2 * (SumRatios(delegations, total) * amount) + |delegations| * BILLION
  {
    if delegations != [] {
      hide FromRational, Part;
      var init := DropLast(delegations);
      var r := FromRational(Last(delegations).amount, total);
      var mints := DelegatorMints(delegations, total, amount);
      DelegatorMintsBound(init, total, amount);
      PartBounds(r, amount);
      assert mints[..|mints| - 1] == DelegatorMints(init, total, amount);
      Distribute(SumRatios(init, total), r, amount);
      AddBounds(SumMints(mints[..|mints| - 1]), Part(r, amount), SumRatios(init, total) * amount, r * amount, |init|);
    }
  }

  lemma {:induction false} MintsHead(m: Mint, mints: seq<Mint>)
    ensures SumMints([m] + mints) == m.amount + SumMints(mints)
  {
    if mints == [] {
      assert ([m] + mints)[..0] == [];
    } else {
      assert ([m] + mints)[..|mints|] == [m] + mints[..|mints| - 1];
      MintsHead(m, mints[..|mints| - 1]);
    }
  }

  /** The shares of a snapshot add up to at most the whole. */
  lemma SharesWithinWhole(s: Snapshot)
    requires SnapshotOk(s)
    ensures FromRational(s.bond, s.total) + SumRatios(s.delegations, s.total) <= BILLION
  {
    RatioBounds(s.bond, s.total);
    RatiosWithinWhole(s.delegations, s.total);
    var all := FromRational(s.bond, s.total) + SumRatios(s.delegations, s.total);
    if s.total == 0 {
      NoRatios(s.delegations);
    } else {
      Distribute(FromRational(s.bond, s.total), SumRatios(s.delegations, s.total), s.total);
      assert s.bond * BILLION + Sum(s.delegations) * BILLION == s.total * BILLION;
      Cancel(s.total, all, BILLION);
    }
  }

  lemma {:induction false} NoRatios(delegations: seq<Bond>)
    requires Sum(delegations) == 0
    ensures SumRatios(delegations, 0) == 0
  {
    if delegations != [] {
      NoRatios(DropLast(delegations));
    }
  }

  /** Payout bound for one author: the collator's and the delegators' credits exceed the larger of
      the amount paid and the commission by at most half a unit each. */
  lemma PayoutBound(collator: Account, s: Snapshot, payout: DelayedPayout, pts: nat, points: nat)
    requires SnapshotOk(s)
    ensures var paid := TotalPaid(payout, pts, points); var commission := Commission(payout, pts, points);
            var mints := Mints(collator, s, payout, pts, points);
            && 2 * SumMints(mints) <= 2 * (if paid < commission then commission else paid) + |s.delegations| + 1
            && |mints| == |s.delegations| + 1
  {
    var paid := TotalPaid(payout, pts, points);
    var commission := Commission(payout, pts, points);
    if s.delegations == [] {
      assert [Mint(collator, paid)] == [Mint(collator, paid)] + [];
      MintsHead(Mint(collator, paid), []);
    } else {
      var due := SatSub(paid, commission);
      var ratio := FromRational(s.bond, s.total);
      var own := Part(ratio, due);
      var rest := DelegatorMints(s.delegations, s.total, due);
      MintsHead(Mint(collator, own + commission), rest);
      DelegatorMintsBound(s.delegations, s.total, due);
      PartBounds(ratio, due);
      SharesWithinWhole(s);
      SplitBound(ratio, SumRatios(s.delegations, s.total), due, own, SumMints(rest), |s.delegations|);
    }
  }

  lemma SplitBound(ratio: nat, ratios: nat, due: nat, own: nat, rest: nat, n: nat)
    requires ratio + ratios <= BILLION
    requires 2 * BILLION * own <= 2 * (ratio * due) + BILLION && 2 * BILLION * rest <= 2 * (ratios * due) + n * BILLION
    ensures 2 * (own + rest) <= 2 * due + n + 1
  {
    Monotone(due, ratio + ratios, BILLION);
    Distribute(ratio, ratios, due);
    assert BILLION * (2 * (own + rest)) <= BILLION * (2 * due + n + 1);
    Cancel(BILLION, 2 * (own + rest), 2 * due + n + 1);
  }

  // ----- who gets what -----

  /** `m` is `p / q` of `x`: at most half a unit above, and at most half a unit and a billionth of `x`
      below. */
  ghost predicate IsShare(m: nat, p: nat, q: nat, x: nat) {
    && 2 * (q * m) <= 2 * (p * x) + q
    && BILLION * (2 * (p * x)) <= BILLION * (2 * (q * m) + q) + 2 * (q * x)
  }

  lemma RatioIsFloor(p: nat, q: nat)
    requires p <= q && q > 0
    ensures FromRational(p, q) * q <= p * BILLION < FromRational(p, q) * q + q
  {
    DivBounds(p * BILLION, q);
    assert q * FromRational(p, q) == FromRational(p, q) * q;
  }

  /** The two roundings together. */
  lemma PartIsShare(p: nat, q: nat, x: nat)
    requires p <= q && q > 0
    ensures IsShare(Part(FromRational(p, q), x), p, q, x)
  {
    hide FromRational, Part;
    var r := FromRational(p, q);
    RatioIsFloor(p, q);
    PartBounds(r, x);
    ShareFromBounds(r, Part(r, x), p, q, x);
  }

  lemma ShareFromBounds(r: nat, m: nat, p: nat, q: nat, x: nat)
    requires r * q <= p * BILLION < r * q + q
    requires 2 * BILLION * m <= 2 * (r * x) + BILLION && 2 * (r * x) <= 2 * BILLION * m + BILLION
    ensures IsShare(m, p, q, x)
  {
    var rx, qm, px := r * x, q * m, p * x;
    // both bounds times q
    Monotone(q, 2 * BILLION * m, 2 * rx + BILLION);
    Monotone(q, 2 * rx, 2 * BILLION * m + BILLION);
    Times(q, m);
    Swap(q, r, x);
    // the ratio's bounds times x
    Monotone(x, r * q, p * BILLION);
    Monotone(x, p * BILLION, r * q + q);
    Distribute(r * q, q, x);
    Swap(BILLION, p, x);
    assert BILLION * (2 * qm) <= BILLION * (2 * px + q);
    Cancel(BILLION, 2 * qm, 2 * px + q);
  }

  lemma Times(q: nat, m: nat)
    ensures q * (2 * BILLION * m) == 2 * BILLION * (q * m)
    ensures q * (2 * BILLION * m + BILLION) == 2 * BILLION * (q * m) + BILLION * q
  {
    Distribute(2 * BILLION * m, BILLION, q);
  }

  lemma Swap(q: nat, r: nat, x: nat)
    ensures q * (2 * (r * x)) == 2 * ((r * q) * x)
    ensures q * (2 * (r * x) + BILLION) == 2 * ((r * q) * x) + q * BILLION
  {
    Distribute(2 * (r * x), BILLION, q);
    assert q * (r * x) == (q * r) * x;
  }

  lemma {:induction false} DelegatorMintAt(delegations: seq<Bond>, total: Balance, amount: Balance, i: nat)
    requires i < |delegations|
    ensures |DelegatorMints(delegations, total, amount)| == |delegations|
    ensures DelegatorMints(delegations, total, amount)[i]
            == Mint(delegations[i].owner, Part(FromRational(delegations[i].amount, total), amount))
  {
    hide FromRational, Part;
    if i < |delegations| - 1 {
      DelegatorMintAt(DropLast(delegations), total, amount, i);
    } else if |delegations| > 1 {
      DelegatorMintAt(DropLast(delegations), total, amount, 0);
    }
  }

  lemma {:induction false} EntryWithinSum(s: seq<Bond>, i: nat)
    requires i < |s|
    ensures s[i].amount <= Sum(s)
  {
    EntryCounts(s, i);
    StakeBounds(s, s[i].owner);
  }

  /** Who is credited what for one author: the author's part of the reward is its part of the points;
      out of it, after commission, the collator gets the part of its bond and every delegator the part
      of its delegation, in order. */
  lemma MintsAreShares(collator: Account, s: Snapshot, payout: DelayedPayout, pts: nat, points: nat, i: nat)
    requires SnapshotOk(s) && pts <= points && 0 < points && 0 < s.total && i < |s.delegations|
    ensures var paid := TotalPaid(payout, pts, points); var commission := Commission(payout, pts, points);
            var mints := Mints(collator, s, payout, pts, points);
            && IsShare(paid, pts, points, payout.totalStakingReward)
            && |mints| == |s.delegations| + 1
            && mints[0].to == collator && mints[0].amount >= commission
            && IsShare(mints[0].amount - commission, s.bond, s.total, SatSub(paid, commission))
            && mints[i + 1].to == s.delegations[i].owner
            && IsShare(mints[i + 1].amount, s.delegations[i].amount, s.total, SatSub(paid, commission))
  {
    hide FromRational, Part, IsShare, Commission;
    var due := SatSub(TotalPaid(payout, pts, points), Commission(payout, pts, points));
    PartIsShare(pts, points, payout.totalStakingReward);
    PartIsShare(s.bond, s.total, due);
    EntryWithinSum(s.delegations, i);
    DelegatorMintAt(s.delegations, s.total, due, i);
    PartIsShare(s.delegations[i].amount, s.total, due);
  }
}

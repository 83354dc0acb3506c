/** A candidate's delegations as one bounded queue in two descending lists: `top` counts towards
    selection, `bottom` waits. These functions look only at the lists; the code they specify decides
    by cached extremes and capacity flags. */
module Queues {
  import opened Bonds
  import opened Params

  datatype Queue = Queue(top: seq<Bond>, bottom: seq<Bond>)

  function Entries(q: Queue): seq<Bond> {
    q.top + q.bottom
  }

  function Backed(q: Queue, o: Account): nat {
    StakeOf(q.top, o) + StakeOf(q.bottom, o)
  }

  function Entered(q: Queue, o: Account): nat {
    Count(q.top, o) + Count(q.bottom, o)
  }

  function Backing(q: Queue): nat {
    Sum(q.top) + Sum(q.bottom)
  }

  /** Within capacity, descending throughout, waiting only behind a full top. */
  ghost predicate Shape(q: Queue) {
    && |q.top| <= MAX_TOP
    && |q.bottom| <= MAX_BOTTOM
    && (q.bottom != [] ==> |q.top| == MAX_TOP)
    && Desc(q.top)
    && Desc(q.bottom)
    && Lowest(q.top) >= Highest(q.bottom)
  }

  /** No entry is below the minimum delegation. */
  ghost predicate Floored(q: Queue) {
    AllAtLeast(q.top, MIN_DELEGATION) && AllAtLeast(q.bottom, MIN_DELEGATION)
  }

  ghost predicate Ok(q: Queue) {
    && Shape(q)
    && Floored(q)
    && forall o :: Entered(q, o) <= 1
  }

  // ----- operations -----

  /** Refused only when both lists are full and the amount is not above the lowest of all. */
  predicate Accepts(q: Queue, d: Bond) {
    !(|q.top| >= MAX_TOP && |q.bottom| >= MAX_BOTTOM && d.amount <= Lowest(q.top) && d.amount <= Lowest(q.bottom))
  }

  /** Who leaves when `d` is accepted. */
  function Evicted(q: Queue): Option<Bond> {
    if |q.top| >= MAX_TOP && |q.bottom| >= MAX_BOTTOM then Some(Last(q.bottom)) else None
  }

  function PushBottom(bottom: seq<Bond>, d: Bond): seq<Bond> {
    InsertDesc(if |bottom| >= MAX_BOTTOM then DropLast(bottom) else bottom, d)
  }

  function Enqueue(q: Queue, d: Bond): Queue {
    if |q.top| < MAX_TOP then Queue(InsertDesc(q.top, d), q.bottom)
    else if Last(q.top).amount < d.amount then
      Queue(InsertDesc(DropLast(q.top), d), PushBottom(q.bottom, Last(q.top)))
    else Queue(q.top, PushBottom(q.bottom, d))
  }

  function Dequeue(q: Queue, o: Account): Queue {
    if Count(q.top, o) == 0 then Queue(q.top, Without(q.bottom, o))
    else if q.bottom == [] then Queue(Without(q.top, o), [])
    else Queue(InsertDesc(Without(q.top, o), q.bottom[0]), q.bottom[1..])
  }

  function Raise(q: Queue, o: Account, more: Balance): Queue {
    if Count(q.top, o) > 0 || q.top == [] then Queue(SortDesc(Shift(q.top, o, more)), q.bottom)
    else if StakeOf(q.bottom, o) + more > Lowest(q.top) then
      Queue(InsertDesc(DropLast(q.top), Bond(o, StakeOf(q.bottom, o) + more)),
            InsertDesc(Without(q.bottom, o), Last(q.top)))
    else Queue(q.top, SortDesc(Shift(q.bottom, o, more)))
  }

  function Lower(q: Queue, o: Account, less: Balance): Queue {
    if Count(q.top, o) == 0 then Queue(q.top, SortDesc(Shift(q.bottom, o, 0 - less)))
    else if q.bottom != [] && SatSub(StakeOf(q.top, o), less) < Highest(q.bottom) then
      Queue(InsertDesc(Without(q.top, o), q.bottom[0]),
            InsertDesc(q.bottom[1..], Bond(o, SatSub(StakeOf(q.top, o), less))))
    else Queue(SortDesc(Shift(q.top, o, 0 - less)), q.bottom)
  }

  // ----- the lists stay one descending queue -----

  /** A descending list that stays at or above the boundary `m` between top and bottom. */
  ghost predicate Above(s: seq<Bond>, m: Balance) {
    Desc(s) && AllAtLeast(s, m)
  }

  /** A descending list that stays at or below it. */
  ghost predicate Below(s: seq<Bond>, m: Balance) {
    Desc(s) && AllAtMost(s, m)
  }

  lemma Boundary(q: Queue, m: Balance)
    requires |q.top| <= MAX_TOP && |q.bottom| <= MAX_BOTTOM && (q.bottom != [] ==> |q.top| == MAX_TOP)
    requires Above(q.top, m) && Below(q.bottom, m)
    ensures Shape(q)
  {
  }

  lemma BoundaryOf(q: Queue)
    requires Shape(q)
    ensures Above(q.top, Highest(q.bottom)) && Below(q.bottom, Highest(q.bottom))
    ensures q.top != [] ==> Above(q.top, Lowest(q.top)) && Below(q.bottom, Lowest(q.top))
  {
  }

  lemma InsertAbove(s: seq<Bond>, d: Bond, m: Balance)
    requires Above(s, m) && d.amount >= m
    ensures Above(InsertDesc(s, d), m) && |InsertDesc(s, d)| == |s| + 1
  {
    InsertDescSorted(s, d);
    InsertDescMeasures(s, d);
    InsertDescBounds(s, d, m);
  }

  lemma InsertBelow(s: seq<Bond>, d: Bond, m: Balance)
    requires Below(s, m) && d.amount <= m
    ensures Below(InsertDesc(s, d), m) && |InsertDesc(s, d)| == |s| + 1
  {
    InsertDescSorted(s, d);
    InsertDescMeasures(s, d);
    InsertDescBounds(s, d, m);
  }

  lemma WithoutKeepsSide(s: seq<Bond>, o: Account, m: Balance)
    ensures Above(s, m) ==> Above(Without(s, o), m)
    ensures Below(s, m) ==> Below(Without(s, o), m)
    ensures |Without(s, o)| == |s| - Count(s, o)
  {
    WithoutMeasures(s, o);
    WithoutBounds(s, o, m);
    if Desc(s) {
      WithoutSorted(s, o);
    }
  }

  lemma ShiftKeepsSide(s: seq<Bond>, o: Account, delta: int, m: Balance)
    requires Count(s, o) == 1 && StakeOf(s, o) + delta >= 0
    ensures Above(s, m) && StakeOf(s, o) + delta >= m ==> Above(SortDesc(Shift(s, o, delta)), m)
    ensures Below(s, m) && StakeOf(s, o) + delta <= m ==> Below(SortDesc(Shift(s, o, delta)), m)
    ensures |SortDesc(Shift(s, o, delta))| == |s|
  {
    ShiftMeasures(s, o, delta);
    ShiftBounds(s, o, delta, m);
    SortDescSorted(Shift(s, o, delta));
    SortDescMeasures(Shift(s, o, delta));
    SortDescBounds(Shift(s, o, delta), m);
  }

  lemma StakeSide(s: seq<Bond>, o: Account, m: Balance)
    requires Count(s, o) == 1
    ensures AllAtLeast(s, m) ==> StakeOf(s, o) >= m
    ensures AllAtMost(s, m) ==> StakeOf(s, o) <= m
  {
    var i := FindEntry(s, o);
    EntryCounts(s, i);
  }

  lemma PushBelow(bottom: seq<Bond>, d: Bond, m: Balance)
    requires Below(bottom, m) && d.amount <= m && |bottom| <= MAX_BOTTOM
    ensures Below(PushBottom(bottom, d), m) && |PushBottom(bottom, d)| <= MAX_BOTTOM
  {
    InsertBelow(if |bottom| >= MAX_BOTTOM then DropLast(bottom) else bottom, d, m);
  }

  lemma EnqueueShape(q: Queue, d: Bond)
    requires Shape(q)
    ensures Shape(Enqueue(q, d))
  {
    BoundaryOf(q);
    if |q.top| < MAX_TOP {
      InsertAbove(q.top, d, 0);
      Boundary(Enqueue(q, d), 0);
    } else {
      var m := Lowest(q.top);
      if m < d.amount {
        InsertAbove(DropLast(q.top), d, m);
        PushBelow(q.bottom, Last(q.top), m);
      } else {
        PushBelow(q.bottom, d, m);
      }
      Boundary(Enqueue(q, d), m);
    }
  }

  lemma DequeueShape(q: Queue, o: Account)
    requires Shape(q) && Entered(q, o) == 1
    ensures Shape(Dequeue(q, o))
  {
    BoundaryOf(q);
    var m := Highest(q.bottom);
    WithoutKeepsSide(q.top, o, m);
    WithoutKeepsSide(q.bottom, o, m);
    if Count(q.top, o) > 0 && q.bottom != [] {
      InsertAbove(Without(q.top, o), q.bottom[0], m);
    }
    Boundary(Dequeue(q, o), m);
  }

  lemma RaiseShape(q: Queue, o: Account, more: Balance)
    requires Shape(q) && Entered(q, o) == 1
    ensures Shape(Raise(q, o, more))
  {
    BoundaryOf(q);
    var m := Lowest(q.top);
    if Count(q.top, o) > 0 {
      StakeSide(q.top, o, m);
      ShiftKeepsSide(q.top, o, more, m);
    } else if StakeOf(q.bottom, o) + more > m {
      InsertAbove(DropLast(q.top), Bond(o, StakeOf(q.bottom, o) + more), m);
      WithoutKeepsSide(q.bottom, o, m);
      InsertBelow(Without(q.bottom, o), Last(q.top), m);
    } else {
      ShiftKeepsSide(q.bottom, o, more, m);
    }
    Boundary(Raise(q, o, more), m);
  }

  lemma LowerShape(q: Queue, o: Account, less: Balance)
    requires Shape(q) && Entered(q, o) == 1 && Backed(q, o) >= less
    ensures Shape(Lower(q, o, less))
  {
    hide SortDesc, Shift, InsertDesc, Without, Sum;
    BoundaryOf(q);
    StakeBounds(q.top, o);
    StakeBounds(q.bottom, o);
    var m := Highest(q.bottom);
    if Count(q.top, o) == 0 {
      StakeSide(q.bottom, o, m);
      ShiftKeepsSide(q.bottom, o, 0 - less, m);
    } else if q.bottom != [] && StakeOf(q.top, o) - less < m {
      WithoutKeepsSide(q.top, o, m);
      InsertAbove(Without(q.top, o), q.bottom[0], m);
      InsertBelow(q.bottom[1..], Bond(o, StakeOf(q.top, o) - less), m);
    } else {
      ShiftKeepsSide(q.top, o, 0 - less, m);
    }
    Boundary(Lower(q, o, less), m);
  }

  // ----- whose stake is where -----

  /** An accepted entry joins, the evicted one leaves, nobody else's stake changes. */
  lemma EnqueueStakes(q: Queue, d: Bond)
    requires Shape(q)
    ensures forall o :: Backed(Enqueue(q, d), o) + LeavingStake(q, o)
                        == Backed(q, o) + if d.owner == o then d.amount else 0
    ensures forall o :: Entered(Enqueue(q, d), o) + LeavingCount(q, o)
                        == Entered(q, o) + if d.owner == o then 1 else 0
    ensures Backing(Enqueue(q, d)) + EvictedAmount(q) == Backing(q) + d.amount
    ensures |Entries(Enqueue(q, d))| == |Entries(q)| + if Evicted(q).Some? then 0 else 1
  {
    if |q.top| < MAX_TOP {
      InsertDescMeasures(q.top, d);
    } else if Last(q.top).amount < d.amount {
      InsertDescMeasures(DropLast(q.top), d);
      PushMeasures(q, Last(q.top));
    } else {
      PushMeasures(q, d);
    }
  }

  function EvictedAmount(q: Queue): Balance {
    if Evicted(q).Some? then Evicted(q).value.amount else 0
  }

  function LeavingStake(q: Queue, o: Account): Balance {
    if Evicted(q).Some? && Evicted(q).value.owner == o then Evicted(q).value.amount else 0
  }

  function LeavingCount(q: Queue, o: Account): nat {
    if Evicted(q).Some? && Evicted(q).value.owner == o then 1 else 0
  }

  lemma PushMeasures(q: Queue, d: Bond)
    requires Shape(q) && |q.top| >= MAX_TOP
    ensures Sum(PushBottom(q.bottom, d)) + EvictedAmount(q) == Sum(q.bottom) + d.amount
    ensures forall o :: StakeOf(PushBottom(q.bottom, d), o) + LeavingStake(q, o)
                        == StakeOf(q.bottom, o) + if d.owner == o then d.amount else 0
    ensures forall o :: Count(PushBottom(q.bottom, d), o) + LeavingCount(q, o)
                        == Count(q.bottom, o) + if d.owner == o then 1 else 0
    ensures |PushBottom(q.bottom, d)| == |q.bottom| + if Evicted(q).Some? then 0 else 1
  {
    InsertDescMeasures(if |q.bottom| >= MAX_BOTTOM then DropLast(q.bottom) else q.bottom, d);
  }

  lemma DequeueStakes(q: Queue, o: Account)
    requires Entered(q, o) == 1
    ensures forall p :: Backed(Dequeue(q, o), p) == if p == o then 0 else Backed(q, p)
    ensures forall p :: Entered(Dequeue(q, o), p) == if p == o then 0 else Entered(q, p)
    ensures Backing(Dequeue(q, o)) == Backing(q) - Backed(q, o)
    ensures |Entries(Dequeue(q, o))| == |Entries(q)| - 1
  {
    StakeBounds(q.top, o);
    StakeBounds(q.bottom, o);
    WithoutMeasures(q.top, o);
    WithoutMeasures(q.bottom, o);
    if Count(q.top, o) > 0 && q.bottom != [] {
      InsertDescMeasures(Without(q.top, o), q.bottom[0]);
      HeadMeasures(q.bottom);
    }
  }

  /** From `q` to `r` exactly one owner's stake moves, by `delta`, and nobody joins or leaves. */
  ghost predicate StakeMoves(q: Queue, r: Queue, o: Account, delta: int) {
    && (forall p :: Backed(r, p) == Backed(q, p) + if p == o then delta else 0)
    && (forall p :: Entered(r, p) == Entered(q, p))
    && Backing(r) == Backing(q) + delta
    && |Entries(r)| == |Entries(q)|
  }

  ghost predicate ListMoves(s: seq<Bond>, t: seq<Bond>, o: Account, delta: int) {
    && (forall p :: StakeOf(t, p) == StakeOf(s, p) + if p == o then delta else 0)
    && (forall p :: Count(t, p) == Count(s, p))
    && Sum(t) == Sum(s) + delta
    && |t| == |s|
  }

  lemma ChangedMeasures(s: seq<Bond>, o: Account, delta: int)
    requires Count(s, o) == 1 && StakeOf(s, o) + delta >= 0
    ensures ListMoves(s, SortDesc(Shift(s, o, delta)), o, delta)
  {
    ShiftMeasures(s, o, delta);
    SortDescMeasures(Shift(s, o, delta));
  }

  lemma MovesInTop(q: Queue, top: seq<Bond>, o: Account, delta: int)
    requires ListMoves(q.top, top, o, delta)
    ensures StakeMoves(q, Queue(top, q.bottom), o, delta)
  {
  }

  lemma MovesInBottom(q: Queue, bottom: seq<Bond>, o: Account, delta: int)
    requires ListMoves(q.bottom, bottom, o, delta)
    ensures StakeMoves(q, Queue(q.top, bottom), o, delta)
  {
  }

  /** The swap of a bottom entry, at its new amount, with the lowest top entry. */
  lemma Promoted(q: Queue, d: Bond, delta: int)
    requires Count(q.bottom, d.owner) == 1 && q.top != [] && d.amount == StakeOf(q.bottom, d.owner) + delta
    ensures StakeMoves(q, Queue(InsertDesc(DropLast(q.top), d),
                                InsertDesc(Without(q.bottom, d.owner), Last(q.top))), d.owner, delta)
  {
    hide InsertDesc, Without;
    InsertDescMeasures(DropLast(q.top), d);
    WithoutMeasures(q.bottom, d.owner);
    InsertDescMeasures(Without(q.bottom, d.owner), Last(q.top));
  }

  /** The swap of a top entry, at its new amount, with the highest bottom entry. */
  lemma Demoted(q: Queue, d: Bond, delta: int)
    requires Count(q.top, d.owner) == 1 && q.bottom != [] && d.amount == StakeOf(q.top, d.owner) + delta
    ensures StakeMoves(q, Queue(InsertDesc(Without(q.top, d.owner), q.bottom[0]),
                                InsertDesc(q.bottom[1..], d)), d.owner, delta)
  {
    WithoutMeasures(q.top, d.owner);
    InsertDescMeasures(Without(q.top, d.owner), q.bottom[0]);
    HeadMeasures(q.bottom);
    InsertDescMeasures(q.bottom[1..], d);
  }

  /** Raising moves exactly one owner's stake, whichever list it ends in. */
  lemma RaiseStakes(q: Queue, o: Account, more: Balance)
    requires Entered(q, o) == 1 && (q.bottom != [] ==> q.top != [])
    ensures StakeMoves(q, Raise(q, o, more), o, more)
  {
    hide SortDesc, Shift, InsertDesc, Without, Sum, StakeMoves;
    if Count(q.top, o) > 0 {
      ChangedMeasures(q.top, o, more);
      MovesInTop(q, SortDesc(Shift(q.top, o, more)), o, more);
    } else {
      StakeBounds(q.bottom, o);
      if StakeOf(q.bottom, o) + more > Lowest(q.top) {
        Promoted(q, Bond(o, StakeOf(q.bottom, o) + more), more);
      } else {
        ChangedMeasures(q.bottom, o, more);
        MovesInBottom(q, SortDesc(Shift(q.bottom, o, more)), o, more);
      }
    }
  }

  /** Lowering moves exactly one owner's stake, whichever list it ends in. */
  lemma LowerStakes(q: Queue, o: Account, less: Balance)
    requires Entered(q, o) == 1 && Backed(q, o) >= less
    ensures StakeMoves(q, Lower(q, o, less), o, 0 - less)
  {
    hide SortDesc, Shift, InsertDesc, Without, Sum, StakeMoves;
    StakeBounds(q.top, o);
    StakeBounds(q.bottom, o);
    if Count(q.top, o) == 0 {
      ChangedMeasures(q.bottom, o, 0 - less);
      MovesInBottom(q, SortDesc(Shift(q.bottom, o, 0 - less)), o, 0 - less);
    } else if q.bottom != [] && SatSub(StakeOf(q.top, o), less) < Highest(q.bottom) {
      Demoted(q, Bond(o, SatSub(StakeOf(q.top, o), less)), 0 - less);
    } else {
      ChangedMeasures(q.top, o, 0 - less);
      MovesInTop(q, SortDesc(Shift(q.top, o, 0 - less)), o, 0 - less);
    }
  }

  // ----- every operation keeps the queue -----

  lemma EnqueueFloor(q: Queue, d: Bond)
    requires Floored(q) && d.amount >= MIN_DELEGATION
    ensures Floored(Enqueue(q, d))
  {
    var m := MIN_DELEGATION;
    if |q.top| < MAX_TOP {
      InsertDescBounds(q.top, d, m);
    } else {
      var kept := if |q.bottom| >= MAX_BOTTOM then DropLast(q.bottom) else q.bottom;
      InsertDescBounds(DropLast(q.top), d, m);
      InsertDescBounds(kept, Last(q.top), m);
      InsertDescBounds(kept, d, m);
    }
  }

  lemma DequeueFloor(q: Queue, o: Account)
    requires Floored(q)
    ensures Floored(Dequeue(q, o))
  {
    var m := MIN_DELEGATION;
    WithoutBounds(q.top, o, m);
    WithoutBounds(q.bottom, o, m);
    if q.bottom != [] {
      InsertDescBounds(Without(q.top, o), q.bottom[0], m);
    }
  }

  lemma ShiftFloor(s: seq<Bond>, o: Account, delta: int)
    requires AllAtLeast(s, MIN_DELEGATION) && Count(s, o) == 1 && StakeOf(s, o) + delta >= MIN_DELEGATION
    ensures AllAtLeast(SortDesc(Shift(s, o, delta)), MIN_DELEGATION)
  {
    ShiftBounds(s, o, delta, MIN_DELEGATION);
    SortDescBounds(Shift(s, o, delta), MIN_DELEGATION);
  }

  lemma RaiseFloor(q: Queue, o: Account, more: Balance)
    requires Floored(q) && Entered(q, o) == 1 && (q.bottom != [] ==> q.top != [])
    ensures Floored(Raise(q, o, more))
  {
    var m := MIN_DELEGATION;
    if Count(q.top, o) > 0 {
      StakeSide(q.top, o, m);
      ShiftFloor(q.top, o, more);
    } else {
      StakeSide(q.bottom, o, m);
      if StakeOf(q.bottom, o) + more > Lowest(q.top) {
        InsertDescBounds(DropLast(q.top), Bond(o, StakeOf(q.bottom, o) + more), m);
        WithoutBounds(q.bottom, o, m);
        InsertDescBounds(Without(q.bottom, o), Last(q.top), m);
      } else {
        ShiftFloor(q.bottom, o, more);
      }
    }
  }

  lemma LowerFloor(q: Queue, o: Account, less: Balance)
    requires Floored(q) && Entered(q, o) == 1 && Backed(q, o) >= less + MIN_DELEGATION
    ensures Floored(Lower(q, o, less))
  {
    var m := MIN_DELEGATION;
    StakeBounds(q.top, o);
    StakeBounds(q.bottom, o);
    if Count(q.top, o) == 0 {
      ShiftFloor(q.bottom, o, 0 - less);
    } else if q.bottom != [] && SatSub(StakeOf(q.top, o), less) < Highest(q.bottom) {
      WithoutBounds(q.top, o, m);
      InsertDescBounds(Without(q.top, o), q.bottom[0], m);
      InsertDescBounds(q.bottom[1..], Bond(o, SatSub(StakeOf(q.top, o), less)), m);
    } else {
      ShiftFloor(q.top, o, 0 - less);
    }
  }

  lemma EnqueueKeepsOk(q: Queue, d: Bond)
    requires Ok(q) && Entered(q, d.owner) == 0 && d.amount >= MIN_DELEGATION
    ensures Ok(Enqueue(q, d))
  {
    EnqueueShape(q, d);
    EnqueueFloor(q, d);
    EnqueueStakes(q, d);
  }

  lemma DequeueKeepsOk(q: Queue, o: Account)
    requires Ok(q) && Entered(q, o) == 1
    ensures Ok(Dequeue(q, o))
  {
    DequeueShape(q, o);
    DequeueFloor(q, o);
    DequeueStakes(q, o);
  }

  lemma RaiseKeepsOk(q: Queue, o: Account, more: Balance)
    requires Ok(q) && Entered(q, o) == 1
    ensures Ok(Raise(q, o, more))
  {
    RaiseShape(q, o, more);
    RaiseFloor(q, o, more);
    RaiseStakes(q, o, more);
  }

  lemma LowerKeepsOk(q: Queue, o: Account, less: Balance)
    requires Ok(q) && Entered(q, o) == 1 && Backed(q, o) >= less + MIN_DELEGATION
    ensures Ok(Lower(q, o, less))
  {
    LowerShape(q, o, less);
    LowerFloor(q, o, less);
    LowerStakes(q, o, less);
  }
}

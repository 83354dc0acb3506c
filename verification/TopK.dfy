/** What the two lists of a candidate mean: they hold the largest delegations offered, by an
    independent reference that sorts everything and cuts. */
module TopK {
  import opened Bonds
  import opened Params
  import Queues

  function Amounts(s: seq<Bond>): (a: seq<Balance>)
    ensures |a| == |s|
  {
    if s == [] then [] else Amounts(DropLast(s)) + [Last(s).amount]
  }

  /** The reference: all amounts, greatest first. */
  function Ranked(entries: seq<Bond>): (a: seq<Balance>)
    ensures |a| == |entries|
  {
    SortDescMeasures(entries);
    Amounts(SortDesc(entries))
  }

  /** How many entries have this amount. */
  function Tally(s: seq<Bond>, v: Balance): nat {
    if s == [] then 0 else Tally(DropLast(s), v) + if Last(s).amount == v then 1 else 0
  }

  lemma {:induction false} AmountsConcat(a: seq<Bond>, b: seq<Bond>)
    ensures Amounts(a + b) == Amounts(a) + Amounts(b)
  {
    if b == [] {
      assert a + b == a;
    } else {
      assert DropLast(a + b) == a + DropLast(b);
      AmountsConcat(a, DropLast(b));
    }
  }

  lemma {:induction false} TallyConcat(a: seq<Bond>, b: seq<Bond>)
    ensures forall v :: Tally(a + b, v) == Tally(a, v) + Tally(b, v)
  {
    if b == [] {
      assert a + b == a;
    } else {
      assert DropLast(a + b) == a + DropLast(b);
      TallyConcat(a, DropLast(b));
    }
  }

  lemma {:induction false} TallyInsert(s: seq<Bond>, x: Bond)
    ensures forall v :: Tally(InsertDesc(s, x), v) == Tally(s, v) + if x.amount == v then 1 else 0
  {
    if s != [] && Last(s).amount < x.amount {
      TallyInsert(DropLast(s), x);
      assert DropLast(InsertDesc(s, x)) == InsertDesc(DropLast(s), x);
    } else {
      assert DropLast(s + [x]) == s;
    }
  }

  lemma {:induction false} TallySort(s: seq<Bond>)
    ensures forall v :: Tally(SortDesc(s), v) == Tally(s, v)
  {
    if s != [] {
      TallySort(DropLast(s));
      TallyInsert(SortDesc(DropLast(s)), Last(s));
    }
  }

  lemma {:induction false} TallyFinds(s: seq<Bond>, v: Balance)
    ensures Tally(s, v) > 0 ==> exists i :: 0 <= i < |s| && s[i].amount == v
    ensures s != [] ==> Tally(s, Last(s).amount) > 0
  {
    if s != [] {
      TallyFinds(DropLast(s), v);
      if Tally(DropLast(s), v) > 0 {
        var i :| 0 <= i < |DropLast(s)| && DropLast(s)[i].amount == v;
        assert s[i].amount == v;
      } else if Last(s).amount == v {
        assert s[|s| - 1].amount == v;
      }
    }
  }

  lemma LastIsLeast(s: seq<Bond>, t: seq<Bond>)
    requires s != [] && t != [] && Desc(t) && forall v :: Tally(s, v) == Tally(t, v)
    ensures Last(s).amount >= Last(t).amount
  {
    TallyFinds(s, Last(s).amount);
    assert Tally(t, Last(s).amount) > 0;
    TallyFinds(t, Last(s).amount);
  }

  /** A descending arrangement of given amounts is unique. */
  lemma {:induction false} DescUnique(s: seq<Bond>, t: seq<Bond>)
    requires Desc(s) && Desc(t) && forall v :: Tally(s, v) == Tally(t, v)
    ensures Amounts(s) == Amounts(t)
  {
    if s == [] || t == [] {
      if s != [] {
        TallyFinds(s, 0);
        assert false;
      } else if t != [] {
        TallyFinds(t, 0);
        assert false;
      }
    } else {
      LastIsLeast(s, t);
      LastIsLeast(t, s);
      forall v
        ensures Tally(DropLast(s), v) == Tally(DropLast(t), v)
      {
        assert Tally(s, v) == Tally(t, v);
      }
      DescUnique(DropLast(s), DropLast(t));
    }
  }

  lemma RankedIs(s: seq<Bond>, entries: seq<Bond>)
    requires Desc(s) && forall v :: Tally(s, v) == Tally(entries, v)
    ensures Amounts(s) == Ranked(entries)
  {
    TallySort(entries);
    SortDescSorted(entries);
    DescUnique(s, SortDesc(entries));
  }

  lemma EntriesDesc(q: Queues.Queue)
    requires Queues.Shape(q)
    ensures Desc(Queues.Entries(q))
  {
    Queues.BoundaryOf(q);
  }

  /** The top list holds the `MAX_TOP` largest of all delegations to the candidate, or all of them
      when there are fewer; the bottom list holds the rest, in order. */
  lemma TopHoldsLargest(q: Queues.Queue)
    requires Queues.Ok(q)
    ensures |q.top| == Min(MAX_TOP, |Queues.Entries(q)|)
    ensures Amounts(q.top) == Ranked(Queues.Entries(q))[..|q.top|]
    ensures Amounts(q.bottom) == Ranked(Queues.Entries(q))[|q.top|..]
  {
    EntriesDesc(q);
    RankedIs(Queues.Entries(q), Queues.Entries(q));
    AmountsConcat(q.top, q.bottom);
  }

  lemma EnqueueTally(q: Queues.Queue, d: Bond)
    requires Queues.Shape(q)
    ensures forall v :: Tally(Queues.Entries(Queues.Enqueue(q, d)), v)
                        + (if Queues.Evicted(q).Some? && Queues.EvictedAmount(q) == v then 1 else 0)
                        == Tally(Queues.Entries(q), v) + if d.amount == v then 1 else 0
  {
    hide InsertDesc;
    var r := Queues.Enqueue(q, d);
    TallyConcat(q.top, q.bottom);
    TallyConcat(r.top, r.bottom);
    if |q.top| < MAX_TOP {
      TallyInsert(q.top, d);
    } else if Last(q.top).amount < d.amount {
      TallyInsert(DropLast(q.top), d);
      PushTally(q, Last(q.top));
    } else {
      PushTally(q, d);
    }
  }

  lemma PushTally(q: Queues.Queue, d: Bond)
    requires Queues.Shape(q) && |q.top| >= MAX_TOP
    ensures forall v :: Tally(Queues.PushBottom(q.bottom, d), v)
                        + (if Queues.Evicted(q).Some? && Queues.EvictedAmount(q) == v then 1 else 0)
                        == Tally(q.bottom, v) + if d.amount == v then 1 else 0
  {
    TallyInsert(if |q.bottom| >= MAX_BOTTOM then DropLast(q.bottom) else q.bottom, d);
  }

  lemma SnocDesc(s: seq<Bond>, x: Bond)
    requires Desc(s) && AllAtLeast(s, x.amount)
    ensures Desc(s + [x])
    ensures forall v :: Tally(s + [x], v) == Tally(s, v) + if x.amount == v then 1 else 0
    ensures Amounts(s + [x]) == Amounts(s) + [x.amount]
  {
    assert DropLast(s + [x]) == s;
  }

  /** What is kicked is no larger than anything kept. */
  lemma KickedIsLeast(q: Queues.Queue, d: Bond)
    requires Queues.Shape(q) && Queues.Evicted(q).Some? && Queues.Accepts(q, d)
    ensures AllAtLeast(Queues.Entries(Queues.Enqueue(q, d)), Queues.EvictedAmount(q))
  {
    hide InsertDesc;
    var m := Queues.EvictedAmount(q);
    Queues.BoundaryOf(q);
    assert q.bottom[0].amount >= m;
    InsertDescBounds(DropLast(q.top), d, m);
    InsertDescBounds(DropLast(q.bottom), Last(q.top), m);
    InsertDescBounds(DropLast(q.bottom), d, m);
  }

  /** Bounded-queue refinement. After offering `d` the amounts kept are exactly the largest
      `MAX_TOP + MAX_BOTTOM` of the old amounts and the new one, whether or not `d` is accepted; it
      is refused exactly when it would be cut off itself, and what is kicked is what the reference
      cuts off. */
  lemma KeepsLargest(q: Queues.Queue, d: Bond)
    requires Queues.Ok(q)
    ensures var ranked := Ranked(Queues.Entries(q) + [d]);
            var kept := if Queues.Accepts(q, d) then Queues.Enqueue(q, d) else q;
            && Amounts(Queues.Entries(kept)) == ranked[..Min(MAX_TOP + MAX_BOTTOM, |ranked|)]
            && (Queues.Accepts(q, d) && Queues.Evicted(q).Some? ==>
                  |ranked| == MAX_TOP + MAX_BOTTOM + 1 && ranked[MAX_TOP + MAX_BOTTOM..] == [Queues.EvictedAmount(q)])
            && (!Queues.Accepts(q, d) ==>
                  |ranked| == MAX_TOP + MAX_BOTTOM + 1 && ranked[MAX_TOP + MAX_BOTTOM..] == [d.amount])
  {
    hide Queues.Enqueue, InsertDesc, SortDesc, Tally, Ranked;
    var all := Queues.Entries(q) + [d];
    EntriesDesc(q);
    TallyOne(Queues.Entries(q), d);
    if Queues.Accepts(q, d) {
      var r := Queues.Enqueue(q, d);
      Queues.EnqueueShape(q, d);
      Queues.EnqueueStakes(q, d);
      EntriesDesc(r);
      EnqueueTally(q, d);
      if Queues.Evicted(q).Some? {
        var k := Bond(0, Queues.EvictedAmount(q));
        KickedIsLeast(q, d);
        SnocDesc(Queues.Entries(r), k);
        RankedIs(Queues.Entries(r) + [k], all);
      } else {
        RankedIs(Queues.Entries(r), all);
      }
    } else {
      AboveRefused(q, d);
      SnocDesc(Queues.Entries(q), d);
      RankedIs(Queues.Entries(q) + [d], all);
    }
  }

  lemma TallyOne(s: seq<Bond>, d: Bond)
    ensures forall v :: Tally(s + [d], v) == Tally(s, v) + if d.amount == v then 1 else 0
  {
    assert DropLast(s + [d]) == s;
  }

  lemma AboveRefused(q: Queues.Queue, d: Bond)
    requires Queues.Shape(q) && !Queues.Accepts(q, d)
    ensures AllAtLeast(Queues.Entries(q), d.amount) && |Queues.Entries(q)| == MAX_TOP + MAX_BOTTOM
  {
    Queues.BoundaryOf(q);
  }

  /** First come, first served: an entry is inserted behind all entries of at least its amount. */
  lemma {:induction false} InsertIsSplit(s: seq<Bond>, x: Bond)
    requires Desc(s)
    ensures exists p :: 0 <= p <= |s| && InsertDesc(s, x) == s[..p] + [x] + s[p..]
                        && AllAtLeast(s[..p], x.amount) && forall i :: p <= i < |s| ==> s[i].amount < x.amount
  {
    var p := |s|;
    while p > 0 && s[p - 1].amount < x.amount
      invariant 0 <= p <= |s|
      invariant forall i :: p <= i < |s| ==> s[i].amount < x.amount
    {
      p := p - 1;
    }
    InsertDescAt(s, x, p);
  }

  // ----- first come, first served -----

  /** The entries of this amount, in order. */
  function AtAmount(s: seq<Bond>, v: Balance): seq<Bond> {
    if s == [] then []
    else if Last(s).amount == v then AtAmount(DropLast(s), v) + [Last(s)]
    else AtAmount(DropLast(s), v)
  }

  lemma {:induction false} InsertIsStable(s: seq<Bond>, x: Bond, v: Balance)
    ensures AtAmount(InsertDesc(s, x), v) == AtAmount(s, v) + if x.amount == v then [x] else []
  {
    if s != [] && Last(s).amount < x.amount {
      InsertIsStable(DropLast(s), x, v);
      AtLast(InsertDesc(DropLast(s), x), Last(s), v);
    } else {
      AtLast(s, x, v);
    }
  }

  lemma AtLast(s: seq<Bond>, x: Bond, v: Balance)
    ensures AtAmount(s + [x], v) == AtAmount(s, v) + if x.amount == v then [x] else []
  {
    assert DropLast(s + [x]) == s;
  }

  /** Sorting keeps entries of the same amount in order. */
  lemma {:induction false} SortIsStable(s: seq<Bond>, v: Balance)
    ensures AtAmount(SortDesc(s), v) == AtAmount(s, v)
  {
    if s != [] {
      SortIsStable(DropLast(s), v);
      InsertIsStable(SortDesc(DropLast(s)), Last(s), v);
    }
  }

  lemma {:induction false} WithoutConcat(a: seq<Bond>, b: seq<Bond>, o: Account)
    ensures Without(a + b, o) == Without(a, o) + Without(b, o)
  {
    if b == [] {
      assert a + b == a;
    } else {
      assert DropLast(a + b) == a + DropLast(b);
      WithoutConcat(a, DropLast(b), o);
    }
  }

  lemma {:induction false} WithoutNone(s: seq<Bond>, o: Account)
    requires Count(s, o) == 0
    ensures Without(s, o) == s
  {
    if s != [] {
      WithoutNone(DropLast(s), o);
    }
  }

  lemma AppendLowest(s: seq<Bond>, o: Account, x: Bond)
    requires AllAtLeast(s, x.amount)
    ensures InsertDesc(Without(s, o), x) == Without(s, o) + [x]
  {
    WithoutBounds(s, o, x.amount);
  }

  /** Nothing waiting is above anything in top. */
  lemma TopAbove(q: Queues.Queue)
    requires Queues.Ok(q) && q.bottom != []
    ensures AllAtLeast(q.top, q.bottom[0].amount)
  {
    Queues.BoundaryOf(q);
  }

  /** When a delegation ends, all others keep their order, across both lists: the first of those waiting
      takes the place that is free. */
  lemma DequeueKeepsOrder(q: Queues.Queue, o: Account)
    requires Queues.Ok(q) && Queues.Entered(q, o) == 1
    ensures Queues.Entries(Queues.Dequeue(q, o)) == Without(Queues.Entries(q), o)
  {
    hide Queues.Ok, InsertDesc, Without;
    WithoutConcat(q.top, q.bottom, o);
    if Count(q.top, o) == 0 {
      WithoutNone(q.top, o);
    } else {
      WithoutNone(q.bottom, o);
      if q.bottom != [] {
        TopAbove(q);
        AppendLowest(q.top, o, q.bottom[0]);
        assert [q.bottom[0]] + q.bottom[1..] == q.bottom;
      }
    }
  }
}

/** Sequences of bonds: the measures every ledger fact is stated with (total, stake and number of
    entries of one owner), and the list operations of the pallet (sorted insertion, stable sort,
    filter by owner, change of one owner's amount). All recursion is on the last element, the way
    the loops of the code build their results. */
module Bonds {
  type Account = nat
  type Balance = nat

  datatype Option<+T> = None | Some(value: T)

  datatype Bond = Bond(owner: Account, amount: Balance)

  /** `saturating_sub` on an unsigned balance. */
  function SatSub(a: nat, b: nat): nat {
    if a < b then 0 else a - b
  }

  function Min(a: nat, b: nat): nat {
    if a < b then a else b
  }

  function Last(s: seq<Bond>): Bond
    requires s != []
  {
    s[|s| - 1]
  }

  function DropLast(s: seq<Bond>): seq<Bond>
    requires s != []
  {
    s[..|s| - 1]
  }

  function Sum(s: seq<Bond>): nat {
    if s == [] then 0 else Sum(DropLast(s)) + Last(s).amount
  }

  /** Everything `o` has staked in `s`. */
  function StakeOf(s: seq<Bond>, o: Account): nat {
    if s == [] then 0
    else StakeOf(DropLast(s), o) + if Last(s).owner == o then Last(s).amount else 0
  }

  /** How many entries of `s` belong to `o`. */
  function Count(s: seq<Bond>, o: Account): nat {
    if s == [] then 0
    else Count(DropLast(s), o) + if Last(s).owner == o then 1 else 0
  }

  ghost predicate Desc(s: seq<Bond>) {
    forall i, j :: 0 <= i < j < |s| ==> s[i].amount >= s[j].amount
  }

  ghost predicate AllAtLeast(s: seq<Bond>, m: Balance) {
    forall i :: 0 <= i < |s| ==> s[i].amount >= m
  }

  ghost predicate AllAtMost(s: seq<Bond>, m: Balance) {
    forall i :: 0 <= i < |s| ==> s[i].amount <= m
  }

  function Lowest(s: seq<Bond>): Balance {
    if s == [] then 0 else Last(s).amount
  }

  function Highest(s: seq<Bond>): Balance {
    if s == [] then 0 else s[0].amount
  }

  /** Insertion into a descending list, after every entry of the same amount. */
  function InsertDesc(s: seq<Bond>, x: Bond): seq<Bond> {
    if s != [] && Last(s).amount < x.amount then InsertDesc(DropLast(s), x) + [Last(s)] else s + [x]
  }

  /** The stable sort, greatest amount first. */
  function SortDesc(s: seq<Bond>): seq<Bond> {
    if s == [] then [] else InsertDesc(SortDesc(DropLast(s)), Last(s))
  }

  /** `s` without the entries of `o`. */
  function Without(s: seq<Bond>, o: Account): seq<Bond> {
    if s == [] then []
    else if Last(s).owner == o then Without(DropLast(s), o)
    else Without(DropLast(s), o) + [Last(s)]
  }

  /** The same entries, last first. */
  function Reversed(s: seq<Bond>): (r: seq<Bond>)
    ensures |r| == |s|
    ensures forall i :: 0 <= i < |s| ==> r[i] == s[|s| - 1 - i]
  {
    if s == [] then [] else [Last(s)] + Reversed(DropLast(s))
  }

  function Moved(amount: Balance, delta: int): Balance {
    if amount + delta < 0 then 0 else amount + delta
  }

  /** `s` with the amount of every entry of `o` moved by `delta`, never below zero. */
  function Shift(s: seq<Bond>, o: Account, delta: int): seq<Bond> {
    if s == [] then []
    else Shift(DropLast(s), o, delta) +
         [if Last(s).owner == o then Bond(o, Moved(Last(s).amount, delta)) else Last(s)]
  }

  // ----- measures -----

  lemma {:induction false} ConcatMeasures(a: seq<Bond>, b: seq<Bond>)
    ensures Sum(a + b) == Sum(a) + Sum(b)
    ensures forall o :: StakeOf(a + b, o) == StakeOf(a, o) + StakeOf(b, o)
    ensures forall o :: Count(a + b, o) == Count(a, o) + Count(b, o)
  {
    if b == [] {
      assert a + b == a;
    } else {
      assert DropLast(a + b) == a + DropLast(b);
      ConcatMeasures(a, DropLast(b));
    }
  }

  lemma SnocMeasures(s: seq<Bond>, x: Bond)
    ensures Sum(s + [x]) == Sum(s) + x.amount
    ensures forall o :: StakeOf(s + [x], o) == StakeOf(s, o) + if x.owner == o then x.amount else 0
    ensures forall o :: Count(s + [x], o) == Count(s, o) + if x.owner == o then 1 else 0
  {
    assert DropLast(s + [x]) == s;
  }

  lemma {:induction false} HeadMeasures(s: seq<Bond>)
    requires s != []
    ensures Sum(s) == s[0].amount + Sum(s[1..])
    ensures forall o :: StakeOf(s, o) == StakeOf(s[1..], o) + if s[0].owner == o then s[0].amount else 0
    ensures forall o :: Count(s, o) == Count(s[1..], o) + if s[0].owner == o then 1 else 0
  {
    var h := [s[0]];
    assert s == h + s[1..];
    ConcatMeasures(h, s[1..]);
    assert h == [] + [s[0]];
    SnocMeasures([], s[0]);
    assert Sum(h) == s[0].amount;
    forall o
      ensures StakeOf(h, o) == (if s[0].owner == o then s[0].amount else 0)
      ensures Count(h, o) == if s[0].owner == o then 1 else 0
    {
      assert StakeOf([], o) == 0 && Count([], o) == 0;
    }
  }

  lemma {:induction false} StakeBounds(s: seq<Bond>, o: Account)
    ensures StakeOf(s, o) <= Sum(s)
    ensures Count(s, o) == 0 ==> StakeOf(s, o) == 0
    ensures Count(s, o) <= |s|
  {
    if s != [] {
      StakeBounds(DropLast(s), o);
    }
  }

  lemma {:induction false} CountPositive(s: seq<Bond>, o: Account, m: Balance)
    requires AllAtLeast(s, m)
    ensures Count(s, o) > 0 ==> StakeOf(s, o) >= m
  {
    if s != [] {
      CountPositive(DropLast(s), o, m);
    }
  }

  lemma {:induction false} EntryCounts(s: seq<Bond>, i: nat)
    requires i < |s|
    ensures Count(s, s[i].owner) >= 1
    ensures StakeOf(s, s[i].owner) >= s[i].amount
    ensures Count(s, s[i].owner) == 1 ==> StakeOf(s, s[i].owner) == s[i].amount
  {
    if i < |s| - 1 {
      EntryCounts(DropLast(s), i);
      StakeBounds(DropLast(s), s[i].owner);
    } else {
      StakeBounds(DropLast(s), s[i].owner);
    }
  }

  lemma {:induction false} FindEntry(s: seq<Bond>, o: Account) returns (i: nat)
    requires Count(s, o) > 0
    ensures i < |s| && s[i].owner == o
  {
    if Last(s).owner == o {
      i := |s| - 1;
    } else {
      i := FindEntry(DropLast(s), o);
    }
  }

  lemma {:induction false} AbsentOwner(s: seq<Bond>, o: Account)
    requires Count(s, o) == 0
    ensures forall i :: 0 <= i < |s| ==> s[i].owner != o
    ensures Without(s, o) == s
    ensures forall delta: int :: Shift(s, o, delta) == s
  {
    if s != [] {
      AbsentOwner(DropLast(s), o);
      assert s == DropLast(s) + [Last(s)];
    }
  }

  lemma {:induction false} ReversedMeasures(s: seq<Bond>)
    ensures Sum(Reversed(s)) == Sum(s)
    ensures forall o :: StakeOf(Reversed(s), o) == StakeOf(s, o)
    ensures forall o :: Count(Reversed(s), o) == Count(s, o)
  {
    if s != [] {
      var r := Reversed(s);
      ReversedMeasures(DropLast(s));
      HeadMeasures(r);
      assert r[1..] == Reversed(DropLast(s));
    }
  }

  // ----- sorted insertion -----

  lemma {:induction false} InsertDescMeasures(s: seq<Bond>, x: Bond)
    ensures |InsertDesc(s, x)| == |s| + 1
    ensures Sum(InsertDesc(s, x)) == Sum(s) + x.amount
    ensures forall o :: StakeOf(InsertDesc(s, x), o) == StakeOf(s, o) + if x.owner == o then x.amount else 0
    ensures forall o :: Count(InsertDesc(s, x), o) == Count(s, o) + if x.owner == o then 1 else 0
  {
    if s != [] && Last(s).amount < x.amount {
      InsertDescMeasures(DropLast(s), x);
      SnocMeasures(InsertDesc(DropLast(s), x), Last(s));
    } else {
      SnocMeasures(s, x);
    }
  }

  lemma {:induction false} InsertDescBounds(s: seq<Bond>, x: Bond, m: Balance)
    ensures AllAtLeast(s, m) && x.amount >= m ==> AllAtLeast(InsertDesc(s, x), m)
    ensures AllAtMost(s, m) && x.amount <= m ==> AllAtMost(InsertDesc(s, x), m)
  {
    if s != [] && Last(s).amount < x.amount {
      InsertDescBounds(DropLast(s), x, m);
    }
  }

  lemma {:induction false} InsertDescSorted(s: seq<Bond>, x: Bond)
    requires Desc(s)
    ensures Desc(InsertDesc(s, x))
  {
    if s != [] && Last(s).amount < x.amount {
      InsertDescSorted(DropLast(s), x);
      InsertDescBounds(DropLast(s), x, Last(s).amount);
    }
  }

  /** Where the new entry goes: behind every entry at least as large, before every smaller one. */
  lemma {:induction false} InsertDescAt(s: seq<Bond>, x: Bond, p: nat)
    requires p <= |s|
    requires AllAtLeast(s[..p], x.amount)
    requires forall i :: p <= i < |s| ==> s[i].amount < x.amount
    ensures InsertDesc(s, x) == s[..p] + [x] + s[p..]
  {
    if p == |s| {
      assert s[..p] == s && s[p..] == [];
      assert s != [] ==> Last(s) == s[..p][p - 1];
    } else {
      assert Last(s).amount < x.amount;
      assert DropLast(s)[..p] == s[..p];
      InsertDescAt(DropLast(s), x, p);
      assert s[p..] == DropLast(s)[p..] + [Last(s)];
    }
  }

  lemma {:induction false} InsertDescMultiset(s: seq<Bond>, x: Bond)
    ensures multiset(InsertDesc(s, x)) == multiset(s) + multiset{x}
  {
    if s != [] && Last(s).amount < x.amount {
      InsertDescMultiset(DropLast(s), x);
      assert s == DropLast(s) + [Last(s)];
    }
  }

  // ----- stable sort -----

  lemma {:induction false} SortDescSorted(s: seq<Bond>)
    ensures Desc(SortDesc(s))
  {
    if s != [] {
      SortDescSorted(DropLast(s));
      InsertDescSorted(SortDesc(DropLast(s)), Last(s));
    }
  }

  lemma {:induction false} SortDescMeasures(s: seq<Bond>)
    ensures |SortDesc(s)| == |s|
    ensures Sum(SortDesc(s)) == Sum(s)
    ensures forall o :: StakeOf(SortDesc(s), o) == StakeOf(s, o)
    ensures forall o :: Count(SortDesc(s), o) == Count(s, o)
  {
    if s != [] {
      SortDescMeasures(DropLast(s));
      InsertDescMeasures(SortDesc(DropLast(s)), Last(s));
    }
  }

  lemma {:induction false} SortDescBounds(s: seq<Bond>, m: Balance)
    ensures AllAtLeast(s, m) ==> AllAtLeast(SortDesc(s), m)
    ensures AllAtMost(s, m) ==> AllAtMost(SortDesc(s), m)
  {
    if s != [] {
      SortDescBounds(DropLast(s), m);
      InsertDescBounds(SortDesc(DropLast(s)), Last(s), m);
    }
  }

  // ----- filter by owner -----

  lemma {:induction false} WithoutMeasures(s: seq<Bond>, o: Account)
    ensures |Without(s, o)| == |s| - Count(s, o)
    ensures Sum(Without(s, o)) == Sum(s) - StakeOf(s, o)
    ensures forall p :: StakeOf(Without(s, o), p) == if p == o then 0 else StakeOf(s, p)
    ensures forall p :: Count(Without(s, o), p) == if p == o then 0 else Count(s, p)
  {
    if s != [] {
      WithoutMeasures(DropLast(s), o);
      SnocMeasures(Without(DropLast(s), o), Last(s));
    }
  }

  lemma {:induction false} WithoutBounds(s: seq<Bond>, o: Account, m: Balance)
    ensures AllAtLeast(s, m) ==> AllAtLeast(Without(s, o), m)
    ensures AllAtMost(s, m) ==> AllAtMost(Without(s, o), m)
  {
    if s != [] {
      WithoutBounds(DropLast(s), o, m);
    }
  }

  lemma {:induction false} WithoutSorted(s: seq<Bond>, o: Account)
    requires Desc(s)
    ensures Desc(Without(s, o))
  {
    if s != [] {
      WithoutSorted(DropLast(s), o);
      WithoutBounds(DropLast(s), o, Last(s).amount);
    }
  }

  // ----- change of one amount -----

  lemma {:induction false} ShiftMeasures(s: seq<Bond>, o: Account, delta: int)
    requires Count(s, o) <= 1
    requires StakeOf(s, o) + delta >= 0
    ensures |Shift(s, o, delta)| == |s|
    ensures Sum(Shift(s, o, delta)) == Sum(s) + if Count(s, o) == 1 then delta else 0
    ensures forall p :: StakeOf(Shift(s, o, delta), p)
                        == StakeOf(s, p) + if p == o && Count(s, o) == 1 then delta else 0
    ensures forall p :: Count(Shift(s, o, delta), p) == Count(s, p)
  {
    if s != [] {
      var init := DropLast(s);
      var x := if Last(s).owner == o then Bond(o, Moved(Last(s).amount, delta)) else Last(s);
      SnocMeasures(Shift(init, o, delta), x);
      if Last(s).owner == o {
        AbsentOwner(init, o);
        StakeBounds(init, o);
      } else {
        ShiftMeasures(init, o, delta);
      }
    }
  }

  lemma {:induction false} ShiftBounds(s: seq<Bond>, o: Account, delta: int, m: Balance)
    requires Count(s, o) <= 1
    ensures AllAtLeast(s, m) && (Count(s, o) == 1 ==> StakeOf(s, o) + delta >= m)
            ==> AllAtLeast(Shift(s, o, delta), m)
    ensures AllAtMost(s, m) && (Count(s, o) == 1 ==> StakeOf(s, o) + delta <= m)
            ==> AllAtMost(Shift(s, o, delta), m)
  {
    if s != [] {
      if Last(s).owner == o {
        AbsentOwner(DropLast(s), o);
        StakeBounds(DropLast(s), o);
      } else {
        ShiftBounds(DropLast(s), o, delta, m);
      }
    }
  }
}

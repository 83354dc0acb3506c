/** The sorted-vector set under the candidate pool and every delegator's delegations. Bonds compare
    by owner, so a set holds at most one bond per owner. */
module OrderedSets {
  import opened Bonds

  /** What a binary search answers: an index of the sought key, or the place where it belongs. */
  datatype Search = Found(index: nat) | Missing(index: nat)

  /** Strictly sorted by owner: the invariant of every set. */
  ghost predicate ByOwner(s: seq<Bond>) {
    forall i, j :: 0 <= i < j < |s| ==> s[i].owner < s[j].owner
  }

  /** `b` placed behind the entries whose owner is not larger. */
  function Put(s: seq<Bond>, b: Bond): seq<Bond> {
    if s != [] && Last(s).owner > b.owner then Put(DropLast(s), b) + [Last(s)] else s + [b]
  }

  /** The stable sort by owner. */
  function SortByOwner(s: seq<Bond>): seq<Bond> {
    if s == [] then [] else Put(SortByOwner(DropLast(s)), Last(s))
  }

  /** Of neighbours with the same owner, keep the first. */
  function Dedup(s: seq<Bond>): seq<Bond> {
    if s == [] then []
    else
      var r := Dedup(DropLast(s));
      if r != [] && Last(r).owner == Last(s).owner then r else r + [Last(s)]
  }

  class OrderedSet {
    var items: seq<Bond>

    /** Sort, then drop repeated owners. */
    constructor From(v: seq<Bond>)
      ensures items == Dedup(SortByOwner(v)) && ByOwner(items)
      ensures ByOwner(v) ==> items == v
      ensures forall o :: Count(items, o) > 0 <==> Count(v, o) > 0
    {
      var sorted: seq<Bond> := [];
      for i := 0 to |v|
        invariant sorted == SortByOwner(v[..i])
      {
        assert DropLast(v[..i + 1]) == v[..i];
        sorted := Put(sorted, v[i]);
      }
      assert v[..|v|] == v;
      var unique: seq<Bond> := [];
      for i := 0 to |sorted|
        invariant unique == Dedup(sorted[..i])
      {
        assert DropLast(sorted[..i + 1]) == sorted[..i];
        if unique == [] || Last(unique).owner != sorted[i].owner {
          unique := unique + [sorted[i]];
        }
      }
      assert sorted[..|sorted|] == sorted;
      FromIsSet(v);
      items := unique;
    }

    /** The caller vouches for the order. */
    constructor FromSortedSet(v: seq<Bond>)
      ensures items == v
    {
      items := v;
    }

    method BinarySearch(o: Account) returns (r: Search)
      requires ByOwner(items)
      ensures r.Found? ==> r.index < |items| && items[r.index].owner == o
      ensures r.Missing? ==> r.index <= |items|
                             && (forall i :: 0 <= i < r.index ==> items[i].owner < o)
                             && (forall i :: r.index <= i < |items| ==> o < items[i].owner)
    {
      var low, high := 0, |items|;
      while low < high
        invariant 0 <= low <= high <= |items|
        invariant forall i :: 0 <= i < low ==> items[i].owner < o
        invariant forall i :: high <= i < |items| ==> o < items[i].owner
      {
        var mid := low + (high - low) / 2;
        if items[mid].owner == o {
          return Found(mid);
        } else if items[mid].owner < o {
          low := mid + 1;
        } else {
          high := mid;
        }
      }
      return Missing(low);
    }

    method Insert(b: Bond) returns (inserted: bool)
      requires ByOwner(items)
      modifies this
      ensures ByOwner(items)
      ensures inserted <==> Count(old(items), b.owner) == 0
      ensures items == if inserted then Put(old(items), b) else old(items)
    {
      var r := BinarySearch(b.owner);
      match r {
        case Found(i) =>
          EntryCounts(items, i);
          inserted := false;
        case Missing(i) =>
          NoneOf(items, b.owner);
          PutAt(items, b, i);
          items := items[..i] + [b] + items[i..];
          inserted := true;
      }
    }

    method Remove(o: Account) returns (removed: bool)
      requires ByOwner(items)
      modifies this
      ensures ByOwner(items)
      ensures removed <==> Count(old(items), o) > 0
      ensures items == Without(old(items), o)
    {
      var r := BinarySearch(o);
      match r {
        case Found(i) =>
          EntryCounts(items, i);
          WithoutAt(items, i);
          items := items[..i] + items[i + 1..];
          removed := true;
        case Missing(i) =>
          NoneOf(items, o);
          AbsentOwner(items, o);
          removed := false;
      }
    }

    method Contains(o: Account) returns (found: bool)
      requires ByOwner(items)
      ensures found <==> Count(items, o) > 0
    {
      var r := BinarySearch(o);
      match r {
        case Found(i) => EntryCounts(items, i); found := true;
        case Missing(_) => NoneOf(items, o); found := false;
      }
    }

    method Clear()
      modifies this
      ensures items == [] && ByOwner(items)
    {
      items := [];
    }
  }

  // ----- facts about the specification -----

  lemma {:induction false} NoneOf(s: seq<Bond>, o: Account)
    requires forall i :: 0 <= i < |s| ==> s[i].owner != o
    ensures Count(s, o) == 0
  {
    if s != [] {
      NoneOf(DropLast(s), o);
    }
  }

  lemma {:induction false} OnePerOwner(s: seq<Bond>, o: Account)
    requires ByOwner(s)
    ensures Count(s, o) <= 1
  {
    if s != [] {
      if Last(s).owner == o {
        NoneOf(DropLast(s), o);
      } else {
        OnePerOwner(DropLast(s), o);
      }
    }
  }

  /** Both binary-search answers lead to the same list as the linear definition. */
  lemma {:induction false} PutAt(s: seq<Bond>, b: Bond, i: nat)
    requires ByOwner(s) && i <= |s|
    requires forall k :: 0 <= k < i ==> s[k].owner < b.owner
    requires forall k :: i <= k < |s| ==> b.owner < s[k].owner
    ensures Put(s, b) == s[..i] + [b] + s[i..]
    ensures ByOwner(Put(s, b))
  {
    if i < |s| {
      assert DropLast(s)[..i] == s[..i];
      PutAt(DropLast(s), b, i);
      assert s[i..] == DropLast(s)[i..] + [Last(s)];
    } else {
      assert s[..i] == s && s[i..] == [];
    }
  }

  lemma {:induction false} WithoutAt(s: seq<Bond>, i: nat)
    requires ByOwner(s) && i < |s|
    ensures Without(s, s[i].owner) == s[..i] + s[i + 1..]
    ensures ByOwner(Without(s, s[i].owner))
  {
    if i == |s| - 1 {
      NoneOf(DropLast(s), s[i].owner);
      AbsentOwner(DropLast(s), s[i].owner);
      assert s[i + 1..] == [] && s[..i] == DropLast(s);
    } else {
      WithoutAt(DropLast(s), i);
      assert DropLast(s)[..i] == s[..i];
      assert s[i + 1..] == DropLast(s)[i + 1..] + [Last(s)];
    }
  }

  lemma {:induction false} PutMeasures(s: seq<Bond>, b: Bond)
    ensures |Put(s, b)| == |s| + 1
    ensures Sum(Put(s, b)) == Sum(s) + b.amount
    ensures forall o :: StakeOf(Put(s, b), o) == StakeOf(s, o) + if b.owner == o then b.amount else 0
    ensures forall o :: Count(Put(s, b), o) == Count(s, o) + if b.owner == o then 1 else 0
  {
    if s != [] && Last(s).owner > b.owner {
      PutMeasures(DropLast(s), b);
      SnocMeasures(Put(DropLast(s), b), Last(s));
    } else {
      SnocMeasures(s, b);
    }
  }

  lemma {:induction false} PutBounds(s: seq<Bond>, b: Bond, m: Balance)
    requires AllAtLeast(s, m) && b.amount >= m
    ensures AllAtLeast(Put(s, b), m)
  {
    if s != [] && Last(s).owner > b.owner {
      PutBounds(DropLast(s), b, m);
    }
  }

  ghost predicate OwnersAtMost(s: seq<Bond>, o: Account) {
    forall i :: 0 <= i < |s| ==> s[i].owner <= o
  }

  lemma {:induction false} PutKeepsOrder(s: seq<Bond>, b: Bond)
    requires ByOwner(s) && Count(s, b.owner) == 0
    ensures ByOwner(Put(s, b))
  {
    AbsentOwner(s, b.owner);
    var i := 0;
    while i < |s| && s[i].owner < b.owner
      invariant 0 <= i <= |s|
      invariant forall k :: 0 <= k < i ==> s[k].owner < b.owner
    {
      i := i + 1;
    }
    PutAt(s, b, i);
  }

  lemma {:induction false} WithoutKeepsOrder(s: seq<Bond>, o: Account)
    requires ByOwner(s)
    ensures ByOwner(Without(s, o))
  {
    if Count(s, o) == 0 {
      AbsentOwner(s, o);
    } else {
      var i := FindEntry(s, o);
      WithoutAt(s, i);
    }
  }

  lemma {:induction false} ShiftKeepsOrder(s: seq<Bond>, o: Account, delta: int)
    requires ByOwner(s)
    ensures |Shift(s, o, delta)| == |s|
    ensures forall i :: 0 <= i < |s| ==> Shift(s, o, delta)[i].owner == s[i].owner
    ensures ByOwner(Shift(s, o, delta))
  {
    if s != [] {
      ShiftKeepsOrder(DropLast(s), o, delta);
    }
  }

  /** Weakly sorted by owner: what the sort establishes before repeated owners are dropped. */
  ghost predicate WeaklyByOwner(s: seq<Bond>) {
    forall i, j :: 0 <= i < j < |s| ==> s[i].owner <= s[j].owner
  }

  lemma {:induction false} PutWeakly(s: seq<Bond>, b: Bond)
    requires WeaklyByOwner(s)
    ensures WeaklyByOwner(Put(s, b))
    ensures forall o :: OwnersAtMost(s, o) && b.owner <= o ==> OwnersAtMost(Put(s, b), o)
  {
    if s != [] && Last(s).owner > b.owner {
      PutWeakly(DropLast(s), b);
      assert OwnersAtMost(DropLast(s), Last(s).owner);
    }
  }

  lemma {:induction false} SortByOwnerSorts(s: seq<Bond>)
    ensures WeaklyByOwner(SortByOwner(s))
    ensures forall o :: Count(SortByOwner(s), o) == Count(s, o)
  {
    if s != [] {
      SortByOwnerSorts(DropLast(s));
      PutWeakly(SortByOwner(DropLast(s)), Last(s));
      PutMeasures(SortByOwner(DropLast(s)), Last(s));
    }
  }

  lemma {:induction false} SortOfSet(s: seq<Bond>)
    requires ByOwner(s)
    ensures SortByOwner(s) == s
  {
    if s != [] {
      SortOfSet(DropLast(s));
      assert s == DropLast(s) + [Last(s)];
    }
  }

  lemma {:induction false} DedupSorts(s: seq<Bond>)
    requires WeaklyByOwner(s)
    ensures ByOwner(Dedup(s))
    ensures |Dedup(s)| <= |s|
    ensures s != [] ==> Dedup(s) != [] && Last(Dedup(s)).owner == Last(s).owner
  {
    if s != [] {
      DedupSorts(DropLast(s));
      if |s| > 1 {
        assert s[|s| - 2].owner <= Last(s).owner;
      }
    }
  }

  lemma {:induction false} DedupOfSet(s: seq<Bond>)
    requires ByOwner(s)
    ensures Dedup(s) == s
  {
    if s != [] {
      DedupOfSet(DropLast(s));
      if |s| > 1 {
        assert s[|s| - 2].owner < Last(s).owner;
      }
      assert s == DropLast(s) + [Last(s)];
    }
  }

  lemma {:induction false} DedupOwners(s: seq<Bond>, o: Account)
    ensures Count(Dedup(s), o) > 0 <==> Count(s, o) > 0
  {
    if s != [] {
      var r := Dedup(DropLast(s));
      DedupOwners(DropLast(s), o);
      if r != [] && Last(r).owner == Last(s).owner {
        EntryCounts(r, |r| - 1);
      } else {
        SnocMeasures(r, Last(s));
      }
    }
  }

  /** `from` builds a set with the owners of the given vector, and leaves a set as it is. */
  lemma FromIsSet(v: seq<Bond>)
    ensures ByOwner(Dedup(SortByOwner(v)))
    ensures ByOwner(v) ==> Dedup(SortByOwner(v)) == v
    ensures forall o :: Count(Dedup(SortByOwner(v)), o) > 0 <==> Count(v, o) > 0
  {
    SortByOwnerSorts(v);
    DedupSorts(SortByOwner(v));
    if ByOwner(v) {
      SortOfSet(v);
      DedupOfSet(v);
    }
    forall o
      ensures Count(Dedup(SortByOwner(v)), o) > 0 <==> Count(v, o) > 0
    {
      DedupOwners(SortByOwner(v), o);
    }
  }
}

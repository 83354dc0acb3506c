/** Collator selection: sort the pool by stake, walk it from the top, keep at most so many, of those
    the qualified ones, and list their accounts in order. The theorem below says who that is by
    counting, without any sorting. */
module Selection {
  import opened Bonds
  import opened Params
  import opened OrderedSets

  /** `x` is preferred to `y`: more stake, or the same and the larger account. */
  predicate Before(x: Bond, y: Bond) {
    x.amount > y.amount || (x.amount == y.amount && x.owner > y.owner)
  }

  function InsertAsc(s: seq<Bond>, x: Bond): seq<Bond> {
    if s != [] && Last(s).amount > x.amount then InsertAsc(DropLast(s), x) + [Last(s)] else s + [x]
  }

  /** The stable sort, least amount first. */
  function SortAsc(s: seq<Bond>): seq<Bond> {
    if s == [] then [] else InsertAsc(SortAsc(DropLast(s)), Last(s))
  }

  /** The pool in the order of preference. */
  function Ranking(pool: seq<Bond>): seq<Bond> {
    Reversed(SortAsc(pool))
  }

  function Qualified(s: seq<Bond>): (r: seq<Bond>)
    ensures |r| <= |s|
  {
    if s == [] then []
    else Qualified(DropLast(s)) + if Last(s).amount >= MIN_COLLATOR_STK then [Last(s)] else []
  }

  function Owners(s: seq<Bond>): (r: seq<Account>)
    ensures |r| == |s| && forall i :: 0 <= i < |s| ==> r[i] == s[i].owner
  {
    if s == [] then [] else Owners(DropLast(s)) + [Last(s).owner]
  }

  function Take<T>(s: seq<T>, n: nat): seq<T> {
    s[..Min(n, |s|)]
  }

  function InsertAccount(v: seq<Account>, a: Account): (r: seq<Account>)
    ensures |r| == |v| + 1
  {
    if v != [] && v[|v| - 1] > a then InsertAccount(v[..|v| - 1], a) + [v[|v| - 1]] else v + [a]
  }

  function SortAccounts(v: seq<Account>): (r: seq<Account>)
    ensures |r| == |v|
  {
    if v == [] then [] else InsertAccount(SortAccounts(v[..|v| - 1]), v[|v| - 1])
  }

  /** What the code computes: take, then filter, then sort by account. */
  function TopCandidates(pool: seq<Bond>, n: nat): seq<Account> {
    SortAccounts(Owners(Qualified(Take(Ranking(pool), n))))
  }

  // ----- the reference: choice by counting -----

  /** How many of `s` are preferred to `b`. */
  function Better(s: seq<Bond>, b: Bond): nat {
    if s == [] then 0 else Better(DropLast(s), b) + if Before(Last(s), b) then 1 else 0
  }

  /** In the pool, with enough stake, and with fewer than `n` preferred to it. */
  predicate Chosen(pool: seq<Bond>, n: nat, c: Account) {
    && Count(pool, c) > 0
    && StakeOf(pool, c) >= MIN_COLLATOR_STK
    && Better(pool, Bond(c, StakeOf(pool, c))) < n
  }

  ghost predicate Increasing(v: seq<Account>) {
    forall i, j :: 0 <= i < j < |v| ==> v[i] < v[j]
  }

  // ----- the ranking -----

  /** Ascending, ties by account: every entry is preferred to the ones in front of it. */
  ghost predicate Rising(s: seq<Bond>) {
    forall i, j :: 0 <= i < j < |s| ==> Before(s[j], s[i])
  }

  ghost predicate AllBehind(s: seq<Bond>, b: Bond) {
    forall i :: 0 <= i < |s| ==> Before(b, s[i])
  }

  ghost predicate OwnersBelow(s: seq<Bond>, o: Account) {
    forall i :: 0 <= i < |s| ==> s[i].owner < o
  }

  lemma {:induction false} InsertAscBounds(s: seq<Bond>, x: Bond, b: Bond, o: Account)
    ensures AllBehind(s, b) && Before(b, x) ==> AllBehind(InsertAsc(s, x), b)
    ensures OwnersBelow(s, o) && x.owner < o ==> OwnersBelow(InsertAsc(s, x), o)
  {
    if s != [] && Last(s).amount > x.amount {
      InsertAscBounds(DropLast(s), x, b, o);
    }
  }

  lemma {:induction false} InsertAscRises(s: seq<Bond>, x: Bond)
    requires Rising(s) && OwnersBelow(s, x.owner)
    ensures Rising(InsertAsc(s, x))
  {
    if s != [] && Last(s).amount > x.amount {
      InsertAscRises(DropLast(s), x);
      InsertAscBounds(DropLast(s), x, Last(s), 0);
    } else if s != [] {
      assert forall i :: 0 <= i < |s| - 1 ==> Before(Last(s), s[i]);
    }
  }

  lemma {:induction false} SortAscBounds(s: seq<Bond>, o: Account)
    requires OwnersBelow(s, o)
    ensures OwnersBelow(SortAsc(s), o)
  {
    if s != [] {
      SortAscBounds(DropLast(s), o);
      InsertAscBounds(SortAsc(DropLast(s)), Last(s), Last(s), o);
    }
  }

  /** The stable sort of a set, reversed, breaks ties in favour of the larger account. */
  lemma {:induction false} SortAscRises(pool: seq<Bond>)
    requires ByOwner(pool)
    ensures Rising(SortAsc(pool))
  {
    if pool != [] {
      SortAscRises(DropLast(pool));
      SortAscBounds(DropLast(pool), Last(pool).owner);
      InsertAscRises(SortAsc(DropLast(pool)), Last(pool));
    }
  }

  lemma {:induction false} InsertAscMeasures(s: seq<Bond>, x: Bond)
    ensures |InsertAsc(s, x)| == |s| + 1
    ensures forall o :: Count(InsertAsc(s, x), o) == Count(s, o) + if x.owner == o then 1 else 0
    ensures forall o :: StakeOf(InsertAsc(s, x), o) == StakeOf(s, o) + if x.owner == o then x.amount else 0
    ensures forall b :: Better(InsertAsc(s, x), b) == Better(s, b) + if Before(x, b) then 1 else 0
    ensures |Qualified(InsertAsc(s, x))| == |Qualified(s)| + if x.amount >= MIN_COLLATOR_STK then 1 else 0
  {
    if s != [] && Last(s).amount > x.amount {
      InsertAscMeasures(DropLast(s), x);
      assert DropLast(InsertAsc(s, x)) == InsertAsc(DropLast(s), x);
    } else {
      assert DropLast(s + [x]) == s;
    }
  }

  /** Sorting loses and invents nothing. */
  lemma {:induction false} SortAscMeasures(s: seq<Bond>)
    ensures |SortAsc(s)| == |s|
    ensures forall o :: Count(SortAsc(s), o) == Count(s, o) && StakeOf(SortAsc(s), o) == StakeOf(s, o)
    ensures forall b :: Better(SortAsc(s), b) == Better(s, b)
    ensures |Qualified(SortAsc(s))| == |Qualified(s)|
  {
    if s != [] {
      SortAscMeasures(DropLast(s));
      InsertAscMeasures(SortAsc(DropLast(s)), Last(s));
    }
  }

  lemma {:induction false} NoneBetter(s: seq<Bond>, b: Bond)
    requires AllBehind(s, b)
    ensures Better(s, b) == 0
  {
    if s != [] {
      NoneBetter(DropLast(s), b);
    }
  }

  /** In ascending order, the entries preferred to one are those behind it. */
  lemma {:induction false} BetterIsPlace(s: seq<Bond>, i: nat)
    requires Rising(s) && i < |s|
    ensures Better(s, s[i]) == |s| - 1 - i
  {
    if i == |s| - 1 {
      NoneBetter(DropLast(s), s[i]);
    } else {
      BetterIsPlace(DropLast(s), i);
    }
  }

  /** The entry of rank `k` is a pool entry with exactly `k` preferred to it; every pool entry has a
      rank. */
  lemma RankIsBetter(pool: seq<Bond>, k: nat)
    requires ByOwner(pool) && k < |Ranking(pool)|
    ensures |Ranking(pool)| == |pool|
    ensures var b := Ranking(pool)[k];
            Count(pool, b.owner) == 1 && StakeOf(pool, b.owner) == b.amount && Better(pool, b) == k
  {
    var s := SortAsc(pool);
    SortAscMeasures(pool);
    SortAscRises(pool);
    var i := |s| - 1 - k;
    BetterIsPlace(s, i);
    EntryCounts(s, i);
    OnePerOwner(pool, s[i].owner);
  }

  lemma EveryoneRanks(pool: seq<Bond>, c: Account) returns (k: nat)
    requires ByOwner(pool) && Count(pool, c) > 0
    ensures k < |Ranking(pool)| && Ranking(pool)[k] == Bond(c, StakeOf(pool, c))
  {
    var s := SortAsc(pool);
    SortAscMeasures(pool);
    var i := FindEntry(s, c);
    k := |s| - 1 - i;
    assert Ranking(pool)[k] == s[i];
    RankIsBetter(pool, k);
  }

  // ----- filter and order -----

  lemma {:induction false} QualifiedAre(s: seq<Bond>, b: Bond)
    ensures b in Qualified(s) <==> b in s && b.amount >= MIN_COLLATOR_STK
  {
    if s != [] {
      QualifiedAre(DropLast(s), b);
      assert s == DropLast(s) + [Last(s)];
    }
  }

  lemma {:induction false} QualifiedOfDesc(s: seq<Bond>)
    requires Desc(s)
    ensures Qualified(s) == s[..|Qualified(s)|]
    ensures forall i :: |Qualified(s)| <= i < |s| ==> s[i].amount < MIN_COLLATOR_STK
  {
    if s != [] {
      var q := Qualified(DropLast(s));
      QualifiedOfDesc(DropLast(s));
      if |q| < |s| - 1 {
        assert s[|q|].amount < MIN_COLLATOR_STK;
        assert q == s[..|q|];
      } else {
        assert s == DropLast(s) + [Last(s)];
      }
    }
  }

  lemma RankingDescends(pool: seq<Bond>)
    requires ByOwner(pool)
    ensures Desc(Ranking(pool))
  {
    SortAscRises(pool);
  }

  /** Taking before filtering gives what filtering before taking would. */
  lemma TakeThenFilter(pool: seq<Bond>, n: nat)
    requires ByOwner(pool)
    ensures Qualified(Take(Ranking(pool), n)) == Take(Qualified(Ranking(pool)), n)
  {
    var r := Ranking(pool);
    var t := Take(r, n);
    RankingDescends(pool);
    QualifiedOfDesc(r);
    QualifiedOfDesc(t);
    var k := |Qualified(t)|;
    var m := |Qualified(r)|;
    if k < Min(m, n) {
      assert t[k] == r[k] && r[k] == Qualified(r)[k];
      QualifiedAre(r, r[k]);
      assert false;
    }
    if m < k {
      assert t[m] == r[m] && t[m] == Qualified(t)[m];
      QualifiedAre(t, t[m]);
      assert false;
    }
  }

  lemma {:induction false} InsertAccountBounds(v: seq<Account>, a: Account, b: Account)
    ensures (forall i :: 0 <= i < |v| ==> v[i] < b) && a < b ==>
              forall i :: 0 <= i < |InsertAccount(v, a)| ==> InsertAccount(v, a)[i] < b
    ensures b in InsertAccount(v, a) <==> b in v || b == a
  {
    if v != [] && v[|v| - 1] > a {
      InsertAccountBounds(v[..|v| - 1], a, b);
      assert v == v[..|v| - 1] + [v[|v| - 1]];
    }
  }

  lemma {:induction false} InsertAccountSorts(v: seq<Account>, a: Account)
    requires Increasing(v) && a !in v
    ensures Increasing(InsertAccount(v, a))
  {
    if v != [] && v[|v| - 1] > a {
      InsertAccountSorts(v[..|v| - 1], a);
      InsertAccountBounds(v[..|v| - 1], a, v[|v| - 1]);
    }
  }

  ghost predicate NoRepeats(v: seq<Account>) {
    forall i, j :: 0 <= i < j < |v| ==> v[i] != v[j]
  }

  lemma {:induction false} SortAccountsHolds(v: seq<Account>, b: Account)
    ensures b in SortAccounts(v) <==> b in v
  {
    if v != [] {
      SortAccountsHolds(v[..|v| - 1], b);
      InsertAccountBounds(SortAccounts(v[..|v| - 1]), v[|v| - 1], b);
      assert v == v[..|v| - 1] + [v[|v| - 1]];
    }
  }

  lemma {:induction false} SortAccountsSorts(v: seq<Account>)
    requires NoRepeats(v)
    ensures Increasing(SortAccounts(v))
  {
    if v != [] {
      SortAccountsSorts(v[..|v| - 1]);
      SortAccountsHolds(v[..|v| - 1], v[|v| - 1]);
      InsertAccountSorts(SortAccounts(v[..|v| - 1]), v[|v| - 1]);
    }
  }

  // ----- the theorem -----

  /** The owners of the qualified among the first `n` of the ranking are the chosen. */
  lemma PickedAreChosen(pool: seq<Bond>, n: nat, c: Account)
    requires ByOwner(pool)
    ensures c in Owners(Qualified(Take(Ranking(pool), n))) <==> Chosen(pool, n, c)
  {
    var r := Ranking(pool);
    var t := Take(r, n);
    var picked := Qualified(t);
    if c in Owners(picked) {
      var i :| 0 <= i < |picked| && Owners(picked)[i] == c;
      QualifiedAre(t, picked[i]);
      var k :| 0 <= k < |t| && t[k] == picked[i];
      assert r[k] == t[k];
      RankIsBetter(pool, k);
    }
    if Chosen(pool, n, c) {
      var k := EveryoneRanks(pool, c);
      RankIsBetter(pool, k);
      assert t[k] == r[k];
      QualifiedAre(t, r[k]);
      var i :| 0 <= i < |picked| && picked[i] == r[k];
      assert Owners(picked)[i] == c;
    }
  }

  lemma PickedOnce(pool: seq<Bond>, n: nat)
    requires ByOwner(pool)
    ensures NoRepeats(Owners(Qualified(Take(Ranking(pool), n))))
    ensures |Qualified(Take(Ranking(pool), n))| == Min(n, |Qualified(pool)|)
  {
    var r := Ranking(pool);
    TakeThenFilter(pool, n);
    RankingDescends(pool);
    QualifiedOfDesc(r);
    QualifiedReversed(SortAsc(pool));
    SortAscMeasures(pool);
    var picked := Qualified(Take(r, n));
    forall i, j | 0 <= i < j < |picked|
      ensures picked[i].owner != picked[j].owner
    {
      assert picked[i] == r[i] && picked[j] == r[j];
      RankIsBetter(pool, i);
      RankIsBetter(pool, j);
    }
  }

  lemma {:induction false} QualifiedReversed(s: seq<Bond>)
    ensures |Qualified(Reversed(s))| == |Qualified(s)|
  {
    if s != [] {
      QualifiedReversed(DropLast(s));
      QualifiedHead(Last(s), Reversed(DropLast(s)));
    }
  }

  lemma {:induction false} QualifiedHead(b: Bond, s: seq<Bond>)
    ensures |Qualified([b] + s)| == |Qualified(s)| + if b.amount >= MIN_COLLATOR_STK then 1 else 0
  {
    if s == [] {
      assert [b] + s == [b] && DropLast([b]) == [];
    } else {
      assert DropLast([b] + s) == [b] + DropLast(s);
      QualifiedHead(b, DropLast(s));
    }
  }

  /** Who is selected: exactly the pool members with enough stake and fewer than `n` members
      preferred to them; in order of account, each once, and as many as can be. */
  lemma SelectionTheorem(pool: seq<Bond>, n: nat)
    requires ByOwner(pool)
    ensures forall c :: c in TopCandidates(pool, n) <==> Chosen(pool, n, c)
    ensures Increasing(TopCandidates(pool, n))
    ensures |TopCandidates(pool, n)| == Min(n, |Qualified(pool)|)
  {
    var picked := Owners(Qualified(Take(Ranking(pool), n)));
    PickedOnce(pool, n);
    SortAccountsSorts(picked);
    SortAccountsHolds(picked, 0);
    forall c
      ensures c in TopCandidates(pool, n) <==> Chosen(pool, n, c)
    {
      SortAccountsHolds(picked, c);
      PickedAreChosen(pool, n, c);
    }
  }

  /** Nobody of strictly larger stake is passed over for a selected one. */
  lemma NobodyPassedOver(pool: seq<Bond>, n: nat, chosen: Account, other: Account)
    requires ByOwner(pool) && chosen in TopCandidates(pool, n)
    requires Count(pool, other) > 0 && Before(Bond(other, StakeOf(pool, other)), Bond(chosen, StakeOf(pool, chosen)))
    ensures other in TopCandidates(pool, n)
  {
    SelectionTheorem(pool, n);
    BetterMonotone(pool, Bond(other, StakeOf(pool, other)), Bond(chosen, StakeOf(pool, chosen)));
  }

  lemma {:induction false} BetterMonotone(s: seq<Bond>, a: Bond, b: Bond)
    requires Before(a, b)
    ensures Better(s, a) <= Better(s, b)
  {
    if s != [] {
      BetterMonotone(DropLast(s), a, b);
    }
  }

  // ----- the code -----

  /** The walk of the code over the sorted pool, from its end. */
  method ComputeTopCandidates(pool: seq<Bond>, totalSelected: nat) returns (collators: seq<Account>)
    requires ByOwner(pool)
    ensures collators == TopCandidates(pool, totalSelected)
    ensures Increasing(collators) && forall c :: c in collators <==> Chosen(pool, totalSelected, c)
  {
    var candidates := SortAsc(pool);
    collators := [];
    for i := 0 to Min(totalSelected, |candidates|)
      invariant collators == Owners(Qualified(Ranking(pool)[..i]))
    {
      var x := candidates[|candidates| - 1 - i];
      assert DropLast(Ranking(pool)[..i + 1]) == Ranking(pool)[..i];
      assert Last(Ranking(pool)[..i + 1]) == x;
      if x.amount >= MIN_COLLATOR_STK {
        assert DropLast(Qualified(Ranking(pool)[..i]) + [x]) == Qualified(Ranking(pool)[..i]);
        collators := collators + [x.owner];
      }
    }
    SelectionTheorem(pool, totalSelected);
    collators := SortAccounts(collators);
  }

  /** `is_selected_candidate`: on a sorted list the binary search answers membership. */
  method IsSelectedCandidate(selected: seq<Account>, acc: Account) returns (found: bool)
    requires Increasing(selected)
    ensures found <==> acc in selected
  {
    var low, high := 0, |selected|;
    while low < high
      invariant 0 <= low <= high <= |selected|
      invariant forall i :: 0 <= i < low ==> selected[i] < acc
      invariant forall i :: high <= i < |selected| ==> acc < selected[i]
    {
      var mid := low + (high - low) / 2;
      if selected[mid] == acc {
        return true;
      } else if selected[mid] < acc {
        low := mid + 1;
      } else {
        high := mid;
      }
    }
    return false;
  }
}

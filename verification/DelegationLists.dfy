/** One candidate's top or bottom delegations: a list kept greatest to least, with a cached total. */
module DelegationLists {
  import opened Bonds
  import opened OrderedSets
  import opened Params

  datatype CapacityStatus = Full | Empty | Partial

  function Capacity(count: nat, max: nat): CapacityStatus {
    if count >= max then Full else if count == 0 then Empty else Partial
  }

  /** The stored form of a list. */
  datatype DelegationData = DelegationData(delegations: seq<Bond>, total: Balance)

  /** A list read from storage, changed in place, and written back. */
  class Delegations {
    var delegations: seq<Bond>
    var total: Balance

    constructor Decode(data: DelegationData)
      ensures Encode() == data
    {
      delegations, total := data.delegations, data.total;
    }

    function Encode(): DelegationData
      reads this
    {
      DelegationData(delegations, total)
    }

    /** The library's stable sort. */
    method SortGreatestToLeast()
      modifies this`delegations
      ensures delegations == SortDesc(old(delegations))
    {
      delegations := SortDesc(delegations);
    }

    /** Any index of an entry of this amount, or the place between larger and smaller ones. */
    method BinarySearch(amount: Balance) returns (r: Search)
      requires Desc(delegations)
      ensures r.Found? ==> r.index < |delegations| && delegations[r.index].amount == amount
      ensures r.Missing? ==> r.index <= |delegations|
                             && (forall i :: 0 <= i < r.index ==> delegations[i].amount > amount)
                             && (forall i :: r.index <= i < |delegations| ==> delegations[i].amount < amount)
    {
      var low, high := 0, |delegations|;
      while low < high
        invariant 0 <= low <= high <= |delegations|
        invariant forall i :: 0 <= i < low ==> delegations[i].amount > amount
        invariant forall i :: high <= i < |delegations| ==> delegations[i].amount < amount
      {
        var mid := low + (high - low) / 2;
        if delegations[mid].amount == amount {
          return Found(mid);
        } else if delegations[mid].amount > amount {
          low := mid + 1;
        } else {
          high := mid;
        }
      }
      return Missing(low);
    }

    /** First come, first served: whichever equal entry the search hits, the new one goes behind the
        last of them. */
    method InsertSortedGreatestToLeast(delegation: Bond)
      requires Desc(delegations)
      modifies this
      ensures delegations == InsertDesc(old(delegations), delegation)
      ensures total == old(total) + delegation.amount
      ensures Desc(delegations)
    {
      InsertDescSorted(delegations, delegation);
      total := total + delegation.amount;
      if delegations != [] && delegations[|delegations| - 1].amount == delegation.amount {
        delegations := delegations + [delegation];
        return;
      }
      var r := BinarySearch(delegation.amount);
      match r {
        case Found(i) =>
          var newIndex := i + 1;
          while newIndex <= |delegations| - 1
            invariant i < newIndex <= |delegations|
            invariant forall k :: i <= k < newIndex ==> delegations[k].amount == delegation.amount
          {
            if delegations[newIndex].amount == delegation.amount {
              newIndex := newIndex + 1;
            } else {
              InsertDescAt(delegations, delegation, newIndex);
              delegations := delegations[..newIndex] + [delegation] + delegations[newIndex..];
              return;
            }
          }
          // The scan never runs off the end: the last entry has another amount.
          assert false;
        case Missing(i) =>
          InsertDescAt(delegations, delegation, i);
          delegations := delegations[..i] + [delegation] + delegations[i..];
      }
    }

    /** Drops the entries of `o` and reports the amount of the last one met. */
    method TakeOwner(o: Account) returns (taken: Option<Balance>)
      requires Count(delegations, o) <= 1
      modifies this`delegations
      ensures delegations == Without(old(delegations), o)
      ensures taken == if Count(old(delegations), o) == 1 then Some(StakeOf(old(delegations), o)) else None
    {
      taken := None;
      var all, kept: seq<Bond> := delegations, [];
      for i := 0 to |all|
        invariant kept == Without(all[..i], o)
        invariant Count(all[..i], o) <= 1 ==>
                  taken == if Count(all[..i], o) == 1 then Some(StakeOf(all[..i], o)) else None
      {
        var d := all[i];
        assert DropLast(all[..i + 1]) == all[..i];
        StakeBounds(all[..i], o);
        if d.owner != o {
          kept := kept + [d];
        } else {
          taken := Some(d.amount);
        }
      }
      assert all[..|all|] == all;
      delegations := kept;
    }

    /** Moves the amount of the entries of `o`, clamping at zero, and reports whether there was one. */
    method ChangeOwner(o: Account, delta: int) returns (found: bool)
      modifies this`delegations
      ensures delegations == Shift(old(delegations), o, delta)
      ensures found <==> Count(old(delegations), o) > 0
    {
      found := false;
      var all, mapped: seq<Bond> := delegations, [];
      for i := 0 to |all|
        invariant mapped == Shift(all[..i], o, delta)
        invariant found <==> Count(all[..i], o) > 0
      {
        var d := all[i];
        assert DropLast(all[..i + 1]) == all[..i];
        if d.owner != o {
          mapped := mapped + [d];
        } else {
          found := true;
          mapped := mapped + [Bond(d.owner, Moved(d.amount, delta))];
        }
      }
      assert all[..|all|] == all;
      delegations := mapped;
    }

    method Pop() returns (lowest: Bond)
      requires delegations != []
      modifies this`delegations
      ensures lowest == Last(old(delegations)) && delegations == DropLast(old(delegations))
    {
      lowest := delegations[|delegations| - 1];
      delegations := delegations[..|delegations| - 1];
    }

    method RemoveFirst() returns (highest: Bond)
      requires delegations != []
      modifies this`delegations
      ensures highest == old(delegations)[0] && delegations == old(delegations)[1..]
    {
      highest := delegations[0];
      delegations := delegations[1..];
    }

    function TopCapacity(): CapacityStatus
      reads this
    {
      Capacity(|delegations|, MAX_TOP)
    }

    function BottomCapacity(): CapacityStatus
      reads this
    {
      Capacity(|delegations|, MAX_BOTTOM)
    }

    function LowestDelegationAmount(): Balance
      reads this
    {
      Lowest(delegations)
    }

    function HighestDelegationAmount(): Balance
      reads this
    {
      Highest(delegations)
    }
  }
}

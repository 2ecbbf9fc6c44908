/**
 * The per-account list of owned kitty ids (`BoundedVec<KittyIndex, MaxKittyOwned>`)
 * and the two list operations the pallet applies to it: finding an id's
 * position and `swap_remove`.
 */
module OwnedList {
  import opened Wrappers

  type KittyIndex = nat

  ghost predicate NoDuplicates(s: seq<KittyIndex>) {
    forall i, j :: 0 <= i < j < |s| ==> s[i] != s[j]
  }

  /** `iter().position(|&id| id == x)`: the first index holding `x`, if any. */
  function Position(s: seq<KittyIndex>, x: KittyIndex): (r: Option<nat>)
    ensures r.None? <==> x !in s
    ensures r.Some? ==> r.value < |s| && s[r.value] == x
    ensures r.Some? ==> forall j :: 0 <= j < r.value ==> s[j] != x
  {
    if |s| == 0 then None
    else if s[0] == x then Some(0)
    else
      match Position(s[1..], x)
      case None => None
      case Some(i) => Some(i + 1)
  }

  /** `swap_remove(i)`: the last element moves into slot `i` and the list shrinks by one. */
  function SwapRemove(s: seq<KittyIndex>, i: nat): seq<KittyIndex>
    requires i < |s|
  {
    s[i := s[|s| - 1]][..|s| - 1]
  }

  /** What swap_remove keeps: every other slot, with the last element now at `i`. */
  lemma SwapRemoveAt(s: seq<KittyIndex>, i: nat)
    requires i < |s|
    ensures |SwapRemove(s, i)| == |s| - 1
    ensures forall j :: 0 <= j < |s| - 1 && j != i ==> SwapRemove(s, i)[j] == s[j]
    ensures i < |s| - 1 ==> SwapRemove(s, i)[i] == s[|s| - 1]
  {
  }

  /**
   * On a duplicate-free list, swap_remove removes exactly the element at `i`
   * and nothing else, and the list stays duplicate-free.
   */
  lemma SwapRemoveMembers(s: seq<KittyIndex>, i: nat)
    requires i < |s| && NoDuplicates(s)
    ensures NoDuplicates(SwapRemove(s, i))
    ensures forall x :: x in SwapRemove(s, i) <==> x in s && x != s[i]
  {
    var r := SwapRemove(s, i);
    SwapRemoveAt(s, i);
    forall x | x in s && x != s[i]
      ensures x in r
    {
      var j :| 0 <= j < |s| && s[j] == x;
      if j == |s| - 1 {
        assert r[i] == x;
      } else {
        assert r[j] == x;
      }
    }
  }

  /** Appending an id not yet in a duplicate-free list keeps it duplicate-free. */
  lemma AppendFresh(s: seq<KittyIndex>, x: KittyIndex)
    requires NoDuplicates(s) && x !in s
    ensures NoDuplicates(s + [x])
  {
  }
}

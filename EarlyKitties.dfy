/**
 * The earlier kitties pallet (2021-07): a `u32` id counter that is unset
 * until the first kitty, a `Kitties` map holding only dna, and an `Owner`
 * map. Compared with module Kitties, `breed` rejects equal parent ids, does
 * not ask the caller to own the parents, and `transfer` permits giving a
 * kitty to oneself. The per-call random value is a parameter.
 */
module EarlyKitties {
  import opened Wrappers
  import opened Genome
  import opened Accounts
  import opened Limits

  type KittyIndex = nat

  datatype Error = KittiesCountOverflow | NotOwner | SameKittyIndex | InvalidKittyIndex

  class Pallet {
    /** `KittiesCount`: None until the first kitty is created */
    var kittiesCount: Option<nat>
    /** `Kitties`: id to dna */
    var kitties: map<KittyIndex, Dna>
    /** `Owner`: id to account */
    var owner: map<KittyIndex, AccountId>

    /** The number of kitties, reading an unset counter as 0. */
    function Count(): nat
      reads this
    {
      kittiesCount.GetOr(0)
    }

    /**
     * The id `create` and `breed` give the next kitty: the stored count,
     * 0 while unset, and None when the count is already `u32::MAX`.
     */
    function NextId(): (r: Option<KittyIndex>)
      reads this
      ensures r.None? <==> kittiesCount == Some(U32_MAX)
      ensures r.Some? ==> r.value == Count()
    {
      match kittiesCount
      case Some(count) => if count == U32_MAX then None else Some(count)
      case None => Some(0)
    }

    /** Ids `0 .. Count()-1` are exactly the kitties, and each one has an owner. */
    ghost predicate Valid()
      reads this
    {
      && Count() <= U32_MAX
      && (forall id: KittyIndex :: id in kitties <==> id < Count())
      && owner.Keys == kitties.Keys
    }

    constructor ()
      ensures Valid()
      ensures kittiesCount == None && kitties == map[] && owner == map[]
    {
      kittiesCount := None;
      kitties := map[];
      owner := map[];
    }

    /**
     * `create`: the new id is the stored count (0 when unset), refused with
     * KittiesCountOverflow when the count is already `u32::MAX`; the random
     * value becomes the dna, the caller the owner, and the count id + 1.
     */
    method Create(who: AccountId, randomValue: Dna) returns (r: Result<(), Error>)
      requires Valid()
      modifies this
      ensures Valid()
      ensures r == if old(kittiesCount) == Some(U32_MAX) then Err(KittiesCountOverflow) else Ok(())
      ensures r.Err? ==> unchanged(this)
      ensures r.Ok? ==> old(Count()) !in old(kitties)
      ensures r.Ok? ==> kitties == old(kitties)[old(Count()) := randomValue]
      ensures r.Ok? ==> owner == old(owner)[old(Count()) := who]
      ensures r.Ok? ==> kittiesCount == Some(old(Count()) + 1)
    {
      var next := NextId();
      if next.None? {
        return Err(KittiesCountOverflow);
      }
      var kittyId := next.value;
      var dna := randomValue;
      kitties := kitties[kittyId := dna];
      owner := owner[kittyId := who];
      kittiesCount := Some(kittyId + 1);
      r := Ok(());
    }

    /**
     * `transfer`: allowed exactly when the stored owner is the caller (an
     * unknown id has no owner, so it gives NotOwner); only `Owner[id]`
     * changes, and `dest` may be the caller.
     */
    method Transfer(who: AccountId, dest: AccountId, id: KittyIndex) returns (r: Result<(), Error>)
      requires Valid()
      modifies this
      ensures Valid()
      ensures r == if id in old(owner) && old(owner)[id] == who then Ok(()) else Err(NotOwner)
      ensures r.Err? ==> unchanged(this)
      ensures r.Ok? ==> owner == old(owner)[id := dest] && kitties == old(kitties) && kittiesCount == old(kittiesCount)
    {
      var stored := if id in owner then Some(owner[id]) else None;
      if Some(who) != stored {
        return Err(NotOwner);
      }
      owner := owner[id := dest];
      r := Ok(());
    }

    /**
     * `breed`: SameKittyIndex for equal ids (checked first), then
     * InvalidKittyIndex if either parent is missing, then the counter
     * overflow; the parents' owners are not consulted. The child gets the
     * next id, the caller as owner, and the per-bit blend of the parents'
     * dna under the random selector, computed byte by byte.
     */
    method Breed(who: AccountId, kittyId1: KittyIndex, kittyId2: KittyIndex, selector: Dna) returns (r: Result<(), Error>)
      requires Valid()
      modifies this
      ensures Valid()
      ensures r == if kittyId1 == kittyId2 then Err(SameKittyIndex)
                   else if kittyId1 !in old(kitties) || kittyId2 !in old(kitties) then Err(InvalidKittyIndex)
                   else if old(kittiesCount) == Some(U32_MAX) then Err(KittiesCountOverflow)
                   else Ok(())
      ensures r.Err? ==> unchanged(this)
      ensures r.Ok? ==> old(Count()) !in old(kitties)
      ensures r.Ok? ==> kitties == old(kitties)[old(Count()) := Blend(selector, old(kitties)[kittyId1], old(kitties)[kittyId2])]
      ensures r.Ok? ==> owner == old(owner)[old(Count()) := who]
      ensures r.Ok? ==> kittiesCount == Some(old(Count()) + 1)
    {
      if kittyId1 == kittyId2 {
        return Err(SameKittyIndex);
      }
      if kittyId1 !in kitties || kittyId2 !in kitties {
        return Err(InvalidKittyIndex);
      }
      var kitty1 := kitties[kittyId1];
      var kitty2 := kitties[kittyId2];
      var next := NextId();
      if next.None? {
        return Err(KittiesCountOverflow);
      }
      var kittyId := next.value;
      var newDna := new bv8[16];
      for i := 0 to 16
        modifies newDna
        invariant forall j :: 0 <= j < i ==> newDna[j] == BlendByte(selector[j], kitty1[j], kitty2[j])
      {
        newDna[i] := (selector[i] & kitty1[i]) | (!selector[i] & kitty2[i]);
      }
      assert newDna[..] == Blend(selector, kitty1, kitty2);
      kitties := kitties[kittyId := newDna[..]];
      owner := owner[kittyId := who];
      kittiesCount := Some(kittyId + 1);
      r := Ok(());
    }
  }
}

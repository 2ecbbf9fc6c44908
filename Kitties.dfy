/**
 * The kitties NFT pallet (2021-10): a ledger of kitty records with a
 * sequential `u64` id counter, an `Owner` index from id to account, and a
 * per-account bounded list `KittiesOwned`, plus a marketplace (price, buy)
 * and breeding. Host randomness is a parameter; the currency is the ledger
 * of module Balances.
 */
module Kitties {
  import opened Wrappers
  import opened Genome
  import opened Accounts
  import opened OwnedList
  import Balances
  import opened Limits

  type Balance = nat

  datatype Gender = Male | Female

  datatype Kitty = Kitty(dna: Dna, price: Option<Balance>, gender: Gender, owner: AccountId)

  datatype Error =
    | KittiesCountOverflow
    | InvalidKittyIndex
    | ExceedMaxKittyOwned
    | BuyerIsKittyOwner
    | TransferToSelf
    | KittyNotExist
    | NotKittyOwner
    | KittyNotForSale
    | KittyBidPriceTooLow
    | NotEnoughBalance
      /** an error returned by the currency's transfer, passed through unchanged */
    | CurrencyTransferFailed

  /** What the host's randomness source yields for one call: a 16-byte dna hash and the first byte of the gender hash. */
  datatype Randomness = Randomness(dna: Dna, genderByte: bv8)

  /** `gen_gender`: an even first byte gives Male, an odd one Female. */
  function GenderFromByte(b: bv8): (g: Gender)
    ensures g == Male <==> b & 1 == 0
  {
    if b % 2 == 0 then Male else Female
  }

  /** `KittiesOwned::get(a)`: the account's list, empty when nothing is stored. */
  function OwnedBy(owned: map<AccountId, seq<KittyIndex>>, a: AccountId): seq<KittyIndex> {
    if a in owned then owned[a] else []
  }

  /** The genesis entry `(account, dna, gender)` as the record mint stores for it. */
  function GenesisKitty(entry: (AccountId, Dna, Gender)): Kitty {
    Kitty(entry.1, None, entry.2, entry.0)
  }

  /** `owned` after `id` has been swap-removed from `from`'s list (unchanged if it is not there). */
  function Removed(owned: map<AccountId, seq<KittyIndex>>, id: KittyIndex, from: AccountId): map<AccountId, seq<KittyIndex>> {
    var l := OwnedBy(owned, from);
    match Position(l, id)
    case None => owned
    case Some(p) => owned[from := SwapRemove(l, p)]
  }

  /** `owned` after `id` has moved from `from`'s list to the end of `to`'s. */
  function Reassign(owned: map<AccountId, seq<KittyIndex>>, id: KittyIndex, from: AccountId, to: AccountId): map<AccountId, seq<KittyIndex>> {
    var removed := Removed(owned, id, from);
    removed[to := OwnedBy(removed, to) + [id]]
  }

  /**
   * The storage invariant: ids `0 .. count-1` are exactly the minted kitties;
   * `Owner` agrees with each record's owner; every owned list is within the
   * cap and duplicate-free; an id is listed under an account exactly when
   * that account owns it.
   */
  ghost predicate Consistent(count: nat, kitties: map<KittyIndex, Kitty>, owner: map<KittyIndex, AccountId>,
                             owned: map<AccountId, seq<KittyIndex>>, maxOwned: nat)
  {
    && count <= U64_MAX
    && (forall id: KittyIndex :: id in kitties <==> id < count)
    && owner.Keys == kitties.Keys
    && (forall id :: id in kitties ==> owner[id] == kitties[id].owner)
    && (forall a :: a in owned ==> |owned[a]| <= maxOwned && NoDuplicates(owned[a]))
    && (forall a, id :: a in owned && id in owned[a] ==> id in kitties && kitties[id].owner == a)
    && (forall id :: id in kitties ==> id in OwnedBy(owned, kitties[id].owner))
  }

  /** Under the invariant every kitty is listed under exactly one account: its owner. */
  lemma ListedExactlyUnderOwner(count: nat, kitties: map<KittyIndex, Kitty>, owner: map<KittyIndex, AccountId>,
                                owned: map<AccountId, seq<KittyIndex>>, maxOwned: nat, id: KittyIndex, a: AccountId)
    requires Consistent(count, kitties, owner, owned, maxOwned)
    requires id in kitties
    ensures id in OwnedBy(owned, a) <==> a == kitties[id].owner
    ensures owner[id] == a <==> a == kitties[id].owner
  {
  }

  /** After a mint, every id listed under an account is a kitty that account owns. */
  lemma MintListsSound(count: nat, kitties: map<KittyIndex, Kitty>, owner: map<KittyIndex, AccountId>,
                       owned: map<AccountId, seq<KittyIndex>>, maxOwned: nat, kitty: Kitty)
    requires Consistent(count, kitties, owner, owned, maxOwned)
    ensures var k := kitties[count := kitty];
            var n := owned[kitty.owner := OwnedBy(owned, kitty.owner) + [count]];
            forall a, id :: a in n && id in n[a] ==> id in k && k[id].owner == a
  {
    var who := kitty.owner;
    var l := OwnedBy(owned, who);
    var k := kitties[count := kitty];
    var n := owned[who := l + [count]];
    forall a, id | a in n && id in n[a]
      ensures id in k && k[id].owner == a
    {
      if a == who {
        if id != count {
          assert id in l && who in owned;
          assert id in kitties && id < count;
        }
      } else {
        assert id in owned[a];
        assert id in kitties && id < count;
      }
    }
  }

  /** After a mint, every kitty is listed under its owner. */
  lemma MintListsComplete(count: nat, kitties: map<KittyIndex, Kitty>, owner: map<KittyIndex, AccountId>,
                          owned: map<AccountId, seq<KittyIndex>>, maxOwned: nat, kitty: Kitty)
    requires Consistent(count, kitties, owner, owned, maxOwned)
    ensures var k := kitties[count := kitty];
            var n := owned[kitty.owner := OwnedBy(owned, kitty.owner) + [count]];
            forall id :: id in k ==> id in OwnedBy(n, k[id].owner)
  {
    var who := kitty.owner;
    var k := kitties[count := kitty];
    var n := owned[who := OwnedBy(owned, who) + [count]];
    forall id | id in k
      ensures id in OwnedBy(n, k[id].owner)
    {
      if id != count {
        assert id in OwnedBy(owned, kitties[id].owner);
      }
    }
  }

  /** After a mint with room in the owner's list, every list is still within the cap and duplicate-free. */
  lemma MintListsBounded(count: nat, kitties: map<KittyIndex, Kitty>, owner: map<KittyIndex, AccountId>,
                         owned: map<AccountId, seq<KittyIndex>>, maxOwned: nat, kitty: Kitty)
    requires Consistent(count, kitties, owner, owned, maxOwned)
    requires |OwnedBy(owned, kitty.owner)| < maxOwned
    ensures var n := owned[kitty.owner := OwnedBy(owned, kitty.owner) + [count]];
            forall a :: a in n ==> |n[a]| <= maxOwned && NoDuplicates(n[a])
  {
    var who := kitty.owner;
    var l := OwnedBy(owned, who);
    forall x | x in l
      ensures x < count
    {
      assert who in owned && x in owned[who];
      assert x in kitties;
    }
    AppendFresh(l, count);
  }

  /** Minting id `count` for `kitty.owner` keeps the invariant when the counter and the owner's list have room. */
  lemma MintKeepsConsistent(count: nat, kitties: map<KittyIndex, Kitty>, owner: map<KittyIndex, AccountId>,
                            owned: map<AccountId, seq<KittyIndex>>, maxOwned: nat, kitty: Kitty)
    requires Consistent(count, kitties, owner, owned, maxOwned)
    requires count < U64_MAX && |OwnedBy(owned, kitty.owner)| < maxOwned
    ensures Consistent(count + 1, kitties[count := kitty], owner[count := kitty.owner],
                       owned[kitty.owner := OwnedBy(owned, kitty.owner) + [count]], maxOwned)
  {
    var k := kitties[count := kitty];
    assert forall id: KittyIndex :: id in k <==> id < count + 1;
    MintListsBounded(count, kitties, owner, owned, maxOwned, kitty);
    MintListsSound(count, kitties, owner, owned, maxOwned, kitty);
    MintListsComplete(count, kitties, owner, owned, maxOwned, kitty);
  }

  /** Changing a record's price keeps the invariant. */
  lemma RepriceKeepsConsistent(count: nat, kitties: map<KittyIndex, Kitty>, owner: map<KittyIndex, AccountId>,
                               owned: map<AccountId, seq<KittyIndex>>, maxOwned: nat, id: KittyIndex, price: Option<Balance>)
    requires Consistent(count, kitties, owner, owned, maxOwned)
    requires id in kitties
    ensures Consistent(count, kitties[id := kitties[id].(price := price)], owner, owned, maxOwned)
  {
  }

  /**
   * Swap-removing a kitty from its owner's list leaves every other list
   * alone and takes exactly that id out of the owner's list, which stays
   * duplicate-free and shrinks by one.
   */
  lemma RemovedFromOwner(count: nat, kitties: map<KittyIndex, Kitty>, owner: map<KittyIndex, AccountId>,
                         owned: map<AccountId, seq<KittyIndex>>, maxOwned: nat, id: KittyIndex)
    requires Consistent(count, kitties, owner, owned, maxOwned)
    requires id in kitties
    ensures var prev := kitties[id].owner;
            var r := Removed(owned, id, prev);
            && prev in owned && r.Keys == owned.Keys
            && (forall a :: a in owned && a != prev ==> r[a] == owned[a])
            && |r[prev]| == |owned[prev]| - 1 && NoDuplicates(r[prev])
            && (forall x :: x in r[prev] <==> x in owned[prev] && x != id)
  {
    var prev := kitties[id].owner;
    var l := OwnedBy(owned, prev);
    assert prev in owned;
    var p := Position(l, id).value;
    SwapRemoveMembers(l, p);
    SwapRemoveAt(l, p);
  }

  /** After a move, every id listed under an account is a kitty that account owns. */
  lemma MoveListsSound(count: nat, kitties: map<KittyIndex, Kitty>, owner: map<KittyIndex, AccountId>,
                       owned: map<AccountId, seq<KittyIndex>>, maxOwned: nat, id: KittyIndex, to: AccountId)
    requires Consistent(count, kitties, owner, owned, maxOwned)
    requires id in kitties
    ensures var k := kitties[id := kitties[id].(owner := to, price := None)];
            var n := Reassign(owned, id, kitties[id].owner, to);
            forall a, x :: a in n && x in n[a] ==> x in k && k[x].owner == a
  {
    var prev := kitties[id].owner;
    RemovedFromOwner(count, kitties, owner, owned, maxOwned, id);
    var r := Removed(owned, id, prev);
    var k := kitties[id := kitties[id].(owner := to, price := None)];
    var n := Reassign(owned, id, prev, to);
    forall a, x | a in n && x in n[a]
      ensures x in k && k[x].owner == a
    {
      if a == to {
        if x != id {
          assert x in OwnedBy(r, to);
          if to != prev {
            assert x in owned[to];
          }
        }
      } else if a == prev {
        assert x in r[prev];
      } else {
        assert x in owned[a];
      }
    }
  }

  /** After a move, every kitty is listed under its owner. */
  lemma MoveListsComplete(count: nat, kitties: map<KittyIndex, Kitty>, owner: map<KittyIndex, AccountId>,
                          owned: map<AccountId, seq<KittyIndex>>, maxOwned: nat, id: KittyIndex, to: AccountId)
    requires Consistent(count, kitties, owner, owned, maxOwned)
    requires id in kitties
    ensures var k := kitties[id := kitties[id].(owner := to, price := None)];
            var n := Reassign(owned, id, kitties[id].owner, to);
            forall x :: x in k ==> x in OwnedBy(n, k[x].owner)
  {
    var prev := kitties[id].owner;
    RemovedFromOwner(count, kitties, owner, owned, maxOwned, id);
    var r := Removed(owned, id, prev);
    var k := kitties[id := kitties[id].(owner := to, price := None)];
    var n := Reassign(owned, id, prev, to);
    forall x | x in k
      ensures x in OwnedBy(n, k[x].owner)
    {
      if x != id {
        var b := kitties[x].owner;
        assert x in OwnedBy(owned, b);
        if b == prev {
          assert x in r[prev];
        }
        if b == to {
          assert x in OwnedBy(r, to);
        }
      }
    }
  }

  /** After a move whose push fits, every list is within the cap and duplicate-free. */
  lemma MoveListsBounded(count: nat, kitties: map<KittyIndex, Kitty>, owner: map<KittyIndex, AccountId>,
                         owned: map<AccountId, seq<KittyIndex>>, maxOwned: nat, id: KittyIndex, to: AccountId)
    requires Consistent(count, kitties, owner, owned, maxOwned)
    requires id in kitties
    requires |OwnedBy(Removed(owned, id, kitties[id].owner), to)| < maxOwned
    ensures var n := Reassign(owned, id, kitties[id].owner, to);
            forall a :: a in n ==> |n[a]| <= maxOwned && NoDuplicates(n[a])
  {
    var prev := kitties[id].owner;
    RemovedFromOwner(count, kitties, owner, owned, maxOwned, id);
    var r := Removed(owned, id, prev);
    var toList := OwnedBy(r, to);
    assert id !in toList by {
      if to != prev {
        assert toList == OwnedBy(owned, to);
      }
    }
    AppendFresh(toList, id);
  }

  /**
   * Moving kitty `id` to `to` (record owner, `Owner`, swap-remove from the
   * previous owner's list, push onto `to`'s) keeps the invariant whenever the
   * push fits.
   */
  lemma MoveKeepsConsistent(count: nat, kitties: map<KittyIndex, Kitty>, owner: map<KittyIndex, AccountId>,
                            owned: map<AccountId, seq<KittyIndex>>, maxOwned: nat, id: KittyIndex, to: AccountId)
    requires Consistent(count, kitties, owner, owned, maxOwned)
    requires id in kitties
    requires |OwnedBy(Removed(owned, id, kitties[id].owner), to)| < maxOwned
    ensures Consistent(count, kitties[id := kitties[id].(owner := to, price := None)], owner[id := to],
                       Reassign(owned, id, kitties[id].owner, to), maxOwned)
  {
    MoveListsBounded(count, kitties, owner, owned, maxOwned, id, to);
    MoveListsSound(count, kitties, owner, owned, maxOwned, id, to);
    MoveListsComplete(count, kitties, owner, owned, maxOwned, id, to);
  }

  /** The pallet's storage as one value: `KittiesCount`, `Kitties`, `Owner` and `KittiesOwned`. */
  datatype Storage = Storage(count: nat, kitties: map<KittyIndex, Kitty>, owner: map<KittyIndex, AccountId>,
                             owned: map<AccountId, seq<KittyIndex>>)

  /**
   * One genesis entry: `mint` stores its record under the next id when the
   * counter and the account's list have room; otherwise the failure is
   * ignored and nothing changes.
   */
  function GenesisStep(s: Storage, maxOwned: nat, entry: (AccountId, Dna, Gender)): Storage {
    if s.count < U64_MAX && |OwnedBy(s.owned, entry.0)| < maxOwned then
      Storage(s.count + 1, s.kitties[s.count := GenesisKitty(entry)], s.owner[s.count := entry.0],
              s.owned[entry.0 := OwnedBy(s.owned, entry.0) + [s.count]])
    else s
  }

  /** Genesis `build`: the entries minted in order, each failed mint skipped. */
  function GenesisFold(s: Storage, maxOwned: nat, genesis: seq<(AccountId, Dna, Gender)>): Storage
    decreases |genesis|
  {
    if genesis == [] then s
    else GenesisStep(GenesisFold(s, maxOwned, genesis[..|genesis| - 1]), maxOwned, genesis[|genesis| - 1])
  }

  /** Building from genesis keeps the storage invariant. */
  lemma {:induction false} GenesisFoldKeepsConsistent(s: Storage, maxOwned: nat, genesis: seq<(AccountId, Dna, Gender)>)
    requires Consistent(s.count, s.kitties, s.owner, s.owned, maxOwned)
    ensures var t := GenesisFold(s, maxOwned, genesis);
            Consistent(t.count, t.kitties, t.owner, t.owned, maxOwned)
    decreases |genesis|
  {
    if genesis != [] {
      var prefix := genesis[..|genesis| - 1];
      var entry := genesis[|genesis| - 1];
      GenesisFoldKeepsConsistent(s, maxOwned, prefix);
      var t := GenesisFold(s, maxOwned, prefix);
      if t.count < U64_MAX && |OwnedBy(t.owned, entry.0)| < maxOwned {
        MintKeepsConsistent(t.count, t.kitties, t.owner, t.owned, maxOwned, GenesisKitty(entry));
      }
    }
  }

  /**
   * Building from genesis keeps every existing kitty, adds at most one kitty
   * per entry, and every added kitty is the record of some entry.
   */
  lemma {:induction false} GenesisFoldGrows(s: Storage, maxOwned: nat, genesis: seq<(AccountId, Dna, Gender)>)
    requires forall id :: id in s.kitties ==> id < s.count
    ensures var t := GenesisFold(s, maxOwned, genesis);
            && s.count <= t.count <= s.count + |genesis|
            && (forall id :: id in t.kitties ==> id < t.count)
            && (forall id :: id in s.kitties ==> id in t.kitties && t.kitties[id] == s.kitties[id])
            && (forall id :: id in t.kitties && id !in s.kitties ==>
                  exists j :: 0 <= j < |genesis| && t.kitties[id] == GenesisKitty(genesis[j]))
    decreases |genesis|
  {
    if genesis != [] {
      var n := |genesis| - 1;
      var prefix := genesis[..n];
      GenesisFoldGrows(s, maxOwned, prefix);
      var t := GenesisFold(s, maxOwned, prefix);
      var u := GenesisFold(s, maxOwned, genesis);
      assert u == GenesisStep(t, maxOwned, genesis[n]);
      assert t.count !in t.kitties;
      forall id | id in u.kitties && id !in s.kitties
        ensures exists j :: 0 <= j < |genesis| && u.kitties[id] == GenesisKitty(genesis[j])
      {
        if id in t.kitties {
          assert u.kitties[id] == t.kitties[id];
          var j :| 0 <= j < n && t.kitties[id] == GenesisKitty(prefix[j]);
          assert prefix[j] == genesis[j];
        } else {
          assert u.kitties[id] == GenesisKitty(genesis[n]);
        }
      }
    }
  }

  /** Building from genesis adds at most one id per entry to any account's list. */
  lemma {:induction false} GenesisFoldListsGrowBy(s: Storage, maxOwned: nat, genesis: seq<(AccountId, Dna, Gender)>)
    ensures var t := GenesisFold(s, maxOwned, genesis);
            forall a :: |OwnedBy(t.owned, a)| <= |OwnedBy(s.owned, a)| + |genesis|
    decreases |genesis|
  {
    if genesis != [] {
      var n := |genesis| - 1;
      GenesisFoldListsGrowBy(s, maxOwned, genesis[..n]);
      var t := GenesisFold(s, maxOwned, genesis[..n]);
      assert GenesisFold(s, maxOwned, genesis) == GenesisStep(t, maxOwned, genesis[n]);
    }
  }

  /**
   * When the counter and every account's list have room for all entries,
   * `build` mints every entry, entry `j` under id `count + j`.
   */
  lemma {:induction false} GenesisFoldMintsEveryEntry(s: Storage, maxOwned: nat, genesis: seq<(AccountId, Dna, Gender)>)
    requires s.count + |genesis| <= U64_MAX
    requires forall a :: |OwnedBy(s.owned, a)| + |genesis| <= maxOwned
    ensures var t := GenesisFold(s, maxOwned, genesis);
            && t.count == s.count + |genesis|
            && (forall id :: s.count <= id < t.count ==> id in t.kitties && t.kitties[id] == GenesisKitty(genesis[id - s.count]))
    decreases |genesis|
  {
    if genesis != [] {
      var n := |genesis| - 1;
      var prefix := genesis[..n];
      GenesisFoldMintsEveryEntry(s, maxOwned, prefix);
      GenesisFoldListsGrowBy(s, maxOwned, prefix);
      var t := GenesisFold(s, maxOwned, prefix);
      var entry := genesis[n];
      assert |OwnedBy(t.owned, entry.0)| < maxOwned by {
        assert |OwnedBy(s.owned, entry.0)| + |genesis| <= maxOwned;
      }
      var u := GenesisFold(s, maxOwned, genesis);
      assert u == GenesisStep(t, maxOwned, entry);
      forall id | s.count <= id < u.count
        ensures id in u.kitties && u.kitties[id] == GenesisKitty(genesis[id - s.count])
      {
        if id < t.count {
          assert prefix[id - s.count] == genesis[id - s.count];
        }
      }
    }
  }


  class Pallet {
    /** `MaxKittyOwned` (a `u32`) */
    const maxKittyOwned: nat
    /** `ReservationFee` */
    const reservationFee: Balance

    /** `KittiesCount` (a `u64` value query) */
    var kittiesCount: nat
    /** `Kitties`: id to record */
    var kitties: map<KittyIndex, Kitty>
    /** `Owner`: id to account */
    var owner: map<KittyIndex, AccountId>
    /** `KittiesOwned`: account to bounded list of ids */
    var kittiesOwned: map<AccountId, seq<KittyIndex>>
    /** The currency the pallet reserves, checks and transfers with. */
    var currency: Balances.Ledger

    ghost predicate Valid()
      reads this
    {
      maxKittyOwned <= U32_MAX && Consistent(kittiesCount, kitties, owner, kittiesOwned, maxKittyOwned)
    }

    /** Empty storage under the given configuration and currency state. */
    constructor (maxKittyOwned: nat, reservationFee: Balance, currency: Balances.Ledger)
      requires maxKittyOwned <= U32_MAX
      ensures Valid()
      ensures this.maxKittyOwned == maxKittyOwned && this.reservationFee == reservationFee && this.currency == currency
      ensures kittiesCount == 0 && kitties == map[] && owner == map[] && kittiesOwned == map[]
    {
      this.maxKittyOwned := maxKittyOwned;
      this.reservationFee := reservationFee;
      this.currency := currency;
      kittiesCount := 0;
      kitties := map[];
      owner := map[];
      kittiesOwned := map[];
      new;
      assert forall id: KittyIndex :: id in kitties <==> id < kittiesCount;
    }

    /** Nothing in the pallet's own storage changed (the currency may have). */
    twostate predicate StorageUnchanged()
      reads this
    {
      kittiesCount == old(kittiesCount) && kitties == old(kitties) && owner == old(owner) && kittiesOwned == old(kittiesOwned)
    }

    /** `kitty` was stored under the fresh id `id`, the old count, and appended to its owner's list. */
    twostate predicate MintedAs(id: KittyIndex, kitty: Kitty)
      reads this
    {
      && id == old(kittiesCount) && id !in old(kitties)
      && kittiesCount == old(kittiesCount) + 1
      && kitties == old(kitties)[id := kitty]
      && owner == old(owner)[id := kitty.owner]
      && kittiesOwned == old(kittiesOwned)[kitty.owner := OwnedBy(old(kittiesOwned), kitty.owner) + [id]]
    }

    /** Kitty `id` now belongs to `to` with no price; nothing else in storage changed. */
    twostate predicate MovedTo(id: KittyIndex, to: AccountId)
      reads this
    {
      && id in old(kitties)
      && kittiesCount == old(kittiesCount)
      && kitties == old(kitties)[id := old(kitties)[id].(owner := to, price := None)]
      && owner == old(owner)[id := to]
      && kittiesOwned == Reassign(old(kittiesOwned), id, old(kitties)[id].owner, to)
    }

    /** The storage as one value. */
    function Snapshot(): Storage
      reads this
    {
      Storage(kittiesCount, kitties, owner, kittiesOwned)
    }

    /** `is_kitty_owner`: whether `acct` owns `id`, or KittyNotExist. */
    function IsKittyOwner(id: KittyIndex, acct: AccountId): (r: Result<bool, Error>)
      reads this
      ensures r.Err? <==> id !in kitties
      ensures r.Err? ==> r.error == KittyNotExist
      ensures r.Ok? ==> (r.value <==> kitties[id].owner == acct)
    {
      if id in kitties then Ok(kitties[id].owner == acct) else Err(KittyNotExist)
    }

    /**
     * `mint`: store a new record with id = the current count, no price, the
     * given (or host-random) dna and gender, and append the id to the owner's
     * list. The counter overflow and the list capacity are both checked
     * before any write, so a failure changes nothing.
     */
    method Mint(who: AccountId, dna: Option<Dna>, gender: Option<Gender>, seed: Randomness) returns (r: Result<KittyIndex, Error>)
      requires Valid()
      modifies this
      ensures Valid() && currency == old(currency)
      ensures r == if old(kittiesCount) == U64_MAX then Err(KittiesCountOverflow)
                   else if |OwnedBy(old(kittiesOwned), who)| >= maxKittyOwned then Err(ExceedMaxKittyOwned)
                   else Ok(old(kittiesCount))
      ensures r.Err? ==> unchanged(this)
      ensures r.Ok? ==> MintedAs(r.value, Kitty(dna.GetOr(seed.dna), None, gender.GetOr(GenderFromByte(seed.genderByte)), who))
    {
      var kitty := Kitty(dna.GetOr(seed.dna), None, gender.GetOr(GenderFromByte(seed.genderByte)), who);
      var kittyId := kittiesCount;
      if kittyId == U64_MAX {
        return Err(KittiesCountOverflow);
      }
      var newCount := kittyId + 1;
      var vec := OwnedBy(kittiesOwned, who);
      if |vec| >= maxKittyOwned {
        // the bounded push fails
        return Err(ExceedMaxKittyOwned);
      }
      MintKeepsConsistent(kittiesCount, kitties, owner, kittiesOwned, maxKittyOwned, kitty);
      kittiesOwned := kittiesOwned[who := vec + [kittyId]];
      kitties := kitties[kittyId := kitty];
      owner := owner[kittyId := who];
      kittiesCount := newCount;
      r := Ok(kittyId);
    }

    /**
     * `create_kitty`: reserve the fee (NotEnoughBalance if it cannot be
     * reserved), then mint a random kitty. The call is not transactional, so
     * when mint fails the fee stays reserved.
     */
    method CreateKitty(sender: AccountId, seed: Randomness) returns (r: Result<(), Error>)
      requires Valid()
      modifies this
      ensures Valid()
      ensures Balances.Reserve(old(currency), sender, reservationFee).Err? ==> r == Err(NotEnoughBalance) && unchanged(this)
      ensures Balances.Reserve(old(currency), sender, reservationFee).Ok? ==>
                currency == Balances.Reserve(old(currency), sender, reservationFee).value
      ensures Balances.Reserve(old(currency), sender, reservationFee).Ok? ==>
                r == if old(kittiesCount) == U64_MAX then Err(KittiesCountOverflow)
                     else if |OwnedBy(old(kittiesOwned), sender)| >= maxKittyOwned then Err(ExceedMaxKittyOwned)
                     else Ok(())
      ensures r.Err? ==> StorageUnchanged()
      ensures r.Ok? ==> MintedAs(old(kittiesCount), Kitty(seed.dna, None, GenderFromByte(seed.genderByte), sender))
    {
      var reserved := Balances.Reserve(currency, sender, reservationFee);
      if reserved.Err? {
        return Err(NotEnoughBalance);
      }
      currency := reserved.value;
      var minted := Mint(sender, None, None, seed);
      if minted.Err? {
        return Err(minted.error);
      }
      r := Ok(());
    }

    /** `set_price`: the owner sets or clears the asking price; only that field of that record changes. */
    method SetPrice(sender: AccountId, id: KittyIndex, newPrice: Option<Balance>) returns (r: Result<(), Error>)
      requires Valid()
      modifies this
      ensures Valid()
      ensures r == if id !in old(kitties) then Err(KittyNotExist)
                   else if old(kitties)[id].owner != sender then Err(NotKittyOwner)
                   else Ok(())
      ensures r.Err? ==> unchanged(this)
      ensures r.Ok? ==> kitties == old(kitties)[id := old(kitties)[id].(price := newPrice)]
      ensures r.Ok? ==> kittiesCount == old(kittiesCount) && owner == old(owner) && kittiesOwned == old(kittiesOwned) && currency == old(currency)
    {
      var isOwner := IsKittyOwner(id, sender);
      if isOwner.Err? {
        return Err(isOwner.error);
      }
      if !isOwner.value {
        return Err(NotKittyOwner);
      }
      Reprice(id, newPrice);
      r := Ok(());
    }

    /** The write of `set_price`: only the price of record `id` changes. */
    method Reprice(id: KittyIndex, newPrice: Option<Balance>)
      requires Valid() && id in kitties
      modifies this
      ensures Valid()
      ensures kitties == old(kitties)[id := old(kitties)[id].(price := newPrice)]
      ensures kittiesCount == old(kittiesCount) && owner == old(owner) && kittiesOwned == old(kittiesOwned) && currency == old(currency)
    {
      RepriceKeepsConsistent(kittiesCount, kitties, owner, kittiesOwned, maxKittyOwned, id, newPrice);
      kitties := kitties[id := kitties[id].(price := newPrice)];
    }

    /**
     * `transfer`: errors in the order KittyNotExist, NotKittyOwner,
     * TransferToSelf, ExceedMaxKittyOwned (the receiver's list must be
     * strictly below the cap); on success the kitty moves to `to`.
     */
    method Transfer(from: AccountId, to: AccountId, id: KittyIndex) returns (r: Result<(), Error>)
      requires Valid()
      modifies this
      ensures Valid() && currency == old(currency)
      ensures r == if id !in old(kitties) then Err(KittyNotExist)
                   else if old(kitties)[id].owner != from then Err(NotKittyOwner)
                   else if from == to then Err(TransferToSelf)
                   else if |OwnedBy(old(kittiesOwned), to)| >= maxKittyOwned then Err(ExceedMaxKittyOwned)
                   else Ok(())
      ensures r.Err? ==> unchanged(this)
      ensures r.Ok? ==> MovedTo(id, to)
    {
      var isOwner := IsKittyOwner(id, from);
      if isOwner.Err? {
        return Err(isOwner.error);
      }
      if !isOwner.value {
        return Err(NotKittyOwner);
      }
      if from == to {
        return Err(TransferToSelf);
      }
      var toOwned := OwnedBy(kittiesOwned, to);
      if |toOwned| >= maxKittyOwned {
        return Err(ExceedMaxKittyOwned);
      }
      r := TransferKittyTo(id, to);
    }

    /**
     * `transfer_kitty_to` (transactional): swap-remove the id from the
     * previous owner's list, give the record to `to` with no price, update
     * `Owner`, and push the id onto `to`'s list; if the push fails, none of
     * the writes remain.
     */
    method TransferKittyTo(id: KittyIndex, to: AccountId) returns (r: Result<(), Error>)
      requires Valid()
      modifies this
      ensures Valid() && currency == old(currency)
      ensures r == if id !in old(kitties) then Err(KittyNotExist)
                   else if |OwnedBy(Removed(old(kittiesOwned), id, old(kitties)[id].owner), to)| >= maxKittyOwned then Err(ExceedMaxKittyOwned)
                   else Ok(())
      ensures r.Err? ==> unchanged(this)
      ensures r.Ok? ==> MovedTo(id, to)
    {
      if id !in kitties {
        return Err(KittyNotExist);
      }
      var kitty := kitties[id];
      var prevOwner := kitty.owner;
      // the writes are staged in locals and committed together once the last step has succeeded
      var prevOwned := OwnedBy(kittiesOwned, prevOwner);
      var pos := Position(prevOwned, id);
      ghost var removed := Removed(kittiesOwned, id, prevOwner);
      if pos.None? {
        return Err(KittyNotExist);
      }
      var owned := kittiesOwned[prevOwner := SwapRemove(prevOwned, pos.value)];
      assert owned == removed;
      kitty := kitty.(owner := to, price := None);
      var toOwned := OwnedBy(owned, to);
      if |toOwned| >= maxKittyOwned {
        // the bounded push fails and the transaction is rolled back
        return Err(ExceedMaxKittyOwned);
      }
      var newKitties := kitties[id := kitty];
      var newOwner := owner[id := to];
      var newOwned := owned[to := toOwned + [id]];
      assert newOwned == Reassign(kittiesOwned, id, prevOwner, to);
      MoveKeepsConsistent(kittiesCount, kitties, owner, kittiesOwned, maxKittyOwned, id, to);
      kitties, owner, kittiesOwned := newKitties, newOwner, newOwned;
      r := Ok(());
    }

    /**
     * `buy_kitty` (transactional): errors in the order KittyNotExist,
     * BuyerIsKittyOwner, KittyNotForSale, KittyBidPriceTooLow (a bid equal to
     * the ask is accepted), NotEnoughBalance, ExceedMaxKittyOwned, then any
     * currency transfer error. On success the bid goes from buyer to seller,
     * the kitty moves to the buyer, and the reservation fee is unreserved on
     * the buyer's account.
     */
    method BuyKitty(buyer: AccountId, id: KittyIndex, bid: Balance) returns (r: Result<(), Error>)
      requires Valid()
      modifies this
      ensures Valid()
      ensures r == if id !in old(kitties) then Err(KittyNotExist)
                   else if old(kitties)[id].owner == buyer then Err(BuyerIsKittyOwner)
                   else if old(kitties)[id].price.None? then Err(KittyNotForSale)
                   else if bid < old(kitties)[id].price.value then Err(KittyBidPriceTooLow)
                   else if old(currency).FreeBalance(buyer) < bid then Err(NotEnoughBalance)
                   else if |OwnedBy(old(kittiesOwned), buyer)| >= maxKittyOwned then Err(ExceedMaxKittyOwned)
                   else if Balances.Transfer(old(currency), buyer, old(kitties)[id].owner, bid).Err? then Err(CurrencyTransferFailed)
                   else Ok(())
      ensures r.Err? ==> unchanged(this)
      ensures r.Ok? ==> MovedTo(id, buyer)
      ensures r.Ok? ==> currency == Balances.Unreserve(Balances.Transfer(old(currency), buyer, old(kitties)[id].owner, bid).value, buyer, reservationFee)
    {
      if id !in kitties {
        return Err(KittyNotExist);
      }
      var kitty := kitties[id];
      if kitty.owner == buyer {
        return Err(BuyerIsKittyOwner);
      }
      match kitty.price {
        case Some(askPrice) =>
          if !(askPrice <= bid) {
            return Err(KittyBidPriceTooLow);
          }
        case None =>
          return Err(KittyNotForSale);
      }
      if currency.FreeBalance(buyer) < bid {
        return Err(NotEnoughBalance);
      }
      var toOwned := OwnedBy(kittiesOwned, buyer);
      if |toOwned| >= maxKittyOwned {
        return Err(ExceedMaxKittyOwned);
      }
      var seller := kitty.owner;
      if Balances.Transfer(currency, buyer, seller, bid).Err? {
        return Err(CurrencyTransferFailed);
      }
      Settle(id, buyer, bid);
      r := Ok(());
    }

    /**
     * The writes of a `buy_kitty` whose checks have passed: the buyer pays
     * the seller, the kitty moves to the buyer, and the buyer's fee is
     * unreserved.
     */
    method Settle(id: KittyIndex, buyer: AccountId, bid: Balance)
      requires Valid() && id in kitties && kitties[id].owner != buyer
      requires |OwnedBy(kittiesOwned, buyer)| < maxKittyOwned
      requires Balances.Transfer(currency, buyer, kitties[id].owner, bid).Ok?
      modifies this
      ensures Valid() && MovedTo(id, buyer)
      ensures currency == Balances.Unreserve(Balances.Transfer(old(currency), buyer, old(kitties)[id].owner, bid).value, buyer, reservationFee)
    {
      currency := Balances.Transfer(currency, buyer, kitties[id].owner, bid).value;
      var moved := TransferKittyTo(id, buyer);
      // transactional: an error here would roll the payment back too, but the
      // checks in `BuyKitty` (the buyer is not the owner and has room) rule it out
      assert moved.Ok?;
      currency := Balances.Unreserve(currency, buyer, reservationFee);
    }

    /**
     * `breed_dna`: both parents must exist (KittyNotExist otherwise); the
     * host-random mask is overwritten in place, byte by byte, with the blend
     * of the parents' dna.
     */
    method BreedDna(parent1: KittyIndex, parent2: KittyIndex, mask: Dna) returns (r: Result<Dna, Error>)
      ensures r.Err? <==> parent1 !in kitties || parent2 !in kitties
      ensures r.Err? ==> r.error == KittyNotExist
      ensures r.Ok? ==> r.value == Blend(mask, kitties[parent1].dna, kitties[parent2].dna)
    {
      if parent1 !in kitties {
        return Err(KittyNotExist);
      }
      var dna1 := kitties[parent1].dna;
      if parent2 !in kitties {
        return Err(KittyNotExist);
      }
      var dna2 := kitties[parent2].dna;
      var newDna := new bv8[16](i requires 0 <= i < 16 => mask[i]);
      for i := 0 to newDna.Length
        invariant forall j :: 0 <= j < i ==> newDna[j] == BlendByte(mask[j], dna1[j], dna2[j])
        invariant forall j :: i <= j < 16 ==> newDna[j] == mask[j]
      {
        newDna[i] := (newDna[i] & dna1[i]) | (!newDna[i] & dna2[i]);
      }
      r := Ok(newDna[..]);
    }

    /**
     * `breed_kitty`: the caller must own both parents (each checked for
     * existence, then ownership, parent 1 first); the same kitty may be both
     * parents; no fee is reserved; the child is minted to the caller with
     * the blended dna and a host-random gender.
     */
    method BreedKitty(sender: AccountId, parent1: KittyIndex, parent2: KittyIndex, seed: Randomness) returns (r: Result<(), Error>)
      requires Valid()
      modifies this
      ensures Valid() && currency == old(currency)
      ensures r == if parent1 !in old(kitties) then Err(KittyNotExist)
                   else if old(kitties)[parent1].owner != sender then Err(NotKittyOwner)
                   else if parent2 !in old(kitties) then Err(KittyNotExist)
                   else if old(kitties)[parent2].owner != sender then Err(NotKittyOwner)
                   else if old(kittiesCount) == U64_MAX then Err(KittiesCountOverflow)
                   else if |OwnedBy(old(kittiesOwned), sender)| >= maxKittyOwned then Err(ExceedMaxKittyOwned)
                   else Ok(())
      ensures r.Err? ==> unchanged(this)
      ensures r.Ok? ==> MintedAs(old(kittiesCount),
                          Kitty(Blend(seed.dna, old(kitties)[parent1].dna, old(kitties)[parent2].dna), None, GenderFromByte(seed.genderByte), sender))
    {
      var owns1 := IsKittyOwner(parent1, sender);
      if owns1.Err? {
        return Err(owns1.error);
      }
      if !owns1.value {
        return Err(NotKittyOwner);
      }
      var owns2 := IsKittyOwner(parent2, sender);
      if owns2.Err? {
        return Err(owns2.error);
      }
      if !owns2.value {
        return Err(NotKittyOwner);
      }
      var newDna := BreedDna(parent1, parent2, seed.dna);
      // both parents were found above, so the dna lookup cannot fail
      assert newDna.Ok?;
      var minted := Mint(sender, Some(newDna.value), None, seed);
      if minted.Err? {
        return Err(minted.error);
      }
      r := Ok(());
    }

    /** One genesis entry: minted under the next id when the counter and the account's list have room, else skipped. */
    method BuildOne(entry: (AccountId, Dna, Gender))
      requires Valid()
      modifies this
      ensures Valid() && currency == old(currency)
      ensures Snapshot() == GenesisStep(old(Snapshot()), maxKittyOwned, entry)
    {
      var (acct, dna, gender) := entry;
      // genesis supplies both dna and gender, so `mint` never consults the
      // random source and any value may stand in for it
      var minted := Mint(acct, Some(dna), Some(gender), Randomness(dna, 0));
    }

    /**
     * Genesis `build`: mint each listed `(account, dna, gender)` in order,
     * with no reservation, ignoring the entries whose mint fails.
     */
    method Build(genesis: seq<(AccountId, Dna, Gender)>)
      requires Valid()
      modifies this
      ensures Valid() && currency == old(currency)
      ensures Snapshot() == GenesisFold(old(Snapshot()), maxKittyOwned, genesis)
    {
      var n := 0;
      while n < |genesis|
        invariant n <= |genesis|
        invariant Valid() && currency == old(currency)
        invariant Snapshot() == GenesisFold(old(Snapshot()), maxKittyOwned, genesis[..n])
      {
        BuildOne(genesis[n]);
        assert genesis[..n + 1][..n] == genesis[..n];
        n := n + 1;
      }
      assert genesis[..n] == genesis;
    }
  }
}

/**
 * The kitties and proof-of-existence unit tests replayed against the model:
 * each method runs one or more tests' call sequences under the mock
 * runtime's configuration and asserts their outcomes, which the contracts
 * of the calls must imply. The host randomness is a parameter, so each
 * outcome holds whatever the random source returns.
 */
module Scenarios {
  import opened Wrappers
  import opened Genome
  import Balances
  import OwnedList
  import Kitties
  import EarlyKitties
  import Poe
  import Erc20

  /** The kitties mock runtime: existential deposit 500, accounts 1 and 2 rich, account 3 holding 900. */
  function MockCurrency(): Balances.Ledger {
    Balances.Ledger(map[1 := 10_000_000_000, 2 := 10_000_000_000, 3 := 900], map[], 500)
  }

  /** `MaxKittyOwned = 3`, `ReservationFee = 1000` */
  method MockKitties() returns (p: Kitties.Pallet)
    ensures fresh(p) && p.Valid()
    ensures p.maxKittyOwned == 3 && p.reservationFee == 1000 && p.currency == MockCurrency()
    ensures p.kittiesCount == 0 && p.kitties == map[] && p.kittiesOwned == map[]
  {
    p := new Kitties.Pallet(3, 1000, MockCurrency());
  }

  /** kitties tests.rs:27-34: account 3 cannot reserve the fee. */
  method CreateKittyWithTooLittleBalance(seed: Kitties.Randomness) {
    var p := MockKitties();
    var r := p.CreateKitty(3, seed);
    assert r == Err(Kitties.NotEnoughBalance);
  }

  /** kitties tests.rs:6-12, and the first step of most other tests: account 1 creates kitty 0. */
  method OneKittyForOne(seed: Kitties.Randomness) returns (p: Kitties.Pallet)
    ensures fresh(p) && p.Valid()
    ensures p.maxKittyOwned == 3 && p.reservationFee == 1000 && p.kittiesCount == 1
    ensures p.kitties[0].owner == 1 && p.owner[0] == 1 && p.kitties[0].price == None
    ensures 1 in p.kittiesOwned && p.kittiesOwned[1] == [0] && 2 !in p.kittiesOwned
    ensures p.currency.existentialDeposit == 500
    ensures p.currency.FreeBalance(1) == 10_000_000_000 - 1000
    ensures p.currency.FreeBalance(2) == 10_000_000_000 && p.currency.FreeBalance(3) == 900
  {
    p := MockKitties();
    var r := p.CreateKitty(1, seed);
    assert r.Ok?;
  }

  /** kitties tests.rs:38-63: only the owner may set a price, and only on an existing kitty. */
  method SetPriceChecks(seed: Kitties.Randomness) {
    var p := OneKittyForOne(seed);
    var r := p.SetPrice(2, 0, Some(10));
    assert r == Err(Kitties.NotKittyOwner);
    r := p.SetPrice(1, 1, Some(10));
    assert r == Err(Kitties.KittyNotExist);
    r := p.SetPrice(1, 0, Some(10));
    assert r.Ok? && p.kitties[0].price == Some(10);
  }

  /** kitties tests.rs:66-72: the owner gives kitty 0 to account 2. */
  method TransferWorks(seed: Kitties.Randomness) {
    var p := OneKittyForOne(seed);
    assert Kitties.OwnedBy(p.kittiesOwned, 2) == [];
    var r := p.Transfer(1, 2, 0);
    assert r.Ok? && p.owner[0] == 2;
  }

  /** kitties tests.rs:74-92 and 107-115: a non-owner, a transfer to oneself, an unknown id. */
  method TransferRejected(seed: Kitties.Randomness) {
    var p := OneKittyForOne(seed);
    var r := p.Transfer(2, 3, 0);
    assert r == Err(Kitties.NotKittyOwner);
    r := p.Transfer(1, 1, 0);
    assert r == Err(Kitties.TransferToSelf);
    r := p.Transfer(1, 2, 1);
    assert r == Err(Kitties.KittyNotExist);
  }

  /** The first step of kitties tests.rs:14-25, 94-105 and 181-193: account 2 creates kitty 0. */
  method OneKittyForTwo(seed: Kitties.Randomness) returns (p: Kitties.Pallet)
    ensures fresh(p) && p.Valid()
    ensures p.maxKittyOwned == 3 && p.reservationFee == 1000
    ensures p.kittiesCount == 1 && p.kitties[0].owner == 2
    ensures 2 in p.kittiesOwned && p.kittiesOwned[2] == [0] && 1 !in p.kittiesOwned
    ensures p.currency.FreeBalance(1) == 10_000_000_000
  {
    p := MockKitties();
    var r := p.CreateKitty(2, seed);
    assert r.Ok?;
  }

  /** Then account 1 creates kitty 1. */
  method OneKittyEach(seed: Kitties.Randomness) returns (p: Kitties.Pallet)
    ensures fresh(p) && p.Valid()
    ensures p.maxKittyOwned == 3 && p.reservationFee == 1000
    ensures p.kittiesCount == 2 && p.kitties[0].owner == 2
    ensures 1 in p.kittiesOwned && p.kittiesOwned[1] == [1]
    ensures 2 in p.kittiesOwned && p.kittiesOwned[2] == [0]
    ensures p.currency.FreeBalance(1) == 10_000_000_000 - 1000
  {
    p := OneKittyForTwo(seed);
    assert Balances.Reserve(p.currency, 1, 1000).Ok?;
    assert Kitties.OwnedBy(p.kittiesOwned, 1) == [];
    var r := p.CreateKitty(1, seed);
    assert r.Ok?;
  }

  /** Then account 1 creates kitty 2 as well. */
  method TwoOwnersThreeKitties(seed: Kitties.Randomness) returns (p: Kitties.Pallet)
    ensures fresh(p) && p.Valid()
    ensures p.maxKittyOwned == 3 && p.reservationFee == 1000
    ensures p.kittiesCount == 3 && p.kitties[0].owner == 2
    ensures 1 in p.kittiesOwned && p.kittiesOwned[1] == [1, 2]
    ensures 2 in p.kittiesOwned && p.kittiesOwned[2] == [0]
    ensures p.currency.FreeBalance(1) == 10_000_000_000 - 2000
  {
    p := OneKittyEach(seed);
    assert Balances.Reserve(p.currency, 1, 1000).Ok?;
    assert Kitties.OwnedBy(p.kittiesOwned, 1) == [1];
    var r := p.CreateKitty(1, seed);
    assert r.Ok?;
  }

  /** Then account 1 creates kitty 3 and has reached the cap. */
  method ThreeKittiesForOne(seed: Kitties.Randomness) returns (p: Kitties.Pallet)
    ensures fresh(p) && p.Valid()
    ensures p.maxKittyOwned == 3 && p.kittiesCount == 4 && p.kitties[0].owner == 2
    ensures 1 in p.kittiesOwned && |p.kittiesOwned[1]| == 3
    ensures p.currency.FreeBalance(1) == 10_000_000_000 - 3000
  {
    p := TwoOwnersThreeKitties(seed);
    assert Balances.Reserve(p.currency, 1, 1000).Ok?;
    assert Kitties.OwnedBy(p.kittiesOwned, 1) == [1, 2];
    var r := p.CreateKitty(1, seed);
    assert r.Ok?;
  }

  /**
   * kitties tests.rs:14-25 with kitty 0 then given to account 1: its next
   * `create_kitty` fails with ExceedMaxKittyOwned (the test expects
   * InvalidKittyIndex, which this call cannot return).
   */
  method CreateKittyWhenOwnerListIsFull(seed: Kitties.Randomness) {
    var p := TwoOwnersThreeKitties(seed);
    ghost var before := p.kittiesOwned;
    assert OwnedList.Position([0], 0) == Some(0);
    assert Kitties.OwnedBy(Kitties.Removed(before, 0, 2), 1) == [1, 2];
    var r := p.Transfer(2, 1, 0);
    assert r.Ok?;
    assert p.kittiesOwned[1] == [1, 2, 0];
    r := p.CreateKitty(1, seed);
    assert r == Err(Kitties.ExceedMaxKittyOwned);
  }

  /** kitties tests.rs:94-105: the receiver already owns the maximum of three kitties. */
  method TransferToFullList(seed: Kitties.Randomness) {
    var p := ThreeKittiesForOne(seed);
    var r := p.Transfer(2, 1, 0);
    assert r == Err(Kitties.ExceedMaxKittyOwned);
  }

  /** kitties tests.rs:181-193: a buyer who owns the maximum of three kitties cannot buy. */
  method BuyerListFull(seed: Kitties.Randomness) {
    var p := ThreeKittiesForOne(seed);
    var r := p.SetPrice(2, 0, Some(10));
    assert r.Ok?;
    r := p.BuyKitty(1, 0, 11);
    assert r == Err(Kitties.ExceedMaxKittyOwned);
  }

  /** kitties tests.rs:117-125: a bid above the asking price buys the kitty. */
  method BuyKittyWorks(seed: Kitties.Randomness) {
    var p := OneKittyForOne(seed);
    var r := p.SetPrice(1, 0, Some(10));
    assert r.Ok?;
    assert Kitties.OwnedBy(p.kittiesOwned, 2) == [];
    assert Balances.Transfer(p.currency, 2, 1, 11).Ok?;
    r := p.BuyKitty(2, 0, 11);
    assert r.Ok?;
    assert p.owner[0] == 2 && p.kitties[0].price == None;
  }

  /** kitties tests.rs:127-147: an unknown id, and a buyer who already owns the kitty. */
  method BuyKittyRejectedEarly(seed: Kitties.Randomness) {
    var p := OneKittyForOne(seed);
    var r := p.SetPrice(1, 0, Some(10));
    assert r.Ok?;
    r := p.BuyKitty(2, 1, 11);
    assert r == Err(Kitties.KittyNotExist);
    r := p.BuyKitty(1, 0, 11);
    assert r == Err(Kitties.BuyerIsKittyOwner);
  }

  /** kitties tests.rs:149-168: a kitty with no price, and a bid below the ask. */
  method BuyKittyRejected(seed: Kitties.Randomness) {
    var p := OneKittyForOne(seed);
    var r := p.BuyKitty(2, 0, 10);
    assert r == Err(Kitties.KittyNotForSale);
    r := p.SetPrice(1, 0, Some(10));
    assert r.Ok?;
    r := p.BuyKitty(2, 0, 9);
    assert r == Err(Kitties.KittyBidPriceTooLow);
  }

  /** kitties tests.rs:170-179: account 3 bids more than its free balance. */
  method BuyKittyWithTooLittleBalance(seed: Kitties.Randomness) {
    var p := OneKittyForOne(seed);
    var r := p.SetPrice(1, 0, Some(100));
    assert r.Ok?;
    r := p.BuyKitty(3, 0, 10_000_000);
    assert r == Err(Kitties.NotEnoughBalance);
  }

  /** The opening of kitties tests.rs:196-224: account 1 creates kitties 0 and 1. */
  method TwoKittiesForOne(seed: Kitties.Randomness) returns (p: Kitties.Pallet)
    ensures fresh(p) && p.Valid()
    ensures p.maxKittyOwned == 3 && p.reservationFee == 1000 && p.kittiesCount == 2
    ensures p.kitties[0].owner == 1 && p.kitties[1].owner == 1
    ensures 1 in p.kittiesOwned && p.kittiesOwned[1] == [0, 1]
    ensures p.currency.FreeBalance(1) == 10_000_000_000 - 2000
  {
    p := OneKittyForOne(seed);
    assert Balances.Reserve(p.currency, 1, 1000).Ok?;
    assert Kitties.OwnedBy(p.kittiesOwned, 1) == [0];
    var r := p.CreateKitty(1, seed);
    assert r.Ok?;
  }

  /**
   * kitties tests.rs:196-213: account 2 may not breed account 1's kitties;
   * account 1 breeds a third kitty. A further breed on the now full list
   * fails too, a step the tests do not take.
   */
  method BreedKittyFillsTheList(seed: Kitties.Randomness) {
    var p := TwoKittiesForOne(seed);
    var r := p.BreedKitty(2, 0, 1, seed);
    assert r == Err(Kitties.NotKittyOwner);
    r := p.BreedKitty(1, 0, 1, seed);
    assert r.Ok? && |p.kittiesOwned[1]| == 3;
    r := p.BreedKitty(1, 0, 1, seed);
    assert r == Err(Kitties.ExceedMaxKittyOwned);
  }

  /** kitties tests.rs:215-224: after a third create, breeding fails on the full list. */
  method BreedKittyOnFullList(seed: Kitties.Randomness) {
    var p := TwoKittiesForOne(seed);
    assert Balances.Reserve(p.currency, 1, 1000).Ok?;
    assert Kitties.OwnedBy(p.kittiesOwned, 1) == [0, 1];
    var r := p.CreateKitty(1, seed);
    assert r.Ok?;
    r := p.BreedKitty(1, 0, 1, seed);
    assert r == Err(Kitties.ExceedMaxKittyOwned);
  }

  /**
   * The 2021-07 pallet has no tests in the repository. This sequence shows
   * its policies: equal parents are refused, anyone may breed, and a
   * transfer to oneself succeeds.
   */
  method EarlyKittiesPolicies(dna: Dna) {
    var p := new EarlyKitties.Pallet();
    var r := p.Create(1, dna);
    assert r.Ok?;
    r := p.Create(2, dna);
    assert r.Ok?;
    r := p.Breed(3, 0, 0, dna);
    assert r == Err(EarlyKitties.SameKittyIndex);
    r := p.Breed(3, 0, 1, dna);
    assert r.Ok? && p.owner[2] == 3;
    BlendSameParents(dna, dna);
    assert p.kitties[2] == dna;
    r := p.Transfer(3, 3, 2);
    assert r.Ok?;
    r := p.Transfer(1, 2, 2);
    assert r == Err(EarlyKitties.NotOwner);
  }

  /**
   * poe tests.rs:24-55 and 69-90: a claim is stored with its owner and block,
   * a duplicate is refused, the owner revokes it, a second revoke finds
   * nothing. Two steps go beyond the tests: a revoke by another account
   * fails, and a revoked claim can be created again.
   */
  method RevokedClaimCanBeRecreated() {
    var p := new Poe.Pallet(2);
    var claim: seq<bv8> := [0, 1];
    var r := p.CreateClaim(1, claim, 1);
    assert r.Ok? && p.proofs[claim] == (1, 1);
    r := p.CreateClaim(1, claim, 1);
    assert r == Err(Poe.ProofAlreadyExist);
    r := p.RevokeClaim(2, claim);
    assert r == Err(Poe.NotClaimOwner);
    r := p.RevokeClaim(1, claim);
    assert r.Ok? && claim !in p.proofs;
    r := p.RevokeClaim(1, claim);
    assert r == Err(Poe.ClaimNotExist);
    r := p.CreateClaim(2, claim, 5);
    assert r.Ok? && p.proofs[claim] == (2, 5);
  }

  /**
   * poe tests.rs:57-67 and 92-129: an oversized claim, a transfer of a
   * missing claim, a transfer to oneself, and a transfer to account 2, made
   * here at a later block than the claim, which stores that later block.
   */
  method ClaimBoundsAndTransfers() {
    var p := new Poe.Pallet(2);
    var r := p.CreateClaim(1, [0, 1, 2], 1);
    assert r == Err(Poe.ClaimSizeOutOfBound);
    var claim: seq<bv8> := [0, 1];
    r := p.TransferClaim(1, claim, 2, 1);
    assert r == Err(Poe.ClaimNotExist);
    r := p.CreateClaim(1, claim, 1);
    assert r.Ok?;
    r := p.TransferClaim(1, claim, 1, 2);
    assert r == Err(Poe.NotDestination);
    r := p.TransferClaim(1, claim, 2, 3);
    assert r.Ok? && p.proofs[claim] == (2, 3);
  }

  /**
   * The ERC20 contract has no tests in the repository. In this sequence an
   * approved spender moves part of the owner's tokens and the allowance
   * drops by that amount.
   */
  method ApproveThenTransferFrom() {
    var t := new Erc20.Erc20(1, 100);
    var r := t.Approve(1, 2, 30);
    r := t.TransferFrom(2, 1, 3, 20);
    assert r.Ok?;
    assert t.BalanceOf(1) == 80 && t.BalanceOf(3) == 20 && t.Allowance(1, 2) == 10;
    r := t.TransferFrom(2, 1, 3, 20);
    assert r == Err(Erc20.InsufficientApproval);
    r := t.Transfer(3, 3, 20);
    assert r.Ok? && t.BalanceOf(3) == 20;
    r := t.Transfer(3, 1, 21);
    assert r == Err(Erc20.InsufficientBalance);
  }
}

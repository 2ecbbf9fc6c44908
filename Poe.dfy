/**
 * The proof-of-existence pallet: a `Proofs` map from claim bytes to the
 * claiming account and the block number of the claim. The caller and the
 * current block number are parameters.
 */
module Poe {
  import opened Wrappers
  import opened Accounts
  import opened Limits

  type BlockNumber = nat

  datatype Error = ProofAlreadyExist | ClaimNotExist | NotClaimOwner | NotDestination | ClaimSizeOutOfBound

  /**
   * The size check of `create_claim` as the code writes it: the length is
   * cast to `u32` first, which keeps only its low 32 bits.
   */
  function SizeCheckAsWritten(len: nat, maxVecLen: nat): (ok: bool)
    requires maxVecLen <= U32_MAX
    ensures len <= U32_MAX ==> (ok <==> len <= maxVecLen)
  {
    len % (U32_MAX + 1) <= maxVecLen
  }

  /** A claim of 2^32 bytes passes the as-written check against a bound of 2. */
  lemma AsWrittenAdmitsOversizedClaim()
    ensures SizeCheckAsWritten(U32_MAX + 1, 2) && !SizeCheck(U32_MAX + 1, 2)
  {
  }

  /** Every length 2^32 + j with j <= maxVecLen passes the as-written check. */
  lemma AsWrittenAdmitsWrappedLengths(j: nat, maxVecLen: nat)
    requires maxVecLen <= U32_MAX && j <= maxVecLen
    ensures SizeCheckAsWritten(U32_MAX + 1 + j, maxVecLen)
    ensures !SizeCheck(U32_MAX + 1 + j, maxVecLen)
  {
  }

  /** The check `create_claim` evidently intends: the length itself is within the bound. */
  function SizeCheck(len: nat, maxVecLen: nat): bool
  {
    len <= maxVecLen
  }

  /** The two checks agree on every length that fits in a `u32`. */
  lemma SizeChecksAgreeBelowWrap(len: nat, maxVecLen: nat)
    requires len <= U32_MAX && maxVecLen <= U32_MAX
    ensures SizeCheckAsWritten(len, maxVecLen) == SizeCheck(len, maxVecLen)
  {
  }

  class Pallet {
    /** `MaxVecLen`, a `u32` configuration constant */
    const maxVecLen: nat
    /** `Proofs`: claim to (owner, block of the claim or of its last transfer) */
    var proofs: map<seq<bv8>, (AccountId, BlockNumber)>

    /** No stored claim is longer than `MaxVecLen`. */
    ghost predicate Valid()
      reads this
    {
      && maxVecLen <= U32_MAX
      && forall claim :: claim in proofs ==> |claim| <= maxVecLen
    }

    constructor (maxVecLen: nat)
      requires maxVecLen <= U32_MAX
      ensures Valid()
      ensures this.maxVecLen == maxVecLen && proofs == map[]
    {
      this.maxVecLen := maxVecLen;
      proofs := map[];
    }

    /**
     * `create_claim`: ClaimSizeOutOfBound when the claim is longer than
     * `MaxVecLen` (checked first; equal length is accepted), then
     * ProofAlreadyExist; on success the claim is stored with the sender
     * and the current block. The size check is the corrected one.
     */
    method CreateClaim(sender: AccountId, claim: seq<bv8>, now: BlockNumber) returns (r: Result<(), Error>)
      requires Valid()
      modifies this
      ensures Valid()
      ensures r == if |claim| > maxVecLen then Err(ClaimSizeOutOfBound)
                   else if claim in old(proofs) then Err(ProofAlreadyExist)
                   else Ok(())
      ensures r.Err? ==> unchanged(this)
      ensures r.Ok? ==> proofs == old(proofs)[claim := (sender, now)]
    {
      if !SizeCheck(|claim|, maxVecLen) {
        return Err(ClaimSizeOutOfBound);
      }
      if claim in proofs {
        return Err(ProofAlreadyExist);
      }
      proofs := proofs[claim := (sender, now)];
      r := Ok(());
    }

    /**
     * `revoke_claim`: ClaimNotExist, then NotClaimOwner; on success exactly
     * that claim is removed, so it may be created again.
     */
    method RevokeClaim(sender: AccountId, claim: seq<bv8>) returns (r: Result<(), Error>)
      requires Valid()
      modifies this
      ensures Valid()
      ensures r == if claim !in old(proofs) then Err(ClaimNotExist)
                   else if old(proofs)[claim].0 != sender then Err(NotClaimOwner)
                   else Ok(())
      ensures r.Err? ==> unchanged(this)
      ensures r.Ok? ==> proofs == old(proofs) - {claim} && claim !in proofs
    {
      if claim !in proofs {
        return Err(ClaimNotExist);
      }
      var (owner, _) := proofs[claim];
      if owner != sender {
        return Err(NotClaimOwner);
      }
      proofs := proofs - {claim};
      r := Ok(());
    }

    /**
     * `transfer_claim`: ClaimNotExist, NotClaimOwner, then NotDestination
     * when the destination is the sender; on success the claim belongs to
     * `dest` and carries the current block number.
     */
    method TransferClaim(sender: AccountId, claim: seq<bv8>, dest: AccountId, now: BlockNumber) returns (r: Result<(), Error>)
      requires Valid()
      modifies this
      ensures Valid()
      ensures r == if claim !in old(proofs) then Err(ClaimNotExist)
                   else if old(proofs)[claim].0 != sender then Err(NotClaimOwner)
                   else if dest == sender then Err(NotDestination)
                   else Ok(())
      ensures r.Err? ==> unchanged(this)
      ensures r.Ok? ==> proofs == old(proofs)[claim := (dest, now)]
    {
      if claim !in proofs {
        return Err(ClaimNotExist);
      }
      var (owner, _) := proofs[claim];
      if owner != sender {
        return Err(NotClaimOwner);
      }
      if dest == sender {
        return Err(NotDestination);
      }
      proofs := proofs[claim := (dest, now)];
      r := Ok(());
    }
  }
}

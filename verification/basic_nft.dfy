/**
 * BasicNft, the token contract the marketplace sells from, reduced to the
 * ERC-721 surface the marketplace and its tests use: minting, ownership,
 * single-token approval and transfer.
 */
module Nft {
  import opened Eth
  import opened Wrappers

  /** Reasons the token contract reverts. */
  datatype NftError =
    | NonexistentToken      // the id was never minted
    | NotOwnerNorApproved   // the caller may not act on the token
    | IncorrectOwner        // a transfer names a `from` that does not own the token

  /** The ids 0 .. n-1 are exactly the keys of `owners`. */
  ghost predicate MintedUpTo(owners: map<nat, Address>, n: nat)
  {
    forall id: nat :: id in owners <==> id < n
  }

  /** When the ids 0 .. n-1 are the keys, there are n of them. */
  lemma {:induction false} MintedCount(owners: map<nat, Address>, n: nat)
    requires MintedUpTo(owners, n)
    ensures |owners| == n
  {
    if n > 0 {
      var rest := owners - {n - 1};
      assert MintedUpTo(rest, n - 1);
      MintedCount(rest, n - 1);
      assert |rest| == |owners| - 1;
    } else {
      assert owners.Keys == {};
    }
  }

  class BasicNft {
    const address: Address
    var owners: map<nat, Address>
    var tokenApprovals: map<nat, Address>
    var tokenCounter: nat

    /** Every id below the counter is minted and only those; approvals exist only for minted ids. */
    ghost predicate Valid()
      reads this
    {
      && MintedUpTo(owners, tokenCounter)
      && tokenApprovals.Keys <= owners.Keys
    }

    /** A contract is never deployed at the zero address. */
    constructor (address: Address)
      requires address != ZeroAddress
      ensures Valid()
      ensures this.address == address
      ensures tokenCounter == 0 && owners == map[] && tokenApprovals == map[]
    {
      this.address := address;
      owners := map[];
      tokenApprovals := map[];
      tokenCounter := 0;
      assert MintedUpTo(map[], 0);
    }

    /** mintNft: the next id goes to the caller. */
    method MintNft(caller: Address) returns (tokenId: nat)
      requires Valid()
      modifies this`owners, this`tokenCounter
      ensures Valid()
      ensures tokenId == old(tokenCounter) && tokenId !in old(owners)
      ensures tokenCounter == old(tokenCounter) + 1
      ensures owners == old(owners)[tokenId := caller]
    {
      tokenId := tokenCounter;
      owners := owners[tokenId := caller];
      tokenCounter := tokenCounter + 1;
    }

    /** getTokenCounter: how many tokens have been minted. */
    function GetTokenCounter(): (n: nat)
      reads this
      requires Valid()
      ensures |owners| == n
      ensures forall id: nat :: id in owners <==> id < n
    {
      MintedCount(owners, tokenCounter);
      tokenCounter
    }

    /** ownerOf: the holder of a minted token. */
    function OwnerOf(tokenId: nat): (r: Result<Address, NftError>)
      reads this
      requires Valid()
      ensures r.Success? <==> tokenId < tokenCounter
      ensures r.Failure? ==> r.error == NonexistentToken
      ensures r.Success? ==> r.value == owners[tokenId]
    {
      if tokenId in owners then Success(owners[tokenId]) else Failure(NonexistentToken)
    }

    /** getApproved: the one address approved for a minted token, the zero address if none. */
    function GetApproved(tokenId: nat): (r: Result<Address, NftError>)
      reads this
      requires Valid()
      ensures r.Success? <==> tokenId < tokenCounter
      ensures r.Failure? ==> r.error == NonexistentToken
      ensures r.Success? ==> (r.value != ZeroAddress <==> tokenId in tokenApprovals && tokenApprovals[tokenId] != ZeroAddress)
    {
      if tokenId !in owners then Failure(NonexistentToken)
      else if tokenId in tokenApprovals then Success(tokenApprovals[tokenId])
      else Success(ZeroAddress)
    }

    /** Whether approve(to, tokenId) sent by `caller` goes through. */
    function ApproveCheck(caller: Address, tokenId: nat): (o: Outcome<NftError>)
      reads this
      requires Valid()
      ensures o.Pass? <==> OwnerOf(tokenId) == Success(caller)
      ensures o.Fail? && tokenId < tokenCounter ==> o.error == NotOwnerNorApproved
      ensures tokenId >= tokenCounter ==> o == Fail(NonexistentToken)
    {
      if tokenId !in owners then Fail(NonexistentToken)
      else if owners[tokenId] != caller then Fail(NotOwnerNorApproved)
      else Pass
    }

    /** approve: the owner names the one address that may transfer the token. */
    method Approve(caller: Address, to: Address, tokenId: nat) returns (r: Outcome<NftError>)
      requires Valid()
      modifies this`tokenApprovals
      ensures Valid()
      ensures r == ApproveCheck(caller, tokenId)
      ensures r.Pass? ==> tokenApprovals == old(tokenApprovals)[tokenId := to] && GetApproved(tokenId) == Success(to)
      ensures r.Fail? ==> tokenApprovals == old(tokenApprovals)
    {
      r := ApproveCheck(caller, tokenId);
      if r.Pass? {
        tokenApprovals := tokenApprovals[tokenId := to];
      }
    }

    /** Whether transferFrom(from, _, tokenId) sent by `operator` goes through. */
    function TransferCheck(operator: Address, from: Address, tokenId: nat): (o: Outcome<NftError>)
      reads this
      requires Valid()
      ensures o.Pass? <==>
        && OwnerOf(tokenId) == Success(from)
        && (operator == from || GetApproved(tokenId) == Success(operator))
      ensures tokenId >= tokenCounter ==> o == Fail(NonexistentToken)
      ensures o == Fail(NonexistentToken) ==> tokenId >= tokenCounter
      ensures o == Fail(IncorrectOwner) ==> OwnerOf(tokenId) != Success(from)
      ensures o == Fail(NotOwnerNorApproved) ==> OwnerOf(tokenId) != Success(operator) && GetApproved(tokenId) != Success(operator)
    {
      if tokenId !in owners then Fail(NonexistentToken)
      else if operator != owners[tokenId] && GetApproved(tokenId) != Success(operator) then Fail(NotOwnerNorApproved)
      else if owners[tokenId] != from then Fail(IncorrectOwner)
      else Pass
    }

    /** transferFrom: moves the token to `to` and clears its approval. */
    method TransferFrom(operator: Address, from: Address, to: Address, tokenId: nat) returns (r: Outcome<NftError>)
      requires Valid()
      modifies this`owners, this`tokenApprovals
      ensures Valid()
      ensures r == old(TransferCheck(operator, from, tokenId))
      ensures r.Pass? ==> owners == old(owners)[tokenId := to] && tokenApprovals == old(tokenApprovals) - {tokenId}
      ensures r.Pass? ==> OwnerOf(tokenId) == Success(to) && GetApproved(tokenId) == Success(ZeroAddress)
      ensures r.Fail? ==> unchanged(this)
    {
      r := TransferCheck(operator, from, tokenId);
      if r.Pass? {
        owners := owners[tokenId := to];
        tokenApprovals := tokenApprovals - {tokenId};
      }
    }
  }
}

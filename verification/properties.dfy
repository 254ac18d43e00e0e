/**
 * Properties of call sequences on any marketplace state, derived from the
 * operations' contracts alone.
 */
module Properties {
  import opened Eth
  import opened Wrappers
  import opened Nft
  import opened Marketplace

  /** A listed key cannot be listed again, whatever the new price. */
  method ListTwice(market: NftMarketplace, nft: BasicNft, caller: Address, tokenId: nat, first: Wei, second: Wei)
    returns (r1: Outcome<Error>, r2: Outcome<Error>)
    requires market.Valid() && nft.Valid()
    modifies market`listings, market`events
    ensures market.Valid()
    ensures r1.Pass? ==> r2 == Fail(AlreadyListed)
    ensures r1.Pass? ==> market.GetListing(nft.address, tokenId) == Listing(first, caller)
  {
    r1 := market.ListItem(caller, nft, tokenId, first);
    r2 := market.ListItem(caller, nft, tokenId, second);
  }

  /** Once cancelled, a listing reads as price 0 and a second cancel reports NotListed. */
  method CancelTwice(market: NftMarketplace, nft: BasicNft, caller: Address, tokenId: nat)
    returns (r1: Outcome<Error>, price: Wei, r2: Outcome<Error>)
    requires market.Valid() && nft.Valid()
    modifies market`listings, market`events
    ensures r1.Pass? ==> price == 0 && r2 == Fail(NotListed)
  {
    r1 := market.CancelListing(caller, nft, tokenId);
    price := market.GetListing(nft.address, tokenId).price;
    r2 := market.CancelListing(caller, nft, tokenId);
  }

  /** A sold token is no longer listed: a second purchase reports NotListed. */
  method BuyTwice(market: NftMarketplace, nft: BasicNft, buyer: Address, tokenId: nat, value: Wei)
    returns (r1: Outcome<Error>, r2: Outcome<Error>)
    requires market.Valid() && nft.Valid()
    modifies market`listings, market`proceeds, market`balance, market`received, market`events
    modifies nft`owners, nft`tokenApprovals
    ensures r1.Pass? ==> r2 == Fail(NotListed)
  {
    r1 := market.BuyItem(buyer, nft, tokenId, value);
    r2 := market.BuyItem(buyer, nft, tokenId, value);
  }

  /** Withdrawal empties the record: whatever the first call did, the second reports NoProceeds. */
  method WithdrawTwice(market: NftMarketplace, caller: Address)
    returns (r1: Result<Wei, Error>, r2: Result<Wei, Error>)
    requires market.Valid()
    modifies market`proceeds, market`balance, market`paidOut
    ensures market.Valid()
    ensures market.GetProceeds(caller) == 0
    ensures r2 == Failure(NoProceeds)
  {
    r1 := market.WithdrawProceeds(caller);
    r2 := market.WithdrawProceeds(caller);
  }

  /** Listing, cancelling and updating never touch proceeds or the ether held. */
  method ListingLeavesProceeds(market: NftMarketplace, nft: BasicNft, caller: Address, tokenId: nat, price: Wei, newPrice: Wei)
    requires market.Valid() && nft.Valid()
    modifies market`listings, market`events
    ensures market.proceeds == old(market.proceeds) && market.balance == old(market.balance)
  {
    var a := market.ListItem(caller, nft, tokenId, price);
    var b := market.UpdateListing(caller, nft, tokenId, newPrice);
    var c := market.CancelListing(caller, nft, tokenId);
  }
}

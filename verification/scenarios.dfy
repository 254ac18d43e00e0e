/**
 * The marketplace's test suite replayed against the model: each method
 * runs the calls of one test on freshly deployed contracts, and its
 * postcondition is what that test expects to observe.
 */
module Scenarios {
  import opened Eth
  import opened Wrappers
  import opened Nft
  import opened Marketplace
  import Ledger

  /** The signers and the two deployed contracts. */
  datatype Accounts = Accounts(
    deployer: Address, buyer: Address, seller: Address,
    nftAddress: Address, marketAddress: Address)

  /** Five different non-zero addresses. */
  predicate Distinct(acc: Accounts)
  {
    && ZeroAddress !in {acc.deployer, acc.buyer, acc.seller, acc.nftAddress, acc.marketAddress}
    && acc.deployer != acc.buyer && acc.deployer != acc.seller
    && acc.deployer != acc.nftAddress && acc.deployer != acc.marketAddress
    && acc.buyer != acc.seller && acc.buyer != acc.nftAddress && acc.buyer != acc.marketAddress
    && acc.seller != acc.nftAddress && acc.seller != acc.marketAddress
    && acc.nftAddress != acc.marketAddress
  }

  const TOKEN_ID: nat := 0
  /** 0.1 ether. */
  const PRICE: Wei := 100_000_000_000_000_000
  /** 0.05 ether. */
  const LOW_PRICE: Wei := 50_000_000_000_000_000
  /** 0.2 ether. */
  const NEW_PRICE: Wei := 200_000_000_000_000_000

  /** Deploys BasicNft and the marketplace, then the deployer mints token 0. */
  method Deploy(acc: Accounts) returns (nft: BasicNft, market: NftMarketplace)
    requires Distinct(acc)
    ensures fresh(nft) && fresh(market)
    ensures nft.Valid() && market.Valid()
    ensures nft.address == acc.nftAddress && market.address == acc.marketAddress
    ensures nft.tokenCounter == 1 && nft.owners == map[TOKEN_ID := acc.deployer] && nft.tokenApprovals == map[]
    ensures market.listings == map[] && market.proceeds == map[] && market.paidOut == map[]
    ensures market.events == [] && market.balance == 0
  {
    nft := new BasicNft(acc.nftAddress);
    market := new NftMarketplace(acc.marketAddress);
    var id := nft.MintNft(acc.deployer);
  }

  /** After Deploy, the deployer approves the marketplace for token 0 and lists it at PRICE. */
  method DeployAndList(acc: Accounts) returns (nft: BasicNft, market: NftMarketplace)
    requires Distinct(acc)
    ensures fresh(nft) && fresh(market)
    ensures nft.Valid() && market.Valid()
    ensures nft.address == acc.nftAddress && market.address == acc.marketAddress
    ensures nft.tokenCounter == 1 && nft.owners == map[TOKEN_ID := acc.deployer]
    ensures nft.tokenApprovals == map[TOKEN_ID := acc.marketAddress]
    ensures market.listings == map[TokenKey(acc.nftAddress, TOKEN_ID) := Listing(PRICE, acc.deployer)]
    ensures market.proceeds == map[] && market.paidOut == map[] && market.balance == 0
  {
    nft, market := Deploy(acc);
    var a := nft.Approve(acc.deployer, market.address, TOKEN_ID);
    var r := market.ListItem(acc.deployer, nft, TOKEN_ID, PRICE);
  }

  /** After DeployAndList, the buyer buys token 0 for PRICE. */
  method DeployListAndSell(acc: Accounts) returns (nft: BasicNft, market: NftMarketplace)
    requires Distinct(acc)
    ensures fresh(nft) && fresh(market)
    ensures nft.Valid() && market.Valid()
    ensures nft.address == acc.nftAddress && market.address == acc.marketAddress
    ensures nft.tokenCounter == 1 && nft.owners == map[TOKEN_ID := acc.buyer] && nft.tokenApprovals == map[]
    ensures market.listings == map[]
    ensures market.proceeds == map[acc.deployer := PRICE] && market.paidOut == map[] && market.balance == PRICE
  {
    nft, market := DeployAndList(acc);
    var r := market.BuyItem(acc.buyer, nft, TOKEN_ID, PRICE);
    assert map[TOKEN_ID := acc.deployer][TOKEN_ID := acc.buyer] == map[TOKEN_ID := acc.buyer];
    assert map[TOKEN_ID := acc.marketAddress] - {TOKEN_ID} == map[];
  }

  method DeploymentInitialState(acc: Accounts) returns (counter: nat, owner: Result<Address, NftError>)
    requires Distinct(acc)
    ensures counter == 1 && owner == Success(acc.deployer)
  {
    var nft, market := Deploy(acc);
    counter := nft.GetTokenCounter();
    owner := nft.OwnerOf(TOKEN_ID);
  }

  method MintSecondToken(acc: Accounts) returns (tokenId: nat, counter: nat, owner: Result<Address, NftError>)
    requires Distinct(acc)
    ensures tokenId == 1 && counter == 2 && owner == Success(acc.deployer)
  {
    var nft, market := Deploy(acc);
    tokenId := nft.MintNft(acc.deployer);
    counter := nft.GetTokenCounter();
    owner := nft.OwnerOf(1);
  }

  method ListSucceeds(acc: Accounts) returns (r: Outcome<Error>, emitted: seq<Event>, listing: Listing)
    requires Distinct(acc)
    ensures r == Pass
    ensures emitted == [ItemListed(acc.deployer, acc.nftAddress, TOKEN_ID, PRICE)]
    ensures listing == Listing(PRICE, acc.deployer)
  {
    var nft, market := Deploy(acc);
    var a := nft.Approve(acc.deployer, market.address, TOKEN_ID);
    r := market.ListItem(acc.deployer, nft, TOKEN_ID, PRICE);
    emitted := market.events;
    listing := market.GetListing(nft.address, TOKEN_ID);
  }

  method ListWithoutApproval(acc: Accounts) returns (r: Outcome<Error>)
    requires Distinct(acc)
    ensures r == Fail(NotApprovedForMarketplace)
  {
    var nft, market := Deploy(acc);
    r := market.ListItem(acc.deployer, nft, TOKEN_ID, PRICE);
  }

  method ListAtZeroPrice(acc: Accounts) returns (r: Outcome<Error>)
    requires Distinct(acc)
    ensures r == Fail(PriceMustBeAboveZero)
  {
    var nft, market := Deploy(acc);
    var a := nft.Approve(acc.deployer, market.address, TOKEN_ID);
    r := market.ListItem(acc.deployer, nft, TOKEN_ID, 0);
  }

  method ListByNonOwner(acc: Accounts) returns (r: Outcome<Error>)
    requires Distinct(acc)
    ensures r == Fail(NotOwner)
  {
    var nft, market := Deploy(acc);
    var a := nft.Approve(acc.deployer, market.address, TOKEN_ID);
    r := market.ListItem(acc.buyer, nft, TOKEN_ID, PRICE);
  }

  method ListTwice(acc: Accounts) returns (r: Outcome<Error>)
    requires Distinct(acc)
    ensures r == Fail(AlreadyListed)
  {
    var nft, market := DeployAndList(acc);
    r := market.ListItem(acc.deployer, nft, TOKEN_ID, PRICE);
  }

  method BuySucceeds(acc: Accounts) returns (newOwner: Result<Address, NftError>, before: Wei, after: Wei)
    requires Distinct(acc)
    ensures newOwner == Success(acc.buyer)
    ensures after == before + PRICE
  {
    var nft, market := DeployAndList(acc);
    before := market.GetProceeds(acc.deployer);
    var r := market.BuyItem(acc.buyer, nft, TOKEN_ID, PRICE);
    newOwner := nft.OwnerOf(TOKEN_ID);
    after := market.GetProceeds(acc.deployer);
  }

  method BuyEmitsItemBought(acc: Accounts) returns (r: Outcome<Error>, emitted: seq<Event>)
    requires Distinct(acc)
    ensures r == Pass
    ensures emitted == [ItemBought(acc.buyer, acc.nftAddress, TOKEN_ID, PRICE)]
  {
    var nft, market := DeployAndList(acc);
    var n := |market.events|;
    r := market.BuyItem(acc.buyer, nft, TOKEN_ID, PRICE);
    emitted := market.events[n..];
  }

  method BuyBelowPrice(acc: Accounts) returns (r: Outcome<Error>)
    requires Distinct(acc)
    ensures r == Fail(PriceNotMet)
  {
    var nft, market := DeployAndList(acc);
    r := market.BuyItem(acc.buyer, nft, TOKEN_ID, LOW_PRICE);
  }

  method BuyAfterCancel(acc: Accounts) returns (r: Outcome<Error>)
    requires Distinct(acc)
    ensures r == Fail(NotListed)
  {
    var nft, market := DeployAndList(acc);
    var c := market.CancelListing(acc.deployer, nft, TOKEN_ID);
    r := market.BuyItem(acc.buyer, nft, TOKEN_ID, PRICE);
  }

  method BuyOwnListing(acc: Accounts) returns (r: Outcome<Error>)
    requires Distinct(acc)
    ensures r == Fail(NotOwner)
  {
    var nft, market := DeployAndList(acc);
    r := market.BuyItem(acc.deployer, nft, TOKEN_ID, PRICE);
  }

  method CancelSucceeds(acc: Accounts) returns (r: Outcome<Error>, emitted: seq<Event>, price: Wei)
    requires Distinct(acc)
    ensures r == Pass
    ensures emitted == [ItemCanceled(acc.deployer, acc.nftAddress, TOKEN_ID)]
    ensures price == 0
  {
    var nft, market := DeployAndList(acc);
    var n := |market.events|;
    r := market.CancelListing(acc.deployer, nft, TOKEN_ID);
    emitted := market.events[n..];
    price := market.GetListing(nft.address, TOKEN_ID).price;
  }

  method CancelByNonOwner(acc: Accounts) returns (r: Outcome<Error>)
    requires Distinct(acc)
    ensures r == Fail(NotOwner)
  {
    var nft, market := DeployAndList(acc);
    r := market.CancelListing(acc.buyer, nft, TOKEN_ID);
  }

  method CancelTwice(acc: Accounts) returns (r: Outcome<Error>)
    requires Distinct(acc)
    ensures r == Fail(NotListed)
  {
    var nft, market := DeployAndList(acc);
    var c := market.CancelListing(acc.deployer, nft, TOKEN_ID);
    r := market.CancelListing(acc.deployer, nft, TOKEN_ID);
  }

  method UpdateSucceeds(acc: Accounts) returns (r: Outcome<Error>, emitted: seq<Event>, price: Wei)
    requires Distinct(acc)
    ensures r == Pass
    ensures emitted == [ItemListed(acc.deployer, acc.nftAddress, TOKEN_ID, NEW_PRICE)]
    ensures price == NEW_PRICE
  {
    var nft, market := DeployAndList(acc);
    var n := |market.events|;
    r := market.UpdateListing(acc.deployer, nft, TOKEN_ID, NEW_PRICE);
    emitted := market.events[n..];
    price := market.GetListing(nft.address, TOKEN_ID).price;
  }

  method UpdateToZero(acc: Accounts) returns (r: Outcome<Error>)
    requires Distinct(acc)
    ensures r == Fail(PriceMustBeAboveZero)
  {
    var nft, market := DeployAndList(acc);
    r := market.UpdateListing(acc.deployer, nft, TOKEN_ID, 0);
  }

  method UpdateByNonOwner(acc: Accounts) returns (r: Outcome<Error>)
    requires Distinct(acc)
    ensures r == Fail(NotOwner)
  {
    var nft, market := DeployAndList(acc);
    r := market.UpdateListing(acc.buyer, nft, TOKEN_ID, PRICE);
  }

  method UpdateAfterCancel(acc: Accounts) returns (r: Outcome<Error>)
    requires Distinct(acc)
    ensures r == Fail(NotListed)
  {
    var nft, market := DeployAndList(acc);
    var c := market.CancelListing(acc.deployer, nft, TOKEN_ID);
    r := market.UpdateListing(acc.deployer, nft, TOKEN_ID, PRICE);
  }

  /** Gas is not modelled: the deployer's wallet grows by exactly the recorded proceeds. */
  method WithdrawSucceeds(acc: Accounts) returns (recorded: Wei, walletBefore: Wei, walletAfter: Wei)
    requires Distinct(acc)
    ensures recorded == PRICE
    ensures walletAfter == walletBefore + recorded
  {
    var nft, market := DeployListAndSell(acc);
    walletBefore := Ledger.Get(market.paidOut, acc.deployer);
    recorded := market.GetProceeds(acc.deployer);
    var r := market.WithdrawProceeds(acc.deployer);
    walletAfter := Ledger.Get(market.paidOut, acc.deployer);
  }

  method WithdrawWithoutProceeds(acc: Accounts) returns (r: Result<Wei, Error>)
    requires Distinct(acc)
    ensures r == Failure(NoProceeds)
  {
    var nft, market := DeployListAndSell(acc);
    r := market.WithdrawProceeds(acc.seller);
  }

  method WithdrawClearsProceeds(acc: Accounts) returns (left: Wei)
    requires Distinct(acc)
    ensures left == 0
  {
    var nft, market := DeployListAndSell(acc);
    var r := market.WithdrawProceeds(acc.deployer);
    left := market.GetProceeds(acc.deployer);
  }

  method MultipleSalesProceeds(acc: Accounts) returns (total: Wei)
    requires Distinct(acc)
    ensures total == 2 * PRICE
  {
    var nft, market := DeployListAndSell(acc);
    var id := nft.MintNft(acc.deployer);
    var a := nft.Approve(acc.deployer, market.address, id);
    var l := market.ListItem(acc.deployer, nft, id, PRICE);
    var b := market.BuyItem(acc.buyer, nft, id, PRICE);
    total := market.GetProceeds(acc.deployer);
  }
}

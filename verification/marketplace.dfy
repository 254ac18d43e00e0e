/**
 * The NftMarketplace ledger: fixed-price listings of ERC-721 tokens and
 * pull-style seller proceeds. Every write operation takes its sender
 * (msg.sender) explicitly, buyItem also the ether sent with it (msg.value).
 * A call that reverts changes nothing (EVM revert semantics).
 */
module Marketplace {
  import opened Eth
  import opened Wrappers
  import opened Nft
  import Ledger

  /** A listable asset: the token contract's address and a token id. */
  datatype TokenKey = TokenKey(nftAddress: Address, tokenId: nat)

  /** A sale offer; the price is 0 exactly when there is no offer. */
  datatype Listing = Listing(price: Wei, seller: Address)

  /** The revert reasons of the marketplace. */
  datatype Error =
    | NotApprovedForMarketplace
    | PriceMustBeAboveZero
    | NotOwner
    | AlreadyListed
    | NotListed
    | PriceNotMet
    | NoProceeds
    | TokenTransferFailed   // the token contract's transferFrom reverted inside buyItem

  /** The events the marketplace emits. */
  datatype Event =
    | ItemListed(seller: Address, nftAddress: Address, tokenId: nat, price: Wei)
    | ItemCanceled(seller: Address, nftAddress: Address, tokenId: nat)
    | ItemBought(buyer: Address, nftAddress: Address, tokenId: nat, price: Wei)

  /** The listing key of a token of `nft`. */
  function KeyOf(nft: BasicNft, tokenId: nat): TokenKey
  {
    TokenKey(nft.address, tokenId)
  }

  /** `who` holds the token according to the token contract. */
  predicate Owns(nft: BasicNft, tokenId: nat, who: Address)
    reads nft
    requires nft.Valid()
  {
    nft.OwnerOf(tokenId) == Success(who)
  }

  class NftMarketplace {
    const address: Address
    var listings: map<TokenKey, Listing>
    var proceeds: map<Address, Wei>
    /** The ether the marketplace contract holds. */
    var balance: Wei
    /** The ether each address has received from withdrawProceeds, over all time. */
    var paidOut: map<Address, Wei>
    /** The emitted events, oldest first. */
    var events: seq<Event>
    /** The ether sent to the marketplace with buyItem, over all time. */
    ghost var received: Wei

    /**
     * Listings carry a positive price; the contract can pay every seller
     * what it owes; what came in is either held or paid out.
     */
    ghost predicate Valid()
      reads this
    {
      && address != ZeroAddress
      && (forall k :: k in listings ==> listings[k].price > 0)
      && Ledger.Total(proceeds) <= balance
      && balance + Ledger.Total(paidOut) == received
    }

    /** A contract is never deployed at the zero address. */
    constructor (address: Address)
      requires address != ZeroAddress
      ensures Valid()
      ensures this.address == address
      ensures listings == map[] && proceeds == map[] && paidOut == map[] && events == []
      ensures balance == 0 && received == 0
    {
      this.address := address;
      listings := map[];
      proceeds := map[];
      balance := 0;
      paidOut := map[];
      events := [];
      received := 0;
    }

    /** The token contract has approved this marketplace for the token. */
    predicate MarketApproved(nft: BasicNft, tokenId: nat)
      reads nft
      requires nft.Valid()
    {
      nft.GetApproved(tokenId) == Success(address)
    }

    /** getListing: the offer for a key; price 0 and the zero seller when there is none. */
    function GetListing(nftAddress: Address, tokenId: nat): (l: Listing)
      reads this
      requires Valid()
      ensures l.price > 0 <==> TokenKey(nftAddress, tokenId) in listings
      ensures l.price > 0 ==> l == listings[TokenKey(nftAddress, tokenId)]
      ensures l.price == 0 ==> l.seller == ZeroAddress
    {
      var key := TokenKey(nftAddress, tokenId);
      if key in listings then listings[key] else Listing(0, ZeroAddress)
    }

    /** getProceeds: what a seller may withdraw; the contract always holds at least that much. */
    function GetProceeds(seller: Address): (p: Wei)
      reads this
      requires Valid()
      ensures p <= balance
      ensures p == Ledger.Get(proceeds, seller)
    {
      Ledger.EntryBounded(proceeds, seller);
      Ledger.Get(proceeds, seller)
    }

    /**
     * Whether listItem goes through. Checked in this order: already listed,
     * caller does not own the token, zero price, marketplace not approved.
     */
    function ListItemCheck(caller: Address, nft: BasicNft, tokenId: nat, price: Wei): (o: Outcome<Error>)
      reads this, nft
      requires nft.Valid()
      ensures o.Pass? <==>
        KeyOf(nft, tokenId) !in listings && Owns(nft, tokenId, caller) && price > 0 && MarketApproved(nft, tokenId)
      ensures KeyOf(nft, tokenId) in listings && Owns(nft, tokenId, caller) && price > 0 && MarketApproved(nft, tokenId)
        ==> o == Fail(AlreadyListed)
      ensures KeyOf(nft, tokenId) !in listings && !Owns(nft, tokenId, caller) && price > 0 && MarketApproved(nft, tokenId)
        ==> o == Fail(NotOwner)
      ensures KeyOf(nft, tokenId) !in listings && Owns(nft, tokenId, caller) && price == 0 && MarketApproved(nft, tokenId)
        ==> o == Fail(PriceMustBeAboveZero)
      ensures KeyOf(nft, tokenId) !in listings && Owns(nft, tokenId, caller) && price > 0 && !MarketApproved(nft, tokenId)
        ==> o == Fail(NotApprovedForMarketplace)
      ensures o.Fail? ==>
        || (o.error == AlreadyListed && KeyOf(nft, tokenId) in listings)
        || (o.error == NotOwner && !Owns(nft, tokenId, caller))
        || (o.error == PriceMustBeAboveZero && price == 0)
        || (o.error == NotApprovedForMarketplace && !MarketApproved(nft, tokenId))
    {
      if KeyOf(nft, tokenId) in listings then Fail(AlreadyListed)
      else if !Owns(nft, tokenId, caller) then Fail(NotOwner)
      else if price == 0 then Fail(PriceMustBeAboveZero)
      else if !MarketApproved(nft, tokenId) then Fail(NotApprovedForMarketplace)
      else Pass
    }

    /** listItem: the token's owner offers it at `price`. */
    method ListItem(caller: Address, nft: BasicNft, tokenId: nat, price: Wei) returns (r: Outcome<Error>)
      requires Valid() && nft.Valid()
      modifies this`listings, this`events
      ensures Valid()
      ensures r == old(ListItemCheck(caller, nft, tokenId, price))
      ensures r.Pass? ==>
        && listings == old(listings)[KeyOf(nft, tokenId) := Listing(price, caller)]
        && events == old(events) + [ItemListed(caller, nft.address, tokenId, price)]
      ensures r.Fail? ==> unchanged(this)
    {
      r := ListItemCheck(caller, nft, tokenId, price);
      if r.Pass? {
        listings := listings[KeyOf(nft, tokenId) := Listing(price, caller)];
        events := events + [ItemListed(caller, nft.address, tokenId, price)];
      }
    }

    /** Whether cancelListing goes through. Checked in this order: caller does not own the token, not listed. */
    function CancelListingCheck(caller: Address, nft: BasicNft, tokenId: nat): (o: Outcome<Error>)
      reads this, nft
      requires nft.Valid()
      ensures o.Pass? <==> Owns(nft, tokenId, caller) && KeyOf(nft, tokenId) in listings
      ensures !Owns(nft, tokenId, caller) && KeyOf(nft, tokenId) in listings ==> o == Fail(NotOwner)
      ensures Owns(nft, tokenId, caller) && KeyOf(nft, tokenId) !in listings ==> o == Fail(NotListed)
      ensures o.Fail? ==>
        || (o.error == NotOwner && !Owns(nft, tokenId, caller))
        || (o.error == NotListed && KeyOf(nft, tokenId) !in listings)
    {
      if !Owns(nft, tokenId, caller) then Fail(NotOwner)
      else if KeyOf(nft, tokenId) !in listings then Fail(NotListed)
      else Pass
    }

    /** cancelListing: the token's owner withdraws the offer. */
    method CancelListing(caller: Address, nft: BasicNft, tokenId: nat) returns (r: Outcome<Error>)
      requires Valid() && nft.Valid()
      modifies this`listings, this`events
      ensures Valid()
      ensures r == old(CancelListingCheck(caller, nft, tokenId))
      ensures r.Pass? ==>
        && listings == old(listings) - {KeyOf(nft, tokenId)}
        && events == old(events) + [ItemCanceled(old(listings)[KeyOf(nft, tokenId)].seller, nft.address, tokenId)]
      ensures r.Fail? ==> unchanged(this)
    {
      r := CancelListingCheck(caller, nft, tokenId);
      if r.Pass? {
        var seller := listings[KeyOf(nft, tokenId)].seller;
        listings := listings - {KeyOf(nft, tokenId)};
        events := events + [ItemCanceled(seller, nft.address, tokenId)];
      }
    }

    /**
     * Whether updateListing goes through. Checked in this order: not listed,
     * caller does not own the token, zero price.
     */
    function UpdateListingCheck(caller: Address, nft: BasicNft, tokenId: nat, newPrice: Wei): (o: Outcome<Error>)
      reads this, nft
      requires nft.Valid()
      ensures o.Pass? <==> KeyOf(nft, tokenId) in listings && Owns(nft, tokenId, caller) && newPrice > 0
      ensures KeyOf(nft, tokenId) !in listings && Owns(nft, tokenId, caller) && newPrice > 0 ==> o == Fail(NotListed)
      ensures KeyOf(nft, tokenId) in listings && !Owns(nft, tokenId, caller) && newPrice > 0 ==> o == Fail(NotOwner)
      ensures KeyOf(nft, tokenId) in listings && Owns(nft, tokenId, caller) && newPrice == 0 ==> o == Fail(PriceMustBeAboveZero)
      ensures o.Fail? ==>
        || (o.error == NotListed && KeyOf(nft, tokenId) !in listings)
        || (o.error == NotOwner && !Owns(nft, tokenId, caller))
        || (o.error == PriceMustBeAboveZero && newPrice == 0)
    {
      if KeyOf(nft, tokenId) !in listings then Fail(NotListed)
      else if !Owns(nft, tokenId, caller) then Fail(NotOwner)
      else if newPrice == 0 then Fail(PriceMustBeAboveZero)
      else Pass
    }

    /** updateListing: the token's owner changes the price; the seller stays. */
    method UpdateListing(caller: Address, nft: BasicNft, tokenId: nat, newPrice: Wei) returns (r: Outcome<Error>)
      requires Valid() && nft.Valid()
      modifies this`listings, this`events
      ensures Valid()
      ensures r == old(UpdateListingCheck(caller, nft, tokenId, newPrice))
      ensures r.Pass? ==>
        var seller := old(listings)[KeyOf(nft, tokenId)].seller;
        && listings == old(listings)[KeyOf(nft, tokenId) := Listing(newPrice, seller)]
        && events == old(events) + [ItemListed(seller, nft.address, tokenId, newPrice)]
      ensures r.Fail? ==> unchanged(this)
    {
      r := UpdateListingCheck(caller, nft, tokenId, newPrice);
      if r.Pass? {
        var seller := listings[KeyOf(nft, tokenId)].seller;
        listings := listings[KeyOf(nft, tokenId) := Listing(newPrice, seller)];
        events := events + [ItemListed(seller, nft.address, tokenId, newPrice)];
      }
    }

    /** The token contract would let the marketplace move the listed token from its seller. */
    predicate SellerTransferable(nft: BasicNft, tokenId: nat)
      reads this, nft
      requires nft.Valid()
      requires KeyOf(nft, tokenId) in listings
    {
      nft.TransferCheck(address, listings[KeyOf(nft, tokenId)].seller, tokenId).Pass?
    }

    /**
     * Whether buyItem goes through. Checked in this order: not listed,
     * payment below the price, caller is the seller, and last the token
     * contract's own transfer.
     */
    function BuyItemCheck(caller: Address, nft: BasicNft, tokenId: nat, value: Wei): (o: Outcome<Error>)
      reads this, nft
      requires nft.Valid()
      ensures o.Pass? <==>
        && KeyOf(nft, tokenId) in listings
        && value >= listings[KeyOf(nft, tokenId)].price
        && caller != listings[KeyOf(nft, tokenId)].seller
        && SellerTransferable(nft, tokenId)
      ensures KeyOf(nft, tokenId) !in listings ==> o == Fail(NotListed)
      ensures KeyOf(nft, tokenId) in listings ==>
        var l := listings[KeyOf(nft, tokenId)];
        && (value < l.price && caller != l.seller && SellerTransferable(nft, tokenId) ==> o == Fail(PriceNotMet))
        && (value >= l.price && caller == l.seller && SellerTransferable(nft, tokenId) ==> o == Fail(NotOwner))
        && (value >= l.price && caller != l.seller && !SellerTransferable(nft, tokenId) ==> o == Fail(TokenTransferFailed))
        && (o.Fail? ==>
              || (o.error == PriceNotMet && value < l.price)
              || (o.error == NotOwner && caller == l.seller)
              || (o.error == TokenTransferFailed && !SellerTransferable(nft, tokenId)))
    {
      if KeyOf(nft, tokenId) !in listings then Fail(NotListed)
      else if value < listings[KeyOf(nft, tokenId)].price then Fail(PriceNotMet)
      else if caller == listings[KeyOf(nft, tokenId)].seller then Fail(NotOwner)
      else if !SellerTransferable(nft, tokenId) then Fail(TokenTransferFailed)
      else Pass
    }

    /**
     * buyItem: the caller pays at least the price; the offer is removed, the
     * seller is credited the price and the token moves to the caller.
     */
    method BuyItem(caller: Address, nft: BasicNft, tokenId: nat, value: Wei) returns (r: Outcome<Error>)
      requires Valid() && nft.Valid()
      modifies this`listings, this`proceeds, this`balance, this`received, this`events
      modifies nft`owners, nft`tokenApprovals
      ensures Valid() && nft.Valid()
      ensures r == old(BuyItemCheck(caller, nft, tokenId, value))
      ensures r.Pass? ==>
        var l := old(listings)[KeyOf(nft, tokenId)];
        && listings == old(listings) - {KeyOf(nft, tokenId)}
        && proceeds == old(proceeds)[l.seller := old(GetProceeds(l.seller)) + l.price]
        && balance == old(balance) + value
        && received == old(received) + value
        && nft.owners == old(nft.owners)[tokenId := caller]
        && nft.tokenApprovals == old(nft.tokenApprovals) - {tokenId}
        && events == old(events) + [ItemBought(caller, nft.address, tokenId, l.price)]
      ensures r.Fail? ==> unchanged(this) && unchanged(nft)
    {
      r := BuyItemCheck(caller, nft, tokenId, value);
      if r.Fail? {
        return;
      }
      var key := KeyOf(nft, tokenId);
      var l := listings[key];
      var credited := Ledger.Get(proceeds, l.seller) + l.price;
      Ledger.TotalUpdate(proceeds, l.seller, credited);
      listings := listings - {key};
      proceeds := proceeds[l.seller := credited];
      balance := balance + value;
      received := received + value;
      var t := nft.TransferFrom(address, l.seller, caller, tokenId);
      assert t.Pass?;
      events := events + [ItemBought(caller, nft.address, tokenId, l.price)];
    }

    /** withdrawProceeds: the caller is paid everything recorded for them and their record drops to 0. */
    method WithdrawProceeds(caller: Address) returns (r: Result<Wei, Error>)
      requires Valid()
      modifies this`proceeds, this`balance, this`paidOut
      ensures Valid()
      ensures r.Success? <==> old(GetProceeds(caller)) > 0
      ensures r.Failure? ==> r.error == NoProceeds && unchanged(this)
      ensures r.Success? ==>
        && r.value == old(GetProceeds(caller))
        && proceeds == old(proceeds)[caller := 0]
        && balance == old(balance) - r.value
        && paidOut == old(paidOut)[caller := Ledger.Get(old(paidOut), caller) + r.value]
    {
      var amount := GetProceeds(caller);
      if amount == 0 {
        return Failure(NoProceeds);
      }
      Ledger.TotalUpdate(proceeds, caller, 0);
      Ledger.TotalUpdate(paidOut, caller, Ledger.Get(paidOut, caller) + amount);
      proceeds := proceeds[caller := 0];
      balance := balance - amount;
      paidOut := paidOut[caller := Ledger.Get(paidOut, caller) + amount];
      r := Success(amount);
    }
  }
}

# NftMarketplace ledger in Dafny

This project models the NftMarketplace contract of the nft-marketplace
repository: a fixed-price sale ledger for ERC-721 tokens with pull-style
seller payouts. The Solidity contract is not part of this model; its
observable behaviour is fixed call by call by `test/NftMarketplace.test.js`,
and the model reconstructs the contract from those assertions.

- `eth.dfy`: module `Eth`, addresses (0 is the zero address) and wei amounts.
- `wrappers.dfy`: module `Wrappers`, `Result` and `Outcome`, the typed form of a revert.
- `ledger.dfy`: module `Ledger`, balance maps read with Solidity's mapping
  default (a missing entry is 0). It also defines their ghost `Total` and the
  lemmas that keep the proceeds accounting exact.
- `basic_nft.dfy`: module `Nft`, class `BasicNft`. It is the token contract
  the marketplace consults, reduced to `mintNft`, `getTokenCounter`, `ownerOf`,
  `approve`/`getApproved` and `transferFrom`. Its fields are updated in place.
- `marketplace.dfy`: module `Marketplace`, class `NftMarketplace`. Its fields are:
  - `listings`: a map from `(nftAddress, tokenId)` to `(price, seller)`;
  - `proceeds`: a map from seller to wei;
  - `balance`: the ether the contract holds;
  - `paidOut`: the ether each address has received from withdrawals;
  - `events`: the append-only event log.

  The five write operations are methods that take the sender and, for
  `buyItem`, the payment. `getListing` and `getProceeds` are functions. The
  revert decision of the four listing and purchase calls is a function `…Check`
  returning `Outcome<Error>`; a method passes exactly when its check does.
  `withdrawProceeds` decides inline, and its contract states that it succeeds
  exactly when the caller has proceeds. In every case a failing call leaves the whole
  object `unchanged`.
- `scenarios.dfy`: module `Scenarios`. Each in-scope test of the suite is replayed on
  freshly constructed contracts. The method's postcondition is the test's
  expectation: the revert reason, the emitted events, the new owner, or the
  proceeds. The mint `Transfer` event test and the `tokenURI` assertion are
  not replayed; they belong to the token contract's metadata and events.
- `properties.dfy`: module `Properties`. These are call sequences on an
  arbitrary valid state: relisting, double cancel, double purchase, double
  withdrawal. They also show that listing operations never touch proceeds.

The marketplace invariant `NftMarketplace.Valid` says, besides that the
contract's address is non-zero, three things:
- every stored listing has a positive price, so "listed" and "price > 0"
  coincide as `getListing` reports them;
- the recorded proceeds sum to no more than the ether the contract holds
  (solvency);
- the ether held plus the ether paid out equals the ether received.

Every method preserves it.

Each revert check states four things:
- the call passes if and only if every condition holds;
- for each error, that error is reported when its condition is the only one
  that fails;
- any error reported names a condition that actually fails;
- when several conditions fail, the body fixes which error is reported, in
  the order given below.

When several conditions fail, the error reported follows this order. Each
test makes exactly one condition fail, so the tests leave the order open.
- `listItem`: `AlreadyListed`, `NotOwner`, `PriceMustBeAboveZero`, `NotApprovedForMarketplace`.
- `cancelListing`: `NotOwner`, `NotListed`.
- `updateListing`: `NotListed`, `NotOwner`, `PriceMustBeAboveZero`.
- `buyItem`: `NotListed`, `PriceNotMet`, `NotOwner` (the caller is the seller), `TokenTransferFailed`.
- `withdrawProceeds`: `NoProceeds`.

`NotOwner` carries two opposite meanings. In `listItem`, `cancelListing` and
`updateListing` it means the caller is not the token's owner. In `buyItem` it
means the caller is the listing's seller. The model keeps the single error
kind, as the tests expect it (lines 75-80, 161-165, 197-201 against 137-143).

## Model

| member | source | states |
|---|---|---|
| `Nft.BasicNft.constructor` | test/NftMarketplace.test.js:13-16 | a freshly deployed token contract has minted nothing and approved nothing |
| `Nft.BasicNft.MintNft` | test/NftMarketplace.test.js:36-41 | mintNft gives the caller the next id, an id never minted before, and raises the counter by one |
| `Nft.MintedCount` | test/NftMarketplace.test.js:28-29 | when the minted ids are exactly 0 .. n-1 there are n tokens (induction on n) |
| `Nft.BasicNft.GetTokenCounter` | test/NftMarketplace.test.js:29 | the counter equals the number of minted tokens, and an id is minted iff it is below the counter |
| `Nft.BasicNft.OwnerOf` | test/NftMarketplace.test.js:32 | ownerOf succeeds exactly for minted ids and otherwise reverts with NonexistentToken |
| `Nft.BasicNft.GetApproved` | test/NftMarketplace.test.js:62-66 | getApproved succeeds exactly for minted ids and is non-zero iff an approval was recorded |
| `Nft.BasicNft.ApproveCheck` | test/NftMarketplace.test.js:52 | approve passes iff the caller owns the token; an unminted id reverts with NonexistentToken |
| `Nft.BasicNft.Approve` | test/NftMarketplace.test.js:52 | a passing approve records `to` as the token's one approved address and changes nothing else |
| `Nft.BasicNft.TransferCheck` | test/NftMarketplace.test.js:103-104 | transferFrom passes iff `from` owns the token and the operator is the owner or its approved address; each error names a failed condition |
| `Nft.BasicNft.TransferFrom` | test/NftMarketplace.test.js:103-104 | a passing transfer makes `to` the owner and clears the approval; a failing one changes nothing |
| `Ledger.TotalRemove` | test/NftMarketplace.test.js:246-258 | the total of all proceeds is any one seller's entry plus the total of the rest |
| `Ledger.TotalUpdate` | test/NftMarketplace.test.js:246-258 | overwriting one seller's proceeds changes the total by exactly the difference |
| `Ledger.EntryBounded` | test/NftMarketplace.test.js:220-231 | no seller's proceeds exceed the total owed |
| `Marketplace.NftMarketplace.constructor` | test/NftMarketplace.test.js:18-21 | a freshly deployed marketplace has no listings, no proceeds, no ether and no events, and is valid |
| `Marketplace.NftMarketplace.GetListing` | test/NftMarketplace.test.js:157-158 | getListing reports a positive price iff the key is listed, and price 0 with the zero seller otherwise |
| `Marketplace.NftMarketplace.GetProceeds` | test/NftMarketplace.test.js:98-107 | getProceeds is the seller's recorded amount (0 when none) and never exceeds the ether the contract holds |
| `Marketplace.NftMarketplace.ListItemCheck` | test/NftMarketplace.test.js:62-88 | listItem passes iff not yet listed, caller owns the token, price > 0 and the marketplace is approved; each lone failure gives its own error (NotApprovedForMarketplace, PriceMustBeAboveZero, NotOwner, AlreadyListed) |
| `Marketplace.NftMarketplace.ListItem` | test/NftMarketplace.test.js:51-60 | on success the key maps to (price, caller) and ItemListed(caller, nft, id, price) is appended; on revert nothing changes |
| `Marketplace.NftMarketplace.CancelListingCheck` | test/NftMarketplace.test.js:161-172 | cancelListing passes iff the caller owns the token and it is listed; a non-owner gets NotOwner, an unlisted key NotListed |
| `Marketplace.NftMarketplace.CancelListing` | test/NftMarketplace.test.js:152-159 | on success the listing is removed and ItemCanceled(seller, nft, id) is appended; on revert nothing changes |
| `Marketplace.NftMarketplace.UpdateListingCheck` | test/NftMarketplace.test.js:191-208 | updateListing passes iff listed, caller owns the token and the new price > 0; each lone failure gives NotListed, NotOwner or PriceMustBeAboveZero |
| `Marketplace.NftMarketplace.UpdateListing` | test/NftMarketplace.test.js:181-189 | on success only the price changes, the seller stays, and ItemListed(seller, nft, id, newPrice) is appended |
| `Marketplace.NftMarketplace.BuyItemCheck` | test/NftMarketplace.test.js:119-143 | buyItem passes iff listed, payment >= price, the caller is not the seller and the token contract accepts the transfer; unlisted gives NotListed, a lone short payment PriceNotMet, the seller buying NotOwner |
| `Marketplace.NftMarketplace.BuyItem` | test/NftMarketplace.test.js:97-117 | on success the listing is removed, the seller's proceeds rise by exactly the price, the caller owns the token, and ItemBought(caller, nft, id, price) is appended; solvency is kept; on revert neither contract changes |
| `Marketplace.NftMarketplace.WithdrawProceeds` | test/NftMarketplace.test.js:220-244 | succeeds iff the caller has proceeds; pays exactly that amount to the caller, sets the record to 0 and lowers the ether held by the same amount; otherwise NoProceeds and nothing changes |
| `Scenarios.Deploy` | test/NftMarketplace.test.js:9-25 | after deployment and one mint, token 0 belongs to the deployer and the marketplace is empty |
| `Scenarios.DeployAndList` | test/NftMarketplace.test.js:92-95 | after approve and listItem, token 0 is listed at PRICE by the deployer |
| `Scenarios.DeployListAndSell` | test/NftMarketplace.test.js:212-218 | after the buyer's purchase, the buyer owns token 0 and the deployer's proceeds are PRICE |
| `Scenarios.DeploymentInitialState` | test/NftMarketplace.test.js:28-33 | the counter is 1 and token 0 belongs to the deployer |
| `Scenarios.MintSecondToken` | test/NftMarketplace.test.js:37-41 | a second mint yields id 1 owned by the deployer and a counter of 2 |
| `Scenarios.ListSucceeds` | test/NftMarketplace.test.js:51-60 | listing emits ItemListed(deployer, nft, 0, PRICE) and getListing returns (PRICE, deployer) |
| `Scenarios.ListWithoutApproval` | test/NftMarketplace.test.js:62-66 | listing without approval reverts with NotApprovedForMarketplace |
| `Scenarios.ListAtZeroPrice` | test/NftMarketplace.test.js:68-73 | listing at price 0 reverts with PriceMustBeAboveZero |
| `Scenarios.ListByNonOwner` | test/NftMarketplace.test.js:75-80 | listing by the buyer reverts with NotOwner |
| `Scenarios.ListTwice` | test/NftMarketplace.test.js:82-88 | listing a listed token reverts with AlreadyListed |
| `Scenarios.BuySucceeds` | test/NftMarketplace.test.js:97-108 | after the purchase the buyer owns the token and the seller's proceeds grew by PRICE |
| `Scenarios.BuyEmitsItemBought` | test/NftMarketplace.test.js:110-117 | the purchase emits exactly ItemBought(buyer, nft, 0, PRICE) |
| `Scenarios.BuyBelowPrice` | test/NftMarketplace.test.js:119-126 | paying 0.05 ether for a 0.1 ether listing reverts with PriceNotMet |
| `Scenarios.BuyAfterCancel` | test/NftMarketplace.test.js:128-135 | buying a cancelled listing reverts with NotListed |
| `Scenarios.BuyOwnListing` | test/NftMarketplace.test.js:137-143 | the seller buying their own listing reverts with NotOwner |
| `Scenarios.CancelSucceeds` | test/NftMarketplace.test.js:152-159 | cancelling emits exactly ItemCanceled(deployer, nft, 0) and getListing then reports price 0 |
| `Scenarios.CancelByNonOwner` | test/NftMarketplace.test.js:161-165 | cancelling by the buyer reverts with NotOwner |
| `Scenarios.CancelTwice` | test/NftMarketplace.test.js:167-172 | a second cancel reverts with NotListed |
| `Scenarios.UpdateSucceeds` | test/NftMarketplace.test.js:181-189 | updating emits exactly ItemListed(deployer, nft, 0, 0.2 ether) and getListing then reports 0.2 ether |
| `Scenarios.UpdateToZero` | test/NftMarketplace.test.js:191-195 | updating to price 0 reverts with PriceMustBeAboveZero |
| `Scenarios.UpdateByNonOwner` | test/NftMarketplace.test.js:197-201 | updating by the buyer reverts with NotOwner |
| `Scenarios.UpdateAfterCancel` | test/NftMarketplace.test.js:203-208 | updating a cancelled listing reverts with NotListed |
| `Scenarios.WithdrawSucceeds` | test/NftMarketplace.test.js:220-232 | the deployer's recorded proceeds are PRICE and their wallet grows by exactly that amount |
| `Scenarios.WithdrawWithoutProceeds` | test/NftMarketplace.test.js:234-238 | an account with no proceeds gets NoProceeds |
| `Scenarios.WithdrawClearsProceeds` | test/NftMarketplace.test.js:240-244 | after withdrawal getProceeds reports 0 |
| `Scenarios.MultipleSalesProceeds` | test/NftMarketplace.test.js:246-259 | two sales at PRICE leave the deployer's proceeds at 2 * PRICE |
| `Properties.ListTwice` | test/NftMarketplace.test.js:82-88 | on any valid state, after a successful listItem getListing returns (price, caller) and a second listItem at any price reverts with AlreadyListed |
| `Properties.CancelTwice` | test/NftMarketplace.test.js:167-172 | on any valid state, after a successful cancel the price reads 0 and a second cancel reverts with NotListed |
| `Properties.BuyTwice` | test/NftMarketplace.test.js:128-135 | on any valid state, after a successful purchase a second purchase reverts with NotListed |
| `Properties.WithdrawTwice` | test/NftMarketplace.test.js:240-244 | on any valid state, after a withdrawal the caller's proceeds are 0 and a second withdrawal reverts with NoProceeds |
| `Properties.ListingLeavesProceeds` | test/NftMarketplace.test.js:246-258 | listItem, updateListing and cancelListing leave the proceeds and the ether held unchanged |

## Left out

- The Solidity source of NftMarketplace and BasicNft (`contracts/`) is not part of this model. The marketplace is rebuilt from its test suite. BasicNft is rebuilt as the part of OpenZeppelin's ERC-721 the tests reach.
- BasicNft: `tokenURI`, the ERC-721 `Transfer` event, `setApprovalForAll`, `safeTransferFrom`'s receiver callback, and the zero-address and self-approval checks of `approve` and `transfer` are not modelled. The tests observe none of them on the ledger.
- Nft.BasicNft.GetApproved: its own contract only says whether an approval is recorded, not which address it returns. The returned address is stated by the methods that set it: `Approve` ensures `GetApproved(tokenId) == Success(to)` and `TransferFrom` ensures it reads the zero address afterwards.
- Marketplace.NftMarketplace.ListItemCheck: for a token that was never minted, the real `ownerOf` reverts with the token contract's own reason. The model reports `NotOwner` there, since the caller does not own such a token. `CancelListingCheck` does the same; `UpdateListingCheck` reports `NotListed`, because its listing check runs first and an unminted token is never listed.
- Marketplace.NftMarketplace.BuyItem: an overpayment is credited as the listing price, and the excess stays in the contract's balance. The tests only pay the exact price, so the contract is stated as solvency (`Total(proceeds) <= balance`), not as equality between proceeds and receipts.
- `TokenTransferFailed` is the one error kind beyond the suite's seven. It stands for the token contract's `transferFrom` reverting inside `buyItem`, for instance after the seller revoked the approval. The EVM then reverts the whole purchase; the tests never reach this case.
- Marketplace.NftMarketplace.WithdrawProceeds: the ether transfer to the caller always succeeds. A failing transfer and its rollback, reentrancy and the order of effects inside a call are not modelled, because each call is atomic here.
- Gas is not modelled. A wallet is represented only by what the marketplace has paid it (`paidOut`). Payments into the marketplace are not debited from any wallet.
- Ether amounts are exact `nat` wei. `parseEther` is written out as constants, and 256-bit overflow is not modelled because the amounts involved are far below it.
- The frontend page, its tests, the deployment script and the constants file are out of scope. They only read the ledger. The page's rule of skipping listings whose price is 0 agrees with `getListing`.
- The token contract is passed to each call as the `BasicNft` object deployed at `nftAddress`. It is assumed that no two token contracts share an address.

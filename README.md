# Anticca Reale, modelled in Dafny

Anticca Reale is an antiques marketplace: a React storefront on Firebase with fixed-price
products and timed auctions, Shopier card payments handled by Cloud Functions, a cart and
order history, a blog, and an admin area. This project models its core logic and proves
properties about it. The core covers:

- the auction settlement engine: `placeBid`, `buyNowPurchase` and the bid feed;
- the payment and order status machine: the Shopier webhook, the return callback, and the
  one-order and all-pending synchronisations;
- the lifecycle classifiers the pages compute from the clock, and how they relate;
- the catalogue's filter, sort and limit pipeline;
- the helpers and form handlers of the storefront and admin pages.

Each module follows one source file or component:

| module | file | models |
|---|---|---|
| `Seqs` | seqs.dfy | `Array.prototype.filter`, `slice(0, n)` and a descending sort, with their lemmas |
| `Text` | text.dfy | `toLowerCase` (ASCII and Turkish letters), `\s`, `trim`, `split`/`join`, number printing |
| `Types` | types.dfy | the records, enumerations, constant lists and blog type guards of `src/types/index.ts` |
| `Bidding` | bidding.dfy | `placeBid`, `buyNowPurchase` and `useBidHistory` as a class `AuctionStore` with a product map and a bid ledger per product |
| `Lifecycle` | lifecycle.dfy | the shared upcoming/live/ended classifier |
| `AuctionSection` | auction_section.dfy | the auction panel: status flags, `nextMinBid`, which controls are shown, and `handleBid`/`handleBuyNow` |
| `AdminAuctions` | admin_auctions.dfy | the admin auction list and its status badge |
| `AuctionsPage` | auctions_page.dfy | the live/upcoming/ended groups of the auctions page |
| `HomePage` | home_page.dfy | the home page's live strip, featured products and featured shops |
| `Catalog` | catalog.dfy | `useProducts` |
| `Slug` | slug.dfy | `generateSlug` |
| `Payments` | payments.dfy | the Cloud Functions, as a class `PaymentStore` with the `payments` and `orders` collections |
| `OrdersPage` | orders.dfy | order steps, active/completed sets, tabs, counts and the timeline |
| `CartPage` | checkout.dfy | the order and payment request built at checkout, and the quantity button guard |
| `ProductFilters` | product_filters.dfy | the filter panel and its price slider |
| `Seo` | seo.dfy | the SEO head |
| `BlogDetail` | blog.dfy | the video embed URL, the gallery and the lightbox |
| `ProductDetail` | product_detail.dfy | both copies of the product page: the carousel, the quantity selector, add-to-cart and related products |
| `Register` | register.dfy | the registration form |
| `AdminProduct` | admin_product.dfy | the admin product editor |

Modelling conventions:

- Times are integer milliseconds.
  - The clock is a parameter `now`.
  - A stored time is `Option<int>`, and a missing one reads as the epoch, as the code's `parseDate` and `|| 0` do.
- Numeric product fields the code tests by truthiness are `int`, with 0 meaning absent. These are `startingBid`, `minimumBidIncrement`, `buyNowPrice` and `currentHighestBid`.
- Each Firestore transaction or handler is one atomic step on the store. Concurrent calls are the orderings of such steps (`Bidding.Run`).
- The signature HMAC is a function-typed parameter. Random strings, fetched Shopier data and upload results are parameters.
- Where a page updates React state, the page is a class. Its fields are the state, and its handlers are methods proved against the pure functions that the lemmas are about.

Facts about the code that the model keeps:

- A bid is accepted at `now == endTime`. The code rejects only `now > endTime`, so both
  ends of the auction window are inclusive.
- Buy-now checks only the end of the window, not its start. It is accepted before an
  auction starts, although the panel does not offer it then
  (`AuctionSection.BuyNowBeforeStartIsAcceptedButNotOffered`).
- With no bid yet, any first bid at or above `startingBid` is accepted. The floor is not
  `startingBid + increment`.
- The server's default increment is 0. The panel's default is 100.
- The bid and buy-now transactions have no retry loop and no "conflict" error of their
  own. Firestore's transaction retry is library code.

## Model

| member | source | states |
|---|---|---|
| Bidding.FloorWithoutBid | AnticcaReale-main/src/hooks/useFirestore.ts:428-437 | with no current bid the floor is the starting bid itself, not starting bid plus increment |
| Bidding.BidCheck | AnticcaReale-main/src/hooks/useFirestore.ts:414-443 | a bid passes iff the product is an auction, in stock, inside the inclusive window, at or above the floor and, when buy-now is set, below it; the stock check precedes the clock; a bid below the floor is reported as such even when it is also above buy-now |
| Bidding.ExtendedEnd | AnticcaReale-main/src/hooks/useFirestore.ts:446-454 | a bid landing less than two minutes before a present end moves the end exactly two minutes later; any other bid keeps the end; so a bid placed before the end always leaves at least two minutes to answer it |
| Bidding.BidOutcome | AnticcaReale-main/src/hooks/useFirestore.ts:405-474 | a bid succeeds iff a user is signed in, the product exists and the checks pass; on success the highest bid and bidder become the bid's, the end is the anti-sniping end, and nothing else (stock included) changes |
| Bidding.BuyNowOutcome | AnticcaReale-main/src/hooks/useFirestore.ts:484-522 | a buy-now succeeds iff signed in, an auction with a buy-now price, in stock and not past the end; a sold-out item fails with out-of-stock; on success stock is 0, the price is the buy-now price, the buyer is the bidder, the end is now, and nothing else changes |
| Bidding.AuctionStore.constructor | AnticcaReale-main/src/hooks/useFirestore.ts:408-409 | the store starts from the given products with empty bid ledgers |
| Bidding.AuctionStore.PlaceBid | AnticcaReale-main/src/hooks/useFirestore.ts:405-481 | a rejected bid writes nothing and returns the error; an accepted one replaces exactly that product by `BidOutcome` and appends exactly one non-buy-now record with the amount and bidder to that product's ledger |
| Bidding.AuctionStore.BuyNow | AnticcaReale-main/src/hooks/useFirestore.ts:484-529 | as `PlaceBid`, with `BuyNowOutcome` and one buy-now record at the buy-now price |
| Bidding.RaceOfTwoBuyNows | AnticcaReale-main/src/hooks/useFirestore.ts:497-509 | of two buy-nows on one product in either order, if the first succeeds the second fails with out-of-stock; never both succeed |
| Bidding.BuyNowIsTerminal | AnticcaReale-main/src/hooks/useFirestore.ts:497-512 | after a successful buy-now, every later sequence of bids and buy-nows leaves the product unchanged, and each signed-in attempt fails with out-of-stock |
| Bidding.SoldStaysSold | AnticcaReale-main/src/hooks/useFirestore.ts:418-419 | a sold-out auction is unchanged by any sequence of calls |
| Bidding.StepNeverLowersPrice | AnticcaReale-main/src/hooks/useFirestore.ts:428-464 | on a well-configured auction one call never lowers the highest bid, never moves a bid's end backwards, and keeps the configuration |
| Bidding.RunNeverLowersPrice | AnticcaReale-main/src/hooks/useFirestore.ts:428-464 | any sequence of calls on a well-configured auction never lowers the highest bid |
| Bidding.BidFeed | AnticcaReale-main/src/hooks/useFirestore.ts:385 | the feed holds min(20, ledger size) bids of the ledger, ordered by amount, highest first |
| Bidding.FeedIsTopOfLedger | AnticcaReale-main/src/hooks/useFirestore.ts:385 | every bid left out of the feed is at or below every bid in it |
| Bidding.StepKeepsLedger | AnticcaReale-main/src/hooks/useFirestore.ts:456-474 | each call keeps the ledger in step with the product: no bid above the highest bid, and the latest bid is the highest |
| Bidding.FeedHeadIsHighestBid | AnticcaReale-main/src/hooks/useFirestore.ts:385 | the first bid of the feed is the product's current highest bid |
| AuctionSection.IsLive | AnticcaReale-main/AnticcaReale-main/src/components/product/AuctionSection.tsx:34-36 | live iff inside the inclusive window and in stock, i.e. the shared classifier says live and stock is positive |
| AuctionSection.SuggestedBidClearsFloor | AnticcaReale-main/AnticcaReale-main/src/components/product/AuctionSection.tsx:38-40 | the prefilled bid is never below the server's floor; it equals the floor unless the increment is unset and a bid exists, where the panel's default of 100 puts it 100 higher |
| AuctionSection.SuggestedBidIsAccepted | AnticcaReale-main/AnticcaReale-main/src/components/product/AuctionSection.tsx:38-61 | on a live auction the prefilled bid is accepted by `placeBid` unless it reaches the buy-now price |
| AuctionSection.ViewOf | AnticcaReale-main/AnticcaReale-main/src/components/product/AuctionSection.tsx:98-181 | the sold view iff stock is gone; otherwise the bid form iff the window contains now, and the buy-now button iff buy-now is set and the window contains now |
| AuctionSection.OfferedControlsAreHonoured | AnticcaReale-main/AnticcaReale-main/src/components/product/AuctionSection.tsx:158-181 | an offered buy-now button succeeds; with the bid form shown, a bid succeeds exactly when it clears the floor and stays below buy-now |
| AuctionSection.BuyNowBeforeStartIsAcceptedButNotOffered | AnticcaReale-main/src/hooks/useFirestore.ts:497-503 | before the start the panel offers neither control, yet `buyNowPurchase` accepts the purchase |
| AuctionSection.AuctionPanel.constructor | AnticcaReale-main/AnticcaReale-main/src/components/product/AuctionSection.tsx:30-40 | the panel starts with no error, not loading, no success |
| AuctionSection.AuctionPanel.HandleBid | AnticcaReale-main/AnticcaReale-main/src/components/product/AuctionSection.tsx:46-64 | without a user, sets the sign-in message and leaves the store alone; otherwise the store changes exactly as `PlaceBid` and the panel shows success or the error |
| AuctionSection.AuctionPanel.HandleBuyNow | AnticcaReale-main/AnticcaReale-main/src/components/product/AuctionSection.tsx:66-86 | without a user, the sign-in message; an unconfirmed dialog changes nothing; otherwise the store changes exactly as `BuyNow` |
| AdminAuctions.AuctionList | AnticcaReale-main/src/pages/admin/AdminAuctions.tsx:30 | only auctions are listed |
| AdminAuctions.AuctionListIsExact | AnticcaReale-main/src/pages/admin/AdminAuctions.tsx:30 | a product is listed iff fetched and an auction; a list of auctions is kept whole |
| AdminAuctions.AuctionStatus | AnticcaReale-main/src/pages/admin/AdminAuctions.tsx:46-61 | 'Unknown' iff a time is missing or zero; otherwise the shared classifier's phase; live iff both times are set and now is within them |
| AdminAuctions.InvertedWindowIsUpcoming | AnticcaReale-main/src/pages/admin/AdminAuctions.tsx:58-59 | a window whose end precedes its start shows 'upcoming' between the two, because the start is checked first |
| AuctionsPage.LiveAuctions | AnticcaReale-main/AnticcaReale-main/src/pages/AuctionsPage.tsx:28-32 | every listed product's window contains now; the list is drawn from the products |
| AuctionsPage.UpcomingAuctions | AnticcaReale-main/AnticcaReale-main/src/pages/AuctionsPage.tsx:34-37 | every listed product starts after now |
| AuctionsPage.EndedAuctions | AnticcaReale-main/AnticcaReale-main/src/pages/AuctionsPage.tsx:39-42 | every listed product ended before now |
| AuctionsPage.ShownEnded | AnticcaReale-main/AnticcaReale-main/src/pages/AuctionsPage.tsx:130 | the first min(4, n) of the n ended auctions |
| AuctionsPage.GroupMembership | AnticcaReale-main/AnticcaReale-main/src/pages/AuctionsPage.tsx:28-42 | each group holds exactly the products meeting its condition |
| AuctionsPage.GroupsOfOneProduct | AnticcaReale-main/AnticcaReale-main/src/pages/AuctionsPage.tsx:28-42 | live excludes upcoming and ended; with start at or before end a product is in exactly one group; live agrees with the shared classifier |
| AuctionsPage.InvertedWindowIsListedTwice | AnticcaReale-main/AnticcaReale-main/src/pages/AuctionsPage.tsx:34-42 | with the end before the start, a product between them is both upcoming and ended |
| AuctionsPage.GroupsPartitionListing | AnticcaReale-main/AnticcaReale-main/src/pages/AuctionsPage.tsx:28-42 | when every window is ordered, the three group sizes add up to the number of products |
| AuctionsPage.PageAndPanelAgreeOnStock | AnticcaReale-main/AnticcaReale-main/src/components/product/AuctionSection.tsx:34-36 | in stock, the page's live group and the panel's live flag agree; sold out, the panel is never live and shows the sold view while the page may list it as live |
| AuctionsPage.PageAndAdminAgree | AnticcaReale-main/src/pages/admin/AdminAuctions.tsx:56-60 | a known admin badge puts the product in the matching page group, and a known badge for a page-live product is live |
| HomePage.LiveAuctionStrip | AnticcaReale-main/src/pages/HomePage.tsx:26-32 | the first min(3, n) of the n auctions whose window contains now, in listing order |
| HomePage.StripMembership | AnticcaReale-main/src/pages/HomePage.tsx:26-32 | everything in the strip is a live auction from the products; with at most three live auctions the strip holds exactly those, with more it holds three |
| HomePage.FeaturedProducts | AnticcaReale-main/src/pages/HomePage.tsx:34 | the first min(8, n) of the n products that are not auctions, in listing order |
| HomePage.FeaturedMembership | AnticcaReale-main/src/pages/HomePage.tsx:34 | everything in the grid is a fixed-price product; with at most eight of them the grid holds exactly those, with more it holds eight |
| HomePage.FeaturedShops | AnticcaReale-main/src/pages/HomePage.tsx:15 | the first min(4, n) shops |
| HomePage.StripAndFeaturedAreDisjoint | AnticcaReale-main/src/pages/HomePage.tsx:26-34 | no product is both in the live strip and featured |
| HomePage.StripIsTopOfAuctionsPage | AnticcaReale-main/src/pages/HomePage.tsx:26-32 | over auctions only, the strip is the first three of the auctions page's live group |
| HomePage.DisplayedPriceIsFeedHead | AnticcaReale-main/src/pages/HomePage.tsx:184 | once bid on, the displayed price is the top of the bid feed |
| Catalog.Limit | AnticcaReale-main/src/hooks/useFirestore.ts:161-163 | a prefix of the list: whole for a zero count, `min(n, size)` for a positive one, `size + n` (at least 0) for a negative one |
| Catalog.CatalogueContract | AnticcaReale-main/src/hooks/useFirestore.ts:122-163 | the list holds only active products passing every set filter, no product more often than the store, in the requested order, at most `limitCount` of them, and with no limit every matching product |
| Catalog.NarrowStep | AnticcaReale-main/src/hooks/useFirestore.ts:123-147 | each conditional filter step turns the products passing the earlier steps into those passing one step more |
| Catalog.UseProducts | AnticcaReale-main/src/hooks/useFirestore.ts:103-168 | the step-by-step pipeline publishes exactly `Catalogue` |
| Slug.FoldAll | AnticcaReale-main/src/hooks/useFirestore.ts:750-755 | none of ğ, ü, ş, ı, ö, ç is left, each becomes an ASCII lower-case letter, every other character is kept |
| Slug.FoldIdempotent | AnticcaReale-main/src/hooks/useFirestore.ts:750-755 | folding a folded text changes nothing |
| Slug.CollapseRuns | AnticcaReale-main/src/hooks/useFirestore.ts:757-758 | equals a one-pass scan in which a class character becomes the replacement when it starts a run and vanishes when it continues one, and every other character is copied in order: each maximal run becomes exactly one replacement |
| Slug.CollapseKeepsOthers | AnticcaReale-main/src/hooks/useFirestore.ts:757-758 | every character outside the run class and other than the replacement survives collapsing, in order |
| Slug.CollapseSeparates | AnticcaReale-main/src/hooks/useFirestore.ts:757-758 | after collapsing, no two class characters are adjacent |
| Slug.CollapseKeeps | AnticcaReale-main/src/hooks/useFirestore.ts:757-758 | collapsing keeps an alphabet that contains the replacement |
| Slug.CollapseNone | AnticcaReale-main/src/hooks/useFirestore.ts:757-758 | a text without class characters is unchanged |
| Slug.CollapseSingles | AnticcaReale-main/src/hooks/useFirestore.ts:758 | a text whose class characters are isolated replacements is unchanged |
| Slug.UntrimmedIsSlugShaped | AnticcaReale-main/src/hooks/useFirestore.ts:748-758 | before the trim, the slug uses only `a-z`, `0-9` and `-` and never holds `--` |
| Slug.TrimSlugShaped | AnticcaReale-main/src/hooks/useFirestore.ts:759 | trimming such a text changes nothing |
| Slug.TrimNeverApplies | AnticcaReale-main/src/hooks/useFirestore.ts:759 | the final `trim` never changes the slug |
| Slug.SlugKeepsLettersAndDigits | AnticcaReale-main/src/hooks/useFirestore.ts:749-759 | the slug holds exactly the letters and digits of the lower-cased, folded title, in order |
| Slug.SlugAlphabet | AnticcaReale-main/src/hooks/useFirestore.ts:748-760 | the slug uses only `a-z`, `0-9` and `-` and never holds `--` |
| Slug.SlugShapedIsFixed | AnticcaReale-main/src/hooks/useFirestore.ts:748-760 | a text already of that shape is its own slug |
| Slug.SlugIdempotent | AnticcaReale-main/src/hooks/useFirestore.ts:748-760 | slugging a slug changes nothing |
| Slug.LeadingSpaceLeavesLeadingDash | AnticcaReale-main/src/hooks/useFirestore.ts:756-759 | a title starting with white space gives a slug starting with `-` |
| Slug.LeadingSpaceSurvivesFolding | AnticcaReale-main/src/hooks/useFirestore.ts:749-755 | lowercasing and folding keep a leading white-space character |
| Slug.LeadingSpaceIsKept | AnticcaReale-main/src/hooks/useFirestore.ts:756 | removing disallowed characters keeps a leading white-space character |
| Slug.TrimmedSlugIsClean | AnticcaReale-main/src/hooks/useFirestore.ts:748-760 | the slug with edge hyphens stripped keeps the alphabet, has no `--`, neither starts nor ends with `-`, and is idempotent |
| Slug.StripDashes | AnticcaReale-main/src/hooks/useFirestore.ts:759 | stripping edge hyphens from a slug-shaped text leaves a slug-shaped text without edge hyphens |
| Slug.StripDashesOfClean | AnticcaReale-main/src/hooks/useFirestore.ts:759 | stripping edge hyphens from a text without them changes nothing |
| Slug.SliceIsSlugShaped | AnticcaReale-main/src/hooks/useFirestore.ts:748-760 | every slice of a slug-shaped text is slug-shaped |
| Payments.Webhook | AnticcaReale-main/firebase-functions/src/index.ts:272-370 | writes only for an authentic POST naming a known payment not yet processed under this payment id, and then only that payment and its order, keeping every key; the payment becomes completed or failed and the order paid (with the transaction id) or cancelled by the status; a forged signature returns 400 with no writes; an unknown payment returns 404 with no writes |
| Payments.WebhookIdempotent | AnticcaReale-main/firebase-functions/src/index.ts:325-330 | delivering a processed notification again is answered 'already processed' and writes nothing |
| Payments.MissingPaymentIdIsIgnored | AnticcaReale-main/firebase-functions/src/index.ts:325-330 | a notification without a payment id, for a payment never processed, is taken as already processed |
| Payments.Callback | AnticcaReale-main/firebase-functions/src/index.ts:378-477 | a present signature that fails verification sends the fail page with no writes; a non-success status writes nothing; the only order status change is that order from awaiting payment to paid; the success page is shown iff the status is success and the signature did not fail; on the success page with an order id, the writes are exactly those of the success branch: the payment marked received with status success, its payment id, installment and time, and an order awaiting payment moved to paid with its transaction id and times |
| Payments.CallbackFirstLeavesPaymentPending | AnticcaReale-main/firebase-functions/src/index.ts:325-330 | when the callback beats the webhook, the order is paid but the webhook then sees the payment id already stored and the payment record stays pending |
| Payments.SyncOne | AnticcaReale-main/firebase-functions/src/index.ts:489-574 | an order's status changes iff it is the requested, awaiting-payment order of an authorised POST and Shopier reports it paid, and then it becomes paid; no other order changes |
| Payments.SyncAllResults | AnticcaReale-main/firebase-functions/src/index.ts:597-621 | one result per pending order, in order, each synced iff Shopier reports it paid |
| Payments.SyncAllMarksOnlyPaid | AnticcaReale-main/firebase-functions/src/index.ts:597-621 | only pending orders that Shopier reports paid change, and each of them becomes paid |
| Payments.SyncAllStep | AnticcaReale-main/firebase-functions/src/index.ts:599-619 | one more pending order extends the results by its own and updates only that order |
| Payments.FirstName | AnticcaReale-main/firebase-functions/src/index.ts:187 | the first name is never empty and holds no space |
| Payments.BuyerNameRoundTrip | AnticcaReale-main/firebase-functions/src/index.ts:187-188 | for a name not starting with a space, first name, a space and last name give the name back; a one-word name has an empty last name |
| Payments.PaymentStore.constructor | AnticcaReale-main/firebase-functions/src/index.ts:17-20 | the store starts from the given collections |
| Payments.PaymentStore.CreateShopierPayment | AnticcaReale-main/firebase-functions/src/index.ts:149-264 | a payment is created iff the request is a configured POST with order id, amount, buyer and buyer e-mail; a configured POST missing one is rejected as missing fields; creation writes one pending payment record keyed by the order id and touches no order |
| Payments.PaymentStore.HandleWebhook | AnticcaReale-main/firebase-functions/src/index.ts:272-370 | the reply and both collections are exactly `Webhook`'s |
| Payments.PaymentStore.HandleCallback | AnticcaReale-main/firebase-functions/src/index.ts:378-477 | the reply and both collections are exactly `Callback`'s |
| Payments.PaymentStore.SyncOrderStatus | AnticcaReale-main/firebase-functions/src/index.ts:489-574 | payments untouched; the reply and orders are exactly `SyncOne`'s |
| Payments.PaymentStore.SyncAllPendingOrders | AnticcaReale-main/firebase-functions/src/index.ts:580-629 | fails without an access token and changes nothing; otherwise the results are `SyncAllResults` and the orders `SyncAll` of the pending list |
| OrdersPage.FindIndex | AnticcaReale-main/src/pages/OrdersPage.tsx:54 | the first position of the status, or -1 exactly when it is absent |
| OrdersPage.StepIndexContract | AnticcaReale-main/src/pages/OrdersPage.tsx:25-56 | -1 exactly for cancelled; otherwise the step at that index is the status; the five steps are numbered 0 to 4 |
| OrdersPage.ActiveOrCompleted | AnticcaReale-main/src/pages/OrdersPage.tsx:58-64 | every order is active or completed and never both; active exactly for the first four steps |
| OrdersPage.TabsContract | AnticcaReale-main/src/pages/OrdersPage.tsx:180-184 | 'all' shows every order; 'active' and 'completed' show exactly the matching orders in order |
| OrdersPage.CountsAddUp | AnticcaReale-main/src/pages/OrdersPage.tsx:186-187 | the active and completed counts add up to the number of orders |
| OrdersPage.TimelineOf | AnticcaReale-main/src/pages/OrdersPage.tsx:97-100 | a cancelled banner iff cancelled; otherwise five steps, step k marked completed iff k is at most the status's index |
| OrdersPage.TimelineMarksProgress | AnticcaReale-main/src/pages/OrdersPage.tsx:97-100 | the completed steps form a prefix that includes the first, and exactly the status's step is current |
| CartPage.OrderItems | AnticcaReale-main/src/pages/CartPage.tsx:48-56 | one order line per cart line in order, copying product id, name, shop, quantity and the product's price |
| CartPage.PaymentProductNameContract | AnticcaReale-main/src/pages/CartPage.tsx:78-80 | one line gives its product's name; otherwise 'Anticca Sipariş (n ürün)' whose digits spell the number of lines |
| CartPage.IncreaseStaysInStock | AnticcaReale-main/src/pages/CartPage.tsx:207-208 | the enabled increase button never takes a quantity above the stock |
| CartPage.Checkout.constructor | AnticcaReale-main/src/pages/CartPage.tsx:32-41 | the page starts idle with no error, no navigation and no payment |
| CartPage.Checkout.HandleShopierCheckout | AnticcaReale-main/src/pages/CartPage.tsx:32-99 | signed out, navigates to login and creates nothing; missing name or e-mail sets the message and creates nothing; neither early return touches the loading flag; otherwise appends one awaiting-payment order with the cart's lines and total, empties the cart and hands over the payment request with the product name and the address or 'Adres belirtilmemiş', without navigating |
| ProductFilters.OrUndefined | AnticcaReale-main/src/components/product/ProductFilters.tsx:36 | a value becomes absent iff it is empty |
| ProductFilters.UpdateFilter | AnticcaReale-main/src/components/product/ProductFilters.tsx:35-37 | only the edited key changes, an empty value becoming absent |
| ProductFilters.ApplyPriceFilter | AnticcaReale-main/src/components/product/ProductFilters.tsx:39-45 | minimum set iff above 0, maximum set iff below 500000, everything else unchanged |
| ProductFilters.ResetClearsFilters | AnticcaReale-main/src/components/product/ProductFilters.tsx:47-58 | the reset filters are inactive and sorted by newest; applying the full range sets no price bound |
| ProductFilters.ApplyThenReadBack | AnticcaReale-main/src/components/product/ProductFilters.tsx:30-45 | an applied range inside [0, 500000] is read back by the slider unchanged |
| ProductFilters.PriceSlider.constructor | AnticcaReale-main/src/components/product/ProductFilters.tsx:23-24 | the slider starts at the filters' bounds, 0 and 500000 when absent |
| ProductFilters.PriceSlider.MoveMin | AnticcaReale-main/src/components/product/ProductFilters.tsx:139-142 | the minimum moves only below the maximum, so min < max is kept |
| ProductFilters.PriceSlider.MoveMax | AnticcaReale-main/src/components/product/ProductFilters.tsx:151-154 | the maximum moves only above the minimum, so min < max is kept |
| ProductFilters.PriceSlider.Reset | AnticcaReale-main/src/components/product/ProductFilters.tsx:47-51 | publishes `{sortBy: 'newest'}` and resets the range to [0, 500000] |
| ProductFilters.PriceSlider.Sync | AnticcaReale-main/src/components/product/ProductFilters.tsx:30-33 | the slider follows new filters |
| Seo.FullTitle | AnticcaReale-main/src/components/seo/SEO.tsx:26-28 | the title always names the site and starts with the given title; it is the given title when that already names the site, and otherwise the title followed by ` \| Anticca` |
| Seo.FullTitleIdempotent | AnticcaReale-main/src/components/seo/SEO.tsx:26-28 | normalising a normalised title changes nothing |
| Seo.CanonicalUrl | AnticcaReale-main/src/components/seo/SEO.tsx:29 | present iff a non-empty path is given, and then the site URL followed by the path |
| Seo.Image | AnticcaReale-main/src/components/seo/SEO.tsx:30 | never empty: the given image, or the logo when none is given |
| Seo.JsonLdArray | AnticcaReale-main/src/components/seo/SEO.tsx:57 | one object becomes a one-element array; an array is kept |
| Seo.JsonLdArrayIdempotent | AnticcaReale-main/src/components/seo/SEO.tsx:57 | normalising an array again changes nothing |
| Seo.SeoHead | AnticcaReale-main/src/components/seo/SEO.tsx:17-61 | the page, Open Graph and Twitter titles agree, as do the two images and the canonical and Open Graph URLs; `noindex`, the type default and the JSON-LD array follow the props |
| BlogDetail.YoutubeSearch | AnticcaReale-main/src/pages/BlogDetailPage.tsx:47 | a found YouTube id has 11 id characters |
| BlogDetail.DigitRun | AnticcaReale-main/src/pages/BlogDetailPage.tsx:52 | the longest digit prefix |
| BlogDetail.VimeoSearch | AnticcaReale-main/src/pages/BlogDetailPage.tsx:52 | a found Vimeo id is a non-empty digit run |
| BlogDetail.VideoEmbedUrlContract | AnticcaReale-main/src/pages/BlogDetailPage.tsx:45-57 | a URL with no match is kept; the leftmost YouTube match gives the embed URL; with no YouTube match, the leftmost Vimeo match gives the player URL |
| BlogDetail.YoutubeLeftmost | AnticcaReale-main/src/pages/BlogDetailPage.tsx:47 | the search finds the leftmost YouTube match |
| BlogDetail.YoutubeNone | AnticcaReale-main/src/pages/BlogDetailPage.tsx:47 | the search fails when nothing matches |
| BlogDetail.VimeoLeftmost | AnticcaReale-main/src/pages/BlogDetailPage.tsx:52 | the search finds the leftmost Vimeo match |
| BlogDetail.VimeoNone | AnticcaReale-main/src/pages/BlogDetailPage.tsx:52 | the search fails when nothing matches |
| BlogDetail.GalleryImages | AnticcaReale-main/src/pages/BlogDetailPage.tsx:68 | empty for video posts, the post's gallery for rich-text posts |
| BlogDetail.NavigationWraps | AnticcaReale-main/src/pages/BlogDetailPage.tsx:70-76 | from a shown image, prev and next step by one and wrap at the ends |
| BlogDetail.NavigationInverse | AnticcaReale-main/src/pages/BlogDetailPage.tsx:70-76 | prev and next undo each other |
| BlogDetail.Lightbox.constructor | AnticcaReale-main/src/pages/BlogDetailPage.tsx:59-65 | the lightbox starts closed |
| BlogDetail.Lightbox.OpenLightbox | AnticcaReale-main/src/pages/BlogDetailPage.tsx:59-61 | opens on the given image |
| BlogDetail.Lightbox.CloseLightbox | AnticcaReale-main/src/pages/BlogDetailPage.tsx:63-65 | closes |
| BlogDetail.Lightbox.NavigateImage | AnticcaReale-main/src/pages/BlogDetailPage.tsx:70-76 | no-op when closed or the gallery is empty; otherwise moves as the wrap formula, staying in the gallery |
| ProductDetail.ImageStepsWrap | AnticcaReale-main/src/pages/ProductDetailPage.tsx:65-75 | from a shown image, prev is i - 1 and next is i + 1, both modulo the gallery size, so both stay in the gallery |
| ProductDetail.ImageStepsInverse | AnticcaReale-main/src/pages/ProductDetailPage.tsx:65-75 | prev and next undo each other |
| ProductDetail.NextTimesRotates | AnticcaReale-main/src/pages/ProductDetailPage.tsx:71-75 | k presses of next rotate the gallery by k places; as many presses as images return to the start |
| ProductDetail.FilteredRelatedContract | AnticcaReale-main/src/pages/ProductDetailPage.tsx:94 | at most four products, never the current one, all fetched; with at most four fetched, exactly the others |
| ProductDetail.QuantityStaysInStock | AnticcaReale-main/AnticcaReale-main/src/pages/ProductDetailPage.tsx:227-236 | minus never goes below one, plus never above the stock, and both keep an in-stock quantity in stock |
| ProductDetail.QuantityStepsInverse | AnticcaReale-main/AnticcaReale-main/src/pages/ProductDetailPage.tsx:227-236 | away from the bounds the buttons undo each other; at one and at the stock they are idle |
| ProductDetail.PressesStayInStock | AnticcaReale-main/AnticcaReale-main/src/pages/ProductDetailPage.tsx:227-236 | any sequence of presses from an in-stock quantity ends in stock |
| ProductDetail.ProductDetailPage.constructor | AnticcaReale-main/src/pages/ProductDetailPage.tsx:18-19 | first image, nothing added |
| ProductDetail.ProductDetailPage.HandleAddToCart | AnticcaReale-main/src/pages/ProductDetailPage.tsx:57-63 | adds exactly one unit of an in-stock product, otherwise nothing |
| ProductDetail.ProductDetailPage.HandlePrevImage | AnticcaReale-main/src/pages/ProductDetailPage.tsx:65-69 | moves by `PrevImage` when a product is loaded, staying in the gallery |
| ProductDetail.ProductDetailPage.HandleNextImage | AnticcaReale-main/src/pages/ProductDetailPage.tsx:71-75 | moves by `NextImage` when a product is loaded, staying in the gallery |
| ProductDetail.ProductDetailPage.SelectImage | AnticcaReale-main/src/pages/ProductDetailPage.tsx:229 | a thumbnail selects its image |
| ProductDetail.ProductDetailPageWithQuantity.constructor | AnticcaReale-main/AnticcaReale-main/src/pages/ProductDetailPage.tsx:16-18 | first image, quantity one, nothing added |
| ProductDetail.ProductDetailPageWithQuantity.DecreaseQuantity | AnticcaReale-main/AnticcaReale-main/src/pages/ProductDetailPage.tsx:227 | the quantity never drops below one and stays in stock |
| ProductDetail.ProductDetailPageWithQuantity.IncreaseQuantity | AnticcaReale-main/AnticcaReale-main/src/pages/ProductDetailPage.tsx:236 | the quantity never rises above the stock and stays in stock |
| ProductDetail.ProductDetailPageWithQuantity.HandleAddToCart | AnticcaReale-main/AnticcaReale-main/src/pages/ProductDetailPage.tsx:37-43 | adds the chosen quantity of an in-stock product, otherwise nothing |
| ProductDetail.ProductDetailPageWithQuantity.HandlePrevImage | AnticcaReale-main/AnticcaReale-main/src/pages/ProductDetailPage.tsx:45-49 | as on the other page, leaving the quantity alone |
| ProductDetail.ProductDetailPageWithQuantity.HandleNextImage | AnticcaReale-main/AnticcaReale-main/src/pages/ProductDetailPage.tsx:51-55 | as on the other page, leaving the quantity alone |
| Register.RedirectTarget | AnticcaReale-main/src/pages/RegisterPage.tsx:20 | the redirect parameter when non-empty, otherwise '/' |
| Register.ErrorMessageContract | AnticcaReale-main/src/pages/RegisterPage.tsx:44-52 | each of the three known codes maps to its own message and only it does; every other code maps to the generic one |
| Register.SubmitErrorContract | AnticcaReale-main/src/pages/RegisterPage.tsx:22-55 | a mismatch is reported even for a short password; a short matching password is reported whatever the server says; no message iff the checks pass and registration succeeds |
| Register.RegisterForm.constructor | AnticcaReale-main/src/pages/RegisterPage.tsx:14-15 | no error, not loading |
| Register.RegisterForm.HandleSubmit | AnticcaReale-main/src/pages/RegisterPage.tsx:22-56 | the message is `SubmitError`; `register` is called exactly when the checks pass; navigation to the redirect happens exactly on success |
| AdminProduct.NewProductForm | AnticcaReale-main/src/components/admin/AdminProductModal.tsx:85-103 | the first shop is preselected (none when there are no shops), one in stock, increment 100 |
| AdminProduct.ProductForm | AnticcaReale-main/src/components/admin/AdminProductModal.tsx:66-84 | an existing product's fields are loaded, a missing increment becoming 100 |
| AdminProduct.ToSubmitDataContract | AnticcaReale-main/src/components/admin/AdminProductModal.tsx:161-167 | a fixed sale submits the form unchanged; an auction differs at most in a zero price replaced by the starting bid and in filled-in times becoming instants |
| AdminProduct.StartingBidSetsAuctionPrice | AnticcaReale-main/src/components/admin/AdminProductModal.tsx:352 | after editing the starting bid, an auction is submitted with price equal to its starting bid |
| AdminProduct.WithoutIndex | AnticcaReale-main/src/components/admin/AdminProductModal.tsx:221 | never longer than the list |
| AdminProduct.WithoutIndexSplices | AnticcaReale-main/src/components/admin/AdminProductModal.tsx:221 | removing image i drops exactly that image, keeping the rest in order; an index outside the list changes nothing |
| AdminProduct.UploadedUrls | AnticcaReale-main/src/components/admin/AdminProductModal.tsx:113-119 | one URL per upload, in file order |
| AdminProduct.GlbNameCases | AnticcaReale-main/src/components/admin/AdminProductModal.tsx:133-136 | a file is accepted iff its name ends with a dot and g, l, b in any case |
| AdminProduct.ProductModal.constructor | AnticcaReale-main/src/components/admin/AdminProductModal.tsx:29-49 | the editor starts from the given form, idle |
| AdminProduct.ProductModal.HandleSubmit | AnticcaReale-main/src/components/admin/AdminProductModal.tsx:152-180 | without a shop, alerts and saves nothing; otherwise one update or create of the normalised data, closing on success and alerting on failure |
| AdminProduct.ProductModal.HandleImageUpload | AnticcaReale-main/src/components/admin/AdminProductModal.tsx:107-127 | an empty selection changes nothing; with all uploads successful, their URLs are appended after the existing images; any failure alerts and keeps the images |
| AdminProduct.ProductModal.RemoveImage | AnticcaReale-main/src/components/admin/AdminProductModal.tsx:221 | drops exactly the chosen image |
| AdminProduct.ProductModal.Handle3DModelUpload | AnticcaReale-main/src/components/admin/AdminProductModal.tsx:129-150 | a non-`.glb` name alerts and changes nothing; a `.glb` upload sets the model URL or alerts on failure |
| AdminProduct.ProductModal.ChangeStartingBid | AnticcaReale-main/src/components/admin/AdminProductModal.tsx:352 | the price follows the starting bid |
| Types.CategoriesComplete | AnticcaReale-main/src/types/index.ts:103-130 | each of the 12 categories is listed exactly once, with distinct labels |
| Types.OrderStatusesComplete | AnticcaReale-main/src/types/index.ts:80-139 | each of the 6 order statuses is listed exactly once, with distinct labels |
| Types.BlogCategoriesComplete | AnticcaReale-main/src/types/index.ts:159-176 | each of the 7 blog categories is listed exactly once, with distinct labels |
| Types.BlogGuardsPartition | AnticcaReale-main/src/types/index.ts:218-224 | every post is a video post or a rich-text post, never both |
| Text.Lower | AnticcaReale-main/src/hooks/useFirestore.ts:749 | no capital (A-Z, Ç, Ğ, Ö, Ş, Ü) is left, every other character is kept, and each character stays the same letter up to case |
| Text.LowerIdempotent | AnticcaReale-main/src/hooks/useFirestore.ts:749 | lowercasing a lowercased text changes nothing |
| Text.Trim | AnticcaReale-main/src/hooks/useFirestore.ts:759 | the result is the text with exactly its leading and trailing white-space runs removed: a slice framed by white space on both sides, not starting or ending with white space |
| Text.Split | AnticcaReale-main/firebase-functions/src/index.ts:187 | at least one piece, none holding the separator |
| Text.JoinSplit | AnticcaReale-main/firebase-functions/src/index.ts:187-188 | joining the pieces with the separator gives the text back |
| Text.NatToString | AnticcaReale-main/src/pages/CartPage.tsx:80 | a non-empty run of digits, with no leading zero: it starts with 0 only for zero |
| Text.NatToStringRoundTrip | AnticcaReale-main/src/pages/CartPage.tsx:80 | the digits printed for n read back as n |
| Seqs.FilterSound | AnticcaReale-main/src/hooks/useFirestore.ts:122-147 | a filter keeps only elements passing the test, none more often than the input |
| Seqs.FilterMembership | AnticcaReale-main/src/hooks/useFirestore.ts:122-147 | an element is kept iff it is in the input and passes |
| Seqs.Take | AnticcaReale-main/src/pages/HomePage.tsx:15 | `slice(0, n)` is the prefix of length min(n, size) |
| Seqs.SortDescBy | AnticcaReale-main/src/hooks/useFirestore.ts:149-158 | a permutation of the input, highest key first |

## Left out

- Firestore's optimistic transaction retry, `onSnapshot` streams and the read and write calls are library code. Each transaction or handler is one atomic step on the model's maps.
- HMAC signing and random strings are not modelled. The signature is a function-typed parameter, and the random number is a parameter.
- HTTP, CORS, redirects and `fetch` to the Shopier API are not modelled. The fetched order data and the HTTP method are parameters.
- The clock and date formatting are not modelled: `new Date()`, `toDate()`, string-to-date parsing, and `parseForInput`'s local-time text. Times are millisecond parameters. The admin editor receives the instants of its date inputs as parameters.
- Floating-point amounts are modelled as whole numbers: `toFixed(2)`, `parseFloat`, currency formatting, and the timeline, parallax and slider percentages.
- Lowercasing (`Text.Lower`) covers ASCII and the Turkish letters Ç, Ğ, Ö, Ş and Ü. `toLowerCase` of other letters, including İ, is not modelled. The search filter and `generateSlug` therefore agree with the source only on such text.
- Password length counts characters. JavaScript counts UTF-16 code units, so the two differ for characters outside the Basic Multilingual Plane.
- Catalog.CatalogueContract: the sort is a stable insertion sort specified by sortedness and permutation. JavaScript's sort order among equal keys is not modelled.
- Catalog.UseProducts works on a sequence rather than sorting an array in place.
- Bidding.AuctionStore.PlaceBid: `serverTimestamp()` is modelled as the caller's `now`. The bidder display name keeps only the user id prefix.
- AuctionSection: the success message's 3-second timer and the confirmation dialog's text are not modelled. The dialog's answer is the parameter `confirmed`.
- ProductDetail: the 2-second reset of `addedToCart`, the parallax effect and the 3D viewer are not modelled. The cart context's `addToCart` is recorded as a call in `cartAdds`.
- ProductDetail.ProductDetailPageWithQuantity: the quantity is not reset when another product is shown. Its stock bound holds only while the shown product's stock does not drop below the chosen quantity.
- CartPage: `createOrder` and `initiateShopierPayment` failures (the catch path) are not modelled. `parseUserName` and `formatPhoneNumber` live in a Shopier service file that is not part of this model. The order id is the new order's position in `orders`. `totalPrice` comes from the cart context, which is not part of this model.
- Payments: `createShopierPayment`'s signature payload and its API call to Shopier are not modelled.
- Payments.SyncAllPendingOrders: the Firestore query for pending orders is the parameter `pending`, constrained by `IsPendingQuery`.
- Payments.PaymentStore.HandleWebhook: when the order update fails, the payment record stays written and the reply is 500. This is modelled as the reply `OrderUpdateFailed`, whose cause is outside the model.
- Register: the `register` call of the auth context is the parameter `outcome`. The `loading` flag is modelled only as ending false.
- AdminProduct: the currency field (always TRY) is not modelled. `product.model3dUrl` is not a field of the model's product, so `ProductForm` takes it as a parameter. The upload storage paths are not modelled.
- BlogDetail.VideoEmbedUrlContract: concrete example URLs are not proved. The general leftmost-match statements cover them.
- The YouTube pattern of `extractVideoInfo`, `localeCompare` shop sorting, the presentational components and the static pages are not modelled.

## Findings

| source | as written | input that shows it | evidently intended | confidence | as-written member | corrected member |
|---|---|---|---|---|---|---|
| AnticcaReale-main/src/hooks/useFirestore.ts:757-759 | white space becomes `-` before the final `.trim()`, so the trim never removes anything and leading or trailing white space leaves a hyphen at the slug's edge | the title " Osmanlı Saati" (leading space) gives "-osmanli-saati" | a slug with no hyphen at either end | medium, not executed | Slug.LeadingSpaceLeavesLeadingDash | Slug.TrimmedSlugIsClean |

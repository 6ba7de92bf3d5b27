/** The auction settlement engine of src/hooks/useFirestore.ts: `placeBid` and
    `buyNowPurchase`, each one transaction body that reads a product snapshot, checks it,
    updates the product record and appends one record to the product's `bids`
    sub-collection; and the bid feed of `useBidHistory`.

    The storage layer's optimistic retry is library code: each call is one atomic step on
    the store, and concurrent calls are the orderings of such steps (`Run`). The clock is
    the parameter `now` (milliseconds); a `None` user is the code's `!user`. */
module Bidding {
  import opened Types
  import opened Seqs

  /** `2 * 60 * 1000`: a bid closer than this to the end pushes the end back by as much. */
  const AntiSnipeWindow: int := 120000

  /** `limit(20)` of the bid feed query. */
  const FeedLimit: nat := 20

  /** The errors the two transactions throw, in the order they are checked. */
  datatype BidError =
    | NotAuthenticated              // 'User not authenticated'
    | ProductNotFound               // 'Product not found'
    | NotAnAuction                  // 'Not an auction'
    | BuyNowUnavailable             // 'Buy Now not available for this product'
    | OutOfStock                    // 'Product out of stock'
    | NotStarted                    // 'Auction has not started yet'
    | AuctionEnded                  // 'Auction has ended' / 'Auction has already ended'
    | BelowStartingPrice            // 'Bid must be at least the starting price'
    | BelowMinimum(minimum: int)    // 'Bid must be at least ${currentBid + minIncrement}'
    | ExceedsBuyNow(price: int)     // 'Bid exceeds Buy Now price ...'

  /** `product.currentHighestBid` is truthy. */
  predicate HasBid(p: Product) { p.currentHighestBid != 0 }

  /** `product.buyNowPrice` is truthy. */
  predicate HasBuyNow(p: Product) { p.buyNowPrice != 0 }

  /** `startTime <= now <= endTime`, both ends inclusive, a missing time read as the epoch. */
  predicate InWindow(p: Product, now: int)
  {
    TimeOrEpoch(p.auctionStartTime) <= now <= TimeOrEpoch(p.auctionEndTime)
  }

  /** `currentHighestBid || startingBid || 0`: the current price of an auction, the
      starting bid until the first bid is placed. */
  function CurrentBid(p: Product): int
  {
    if HasBid(p) then p.currentHighestBid else p.startingBid
  }

  /** The lowest amount `placeBid` accepts: the current highest bid plus the increment
      when there is a current bid, otherwise the starting bid (lowered by the increment
      only when the increment is negative, see `FloorWithoutBid`). */
  function BidFloor(p: Product): int
  {
    if HasBid(p) then p.currentHighestBid + p.minimumBidIncrement
    else Min(p.startingBid, p.startingBid + p.minimumBidIncrement)
  }

  /** With no current bid and a non-negative increment the floor is exactly the starting
      bid, not the starting bid plus the increment. */
  lemma FloorWithoutBid(p: Product)
    requires !HasBid(p) && p.minimumBidIncrement >= 0
    ensures BidFloor(p) == p.startingBid
  {
  }

  /** The checks `placeBid` runs on an existing snapshot, in the code's order; `None`
      when all pass. */
  function BidCheck(p: Product, amount: int, now: int): (e: Option<BidError>)
    ensures e.None? <==>
      p.saleType == Auction && p.stock > 0 && InWindow(p, now)
      && amount >= BidFloor(p) && !(HasBuyNow(p) && amount >= p.buyNowPrice)
    // the stock check comes before the clock and the amount
    ensures p.saleType == Auction && p.stock <= 0 ==> e == Some(OutOfStock)
    // a bid below the floor is reported as such even when it is also at or above buy-now
    ensures p.saleType == Auction && p.stock > 0 && InWindow(p, now) && amount < BidFloor(p) ==>
      e == Some(if HasBid(p) then BelowMinimum(BidFloor(p)) else BelowStartingPrice)
  {
    var currentBid := CurrentBid(p);
    var minIncrement := p.minimumBidIncrement;
    if p.saleType != Auction then Some(NotAnAuction)
    else if p.stock <= 0 then Some(OutOfStock)
    else if now < TimeOrEpoch(p.auctionStartTime) then Some(NotStarted)
    else if now > TimeOrEpoch(p.auctionEndTime) then Some(AuctionEnded)
    else if amount < currentBid + minIncrement && !HasBid(p) && amount < p.startingBid then
      Some(BelowStartingPrice)
    else if amount < currentBid + minIncrement && HasBid(p) then
      Some(BelowMinimum(currentBid + minIncrement))
    else if HasBuyNow(p) && amount >= p.buyNowPrice then Some(ExceedsBuyNow(p.buyNowPrice))
    else None
  }

  /** The anti-sniping rule: a bid placed less than the window before a present end time
      (and strictly before it) moves that end time one window later; otherwise the end
      time is kept. */
  function ExtendedEnd(end: Option<int>, now: int): (r: Option<int>)
    ensures r.Some? <==> end.Some?
    ensures end.Some? ==> end.value <= r.value <= end.value + AntiSnipeWindow
    ensures end.Some? && r != end ==> 0 < end.value - now < AntiSnipeWindow
    ensures end.Some? && 0 < end.value - now < AntiSnipeWindow ==> r == Some(end.value + AntiSnipeWindow)
    ensures !(end.Some? && 0 < end.value - now < AntiSnipeWindow) ==> r == end
    // a bid placed before the end always leaves at least one window to answer it
    ensures end.Some? && now < end.value ==> r.value - now >= AntiSnipeWindow
  {
    if end.Some? && 0 < end.value - now < AntiSnipeWindow then Some(end.value + AntiSnipeWindow)
    else end
  }

  /** `user.uid.substring(0, 4)`. */
  function UidPrefix(uid: string): string
  {
    uid[..Min(4, |uid|)]
  }

  /** The record appended to the `bids` sub-collection; its timestamp is the server time. */
  function BidEntry(productId: string, uid: string, amount: int, now: int, isBuyNow: bool): BidRecord
  {
    var userName := if isBuyNow then "Hemen Al: Katılımcı #" + UidPrefix(uid)
                    else "Katılımcı #" + UidPrefix(uid);
    BidRecord(productId, uid, userName, amount, now, isBuyNow)
  }

  /** What `placeBid` leaves in the product record: the new product, or the error thrown
      (in which case nothing is written). */
  function BidOutcome(snapshot: Option<Product>, amount: int, user: Option<User>, now: int)
    : (o: Result<Product, BidError>)
    ensures o.Ok? <==> user.Some? && snapshot.Some? && BidCheck(snapshot.value, amount, now).None?
    ensures o.Ok? ==>
      var p := snapshot.value;
      && o.value.currentHighestBid == amount
      && o.value.currentHighestBidderId == Some(user.value.uid)
      && o.value.auctionEndTime == ExtendedEnd(p.auctionEndTime, now)
      && o.value.stock == p.stock
      // nothing else changes
      && o.value.(currentHighestBid := p.currentHighestBid,
                  currentHighestBidderId := p.currentHighestBidderId,
                  auctionEndTime := p.auctionEndTime, updatedAt := p.updatedAt) == p
  {
    if user.None? then Err(NotAuthenticated)
    else if snapshot.None? then Err(ProductNotFound)
    else
      var p := snapshot.value;
      var check := BidCheck(p, amount, now);
      if check.Some? then Err(check.value)
      else Ok(p.(currentHighestBid := amount, currentHighestBidderId := Some(user.value.uid),
                 auctionEndTime := ExtendedEnd(p.auctionEndTime, now), updatedAt := now))
  }

  /** What `buyNowPurchase` leaves in the product record. Note that, unlike `placeBid`,
      it does not check the start time. */
  function BuyNowOutcome(snapshot: Option<Product>, user: Option<User>, now: int)
    : (o: Result<Product, BidError>)
    ensures o.Ok? <==>
      && user.Some? && snapshot.Some?
      && snapshot.value.saleType == Auction && HasBuyNow(snapshot.value)
      && snapshot.value.stock > 0 && now <= TimeOrEpoch(snapshot.value.auctionEndTime)
    ensures (snapshot.Some? && user.Some? && snapshot.value.saleType == Auction
             && HasBuyNow(snapshot.value) && snapshot.value.stock <= 0) ==> o == Err(OutOfStock)
    ensures o.Ok? ==>
      var p := snapshot.value;
      && o.value.stock == 0
      && o.value.currentHighestBid == p.buyNowPrice
      && o.value.currentHighestBidderId == Some(user.value.uid)
      && o.value.auctionEndTime == Some(now)
      && o.value.(stock := p.stock, currentHighestBid := p.currentHighestBid,
                  currentHighestBidderId := p.currentHighestBidderId,
                  auctionEndTime := p.auctionEndTime, updatedAt := p.updatedAt) == p
  {
    if user.None? then Err(NotAuthenticated)
    else if snapshot.None? then Err(ProductNotFound)
    else
      var p := snapshot.value;
      if p.saleType != Auction then Err(NotAnAuction)
      else if !HasBuyNow(p) then Err(BuyNowUnavailable)
      else if p.stock <= 0 then Err(OutOfStock)
      else if now > TimeOrEpoch(p.auctionEndTime) then Err(AuctionEnded)
      else Ok(p.(currentHighestBid := p.buyNowPrice, currentHighestBidderId := Some(user.value.uid),
                 stock := 0, auctionEndTime := Some(now), updatedAt := now))
  }

  function Lookup<K, V>(m: map<K, V>, k: K): Option<V>
  {
    if k in m then Some(m[k]) else None
  }

  /** The `bids` sub-collection of a product; empty when nothing was written yet. */
  function LedgerOf(bids: map<string, seq<BidRecord>>, productId: string): seq<BidRecord>
  {
    if productId in bids then bids[productId] else []
  }

  /** The Firestore data the two transactions work on: the `products` collection and,
      per product, its `bids` sub-collection in the order the records were written. */
  class AuctionStore {
    var products: map<string, Product>
    var bids: map<string, seq<BidRecord>>

    constructor (initial: map<string, Product>)
      ensures products == initial && bids == map[]
    {
      products := initial;
      bids := map[];
    }

    /** `placeBid(productId, amount, user)`: one atomic run of the transaction body. */
    method PlaceBid(productId: string, amount: int, user: Option<User>, now: int)
      returns (r: Result<(), BidError>)
      modifies this
      ensures var o := BidOutcome(Lookup(old(products), productId), amount, user, now);
        && (o.Err? ==> r == Err(o.error) && products == old(products) && bids == old(bids))
        && (o.Ok? ==>
              && r == Ok(())
              && products == old(products)[productId := o.value]
              && bids == old(bids)[productId := LedgerOf(old(bids), productId)
                                     + [BidEntry(productId, user.value.uid, amount, now, false)]])
    {
      if user.None? {
        return Err(NotAuthenticated);
      }
      if productId !in products {
        return Err(ProductNotFound);
      }
      var product := products[productId];
      if product.saleType != Auction {
        return Err(NotAnAuction);
      }
      if product.stock <= 0 {
        return Err(OutOfStock);
      }
      var startTime := TimeOrEpoch(product.auctionStartTime);
      var endTime := TimeOrEpoch(product.auctionEndTime);
      if now < startTime {
        return Err(NotStarted);
      }
      if now > endTime {
        return Err(AuctionEnded);
      }
      var currentBid := if product.currentHighestBid != 0 then product.currentHighestBid
                        else product.startingBid;
      var minIncrement := product.minimumBidIncrement;
      if amount < currentBid + minIncrement {
        if product.currentHighestBid == 0 && amount < product.startingBid {
          return Err(BelowStartingPrice);
        }
        if product.currentHighestBid != 0 {
          return Err(BelowMinimum(currentBid + minIncrement));
        }
      }
      if product.buyNowPrice != 0 && amount >= product.buyNowPrice {
        return Err(ExceedsBuyNow(product.buyNowPrice));
      }

      // anti-sniping
      var newEndTime := product.auctionEndTime;
      if product.auctionEndTime.Some? {
        var timeDiff := product.auctionEndTime.value - now;
        if timeDiff > 0 && timeDiff < AntiSnipeWindow {
          newEndTime := Some(product.auctionEndTime.value + AntiSnipeWindow);
        }
      }

      var updated := product.(currentHighestBid := amount,
                              currentHighestBidderId := Some(user.value.uid),
                              updatedAt := now);
      if newEndTime != product.auctionEndTime {
        updated := updated.(auctionEndTime := newEndTime);
      }
      products := products[productId := updated];
      bids := bids[productId := LedgerOf(bids, productId)
                                + [BidEntry(productId, user.value.uid, amount, now, false)]];
      r := Ok(());
    }

    /** `buyNowPurchase(productId, user)`: one atomic run of the transaction body. */
    method BuyNow(productId: string, user: Option<User>, now: int)
      returns (r: Result<(), BidError>)
      modifies this
      ensures var o := BuyNowOutcome(Lookup(old(products), productId), user, now);
        && (o.Err? ==> r == Err(o.error) && products == old(products) && bids == old(bids))
        && (o.Ok? ==>
              && r == Ok(())
              && products == old(products)[productId := o.value]
              && bids == old(bids)[productId := LedgerOf(old(bids), productId)
                   + [BidEntry(productId, user.value.uid, old(products)[productId].buyNowPrice, now, true)]])
    {
      if user.None? {
        return Err(NotAuthenticated);
      }
      if productId !in products {
        return Err(ProductNotFound);
      }
      var product := products[productId];
      if product.saleType != Auction {
        return Err(NotAnAuction);
      }
      if product.buyNowPrice == 0 {
        return Err(BuyNowUnavailable);
      }
      if product.stock <= 0 {
        return Err(OutOfStock);
      }
      var endTime := TimeOrEpoch(product.auctionEndTime);
      if now > endTime {
        return Err(AuctionEnded);
      }
      products := products[productId := product.(currentHighestBid := product.buyNowPrice,
                                                  currentHighestBidderId := Some(user.value.uid),
                                                  stock := 0,
                                                  auctionEndTime := Some(now),
                                                  updatedAt := now)];
      bids := bids[productId := LedgerOf(bids, productId)
                                + [BidEntry(productId, user.value.uid, product.buyNowPrice, now, true)]];
      r := Ok(());
    }
  }

  /** Two buy-now requests racing for the same product: whichever commits first wins and
      the other fails at the stock check; no double sale is possible. */
  method RaceOfTwoBuyNows(p: Product, first: User, second: User, t1: int, t2: int)
    returns (r1: Result<(), BidError>, r2: Result<(), BidError>)
    ensures r1.Ok? ==> r2 == Err(OutOfStock)
    ensures !(r1.Ok? && r2.Ok?)
  {
    var store := new AuctionStore(map[p.id := p]);
    r1 := store.BuyNow(p.id, Some(first), t1);
    r2 := store.BuyNow(p.id, Some(second), t2);
  }

  // ---------------------------------------------------------------------------
  // Orderings of calls on one product

  datatype Call =
    | PlaceBidCall(amount: int, user: Option<User>, now: int)
    | BuyNowCall(user: Option<User>, now: int)

  function Attempt(p: Product, c: Call): Result<Product, BidError>
  {
    match c
    case PlaceBidCall(amount, user, now) => BidOutcome(Some(p), amount, user, now)
    case BuyNowCall(user, now) => BuyNowOutcome(Some(p), user, now)
  }

  /** The product after one call: a failed call writes nothing. */
  function After(p: Product, c: Call): Product
  {
    var o := Attempt(p, c);
    if o.Ok? then o.value else p
  }

  /** The product after a sequence of calls, one atomic step each. */
  function Run(p: Product, calls: seq<Call>): Product
    decreases |calls|
  {
    if calls == [] then p else Run(After(p, calls[0]), calls[1..])
  }

  /** Once a buy-now has committed, every later bid or buy-now by a signed-in user fails
      at the stock check, and no ordering of later calls changes the product again. */
  lemma {:induction false} BuyNowIsTerminal(p: Product, buyer: User, t: int, calls: seq<Call>)
    requires BuyNowOutcome(Some(p), Some(buyer), t).Ok?
    ensures var sold := BuyNowOutcome(Some(p), Some(buyer), t).value;
      && Run(sold, calls) == sold
      && forall i :: 0 <= i < |calls| && calls[i].user.Some? ==> Attempt(sold, calls[i]) == Err(OutOfStock)
  {
    var sold := BuyNowOutcome(Some(p), Some(buyer), t).value;
    SoldStaysSold(sold, calls);
  }

  lemma {:induction false} SoldStaysSold(sold: Product, calls: seq<Call>)
    requires sold.saleType == Auction && HasBuyNow(sold) && sold.stock <= 0
    ensures Run(sold, calls) == sold
    ensures forall i :: 0 <= i < |calls| && calls[i].user.Some? ==> Attempt(sold, calls[i]) == Err(OutOfStock)
    decreases |calls|
  {
    if calls != [] {
      assert After(sold, calls[0]) == sold;
      SoldStaysSold(sold, calls[1..]);
      forall i | 0 <= i < |calls| && calls[i].user.Some?
        ensures Attempt(sold, calls[i]) == Err(OutOfStock)
      {
        if i > 0 {
          assert calls[i] == calls[1..][i - 1];
        }
      }
    }
  }

  /** The configuration under which the highest bid can only grow: non-negative starting
      bid and increment, and, while the item is for sale, a buy-now price above the
      current highest bid. */
  predicate WellConfigured(p: Product)
  {
    && p.startingBid >= 0
    && p.minimumBidIncrement >= 0
    && (HasBuyNow(p) && p.stock > 0 ==> p.currentHighestBid < p.buyNowPrice)
  }

  /** One call never lowers the current highest bid of a well-configured auction, never
      moves the end time of a bid backwards, and keeps the configuration. */
  lemma StepNeverLowersPrice(p: Product, c: Call)
    requires WellConfigured(p)
    ensures WellConfigured(After(p, c))
    ensures After(p, c).currentHighestBid >= p.currentHighestBid
    ensures c.PlaceBidCall? ==> TimeOrEpoch(After(p, c).auctionEndTime) >= TimeOrEpoch(p.auctionEndTime)
  {
  }

  /** Over any ordering of calls the current highest bid never decreases. */
  lemma {:induction false} RunNeverLowersPrice(p: Product, calls: seq<Call>)
    requires WellConfigured(p)
    ensures WellConfigured(Run(p, calls))
    ensures Run(p, calls).currentHighestBid >= p.currentHighestBid
    decreases |calls|
  {
    if calls != [] {
      StepNeverLowersPrice(p, calls[0]);
      RunNeverLowersPrice(After(p, calls[0]), calls[1..]);
    }
  }

  // ---------------------------------------------------------------------------
  // The bid feed: `query(bids, orderBy('amount', 'desc'), limit(20))`

  function Amount(b: BidRecord): int { b.amount }

  /** The bid feed a subscriber sees: the 20 highest bids of the ledger, highest first. */
  function BidFeed(ledger: seq<BidRecord>): (feed: seq<BidRecord>)
    ensures |feed| == Min(FeedLimit, |ledger|)
    ensures forall i, j :: 0 <= i < j < |feed| ==> feed[i].amount >= feed[j].amount
    ensures multiset(feed) <= multiset(ledger)
  {
    var sorted := SortDescBy(ledger, Amount);
    assert sorted == sorted[..Min(FeedLimit, |sorted|)] + sorted[Min(FeedLimit, |sorted|)..];
    Take(sorted, FeedLimit)
  }

  /** The feed is the top of the ledger: a bid left out of it is no higher than any bid
      shown, so it is a leaderboard, not the most recent bids. */
  lemma FeedIsTopOfLedger(ledger: seq<BidRecord>, x: BidRecord)
    requires multiset(ledger)[x] > multiset(BidFeed(ledger))[x]
    ensures forall i :: 0 <= i < |BidFeed(ledger)| ==> x.amount <= BidFeed(ledger)[i].amount
  {
    var sorted := SortDescBy(ledger, Amount);
    var k := Min(FeedLimit, |sorted|);
    assert sorted == sorted[..k] + sorted[k..];
    assert BidFeed(ledger) == sorted[..k];
    assert multiset(sorted) == multiset(sorted[..k]) + multiset(sorted[k..]);
    assert x in multiset(sorted[k..]);
    var j :| 0 <= j < |sorted[k..]| && sorted[k..][j] == x;
    assert sorted[k + j] == x;
  }

  /** The ledger agrees with the product record: no bid is above the current highest
      bid, and the latest bid is the current highest bid. */
  predicate LedgerTracksPrice(p: Product, ledger: seq<BidRecord>)
  {
    && (forall i :: 0 <= i < |ledger| ==> ledger[i].amount <= p.currentHighestBid)
    && (|ledger| > 0 ==> ledger[|ledger| - 1].amount == p.currentHighestBid)
  }

  /** The ledger after one call on product `id`: a successful call appends one record. */
  function LedgerAfter(p: Product, ledger: seq<BidRecord>, c: Call): seq<BidRecord>
  {
    if Attempt(p, c).Err? then ledger
    else match c
      case PlaceBidCall(amount, user, now) => ledger + [BidEntry(p.id, user.value.uid, amount, now, false)]
      case BuyNowCall(user, now) => ledger + [BidEntry(p.id, user.value.uid, p.buyNowPrice, now, true)]
  }

  /** Every call of a well-configured auction keeps the ledger in step with the product. */
  lemma StepKeepsLedger(p: Product, ledger: seq<BidRecord>, c: Call)
    requires WellConfigured(p) && LedgerTracksPrice(p, ledger)
    ensures LedgerTracksPrice(After(p, c), LedgerAfter(p, ledger, c))
  {
    StepNeverLowersPrice(p, c);
  }

  /** Hence the first entry of the bid feed is the product's current highest bid. */
  lemma FeedHeadIsHighestBid(p: Product, ledger: seq<BidRecord>)
    requires LedgerTracksPrice(p, ledger) && |ledger| > 0
    ensures BidFeed(ledger)[0].amount == p.currentHighestBid
  {
    var last := ledger[|ledger| - 1];
    var feed := BidFeed(ledger);
    assert feed[0] in multiset(ledger);
    if multiset(ledger)[last] > multiset(feed)[last] {
      FeedIsTopOfLedger(ledger, last);
    } else {
      assert last in multiset(feed);
      var j :| 0 <= j < |feed| && feed[j] == last;
    }
  }
}

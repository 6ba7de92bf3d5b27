/** The admin auction table (AnticcaReale-main/src/pages/admin/AdminAuctions.tsx): the
    auction-only list and the status badge of each row. */
module AdminAuctions {
  import opened Types
  import opened Seqs
  import opened Lifecycle

  predicate IsAuction(p: Product) { p.saleType == Auction }

  /** `productsData.filter(p => p.saleType === 'auction')`. */
  function AuctionList(products: seq<Product>): (r: seq<Product>)
    ensures forall i :: 0 <= i < |r| ==> r[i].saleType == Auction
  {
    FilterSound(products, IsAuction);
    Filter(products, IsAuction)
  }

  /** The list holds exactly the fetched auctions, and an all-auction input is listed
      whole and in order. */
  lemma AuctionListIsExact(products: seq<Product>, x: Product)
    ensures x in AuctionList(products) <==> x in products && x.saleType == Auction
    ensures (forall i :: 0 <= i < |products| ==> products[i].saleType == Auction) ==>
      AuctionList(products) == products
  {
    FilterMembership(products, IsAuction, x);
    if forall i :: 0 <= i < |products| ==> products[i].saleType == Auction {
      FilterAll(products, IsAuction);
    }
  }

  /** The status badge: 'Unknown' or one of the three phases. */
  datatype Badge = Unknown | Known(phase: Phase)

  /** `getAuctionStatus`: a missing (or zero) start or end is 'Unknown'; otherwise the
      shared lifecycle, upcoming checked before ended. */
  function AuctionStatus(p: Product, now: int): (b: Badge)
    ensures b == Unknown <==> TimeOrEpoch(p.auctionStartTime) == 0 || TimeOrEpoch(p.auctionEndTime) == 0
    ensures b.Known? ==> b.phase == WindowPhase(now, TimeOrEpoch(p.auctionStartTime), TimeOrEpoch(p.auctionEndTime))
    ensures b == Known(Live) <==>
      && TimeOrEpoch(p.auctionStartTime) != 0 && TimeOrEpoch(p.auctionEndTime) != 0
      && TimeOrEpoch(p.auctionStartTime) <= now <= TimeOrEpoch(p.auctionEndTime)
  {
    var start := TimeOrEpoch(p.auctionStartTime);
    var end := TimeOrEpoch(p.auctionEndTime);
    if start == 0 || end == 0 then Unknown
    else if now < start then Known(Upcoming)
    else if now > end then Known(Ended)
    else Known(Live)
  }

  /** A window that has not begun but whose end is already past (start after end) is
      badged upcoming: the start test wins. */
  lemma InvertedWindowIsUpcoming(p: Product, now: int)
    requires TimeOrEpoch(p.auctionStartTime) != 0 && TimeOrEpoch(p.auctionEndTime) != 0
    requires TimeOrEpoch(p.auctionEndTime) < now < TimeOrEpoch(p.auctionStartTime)
    ensures AuctionStatus(p, now) == Known(Upcoming)
  {
  }
}

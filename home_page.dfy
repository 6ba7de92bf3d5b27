/** The home page selections (AnticcaReale-main/src/pages/HomePage.tsx), made from the
    20 newest active products and the shop list. */
module HomePage {
  import opened Types
  import opened Seqs
  import opened Bidding
  import AuctionsPage

  const LiveStripSize: nat := 3
  const FeaturedProductCount: nat := 8
  const FeaturedShopCount: nat := 4

  predicate LiveAuction(p: Product, now: int)
  {
    p.saleType == Auction
    && now >= TimeOrEpoch(p.auctionStartTime) && now <= TimeOrEpoch(p.auctionEndTime)
  }

  function LiveAuctionAt(now: int): Product -> bool { p => LiveAuction(p, now) }

  predicate NotAuction(p: Product) { p.saleType != Auction }

  /** `liveAuctions`: the first three auctions whose window contains now (stock ignored). */
  function LiveAuctionStrip(products: seq<Product>, now: int): (r: seq<Product>)
    ensures |r| <= LiveStripSize
    ensures forall i :: 0 <= i < |r| ==> r[i].saleType == Auction && InWindow(r[i], now)
    ensures multiset(r) <= multiset(products)
    ensures |r| == Min(LiveStripSize, |Filter(products, LiveAuctionAt(now))|)
    ensures r == Filter(products, LiveAuctionAt(now))[..|r|]
  {
    var live := Filter(products, LiveAuctionAt(now));
    FilterSound(products, LiveAuctionAt(now));
    assert live == live[..Min(LiveStripSize, |live|)] + live[Min(LiveStripSize, |live|)..];
    Take(live, LiveStripSize)
  }

  /** `featuredProducts`: the first eight products that are not auctions. */
  function FeaturedProducts(products: seq<Product>): (r: seq<Product>)
    ensures |r| <= FeaturedProductCount
    ensures forall i :: 0 <= i < |r| ==> r[i].saleType != Auction
    ensures multiset(r) <= multiset(products)
    ensures |r| == Min(FeaturedProductCount, |Filter(products, NotAuction)|)
    ensures r == Filter(products, NotAuction)[..|r|]
  {
    var fixed := Filter(products, NotAuction);
    FilterSound(products, NotAuction);
    assert fixed == fixed[..Min(FeaturedProductCount, |fixed|)] + fixed[Min(FeaturedProductCount, |fixed|)..];
    Take(fixed, FeaturedProductCount)
  }

  /** `featuredShops = shops.slice(0, 4)`. */
  function FeaturedShops<T>(shops: seq<T>): (r: seq<T>)
    ensures |r| == Min(FeaturedShopCount, |shops|)
    ensures r == shops[..|r|]
  {
    Take(shops, FeaturedShopCount)
  }

  /** With at most three live auctions the strip shows every one of them and nothing else;
      with more, it is full. */
  lemma StripMembership(products: seq<Product>, now: int, x: Product)
    ensures x in LiveAuctionStrip(products, now) ==> x in products && LiveAuction(x, now)
    ensures |Filter(products, LiveAuctionAt(now))| <= LiveStripSize ==>
      (x in LiveAuctionStrip(products, now) <==> x in products && LiveAuction(x, now))
    ensures |Filter(products, LiveAuctionAt(now))| >= LiveStripSize ==>
      |LiveAuctionStrip(products, now)| == LiveStripSize
  {
    FilterMembership(products, LiveAuctionAt(now), x);
    var live := Filter(products, LiveAuctionAt(now));
    assert x in LiveAuctionStrip(products, now) ==> x in live;
  }

  /** With at most eight fixed-price products the grid shows every one of them and
      nothing else; with more, it is full. */
  lemma FeaturedMembership(products: seq<Product>, x: Product)
    ensures x in FeaturedProducts(products) ==> x in products && NotAuction(x)
    ensures |Filter(products, NotAuction)| <= FeaturedProductCount ==>
      (x in FeaturedProducts(products) <==> x in products && NotAuction(x))
    ensures |Filter(products, NotAuction)| >= FeaturedProductCount ==>
      |FeaturedProducts(products)| == FeaturedProductCount
  {
    FilterMembership(products, NotAuction, x);
    var fixed := Filter(products, NotAuction);
    assert x in FeaturedProducts(products) ==> x in fixed;
  }

  /** No product appears both in the live strip and among the featured products. */
  lemma StripAndFeaturedAreDisjoint(products: seq<Product>, now: int)
    ensures forall i, j :: 0 <= i < |LiveAuctionStrip(products, now)| && 0 <= j < |FeaturedProducts(products)| ==>
      LiveAuctionStrip(products, now)[i] != FeaturedProducts(products)[j]
  {
  }

  /** On a list of auctions (the auctions page's input) the strip is the first three of
      that page's live group. */
  lemma StripIsTopOfAuctionsPage(products: seq<Product>, now: int)
    requires forall i :: 0 <= i < |products| ==> products[i].saleType == Auction
    ensures LiveAuctionStrip(products, now) == Take(AuctionsPage.LiveAuctions(products, now), LiveStripSize)
  {
    FilterEquiv(products, LiveAuctionAt(now), AuctionsPage.ListedLiveAt(now));
  }

  /** The price a card shows (`currentHighestBid || startingBid || 0`, also the panel's
      `currentBid`) is the head of the bid feed once bids exist, as long as the ledger
      is in step with the product. */
  lemma DisplayedPriceIsFeedHead(p: Product, ledger: seq<BidRecord>)
    requires LedgerTracksPrice(p, ledger) && |ledger| > 0 && HasBid(p)
    ensures CurrentBid(p) == BidFeed(ledger)[0].amount
  {
    FeedHeadIsHighestBid(p, ledger);
  }
}

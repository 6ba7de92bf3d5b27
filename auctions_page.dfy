/** The public auctions page (AnticcaReale-main/AnticcaReale-main/src/pages/AuctionsPage.tsx):
    the auctions of the catalogue split into live, upcoming and ended groups by the
    clock alone (stock is not consulted), of which at most four ended ones are shown. */
module AuctionsPage {
  import opened Types
  import opened Seqs
  import opened Bidding
  import opened Lifecycle
  import AuctionSection
  import AdminAuctions

  /** How many ended auctions the page shows. */
  const EndedShown: nat := 4

  predicate ListedLive(p: Product, now: int)
  {
    now >= TimeOrEpoch(p.auctionStartTime) && now <= TimeOrEpoch(p.auctionEndTime)
  }

  predicate ListedUpcoming(p: Product, now: int)
  {
    now < TimeOrEpoch(p.auctionStartTime)
  }

  predicate ListedEnded(p: Product, now: int)
  {
    now > TimeOrEpoch(p.auctionEndTime)
  }

  function ListedLiveAt(now: int): Product -> bool { p => ListedLive(p, now) }
  function ListedUpcomingAt(now: int): Product -> bool { p => ListedUpcoming(p, now) }
  function ListedEndedAt(now: int): Product -> bool { p => ListedEnded(p, now) }

  /** `liveAuctions`. */
  function LiveAuctions(products: seq<Product>, now: int): (r: seq<Product>)
    ensures forall i :: 0 <= i < |r| ==> InWindow(r[i], now)
    ensures multiset(r) <= multiset(products)
  {
    FilterSound(products, ListedLiveAt(now));
    Filter(products, ListedLiveAt(now))
  }

  /** `upcomingAuctions`. */
  function UpcomingAuctions(products: seq<Product>, now: int): (r: seq<Product>)
    ensures forall i :: 0 <= i < |r| ==> now < TimeOrEpoch(r[i].auctionStartTime)
    ensures multiset(r) <= multiset(products)
  {
    FilterSound(products, ListedUpcomingAt(now));
    Filter(products, ListedUpcomingAt(now))
  }

  /** `endedAuctions`. */
  function EndedAuctions(products: seq<Product>, now: int): (r: seq<Product>)
    ensures forall i :: 0 <= i < |r| ==> now > TimeOrEpoch(r[i].auctionEndTime)
    ensures multiset(r) <= multiset(products)
  {
    FilterSound(products, ListedEndedAt(now));
    Filter(products, ListedEndedAt(now))
  }

  /** `endedAuctions.slice(0, 4)`: at most four, the first ones of the ended group. */
  function ShownEnded(products: seq<Product>, now: int): (r: seq<Product>)
    ensures |r| <= EndedShown
    ensures r <= EndedAuctions(products, now)
    ensures |EndedAuctions(products, now)| >= EndedShown ==> |r| == EndedShown
    ensures |r| == Min(EndedShown, |EndedAuctions(products, now)|)
  {
    Take(EndedAuctions(products, now), EndedShown)
  }

  /** Each group holds exactly the products that meet its test. */
  lemma GroupMembership(products: seq<Product>, now: int, x: Product)
    ensures x in LiveAuctions(products, now) <==> x in products && InWindow(x, now)
    ensures x in UpcomingAuctions(products, now) <==> x in products && now < TimeOrEpoch(x.auctionStartTime)
    ensures x in EndedAuctions(products, now) <==> x in products && now > TimeOrEpoch(x.auctionEndTime)
  {
    FilterMembership(products, ListedLiveAt(now), x);
    FilterMembership(products, ListedUpcomingAt(now), x);
    FilterMembership(products, ListedEndedAt(now), x);
  }

  /** The live group is disjoint from the other two, and a product whose start is not
      after its end lands in exactly one group; the live group is the shared lifecycle's
      live phase. */
  lemma GroupsOfOneProduct(p: Product, now: int)
    ensures !(ListedLive(p, now) && ListedUpcoming(p, now))
    ensures !(ListedLive(p, now) && ListedEnded(p, now))
    ensures TimeOrEpoch(p.auctionStartTime) <= TimeOrEpoch(p.auctionEndTime) ==>
      !(ListedUpcoming(p, now) && ListedEnded(p, now))
      && (ListedLive(p, now) || ListedUpcoming(p, now) || ListedEnded(p, now))
    ensures ListedLive(p, now) <==>
      WindowPhase(now, TimeOrEpoch(p.auctionStartTime), TimeOrEpoch(p.auctionEndTime)) == Live
  {
  }

  /** A product with its start after its end is both upcoming and ended (and shown twice). */
  lemma InvertedWindowIsListedTwice(p: Product, now: int)
    requires TimeOrEpoch(p.auctionEndTime) < now < TimeOrEpoch(p.auctionStartTime)
    ensures p in UpcomingAuctions([p], now) && p in EndedAuctions([p], now)
    ensures p !in LiveAuctions([p], now)
  {
    GroupMembership([p], now, p);
  }

  /** When no listed window is inverted, the three groups together hold each product once. */
  lemma {:induction false} GroupsPartitionListing(products: seq<Product>, now: int)
    requires forall i :: 0 <= i < |products| ==>
      TimeOrEpoch(products[i].auctionStartTime) <= TimeOrEpoch(products[i].auctionEndTime)
    ensures |LiveAuctions(products, now)| + |UpcomingAuctions(products, now)|
            + |EndedAuctions(products, now)| == |products|
  {
    if products != [] {
      GroupsPartitionListing(products[1..], now);
      GroupsOfOneProduct(products[0], now);
    }
  }

  /** The page's live group and the product panel agree on every product in stock; on a
      sold-out auction still inside its window the page says live while the panel shows
      the sold card. */
  lemma PageAndPanelAgreeOnStock(p: Product, now: int)
    ensures p.stock > 0 ==> (ListedLive(p, now) <==> AuctionSection.IsLive(p, now))
    ensures p.stock <= 0 ==> !AuctionSection.IsLive(p, now) && AuctionSection.ViewOf(p, now).SoldView?
  {
  }

  /** The admin badge agrees with the page's groups whenever both times are present; a
      product missing a time is badged 'Unknown' although the page places it in a group. */
  lemma PageAndAdminAgree(p: Product, now: int)
    ensures AdminAuctions.AuctionStatus(p, now) == AdminAuctions.Known(Live) ==> ListedLive(p, now)
    ensures AdminAuctions.AuctionStatus(p, now) == AdminAuctions.Known(Upcoming) ==> ListedUpcoming(p, now)
    ensures AdminAuctions.AuctionStatus(p, now) == AdminAuctions.Known(Ended) ==> ListedEnded(p, now)
    ensures AdminAuctions.AuctionStatus(p, now).Known? && ListedLive(p, now) ==>
      AdminAuctions.AuctionStatus(p, now) == AdminAuctions.Known(Live)
  {
  }
}

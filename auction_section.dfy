/** The auction panel of a product page (AnticcaReale-main/src/components/product/
    AuctionSection.tsx): the status flags it derives from the clock, the bid amount it
    suggests, the controls it offers, and its two handlers, which call the settlement
    engine of module Bidding. */
module AuctionSection {
  import opened Types
  import opened Bidding
  import opened Lifecycle

  /** `minimumBidIncrement || 100`: the panel's increment when the product sets none
      (the server's default is 0). */
  const DefaultIncrement: int := 100

  /** `isUpcoming`: the start time has not been reached. */
  predicate IsUpcoming(p: Product, now: int)
  {
    now < TimeOrEpoch(p.auctionStartTime)
  }

  /** `isEnded`: past the end time, or nothing left to sell. */
  predicate IsEnded(p: Product, now: int)
  {
    now > TimeOrEpoch(p.auctionEndTime) || p.stock <= 0
  }

  /** `isLive = !isUpcoming && !isEnded`. Unlike the listings, the panel counts stock. */
  predicate IsLive(p: Product, now: int)
    ensures IsLive(p, now) <==> InWindow(p, now) && p.stock > 0
    ensures IsLive(p, now) <==>
      WindowPhase(now, TimeOrEpoch(p.auctionStartTime), TimeOrEpoch(p.auctionEndTime)) == Live
      && p.stock > 0
  {
    !IsUpcoming(p, now) && !IsEnded(p, now)
  }

  /** The increment the panel uses. */
  function ClientIncrement(p: Product): int
  {
    if p.minimumBidIncrement != 0 then p.minimumBidIncrement else DefaultIncrement
  }

  /** `nextMinBid`: the amount the bid form is preset to and shows as its minimum. */
  function NextMinBid(p: Product): int
  {
    var currentBid := CurrentBid(p);
    var minIncrement := ClientIncrement(p);
    if HasBid(p) then currentBid + minIncrement else p.startingBid
  }

  /** The suggested amount always clears the server's floor when the increment is not
      negative. It is exactly the floor when the product sets an increment, and one
      client default (100) above it when the product has a bid but sets none. */
  lemma SuggestedBidClearsFloor(p: Product)
    requires p.minimumBidIncrement >= 0
    ensures NextMinBid(p) >= BidFloor(p)
    ensures p.minimumBidIncrement != 0 ==> NextMinBid(p) == BidFloor(p)
    ensures HasBid(p) && p.minimumBidIncrement == 0 ==> NextMinBid(p) == BidFloor(p) + DefaultIncrement
    ensures !HasBid(p) ==> NextMinBid(p) == BidFloor(p) == p.startingBid
  {
  }

  /** Hence a signed-in user who submits the preset amount on a live panel is accepted,
      unless that amount reaches the buy-now price. */
  lemma SuggestedBidIsAccepted(p: Product, u: User, now: int)
    requires p.saleType == Auction && IsLive(p, now) && p.minimumBidIncrement >= 0
    requires !(HasBuyNow(p) && NextMinBid(p) >= p.buyNowPrice)
    ensures BidOutcome(Some(p), NextMinBid(p), Some(u), now).Ok?
  {
    SuggestedBidClearsFloor(p);
  }

  /** What the panel renders: the "sold" card, or the live panel with its controls. */
  datatype View =
    | SoldView
    | PanelView(buyNowButton: bool, bidForm: bool)

  function ViewOf(p: Product, now: int): (v: View)
    ensures v.SoldView? <==> p.stock <= 0
    ensures v.PanelView? ==> (v.bidForm <==> InWindow(p, now))
    ensures v.PanelView? ==> (v.buyNowButton <==> HasBuyNow(p) && InWindow(p, now))
  {
    if IsEnded(p, now) && p.stock <= 0 then SoldView
    else PanelView(HasBuyNow(p) && IsLive(p, now), IsLive(p, now))
  }

  /** Every control the panel offers on an auction is one the server honours at that
      instant: the buy-now button leads to a committed purchase, and through the bid
      form the server accepts exactly the amounts between the floor and the buy-now
      price. */
  lemma OfferedControlsAreHonoured(p: Product, u: User, now: int)
    requires p.saleType == Auction
    ensures ViewOf(p, now).PanelView? && ViewOf(p, now).buyNowButton ==>
      BuyNowOutcome(Some(p), Some(u), now).Ok?
    ensures ViewOf(p, now).PanelView? && ViewOf(p, now).bidForm ==>
      forall amount :: BidOutcome(Some(p), amount, Some(u), now).Ok? <==>
        amount >= BidFloor(p) && !(HasBuyNow(p) && amount >= p.buyNowPrice)
  {
  }

  /** The converse fails: the server sells through buy-now before the start time (it
      checks only the end), while the panel shows no buy-now button then. */
  lemma BuyNowBeforeStartIsAcceptedButNotOffered(p: Product, u: User, now: int)
    requires p.saleType == Auction && HasBuyNow(p) && p.stock > 0
    requires now < TimeOrEpoch(p.auctionStartTime) <= TimeOrEpoch(p.auctionEndTime)
    ensures ViewOf(p, now) == PanelView(false, false)
    ensures BuyNowOutcome(Some(p), Some(u), now).Ok?
  {
  }

  /** The message the panel shows: a sign-in notice, or the error the server threw. */
  datatype Notice = SignInRequired(text: string) | Rejected(error: BidError)

  /** The panel's own state: `error`, `loading` and `success`. */
  class AuctionPanel {
    var error: Option<Notice>
    var loading: bool
    var success: bool

    constructor ()
      ensures error == None && !loading && !success
    {
      error := None;
      loading := false;
      success := false;
    }

    /** `handleBid`: without a user it only sets the notice and never reaches the store. */
    method HandleBid(store: AuctionStore, productId: string, bidAmount: int, user: Option<User>, now: int)
      modifies this, store
      ensures user.None? ==>
        && error == Some(SignInRequired("Teklif vermek için giriş yapmalısınız."))
        && loading == old(loading) && success == old(success)
        && store.products == old(store.products) && store.bids == old(store.bids)
      ensures user.Some? ==>
        var o := BidOutcome(Lookup(old(store.products), productId), bidAmount, user, now);
        && !loading
        && (o.Ok? ==>
              && success && error == None
              && store.products == old(store.products)[productId := o.value]
              && store.bids == old(store.bids)[productId := LedgerOf(old(store.bids), productId)
                                 + [BidEntry(productId, user.value.uid, bidAmount, now, false)]])
        && (o.Err? ==>
              && success == old(success) && error == Some(Rejected(o.error))
              && store.products == old(store.products) && store.bids == old(store.bids))
    {
      if user.None? {
        error := Some(SignInRequired("Teklif vermek için giriş yapmalısınız."));
        return;
      }
      error := None;
      loading := true;
      var r := store.PlaceBid(productId, bidAmount, user, now);
      if r.Ok? {
        success := true;
      } else {
        error := Some(Rejected(r.error));
      }
      loading := false;
    }

    /** `handleBuyNow`: without a user it only sets the notice; when the confirmation
        dialog is dismissed nothing changes at all. */
    method HandleBuyNow(store: AuctionStore, productId: string, user: Option<User>, confirmed: bool, now: int)
      modifies this, store
      ensures user.None? ==>
        && error == Some(SignInRequired("Giriş yapmalısınız."))
        && loading == old(loading) && success == old(success)
        && store.products == old(store.products) && store.bids == old(store.bids)
      ensures user.Some? && !confirmed ==>
        && error == old(error) && loading == old(loading) && success == old(success)
        && store.products == old(store.products) && store.bids == old(store.bids)
      ensures user.Some? && confirmed ==>
        var o := BuyNowOutcome(Lookup(old(store.products), productId), user, now);
        && !loading
        && (o.Ok? ==>
              && success && error == None
              && store.products == old(store.products)[productId := o.value]
              && store.bids == old(store.bids)[productId := LedgerOf(old(store.bids), productId)
                   + [BidEntry(productId, user.value.uid, old(store.products)[productId].buyNowPrice, now, true)]])
        && (o.Err? ==>
              && success == old(success) && error == Some(Rejected(o.error))
              && store.products == old(store.products) && store.bids == old(store.bids))
    {
      if user.None? {
        error := Some(SignInRequired("Giriş yapmalısınız."));
        return;
      }
      if !confirmed {
        return;
      }
      error := None;
      loading := true;
      var r := store.BuyNow(productId, user, now);
      if r.Ok? {
        success := true;
      } else {
        error := Some(Rejected(r.error));
      }
      loading := false;
    }
  }
}

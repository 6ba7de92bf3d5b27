/** The auction lifecycle. It is never stored: every page derives it from the clock and
    the product's window. This module holds the shared classifier; the page modules
    (AuctionSection, AdminAuctions, AuctionsPage, HomePage) each compute their own
    variant, and their lemmas relate the variants to this one and to each other. */
module Lifecycle {

  datatype Phase = Upcoming | Live | Ended

  /** Upcoming before the start, ended after the end, live in between; both ends of the
      window are inclusive, and the start is checked first. */
  function WindowPhase(now: int, start: int, end: int): Phase
  {
    if now < start then Upcoming
    else if now > end then Ended
    else Live
  }
}

/**
 * An incoming bid with everything that hangs from its idpk: its HOLD and the swap
 * intention that is dispatched to the wallet. Wallet facts are applied here.
 */
module Deals {
  import opened Common
  import opened Money

  /** A UUID as the integer that its canonical text spells. */
  type Uuid = nat

  datatype Bid = Bid(idpk: Uuid, msgId: Uuid, buyer: string, quantity: nat, createdAt: int)

  datatype BidStatus = PENDING | RESERVED | ACCEPTED | REJECTED_BID | EXPIRED_BID

  datatype Reason = QuantityUnavailable | OfferWithdrawn | BidTooSmall | MarketClosed | SelfTrade

  datatype HoldStatus = HOLD | COMMITTED | RELEASED

  datatype Reservation = Reservation(quantity: nat, status: HoldStatus)

  datatype SwapStatus = SUBMITTED | PROPOSED | SETTLED | REJECTED | CANCELLED | EXPIRED

  predicate Terminal(s: SwapStatus) { s in {SETTLED, REJECTED, CANCELLED, EXPIRED} }

  /** Amounts are in ten-thousandths of their asset: KWH given, CR taken. */
  datatype Swap = Swap(
    key: Uuid, give: int, take: int, counterpart: string, memo: string,
    status: SwapStatus, swapId: Option<string>, token: Option<string>, expiresAt: Option<int>,
    rejection: Option<string>,
    attempts: nat, proposalExpiresAt: Option<int>, claimToken: Option<Uuid>, leaseUntil: Option<int>,
    retryAt: Option<int>, httpAcceptedAt: Option<int>, blockedAt: Option<int>, lastError: Option<string>)

  datatype Deal = Deal(
    bid: Bid, status: BidStatus, reason: Option<Reason>, acceptedPrice: Option<nat>,
    reservation: Option<Reservation>, swap: Option<Swap>)

  /** The rows that a reservation creates, priced at the offer's price of that moment. */
  function Reserved(bid: Bid, price: nat, offerId: string): Deal {
    Deal(bid, RESERVED, None, Some(price), Some(Reservation(bid.quantity, HOLD)),
         Some(Swap(bid.idpk, bid.quantity * PRICE_SCALE, Amount(bid.quantity, price) * PRICE_PER_CENT,
                   bid.buyer, offerId, SUBMITTED, None, None, None, None,
                   0, None, None, None, None, None, None, None)))
  }

  // ---- Wallet facts -----------------------------------------------------

  datatype Fact = SwapProposed | SwapSettled | SwapRejected(reason: Option<string>) | SwapExpired | SwapCancelled

  /** An event, or a state read back from the wallet, that was correlated with the swap. */
  datatype Event = Event(fact: Fact, swapId: Option<string>, token: Option<string>, expiresAt: Option<int>)

  datatype HoldEffect = KEEP | COMMIT | RELEASE

  function Merge<T>(current: Option<T>, incoming: Option<T>): Option<T> {
    if incoming.Some? then incoming else current
  }

  function FactStatus(f: Fact): SwapStatus {
    match f
    case SwapProposed => PROPOSED
    case SwapSettled => SETTLED
    case SwapRejected(_) => REJECTED
    case SwapExpired => EXPIRED
    case SwapCancelled => CANCELLED
  }

  function RejectionAfter(s: Swap, f: Fact): Option<string> {
    if !f.SwapRejected? then s.rejection
    else if f.reason.Some? then f.reason else Some("UNKNOWN_REJECTION")
  }

  /** A terminal swap keeps its status, except that a late settlement is a real fact. */
  function AfterTerminal(s: Swap, f: Fact): Swap
    requires Terminal(s.status)
  {
    if f.SwapSettled? && s.status != SETTLED then s.(status := SETTLED)
    else if s.status == REJECTED && f.SwapRejected? && f.reason.Some?
            && s.rejection in {None, Some("UNKNOWN_REJECTION")}
    then s.(rejection := f.reason)
    else s
  }

  function AfterEvent(s: Swap, e: Event): Swap {
    if Terminal(s.status) then AfterTerminal(s, e.fact)
    else s.(swapId := Merge(e.swapId, s.swapId), token := Merge(s.token, e.token),
            expiresAt := Merge(s.expiresAt, e.expiresAt),
            status := FactStatus(e.fact), rejection := RejectionAfter(s, e.fact))
  }

  /** What the event does to the HOLD: nothing once the swap was terminal. */
  function EffectOf(s: Swap, f: Fact): HoldEffect {
    if Terminal(s.status) || f.SwapProposed? then KEEP
    else if f.SwapSettled? then COMMIT else RELEASE
  }

  function Settle(r: Option<Reservation>, e: HoldEffect): Option<Reservation> {
    if r.None? || r.value.status != HOLD || e == KEEP then r
    else Some(r.value.(status := if e == COMMIT then COMMITTED else RELEASED))
  }

  /** The quantity that leaves the offer for good. */
  function Committed(d: Deal, e: HoldEffect): nat {
    if e == COMMIT && d.reservation.Some? && d.reservation.value.status == HOLD
    then d.reservation.value.quantity else 0
  }

  function ProcessEvent(d: Deal, e: Event): Deal
    requires d.swap.Some?
  {
    d.(swap := Some(AfterEvent(d.swap.value, e)),
       reservation := Settle(d.reservation, EffectOf(d.swap.value, e.fact)))
  }

  function BidExpired(d: Deal): Deal {
    if d.status in {EXPIRED_BID, REJECTED_BID} then d else d.(status := EXPIRED_BID)
  }
}

/**
 * The selling side of one cycle: bids come in against the local offer, are answered
 * or reserved, and each reservation lives on as a swap intention.
 */
module SellerMarket {
  import opened Common
  import opened Money
  import opened Deals
  import opened Allocation
  import opened Sorting
  import opened SwapDispatch
  import OfferEvents

  /** A bid as the buyer sent it. */
  datatype BidMessage = BidMessage(
    msgId: Uuid, idpk: Uuid, buyer: string, cycle: string, offerId: string, quantity: int)

  /** A commercial answer in the outbox; `buyer` is its routing key. */
  datatype Answer =
    | Accepted(target: Uuid, cycle: string, offerId: string, buyer: string, quantity: nat, price: nat,
               amount: nat, swapId: string, token: string, expiresAt: int)
    | Rejected(target: Uuid, cycle: string, offerId: string, buyer: string, requested: int,
               reason: Reason, code: nat, available: Option<int>)

  /** The cycle's offer with its bids, the answers sent, and the claimed idpk with their msgId. */
  datatype Market = Market(
    seller: OfferEvents.Seller, deals: seq<Deal>, answers: seq<Answer>, claimed: map<Uuid, Uuid>)

  /** What the cycle says about its market; `minBid` comes from the status statement. */
  datatype Calendar = Calendar(
    opensAt: Option<int>, lastOfferAt: Option<int>, lastBidAt: Option<int>, closesAt: Option<int>,
    marketClosed: bool, minBid: Option<int>)

  /** Errors that roll the transaction back. */
  datatype Fault = BidUnknown | ReservedWithoutSwap | InconsistentReservation
                 | ConflictingRejection | InvalidRejection

  function OfferWindow(c: Calendar): OfferEvents.Window {
    OfferEvents.Window(c.lastOfferAt, c.closesAt, c.marketClosed)
  }

  predicate WindowOpen(c: Calendar, now: int) {
    && c.opensAt.Some? && c.lastBidAt.Some? && c.closesAt.Some?
    && c.opensAt.value <= now < c.lastBidAt.value && now < c.closesAt.value
    && !c.marketClosed
  }

  predicate Active(s: OfferEvents.Seller) {
    s.offer.Some? && s.offer.value.status == OfferEvents.ACTIVE
  }

  // ---- Availability -----------------------------------------------------

  function Sum(f: Deal -> nat, deals: seq<Deal>): nat {
    if deals == [] then 0 else Sum(f, deals[..|deals| - 1]) + f(deals[|deals| - 1])
  }

  function QuantityIn(d: Deal, status: HoldStatus): nat {
    if d.reservation.Some? && d.reservation.value.status == status then d.reservation.value.quantity else 0
  }

  function HeldBy(d: Deal): nat { QuantityIn(d, HOLD) }
  function SoldBy(d: Deal): nat { QuantityIn(d, COMMITTED) }

  function Held(deals: seq<Deal>): nat { Sum(HeldBy, deals) }
  function Sold(deals: seq<Deal>): nat { Sum(SoldBy, deals) }

  function OneIfReserved(d: Deal): nat { if d.status == RESERVED then 1 else 0 }
  function OneIfRejected(d: Deal): nat { if d.status == REJECTED_BID then 1 else 0 }
  function ReservedCount(deals: seq<Deal>): nat { Sum(OneIfReserved, deals) }
  function RejectedCount(deals: seq<Deal>): nat { Sum(OneIfRejected, deals) }

  /** So many bids more are reserved, and so many more are rejected. */
  ghost predicate Counted(before: seq<Deal>, after: seq<Deal>, reserved: nat, rejected: nat) {
    ReservedCount(after) == ReservedCount(before) + reserved && RejectedCount(after) == RejectedCount(before) + rejected
  }

  lemma CountOfDecision(deals: seq<Deal>, k: nat, d: Deal)
    requires k < |deals| && deals[k].status == PENDING && d.status in {RESERVED, REJECTED_BID}
    ensures Counted(deals, deals[k := d], OneIfReserved(d), OneIfRejected(d))
  {
    SumOfChange(OneIfReserved, deals, k, d);
    SumOfChange(OneIfRejected, deals, k, d);
  }

  lemma {:induction false} SumOfChange(f: Deal -> nat, deals: seq<Deal>, k: nat, d: Deal)
    requires k < |deals|
    ensures Sum(f, deals[k := d]) == Sum(f, deals) - f(deals[k]) + f(d)
  {
    var n := |deals| - 1;
    if k == n {
      assert deals[k := d][..n] == deals[..n];
    } else {
      SumOfChange(f, deals[..n], k, d);
      assert deals[k := d][..n] == deals[..n][k := d];
    }
  }

  function Available(m: Market): nat {
    if m.seller.offer.None? then 0 else Max(0, m.seller.offer.value.remaining - Held(m.deals))
  }

  // ---- Rejection --------------------------------------------------------

  predicate ValidCity(s: string) {
    |s| == 3 && forall c | c in s :: 'A' <= c <= 'Z' || '0' <= c <= '9'
  }

  function Code(r: Reason): nat {
    match r
    case QuantityUnavailable => 409
    case BidTooSmall => 422
    case OfferWithdrawn => 410
    case MarketClosed => 410
    case SelfTrade => 422
  }

  function Rejection(msg: BidMessage, reason: Reason, available: int): Answer {
    Rejected(msg.msgId, msg.cycle, msg.offerId, msg.buyer, msg.quantity, reason, Code(reason),
             if reason.QuantityUnavailable? then Some(available) else None)
  }

  /** The checks on the answer itself. */
  predicate WellFormed(a: Answer)
    requires a.Rejected?
  {
    && ValidCity(a.buyer) && a.cycle != "" && a.offerId != "" && a.requested >= 1
    && (if a.reason.QuantityUnavailable? then a.available.Some? && 0 <= a.available.value < a.requested
        else a.available.None?)
  }

  predicate RejectsTarget(a: Answer, target: Uuid) { a.Rejected? && a.target == target }

  /** One rejection per message: the same one again is a repeat, another is a conflict. */
  function Reject(answers: seq<Answer>, a: Answer): Result<seq<Answer>, Fault>
    requires a.Rejected?
  {
    if !WellFormed(a) then Err(InvalidRejection)
    else match FirstRejection(answers, a.target)
      case None => Ok(answers + [a])
      case Some(k) => if answers[k] == a then Ok(answers) else Err(ConflictingRejection)
  }

  function FirstRejection(answers: seq<Answer>, target: Uuid): (k: Option<nat>)
    ensures k.Some? ==> k.value < |answers| && RejectsTarget(answers[k.value], target)
    ensures k.Some? ==> forall i | 0 <= i < k.value :: !RejectsTarget(answers[i], target)
    ensures k.None? ==> forall i | 0 <= i < |answers| :: !RejectsTarget(answers[i], target)
  {
    if answers == [] then None
    else
      var n := |answers| - 1;
      var k := FirstRejection(answers[..n], target);
      if k.Some? then k else if RejectsTarget(answers[n], target) then Some(n) else None
  }

  // ---- Reservation ------------------------------------------------------

  function Find(deals: seq<Deal>, idpk: Uuid): (k: Option<nat>)
    ensures k.Some? ==> k.value < |deals| && deals[k.value].bid.idpk == idpk
    ensures k.Some? ==> forall i | 0 <= i < k.value :: deals[i].bid.idpk != idpk
    ensures k.None? ==> forall i | 0 <= i < |deals| :: deals[i].bid.idpk != idpk
  {
    if deals == [] then None
    else
      var n := |deals| - 1;
      var k := Find(deals[..n], idpk);
      if k.Some? then k else if deals[n].bid.idpk == idpk then Some(n) else None
  }

  function ReserveVerdict(m: Market, b: Bid, c: Calendar, now: int): Option<Reason> {
    if !WindowOpen(c, now) then Some(MarketClosed)
    else if !Active(m.seller) then Some(OfferWithdrawn)
    else if b.buyer == CITY_ID then Some(SelfTrade)
    else if c.minBid.None? || c.minBid.value <= 0 then Some(MarketClosed)
    else if b.quantity < c.minBid.value then Some(BidTooSmall)
    else if b.quantity > Available(m) then Some(QuantityUnavailable)
    else None
  }

  /** The message that a stored bid answers to. */
  function MessageOf(m: Market, b: Bid): BidMessage {
    BidMessage(b.msgId, b.idpk, b.buyer,
               if m.seller.offer.Some? then m.seller.offer.value.cycle else "",
               if m.seller.offer.Some? then m.seller.offer.value.offerId else "", b.quantity)
  }

  function Refuse(m: Market, k: nat, reason: Reason): Result<Market, Fault>
    requires k < |m.deals|
  {
    match Reject(m.answers, Rejection(MessageOf(m, m.deals[k].bid), reason, Available(m)))
    case Err(e) => Err(e)
    case Ok(answers) =>
      Ok(m.(answers := answers, deals := m.deals[k := m.deals[k].(status := REJECTED_BID, reason := Some(reason))]))
  }

  function Decide(m: Market, k: nat, c: Calendar, now: int): Result<Market, Fault>
    requires k < |m.deals|
  {
    var d := m.deals[k];
    match ReserveVerdict(m, d.bid, c, now)
    case Some(reason) => Refuse(m, k, reason)
    case None =>
      if d.reservation.Some? || d.swap.Some? then Err(InconsistentReservation)
      else
        var o := m.seller.offer.value;
        Ok(m.(deals := m.deals[k := Reserved(d.bid, o.price, o.offerId)]))
  }

  /** The HOLD and the swap intention, or the rejection, of one bid. */
  function Reserve(m: Market, idpk: Uuid, c: Calendar, now: int): Result<Market, Fault> {
    match Find(m.deals, idpk)
    case None => Err(BidUnknown)
    case Some(k) =>
      if m.deals[k].status == PENDING then Decide(m, k, c, now)
      else if m.deals[k].status == RESERVED && m.deals[k].swap.None? then Err(ReservedWithoutSwap)
      else Ok(m)
  }

  // ---- Ingress ----------------------------------------------------------

  predicate Malformed(msg: BidMessage) {
    msg.cycle == "" || !ValidCity(msg.buyer) || msg.offerId == "" || msg.quantity <= 0
  }

  predicate NamesOffer(m: Market, msg: BidMessage) {
    m.seller.offer.Some? && m.seller.offer.value.offerId == msg.offerId && m.seller.offer.value.cycle == msg.cycle
  }

  function IngressVerdict(m: Market, msg: BidMessage, c: Calendar, now: int): Option<Reason> {
    if msg.buyer == CITY_ID then Some(SelfTrade)
    else if !WindowOpen(c, now) then Some(MarketClosed)
    else if !NamesOffer(m, msg) || !Active(m.seller) then Some(OfferWithdrawn)
    else if c.minBid.None? || c.minBid.value < 1 then Some(MarketClosed)
    else if msg.quantity < c.minBid.value then Some(BidTooSmall)
    else if msg.quantity > Available(m) then Some(QuantityUnavailable)
    else None
  }

  function Recorded(msg: BidMessage, reason: Option<Reason>, now: int): Deal
    requires msg.quantity >= 0
  {
    Deal(Bid(msg.idpk, msg.msgId, msg.buyer, msg.quantity, now),
         if reason.Some? then REJECTED_BID else PENDING, reason, None, None, None)
  }

  function Store(m: Market, msg: BidMessage, reason: Option<Reason>, now: int): Market
    requires msg.quantity >= 0
  {
    m.(claimed := m.claimed[msg.idpk := msg.msgId],
       deals := if NamesOffer(m, msg) then m.deals + [Recorded(msg, reason, now)] else m.deals)
  }

  /** A new, well-formed bid: stored when it names the local offer, and answered when refused. */
  function Admit(m: Market, msg: BidMessage, c: Calendar, p: Policy, now: int): Result<Market, Fault>
    requires msg.quantity >= 0
  {
    var reason := IngressVerdict(m, msg, c, now);
    var stored := Store(m, msg, reason, now);
    match reason
    case Some(r) =>
      (match Reject(m.answers, Rejection(msg, r, Available(m)))
       case Err(e) => Err(e)
       case Ok(answers) => Ok(stored.(answers := answers)))
    case None => if p == FIFO then Reserve(stored, msg.idpk, c, now) else Ok(stored)
  }

  /** `outgoing`: the idpk belongs to a bid of this city's own. */
  function Ingress(m: Market, msg: BidMessage, c: Calendar, p: Policy, outgoing: bool, now: int): Result<Market, Fault> {
    if msg.idpk in m.claimed then Ok(m)
    else if Malformed(msg) || outgoing then Ok(m)
    else match Find(m.deals, msg.idpk)
      case Some(k) =>
        if NamesOffer(m, msg) && m.deals[k].bid.buyer == msg.buyer && m.deals[k].bid.quantity == msg.quantity
        then Ok(m.(claimed := m.claimed[msg.idpk := msg.msgId])) else Ok(m)
      case None => Admit(m, msg, c, p, now)
  }

  // ---- Batches ----------------------------------------------------------

  const COLLECT := 2 * SECOND
  const CUTOFF_GUARD := 5 * SECOND

  function PendingBids(deals: seq<Deal>): seq<Bid> {
    if deals == [] then []
    else
      var d := deals[|deals| - 1];
      PendingBids(deals[..|deals| - 1]) + (if d.status == PENDING then [d.bid] else [])
  }

  function ByCreation(a: Bid, b: Bid): bool { a.createdAt <= b.createdAt }

  function Waiting(m: Market): seq<Bid> { Sort(ByCreation, PendingBids(m.deals)) }

  predicate Due(bids: seq<Bid>, p: Policy, c: Calendar, now: int)
    requires bids != []
  {
    || p == FIFO || c.lastBidAt.None?
    || now >= bids[0].createdAt + COLLECT
    || now >= c.lastBidAt.value - CUTOFF_GUARD
  }

  function ReserveAll(m: Market, order: seq<Bid>, c: Calendar, now: int): Result<Market, Fault> {
    if order == [] then Ok(m)
    else
      var n := |order| - 1;
      match ReserveAll(m, order[..n], c, now)
      case Err(e) => Err(e)
      case Ok(m') => Reserve(m', order[n].idpk, c, now)
  }

  /** What the worker reports of one offer. */
  datatype Tally = Tally(processed: nat, reserved: nat, rejected: nat, waiting: nat, skippedFifo: nat)

  /** What the decision did to the bid; a bid that was not pending is a duplicate. */
  datatype Outcome = NEWLY_RESERVED | NEWLY_REJECTED | DUPLICATE_BID

  /** One tick of the batch worker: all pending bids are decided, or none. */
  function ProcessDue(m: Market, p: Policy, c: Calendar, now: int): Result<Market, Fault> {
    var bids := Waiting(m);
    if m.seller.offer.None? || bids == [] || !Due(bids, p, c, now) then Ok(m)
    else ReserveAll(m, Ordered(bids, p), c, now)
  }

  // ---- Wallet events and dispatch ---------------------------------------

  datatype DealStep =
    | Claims(token: Uuid, now: int)
    | Finishes(attempt: Attempt, now: int, outcome: SwapDispatch.Outcome, error: Option<string>,
               retryAfter: Option<int>, confirmed: Option<string>)
    | Observes(observation: Observation)
    | Sweeps(now: int, reply: Lookup)
    | Happens(event: Event)

  function DealAfter(d: Deal, s: DealStep): Deal
    requires d.swap.Some?
  {
    match s
    case Claims(token, now) => Claim(d, token, now)
    case Finishes(a, now, o, error, retryAfter, confirmed) =>
      d.(swap := Some(Finished(d.swap.value, a, now, o, error, retryAfter, confirmed)))
    case Observes(o) => ApplyObservation(d, o)
    case Sweeps(now, reply) => Sweep(d, now, reply)
    case Happens(e) => ProcessEvent(d, e)
  }

  /** The quantity that the change of one deal takes from the offer. */
  function Sale(d: Deal, d': Deal): nat {
    if SoldBy(d) == 0 then SoldBy(d') else 0
  }

  /** The new rows of deal k; a sale lowers the offer and is announced. */
  function Replaced(m: Market, k: nat, d': Deal, w: OfferEvents.Window, ids: OfferEvents.Ids, now: int): Market
    requires k < |m.deals|
  {
    m.(deals := m.deals[k := d'],
       seller := if Sale(m.deals[k], d') > 0
                 then OfferEvents.Sell(m.seller, Sale(m.deals[k], d'), w, ids, now) else m.seller)
  }

  /** The central's swap-proposed: the event and what the answer is checked against. */
  datatype Proposal = Proposal(
    event: Event, key: Uuid, memo: string, proposer: string, give: int, take: int,
    assetsMatch: bool, tokenMatches: bool, central: bool)

  const TOLERANCE := 1_500_000

  predicate ProposalMatches(s: Swap, p: Proposal, now: int) {
    && p.central && s.status == PROPOSED && p.key == s.key
    && p.event.swapId.Some? && p.event.swapId.value != ""
    && p.event.expiresAt.Some? && p.event.expiresAt.value > now
    && s.swapId == p.event.swapId && s.memo == p.memo && p.proposer == CITY_ID
    && p.assetsMatch && p.give == s.give && p.take == s.take
    && p.tokenMatches && p.event.token.Some? && p.event.token.value != "" && s.token == p.event.token
    && s.expiresAt.Some? && -TOLERANCE <= s.expiresAt.value - p.event.expiresAt.value <= TOLERANCE
  }

  predicate TermsHold(d: Deal, offerId: string) {
    && d.swap.Some? && d.status == RESERVED
    && d.swap.value.memo == offerId && d.swap.value.counterpart == d.bid.buyer
    && d.swap.value.give == d.bid.quantity * PRICE_SCALE
    && d.acceptedPrice.Some?
    && d.swap.value.take == Amount(d.bid.quantity, d.acceptedPrice.value) * PRICE_PER_CENT
    && d.reservation == Some(Reservation(d.bid.quantity, HOLD))
  }

  predicate AcceptsTarget(a: Answer, target: Uuid) { a.Accepted? && a.target == target }

  predicate Acceptable(m: Market, k: nat, p: Proposal, now: int)
    requires k < |m.deals|
  {
    && m.seller.offer.Some? && TermsHold(m.deals[k], m.seller.offer.value.offerId)
    && ProposalMatches(m.deals[k].swap.value, p, now)
    && forall a | a in m.answers :: !AcceptsTarget(a, m.deals[k].bid.msgId)
  }

  function Acceptance(m: Market, k: nat, p: Proposal): Answer
    requires k < |m.deals| && m.seller.offer.Some? && m.deals[k].acceptedPrice.Some?
    requires p.event.swapId.Some? && p.event.token.Some? && p.event.expiresAt.Some?
  {
    var d, o := m.deals[k], m.seller.offer.value;
    Accepted(d.bid.msgId, o.cycle, o.offerId, d.bid.buyer, d.bid.quantity, d.acceptedPrice.value,
             Amount(d.bid.quantity, d.acceptedPrice.value),
             p.event.swapId.value, p.event.token.value, p.event.expiresAt.value)
  }

  function Accept(m: Market, k: nat, p: Proposal, now: int): Market
    requires k < |m.deals|
  {
    if Acceptable(m, k, p, now)
    then m.(answers := m.answers + [Acceptance(m, k, p)], deals := m.deals[k := m.deals[k].(status := ACCEPTED)])
    else m
  }

  // ---- The rows as an object --------------------------------------------

  class SellerDesk {
    var seller: OfferEvents.Seller
    var deals: seq<Deal>
    var answers: seq<Answer>
    var claimed: map<Uuid, Uuid>

    function State(): Market reads this { Market(seller, deals, answers, claimed) }

    constructor ()
      ensures State() == Market(OfferEvents.Seller(None, []), [], [], map[])
    {
      seller, deals, answers, claimed := OfferEvents.Seller(None, []), [], [], map[];
    }

    method AvailableKwh() returns (available: nat)
      ensures available == Available(State())
    {
      if seller.offer.None? {
        return 0;
      }
      var holds := 0;
      for i := 0 to |deals|
        invariant holds == Held(deals[..i])
      {
        if deals[i].reservation.Some? && deals[i].reservation.value.status == HOLD {
          holds := holds + deals[i].reservation.value.quantity;
        }
        assert deals[..i + 1][..i] == deals[..i];
      }
      assert deals[..|deals|] == deals;
      return Max(0, seller.offer.value.remaining - holds);
    }

    /** Ok tells whether a row was added. */
    method EnqueueBidRejected(a: Answer) returns (r: Result<bool, Fault>)
      requires a.Rejected?
      modifies this`answers
      ensures r.Ok? ==> Reject(old(answers), a) == Ok(answers) && (r.value <==> answers != old(answers))
      ensures r.Err? ==> Reject(old(answers), a) == Err(r.error) && answers == old(answers)
    {
      if !WellFormed(a) {
        return Err(InvalidRejection);
      }
      for i := 0 to |answers|
        invariant forall j | 0 <= j < i :: !RejectsTarget(answers[j], a.target)
      {
        if RejectsTarget(answers[i], a.target) {
          return if answers[i] == a then Ok(false) else Err(ConflictingRejection);
        }
      }
      answers := answers + [a];
      return Ok(true);
    }

    /** Err leaves all rows as they were. */
    method ReserveIncomingBid(idpk: Uuid, c: Calendar, now: int) returns (r: Result<Outcome, Fault>)
      modifies this`deals, this`answers
      ensures r.Ok? ==> Reserve(old(State()), idpk, c, now) == Ok(State())
      ensures r.Err? ==> Reserve(old(State()), idpk, c, now) == Err(r.error) && State() == old(State())
      ensures r.Ok? ==> Counted(old(deals), deals, if r.value == NEWLY_RESERVED then 1 else 0,
                                                   if r.value == NEWLY_REJECTED then 1 else 0)
    {
      var found := Find(deals, idpk);
      if found.None? {
        return Err(BidUnknown);
      }
      var k := found.value;
      if deals[k].status == RESERVED {
        return if deals[k].swap.None? then Err(ReservedWithoutSwap) else Ok(DUPLICATE_BID);
      }
      if deals[k].status != PENDING {
        return Ok(DUPLICATE_BID);
      }
      r := DecidePendingBid(k, c, now);
    }

    method DecidePendingBid(k: nat, c: Calendar, now: int) returns (r: Result<Outcome, Fault>)
      requires k < |deals| && deals[k].status == PENDING
      modifies this`deals, this`answers
      ensures r.Ok? ==> Decide(old(State()), k, c, now) == Ok(State())
      ensures r.Err? ==> Decide(old(State()), k, c, now) == Err(r.error) && State() == old(State())
      ensures r.Ok? ==> Counted(old(deals), deals, if r.value == NEWLY_RESERVED then 1 else 0,
                                                   if r.value == NEWLY_REJECTED then 1 else 0)
    {
      var available := AvailableKwh();
      var reason := None;
      if c.opensAt.None? || c.lastBidAt.None? || c.closesAt.None? || now < c.opensAt.value
         || now >= c.lastBidAt.value || now >= c.closesAt.value || c.marketClosed {
        reason := Some(MarketClosed);
      } else if seller.offer.None? || seller.offer.value.status != OfferEvents.ACTIVE {
        reason := Some(OfferWithdrawn);
      } else if deals[k].bid.buyer == CITY_ID {
        reason := Some(SelfTrade);
      } else if c.minBid.None? || c.minBid.value <= 0 {
        reason := Some(MarketClosed);
      } else if deals[k].bid.quantity < c.minBid.value {
        reason := Some(BidTooSmall);
      } else if deals[k].bid.quantity > available {
        reason := Some(QuantityUnavailable);
      }
      assert reason == ReserveVerdict(State(), deals[k].bid, c, now);
      if reason.Some? {
        var refused := RefusePendingBid(k, reason.value, available);
        return if refused.Some? then Err(refused.value) else Ok(NEWLY_REJECTED);
      }
      if deals[k].reservation.Some? || deals[k].swap.Some? {
        return Err(InconsistentReservation);
      }
      var reserved := Reserved(deals[k].bid, seller.offer.value.price, seller.offer.value.offerId);
      CountOfDecision(deals, k, reserved);
      deals := deals[k := reserved];
      return Ok(NEWLY_RESERVED);
    }

    method RefusePendingBid(k: nat, reason: Reason, available: int) returns (fault: Option<Fault>)
      requires k < |deals| && deals[k].status == PENDING && available == Available(State())
      modifies this`deals, this`answers
      ensures fault.None? ==> Refuse(old(State()), k, reason) == Ok(State())
      ensures fault.Some? ==> Refuse(old(State()), k, reason) == Err(fault.value) && State() == old(State())
      ensures fault.None? ==> Counted(old(deals), deals, 0, 1)
    {
      var rejected := EnqueueBidRejected(Rejection(MessageOf(State(), deals[k].bid), reason, available));
      if rejected.Err? {
        return Some(rejected.error);
      }
      var refused := deals[k].(status := REJECTED_BID, reason := Some(reason));
      CountOfDecision(deals, k, refused);
      deals := deals[k := refused];
      return None;
    }

    /** Err leaves all rows as they were; the claim of the idpk is part of the transaction. */
    method ProcessIncomingBid(msg: BidMessage, c: Calendar, p: Policy, outgoing: bool, now: int)
      returns (r: Result<(), Fault>)
      modifies this`deals, this`answers, this`claimed
      ensures r.Ok? ==> Ingress(old(State()), msg, c, p, outgoing, now) == Ok(State())
      ensures r.Err? ==> Ingress(old(State()), msg, c, p, outgoing, now) == Err(r.error) && State() == old(State())
    {
      if msg.idpk in claimed || Malformed(msg) || outgoing {
        return Ok(());
      }
      var found := Find(deals, msg.idpk);
      if found.Some? {
        var known := deals[found.value].bid;
        if NamesOffer(State(), msg) && known.buyer == msg.buyer && known.quantity == msg.quantity {
          claimed := claimed[msg.idpk := msg.msgId];
        }
        return Ok(());
      }
      var available := AvailableKwh();
      var reason := None;
      if msg.buyer == CITY_ID {
        reason := Some(SelfTrade);
      } else if !WindowOpen(c, now) {
        reason := Some(MarketClosed);
      } else if !NamesOffer(State(), msg) || !Active(seller) {
        reason := Some(OfferWithdrawn);
      } else if c.minBid.None? || c.minBid.value < 1 {
        reason := Some(MarketClosed);
      } else if msg.quantity < c.minBid.value {
        reason := Some(BidTooSmall);
      } else if msg.quantity > available {
        reason := Some(QuantityUnavailable);
      }
      if reason.Some? {
        var rejected := EnqueueBidRejected(Rejection(msg, reason.value, available));
        if rejected.Err? {
          return Err(rejected.error);
        }
      }
      var oldDeals, oldClaimed := deals, claimed;
      claimed := claimed[msg.idpk := msg.msgId];
      if NamesOffer(State(), msg) {
        deals := deals + [Recorded(msg, reason, now)];
      }
      if reason.None? && p == FIFO {
        var reserved := ReserveIncomingBid(msg.idpk, c, now);
        if reserved.Err? {
          deals, claimed := oldDeals, oldClaimed;
          return Err(reserved.error);
        }
      }
      return Ok(());
    }

    /** Decides the waiting bids in the policy's order; Err rolls the whole tick back. */
    method ProcessDueSellerBids(p: Policy, c: Calendar, now: int) returns (r: Result<Tally, Fault>)
      modifies this`deals, this`answers
      ensures r.Ok? ==> ProcessDue(old(State()), p, c, now) == Ok(State())
      ensures r.Err? ==> ProcessDue(old(State()), p, c, now) == Err(r.error) && State() == old(State())
      ensures r.Ok? ==> Counted(old(deals), deals, r.value.reserved, r.value.rejected)
      ensures r.Ok? ==>
        var bids := Waiting(old(State()));
        var taken := seller.offer.Some? && bids != [] && Due(bids, p, c, now);
        && r.value.processed == (if taken then 1 else 0)
        && r.value.skippedFifo == (if taken && p == FIFO then 1 else 0)
        && r.value.waiting == (if seller.offer.Some? && !taken then |bids| else 0)
    {
      var bids := Waiting(State());
      if seller.offer.None? || bids == [] {
        return Ok(Tally(0, 0, 0, 0, 0));
      }
      if !Due(bids, p, c, now) {
        return Ok(Tally(0, 0, 0, |bids|, 0));
      }
      var decided := ReserveInOrder(Ordered(bids, p), c, now);
      if decided.Err? {
        return Err(decided.error);
      }
      return Ok(Tally(1, decided.value.0, decided.value.1, 0, if p == FIFO then 1 else 0));
    }

    /** The new reservations and rejections. */
    method ReserveInOrder(order: seq<Bid>, c: Calendar, now: int) returns (r: Result<(nat, nat), Fault>)
      modifies this`deals, this`answers
      ensures r.Ok? ==> ReserveAll(old(State()), order, c, now) == Ok(State())
      ensures r.Err? ==> ReserveAll(old(State()), order, c, now) == Err(r.error) && State() == old(State())
      ensures r.Ok? ==> Counted(old(deals), deals, r.value.0, r.value.1)
    {
      var oldDeals, oldAnswers := deals, answers;
      var reserved, rejected := 0, 0;
      for i := 0 to |order|
        invariant ReserveAll(old(State()), order[..i], c, now) == Ok(State())
        invariant seller == old(seller) && claimed == old(claimed)
        invariant Counted(oldDeals, deals, reserved, rejected)
      {
        assert order[..i + 1][..i] == order[..i];
        var outcome := ReserveIncomingBid(order[i].idpk, c, now);
        if outcome.Err? {
          ErrorStops(old(State()), order, i + 1, c, now);
          deals, answers := oldDeals, oldAnswers;
          return Err(outcome.error);
        }
        if outcome.value == NEWLY_RESERVED {
          reserved := reserved + 1;
        } else if outcome.value == NEWLY_REJECTED {
          rejected := rejected + 1;
        }
      }
      assert order[..|order|] == order;
      return Ok((reserved, rejected));
    }

    method EnqueueBidAcceptedAfterSwapProposed(k: nat, p: Proposal, now: int) returns (sent: bool)
      requires k < |deals|
      modifies this`deals, this`answers
      ensures State() == Accept(old(State()), k, p, now)
      ensures sent <==> Acceptable(old(State()), k, p, now)
    {
      if deals[k].swap.None? || !ProposalMatches(deals[k].swap.value, p, now) {
        return false;
      }
      if seller.offer.None? || !TermsHold(deals[k], seller.offer.value.offerId) {
        return false;
      }
      for i := 0 to |answers|
        invariant forall j | 0 <= j < i :: !AcceptsTarget(answers[j], deals[k].bid.msgId)
      {
        if AcceptsTarget(answers[i], deals[k].bid.msgId) {
          return false;
        }
      }
      answers := answers + [Acceptance(State(), k, p)];
      deals := deals[k := deals[k].(status := ACCEPTED)];
      return true;
    }

    /** One step of deal k's swap; a sale goes on to the offer. */
    method StepDeal(k: nat, s: DealStep, w: OfferEvents.Window, ids: OfferEvents.Ids, now: int)
      requires k < |deals| && deals[k].swap.Some?
      modifies this`deals, this`seller
      ensures State() == Replaced(old(State()), k, DealAfter(old(deals)[k], s), w, ids, now)
    {
      var d' := DealAfter(deals[k], s);
      var sale := Sale(deals[k], d');
      deals := deals[k := d'];
      if sale > 0 {
        seller := OfferEvents.Sell(seller, sale, w, ids, now);
      }
    }
  }

  /** A fault in a prefix of the order is the fault of the whole order. */
  lemma {:induction false} ErrorStops(m: Market, order: seq<Bid>, n: nat, c: Calendar, now: int)
    requires n <= |order| && ReserveAll(m, order[..n], c, now).Err?
    ensures ReserveAll(m, order, c, now) == ReserveAll(m, order[..n], c, now)
  {
    if n == |order| {
      assert order[..n] == order;
    } else {
      var before := order[..|order| - 1];
      assert before[..n] == order[..n];
      ErrorStops(m, before, n, c, now);
    }
  }
}

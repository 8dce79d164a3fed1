/**
 * The buyer's side of a bid: the bid and its outbox attempts, their renewal under
 * new message identifiers, and the correlation of the seller's answer.
 */
module BidExchange {
  import opened Common
  import Deals
  import SellerMarket
  import OfferEvents

  type Uuid = Deals.Uuid

  datatype OutStatus = PENDING | ACCEPTED | REJECTED | EXPIRED

  /** The reason of a rejection: one of the protocol's, some other text, or none. */
  datatype Cause = Listed(reason: Deals.Reason) | Other(text: string) | NoCause

  /** A JSON value; a string may spell an instant with its zone or a UUID. */
  datatype Json = JNull | JBool(b: bool) | JInt(i: int) | JNum(r: real) | JStr(s: string) | JTime(t: int) | JUuid(u: Uuid)

  datatype OutBid = OutBid(
    idpk: Uuid, msgId: Uuid, cycle: string, offerId: string, seller: string, quantity: nat,
    status: OutStatus, swapId: Json, reason: Cause, available: Option<int>)

  /** One outbox row of a bid, routed to the seller. */
  datatype Attempt = Attempt(
    message: SellerMarket.BidMessage, seller: string,
    delivery: OfferEvents.Delivery, required: bool, expiresAt: Option<int>)

  /** `references` gives the cycle and the city of the offers that bids refer to. */
  datatype Buyer = Buyer(
    city: string, bids: seq<OutBid>, attempts: seq<Attempt>, references: map<string, (string, string)>)

  // ---- Enqueue ----------------------------------------------------------

  datatype Candidate = Candidate(offerId: string, seller: string, remaining: Option<nat>)

  /** What the feed offers at this moment. */
  datatype Candidates = Candidates(canBid: bool, minBid: int, lastBidAt: Option<int>, offers: seq<Candidate>)

  datatype Refusal = InvalidQuantity | ReusedIdpk | WindowClosed | OfferNotEligible
                   | QuantityNotAvailable | PendingExceedsRemaining | ReferenceConflict

  function FindOffer(offers: seq<Candidate>, offerId: string): (c: Option<Candidate>)
    ensures c.Some? ==> c.value in offers && c.value.offerId == offerId
    ensures c.None? ==> forall o | o in offers :: o.offerId != offerId
  {
    if offers == [] then None
    else if offers[0].offerId == offerId then Some(offers[0])
    else FindOffer(offers[1..], offerId)
  }

  function FindBid(bids: seq<OutBid>, idpk: Uuid): (k: Option<nat>)
    ensures k.Some? ==> k.value < |bids| && bids[k.value].idpk == idpk
    ensures k.None? ==> forall i | 0 <= i < |bids| :: bids[i].idpk != idpk
  {
    if bids == [] then None
    else
      var n := |bids| - 1;
      var k := FindBid(bids[..n], idpk);
      if k.Some? then k else if bids[n].idpk == idpk then Some(n) else None
  }

  predicate Outstanding(b: OutBid, cycle: string, offerId: string) {
    b.offerId == offerId && b.cycle == cycle && b.status in {PENDING, ACCEPTED}
  }

  function OutstandingTotal(bids: seq<OutBid>, cycle: string, offerId: string): nat {
    if bids == [] then 0
    else
      var b := bids[|bids| - 1];
      OutstandingTotal(bids[..|bids| - 1], cycle, offerId)
      + (if Outstanding(b, cycle, offerId) then b.quantity else 0)
  }

  datatype Order = Order(cycle: string, offerId: string, quantity: int, idpk: Uuid)

  function NewBid(o: Order, seller: string, msgId: Uuid): OutBid
    requires o.quantity >= 0
  {
    OutBid(o.idpk, msgId, o.cycle, o.offerId, seller, o.quantity, PENDING, JNull, NoCause, None)
  }

  function NewAttempt(city: string, o: Order, seller: string, msgId: Uuid, lastBidAt: Option<int>): Attempt {
    Attempt(SellerMarket.BidMessage(msgId, o.idpk, city, o.cycle, o.offerId, o.quantity),
            seller, OfferEvents.PENDING, true, lastBidAt)
  }

  function EnqueueRefusal(b: Buyer, o: Order, cs: Candidates): Option<Refusal>
    requires o.quantity >= 1
  {
    if !cs.canBid then Some(WindowClosed)
    else match FindOffer(cs.offers, o.offerId)
      case None => Some(OfferNotEligible)
      case Some(c) =>
        if o.quantity < cs.minBid || c.remaining.None? || o.quantity > c.remaining.value
        then Some(QuantityNotAvailable)
        else if OutstandingTotal(b.bids, o.cycle, o.offerId) + o.quantity > c.remaining.value
        then Some(PendingExceedsRemaining)
        else if o.offerId in b.references && b.references[o.offerId] != (o.cycle, c.seller)
        then Some(ReferenceConflict)
        else None
  }

  /** `incoming`: the idpk belongs to a bid that this city received. */
  function EnqueueBid(b: Buyer, o: Order, cs: Candidates, incoming: bool, msgId: Uuid): Result<Buyer, Refusal> {
    if o.quantity < 1 then Err(InvalidQuantity)
    else if incoming then Err(ReusedIdpk)
    else match FindBid(b.bids, o.idpk)
      case Some(k) =>
        var known := b.bids[k];
        if known.cycle == o.cycle && known.offerId == o.offerId && known.quantity == o.quantity then Ok(b) else Err(ReusedIdpk)
      case None =>
        match EnqueueRefusal(b, o, cs)
        case Some(e) => Err(e)
        case None =>
          var c := FindOffer(cs.offers, o.offerId).value;
          Ok(b.(bids := b.bids + [NewBid(o, c.seller, msgId)],
                attempts := b.attempts + [NewAttempt(b.city, o, c.seller, msgId, cs.lastBidAt)],
                references := if o.offerId in b.references then b.references
                              else b.references[o.offerId := (o.cycle, c.seller)]))
  }

  // ---- Renewal ----------------------------------------------------------

  predicate Renewable(a: Attempt) { a.delivery == OfferEvents.FAILED && a.required }

  predicate Renews(b: Buyer, i: nat, now: int)
    requires i < |b.attempts|
  {
    var a := b.attempts[i];
    && Renewable(a) && !(a.expiresAt.Some? && now >= a.expiresAt.value)
    && var k := FindBid(b.bids, a.message.idpk);
    k.Some? && b.bids[k.value].status == PENDING && b.bids[k.value].msgId == a.message.msgId
  }

  function Stopped(a: Attempt): Attempt { a.(required := false) }

  /** A failed attempt ends; a bid that still waits goes out again under a new msgId. */
  function RenewOne(b: Buyer, i: nat, msgId: Uuid, now: int): Buyer
    requires i < |b.attempts|
  {
    var a := b.attempts[i];
    if !Renewable(a) then b
    else if !Renews(b, i, now) then b.(attempts := b.attempts[i := Stopped(a)])
    else
      var k := FindBid(b.bids, a.message.idpk).value;
      b.(bids := b.bids[k := b.bids[k].(msgId := msgId)],
         attempts := b.attempts[i := Stopped(a)]
                     + [Attempt(a.message.(msgId := msgId), a.seller, OfferEvents.PENDING, true, a.expiresAt)])
  }

  function RenewFirst(b: Buyer, n: nat, newIds: seq<Uuid>, now: int): (b': Buyer)
    requires n <= |b.attempts| && n <= |newIds|
    ensures |b'.attempts| >= |b.attempts|
  {
    if n == 0 then b else RenewOne(RenewFirst(b, n - 1, newIds, now), n - 1, newIds[n - 1], now)
  }

  // ---- Answers ----------------------------------------------------------

  datatype Field = Target | OfferId | Quantity | PricePerEnergy | AmountDue | SwapId | SwapToken | ExpiresAt
                 | Requested | AvailableKwh

  datatype Reply = Reply(
    accepted: bool, city: string, cycle: string, data: map<Field, Json>, reason: Cause, code: Option<int>)

  datatype Problem =
    | InvalidTarget | UnknownTarget | UnknownBid | CorrelationMismatch | AlreadyResolved | QuantityMismatch
    | IncompleteAcceptance | InvalidExpiry | InvalidPrice | AmountMismatch
    | InvalidReason | InvalidAvailable | AvailableNotApplicable

  function Get(data: map<Field, Json>, key: Field): Json {
    if key in data then data[key] else JNull
  }

  function FindAttempt(attempts: seq<Attempt>, msgId: Uuid): (k: Option<nat>)
    ensures k.Some? ==> k.value < |attempts| && attempts[k.value].message.msgId == msgId
    ensures k.None? ==> forall i | 0 <= i < |attempts| :: attempts[i].message.msgId != msgId
  {
    if attempts == [] then None
    else
      var n := |attempts| - 1;
      var k := FindAttempt(attempts[..n], msgId);
      if k.Some? then k else if attempts[n].message.msgId == msgId then Some(n) else None
  }

  function Price(j: Json): Option<real> {
    match j
    case JInt(i) => if i >= 0 then Some(i as real) else None
    case JNum(r) => if r >= 0.0 then Some(r) else None
    case _ => None
  }

  /** To cents, a tie going up. */
  function ToCents(x: real): int { (x * 100.0 + 0.5).Floor }

  function Expected(price: real, quantity: nat): real { ToCents(price * quantity as real) as real / 100.0 }

  function AcceptanceProblem(bid: OutBid, data: map<Field, Json>): Option<Problem> {
    var price, amount := Price(Get(data, PricePerEnergy)), Price(Get(data, AmountDue));
    if Get(data, Quantity) != JInt(bid.quantity) || bid.quantity == 0 then Some(QuantityMismatch)
    else if !NonEmpty(Get(data, SwapId)) || !NonEmpty(Get(data, SwapToken)) || !IsString(Get(data, ExpiresAt))
    then Some(IncompleteAcceptance)
    else if !Get(data, ExpiresAt).JTime? then Some(InvalidExpiry)
    else if price.None? || amount.None? then Some(InvalidPrice)
    else if amount.value != Expected(price.value, bid.quantity) then Some(AmountMismatch)
    else None
  }

  predicate IsString(j: Json) { j.JStr? || j.JTime? || j.JUuid? }
  predicate NonEmpty(j: Json) { IsString(j) && (j.JStr? ==> j.s != "") }

  /** The code that belongs to a reason; a reason that is not listed has none. */
  function CodeOf(c: Cause): Option<int> {
    if c.Listed? then Some(SellerMarket.Code(c.reason)) else None
  }

  /** Equality with an integer, for which `true` is 1. */
  predicate EqualsNumber(j: Json, n: int) {
    j == JInt(n) || j == JNum(n as real) || (j == JBool(true) && n == 1) || (j == JBool(false) && n == 0)
  }

  function RejectionProblem(bid: OutBid, r: Reply): Option<Problem> {
    var requested := Get(r.data, Requested);
    if CodeOf(r.reason) != r.code then Some(InvalidReason)
    else if requested != JNull && !EqualsNumber(requested, bid.quantity) then Some(QuantityMismatch)
    else if r.reason == Listed(Deals.QuantityUnavailable) then
      (if Get(r.data, AvailableKwh).JInt? && r.data[AvailableKwh].i >= 0 then None else Some(InvalidAvailable))
    else if AvailableKwh in r.data then Some(AvailableNotApplicable)
    else None
  }

  function Resolved(bid: OutBid, r: Reply): OutBid {
    if r.accepted then bid.(status := ACCEPTED, swapId := Get(r.data, SwapId))
    else bid.(status := REJECTED, reason := r.reason,
              available := if r.reason == Listed(Deals.QuantityUnavailable) && Get(r.data, AvailableKwh).JInt?
                           then Some(r.data[AvailableKwh].i) else bid.available)
  }

  function DisableAll(attempts: seq<Attempt>, idpk: Uuid): seq<Attempt> {
    seq(|attempts|, i requires 0 <= i < |attempts| =>
      if attempts[i].message.idpk == idpk && attempts[i].required then Stopped(attempts[i]) else attempts[i])
  }

  /** The reason for which the answer is not processed, if there is one. */
  function ReplyProblem(b: Buyer, r: Reply): Option<Problem> {
    if !Get(r.data, Target).JUuid? then Some(InvalidTarget)
    else match FindAttempt(b.attempts, r.data[Target].u)
      case None => Some(UnknownTarget)
      case Some(i) =>
        match FindBid(b.bids, b.attempts[i].message.idpk)
        case None => Some(UnknownBid)
        case Some(k) =>
          var bid := b.bids[k];
          if r.cycle != bid.cycle || b.attempts[i].message.cycle != bid.cycle || r.city != bid.seller
             || Get(r.data, OfferId) != JStr(bid.offerId) then Some(CorrelationMismatch)
          else if bid.status != PENDING then Some(AlreadyResolved)
          else if r.accepted then AcceptanceProblem(bid, r.data)
          else RejectionProblem(bid, r)
  }

  /** The bid that the answer is about. */
  function BidOf(b: Buyer, r: Reply): Option<nat> {
    if !Get(r.data, Target).JUuid? then None
    else match FindAttempt(b.attempts, r.data[Target].u)
      case None => None
      case Some(i) => FindBid(b.bids, b.attempts[i].message.idpk)
  }

  function ProcessReply(b: Buyer, r: Reply): Result<Buyer, Problem> {
    match ReplyProblem(b, r)
    case Some(e) => Err(e)
    case None =>
      var k := BidOf(b, r).value;
      Ok(b.(bids := b.bids[k := Resolved(b.bids[k], r)], attempts := DisableAll(b.attempts, b.bids[k].idpk)))
  }

  // ---- The rows as an object --------------------------------------------

  class BuyerDesk {
    const city: string
    var bids: seq<OutBid>
    var attempts: seq<Attempt>
    var references: map<string, (string, string)>

    function State(): Buyer reads this { Buyer(city, bids, attempts, references) }

    constructor (c: string)
      ensures State() == Buyer(c, [], [], map[])
    {
      city, bids, attempts, references := c, [], [], map[];
    }

    /** Ok tells whether the bid is a duplicate; Err leaves everything as it was. */
    method EnqueueBuyBid(o: Order, cs: Candidates, incoming: bool, msgId: Uuid) returns (r: Result<bool, Refusal>)
      modifies this
      ensures r.Ok? ==> EnqueueBid(old(State()), o, cs, incoming, msgId) == Ok(State())
      ensures r.Err? ==> EnqueueBid(old(State()), o, cs, incoming, msgId) == Err(r.error) && State() == old(State())
      ensures r.Ok? ==> (r.value <==> FindBid(old(bids), o.idpk).Some?)
    {
      if o.quantity < 1 {
        return Err(InvalidQuantity);
      }
      if incoming {
        return Err(ReusedIdpk);
      }
      var existing := FindBid(bids, o.idpk);
      if existing.Some? {
        var known := bids[existing.value];
        if known.cycle != o.cycle || known.offerId != o.offerId || known.quantity != o.quantity {
          return Err(ReusedIdpk);
        }
        return Ok(true);
      }
      if !cs.canBid {
        return Err(WindowClosed);
      }
      var selected := FindOffer(cs.offers, o.offerId);
      if selected.None? {
        return Err(OfferNotEligible);
      }
      if o.quantity < cs.minBid || selected.value.remaining.None? || o.quantity > selected.value.remaining.value {
        return Err(QuantityNotAvailable);
      }
      var outstanding := 0;
      for i := 0 to |bids|
        invariant outstanding == OutstandingTotal(bids[..i], o.cycle, o.offerId)
      {
        assert bids[..i + 1][..i] == bids[..i];
        if Outstanding(bids[i], o.cycle, o.offerId) {
          outstanding := outstanding + bids[i].quantity;
        }
      }
      assert bids[..|bids|] == bids;
      if outstanding + o.quantity > selected.value.remaining.value {
        return Err(PendingExceedsRemaining);
      }
      if o.offerId !in references {
        references := references[o.offerId := (o.cycle, selected.value.seller)];
      } else if references[o.offerId] != (o.cycle, selected.value.seller) {
        return Err(ReferenceConflict);
      }
      bids := bids + [NewBid(o, selected.value.seller, msgId)];
      attempts := attempts + [NewAttempt(city, o, selected.value.seller, msgId, cs.lastBidAt)];
      return Ok(false);
    }

    /** The failed attempts of the moment, in the order of the outbox. */
    method RenewFailedBidDispatches(newIds: seq<Uuid>, now: int)
      requires |newIds| >= |attempts|
      modifies this`bids, this`attempts
      ensures State() == RenewFirst(old(State()), |old(attempts)|, newIds, now)
    {
      var n := |attempts|;
      for i := 0 to n
        invariant |attempts| >= n
        invariant State() == RenewFirst(old(State()), i, newIds, now)
      {
        var previous := attempts[i];
        if previous.delivery != OfferEvents.FAILED || !previous.required {
          continue;
        }
        attempts := attempts[i := previous.(required := false)];
        if previous.expiresAt.Some? && now >= previous.expiresAt.value {
          continue;
        }
        var bid := FindBid(bids, previous.message.idpk);
        if bid.None? || bids[bid.value].status != PENDING || bids[bid.value].msgId != previous.message.msgId {
          continue;
        }
        attempts := attempts + [Attempt(previous.message.(msgId := newIds[i]), previous.seller,
                                        OfferEvents.PENDING, true, previous.expiresAt)];
        bids := bids[bid.value := bids[bid.value].(msgId := newIds[i])];
      }
    }

    /** None: the answer was processed. */
    method ProcessBidReply(r: Reply) returns (problem: Option<Problem>)
      modifies this`bids, this`attempts
      ensures problem.None? ==> ProcessReply(old(State()), r) == Ok(State())
      ensures problem.Some? ==> ProcessReply(old(State()), r) == Err(problem.value) && State() == old(State())
    {
      if !Get(r.data, Target).JUuid? {
        return Some(InvalidTarget);
      }
      var outbound := FindAttempt(attempts, r.data[Target].u);
      if outbound.None? {
        return Some(UnknownTarget);
      }
      var found := FindBid(bids, attempts[outbound.value].message.idpk);
      if found.None? {
        return Some(UnknownBid);
      }
      var k := found.value;
      var bid := bids[k];
      if r.cycle != bid.cycle || attempts[outbound.value].message.cycle != bid.cycle || r.city != bid.seller
         || Get(r.data, OfferId) != JStr(bid.offerId) {
        return Some(CorrelationMismatch);
      }
      if bid.status != PENDING {
        return Some(AlreadyResolved);
      }
      if r.accepted {
        var refused := AcceptanceProblem(bid, r.data);
        if refused.Some? {
          return refused;
        }
        bid := bid.(swapId := Get(r.data, SwapId));
        bid := bid.(status := ACCEPTED);
      } else {
        var refused := RejectionProblem(bid, r);
        if refused.Some? {
          return refused;
        }
        if r.reason == Listed(Deals.QuantityUnavailable) {
          bid := bid.(available := Some(r.data[AvailableKwh].i));
        }
        bid := bid.(reason := r.reason, status := REJECTED);
      }
      bids := bids[k := bid];
      assert bid == Resolved(old(bids)[k], r);
      for i := 0 to |attempts|
        invariant |attempts| == |old(attempts)| && bids == old(bids)[k := bid]
        invariant forall j | 0 <= j < |attempts| ::
          attempts[j] == if j < i then DisableAll(old(attempts), bid.idpk)[j] else old(attempts)[j]
      {
        if attempts[i].message.idpk == bid.idpk && attempts[i].required {
          attempts := attempts[i := attempts[i].(required := false)];
        }
      }
      assert attempts == DisableAll(old(attempts), bid.idpk);
      return None;
    }
  }
}

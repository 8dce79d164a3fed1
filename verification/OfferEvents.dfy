/**
 * The city's own offer of a cycle and the outbox rows that announce it. A change
 * and its announcement are one transaction; the rows are published in order.
 */
module OfferEvents {
  import opened Common
  import opened Money
  import MarketFeed

  datatype Status = ACTIVE | WITHDRAWN | CLOSED

  datatype Offer = Offer(
    offerId: string, cycle: string, initial: nat, remaining: nat, price: nat, status: Status)

  datatype Delivery = PENDING | FAILED | PUBLISHED

  /** An outbox row of one of the three market types, with the span in which it may go out. */
  datatype Row = Row(
    event: MarketFeed.Event, delivery: Delivery, required: bool, availableAt: Option<int>, expiresAt: Option<int>)

  /** The local offer of one cycle and the cycle's market rows, in id order. */
  datatype Seller = Seller(offer: Option<Offer>, rows: seq<Row>)

  /** The limits that the cycle puts on announcements. */
  datatype Window = Window(lastOfferAt: Option<int>, closesAt: Option<int>, marketClosed: bool)

  predicate CanBroadcast(w: Window, now: int) {
    && w.lastOfferAt.Some? && now < w.lastOfferAt.value
    && (w.closesAt.None? || now < w.closesAt.value)
    && !w.marketClosed
  }

  datatype Ids = Ids(msgId: string, idpk: string)

  function Announcement(o: Offer, kind: Kind, ids: Ids, now: int): MarketFeed.Event {
    var body := match kind
      case Base => MarketFeed.Offer(o.offerId, o.initial, o.price)
      case Update => MarketFeed.Updated(o.offerId, o.remaining, o.price)
      case Withdrawal => MarketFeed.Withdrawn(o.offerId);
    MarketFeed.Event(CITY_ID, ids.msgId, ids.idpk, o.cycle, now, body)
  }

  datatype Kind = Base | Update | Withdrawal

  datatype Span = Span(availableAt: Option<int>, expiresAt: Option<int>)

  function Enqueue(rows: seq<Row>, o: Offer, kind: Kind, ids: Ids, now: int, span: Span): seq<Row> {
    rows + [Row(Announcement(o, kind, ids, now), PENDING, true, span.availableAt, span.expiresAt)]
  }

  /** What the cycle says when an offer is about to be opened, and the computed quantity and price. */
  datatype Opening = Opening(
    cycle: string, known: bool, opensAt: Option<int>, lastOfferAt: Option<int>, marketClosed: bool,
    sellable: int, minBid: int, quantity: int, price: nat)

  const OPENING_MARGIN := 5_000_000

  predicate MayOpen(a: Opening, now: int) {
    && a.known && a.opensAt.Some? && a.lastOfferAt.Some?
    && a.opensAt.value <= now && now + OPENING_MARGIN < a.lastOfferAt.value
    && a.sellable > 0 && !a.marketClosed
    && a.quantity > 0 && a.quantity >= a.minBid
  }

  function NewOffer(a: Opening): Offer
    requires a.quantity >= 0
  {
    Offer(CITY_ID + "-" + a.cycle, a.cycle, a.quantity, a.quantity, a.price, ACTIVE)
  }

  /** The first offer of an eligible cycle, with the row that announces it from the opening on. */
  function Published(s: Seller, a: Opening, ids: Ids, now: int): Seller {
    if s.offer.Some? || !MayOpen(a, now) then s
    else Seller(Some(NewOffer(a)), Enqueue(s.rows, NewOffer(a), Base, ids, now, Span(a.opensAt, a.lastOfferAt)))
  }

  /** An update is announced only for an active offer within its window. */
  function Updated(s: Seller, o: Offer, w: Window, ids: Ids, now: int): Seller {
    Seller(Some(o),
           if o.status == ACTIVE && CanBroadcast(w, now) then Enqueue(s.rows, o, Update, ids, now, Span(Some(now), w.lastOfferAt)) else s.rows)
  }

  datatype Refusal = InvalidPrice | NotActive | OutOfWindow

  function CentPrice(price: nat): nat {
    RoundHalfUp(price, PRICE_PER_CENT) * PRICE_PER_CENT
  }

  /** Err leaves the offer as it is; Ok tells whether the price changed. */
  function Reprice(s: Seller, price: int, w: Window, ids: Ids, now: int): Result<Seller, Refusal> {
    if price <= 0 then Err(InvalidPrice)
    else if s.offer.None? || s.offer.value.status != ACTIVE then Err(NotActive)
    else if !CanBroadcast(w, now) then Err(OutOfWindow)
    else if s.offer.value.price == CentPrice(price) then Ok(s)
    else Ok(Updated(s, s.offer.value.(price := CentPrice(price)), w, ids, now))
  }

  function Withdraw(s: Seller, w: Window, ids: Ids, now: int): Result<Seller, Refusal> {
    if s.offer.None? then Err(NotActive)
    else if s.offer.value.status == WITHDRAWN then Ok(s)
    else if s.offer.value.status != ACTIVE then Err(NotActive)
    else if !CanBroadcast(w, now) then Err(OutOfWindow)
    else
      var o := s.offer.value.(status := WITHDRAWN);
      Ok(Seller(Some(o), Enqueue(s.rows, o, Withdrawal, ids, now, Span(Some(now), w.lastOfferAt))))
  }

  /** A settled sale lowers the remaining quantity and is announced when that is still possible. */
  function Sell(s: Seller, quantity: nat, w: Window, ids: Ids, now: int): Seller {
    if s.offer.None? then s
    else Updated(s, s.offer.value.(remaining := Max(0, s.offer.value.remaining - quantity)), w, ids, now)
  }

  function Disabled(r: Row): Row {
    if r.required && r.delivery != PUBLISHED then r.(required := false) else r
  }

  /** The market closed: the offer ends silently and what was not published stays unpublished. */
  function Close(s: Seller): Seller {
    Seller(if s.offer.Some? && s.offer.value.status == ACTIVE
           then Some(s.offer.value.(status := CLOSED)) else s.offer,
           seq(|s.rows|, i requires 0 <= i < |s.rows| => Disabled(s.rows[i])))
  }

  /** A row may be handed to the connector in its span, once every earlier row is published. */
  predicate Dispatchable(rows: seq<Row>, k: nat, now: int) {
    && k < |rows| && rows[k].required && rows[k].delivery != PUBLISHED
    && InSpan(rows[k], now)
    && forall i | 0 <= i < k :: rows[i].delivery == PUBLISHED
  }

  predicate InSpan(r: Row, now: int) {
    (r.availableAt.None? || r.availableAt.value <= now) && (r.expiresAt.None? || r.expiresAt.value > now)
  }

  /** A publication result; a published row stays published. */
  function Reported(rows: seq<Row>, k: nat, published: bool): seq<Row>
    requires k < |rows|
  {
    if published then rows[k := rows[k].(delivery := PUBLISHED, required := false)]
    else if rows[k].delivery == PUBLISHED then rows
    else rows[k := rows[k].(delivery := FAILED)]
  }

  class SellerOffer {
    var offer: Option<Offer>
    var rows: seq<Row>

    ghost function State(): Seller reads this { Seller(offer, rows) }

    constructor ()
      ensures State() == Seller(None, [])
    {
      offer, rows := None, [];
    }

    method EnqueueSellerOffer(a: Opening, ids: Ids, now: int) returns (created: bool)
      modifies this
      ensures State() == Published(old(State()), a, ids, now)
      ensures created <==> old(offer).None? && MayOpen(a, now)
    {
      if !a.known || a.opensAt.None? || a.lastOfferAt.None? || a.opensAt.value > now
         || now + OPENING_MARGIN >= a.lastOfferAt.value || a.sellable <= 0 || a.marketClosed {
        return false;
      }
      if offer.Some? {
        return false;
      }
      if a.quantity <= 0 || a.quantity < a.minBid {
        return false;
      }
      offer := Some(NewOffer(a));
      rows := Enqueue(rows, NewOffer(a), Base, ids, now, Span(a.opensAt, a.lastOfferAt));
      return true;
    }

    method EnqueueConfirmedOfferUpdate(w: Window, ids: Ids, now: int) returns (sent: bool)
      requires offer.Some?
      modifies this`rows
      ensures State() == Updated(old(State()), offer.value, w, ids, now)
      ensures sent <==> offer.value.status == ACTIVE && CanBroadcast(w, now)
    {
      if offer.value.status != ACTIVE || !CanBroadcast(w, now) {
        return false;
      }
      rows := Enqueue(rows, offer.value, Update, ids, now, Span(Some(now), w.lastOfferAt));
      return true;
    }

    method ChangeLocalOfferPrice(price: int, w: Window, ids: Ids, now: int) returns (r: Result<bool, Refusal>)
      modifies this
      ensures r.Ok? ==> Reprice(old(State()), price, w, ids, now) == Ok(State())
      ensures r.Ok? ==> (r.value <==> old(offer).value.price != offer.value.price)
      ensures r.Err? ==> Reprice(old(State()), price, w, ids, now) == Err(r.error) && State() == old(State())
    {
      if price <= 0 {
        return Err(InvalidPrice);
      }
      if offer.None? || offer.value.status != ACTIVE {
        return Err(NotActive);
      }
      if !CanBroadcast(w, now) {
        return Err(OutOfWindow);
      }
      if offer.value.price == CentPrice(price) {
        return Ok(false);
      }
      offer := Some(offer.value.(price := CentPrice(price)));
      var _ := EnqueueConfirmedOfferUpdate(w, ids, now);
      return Ok(true);
    }

    method WithdrawLocalOffer(w: Window, ids: Ids, now: int) returns (r: Result<bool, Refusal>)
      modifies this
      ensures r.Ok? ==> Withdraw(old(State()), w, ids, now) == Ok(State())
      ensures r.Ok? ==> (r.value <==> |rows| > |old(rows)|)
      ensures r.Err? ==> Withdraw(old(State()), w, ids, now) == Err(r.error) && State() == old(State())
    {
      if offer.None? {
        return Err(NotActive);
      }
      if offer.value.status == WITHDRAWN {
        return Ok(false);
      }
      if offer.value.status != ACTIVE {
        return Err(NotActive);
      }
      if !CanBroadcast(w, now) {
        return Err(OutOfWindow);
      }
      offer := Some(offer.value.(status := WITHDRAWN));
      rows := Enqueue(rows, offer.value, Withdrawal, ids, now, Span(Some(now), w.lastOfferAt));
      return Ok(true);
    }

    method CloseLocalOffers() returns (closed: nat)
      modifies this
      ensures State() == Close(old(State()))
      ensures closed == if old(offer).Some? && old(offer).value.status == ACTIVE then 1 else 0
    {
      closed := 0;
      if offer.Some? && offer.value.status == ACTIVE {
        offer := Some(offer.value.(status := CLOSED));
        closed := 1;
      }
      for i := 0 to |rows|
        invariant |rows| == |old(rows)|
        invariant offer == Close(old(State())).offer
        invariant forall j | 0 <= j < |rows| :: rows[j] == if j < i then Disabled(old(rows)[j]) else old(rows)[j]
      {
        if rows[i].delivery != PUBLISHED && rows[i].required {
          rows := rows[i := rows[i].(required := false)];
        }
      }
    }

    /** The first row that has not been published, when it may be handed out now. */
    method ListOutboundDispatch(now: int) returns (next: Option<nat>)
      ensures next.Some? ==> Dispatchable(rows, next.value, now)
      ensures next.None? ==> forall k :: !Dispatchable(rows, k, now)
    {
      for i := 0 to |rows|
        invariant forall j | 0 <= j < i :: rows[j].delivery == PUBLISHED
      {
        if rows[i].delivery != PUBLISHED {
          if !rows[i].required || (rows[i].availableAt.Some? && rows[i].availableAt.value > now)
             || (rows[i].expiresAt.Some? && rows[i].expiresAt.value <= now) {
            return None;
          }
          return Some(i);
        }
      }
      return None;
    }

    method UpdateOutboundAudit(k: nat, published: bool)
      requires k < |rows|
      modifies this`rows
      ensures rows == Reported(old(rows), k, published)
    {
      if published {
        rows := rows[k := rows[k].(delivery := PUBLISHED, required := false)];
      } else if rows[k].delivery != PUBLISHED {
        rows := rows[k := rows[k].(delivery := FAILED)];
      }
    }
  }

  /** The central's market-closed ends the remote snapshots and, with them, the city's own offer of the cycle. */
  method ReceiveMarketClosed(feed: MarketFeed.FeedStore, local: SellerOffer, e: MarketFeed.Event)
    returns (audit: MarketFeed.Audit)
    requires local.offer.Some? ==> local.offer.value.cycle == e.cycle
    modifies feed`offers, feed`closed, local
    ensures feed.State() == MarketFeed.ApplyClosed(old(feed.State()), e)
    ensures local.State() == if e.cycle in old(feed.closed) then old(local.State()) else Close(old(local.State()))
    ensures audit == if e.cycle in old(feed.closed) then MarketFeed.NOT_PROCESSED else MarketFeed.PROCESSED
  {
    audit := feed.ApplyMarketClosed(e);
    if audit == MarketFeed.PROCESSED {
      var _ := local.CloseLocalOffers();
    }
  }
}

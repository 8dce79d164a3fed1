/**
 * Where a bid-accepted comes from: a reserved bid, a HOLD of its exact quantity, a
 * proposed swap with the same legs, and the price the offer had at the reservation.
 */
module AcceptedTerms {
  import opened Common
  import opened Money
  import opened Deals
  import opened Allocation
  import opened SellerMarket
  import opened MarketSafety
  import opened MarketAnswers
  import OfferEvents

  /** Bids in both states, in the same places, in the order of their arrival. */
  ghost predicate Extends(deals: seq<Deal>, deals': seq<Deal>) {
    && |deals| <= |deals'|
    && forall i | 0 <= i < |deals| :: deals'[i].bid == deals[i].bid
  }

  ghost predicate KeepsPrices(deals: seq<Deal>, deals': seq<Deal>) {
    && |deals| <= |deals'|
    && forall i | 0 <= i < |deals| :: deals[i].acceptedPrice.Some? ==> deals'[i].acceptedPrice == deals[i].acceptedPrice
  }

  ghost predicate Priced(deals: seq<Deal>, k: nat) {
    k < |deals| && deals[k].acceptedPrice.Some?
  }

  /** Every price that is new in `m'` is the offer's price in `m`, on a reserved bid. */
  ghost predicate NewPricesFromOffer(m: Market, m': Market) {
    && Extends(m.deals, m'.deals) && KeepsPrices(m.deals, m'.deals)
    && forall k: nat | Priced(m'.deals, k) && !Priced(m.deals, k) ::
         && m.seller.offer.Some? && m'.deals[k].acceptedPrice == Some(m.seller.offer.value.price)
         && m'.deals[k].status == RESERVED
         && m'.deals[k].reservation == Some(Reservation(m'.deals[k].bid.quantity, HOLD))
  }

  lemma ReservePrices(m: Market, idpk: Uuid, c: Calendar, now: int)
    requires Balanced(m) && Reserve(m, idpk, c, now).Ok?
    ensures NewPricesFromOffer(m, Reserve(m, idpk, c, now).value)
    ensures Reserve(m, idpk, c, now).value.seller == m.seller
  {
    var k := Find(m.deals, idpk);
    if m.deals[k.value].status == PENDING {
      assert Sound(m.deals[k.value], m.seller.offer.value.offerId);
    }
  }

  lemma PricesCompose(m: Market, m1: Market, m2: Market)
    requires NewPricesFromOffer(m, m1) && NewPricesFromOffer(m1, m2) && m1.seller == m.seller
    requires forall k: nat | Priced(m1.deals, k) && !Priced(m.deals, k) :: m2.deals[k] == m1.deals[k]
    ensures NewPricesFromOffer(m, m2)
  {
  }

  /** A reservation touches no row that is no longer pending. */
  lemma ReserveTouchesPending(m: Market, idpk: Uuid, c: Calendar, now: int)
    requires Balanced(m) && Reserve(m, idpk, c, now).Ok?
    ensures var m' := Reserve(m, idpk, c, now).value;
            |m'.deals| == |m.deals|
            && forall k: nat | Priced(m.deals, k) :: m'.deals[k] == m.deals[k]
  {
    var k := Find(m.deals, idpk);
    if m.deals[k.value].status == PENDING {
      assert Sound(m.deals[k.value], m.seller.offer.value.offerId);
    }
  }

  lemma {:induction false} ReserveAllPrices(m: Market, order: seq<Bid>, c: Calendar, now: int)
    requires Balanced(m) && ReserveAll(m, order, c, now).Ok?
    ensures NewPricesFromOffer(m, ReserveAll(m, order, c, now).value)
    ensures ReserveAll(m, order, c, now).value.seller == m.seller
  {
    if order != [] {
      var n := |order| - 1;
      var m1 := ReserveAll(m, order[..n], c, now).value;
      ReserveAllPrices(m, order[..n], c, now);
      ReserveAllKeepsBalance(m, order[..n], c, now);
      ReservePrices(m1, order[n].idpk, c, now);
      ReserveTouchesPending(m1, order[n].idpk, c, now);
      PricesCompose(m, m1, Reserve(m1, order[n].idpk, c, now).value);
    }
  }

  lemma StorePrices(m: Market, msg: BidMessage, reason: Option<Reason>, now: int)
    requires msg.quantity >= 0
    ensures NewPricesFromOffer(m, Store(m, msg, reason, now))
    ensures forall k: nat | Priced(Store(m, msg, reason, now).deals, k) :: Priced(m.deals, k)
  {
  }

  lemma StoredThenReserved(m: Market, msg: BidMessage, c: Calendar, now: int)
    requires Balanced(m) && !Malformed(msg) && msg.buyer != CITY_ID
    requires Reserve(Store(m, msg, None, now), msg.idpk, c, now).Ok?
    ensures NewPricesFromOffer(m, Reserve(Store(m, msg, None, now), msg.idpk, c, now).value)
  {
    var stored := Store(m, msg, None, now);
    StoreKeepsBalance(m, msg, None, now);
    StorePrices(m, msg, None, now);
    ReservePrices(stored, msg.idpk, c, now);
    PricesCompose(m, stored, Reserve(stored, msg.idpk, c, now).value);
  }

  lemma SameDealsSamePrices(m: Market, m': Market)
    requires m'.deals == m.deals
    ensures NewPricesFromOffer(m, m')
  {
  }

  lemma AdmitPrices(m: Market, msg: BidMessage, c: Calendar, p: Policy, now: int)
    requires Balanced(m) && !Malformed(msg) && Admit(m, msg, c, p, now).Ok?
    ensures NewPricesFromOffer(m, Admit(m, msg, c, p, now).value)
  {
    var reason := IngressVerdict(m, msg, c, now);
    if reason.None? && p == FIFO {
      StoredThenReserved(m, msg, c, now);
    } else {
      StorePrices(m, msg, reason, now);
    }
  }

  lemma IngressPrices(m: Market, msg: BidMessage, c: Calendar, p: Policy, outgoing: bool, now: int)
    requires Balanced(m) && Ingress(m, msg, c, p, outgoing, now).Ok?
    ensures NewPricesFromOffer(m, Ingress(m, msg, c, p, outgoing, now).value)
  {
    if msg.idpk !in m.claimed && !Malformed(msg) && !outgoing && Find(m.deals, msg.idpk).None? {
      AdmitPrices(m, msg, c, p, now);
    } else {
      SameDealsSamePrices(m, Ingress(m, msg, c, p, outgoing, now).value);
    }
  }

  lemma StepDealPrices(m: Market, k: nat, change: DealStep, c: Calendar, ids: OfferEvents.Ids, now: int)
    requires Balanced(m)
    ensures NewPricesFromOffer(m, StepDeal(m, k, change, c, ids, now))
  {
    if k < |m.deals| && m.deals[k].swap.Some? {
      assert Sound(m.deals[k], m.seller.offer.value.offerId);
      DealStepKeepsTerms(m.deals[k], change);
    }
  }

  lemma AcceptPrices(m: Market, m1: Market, k: nat, p: Proposal, now: int)
    requires NewPricesFromOffer(m, m1) && |m1.deals| == |m.deals| && k < |m1.deals|
    requires forall i: nat | i < |m.deals| :: Priced(m1.deals, i) ==> Priced(m.deals, i)
    ensures NewPricesFromOffer(m, Accept(m1, k, p, now))
  {
  }

  lemma StepPrices(m: Market, s: Step)
    requires Balanced(m)
    ensures NewPricesFromOffer(m, Next(m, s))
  {
    match s
    case DoBid(msg, c, p, outgoing, now) =>
      if Ingress(m, msg, c, p, outgoing, now).Ok? {
        IngressPrices(m, msg, c, p, outgoing, now);
      }
    case DoTick(p, c, now) =>
      if ProcessDue(m, p, c, now).Ok? && ProcessDue(m, p, c, now).value != m {
        ReserveAllPrices(m, Ordered(Waiting(m), p), c, now);
      }
    case DoDeal(k, change, c, ids, now) =>
      StepDealPrices(m, k, change, c, ids, now);
    case DoProposed(k, p, c, ids, now) =>
      ProposedPrices(m, k, p, c, ids, now);
    case _ =>
  }

  lemma ProposedPrices(m: Market, k: nat, p: Proposal, c: Calendar, ids: OfferEvents.Ids, now: int)
    requires Balanced(m)
    ensures NewPricesFromOffer(m, Next(m, DoProposed(k, p, c, ids, now)))
  {
    StepDealPrices(m, k, Happens(p.event), c, ids, now);
    var m1 := StepDeal(m, k, Happens(p.event), c, ids, now);
    if k < |m1.deals| && m.deals[k].swap.Some? {
      assert Sound(m.deals[k], m.seller.offer.value.offerId);
      DealStepKeepsTerms(m.deals[k], Happens(p.event));
      AcceptPrices(m, m1, k, p, now);
    }
  }

  // ---- The reservation of a priced bid ----------------------------------

  /** Step n of the run reserves deal k at the price that the offer has just then. */
  ghost predicate ReservedAt(steps: seq<Step>, n: nat, k: nat, price: nat)
    requires n < |steps|
  {
    var m, m' := Execute(steps[..n]), Execute(steps[..n + 1]);
    && !Priced(m.deals, k) && Priced(m'.deals, k)
    && m.seller.offer.Some? && m.seller.offer.value.price == price
    && m'.deals[k].acceptedPrice == Some(price) && m'.deals[k].status == RESERVED
    && m'.deals[k].reservation == Some(Reservation(m'.deals[k].bid.quantity, HOLD))
  }

  lemma ReservedAtInPrefix(steps: seq<Step>, l: nat, n: nat, k: nat, price: nat)
    requires n < l <= |steps| && ReservedAt(steps[..l], n, k, price)
    ensures ReservedAt(steps, n, k, price)
  {
    assert steps[..l][..n] == steps[..n] && steps[..l][..n + 1] == steps[..n + 1];
  }

  /** A bid's price was the offer's price when it was reserved, whatever the offer costs since. */
  lemma {:induction false} PriceIsFrozen(steps: seq<Step>, k: nat) returns (n: nat)
    requires Legal(steps) && Priced(Execute(steps).deals, k)
    ensures n < |steps| && ReservedAt(steps, n, k, Execute(steps).deals[k].acceptedPrice.value)
  {
    var l := |steps| - 1;
    var m := Execute(steps[..l]);
    EveryRunIsBalanced(steps[..l]);
    StepPrices(m, steps[l]);
    assert Execute(steps) == Next(m, steps[l]);
    if Priced(m.deals, k) {
      n := PriceIsFrozen(steps[..l], k);
      ReservedAtInPrefix(steps, l, n, k, m.deals[k].acceptedPrice.value);
    } else {
      n := l;
      assert steps[..l + 1] == steps;
    }
  }

  // ---- The event behind an acceptance -----------------------------------

  /** The central's event that step s applies to deal k in m, and the terms of the answer. */
  ghost predicate Causes(m: Market, s: Step, a: Answer) {
    && a.Accepted? && s.DoProposed? && s.k < |m.deals| && m.seller.offer.Some?
    && var d := m.deals[s.k];
    && d.status == RESERVED && d.bid.msgId == a.target && d.bid.buyer == a.buyer && d.bid.quantity == a.quantity
    && d.reservation == Some(Reservation(a.quantity, HOLD))
    && d.swap.Some? && !Terminal(d.swap.value.status)
    && s.proposal.central && s.proposal.event.fact.SwapProposed? && s.proposal.key == d.bid.idpk
    && s.proposal.give == a.quantity * PRICE_SCALE
    && s.proposal.take == a.amount * PRICE_PER_CENT && a.amount == Amount(a.quantity, a.price)
    && d.acceptedPrice == Some(a.price)
    && s.proposal.event.swapId == Some(a.swapId) && s.proposal.event.token == Some(a.token)
    && s.proposal.event.expiresAt == Some(a.expiresAt)
  }

  predicate IsAcceptance(m: Market, a: Answer) { a.Accepted? && a in m.answers }

  lemma ReserveAcceptsNothing(m: Market, idpk: Uuid, c: Calendar, now: int, a: Answer)
    requires Reserve(m, idpk, c, now).Ok? && IsAcceptance(Reserve(m, idpk, c, now).value, a)
    ensures IsAcceptance(m, a)
  {
  }

  lemma {:induction false} ReserveAllAcceptsNothing(m: Market, order: seq<Bid>, c: Calendar, now: int, a: Answer)
    requires ReserveAll(m, order, c, now).Ok? && IsAcceptance(ReserveAll(m, order, c, now).value, a)
    ensures IsAcceptance(m, a)
  {
    if order != [] {
      var n := |order| - 1;
      ReserveAcceptsNothing(ReserveAll(m, order[..n], c, now).value, order[n].idpk, c, now, a);
      ReserveAllAcceptsNothing(m, order[..n], c, now, a);
    }
  }

  lemma AdmitAcceptsNothing(m: Market, msg: BidMessage, c: Calendar, p: Policy, now: int, a: Answer)
    requires msg.quantity >= 0 && Admit(m, msg, c, p, now).Ok? && IsAcceptance(Admit(m, msg, c, p, now).value, a)
    ensures IsAcceptance(m, a)
  {
    var stored := Store(m, msg, IngressVerdict(m, msg, c, now), now);
    if IngressVerdict(m, msg, c, now).None? && p == FIFO {
      ReserveAcceptsNothing(stored, msg.idpk, c, now, a);
    }
  }

  lemma IngressAcceptsNothing(m: Market, msg: BidMessage, c: Calendar, p: Policy, outgoing: bool, now: int, a: Answer)
    requires Ingress(m, msg, c, p, outgoing, now).Ok?
    requires IsAcceptance(Ingress(m, msg, c, p, outgoing, now).value, a)
    ensures IsAcceptance(m, a)
  {
    if msg.idpk !in m.claimed && !Malformed(msg) && !outgoing && Find(m.deals, msg.idpk).None? {
      AdmitAcceptsNothing(m, msg, c, p, now, a);
    }
  }

  lemma OnlyProposalsAccept(m: Market, s: Step, a: Answer)
    requires IsAcceptance(Next(m, s), a) && !IsAcceptance(m, a)
    ensures s.DoProposed?
  {
    match s
    case DoBid(msg, c, p, outgoing, now) =>
      if Ingress(m, msg, c, p, outgoing, now).Ok? {
        IngressAcceptsNothing(m, msg, c, p, outgoing, now, a);
      }
    case DoTick(p, c, now) =>
      if ProcessDue(m, p, c, now).Ok? && ProcessDue(m, p, c, now).value != m {
        ReserveAllAcceptsNothing(m, Ordered(Waiting(m), p), c, now, a);
      }
    case _ =>
  }

  lemma ReservedProposal(d: Deal, e: Event)
    requires d.swap.Some? && e.fact.SwapProposed?
    ensures var d' := ProcessEvent(d, e);
            && d'.reservation == d.reservation && d'.status == d.status
            && (d'.swap.value.status == PROPOSED ==> !Terminal(d.swap.value.status))
  {
  }

  lemma AcceptanceHasCause(m: Market, s: Step, a: Answer)
    requires Balanced(m) && a in Next(m, s).answers && a !in m.answers && a.Accepted?
    ensures Causes(m, s, a)
  {
    OnlyProposalsAccept(m, s, a);
    var k, p := s.k, s.proposal;
    var m1 := StepDeal(m, k, Happens(p.event), s.c, s.ids, s.now);
    assert k < |m.deals| && m.deals[k].swap.Some? && p.event.fact.SwapProposed?;
    assert Acceptable(m1, k, p, s.now) && a == Acceptance(m1, k, p);
    assert Sound(m.deals[k], m.seller.offer.value.offerId);
    DealStepKeepsTerms(m.deals[k], Happens(p.event));
    ReservedProposal(m.deals[k], p.event);
  }

  ghost predicate HasCause(steps: seq<Step>, n: nat, a: Answer) {
    n < |steps| && Causes(Execute(steps[..n]), steps[n], a)
  }

  /** Every acceptance of a run goes back to one swap-proposed on a reserved bid with its HOLD. */
  lemma {:induction false} EveryAcceptanceHasCause(steps: seq<Step>, a: Answer) returns (n: nat)
    requires Legal(steps) && a in Execute(steps).answers && a.Accepted?
    ensures HasCause(steps, n, a)
  {
    var l := |steps| - 1;
    var m := Execute(steps[..l]);
    assert Execute(steps) == Next(m, steps[l]);
    if a in m.answers {
      n := EveryAcceptanceHasCause(steps[..l], a);
      assert steps[..l][..n] == steps[..n];
    } else {
      EveryRunIsBalanced(steps[..l]);
      AcceptanceHasCause(m, steps[l], a);
      n := l;
    }
  }
}

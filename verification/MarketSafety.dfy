/**
 * What every run of the selling side keeps: the offer is never oversold, the terms
 * of a reservation are frozen, and every bid gets at most one commercial answer.
 */
module MarketSafety {
  import opened Common
  import opened Money
  import opened Deals
  import opened Allocation
  import opened SellerMarket
  import OfferEvents

  datatype Step =
    | DoPublish(opening: OfferEvents.Opening, ids: OfferEvents.Ids, now: int)
    | DoReprice(price: int, c: Calendar, ids: OfferEvents.Ids, now: int)
    | DoWithdraw(c: Calendar, ids: OfferEvents.Ids, now: int)
    | DoClose
    | DoBid(msg: BidMessage, c: Calendar, p: Policy, outgoing: bool, now: int)
    | DoTick(p: Policy, c: Calendar, now: int)
    | DoDeal(k: nat, change: DealStep, c: Calendar, ids: OfferEvents.Ids, now: int)
    | DoProposed(k: nat, proposal: Proposal, c: Calendar, ids: OfferEvents.Ids, now: int)

  /** An offer is opened for a cycle that has a name. */
  predicate Enabled(s: Step) {
    s.DoPublish? ==> s.opening.cycle != ""
  }

  function SellerStep(m: Market, s: Step): OfferEvents.Seller {
    match s
    case DoPublish(a, ids, now) => OfferEvents.Published(m.seller, a, ids, now)
    case DoReprice(price, c, ids, now) =>
      (match OfferEvents.Reprice(m.seller, price, OfferWindow(c), ids, now)
       case Ok(s') => s' case Err(_) => m.seller)
    case DoWithdraw(c, ids, now) =>
      (match OfferEvents.Withdraw(m.seller, OfferWindow(c), ids, now)
       case Ok(s') => s' case Err(_) => m.seller)
    case DoClose => OfferEvents.Close(m.seller)
    case _ => m.seller
  }

  /** A transaction that fails leaves everything as it was. */
  function Committed(m: Market, r: Result<Market, Fault>): Market {
    if r.Ok? then r.value else m
  }

  function StepDeal(m: Market, k: nat, change: DealStep, c: Calendar, ids: OfferEvents.Ids, now: int): Market {
    if k < |m.deals| && m.deals[k].swap.Some?
    then Replaced(m, k, DealAfter(m.deals[k], change), OfferWindow(c), ids, now) else m
  }

  function Next(m: Market, s: Step): Market {
    match s
    case DoBid(msg, c, p, outgoing, now) => Committed(m, Ingress(m, msg, c, p, outgoing, now))
    case DoTick(p, c, now) => Committed(m, ProcessDue(m, p, c, now))
    case DoDeal(k, change, c, ids, now) => StepDeal(m, k, change, c, ids, now)
    case DoProposed(k, p, c, ids, now) =>
      var m' := StepDeal(m, k, Happens(p.event), c, ids, now);
      if p.event.fact.SwapProposed? && k < |m'.deals| && m.deals[k].swap.Some? then Accept(m', k, p, now) else m'
    case _ => m.(seller := SellerStep(m, s))
  }

  const START := Market(OfferEvents.Seller(None, []), [], [], map[])

  function Execute(steps: seq<Step>): Market {
    if steps == [] then START else Next(Execute(steps[..|steps| - 1]), steps[|steps| - 1])
  }

  predicate Legal(steps: seq<Step>) { forall s | s in steps :: Enabled(s) }

  // ---- One deal ---------------------------------------------------------

  predicate Open(d: Deal) { d.status in {PENDING, REJECTED_BID} }

  /** A bid is either without rows, or has a reservation and a swap on its frozen terms. */
  ghost predicate Sound(d: Deal, offerId: string) {
    && ValidCity(d.bid.buyer) && d.bid.quantity >= 1
    && (d.status == PENDING ==> d.bid.buyer != CITY_ID)
    && (d.reason.Some? <==> d.status == REJECTED_BID)
    && if Open(d) then d.reservation.None? && d.swap.None? && d.acceptedPrice.None?
       else
         && d.reservation.Some? && d.reservation.value.quantity == d.bid.quantity
         && d.acceptedPrice.Some? && d.swap.Some?
         && Terms(d.swap.value, d.bid, d.acceptedPrice.value, offerId)
  }

  predicate Terms(s: Swap, b: Bid, price: nat, offerId: string) {
    && s.key == b.idpk && s.counterpart == b.buyer && s.memo == offerId
    && s.give == b.quantity * PRICE_SCALE && s.take == Amount(b.quantity, price) * PRICE_PER_CENT
  }

  /** What a step of the swap leaves alone. */
  predicate SameDeal(d: Deal, d': Deal) {
    && d'.bid == d.bid && d'.acceptedPrice == d.acceptedPrice && d'.reason == d.reason
    && (d'.status == d.status || d'.status == EXPIRED_BID)
    && d'.swap.Some? && d.swap.Some? && d'.swap.value.key == d.swap.value.key
    && d'.swap.value.counterpart == d.swap.value.counterpart && d'.swap.value.memo == d.swap.value.memo
    && d'.swap.value.give == d.swap.value.give && d'.swap.value.take == d.swap.value.take
    && (d'.reservation == d.reservation
        || (d.reservation.Some? && d.reservation.value.status == HOLD
            && d'.reservation.Some? && d'.reservation.value.quantity == d.reservation.value.quantity))
  }

  lemma DealStepKeepsTerms(d: Deal, s: DealStep)
    requires d.swap.Some? && !Open(d)
    ensures SameDeal(d, DealAfter(d, s))
  {
  }

  /** Energy only moves from the HOLD to the sale, or back. */
  lemma EnergyOfChange(d: Deal, d': Deal)
    requires SameDeal(d, d')
    ensures Sale(d, d') == SoldBy(d') - SoldBy(d)
    ensures HeldBy(d') + SoldBy(d') <= HeldBy(d) + SoldBy(d)
    ensures HeldBy(d') <= HeldBy(d)
  {
  }

  // ---- No oversell ------------------------------------------------------

  ghost predicate Balanced(m: Market) {
    match m.seller.offer
    case None => m.deals == []
    case Some(o) =>
      && o.offerId != "" && o.cycle != ""
      && o.remaining + Sold(m.deals) == o.initial && Held(m.deals) <= o.remaining
      && (forall d | d in m.deals :: Sound(d, o.offerId))
  }

  lemma SellerStepKeepsBalance(m: Market, s: Step)
    requires Balanced(m) && Enabled(s)
    ensures Balanced(m.(seller := SellerStep(m, s)))
  {
  }

  lemma SumOfMember(f: Deal -> nat, deals: seq<Deal>, k: nat)
    requires k < |deals|
    ensures f(deals[k]) <= Sum(f, deals)
  {
  }

  lemma ReplacedKeepsBalance(m: Market, k: nat, d': Deal, w: OfferEvents.Window, ids: OfferEvents.Ids, now: int)
    requires Balanced(m) && k < |m.deals| && SameDeal(m.deals[k], d') && !Open(m.deals[k])
    ensures Balanced(Replaced(m, k, d', w, ids, now))
  {
    var d := m.deals[k];
    EnergyOfChange(d, d');
    SumOfChange(HeldBy, m.deals, k, d');
    SumOfChange(SoldBy, m.deals, k, d');
    SumOfMember(HeldBy, m.deals, k);
    assert Sound(d, m.seller.offer.value.offerId);
    assert Sound(d', m.seller.offer.value.offerId);
  }

  lemma StepDealKeepsBalance(m: Market, k: nat, change: DealStep, c: Calendar, ids: OfferEvents.Ids, now: int)
    requires Balanced(m)
    ensures Balanced(StepDeal(m, k, change, c, ids, now))
  {
    if k < |m.deals| && m.deals[k].swap.Some? {
      assert Sound(m.deals[k], m.seller.offer.value.offerId);
      DealStepKeepsTerms(m.deals[k], change);
      ReplacedKeepsBalance(m, k, DealAfter(m.deals[k], change), OfferWindow(c), ids, now);
    }
  }

  /** Other rows of deal k with the same energy. */
  lemma NewRowKeepsBalance(m: Market, k: nat, d': Deal, answers: seq<Answer>)
    requires Balanced(m) && k < |m.deals|
    requires m.seller.offer.Some? ==> Sound(d', m.seller.offer.value.offerId)
    requires SoldBy(d') == SoldBy(m.deals[k])
    requires HeldBy(d') == HeldBy(m.deals[k]) || HeldBy(d') - HeldBy(m.deals[k]) <= Available(m)
    ensures Balanced(m.(deals := m.deals[k := d'], answers := answers))
  {
    SumOfChange(HeldBy, m.deals, k, d');
    SumOfChange(SoldBy, m.deals, k, d');
  }

  lemma AcceptKeepsBalance(m: Market, k: nat, p: Proposal, now: int)
    requires Balanced(m) && k < |m.deals|
    ensures Balanced(Accept(m, k, p, now))
  {
    if Acceptable(m, k, p, now) {
      assert Sound(m.deals[k], m.seller.offer.value.offerId);
      NewRowKeepsBalance(m, k, m.deals[k].(status := ACCEPTED), m.answers + [Acceptance(m, k, p)]);
    }
  }

  lemma DecideKeepsBalance(m: Market, k: nat, c: Calendar, now: int)
    requires Balanced(m) && k < |m.deals| && m.deals[k].status == PENDING && Decide(m, k, c, now).Ok?
    ensures Balanced(Decide(m, k, c, now).value)
  {
    var d := m.deals[k];
    assert Sound(d, m.seller.offer.value.offerId);
    var verdict := ReserveVerdict(m, d.bid, c, now);
    if verdict.Some? {
      NewRowKeepsBalance(m, k, d.(status := REJECTED_BID, reason := verdict), Decide(m, k, c, now).value.answers);
    } else {
      NewRowKeepsBalance(m, k, Reserved(d.bid, m.seller.offer.value.price, m.seller.offer.value.offerId), m.answers);
    }
  }

  lemma ReserveKeepsBalance(m: Market, idpk: Uuid, c: Calendar, now: int)
    requires Balanced(m) && Reserve(m, idpk, c, now).Ok?
    ensures Balanced(Reserve(m, idpk, c, now).value)
  {
    var k := Find(m.deals, idpk);
    if k.Some? && m.deals[k.value].status == PENDING {
      DecideKeepsBalance(m, k.value, c, now);
    }
  }

  lemma {:induction false} ReserveAllKeepsBalance(m: Market, order: seq<Bid>, c: Calendar, now: int)
    requires Balanced(m) && ReserveAll(m, order, c, now).Ok?
    ensures Balanced(ReserveAll(m, order, c, now).value)
  {
    if order != [] {
      var n := |order| - 1;
      ReserveAllKeepsBalance(m, order[..n], c, now);
      ReserveKeepsBalance(ReserveAll(m, order[..n], c, now).value, order[n].idpk, c, now);
    }
  }

  lemma StoreKeepsBalance(m: Market, msg: BidMessage, reason: Option<Reason>, now: int)
    requires Balanced(m) && !Malformed(msg) && (reason.None? ==> msg.buyer != CITY_ID)
    ensures Balanced(Store(m, msg, reason, now))
  {
  }

  lemma IngressKeepsBalance(m: Market, msg: BidMessage, c: Calendar, p: Policy, outgoing: bool, now: int)
    requires Balanced(m) && Ingress(m, msg, c, p, outgoing, now).Ok?
    ensures Balanced(Ingress(m, msg, c, p, outgoing, now).value)
  {
    if msg.idpk !in m.claimed && !Malformed(msg) && !outgoing && Find(m.deals, msg.idpk).None? {
      var reason := IngressVerdict(m, msg, c, now);
      StoreKeepsBalance(m, msg, reason, now);
      if reason.None? && p == FIFO {
        ReserveKeepsBalance(Store(m, msg, reason, now), msg.idpk, c, now);
      }
    }
  }

  lemma StepKeepsBalance(m: Market, s: Step)
    requires Balanced(m) && Enabled(s)
    ensures Balanced(Next(m, s))
  {
    match s
    case DoBid(msg, c, p, outgoing, now) =>
      if Ingress(m, msg, c, p, outgoing, now).Ok? {
        IngressKeepsBalance(m, msg, c, p, outgoing, now);
      }
    case DoTick(p, c, now) =>
      if ProcessDue(m, p, c, now).Ok? && ProcessDue(m, p, c, now).value != m {
        ReserveAllKeepsBalance(m, Ordered(Waiting(m), p), c, now);
      }
    case DoDeal(k, change, c, ids, now) =>
      StepDealKeepsBalance(m, k, change, c, ids, now);
    case DoProposed(k, p, c, ids, now) =>
      StepDealKeepsBalance(m, k, Happens(p.event), c, ids, now);
      var m' := StepDeal(m, k, Happens(p.event), c, ids, now);
      if k < |m'.deals| {
        AcceptKeepsBalance(m', k, p, now);
      }
    case _ =>
      SellerStepKeepsBalance(m, s);
  }

  lemma {:induction false} EveryRunIsBalanced(steps: seq<Step>)
    requires Legal(steps)
    ensures Balanced(Execute(steps))
  {
    if steps != [] {
      var n := |steps| - 1;
      EveryRunIsBalanced(steps[..n]);
      StepKeepsBalance(Execute(steps[..n]), steps[n]);
    }
  }

  /** Energy on HOLD and energy sold never exceed the offer, and the clamp is never needed. */
  lemma NeverOversold(steps: seq<Step>)
    requires Legal(steps) && Execute(steps).seller.offer.Some?
    ensures var m := Execute(steps);
            var o := m.seller.offer.value;
            && Held(m.deals) + Sold(m.deals) <= o.initial
            && o.remaining == o.initial - Sold(m.deals)
            && Available(m) == o.remaining - Held(m.deals)
            && Available(m) == o.initial - Held(m.deals) - Sold(m.deals)
  {
    EveryRunIsBalanced(steps);
  }

  // ---- The HOLD mirrors the swap ----------------------------------------

  /** Energy is on HOLD exactly while the swap is under way, and sold only when it settled. */
  ghost predicate Mirrors(d: Deal) {
    if Open(d) then d.reservation.None? && d.swap.None?
    else
      && d.reservation.Some? && d.swap.Some?
      && (d.reservation.value.status == HOLD <==> !Terminal(d.swap.value.status))
      && (d.reservation.value.status == Deals.COMMITTED ==> d.swap.value.status == SETTLED)
  }

  lemma DealStepMirrors(d: Deal, s: DealStep)
    requires Mirrors(d) && d.swap.Some?
    ensures Mirrors(DealAfter(d, s))
  {
  }

  ghost predicate AllMirror(deals: seq<Deal>) { forall d | d in deals :: Mirrors(d) }

  lemma ReserveMirrors(m: Market, idpk: Uuid, c: Calendar, now: int)
    requires AllMirror(m.deals) && Reserve(m, idpk, c, now).Ok?
    ensures AllMirror(Reserve(m, idpk, c, now).value.deals)
  {
    var k := Find(m.deals, idpk).value;
    var m' := Reserve(m, idpk, c, now).value;
    assert Mirrors(m.deals[k]);
    assert Mirrors(m'.deals[k]);
    assert m'.deals == m.deals[k := m'.deals[k]];
  }

  lemma {:induction false} ReserveAllMirrors(m: Market, order: seq<Bid>, c: Calendar, now: int)
    requires AllMirror(m.deals) && ReserveAll(m, order, c, now).Ok?
    ensures AllMirror(ReserveAll(m, order, c, now).value.deals)
  {
    if order != [] {
      var n := |order| - 1;
      ReserveAllMirrors(m, order[..n], c, now);
      ReserveMirrors(ReserveAll(m, order[..n], c, now).value, order[n].idpk, c, now);
    }
  }

  lemma IngressMirrors(m: Market, msg: BidMessage, c: Calendar, p: Policy, outgoing: bool, now: int)
    requires AllMirror(m.deals) && Ingress(m, msg, c, p, outgoing, now).Ok?
    ensures AllMirror(Ingress(m, msg, c, p, outgoing, now).value.deals)
  {
    if msg.idpk !in m.claimed && !Malformed(msg) && !outgoing && Find(m.deals, msg.idpk).None? {
      var reason := IngressVerdict(m, msg, c, now);
      assert AllMirror(Store(m, msg, reason, now).deals);
      if reason.None? && p == FIFO {
        ReserveMirrors(Store(m, msg, reason, now), msg.idpk, c, now);
      }
    }
  }

  lemma StepDealMirrors(m: Market, k: nat, change: DealStep, c: Calendar, ids: OfferEvents.Ids, now: int)
    requires AllMirror(m.deals)
    ensures AllMirror(StepDeal(m, k, change, c, ids, now).deals)
  {
    if k < |m.deals| && m.deals[k].swap.Some? {
      DealStepMirrors(m.deals[k], change);
    }
  }

  lemma StepMirrors(m: Market, s: Step)
    requires AllMirror(m.deals)
    ensures AllMirror(Next(m, s).deals)
  {
    match s
    case DoBid(msg, c, p, outgoing, now) =>
      if Ingress(m, msg, c, p, outgoing, now).Ok? {
        IngressMirrors(m, msg, c, p, outgoing, now);
      }
    case DoTick(p, c, now) =>
      if ProcessDue(m, p, c, now).Ok? && ProcessDue(m, p, c, now).value != m {
        ReserveAllMirrors(m, Ordered(Waiting(m), p), c, now);
      }
    case DoDeal(k, change, c, ids, now) =>
      StepDealMirrors(m, k, change, c, ids, now);
    case DoProposed(k, p, c, ids, now) =>
      StepDealMirrors(m, k, Happens(p.event), c, ids, now);
      AcceptMirrors(StepDeal(m, k, Happens(p.event), c, ids, now), k, p, now);
    case _ =>
  }

  lemma AcceptMirrors(m: Market, k: nat, p: Proposal, now: int)
    requires AllMirror(m.deals)
    ensures k < |m.deals| ==> AllMirror(Accept(m, k, p, now).deals)
  {
  }

  /** In every run each HOLD is one of a swap under way, and all energy sold was settled. */
  lemma {:induction false} HoldsMirrorSwaps(steps: seq<Step>)
    ensures AllMirror(Execute(steps).deals)
  {
    if steps != [] {
      var n := |steps| - 1;
      HoldsMirrorSwaps(steps[..n]);
      StepMirrors(Execute(steps[..n]), steps[n]);
    }
  }

  // ---- The first fact decides -------------------------------------------

  /** The HOLD of deal k became r. */
  predicate Decided(m: Market, k: nat, r: Reservation) {
    && k < |m.deals| && m.deals[k].status != PENDING && m.deals[k].swap.Some?
    && m.deals[k].reservation == Some(r) && r.status != HOLD
  }

  lemma ReserveKeepsDecision(m: Market, idpk: Uuid, c: Calendar, now: int, k: nat, r: Reservation)
    requires Decided(m, k, r) && Reserve(m, idpk, c, now).Ok?
    ensures Decided(Reserve(m, idpk, c, now).value, k, r)
  {
  }

  lemma {:induction false} ReserveAllKeepsDecision(m: Market, order: seq<Bid>, c: Calendar, now: int, k: nat, r: Reservation)
    requires Decided(m, k, r) && ReserveAll(m, order, c, now).Ok?
    ensures Decided(ReserveAll(m, order, c, now).value, k, r)
  {
    if order != [] {
      var n := |order| - 1;
      ReserveAllKeepsDecision(m, order[..n], c, now, k, r);
      ReserveKeepsDecision(ReserveAll(m, order[..n], c, now).value, order[n].idpk, c, now, k, r);
    }
  }

  lemma AdmitKeepsDecision(m: Market, msg: BidMessage, c: Calendar, p: Policy, now: int, k: nat, r: Reservation)
    requires Decided(m, k, r) && msg.quantity >= 0 && Admit(m, msg, c, p, now).Ok?
    ensures Decided(Admit(m, msg, c, p, now).value, k, r)
  {
    var stored := Store(m, msg, IngressVerdict(m, msg, c, now), now);
    assert Decided(stored, k, r);
    if IngressVerdict(m, msg, c, now).None? && p == FIFO {
      ReserveKeepsDecision(stored, msg.idpk, c, now, k, r);
    }
  }

  lemma StepDealKeepsDecision(m: Market, j: nat, change: DealStep, c: Calendar, ids: OfferEvents.Ids, now: int,
                              k: nat, r: Reservation)
    requires Decided(m, k, r)
    ensures Decided(StepDeal(m, j, change, c, ids, now), k, r)
  {
  }

  lemma AcceptKeepsDecision(m: Market, j: nat, p: Proposal, now: int, k: nat, r: Reservation)
    requires Decided(m, k, r) && j < |m.deals|
    ensures Decided(Accept(m, j, p, now), k, r)
  {
  }

  lemma StepKeepsDecision(m: Market, s: Step, k: nat, r: Reservation)
    requires Decided(m, k, r)
    ensures Decided(Next(m, s), k, r)
  {
    match s
    case DoBid(msg, c, p, outgoing, now) =>
      if msg.idpk !in m.claimed && !Malformed(msg) && !outgoing && Find(m.deals, msg.idpk).None? && Admit(m, msg, c, p, now).Ok? {
        AdmitKeepsDecision(m, msg, c, p, now, k, r);
      }
    case DoTick(p, c, now) =>
      if ProcessDue(m, p, c, now).Ok? && ProcessDue(m, p, c, now).value != m {
        ReserveAllKeepsDecision(m, Ordered(Waiting(m), p), c, now, k, r);
      }
    case DoDeal(j, change, c, ids, now) =>
      StepDealKeepsDecision(m, j, change, c, ids, now, k, r);
    case DoProposed(j, p, c, ids, now) =>
      StepDealKeepsDecision(m, j, Happens(p.event), c, ids, now, k, r);
      var m' := StepDeal(m, j, Happens(p.event), c, ids, now);
      if j < |m'.deals| {
        AcceptKeepsDecision(m', j, p, now, k, r);
      }
    case _ =>
  }

  /** The step brings the wallet's fact e about deal k, which is still under way. */
  predicate Brings(m: Market, s: Step, k: nat, e: Event) {
    && k < |m.deals| && m.deals[k].swap.Some? && !Terminal(m.deals[k].swap.value.status) && !e.fact.SwapProposed?
    && ((s.DoDeal? && s.k == k && s.change == Happens(e)) || (s.DoProposed? && s.k == k && s.proposal.event == e))
  }

  function DecisionOf(d: Deal, e: Event): Reservation
    requires d.reservation.Some?
  {
    Reservation(d.reservation.value.quantity, if e.fact.SwapSettled? then Deals.COMMITTED else RELEASED)
  }

  lemma FactDecides(m: Market, s: Step, k: nat, e: Event)
    requires Brings(m, s, k, e) && Mirrors(m.deals[k])
    ensures m.deals[k].reservation.Some? && Decided(Next(m, s), k, DecisionOf(m.deals[k], e))
  {
  }

  ghost predicate DecidedAt(steps: seq<Step>, i: nat, k: nat, r: Reservation) {
    i <= |steps| && Decided(Execute(steps[..i]), k, r)
  }

  lemma DecidedOneMore(steps: seq<Step>, i: nat, k: nat, r: Reservation)
    requires i < |steps| && DecidedAt(steps, i, k, r)
    ensures DecidedAt(steps, i + 1, k, r)
  {
    assert steps[..i + 1][..i] == steps[..i];
    StepKeepsDecision(Execute(steps[..i]), steps[i], k, r);
  }

  lemma DecidedThrough(steps: seq<Step>, n: nat, k: nat, r: Reservation)
    requires DecidedAt(steps, n, k, r)
    ensures DecidedAt(steps, |steps|, k, r)
  {
    for i := n to |steps|
      invariant DecidedAt(steps, i, k, r)
    {
      DecidedOneMore(steps, i, k, r);
    }
  }

  lemma DecidedByStep(steps: seq<Step>, n: nat, k: nat, e: Event)
    requires n < |steps| && Brings(Execute(steps[..n]), steps[n], k, e)
    ensures Execute(steps[..n]).deals[k].reservation.Some?
    ensures DecidedAt(steps, n + 1, k, DecisionOf(Execute(steps[..n]).deals[k], e))
  {
    HoldsMirrorSwaps(steps[..n]);
    FactDecides(Execute(steps[..n]), steps[n], k, e);
    assert steps[..n + 1][..n] == steps[..n];
  }

  /**
   * The first terminal fact about a deal decides its HOLD for every continuation of the
   * run: committed exactly when it was the settlement, and released else.
   */
  lemma FirstFactDecides(steps: seq<Step>, n: nat, k: nat, e: Event)
    requires n < |steps| && Brings(Execute(steps[..n]), steps[n], k, e)
    ensures Execute(steps[..n]).deals[k].reservation.Some?
    ensures Decided(Execute(steps), k, DecisionOf(Execute(steps[..n]).deals[k], e))
  {
    DecidedByStep(steps, n, k, e);
    DecidedThrough(steps, n + 1, k, DecisionOf(Execute(steps[..n]).deals[k], e));
    assert steps[..|steps|] == steps;
  }
}

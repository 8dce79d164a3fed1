/**
 * From a bid to its answer and back: whatever the seller answers in any run to a bid
 * that the buyer sent passes the buyer's correlation while the bid is pending.
 */
module RoundTrip {
  import opened Common
  import opened Money
  import opened BidExchange
  import opened SellerMarket
  import Deals
  import Allocation
  import MarketSafety
  import BuyerRuns
  import OfferEvents

  // ---- The wire ---------------------------------------------------------

  function Payload(a: Answer): map<Field, Json> {
    match a
    case Accepted(target, _, offerId, _, quantity, price, amount, swapId, token, expiresAt) =>
      map[Target := JUuid(target), OfferId := JStr(offerId), Quantity := JInt(quantity),
          PricePerEnergy := JNum(price as real / PRICE_SCALE as real), AmountDue := JNum(amount as real / 100.0),
          SwapId := JStr(swapId), SwapToken := JStr(token), ExpiresAt := JTime(expiresAt)]
    case Rejected(target, _, offerId, _, requested, _, _, available) =>
      var data := map[Target := JUuid(target), OfferId := JStr(offerId), Requested := JInt(requested)];
      if available.Some? then data[AvailableKwh := JInt(available.value)] else data
  }

  /** The envelope of an answer of this city. */
  function Encode(a: Answer): Reply {
    Reply(a.Accepted?, CITY_ID, a.cycle, Payload(a),
          if a.Rejected? then Listed(a.reason) else NoCause, if a.Rejected? then Some(a.code) else None)
  }

  /** Both sides round the same: integers of cents here, quantised decimals there. */
  lemma AmountsAgree(quantity: nat, price: nat)
    ensures ToCents((price as real / PRICE_SCALE as real) * quantity as real) == Amount(quantity, price)
  {
    var n := quantity * price;
    var x := (price as real / PRICE_SCALE as real) * quantity as real;
    ScaledProduct(quantity, price);
    var c := ToCents(x);
    assert x * 100.0 + 0.5 == n as real / 100.0 + 0.5;
    assert c as real <= n as real / 100.0 + 0.5 < c as real + 1.0;
    assert 2 * n - PRICE_PER_CENT < 2 * (c * PRICE_PER_CENT) <= 2 * n + PRICE_PER_CENT;
    RoundHalfUpUnique(n, PRICE_PER_CENT, c);
  }

  lemma ScaledProduct(quantity: nat, price: nat)
    ensures (price as real / PRICE_SCALE as real) * quantity as real == (quantity * price) as real / PRICE_SCALE as real
  {
    assert (quantity * price) as real == quantity as real * price as real;
  }

  // ---- What an answer says ----------------------------------------------

  /** The answer repeats the terms of the message that it names. */
  ghost predicate AnswersMessage(a: Answer, msg: BidMessage) {
    && a.target == msg.msgId && a.cycle == msg.cycle && a.offerId == msg.offerId && a.buyer == msg.buyer
    && match a
       case Accepted(_, _, _, _, quantity, price, amount, swapId, token, _) =>
         quantity == msg.quantity && quantity >= 1 && amount == Amount(quantity, price) && swapId != "" && token != ""
       case Rejected(_, _, _, _, requested, reason, code, _) =>
         requested == msg.quantity && code == Code(reason) && WellFormed(a)
  }

  ghost predicate AnswersOne(a: Answer, msgs: set<BidMessage>) {
    exists msg | msg in msgs :: AnswersMessage(a, msg)
  }

  /** Every bid row and every answer goes back to a message that arrived. */
  ghost predicate Heard(m: Market, msgs: set<BidMessage>) {
    && (forall d | d in m.deals :: MessageOf(m, d.bid) in msgs)
    && (forall a | a in m.answers :: AnswersOne(a, msgs))
  }

  function Messages(steps: seq<MarketSafety.Step>): set<BidMessage> {
    set s | s in steps && s.DoBid? :: s.msg
  }

  // ---- Steps keep it ----------------------------------------------------

  predicate SameNames(m: Market, m': Market) {
    m.deals == [] || (m.seller.offer.Some? && m'.seller.offer.Some?
                      && m'.seller.offer.value.offerId == m.seller.offer.value.offerId
                      && m'.seller.offer.value.cycle == m.seller.offer.value.cycle)
  }

  lemma RowsKeepHeard(m: Market, m': Market, more: seq<Answer>, msgs: set<BidMessage>)
    requires Heard(m, msgs) && SameNames(m, m') && |m'.deals| == |m.deals|
    requires forall i | 0 <= i < |m.deals| :: m'.deals[i].bid == m.deals[i].bid
    requires m'.answers == m.answers + more && forall a | a in more :: AnswersOne(a, msgs)
    ensures Heard(m', msgs)
  {
  }

  lemma ReserveKeepsHeard(m: Market, idpk: Uuid, c: Calendar, now: int, msgs: set<BidMessage>)
    requires MarketSafety.Balanced(m) && Heard(m, msgs) && Reserve(m, idpk, c, now).Ok?
    ensures Heard(Reserve(m, idpk, c, now).value, msgs)
  {
  }

  lemma {:induction false} ReserveAllKeepsHeard(m: Market, order: seq<Deals.Bid>, c: Calendar, now: int, msgs: set<BidMessage>)
    requires MarketSafety.Balanced(m) && Heard(m, msgs) && ReserveAll(m, order, c, now).Ok?
    ensures Heard(ReserveAll(m, order, c, now).value, msgs)
  {
    if order != [] {
      var n := |order| - 1;
      ReserveAllKeepsHeard(m, order[..n], c, now, msgs);
      MarketSafety.ReserveAllKeepsBalance(m, order[..n], c, now);
      ReserveKeepsHeard(ReserveAll(m, order[..n], c, now).value, order[n].idpk, c, now, msgs);
    }
  }

  lemma StoreKeepsHeard(m: Market, msg: BidMessage, reason: Option<Deals.Reason>, now: int, msgs: set<BidMessage>)
    requires Heard(m, msgs) && msg in msgs && msg.quantity >= 0
    ensures Heard(Store(m, msg, reason, now), msgs)
  {
  }

  lemma IngressKeepsHeard(m: Market, msg: BidMessage, c: Calendar, p: Allocation.Policy, outgoing: bool, now: int,
                          msgs: set<BidMessage>)
    requires MarketSafety.Balanced(m) && Heard(m, msgs) && msg in msgs
    requires Ingress(m, msg, c, p, outgoing, now).Ok?
    ensures Heard(Ingress(m, msg, c, p, outgoing, now).value, msgs)
  {
    if msg.idpk !in m.claimed && !Malformed(msg) && !outgoing && Find(m.deals, msg.idpk).None? {
      var reason := IngressVerdict(m, msg, c, now);
      StoreKeepsHeard(m, msg, reason, now, msgs);
      if reason.Some? {
        assert AnswersMessage(Rejection(msg, reason.value, Available(m)), msg);
      } else if p == Allocation.FIFO {
        MarketSafety.StoreKeepsBalance(m, msg, reason, now);
        ReserveKeepsHeard(Store(m, msg, reason, now), msg.idpk, c, now, msgs);
      }
    }
  }

  lemma StepDealKeepsHeard(m: Market, k: nat, change: DealStep, c: Calendar, ids: OfferEvents.Ids, now: int,
                           msgs: set<BidMessage>)
    requires MarketSafety.Balanced(m) && Heard(m, msgs)
    ensures Heard(MarketSafety.StepDeal(m, k, change, c, ids, now), msgs)
  {
  }

  lemma AcceptKeepsHeard(m: Market, k: nat, p: Proposal, now: int, msgs: set<BidMessage>)
    requires MarketSafety.Balanced(m) && Heard(m, msgs) && k < |m.deals|
    ensures Heard(Accept(m, k, p, now), msgs)
  {
    if Acceptable(m, k, p, now) {
      var a := Acceptance(m, k, p);
      assert m.deals[k] in m.deals;
      assert MarketSafety.Sound(m.deals[k], m.seller.offer.value.offerId);
      assert AnswersMessage(a, MessageOf(m, m.deals[k].bid));
      RowsKeepHeard(m, Accept(m, k, p, now), [a], msgs);
    }
  }

  lemma SellerStepKeepsHeard(m: Market, s: MarketSafety.Step, msgs: set<BidMessage>)
    requires MarketSafety.Balanced(m) && Heard(m, msgs)
    ensures Heard(m.(seller := MarketSafety.SellerStep(m, s)), msgs)
  {
  }

  lemma StepKeepsHeard(m: Market, s: MarketSafety.Step, msgs: set<BidMessage>)
    requires MarketSafety.Balanced(m) && Heard(m, msgs) && (s.DoBid? ==> s.msg in msgs)
    ensures Heard(MarketSafety.Next(m, s), msgs)
  {
    match s
    case DoBid(msg, c, p, outgoing, now) =>
      if Ingress(m, msg, c, p, outgoing, now).Ok? {
        IngressKeepsHeard(m, msg, c, p, outgoing, now, msgs);
      }
    case DoTick(p, c, now) =>
      if ProcessDue(m, p, c, now).Ok? && ProcessDue(m, p, c, now).value != m {
        ReserveAllKeepsHeard(m, Allocation.Ordered(Waiting(m), p), c, now, msgs);
      }
    case DoDeal(k, change, c, ids, now) =>
      StepDealKeepsHeard(m, k, change, c, ids, now, msgs);
    case DoProposed(k, p, c, ids, now) =>
      var m' := MarketSafety.StepDeal(m, k, Happens(p.event), c, ids, now);
      MarketSafety.StepDealKeepsBalance(m, k, Happens(p.event), c, ids, now);
      StepDealKeepsHeard(m, k, Happens(p.event), c, ids, now, msgs);
      if k < |m'.deals| {
        AcceptKeepsHeard(m', k, p, now, msgs);
      }
    case _ =>
      SellerStepKeepsHeard(m, s, msgs);
  }

  lemma {:induction false} EveryAnswerWasAsked(steps: seq<MarketSafety.Step>, msgs: set<BidMessage>)
    requires MarketSafety.Legal(steps) && Messages(steps) <= msgs
    ensures Heard(MarketSafety.Execute(steps), msgs)
  {
    if steps != [] {
      var n := |steps| - 1;
      assert forall msg | msg in Messages(steps[..n]) :: msg in Messages(steps);
      EveryAnswerWasAsked(steps[..n], msgs);
      MarketSafety.EveryRunIsBalanced(steps[..n]);
      assert steps[n].DoBid? ==> steps[n].msg in Messages(steps);
      StepKeepsHeard(MarketSafety.Execute(steps[..n]), steps[n], msgs);
    }
  }

  // ---- The buyer's checks -----------------------------------------------

  /** The seller only hears from this buyer what the buyer's outbox sent to this city. */
  ghost predicate Sent(b: Buyer, msgs: set<BidMessage>) {
    forall msg | msg in msgs && msg.buyer == b.city ::
      exists t | t in b.attempts :: t.message == msg && t.seller == CITY_ID
  }

  lemma AttemptIsFound(b: Buyer, t: Attempt) returns (i: nat, k: nat)
    requires BuyerRuns.Inv(b) && t in b.attempts
    ensures FindAttempt(b.attempts, t.message.msgId) == Some(i) && i < |b.attempts| && b.attempts[i] == t
    ensures FindBid(b.bids, t.message.idpk) == Some(k) && k < |b.bids| && BuyerRuns.Sends(b.city, b.bids[k], t)
  {
    var j :| 0 <= j < |b.attempts| && b.attempts[j] == t;
    i := FindAttempt(b.attempts, t.message.msgId).value;
    assert i == j;
    assert BuyerRuns.Belongs(b, t);
    var l :| 0 <= l < |b.bids| && BuyerRuns.Sends(b.city, b.bids[l], t);
    k := FindBid(b.bids, t.message.idpk).value;
    assert k == l;
  }

  lemma PayloadReads(a: Answer)
    requires a.Accepted?
    ensures Get(Payload(a), Quantity) == JInt(a.quantity)
    ensures Get(Payload(a), PricePerEnergy) == JNum(a.price as real / PRICE_SCALE as real)
    ensures Get(Payload(a), AmountDue) == JNum(a.amount as real / 100.0)
    ensures Get(Payload(a), SwapId) == JStr(a.swapId) && Get(Payload(a), SwapToken) == JStr(a.token)
    ensures Get(Payload(a), ExpiresAt) == JTime(a.expiresAt)
  {
  }

  lemma TermsPass(bid: OutBid, data: map<Field, Json>, price: real, amount: real, swapId: string, token: string, t: int)
    requires bid.quantity >= 1 && Get(data, Quantity) == JInt(bid.quantity)
    requires Get(data, PricePerEnergy) == JNum(price) && price >= 0.0
    requires Get(data, AmountDue) == JNum(amount) && amount >= 0.0
    requires amount == Expected(price, bid.quantity)
    requires Get(data, SwapId) == JStr(swapId) && swapId != ""
    requires Get(data, SwapToken) == JStr(token) && token != ""
    requires Get(data, ExpiresAt) == JTime(t)
    ensures AcceptanceProblem(bid, data).None?
  {
  }

  lemma AcceptancePasses(bid: OutBid, a: Answer)
    requires a.Accepted? && a.quantity == bid.quantity && a.quantity >= 1
    requires a.amount == Amount(a.quantity, a.price) && a.swapId != "" && a.token != ""
    ensures AcceptanceProblem(bid, Payload(a)).None?
  {
    PayloadReads(a);
    AmountsAgree(a.quantity, a.price);
    PriceIsNonNegative(a.price, PRICE_SCALE);
    PriceIsNonNegative(a.amount, 100);
    TermsPass(bid, Payload(a), a.price as real / PRICE_SCALE as real, a.amount as real / 100.0,
              a.swapId, a.token, a.expiresAt);
  }

  lemma PriceIsNonNegative(n: nat, scale: nat)
    requires scale > 0
    ensures n as real / scale as real >= 0.0
  {
  }

  lemma RejectionPasses(bid: OutBid, a: Answer)
    requires a.Rejected? && a.requested == bid.quantity && a.code == Code(a.reason) && WellFormed(a)
    ensures RejectionProblem(bid, Encode(a)).None?
  {
  }

  lemma AnswerPasses(b: Buyer, a: Answer, t: Attempt) returns (k: nat)
    requires BuyerRuns.Inv(b) && t in b.attempts && t.seller == CITY_ID && AnswersMessage(a, t.message)
    ensures BidOf(b, Encode(a)) == Some(k) && k < |b.bids| && b.bids[k].idpk == t.message.idpk
    ensures b.bids[k].status == PENDING ==> ReplyProblem(b, Encode(a)).None?
    ensures b.bids[k].status != PENDING ==> ReplyProblem(b, Encode(a)) == Some(AlreadyResolved)
  {
    var i;
    i, k := AttemptIsFound(b, t);
    if a.Accepted? {
      AcceptancePasses(b.bids[k], a);
    } else {
      RejectionPasses(b.bids[k], a);
    }
  }

  // ---- Main results -----------------------------------------------------

  /** What the buyer's row shows after the answer. */
  ghost predicate Understood(b: Buyer, k: nat, a: Answer, b': Buyer)
    requires k < |b.bids|
  {
    && |b'.bids| == |b.bids| && (forall j | 0 <= j < |b.bids| && j != k :: b'.bids[j] == b.bids[j])
    && (if a.Accepted? then b'.bids[k] == b.bids[k].(status := ACCEPTED, swapId := JStr(a.swapId))
        else b'.bids[k] == b.bids[k].(status := REJECTED, reason := Listed(a.reason),
                                      available := if a.available.Some? then a.available else b.bids[k].available))
    && (forall t | t in b'.attempts && t.message.idpk == b.bids[k].idpk :: !t.required)
  }

  /**
   * Every answer of every seller run, to whichever attempt of the bid, passes all of
   * the buyer's checks while the bid is pending; after that it is already resolved.
   */
  lemma EveryAnswerIsUnderstood(steps: seq<MarketSafety.Step>, b: Buyer, a: Answer) returns (k: nat)
    requires MarketSafety.Legal(steps) && a in MarketSafety.Execute(steps).answers
    requires BuyerRuns.Inv(b) && Sent(b, Messages(steps)) && a.buyer == b.city
    ensures BidOf(b, Encode(a)) == Some(k) && k < |b.bids|
    ensures b.bids[k].status == PENDING ==>
              ProcessReply(b, Encode(a)).Ok? && Understood(b, k, a, ProcessReply(b, Encode(a)).value)
    ensures b.bids[k].status != PENDING ==> ProcessReply(b, Encode(a)) == Err(AlreadyResolved)
  {
    EveryAnswerWasAsked(steps, Messages(steps));
    assert AnswersOne(a, Messages(steps));
    var msg :| msg in Messages(steps) && AnswersMessage(a, msg);
    var t :| t in b.attempts && t.message == msg && t.seller == CITY_ID;
    k := AnswerPasses(b, a, t);
    if b.bids[k].status == PENDING {
      AnswerIsRecorded(b, a, k);
    }
  }

  /** The two runs together: any seller run, any buyer run, any answer between them. */
  lemma SellerAndBuyerAgree(steps: seq<MarketSafety.Step>, city: string, buys: seq<BuyerRuns.Step>, a: Answer)
    returns (k: nat)
    requires MarketSafety.Legal(steps) && a in MarketSafety.Execute(steps).answers && a.buyer == city
    requires BuyerRuns.Legal(city, buys) && Sent(BuyerRuns.Execute(city, buys), Messages(steps))
    ensures var b := BuyerRuns.Execute(city, buys);
            && BidOf(b, Encode(a)) == Some(k) && k < |b.bids|
            && (if b.bids[k].status == PENDING
                then ProcessReply(b, Encode(a)).Ok? && Understood(b, k, a, ProcessReply(b, Encode(a)).value)
                else ProcessReply(b, Encode(a)) == Err(AlreadyResolved))
  {
    BuyerRuns.EveryRunKeepsInv(city, buys);
    k := EveryAnswerIsUnderstood(steps, BuyerRuns.Execute(city, buys), a);
  }

  lemma AnswerIsRecorded(b: Buyer, a: Answer, k: nat)
    requires BidOf(b, Encode(a)) == Some(k) && k < |b.bids| && ReplyProblem(b, Encode(a)).None?
    requires a.Rejected? ==> WellFormed(a)
    ensures ProcessReply(b, Encode(a)).Ok? && Understood(b, k, a, ProcessReply(b, Encode(a)).value)
  {
  }

  lemma {:induction false} DisablingKeepsFinds(attempts: seq<Attempt>, idpk: Uuid, msgId: Uuid)
    ensures FindAttempt(DisableAll(attempts, idpk), msgId) == FindAttempt(attempts, msgId)
  {
    if attempts != [] {
      var n := |attempts| - 1;
      assert DisableAll(attempts, idpk)[..n] == DisableAll(attempts[..n], idpk);
      DisablingKeepsFinds(attempts[..n], idpk, msgId);
    }
  }

  lemma {:induction false} SameKeysFindSame(bids: seq<OutBid>, k: nat, bid: OutBid, idpk: Uuid)
    requires k < |bids| && bid.idpk == bids[k].idpk
    ensures FindBid(bids[k := bid], idpk) == FindBid(bids, idpk)
  {
    var n := |bids| - 1;
    if k == n {
      assert bids[k := bid][..n] == bids[..n];
    } else {
      SameKeysFindSame(bids[..n], k, bid, idpk);
      assert bids[k := bid][..n] == bids[..n][k := bid];
    }
  }

  lemma SameBidAfterAnswer(b: Buyer, first: Reply, second: Reply)
    requires ProcessReply(b, first).Ok?
    ensures BidOf(ProcessReply(b, first).value, second) == BidOf(b, second)
  {
    var b', k := ProcessReply(b, first).value, BidOf(b, first).value;
    if Get(second.data, Target).JUuid? {
      DisablingKeepsFinds(b.attempts, b.bids[k].idpk, second.data[Target].u);
      var i := FindAttempt(b.attempts, second.data[Target].u);
      if i.Some? {
        SameKeysFindSame(b.bids, k, Resolved(b.bids[k], first), b.attempts[i.value].message.idpk);
      }
    }
  }

  /** After an answer was processed, no further answer to any attempt of the bid changes anything. */
  lemma SecondAnswerChangesNothing(b: Buyer, first: Reply, second: Reply)
    requires ProcessReply(b, first).Ok? && BidOf(b, second) == BidOf(b, first)
    ensures ProcessReply(ProcessReply(b, first).value, second).Err?
  {
    SameBidAfterAnswer(b, first, second);
  }
}

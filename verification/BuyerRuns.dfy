/**
 * Every run of the buyer's outbox: orders, publication failures, renewals, answers
 * and expiries. A bid has at most one attempt to send, and none once it is answered.
 */
module BuyerRuns {
  import opened Common
  import opened BidExchange
  import Deals
  import OfferEvents

  datatype Step =
    | DoOrder(order: Order, candidates: Candidates, incoming: bool, msgId: Uuid)
    | DoRenew(newIds: seq<Uuid>, now: int)
    | DoResult(k: nat, published: bool)
    | DoReply(reply: Reply)
    | DoExpire(k: nat)

  function ResultOf(a: Attempt, published: bool): Attempt {
    if published then a.(delivery := OfferEvents.PUBLISHED, required := false)
    else if a.delivery == OfferEvents.PUBLISHED then a
    else a.(delivery := OfferEvents.FAILED)
  }

  function ExpiredBid(b: OutBid): OutBid {
    if b.status in {EXPIRED, REJECTED} then b else b.(status := EXPIRED)
  }

  function Next(b: Buyer, s: Step): Buyer {
    match s
    case DoOrder(o, cs, incoming, msgId) =>
      (match EnqueueBid(b, o, cs, incoming, msgId) case Ok(b') => b' case Err(_) => b)
    case DoRenew(newIds, now) =>
      if |newIds| >= |b.attempts| then RenewFirst(b, |b.attempts|, newIds, now) else b
    case DoResult(k, published) =>
      if k < |b.attempts| then b.(attempts := b.attempts[k := ResultOf(b.attempts[k], published)]) else b
    case DoReply(r) =>
      (match ProcessReply(b, r) case Ok(b') => b' case Err(_) => b)
    case DoExpire(k) =>
      if k < |b.bids| then b.(bids := b.bids[k := ExpiredBid(b.bids[k])]) else b
  }

  function Execute(city: string, steps: seq<Step>): Buyer {
    if steps == [] then Buyer(city, [], [], map[])
    else Next(Execute(city, steps[..|steps| - 1]), steps[|steps| - 1])
  }

  ghost predicate Unused(b: Buyer, msgId: Uuid) {
    forall a | a in b.attempts :: a.message.msgId != msgId
  }

  ghost predicate FreshIds(b: Buyer, newIds: seq<Uuid>) {
    && (forall i | 0 <= i < |newIds| :: Unused(b, newIds[i]))
    && (forall i, j | 0 <= i < j < |newIds| :: newIds[i] != newIds[j])
  }

  /** Generated identifiers are fresh. */
  ghost predicate Enabled(b: Buyer, s: Step) {
    match s
    case DoOrder(_, _, _, msgId) => Unused(b, msgId)
    case DoRenew(newIds, _) => FreshIds(b, newIds)
    case _ => true
  }

  ghost predicate Legal(city: string, steps: seq<Step>) {
    forall i | 0 <= i < |steps| :: Enabled(Execute(city, steps[..i]), steps[i])
  }

  // ---- The invariant ----------------------------------------------------

  /** The attempt sends its bid; while it is to be sent, the bid shows its msgId and has no answer. */
  ghost predicate Belongs(b: Buyer, a: Attempt) {
    exists k | 0 <= k < |b.bids| :: Sends(b.city, b.bids[k], a)
  }

  predicate Sends(city: string, bid: OutBid, a: Attempt) {
    && a.message.idpk == bid.idpk && a.message.cycle == bid.cycle && a.message.offerId == bid.offerId
    && a.message.quantity == bid.quantity && a.message.buyer == city && a.seller == bid.seller
    && (a.required ==> bid.msgId == a.message.msgId && bid.status in {PENDING, EXPIRED})
  }

  ghost predicate Inv(b: Buyer) {
    && (forall i, j | 0 <= i < j < |b.bids| :: b.bids[i].idpk != b.bids[j].idpk)
    && (forall i, j | 0 <= i < j < |b.attempts| :: b.attempts[i].message.msgId != b.attempts[j].message.msgId)
    && (forall i | 0 <= i < |b.attempts| :: Belongs(b, b.attempts[i]))
  }

  /** New rows for bid k that every attempt can live with. */
  lemma ChangedBidKeepsInv(b: Buyer, k: nat, bid: OutBid)
    requires Inv(b) && k < |b.bids|
    requires bid.idpk == b.bids[k].idpk
    requires forall i | 0 <= i < |b.attempts| ::
               Sends(b.city, b.bids[k], b.attempts[i]) ==> Sends(b.city, bid, b.attempts[i])
    ensures Inv(b.(bids := b.bids[k := bid]))
  {
    var b' := b.(bids := b.bids[k := bid]);
    forall i | 0 <= i < |b'.attempts| ensures Belongs(b', b'.attempts[i]) {
      assert Belongs(b, b.attempts[i]);
      var j :| 0 <= j < |b.bids| && Sends(b.city, b.bids[j], b.attempts[i]);
      assert Sends(b'.city, b'.bids[j], b'.attempts[i]);
    }
  }

  lemma ChangedAttemptKeepsInv(b: Buyer, i: nat, a: Attempt)
    requires Inv(b) && i < |b.attempts|
    requires a.message == b.attempts[i].message && a.seller == b.attempts[i].seller
    requires a.required ==> b.attempts[i].required
    ensures Inv(b.(attempts := b.attempts[i := a]))
  {
  }

  lemma AddedAttemptKeepsInv(b: Buyer, a: Attempt)
    requires Inv(b) && Belongs(b, a) && Unused(b, a.message.msgId)
    ensures Inv(b.(attempts := b.attempts + [a]))
  {
  }

  lemma AddedBidKeepsInv(b: Buyer, bid: OutBid)
    requires Inv(b) && FindBid(b.bids, bid.idpk).None?
    ensures Inv(b.(bids := b.bids + [bid]))
  {
    var b' := b.(bids := b.bids + [bid]);
    forall j | 0 <= j < |b'.attempts| ensures Belongs(b', b'.attempts[j]) {
      assert Belongs(b, b.attempts[j]);
      var k :| 0 <= k < |b.bids| && Sends(b.city, b.bids[k], b.attempts[j]);
      assert Sends(b'.city, b'.bids[k], b'.attempts[j]);
    }
  }

  lemma OrderKeepsInv(b: Buyer, o: Order, cs: Candidates, incoming: bool, msgId: Uuid)
    requires Inv(b) && Unused(b, msgId) && EnqueueBid(b, o, cs, incoming, msgId).Ok?
    ensures Inv(EnqueueBid(b, o, cs, incoming, msgId).value)
  {
    if FindBid(b.bids, o.idpk).None? {
      var seller := FindOffer(cs.offers, o.offerId).value.seller;
      var bid, a := NewBid(o, seller, msgId), NewAttempt(b.city, o, seller, msgId, cs.lastBidAt);
      AddedBidKeepsInv(b, bid);
      var b1 := b.(bids := b.bids + [bid]);
      assert Sends(b1.city, b1.bids[|b.bids|], a);
      AddedAttemptKeepsInv(b1, a);
    }
  }

  /** The attempt that the bid shows is the only one that can be under way. */
  lemma RenewOneKeepsInv(b: Buyer, i: nat, msgId: Uuid, now: int)
    requires Inv(b) && i < |b.attempts| && Unused(b, msgId)
    ensures Inv(RenewOne(b, i, msgId, now))
  {
    var a := b.attempts[i];
    if Renewable(a) {
      ChangedAttemptKeepsInv(b, i, Stopped(a));
      if Renews(b, i, now) {
        var b1 := b.(attempts := b.attempts[i := Stopped(a)]);
        var k := FindBid(b.bids, a.message.idpk).value;
        var bid := b.bids[k].(msgId := msgId);
        OnlyShownIsRequired(b, i, k);
        ChangedBidKeepsInv(b1, k, bid);
        var b2 := b1.(bids := b1.bids[k := bid]);
        var a' := Attempt(a.message.(msgId := msgId), a.seller, OfferEvents.PENDING, true, a.expiresAt);
        assert Belongs(b, a);
        assert Sends(b2.city, b2.bids[k], a');
        AddedAttemptKeepsInv(b2, a');
      }
    }
  }

  lemma OnlyShownIsRequired(b: Buyer, i: nat, k: nat)
    requires Inv(b) && i < |b.attempts| && k < |b.bids| && b.bids[k].msgId == b.attempts[i].message.msgId
    ensures forall j | 0 <= j < |b.attempts| && j != i && Sends(b.city, b.bids[k], b.attempts[j]) ::
              !b.attempts[j].required
  {
  }

  ghost predicate KnownIds(b: Buyer, b': Buyer, newIds: seq<Uuid>, n: nat)
    requires n <= |newIds|
  {
    forall a | a in b'.attempts :: !Unused(b, a.message.msgId) || a.message.msgId in newIds[..n]
  }

  ghost predicate Renewed(b: Buyer, b': Buyer, newIds: seq<Uuid>, n: nat)
    requires n <= |newIds|
  {
    Inv(b') && KnownIds(b, b', newIds, n)
  }

  lemma NothingRenewed(b: Buyer, newIds: seq<Uuid>)
    requires Inv(b)
    ensures Renewed(b, b, newIds, 0)
  {
  }

  /** What each renewal keeps, the whole renewal keeps. */
  lemma {:induction false} RenewalKeeps(p: (Buyer, nat) -> bool, b: Buyer, n: nat, newIds: seq<Uuid>, now: int)
    requires n <= |b.attempts| && n <= |newIds| && p(b, 0)
    requires forall b1: Buyer, k: nat | k < n && k < |b1.attempts| && p(b1, k) :: p(RenewOne(b1, k, newIds[k], now), k + 1)
    ensures p(RenewFirst(b, n, newIds, now), n)
  {
    if n > 0 {
      RenewalKeeps(p, b, n - 1, newIds, now);
      assert p(RenewFirst(b, n - 1, newIds, now), n - 1);
    }
  }

  lemma RenewFirstKeepsInv(b: Buyer, n: nat, newIds: seq<Uuid>, now: int)
    requires Inv(b) && n <= |b.attempts| && n <= |newIds| && FreshIds(b, newIds)
    ensures Inv(RenewFirst(b, n, newIds, now))
  {
    var p := (b1: Buyer, k: nat) => k <= |newIds| && Renewed(b, b1, newIds, k);
    NothingRenewed(b, newIds);
    forall b1: Buyer, k: nat | k < n && k < |b1.attempts| && p(b1, k)
      ensures p(RenewOne(b1, k, newIds[k], now), k + 1)
    {
      NextRenewalKeepsInv(b, b1, newIds, k, now);
    }
    RenewalKeeps(p, b, n, newIds, now);
  }

  lemma NextRenewalKeepsInv(b: Buyer, b1: Buyer, newIds: seq<Uuid>, n: nat, now: int)
    requires n < |b1.attempts| && n < |newIds| && FreshIds(b, newIds) && Renewed(b, b1, newIds, n)
    ensures Renewed(b, RenewOne(b1, n, newIds[n], now), newIds, n + 1)
  {
    NextIdIsUnused(b, b1, newIds, n);
    RenewOneKeepsInv(b1, n, newIds[n], now);
    RenewOneKnowsIds(b, b1, newIds, n, now);
  }

  lemma NextIdIsUnused(b: Buyer, b1: Buyer, newIds: seq<Uuid>, n: nat)
    requires n < |newIds| && FreshIds(b, newIds) && KnownIds(b, b1, newIds, n)
    ensures Unused(b1, newIds[n])
  {
  }

  lemma RenewOneKnowsIds(b: Buyer, b1: Buyer, newIds: seq<Uuid>, n: nat, now: int)
    requires n < |newIds| && n < |b1.attempts| && KnownIds(b, b1, newIds, n)
    ensures KnownIds(b, RenewOne(b1, n, newIds[n], now), newIds, n + 1)
  {
  }

  lemma AnsweredSends(b: Buyer, k: nat, r: Reply, i: nat)
    requires Inv(b) && k < |b.bids| && i < |b.attempts|
    ensures var b' := b.(bids := b.bids[k := Resolved(b.bids[k], r)], attempts := DisableAll(b.attempts, b.bids[k].idpk));
            Belongs(b', b'.attempts[i])
  {
    var b' := b.(bids := b.bids[k := Resolved(b.bids[k], r)], attempts := DisableAll(b.attempts, b.bids[k].idpk));
    assert Belongs(b, b.attempts[i]);
    var j :| 0 <= j < |b.bids| && Sends(b.city, b.bids[j], b.attempts[i]);
    assert Sends(b'.city, b'.bids[j], b'.attempts[i]);
  }

  lemma ReplyKeepsInv(b: Buyer, r: Reply)
    requires Inv(b) && ProcessReply(b, r).Ok?
    ensures Inv(ProcessReply(b, r).value)
  {
    var b', k := ProcessReply(b, r).value, BidOf(b, r).value;
    forall i | 0 <= i < |b'.attempts| ensures Belongs(b', b'.attempts[i]) {
      AnsweredSends(b, k, r, i);
    }
  }

  lemma StepKeepsInv(b: Buyer, s: Step)
    requires Inv(b) && Enabled(b, s)
    ensures Inv(Next(b, s)) && Next(b, s).city == b.city
  {
    match s
    case DoOrder(o, cs, incoming, msgId) =>
      if EnqueueBid(b, o, cs, incoming, msgId).Ok? {
        OrderKeepsInv(b, o, cs, incoming, msgId);
      }
    case DoRenew(newIds, now) =>
      if |newIds| >= |b.attempts| {
        RenewFirstKeepsInv(b, |b.attempts|, newIds, now);
        RenewKeepsCity(b, |b.attempts|, newIds, now);
      }
    case DoResult(k, published) =>
      if k < |b.attempts| {
        ChangedAttemptKeepsInv(b, k, ResultOf(b.attempts[k], published));
      }
    case DoReply(r) =>
      if ProcessReply(b, r).Ok? {
        ReplyKeepsInv(b, r);
      }
    case DoExpire(k) =>
      if k < |b.bids| {
        ChangedBidKeepsInv(b, k, ExpiredBid(b.bids[k]));
      }
  }

  lemma RenewKeepsCity(b: Buyer, n: nat, newIds: seq<Uuid>, now: int)
    requires n <= |b.attempts| && n <= |newIds|
    ensures RenewFirst(b, n, newIds, now).city == b.city
  {
  }

  lemma {:induction false} EveryRunKeepsInv(city: string, steps: seq<Step>)
    requires Legal(city, steps)
    ensures Inv(Execute(city, steps)) && Execute(city, steps).city == city
  {
    if steps != [] {
      var n := |steps| - 1;
      forall i | 0 <= i < n ensures Enabled(Execute(city, steps[..n][..i]), steps[..n][i]) {
        assert steps[..n][..i] == steps[..i];
      }
      EveryRunKeepsInv(city, steps[..n]);
      StepKeepsInv(Execute(city, steps[..n]), steps[n]);
    }
  }

  // ---- Main result ------------------------------------------------------

  /** At most one attempt of a bid waits to be sent, the one the bid shows; none does once it is answered. */
  lemma OneLiveAttempt(city: string, steps: seq<Step>)
    requires Legal(city, steps)
    ensures var b := Execute(city, steps);
            && (forall i, j | 0 <= i < j < |b.attempts| && b.attempts[i].required && b.attempts[j].required ::
                  b.attempts[i].message.idpk != b.attempts[j].message.idpk)
            && (forall i, k | 0 <= i < |b.attempts| && 0 <= k < |b.bids| && b.attempts[i].required
                  && b.attempts[i].message.idpk == b.bids[k].idpk ::
                  b.bids[k].msgId == b.attempts[i].message.msgId && b.bids[k].status !in {ACCEPTED, REJECTED})
  {
    EveryRunKeepsInv(city, steps);
    LiveAttemptsAreShown(Execute(city, steps));
    LiveAttemptsAreApart(Execute(city, steps));
  }

  lemma LiveAttemptsAreShown(b: Buyer)
    requires Inv(b)
    ensures forall i, k | 0 <= i < |b.attempts| && 0 <= k < |b.bids| && b.attempts[i].required
              && b.attempts[i].message.idpk == b.bids[k].idpk ::
              b.bids[k].msgId == b.attempts[i].message.msgId && b.bids[k].status !in {ACCEPTED, REJECTED}
  {
  }

  lemma LiveAttemptsAreApart(b: Buyer)
    requires Inv(b)
    ensures forall i, j | 0 <= i < j < |b.attempts| && b.attempts[i].required && b.attempts[j].required ::
              b.attempts[i].message.idpk != b.attempts[j].message.idpk
  {
  }

  /** A new bid keeps the city's unanswered and accepted bids within what the offer still has. */
  lemma NewBidFits(b: Buyer, o: Order, cs: Candidates, incoming: bool, msgId: Uuid)
    requires EnqueueBid(b, o, cs, incoming, msgId).Ok? && FindBid(b.bids, o.idpk).None?
    ensures var c := FindOffer(cs.offers, o.offerId);
            && c.Some? && c.value.remaining.Some? && cs.minBid <= o.quantity
            && OutstandingTotal(EnqueueBid(b, o, cs, incoming, msgId).value.bids, o.cycle, o.offerId) <= c.value.remaining.value
  {
  }

  /** The attempt that an answer names, sent to the city that answers, for the bid that is resolved. */
  ghost predicate Correlates(b: Buyer, r: Reply, i: nat, k: nat) {
    && i < |b.attempts| && k < |b.bids|
    && Get(r.data, Target) == JUuid(b.attempts[i].message.msgId) && r.city == b.attempts[i].seller
    && r.cycle == b.attempts[i].message.cycle && Get(r.data, OfferId) == JStr(b.attempts[i].message.offerId)
    && b.attempts[i].message.idpk == b.bids[k].idpk && b.bids[k].status == PENDING
  }

  /** Only an answer of the seller that an attempt went to, about that attempt, resolves a bid, and no other bid. */
  lemma ProcessedIsCorrelated(b: Buyer, r: Reply) returns (i: nat, k: nat)
    requires Inv(b) && ProcessReply(b, r).Ok?
    ensures Correlates(b, r, i, k)
    ensures var b' := ProcessReply(b, r).value;
            && |b'.bids| == |b.bids| && b'.bids[k].status == (if r.accepted then ACCEPTED else REJECTED)
            && (forall j | 0 <= j < |b.bids| && j != k :: b'.bids[j] == b.bids[j])
            && (r.accepted ==> Get(r.data, Quantity) == JInt(b.bids[k].quantity) && b'.bids[k].swapId == Get(r.data, SwapId))
            && (!r.accepted ==> CodeOf(r.reason) == r.code && b'.bids[k].reason == r.reason)
  {
    i := FindAttempt(b.attempts, r.data[Target].u).value;
    k := FindBid(b.bids, b.attempts[i].message.idpk).value;
    assert Belongs(b, b.attempts[i]);
  }

  // ---- Reasons and codes ------------------------------------------------

  /** The checks of a rejection besides its reason and code. */
  predicate RestFits(bid: OutBid, r: Reply) {
    && !r.accepted
    && (Get(r.data, Requested) == JNull || EqualsNumber(Get(r.data, Requested), bid.quantity))
    && (if r.reason == Listed(Deals.QuantityUnavailable) then Get(r.data, AvailableKwh).JInt? && r.data[AvailableKwh].i >= 0
        else AvailableKwh !in r.data)
  }

  lemma CorrelatedIsFound(b: Buyer, r: Reply, i: nat, k: nat)
    requires Inv(b) && Correlates(b, r, i, k)
    ensures FindAttempt(b.attempts, b.attempts[i].message.msgId) == Some(i)
    ensures FindBid(b.bids, b.attempts[i].message.idpk) == Some(k)
    ensures Sends(b.city, b.bids[k], b.attempts[i])
  {
    assert Belongs(b, b.attempts[i]);
    var j := FindAttempt(b.attempts, b.attempts[i].message.msgId).value;
    var l := FindBid(b.bids, b.attempts[i].message.idpk).value;
    assert j == i && l == k;
  }

  /**
   * A rejection that fits in all else is processed exactly when its code belongs to its
   * reason; under a reason that the protocol does not list, exactly when it has no code.
   */
  lemma RejectionIsProcessedIff(b: Buyer, r: Reply, i: nat, k: nat)
    requires Inv(b) && Correlates(b, r, i, k) && RestFits(b.bids[k], r)
    ensures ProcessReply(b, r).Ok? <==> r.code == CodeOf(r.reason)
    ensures !r.reason.Listed? ==> (ProcessReply(b, r).Ok? <==> r.code.None?)
    ensures r.reason.Listed? ==> (ProcessReply(b, r).Ok? ==> r.code.Some?)
  {
    CorrelatedIsFound(b, r, i, k);
  }

  /** A rejection that is processed states a reason of the protocol exactly when it carries a code. */
  lemma ProcessedReasonIsListedIff(b: Buyer, r: Reply)
    requires !r.accepted && ProcessReply(b, r).Ok?
    ensures r.reason.Listed? <==> r.code.Some?
  {
  }

  const FEED := Candidates(true, 1, None, [Candidate("o", "BBB", Some(10))])
  const BUY := [DoOrder(Order("c", "o", 5, 1), FEED, false, 2)]
  const UNLISTED := Reply(false, "BBB", "c", map[Target := JUuid(2), OfferId := JStr("o")], Other("X"), None)

  const ORDER := Order("c", "o", 5, 1)
  const BOUGHT := Buyer("AAA", [NewBid(ORDER, "BBB", 2)], [NewAttempt("AAA", ORDER, "BBB", 2, None)], map["o" := ("c", "BBB")])

  lemma OneOrder()
    ensures Legal("AAA", BUY) && Execute("AAA", BUY) == BOUGHT
  {
    assert BUY[..0] == [];
    assert Execute("AAA", []) == Buyer("AAA", [], [], map[]);
    assert Execute("AAA", BUY) == Next(Execute("AAA", BUY[..0]), BUY[0]);
    assert FindOffer(FEED.offers, "o") == Some(Candidate("o", "BBB", Some(10)));
  }

  /** One order, and a rejection without a listed reason or a code: the bid ends as rejected. */
  lemma UnlistedReasonIsTaken()
    ensures Legal("AAA", BUY) && Execute("AAA", BUY) == BOUGHT && BOUGHT.bids[0].status == PENDING
    ensures ProcessReply(BOUGHT, UNLISTED).Ok?
    ensures var b' := ProcessReply(BOUGHT, UNLISTED).value;
            |b'.bids| == 1 && b'.bids[0].status == REJECTED && b'.bids[0].reason == Other("X")
  {
    OneOrder();
    EveryRunKeepsInv("AAA", BUY);
    assert Correlates(BOUGHT, UNLISTED, 0, 0);
    RejectionIsProcessedIff(BOUGHT, UNLISTED, 0, 0);
    CorrelatedIsFound(BOUGHT, UNLISTED, 0, 0);
  }

  // ---- Outstanding bids over runs ---------------------------------------

  /** Whenever the run orders on this offer, the feed says that at most `bound` remains. */
  ghost predicate FeedWithin(steps: seq<Step>, cycle: string, offerId: string, bound: nat) {
    forall s | s in steps && s.DoOrder? && s.order.cycle == cycle && s.order.offerId == offerId ::
      var c := FindOffer(s.candidates.offers, offerId);
      c.Some? && c.value.remaining.Some? ==> c.value.remaining.value <= bound
  }

  lemma {:induction false} TotalOfChange(bids: seq<OutBid>, k: nat, bid: OutBid, cycle: string, offerId: string)
    requires k < |bids| && bid.quantity == bids[k].quantity
    requires Outstanding(bid, cycle, offerId) ==> Outstanding(bids[k], cycle, offerId)
    ensures OutstandingTotal(bids[k := bid], cycle, offerId) <= OutstandingTotal(bids, cycle, offerId)
  {
    var n := |bids| - 1;
    if k == n {
      assert bids[k := bid][..n] == bids[..n];
    } else {
      TotalOfChange(bids[..n], k, bid, cycle, offerId);
      assert bids[k := bid][..n] == bids[..n][k := bid];
    }
  }

  lemma RenewOneKeepsTotal(b: Buyer, i: nat, msgId: Uuid, now: int, cycle: string, offerId: string)
    requires i < |b.attempts|
    ensures OutstandingTotal(RenewOne(b, i, msgId, now).bids, cycle, offerId) <= OutstandingTotal(b.bids, cycle, offerId)
  {
    if Renews(b, i, now) {
      var k := FindBid(b.bids, b.attempts[i].message.idpk).value;
      TotalOfChange(b.bids, k, b.bids[k].(msgId := msgId), cycle, offerId);
    }
  }

  lemma {:induction false} RenewFirstKeepsTotal(b: Buyer, n: nat, newIds: seq<Uuid>, now: int, cycle: string, offerId: string)
    requires n <= |b.attempts| && n <= |newIds|
    ensures OutstandingTotal(RenewFirst(b, n, newIds, now).bids, cycle, offerId) <= OutstandingTotal(b.bids, cycle, offerId)
  {
    if n > 0 {
      RenewFirstKeepsTotal(b, n - 1, newIds, now, cycle, offerId);
      RenewOneKeepsTotal(RenewFirst(b, n - 1, newIds, now), n - 1, newIds[n - 1], now, cycle, offerId);
    }
  }

  lemma OrderKeepsBound(b: Buyer, s: Step, cycle: string, offerId: string, bound: nat)
    requires s.DoOrder? && OutstandingTotal(b.bids, cycle, offerId) <= bound && FeedWithin([s], cycle, offerId, bound)
    ensures OutstandingTotal(Next(b, s).bids, cycle, offerId) <= bound
  {
    if EnqueueBid(b, s.order, s.candidates, s.incoming, s.msgId).Ok? && FindBid(b.bids, s.order.idpk).None? {
      assert s in [s];
      assert Next(b, s).bids[..|b.bids|] == b.bids;
      if s.order.cycle == cycle && s.order.offerId == offerId {
        NewBidFits(b, s.order, s.candidates, s.incoming, s.msgId);
      }
    }
  }

  lemma StepKeepsBound(b: Buyer, s: Step, cycle: string, offerId: string, bound: nat)
    requires OutstandingTotal(b.bids, cycle, offerId) <= bound && FeedWithin([s], cycle, offerId, bound)
    ensures OutstandingTotal(Next(b, s).bids, cycle, offerId) <= bound
  {
    match s
    case DoOrder(_, _, _, _) => OrderKeepsBound(b, s, cycle, offerId, bound);
    case DoRenew(newIds, now) =>
      if |newIds| >= |b.attempts| {
        RenewFirstKeepsTotal(b, |b.attempts|, newIds, now, cycle, offerId);
      }
    case DoResult(_, _) =>
    case DoReply(r) =>
      if ProcessReply(b, r).Ok? {
        var k := BidOf(b, r).value;
        TotalOfChange(b.bids, k, Resolved(b.bids[k], r), cycle, offerId);
      }
    case DoExpire(k) =>
      if k < |b.bids| {
        TotalOfChange(b.bids, k, ExpiredBid(b.bids[k]), cycle, offerId);
      }
  }

  /** In every run the bids that are unanswered or accepted never claim more of an offer than the feed ever had of it. */
  lemma {:induction false} OutstandingIsBounded(city: string, steps: seq<Step>, cycle: string, offerId: string, bound: nat)
    requires FeedWithin(steps, cycle, offerId, bound)
    ensures OutstandingTotal(Execute(city, steps).bids, cycle, offerId) <= bound
  {
    if steps != [] {
      var n := |steps| - 1;
      assert forall s | s in steps[..n] :: s in steps;
      OutstandingIsBounded(city, steps[..n], cycle, offerId, bound);
      assert steps[n] in steps;
      StepKeepsBound(Execute(city, steps[..n]), steps[n], cycle, offerId, bound);
    }
  }
}

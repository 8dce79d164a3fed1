/**
 * One commercial answer per bid: over every run in which different bids carry
 * different message identifiers, and what an acceptance rests on.
 */
module MarketAnswers {
  import opened Common
  import opened Money
  import opened Deals
  import opened Allocation
  import opened SellerMarket
  import opened MarketSafety
  import OfferEvents

  /** A message identifier belongs to one idpk. */
  ghost predicate DistinctMsgIds(steps: seq<Step>) {
    forall i, j | 0 <= i < |steps| && 0 <= j < |steps| && steps[i].DoBid? && steps[j].DoBid?
      && steps[i].msg.msgId == steps[j].msg.msgId :: steps[i].msg.idpk == steps[j].msg.idpk
  }

  // ---- Keys -------------------------------------------------------------

  ghost predicate Keyed(m: Market) {
    && (forall d | d in m.deals :: d.bid.idpk in m.claimed && m.claimed[d.bid.idpk] == d.bid.msgId)
    && (forall i, j | 0 <= i < j < |m.deals| :: m.deals[i].bid.idpk != m.deals[j].bid.idpk)
    && (forall a, b | a in m.claimed && b in m.claimed && m.claimed[a] == m.claimed[b] :: a == b)
    && (forall a | a in m.answers :: a.target in m.claimed.Values)
  }

  /** What an answer says is what happened to its bid. */
  ghost predicate Fits(a: Answer, d: Deal) {
    && a.buyer == d.bid.buyer
    && match a
       case Rejected(_, _, _, _, requested, reason, _, _) =>
         d.status == REJECTED_BID && d.reason == Some(reason) && requested == d.bid.quantity
       case Accepted(_, _, _, _, quantity, price, amount, _, _, _) =>
         d.status in {ACCEPTED, EXPIRED_BID} && quantity == d.bid.quantity
         && d.acceptedPrice == Some(price) && amount == Amount(quantity, price)
  }

  ghost predicate Undecided(d: Deal) { d.status in {PENDING, RESERVED} }

  ghost predicate HasAnswer(answers: seq<Answer>, target: Uuid) {
    exists a | a in answers :: a.target == target
  }

  ghost predicate OneEach(answers: seq<Answer>) {
    forall i, j | 0 <= i < j < |answers| :: answers[i].target != answers[j].target
  }

  ghost predicate DealAnswered(d: Deal, answers: seq<Answer>) {
    && (forall a | a in answers && a.target == d.bid.msgId :: !Undecided(d) && Fits(a, d))
    && (d.status in {REJECTED_BID, ACCEPTED} ==> HasAnswer(answers, d.bid.msgId))
  }

  ghost predicate Backed(a: Answer, deals: seq<Deal>) {
    a.Accepted? ==> exists d | d in deals :: d.bid.msgId == a.target
  }

  ghost predicate Answered(m: Market) {
    && OneEach(m.answers)
    && (forall d | d in m.deals :: DealAnswered(d, m.answers))
    && (forall a | a in m.answers :: Backed(a, m.deals))
  }

  ghost predicate Inv(m: Market) { Balanced(m) && Keyed(m) && Answered(m) }

  // ---- Changes of one row -----------------------------------------------

  lemma SameBidsKeepKeys(m: Market, m': Market)
    requires Keyed(m) && m'.claimed == m.claimed && |m'.deals| == |m.deals|
    requires forall i | 0 <= i < |m.deals| :: m'.deals[i].bid == m.deals[i].bid
    requires forall a | a in m'.answers :: a in m.answers || exists d | d in m.deals :: d.bid.msgId == a.target
    ensures Keyed(m')
  {
  }

  lemma OtherMsgId(m: Market, i: nat, j: nat)
    requires Keyed(m) && i < |m.deals| && j < |m.deals| && i != j
    ensures m.deals[i].bid.msgId != m.deals[j].bid.msgId
  {
  }

  /** New rows for deal k without a new answer. */
  lemma QuietChangeKeepsAnswers(m: Market, m': Market, k: nat, d': Deal)
    requires Keyed(m) && Answered(m) && k < |m.deals| && d'.bid == m.deals[k].bid
    requires m'.deals == m.deals[k := d'] && m'.answers == m.answers && m'.claimed == m.claimed
    requires DealAnswered(d', m.answers)
    ensures Keyed(m') && Answered(m')
  {
    SameBidsKeepKeys(m, m');
    forall a | a in m'.answers ensures Backed(a, m'.deals) {
      assert Backed(a, m.deals);
      if a.Accepted? {
        BackedAfterChange(a, m.deals, k, d');
      }
    }
  }

  lemma BackedAfterChange(a: Answer, deals: seq<Deal>, k: nat, d': Deal)
    requires a.Accepted? && Backed(a, deals) && k < |deals| && d'.bid == deals[k].bid
    ensures Backed(a, deals[k := d'])
  {
    var d :| d in deals && d.bid.msgId == a.target;
    var i :| 0 <= i < |deals| && deals[i] == d;
    assert deals[k := d'][i] in deals[k := d'];
  }

  /** The answer to an undecided bid, together with its decision. */
  lemma DecisionKeepsAnswers(m: Market, m': Market, k: nat, d': Deal, a: Answer)
    requires Keyed(m) && Answered(m) && k < |m.deals| && Undecided(m.deals[k])
    requires d'.bid == m.deals[k].bid && a.target == d'.bid.msgId && !Undecided(d') && Fits(a, d')
    requires m'.deals == m.deals[k := d'] && m'.answers == m.answers + [a] && m'.claimed == m.claimed
    ensures Keyed(m') && Answered(m')
  {
    assert m.deals[k] in m.deals;
    SameBidsKeepKeys(m, m');
    assert DealAnswered(m.deals[k], m.answers);
    assert a in m'.answers;
    forall d | d in m'.deals ensures DealAnswered(d, m'.answers) {
      var i :| 0 <= i < |m'.deals| && m'.deals[i] == d;
      if i != k {
        OtherMsgId(m, i, k);
        assert DealAnswered(d, m.answers);
      }
    }
    forall b | b in m'.answers ensures Backed(b, m'.deals) {
      if b == a {
        assert m'.deals[k] in m'.deals;
      } else if b.Accepted? {
        BackedAfterChange(b, m.deals, k, d');
      }
    }
  }

  // ---- Steps ------------------------------------------------------------

  lemma DecideKeepsAnswers(m: Market, k: nat, c: Calendar, now: int)
    requires Inv(m) && k < |m.deals| && m.deals[k].status == PENDING && Decide(m, k, c, now).Ok?
    ensures Keyed(Decide(m, k, c, now).value) && Answered(Decide(m, k, c, now).value)
  {
    var d := m.deals[k];
    var m' := Decide(m, k, c, now).value;
    assert DealAnswered(d, m.answers);
    var verdict := ReserveVerdict(m, d.bid, c, now);
    if verdict.Some? {
      var a := Rejection(MessageOf(m, d.bid), verdict.value, Available(m));
      assert FirstRejection(m.answers, a.target).None?;
      DecisionKeepsAnswers(m, m', k, m'.deals[k], a);
    } else {
      QuietChangeKeepsAnswers(m, m', k, m'.deals[k]);
    }
  }

  lemma ReserveKeepsInv(m: Market, idpk: Uuid, c: Calendar, now: int)
    requires Inv(m) && Reserve(m, idpk, c, now).Ok?
    ensures Inv(Reserve(m, idpk, c, now).value)
  {
    var k := Find(m.deals, idpk);
    ReserveKeepsBalance(m, idpk, c, now);
    if m.deals[k.value].status == PENDING {
      DecideKeepsAnswers(m, k.value, c, now);
    }
  }

  lemma {:induction false} ReserveAllKeepsInv(m: Market, order: seq<Bid>, c: Calendar, now: int)
    requires Inv(m) && ReserveAll(m, order, c, now).Ok?
    ensures Inv(ReserveAll(m, order, c, now).value)
  {
    if order != [] {
      var n := |order| - 1;
      ReserveAllKeepsInv(m, order[..n], c, now);
      ReserveKeepsInv(ReserveAll(m, order[..n], c, now).value, order[n].idpk, c, now);
    }
  }

  /** A message whose identifier no claimed idpk has. */
  ghost predicate New(m: Market, msg: BidMessage) {
    msg.idpk !in m.claimed && msg.msgId !in m.claimed.Values
  }

  lemma NewHasNoAnswer(m: Market, msg: BidMessage)
    requires Keyed(m) && New(m, msg)
    ensures !HasAnswer(m.answers, msg.msgId)
    ensures FirstRejection(m.answers, msg.msgId).None?
  {
  }

  lemma StoreKeepsKeys(m: Market, msg: BidMessage, reason: Option<Reason>, now: int)
    requires Keyed(m) && New(m, msg) && msg.quantity >= 0
    ensures Keyed(Store(m, msg, reason, now))
  {
    var m' := Store(m, msg, reason, now);
    forall a | a in m'.answers ensures a.target in m'.claimed.Values {
      var key :| key in m.claimed && m.claimed[key] == a.target;
      assert m'.claimed[key] == a.target;
    }
  }

  lemma BackedByMore(answers: seq<Answer>, deals: seq<Deal>, more: seq<Deal>)
    requires forall a | a in answers :: Backed(a, deals)
    ensures forall a | a in answers :: Backed(a, deals + more)
  {
  }

  lemma PendingKeepsAnswers(m: Market, msg: BidMessage, now: int)
    requires Keyed(m) && Answered(m) && New(m, msg) && msg.quantity >= 0
    ensures Answered(Store(m, msg, None, now))
  {
  }

  lemma RefusalKeepsAnswers(m: Market, msg: BidMessage, reason: Reason, now: int)
    requires Keyed(m) && Answered(m) && New(m, msg) && msg.quantity >= 0
    ensures var a := Rejection(msg, reason, Available(m));
            var m' := Store(m, msg, Some(reason), now).(answers := m.answers + [a]);
            Keyed(m') && Answered(m')
  {
    var a := Rejection(msg, reason, Available(m));
    var m' := Store(m, msg, Some(reason), now).(answers := m.answers + [a]);
    NewHasNoAnswer(m, msg);
    StoreKeepsKeys(m, msg, Some(reason), now);
    assert m'.claimed[msg.idpk] == a.target;
    BackedByMore(m.answers, m.deals, [Recorded(msg, Some(reason), now)]);
    assert a in m'.answers;
    forall d | d in m.deals ensures DealAnswered(d, m'.answers) {
      assert DealAnswered(d, m.answers);
      assert m.claimed[d.bid.idpk] == d.bid.msgId;
    }
    assert DealAnswered(Recorded(msg, Some(reason), now), m'.answers);
  }

  lemma IngressKeepsInv(m: Market, msg: BidMessage, c: Calendar, p: Policy, outgoing: bool, now: int)
    requires Inv(m) && (msg.idpk in m.claimed || New(m, msg)) && Ingress(m, msg, c, p, outgoing, now).Ok?
    ensures Inv(Ingress(m, msg, c, p, outgoing, now).value)
  {
    IngressKeepsBalance(m, msg, c, p, outgoing, now);
    if msg.idpk !in m.claimed && !Malformed(msg) && !outgoing {
      assert Find(m.deals, msg.idpk).None?;
      var reason := IngressVerdict(m, msg, c, now);
      NewHasNoAnswer(m, msg);
      if reason.Some? {
        RefusalKeepsAnswers(m, msg, reason.value, now);
      } else {
        StoreKeepsBalance(m, msg, reason, now);
        StoreKeepsKeys(m, msg, reason, now);
        PendingKeepsAnswers(m, msg, now);
        if p == FIFO {
          ReserveKeepsInv(Store(m, msg, reason, now), msg.idpk, c, now);
        }
      }
    }
  }

  lemma StepDealKeepsAnswers(m: Market, k: nat, change: DealStep, c: Calendar, ids: OfferEvents.Ids, now: int)
    requires Inv(m)
    ensures var m' := StepDeal(m, k, change, c, ids, now); Keyed(m') && Answered(m')
  {
    if k < |m.deals| && m.deals[k].swap.Some? {
      var d := m.deals[k];
      assert Sound(d, m.seller.offer.value.offerId);
      DealStepKeepsTerms(d, change);
      assert DealAnswered(d, m.answers);
      QuietChangeKeepsAnswers(m, StepDeal(m, k, change, c, ids, now), k, DealAfter(d, change));
    }
  }

  lemma AcceptKeepsAnswers(m: Market, k: nat, p: Proposal, now: int)
    requires Inv(m) && k < |m.deals|
    ensures Keyed(Accept(m, k, p, now)) && Answered(Accept(m, k, p, now))
  {
    if Acceptable(m, k, p, now) {
      DecisionKeepsAnswers(m, Accept(m, k, p, now), k, m.deals[k].(status := ACCEPTED), Acceptance(m, k, p));
    }
  }

  lemma StepKeepsInv(m: Market, s: Step)
    requires Inv(m) && Enabled(s)
    requires s.DoBid? ==> s.msg.idpk in m.claimed || New(m, s.msg)
    ensures Inv(Next(m, s))
  {
    StepKeepsBalance(m, s);
    match s
    case DoBid(msg, c, p, outgoing, now) =>
      if Ingress(m, msg, c, p, outgoing, now).Ok? {
        IngressKeepsInv(m, msg, c, p, outgoing, now);
      }
    case DoTick(p, c, now) =>
      if ProcessDue(m, p, c, now).Ok? && ProcessDue(m, p, c, now).value != m {
        ReserveAllKeepsInv(m, Ordered(Waiting(m), p), c, now);
      }
    case DoDeal(k, change, c, ids, now) =>
      StepDealKeepsAnswers(m, k, change, c, ids, now);
    case DoProposed(k, p, c, ids, now) =>
      var m' := StepDeal(m, k, Happens(p.event), c, ids, now);
      StepDealKeepsBalance(m, k, Happens(p.event), c, ids, now);
      StepDealKeepsAnswers(m, k, Happens(p.event), c, ids, now);
      if k < |m'.deals| {
        AcceptKeepsAnswers(m', k, p, now);
      }
    case _ =>
  }

  // ---- Runs -------------------------------------------------------------

  /** A claimed idpk came with its msgId in a bid of the run. */
  ghost predicate Arrived(claimed: map<Uuid, Uuid>, steps: seq<Step>) {
    forall key | key in claimed :: ArrivedOne(key, claimed[key], steps)
  }

  ghost predicate ArrivedOne(idpk: Uuid, msgId: Uuid, steps: seq<Step>) {
    exists i | 0 <= i < |steps| :: steps[i].DoBid? && steps[i].msg.idpk == idpk && steps[i].msg.msgId == msgId
  }

  lemma {:induction false} ReserveAllKeepsClaims(m: Market, order: seq<Bid>, c: Calendar, now: int)
    requires ReserveAll(m, order, c, now).Ok?
    ensures ReserveAll(m, order, c, now).value.claimed == m.claimed
  {
    if order != [] {
      ReserveAllKeepsClaims(m, order[..|order| - 1], c, now);
    }
  }

  lemma IngressClaims(m: Market, msg: BidMessage, c: Calendar, p: Policy, outgoing: bool, now: int)
    requires Ingress(m, msg, c, p, outgoing, now).Ok?
    ensures Ingress(m, msg, c, p, outgoing, now).value.claimed in {m.claimed, m.claimed[msg.idpk := msg.msgId]}
  {
  }

  lemma StepClaims(m: Market, s: Step)
    ensures Next(m, s).claimed == m.claimed
            || (s.DoBid? && Next(m, s).claimed == m.claimed[s.msg.idpk := s.msg.msgId])
  {
    match s
    case DoBid(msg, c, p, outgoing, now) =>
      if Ingress(m, msg, c, p, outgoing, now).Ok? {
        IngressClaims(m, msg, c, p, outgoing, now);
      }
    case DoTick(p, c, now) =>
      if ProcessDue(m, p, c, now).Ok? && ProcessDue(m, p, c, now).value != m {
        ReserveAllKeepsClaims(m, Ordered(Waiting(m), p), c, now);
      }
    case _ =>
  }

  lemma ArrivedGrows(m: Market, steps: seq<Step>)
    requires steps != [] && Arrived(m.claimed, steps[..|steps| - 1])
    ensures Arrived(Next(m, steps[|steps| - 1]).claimed, steps)
  {
    var n := |steps| - 1;
    StepClaims(m, steps[n]);
    var after := Next(m, steps[n]).claimed;
    forall key | key in after ensures ArrivedOne(key, after[key], steps) {
      if key in m.claimed && after[key] == m.claimed[key] {
        assert ArrivedOne(key, m.claimed[key], steps[..n]);
        var i :| 0 <= i < n && steps[..n][i].DoBid?
          && steps[..n][i].msg.idpk == key && steps[..n][i].msg.msgId == m.claimed[key];
        assert steps[i] == steps[..n][i];
      } else {
        assert steps[n].DoBid? && steps[n].msg.idpk == key && steps[n].msg.msgId == after[key];
      }
    }
  }

  lemma DistinctMeansNew(m: Market, steps: seq<Step>)
    requires steps != [] && DistinctMsgIds(steps) && Arrived(m.claimed, steps[..|steps| - 1])
    ensures var s := steps[|steps| - 1]; s.DoBid? ==> s.msg.idpk in m.claimed || New(m, s.msg)
  {
  }

  lemma {:induction false} EveryRunKeepsInv(steps: seq<Step>)
    requires Legal(steps) && DistinctMsgIds(steps)
    ensures Inv(Execute(steps)) && Arrived(Execute(steps).claimed, steps)
  {
    if steps != [] {
      var n := |steps| - 1;
      var m := Execute(steps[..n]);
      EveryRunKeepsInv(steps[..n]);
      DistinctMeansNew(m, steps);
      StepKeepsInv(m, steps[n]);
      ArrivedGrows(m, steps);
    }
  }

  // ---- Main results -----------------------------------------------------

  /** At most one answer names a message, and it says what became of the bid. */
  lemma OneCommercialAnswer(steps: seq<Step>)
    requires Legal(steps) && DistinctMsgIds(steps)
    ensures var m := Execute(steps);
            && (forall i, j | 0 <= i < j < |m.answers| :: m.answers[i].target != m.answers[j].target)
            && (forall d, a | d in m.deals && a in m.answers && a.target == d.bid.msgId :: Fits(a, d))
            && (forall d | d in m.deals ::
                  (d.status in {PENDING, RESERVED} ==> !HasAnswer(m.answers, d.bid.msgId))
                  && (d.status in {REJECTED_BID, ACCEPTED} ==> HasAnswer(m.answers, d.bid.msgId)))
  {
    EveryRunKeepsInv(steps);
    var m := Execute(steps);
    forall d, a | d in m.deals && a in m.answers && a.target == d.bid.msgId ensures Fits(a, d) {
      assert DealAnswered(d, m.answers);
    }
  }

  /** A new, well-formed bid either stays open in the books or has its answer, and never fails. */
  lemma EveryNewBidIsTaken(m: Market, msg: BidMessage, c: Calendar, p: Policy, now: int)
    requires Inv(m) && New(m, msg) && !Malformed(msg)
    ensures Ingress(m, msg, c, p, false, now).Ok?
    ensures var m' := Ingress(m, msg, c, p, false, now).value;
            && msg.idpk in m'.claimed
            && (HasAnswer(m'.answers, msg.msgId) <==> IngressVerdict(m, msg, c, now).Some?)
            && (!HasAnswer(m'.answers, msg.msgId) ==>
                  |m'.deals| == |m.deals| + 1 && m'.deals[|m.deals|].bid.msgId == msg.msgId
                  && m'.deals[|m.deals|].status == (if p == FIFO then RESERVED else PENDING))
  {
    NewHasNoAnswer(m, msg);
    NewIsUnknown(m, msg);
    var reason := IngressVerdict(m, msg, c, now);
    if reason.Some? {
      var a := Rejection(msg, reason.value, Available(m));
      assert WellFormed(a);
      assert a in m.answers + [a];
    } else if p == FIFO {
      StoredBidIsReserved(m, msg, c, now);
    }
  }

  lemma NewIsUnknown(m: Market, msg: BidMessage)
    requires Keyed(m) && New(m, msg)
    ensures Find(m.deals, msg.idpk).None?
  {
  }

  /** What ingress found acceptable the reservation finds acceptable too. */
  lemma StoredBidIsReserved(m: Market, msg: BidMessage, c: Calendar, now: int)
    requires Inv(m) && New(m, msg) && !Malformed(msg) && IngressVerdict(m, msg, c, now).None?
    ensures var stored := Store(m, msg, None, now);
            && Reserve(stored, msg.idpk, c, now).Ok?
            && var m' := Reserve(stored, msg.idpk, c, now).value;
            && m'.answers == m.answers && m'.claimed == stored.claimed && |m'.deals| == |m.deals| + 1
            && m'.deals[|m.deals|].bid.msgId == msg.msgId && m'.deals[|m.deals|].status == RESERVED
  {
    StoredIsFound(m, msg, now);
    StoredFits(m, msg, c, now);
  }

  lemma StoredIsFound(m: Market, msg: BidMessage, now: int)
    requires Keyed(m) && New(m, msg) && msg.quantity >= 0 && NamesOffer(m, msg)
    ensures Find(Store(m, msg, None, now).deals, msg.idpk) == Some(|m.deals|)
  {
    var deals := Store(m, msg, None, now).deals;
    NewIsUnknown(m, msg);
    assert deals[..|m.deals|] == m.deals;
  }

  lemma StoredFits(m: Market, msg: BidMessage, c: Calendar, now: int)
    requires msg.quantity >= 0 && IngressVerdict(m, msg, c, now).None?
    ensures var stored, k := Store(m, msg, None, now), |m.deals|;
            && NamesOffer(m, msg) && |stored.deals| == k + 1 && stored.deals[k].status == PENDING
            && ReserveVerdict(stored, stored.deals[k].bid, c, now).None?
            && stored.deals[k].reservation.None? && stored.deals[k].swap.None? && stored.deals[k].bid.msgId == msg.msgId
  {
    var deals := Store(m, msg, None, now).deals;
    assert deals[..|m.deals|] == m.deals;
    assert Held(deals) == Held(m.deals);
  }
}

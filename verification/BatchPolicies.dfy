/**
 * The batch worker refines the greedy allocation, so its results are as good as the
 * policies promise: most buyers for BATCH, at least half the energy for MAX_REMAINING.
 */
module BatchPolicies {
  import opened Common
  import opened Deals
  import opened Sorting
  import opened Allocation
  import opened SellerMarket
  import opened MarketSafety
  import opened MarketAnswers
  import OfferEvents

  /** The window is open, the offer is active and the cycle names its smallest bid. */
  ghost predicate Ready(m: Market, c: Calendar, now: int) {
    && Inv(m) && WindowOpen(c, now) && Active(m.seller)
    && c.minBid.Some? && c.minBid.value > 0
  }

  // ---- The waiting bids -------------------------------------------------

  ghost predicate PendingRow(deals: seq<Deal>, b: Bid) {
    var k := Find(deals, b.idpk);
    k.Some? && deals[k.value].bid == b && deals[k.value].status == PENDING
  }

  ghost predicate DistinctBids(bids: seq<Bid>) {
    forall i, j | 0 <= i < j < |bids| :: bids[i] != bids[j]
  }

  ghost predicate DistinctKeys(deals: seq<Deal>) {
    forall i, j | 0 <= i < j < |deals| :: deals[i].bid.idpk != deals[j].bid.idpk
  }

  lemma {:induction false} PendingBidsAreRows(deals: seq<Deal>)
    requires DistinctKeys(deals)
    ensures DistinctBids(PendingBids(deals))
    ensures forall b | b in PendingBids(deals) :: PendingRow(deals, b)
  {
    if deals != [] {
      var before := deals[..|deals| - 1];
      PendingBidsAreRows(before);
      forall b | b in PendingBids(deals) ensures PendingRow(deals, b) {
        if b in PendingBids(before) {
          assert PendingRow(before, b);
        } else {
          assert b == deals[|deals| - 1].bid;
          assert Find(before, b.idpk).None? by {
            forall i | 0 <= i < |before| ensures before[i].bid.idpk != b.idpk {
              assert before[i] == deals[i];
            }
          }
        }
      }
      assert deals == before + [deals[|deals| - 1]];
      LastIsNew(before, deals[|deals| - 1]);
    }
  }

  lemma LastIsNew(before: seq<Deal>, last: Deal)
    requires DistinctKeys(before + [last])
    requires forall b | b in PendingBids(before) :: PendingRow(before, b)
    ensures last.bid !in PendingBids(before)
  {
    forall i | 0 <= i < |before| ensures before[i].bid.idpk != last.bid.idpk {
      assert (before + [last])[i] == before[i] && (before + [last])[|before|] == last;
    }
  }

  lemma {:induction false} DistinctCounts(bids: seq<Bid>, b: Bid)
    requires DistinctBids(bids)
    ensures multiset(bids)[b] <= 1
  {
    if bids != [] {
      assert bids == [bids[0]] + bids[1..];
      DistinctCounts(bids[1..], b);
      if bids[0] == b {
        assert b !in bids[1..];
        assert multiset(bids[1..])[b] == 0;
      }
    }
  }

  lemma TwiceCounts(bids: seq<Bid>, i: nat, j: nat)
    requires i < j < |bids| && bids[i] == bids[j]
    ensures multiset(bids)[bids[i]] >= 2
  {
    assert bids == bids[..i] + [bids[i]] + bids[i + 1..j] + [bids[j]] + bids[j + 1..];
  }

  lemma PermutationStaysDistinct(bids: seq<Bid>, order: seq<Bid>)
    requires DistinctBids(bids) && multiset(order) == multiset(bids)
    ensures DistinctBids(order)
  {
    forall i, j | 0 <= i < j < |order| ensures order[i] != order[j] {
      DistinctCounts(bids, order[i]);
      if order[i] == order[j] {
        TwiceCounts(order, i, j);
      }
    }
  }

  /** The batch is the pending bids, each once. */
  lemma BatchOrder(m: Market, p: Policy)
    requires Keyed(m)
    ensures var order := Ordered(Waiting(m), p);
            && multiset(order) == multiset(PendingBids(m.deals)) && DistinctBids(order)
            && forall i | 0 <= i < |order| :: PendingRow(m.deals, order[i])
  {
    var order := Ordered(Waiting(m), p);
    SortPermutes(ByCreation, PendingBids(m.deals));
    OrderedPermutes(Waiting(m), p);
    PendingBidsAreRows(m.deals);
    PermutationStaysDistinct(PendingBids(m.deals), order);
    forall i | 0 <= i < |order| ensures PendingRow(m.deals, order[i]) {
      assert order[i] in multiset(order);
    }
  }

  // ---- One decision -----------------------------------------------------

  lemma FindIgnoresRows(deals: seq<Deal>, k: nat, d': Deal, idpk: Uuid)
    requires k < |deals| && d'.bid == deals[k].bid
    ensures Find(deals[k := d'], idpk) == Find(deals, idpk)
  {
    var n := |deals| - 1;
    if k == n {
      assert deals[k := d'][..n] == deals[..n];
    } else {
      FindIgnoresRows(deals[..n], k, d', idpk);
      assert deals[k := d'][..n] == deals[..n][k := d'];
    }
  }

  predicate Taken(m: Market, b: Bid, minBid: nat) {
    Eligible(b, minBid) && b.quantity <= Available(m)
  }

  /** A decided bid: a refusal for quantity is one that still does not fit. */
  ghost predicate Decided(m: Market, b: Bid, minBid: nat) {
    var k := Find(m.deals, b.idpk);
    && k.Some? && m.deals[k.value].bid == b
    && var d := m.deals[k.value];
    || d.status == RESERVED
    || (d.status == REJECTED_BID && d.reason.Some?
        && (d.reason == Some(QuantityUnavailable) ==> b.quantity > Available(m))
        && (Eligible(b, minBid) ==> d.reason == Some(QuantityUnavailable)))
  }

  ghost predicate OneDecision(m: Market, b: Bid, minBid: nat, m': Market) {
    && m'.seller == m.seller
    && Available(m') == Available(m) - (if Taken(m, b, minBid) then b.quantity else 0)
    && ReservedCount(m'.deals) == ReservedCount(m.deals) + (if Taken(m, b, minBid) then 1 else 0)
    && (exists k: nat, d': Deal | k < |m.deals| ::
          m.deals[k].bid == b && d'.bid == b && m'.deals == m.deals[k := d'])
  }

  lemma DecideRefuses(m: Market, k: nat, c: Calendar, now: int)
    requires Ready(m, c, now) && k < |m.deals| && m.deals[k].status == PENDING
    requires !Taken(m, m.deals[k].bid, c.minBid.value)
    ensures Decide(m, k, c, now).Ok?
    ensures var m' := Decide(m, k, c, now).value;
            var d' := m'.deals[k];
            && |m'.deals| == |m.deals| && m'.deals == m.deals[k := d']
            && d'.bid == m.deals[k].bid && d'.status == REJECTED_BID && d'.reservation == m.deals[k].reservation
            && d'.reason == (if !Eligible(d'.bid, c.minBid.value)
                             then Some(if d'.bid.buyer == CITY_ID then SelfTrade else BidTooSmall)
                             else Some(QuantityUnavailable))
            && m'.seller == m.seller
            && (Eligible(d'.bid, c.minBid.value) ==> d'.bid.quantity > Available(m))
  {
    var d := m.deals[k];
    assert DealAnswered(d, m.answers);
    assert Sound(d, m.seller.offer.value.offerId);
    var reason := ReserveVerdict(m, d.bid, c, now).value;
    var a := Rejection(MessageOf(m, d.bid), reason, Available(m));
    assert FirstRejection(m.answers, a.target).None?;
    assert WellFormed(a);
  }

  lemma DecideReserves(m: Market, k: nat, c: Calendar, now: int)
    requires Ready(m, c, now) && k < |m.deals| && m.deals[k].status == PENDING
    requires Taken(m, m.deals[k].bid, c.minBid.value)
    ensures Decide(m, k, c, now).Ok?
    ensures var m' := Decide(m, k, c, now).value;
            var d' := m'.deals[k];
            && |m'.deals| == |m.deals| && m'.deals == m.deals[k := d']
            && d'.bid == m.deals[k].bid && d'.status == RESERVED
            && d'.reservation == Some(Reservation(d'.bid.quantity, HOLD))
            && m'.seller == m.seller
  {
    assert Sound(m.deals[k], m.seller.offer.value.offerId);
  }

  lemma ReserveDecides(m: Market, b: Bid, c: Calendar, now: int) returns (m': Market)
    requires Ready(m, c, now) && PendingRow(m.deals, b)
    ensures Reserve(m, b.idpk, c, now) == Ok(m')
    ensures OneDecision(m, b, c.minBid.value, m') && Decided(m', b, c.minBid.value)
    ensures Ready(m', c, now)
  {
    var k := Find(m.deals, b.idpk).value;
    if Taken(m, b, c.minBid.value) {
      DecideReserves(m, k, c, now);
    } else {
      DecideRefuses(m, k, c, now);
    }
    m' := Decide(m, k, c, now).value;
    ReserveKeepsInv(m, b.idpk, c, now);
    assert Sound(m.deals[k], m.seller.offer.value.offerId);
    SumOfChange(HeldBy, m.deals, k, m'.deals[k]);
    SumOfChange(OneIfReserved, m.deals, k, m'.deals[k]);
    FindIgnoresRows(m.deals, k, m'.deals[k], b.idpk);
  }

  // ---- The whole batch --------------------------------------------------

  lemma OthersStayPending(m: Market, b: Bid, minBid: nat, m': Market, other: Bid)
    requires OneDecision(m, b, minBid, m') && other != b && PendingRow(m.deals, other)
    ensures PendingRow(m'.deals, other)
  {
    var k: nat, d': Deal :| k < |m.deals| && m.deals[k].bid == b && d'.bid == b && m'.deals == m.deals[k := d'];
    FindIgnoresRows(m.deals, k, d', other.idpk);
  }

  lemma OthersStayDecided(m: Market, b: Bid, minBid: nat, m': Market, other: Bid)
    requires OneDecision(m, b, minBid, m') && other != b && Decided(m, other, minBid)
    ensures Decided(m', other, minBid)
  {
    var k: nat, d': Deal :| k < |m.deals| && m.deals[k].bid == b && d'.bid == b && m'.deals == m.deals[k := d'];
    FindIgnoresRows(m.deals, k, d', other.idpk);
  }

  function IfFits(b: Bid, minBid: nat, capacity: int): seq<Bid> {
    if Eligible(b, minBid) && b.quantity <= capacity then [b] else []
  }

  lemma {:induction false} GreedyOfOneMore(bids: seq<Bid>, b: Bid, minBid: nat, capacity: nat)
    ensures var taken := Greedy(bids, minBid, capacity);
            Greedy(bids + [b], minBid, capacity) == taken + IfFits(b, minBid, capacity - Total(taken))
  {
    if bids != [] {
      assert (bids + [b])[1..] == bids[1..] + [b];
      var left := if Eligible(bids[0], minBid) && bids[0].quantity <= capacity
                  then capacity - bids[0].quantity else capacity;
      GreedyOfOneMore(bids[1..], b, minBid, left);
      var tail := Greedy(bids[1..], minBid, left);
      assert Greedy((bids + [b])[1..], minBid, left) == tail + IfFits(b, minBid, left - Total(tail));
      if left < capacity {
        assert ([bids[0]] + tail)[1..] == tail;
      }
    }
  }

  lemma {:induction false} TotalOfOneMore(bids: seq<Bid>, b: Bid)
    ensures Total(bids + [b]) == Total(bids) + b.quantity
  {
    if bids != [] {
      assert (bids + [b])[1..] == bids[1..] + [b];
      TotalOfOneMore(bids[1..], b);
    }
  }

  /** After the first n bids of the order, the rows show the greedy choice among them. */
  ghost predicate Refines(m: Market, order: seq<Bid>, n: nat, minBid: nat, m': Market)
    requires n <= |order|
  {
    var taken := Greedy(order[..n], minBid, Available(m));
    && m'.seller == m.seller
    && Available(m') == Available(m) - Total(taken)
    && ReservedCount(m'.deals) == ReservedCount(m.deals) + |taken|
    && (forall i | 0 <= i < n :: Decided(m', order[i], minBid))
    && (forall i | n <= i < |order| :: PendingRow(m'.deals, order[i]))
  }

  lemma OneMoreRefines(m: Market, order: seq<Bid>, n: nat, minBid: nat, m1: Market, m2: Market)
    requires n < |order| && DistinctBids(order) && Refines(m, order, n, minBid, m1)
    requires OneDecision(m1, order[n], minBid, m2) && Decided(m2, order[n], minBid)
    ensures Refines(m, order, n + 1, minBid, m2)
  {
    var taken := Greedy(order[..n], minBid, Available(m));
    assert order[..n + 1] == order[..n] + [order[n]];
    GreedyOfOneMore(order[..n], order[n], minBid, Available(m));
    TotalOfOneMore(taken, order[n]);
    GreedyFits(order[..n], minBid, Available(m));
    assert taken + [] == taken;
    forall i | 0 <= i < n + 1 ensures Decided(m2, order[i], minBid) {
      if i < n {
        assert order[i] != order[n];
        OthersStayDecided(m1, order[n], minBid, m2, order[i]);
      }
    }
    forall i | n + 1 <= i < |order| ensures PendingRow(m2.deals, order[i]) {
      assert order[i] != order[n];
      OthersStayPending(m1, order[n], minBid, m2, order[i]);
    }
  }

  lemma NothingDecidedYet(m: Market, order: seq<Bid>, minBid: nat)
    requires forall i | 0 <= i < |order| :: PendingRow(m.deals, order[i])
    ensures Refines(m, order, 0, minBid, m)
  {
    assert order[..0] == [];
  }

  ghost predicate BatchPlan(m: Market, order: seq<Bid>, c: Calendar, now: int) {
    Ready(m, c, now) && DistinctBids(order) && forall i | 0 <= i < |order| :: PendingRow(m.deals, order[i])
  }

  ghost predicate BatchState(m: Market, order: seq<Bid>, n: nat, c: Calendar, now: int, m': Market) {
    && n <= |order| && ReserveAll(m, order[..n], c, now) == Ok(m')
    && Ready(m', c, now) && Refines(m, order, n, c.minBid.value, m')
  }

  lemma BatchStarts(m: Market, order: seq<Bid>, c: Calendar, now: int)
    requires BatchPlan(m, order, c, now)
    ensures BatchState(m, order, 0, c, now, m)
  {
    NothingDecidedYet(m, order, c.minBid.value);
    assert order[..0] == [];
  }

  lemma BatchGoesOn(m: Market, order: seq<Bid>, n: nat, c: Calendar, now: int, m1: Market) returns (m': Market)
    requires n < |order| && DistinctBids(order) && BatchState(m, order, n, c, now, m1)
    ensures BatchState(m, order, n + 1, c, now, m')
  {
    m' := NextBidRefines(m, order, n, c, now, m1);
    assert order[..n + 1][..n] == order[..n];
  }

  lemma {:induction false} BatchRefinesGreedy(m: Market, order: seq<Bid>, n: nat, c: Calendar, now: int)
    returns (m': Market)
    requires BatchPlan(m, order, c, now) && n <= |order|
    ensures BatchState(m, order, n, c, now, m')
  {
    if n == 0 {
      m' := m;
      BatchStarts(m, order, c, now);
    } else {
      var m1 := BatchRefinesGreedy(m, order, n - 1, c, now);
      m' := BatchGoesOn(m, order, n - 1, c, now, m1);
    }
  }

  lemma NextBidRefines(m: Market, order: seq<Bid>, n: nat, c: Calendar, now: int, m1: Market) returns (m': Market)
    requires n < |order| && DistinctBids(order)
    requires Ready(m1, c, now) && Refines(m, order, n, c.minBid.value, m1)
    ensures Reserve(m1, order[n].idpk, c, now) == Ok(m')
    ensures Ready(m', c, now) && Refines(m, order, n + 1, c.minBid.value, m')
  {
    m' := ReserveDecides(m1, order[n], c, now);
    OneMoreRefines(m, order, n, c.minBid.value, m1, m');
  }

  // ---- Main results -----------------------------------------------------

  /** A choice that the seller could make among the pending bids. */
  ghost predicate Feasible(m: Market, c: Calendar, sel: seq<Bid>)
    requires c.minBid.Some? && c.minBid.value > 0
  {
    && multiset(sel) <= multiset(PendingBids(m.deals))
    && AllEligible(sel, c.minBid.value) && Total(sel) <= Available(m)
  }

  ghost predicate BatchDue(m: Market, p: Policy, c: Calendar, now: int) {
    Waiting(m) == [] || Due(Waiting(m), p, c, now)
  }

  lemma DueTickRunsBatch(m: Market, p: Policy, c: Calendar, now: int)
    requires m.seller.offer.Some? && BatchDue(m, p, c, now)
    ensures ProcessDue(m, p, c, now) == ReserveAll(m, Ordered(Waiting(m), p), c, now)
  {
    if Waiting(m) == [] {
      OrderedPermutes(Waiting(m), p);
      assert |Ordered([], p)| == 0;
    }
  }

  lemma BatchTakesFeasible(m: Market, p: Policy, c: Calendar)
    requires Keyed(m) && c.minBid.Some? && c.minBid.value > 0
    ensures Feasible(m, c, Greedy(Ordered(Waiting(m), p), c.minBid.value, Available(m)))
  {
    BatchOrder(m, p);
    GreedyFits(Ordered(Waiting(m), p), c.minBid.value, Available(m));
  }

  lemma RefinementDecidesAll(m: Market, order: seq<Bid>, bids: seq<Bid>, minBid: nat, m': Market)
    requires multiset(order) == multiset(bids) && Refines(m, order, |order|, minBid, m')
    ensures var taken := Greedy(order, minBid, Available(m));
            && Available(m') == Available(m) - Total(taken) && m'.seller == m.seller
            && ReservedCount(m'.deals) == ReservedCount(m.deals) + |taken|
            && forall b | b in bids :: Decided(m', b, minBid)
  {
    assert order[..|order|] == order;
    forall b | b in bids ensures Decided(m', b, minBid) {
      assert b in multiset(order);
      var i :| 0 <= i < |order| && order[i] == b;
    }
  }

  /** What a due tick makes of the waiting bids. */
  ghost predicate GreedyTick(m: Market, p: Policy, c: Calendar, now: int, m': Market, taken: seq<Bid>)
    requires c.minBid.Some? && c.minBid.value > 0
  {
    && ProcessDue(m, p, c, now) == Ok(m') && m'.seller == m.seller
    && taken == Greedy(Ordered(Waiting(m), p), c.minBid.value, Available(m))
    && Available(m') == Available(m) - Total(taken)
    && ReservedCount(m'.deals) == ReservedCount(m.deals) + |taken|
    && (forall b | b in PendingBids(m.deals) :: Decided(m', b, c.minBid.value))
  }

  lemma WholeBatch(m: Market, order: seq<Bid>, c: Calendar, now: int) returns (m': Market)
    requires Ready(m, c, now) && DistinctBids(order)
    requires forall i | 0 <= i < |order| :: PendingRow(m.deals, order[i])
    ensures ReserveAll(m, order, c, now) == Ok(m') && Refines(m, order, |order|, c.minBid.value, m')
  {
    m' := BatchRefinesGreedy(m, order, |order|, c, now);
    assert order[..|order|] == order;
  }

  /** A due tick succeeds and makes the greedy choice. */
  lemma TickIsGreedy(m: Market, p: Policy, c: Calendar, now: int) returns (m': Market, taken: seq<Bid>)
    requires Ready(m, c, now) && BatchDue(m, p, c, now)
    ensures GreedyTick(m, p, c, now, m', taken)
  {
    var order := Ordered(Waiting(m), p);
    BatchOrder(m, p);
    m' := WholeBatch(m, order, c, now);
    taken := Greedy(order, c.minBid.value, Available(m));
    RefinedTick(m, p, c, now, order, m', taken);
  }

  lemma RefinedTick(m: Market, p: Policy, c: Calendar, now: int, order: seq<Bid>, m': Market, taken: seq<Bid>)
    requires c.minBid.Some? && c.minBid.value > 0 && m.seller.offer.Some? && BatchDue(m, p, c, now)
    requires order == Ordered(Waiting(m), p) && multiset(order) == multiset(PendingBids(m.deals))
    requires ReserveAll(m, order, c, now) == Ok(m') && Refines(m, order, |order|, c.minBid.value, m')
    requires taken == Greedy(order, c.minBid.value, Available(m))
    ensures GreedyTick(m, p, c, now, m', taken)
  {
    DueTickRunsBatch(m, p, c, now);
    RefinementDecidesAll(m, order, PendingBids(m.deals), c.minBid.value, m');
  }

  lemma MostBuyers(m: Market, c: Calendar, now: int, m': Market, taken: seq<Bid>)
    requires c.minBid.Some? && c.minBid.value > 0 && GreedyTick(m, BATCH, c, now, m', taken)
    requires multiset(Ordered(Waiting(m), BATCH)) == multiset(PendingBids(m.deals)) && Feasible(m, c, taken)
    ensures forall sel | Feasible(m, c, sel) :: |sel| <= |taken|
  {
    SmallFirstAscends(Waiting(m));
    forall sel | Feasible(m, c, sel) ensures |sel| <= |taken| {
      SmallestFirstIsMaximal(Ordered(Waiting(m), BATCH), c.minBid.value, Available(m), sel);
    }
  }

  /** BATCH reserves as many bids as the largest feasible choice has. */
  lemma BatchServesMostBuyers(m: Market, c: Calendar, now: int) returns (best: seq<Bid>)
    requires Ready(m, c, now) && BatchDue(m, BATCH, c, now)
    ensures ProcessDue(m, BATCH, c, now).Ok?
    ensures Feasible(m, c, best) && forall sel | Feasible(m, c, sel) :: |sel| <= |best|
    ensures ReservedCount(ProcessDue(m, BATCH, c, now).value.deals) == ReservedCount(m.deals) + |best|
  {
    var m', taken := TickIsGreedy(m, BATCH, c, now);
    BatchOrder(m, BATCH);
    BatchTakesFeasible(m, BATCH, c);
    best := taken;
    MostBuyers(m, c, now, m', taken);
  }

  lemma HalfTheEnergy(m: Market, c: Calendar, now: int, m': Market, taken: seq<Bid>)
    requires c.minBid.Some? && c.minBid.value > 0 && GreedyTick(m, MAX_REMAINING, c, now, m', taken)
    requires multiset(Ordered(Waiting(m), MAX_REMAINING)) == multiset(PendingBids(m.deals))
    ensures forall sel | Feasible(m, c, sel) :: 2 * Total(taken) >= Total(sel)
  {
    LargeFirstDescends(Waiting(m));
    forall sel | Feasible(m, c, sel) ensures 2 * Total(taken) >= Total(sel) {
      LargestFirstTakesHalf(Ordered(Waiting(m), MAX_REMAINING), c.minBid.value, Available(m), sel);
    }
  }

  /** MAX_REMAINING reserves at least half the energy of every feasible choice. */
  lemma LargestFirstReservesHalf(m: Market, c: Calendar, now: int)
    requires Ready(m, c, now) && BatchDue(m, MAX_REMAINING, c, now)
    ensures ProcessDue(m, MAX_REMAINING, c, now).Ok?
    ensures var m' := ProcessDue(m, MAX_REMAINING, c, now).value;
            forall sel | Feasible(m, c, sel) :: 2 * (Held(m'.deals) - Held(m.deals)) >= Total(sel)
  {
    var m', taken := TickIsGreedy(m, MAX_REMAINING, c, now);
    BatchOrder(m, MAX_REMAINING);
    HalfTheEnergy(m, c, now, m', taken);
    TickConserves(m, MAX_REMAINING, c, now);
  }

  lemma TickConserves(m: Market, p: Policy, c: Calendar, now: int)
    requires Balanced(m) && m.seller.offer.Some? && ProcessDue(m, p, c, now).Ok?
    requires ProcessDue(m, p, c, now).value.seller == m.seller
    ensures var m' := ProcessDue(m, p, c, now).value;
            (Held(m'.deals) - Held(m.deals)) + Available(m') == Available(m)
  {
    if ProcessDue(m, p, c, now).value != m {
      ReserveAllKeepsBalance(m, Ordered(Waiting(m), p), c, now);
    }
  }

  /**
   * Under any policy: every waiting bid is decided, what is reserved and what is left
   * make up what there was, and no bid refused for its quantity fits what is left.
   */
  lemma NothingThatFitsIsRefused(m: Market, p: Policy, c: Calendar, now: int)
    requires Ready(m, c, now) && BatchDue(m, p, c, now)
    ensures ProcessDue(m, p, c, now).Ok?
    ensures var m' := ProcessDue(m, p, c, now).value;
            && (Held(m'.deals) - Held(m.deals)) + Available(m') == Available(m)
            && (forall b | b in PendingBids(m.deals) :: Decided(m', b, c.minBid.value))
  {
    var m', taken := TickIsGreedy(m, p, c, now);
    TickConserves(m, p, c, now);
  }
}

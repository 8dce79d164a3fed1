/**
 * One tick of autonomous buying: the cycle's deficit is covered from the quoted offers
 * in their order, within what the wallet can pay. Amounts are exact decimals.
 */
module AutonomousBuy {
  import opened Common
  import opened BidExchange

  const MAX_BIDS_PER_TICK := 5

  /** A candidate offer with its price including transport, when that is known. */
  datatype Quote = Quote(offerId: string, remaining: Option<int>, price: Option<real>)

  datatype Purchase = Purchase(offerId: string, quantity: nat, price: real)

  /** What the tick may still spend and still needs, what it bought, and the offers it may not bid on. */
  datatype Tick = Tick(deficit: int, capacity: real, bought: seq<Purchase>, taken: set<string>)

  function Ceiling(x: real): int { -((-x).Floor) }

  /** The missing energy, rounded up to whole units. */
  function Deficit(consumption: real, generation: real): int {
    if consumption > generation then Ceiling(consumption - generation) else 0
  }

  function Capacity(available: real, creditLine: real): real {
    if available + creditLine < 0.0 then 0.0 else available + creditLine
  }

  predicate Stopped(t: Tick, maxBids: int) { |t.bought| >= maxBids || t.deficit <= 0 }

  /** The quantity to bid for on this quote, or nothing. */
  function Choose(t: Tick, q: Quote, minBid: int): Option<int> {
    if q.offerId in t.taken || q.price.None? || q.price.value < 0.0 then None
    else if q.remaining.None? || q.remaining.value < minBid then None
    else
      var wanted := Min(t.deficit, q.remaining.value);
      if wanted < minBid then None
      else if q.price.value > 0.0 && wanted as real * q.price.value > t.capacity then
        var affordable := Min(wanted, (t.capacity / q.price.value).Floor);
        if affordable < minBid then None else Some(affordable)
      else Some(wanted)
  }

  /** `placed`: the order was taken; a refused order is skipped. */
  function Bid(t: Tick, q: Quote, minBid: int, maxBids: int, placed: bool): Tick {
    var quantity := Choose(t, q, minBid);
    if Stopped(t, maxBids) || quantity.None? || !placed || quantity.value < 1 then t
    else Tick(t.deficit - quantity.value, t.capacity - quantity.value as real * q.price.value,
              t.bought + [Purchase(q.offerId, quantity.value, q.price.value)], t.taken + {q.offerId})
  }

  /** The tick after some quotes, given which orders were taken. */
  function After(t: Tick, quotes: seq<Quote>, placed: seq<bool>, minBid: int, maxBids: int): Tick
    requires |placed| == |quotes|
  {
    if quotes == [] then t
    else
      var n := |quotes| - 1;
      Bid(After(t, quotes[..n], placed[..n], minBid, maxBids), quotes[n], minBid, maxBids, placed[n])
  }

  function Cost(bought: seq<Purchase>): real {
    if bought == [] then 0.0
    else Cost(bought[..|bought| - 1]) + bought[|bought| - 1].quantity as real * bought[|bought| - 1].price
  }

  function Quantity(bought: seq<Purchase>): nat {
    if bought == [] then 0 else Quantity(bought[..|bought| - 1]) + bought[|bought| - 1].quantity
  }

  // ---- The bids that exist ----------------------------------------------

  predicate Active(b: OutBid, cycle: string) { b.cycle == cycle && b.status in {PENDING, ACCEPTED} }

  function ActiveQuantity(bids: seq<OutBid>, cycle: string): nat {
    if bids == [] then 0
    else
      var b := bids[|bids| - 1];
      ActiveQuantity(bids[..|bids| - 1], cycle) + (if Active(b, cycle) then b.quantity else 0)
  }

  function ActiveOffers(bids: seq<OutBid>, cycle: string): set<string> {
    set b | b in bids && Active(b, cycle) :: b.offerId
  }

  predicate AnyPending(bids: seq<OutBid>, cycle: string) {
    exists b | b in bids :: b.cycle == cycle && b.status == PENDING
  }

  function Start(bids: seq<OutBid>, cycle: string, deficit: int, capacity: real): Tick {
    Tick(deficit - ActiveQuantity(bids, cycle), capacity, [], ActiveOffers(bids, cycle))
  }

  // ---- Limits -----------------------------------------------------------

  ghost predicate Quoted(p: Purchase, quotes: seq<Quote>, minBid: int) {
    && p.quantity >= minBid && p.quantity >= 1 && p.price >= 0.0
    && exists q | q in quotes :: q.offerId == p.offerId && q.price == Some(p.price)
         && q.remaining.Some? && p.quantity <= q.remaining.value
  }

  ghost predicate Within(t: Tick, t': Tick, quotes: seq<Quote>, minBid: int, maxBids: int) {
    && t'.deficit >= 0 && t'.deficit + Quantity(t'.bought) == t.deficit
    && t'.capacity >= 0.0 && t'.capacity + Cost(t'.bought) == t.capacity
    && |t'.bought| <= Max(0, maxBids)
    && (forall i, j | 0 <= i < j < |t'.bought| :: t'.bought[i].offerId != t'.bought[j].offerId)
    && (forall i | 0 <= i < |t'.bought| ::
          t'.bought[i].offerId !in t.taken && t'.bought[i].offerId in t'.taken
          && Quoted(t'.bought[i], quotes, minBid))
    && t.taken <= t'.taken
  }

  lemma FloorIsAffordable(capacity: real, price: real, quantity: int)
    requires price > 0.0 && quantity <= (capacity / price).Floor
    ensures quantity as real * price <= capacity
  {
    var share := capacity / price;
    assert quantity as real <= share;
    assert share * price == capacity;
    Monotone(quantity as real, share, price);
  }

  lemma Monotone(a: real, b: real, price: real)
    requires a <= b && price >= 0.0
    ensures a * price <= b * price
  {
    assert (b - a) * price >= 0.0;
  }

  /** A chosen quantity is wanted, on offer and paid for. */
  lemma ChosenIsAffordable(t: Tick, q: Quote, minBid: int)
    requires t.capacity >= 0.0 && Choose(t, q, minBid).Some?
    ensures var n := Choose(t, q, minBid).value;
            && q.offerId !in t.taken && q.price.Some? && q.price.value >= 0.0 && q.remaining.Some?
            && minBid <= n <= t.deficit && n <= q.remaining.value
            && n as real * q.price.value <= t.capacity
  {
    var n := Choose(t, q, minBid).value;
    if q.price.value > 0.0 {
      var wanted := Min(t.deficit, q.remaining.value);
      if wanted as real * q.price.value > t.capacity {
        FloorIsAffordable(t.capacity, q.price.value, n);
      }
    } else {
      assert n as real * q.price.value == 0.0;
    }
  }

  lemma BidStaysWithin(t: Tick, t1: Tick, quotes: seq<Quote>, q: Quote, minBid: int, maxBids: int, placed: bool)
    requires Within(t, t1, quotes, minBid, maxBids)
    ensures Within(t, Bid(t1, q, minBid, maxBids, placed), quotes + [q], minBid, maxBids)
  {
  }

  lemma {:induction false} TickStaysWithin(t: Tick, quotes: seq<Quote>, placed: seq<bool>, minBid: int, maxBids: int)
    requires |placed| == |quotes| && t.bought == [] && t.deficit >= 0 && t.capacity >= 0.0
    ensures Within(t, After(t, quotes, placed, minBid, maxBids), quotes, minBid, maxBids)
  {
    if quotes != [] {
      var n := |quotes| - 1;
      TickStaysWithin(t, quotes[..n], placed[..n], minBid, maxBids);
      BidStaysWithin(t, After(t, quotes[..n], placed[..n], minBid, maxBids), quotes[..n], quotes[n], minBid, maxBids, placed[n]);
      assert quotes[..n] + [quotes[n]] == quotes;
    }
  }

  /** No gap between the deficit and its rounding. */
  lemma CeilingIsTight(x: real)
    ensures x <= Ceiling(x) as real < x + 1.0
  {
  }

  /**
   * Whichever orders are taken: one bid per offer, none on an offer with an active bid,
   * each within its quote; the cost is covered, and new and active bids together stay
   * within the deficit rounded up.
   */
  lemma TickKeepsItsLimits(bids: seq<OutBid>, cycle: string, consumption: real, generation: real,
                           available: real, creditLine: real, quotes: seq<Quote>, placed: seq<bool>,
                           minBid: int, maxBids: int)
    requires |placed| == |quotes|
    ensures var t := Start(bids, cycle, Deficit(consumption, generation), Capacity(available, creditLine));
            var bought := After(t, quotes, placed, minBid, maxBids).bought;
            && |bought| <= Max(0, maxBids)
            && (forall i, j | 0 <= i < j < |bought| :: bought[i].offerId != bought[j].offerId)
            && (forall p | p in bought :: p.offerId !in ActiveOffers(bids, cycle) && Quoted(p, quotes, minBid))
            && Cost(bought) <= (if available + creditLine > 0.0 then available + creditLine else 0.0)
            && (bought != [] ==>
                  Quantity(bought) + ActiveQuantity(bids, cycle) <= Deficit(consumption, generation)
                  && (Quantity(bought) + ActiveQuantity(bids, cycle)) as real < consumption - generation + 1.0)
  {
    var t := Start(bids, cycle, Deficit(consumption, generation), Capacity(available, creditLine));
    if t.deficit < 0 {
      StoppedStays(t, quotes, placed, 0, minBid, maxBids);
      return;
    }
    TickStaysWithin(t, quotes, placed, minBid, maxBids);
    CeilingIsTight(consumption - generation);
    var bought := After(t, quotes, placed, minBid, maxBids).bought;
    if bought != [] {
      assert Quoted(bought[|bought| - 1], quotes, minBid);
    }
  }

  // ---- The tick on the buyer's desk -------------------------------------

  lemma {:induction false} StoppedStays(t: Tick, quotes: seq<Quote>, placed: seq<bool>, n: nat, minBid: int, maxBids: int)
    requires |placed| == |quotes| && n <= |quotes|
    requires Stopped(After(t, quotes[..n], placed[..n], minBid, maxBids), maxBids)
    ensures After(t, quotes, placed, minBid, maxBids) == After(t, quotes[..n], placed[..n], minBid, maxBids)
  {
    if n == |quotes| {
      assert quotes[..n] == quotes && placed[..n] == placed;
    } else {
      var l := |quotes| - 1;
      assert quotes[..l][..n] == quotes[..n] && placed[..l][..n] == placed[..n];
      StoppedStays(t, quotes[..l], placed[..l], n, minBid, maxBids);
    }
  }

  /** The new rows are the purchases, in order. */
  ghost predicate Bought(before: seq<OutBid>, after: seq<OutBid>, cycle: string, bought: seq<Purchase>) {
    && |after| == |before| + |bought| && after[..|before|] == before
    && forall i | 0 <= i < |bought| :: Shows(after[|before| + i], bought[i], cycle)
  }

  predicate Shows(b: OutBid, p: Purchase, cycle: string) {
    b.cycle == cycle && b.offerId == p.offerId && b.quantity == p.quantity && b.status == PENDING
  }

  /** What the tick reads: the feed, the wallet's balance when it answers, and generated keys. */
  datatype Input = Input(
    cycle: string, consumption: real, generation: real, canBid: bool, minBid: Option<int>,
    balance: Option<(real, real)>, quotes: seq<Quote>, views: seq<Candidates>, keys: seq<Uuid>, msgIds: seq<Uuid>)

  ghost predicate FreshKeys(bids: seq<OutBid>, keys: seq<Uuid>, from: nat) {
    && (forall i, j | from <= i < j < |keys| :: keys[i] != keys[j])
    && (forall i, b | from <= i < |keys| && b in bids :: keys[i] != b.idpk)
  }

  predicate Buys(input: Input, bids: seq<OutBid>) {
    && Deficit(input.consumption, input.generation) > 0 && input.canBid && input.minBid.Some?
    && input.balance.Some? && !AnyPending(bids, input.cycle)
  }

  /** Each order is checked against the feed as it is then, `views[i]`. */
  method AutonomousBuyTick(desk: BuyerDesk, input: Input, maxBids: int := MAX_BIDS_PER_TICK)
    returns (bought: seq<Purchase>, ghost placed: seq<bool>)
    requires |input.views| == |input.keys| == |input.msgIds| == |input.quotes|
    requires FreshKeys(desk.bids, input.keys, 0)
    modifies desk
    ensures Bought(old(desk.bids), desk.bids, input.cycle, bought)
    ensures |placed| == |input.quotes|
    ensures !Buys(input, old(desk.bids)) ==> bought == []
    ensures Buys(input, old(desk.bids)) ==>
              bought == After(Start(old(desk.bids), input.cycle, Deficit(input.consumption, input.generation),
                                    Capacity(input.balance.value.0, input.balance.value.1)),
                              input.quotes, placed, input.minBid.value, maxBids).bought
  {
    bought := [];
    placed := seq(|input.quotes|, _ => false);
    if !Buys(input, desk.bids) {
      return;
    }
    var minBid := input.minBid.value;
    var tick := Start(desk.bids, input.cycle, Deficit(input.consumption, input.generation),
                      Capacity(input.balance.value.0, input.balance.value.1));
    ghost var start := tick;
    ghost var before := desk.bids;
    var i := 0;
    while i < |input.quotes| && !Stopped(tick, maxBids)
      invariant 0 <= i <= |input.quotes| && |placed| == |input.quotes|
      invariant tick == After(start, input.quotes[..i], placed[..i], minBid, maxBids)
      invariant Bought(before, desk.bids, input.cycle, tick.bought)
      invariant FreshKeys(desk.bids, input.keys, i)
    {
      var quote := input.quotes[i];
      var quantity := Choose(tick, quote, minBid);
      ghost var earlier := placed[..i];
      if quantity.Some? {
        var order := Order(input.cycle, quote.offerId, quantity.value, input.keys[i]);
        ghost var known := desk.bids;
        var result := desk.EnqueueBuyBid(order, input.views[i], false, input.msgIds[i]);
        placed := placed[i := result.Ok?];
        if result.Ok? {
          OrderIsNew(known, input.keys, i);
          BoughtOneMore(before, known, input.cycle, tick.bought, desk.bids[|known|],
                        Purchase(quote.offerId, quantity.value, quote.price.value));
          assert desk.bids == known + [desk.bids[|known|]];
          tick := Bid(tick, quote, minBid, maxBids, true);
        }
      }
      assert placed[..i] == earlier && input.quotes[..i + 1][..i] == input.quotes[..i];
      assert placed[..i + 1][..i] == placed[..i];
      i := i + 1;
    }
    bought := tick.bought;
    assert i < |input.quotes| ==> Stopped(tick, maxBids);
    if i == |input.quotes| {
      assert input.quotes[..i] == input.quotes && placed[..i] == placed;
    } else {
      StoppedStays(start, input.quotes, placed, i, minBid, maxBids);
    }
  }

  lemma BoughtOneMore(before: seq<OutBid>, after: seq<OutBid>, cycle: string, bought: seq<Purchase>,
                      bid: OutBid, p: Purchase)
    requires Bought(before, after, cycle, bought)
    requires Shows(bid, p, cycle)
    ensures Bought(before, after + [bid], cycle, bought + [p])
  {
  }

  lemma OrderIsNew(bids: seq<OutBid>, keys: seq<Uuid>, i: nat)
    requires FreshKeys(bids, keys, i) && i < |keys|
    ensures FindBid(bids, keys[i]).None?
  {
  }
}

/**
 * A sale from its reservation to the ledger: whatever the wallet reports, however often
 * and in whatever order, the swap is booked once if it settled, and not otherwise.
 */
module SettledSales {
  import opened Common
  import opened Money
  import opened Ledger
  import opened LedgerLaws
  import Deals
  import SellerMarket
  import MarketSafety
  import CycleAccounting

  /** A reserved bid in its cycle; `text` is its idpk as the ledger writes it. */
  datatype Sale = Sale(bid: Deals.Bid, price: nat, offerId: string, cycle: string, text: string)

  datatype World = World(deal: Deals.Deal, book: Book)

  /** Steps of the swap, and other messages to the ledger. */
  datatype Step =
    | DoDeal(change: SellerMarket.DealStep)
    | DoOther(idpk: string, request: Request)

  const CENTS := 100

  /** The swap as the ledger books it: kWh given, credits taken, in hundredths. */
  function Booked(s: Sale, swap: Deals.Swap): CycleAccounting.Swap {
    CycleAccounting.Swap(s.text, swap.swapId, s.cycle, CycleAccounting.KWH, swap.give / CENTS,
                         CycleAccounting.CR, swap.take / CENTS)
  }

  function SaleEffect(s: Sale, swap: Deals.Swap): Effect {
    CycleAccounting.SwapEffect(Booked(s, swap), CycleAccounting.AssetEffects(Booked(s, swap)).value)
  }

  /** The booking is part of the transaction in which the swap becomes settled. */
  function DealStep(s: Sale, w: World, change: SellerMarket.DealStep): World
    requires w.deal.swap.Some?
  {
    var d := SellerMarket.DealAfter(w.deal, change);
    if d.swap.None? || d.swap.value.status != Deals.SETTLED || w.deal.swap.value.status == Deals.SETTLED
       || s.cycle !in w.book.cycles
    then w.(deal := d)
    else match Apply(w.book, SaleEffect(s, d.swap.value), true)
      case Err(_) => w
      case Ok(b) => World(d, b)
  }

  function Next(s: Sale, w: World, step: Step): World {
    match step
    case DoDeal(change) => if w.deal.swap.Some? then DealStep(s, w, change) else w
    case DoOther(idpk, q) => (match Ledger.Execute(w.book, q, idpk) case Ok(b) => w.(book := b) case Err(_) => w)
  }

  function Execute(s: Sale, b: Book, steps: seq<Step>): World {
    if steps == [] then World(Deals.Reserved(s.bid, s.price, s.offerId), b)
    else Next(s, Execute(s, b, steps[..|steps| - 1]), steps[|steps| - 1])
  }

  /** The names in `ids` belong to this swap: its own events use them, and no other swap's booking does. */
  predicate Named(step: Step, ids: set<string>) {
    match step
    case DoDeal(Finishes(_, _, _, _, _, confirmed)) => confirmed.Some? ==> confirmed.value in ids
    case DoDeal(Happens(e)) => e.swapId.Some? ==> e.swapId.value in ids
    case DoDeal(_) => true
    case DoOther(_, Post(e)) =>
      e.key.Given? && e.operation != BudgetCarryover && (e.operation == SwapSettled ==> e.key.id !in ids)
    case DoOther(_, Status(_, _, _)) => true
  }

  predicate IsBooking(e: Effect, ids: set<string>) {
    e.operation == SwapSettled && e.key.Given? && e.key.id in ids
  }

  /** The bookings of this swap. */
  function Bookings(effects: seq<Effect>, ids: set<string>): seq<Effect> {
    if effects == [] then []
    else
      var e := effects[|effects| - 1];
      Bookings(effects[..|effects| - 1], ids) + (if IsBooking(e, ids) then [e] else [])
  }

  lemma BookingsOfOneMore(effects: seq<Effect>, e: Effect, ids: set<string>)
    ensures Bookings(effects + [e], ids) == Bookings(effects, ids) + (if IsBooking(e, ids) then [e] else [])
  {
    assert (effects + [e])[..|effects|] == effects;
  }

  lemma {:induction false} NoBookingsNoneSeen(effects: seq<Effect>, ids: set<string>, e: Effect)
    requires Bookings(effects, ids) == [] && IsBooking(e, ids)
    ensures !Seen(effects, e)
  {
    if effects != [] {
      var n := |effects| - 1;
      NoBookingsNoneSeen(effects[..n], ids, e);
      forall i | 0 <= i < |effects| ensures effects[i].key != e.key || effects[i].operation != e.operation {
        if i < n {
          assert effects[..n][i] == effects[i];
        } else {
          assert !IsBooking(effects[n], ids);
        }
      }
    }
  }

  // ---- The invariant ----------------------------------------------------

  ghost predicate Tracked(s: Sale, ids: set<string>, d: Deals.Deal) {
    && d.swap.Some? && !MarketSafety.Open(d) && d.bid == s.bid && d.acceptedPrice == Some(s.price)
    && MarketSafety.Terms(d.swap.value, s.bid, s.price, s.offerId)
    && (d.swap.value.swapId.Some? ==> d.swap.value.swapId.value in ids)
  }

  /** The agreed energy leaves the cycle and the amount frozen at the reservation arrives. */
  predicate IsSale(e: Effect, s: Sale) {
    && e.cycle == s.cycle && e.operation == SwapSettled
    && e.budget == Amount(s.bid.quantity, s.price) && e.energy == -(s.bid.quantity * CENTS)
  }

  ghost predicate BookedIffSettled(s: Sale, ids: set<string>, w: World)
    requires w.deal.swap.Some?
  {
    var bookings := Bookings(Business(w.book.entries), ids);
    if w.deal.swap.value.status == Deals.SETTLED then |bookings| == 1 && IsSale(bookings[0], s) else bookings == []
  }

  ghost predicate Inv(s: Sale, ids: set<string>, w: World) {
    Tracked(s, ids, w.deal) && Sound(w.book) && s.cycle in w.book.cycles && BookedIffSettled(s, ids, w)
  }

  lemma ChangeStaysTracked(s: Sale, ids: set<string>, d: Deals.Deal, change: SellerMarket.DealStep)
    requires Tracked(s, ids, d) && Named(DoDeal(change), ids)
    ensures Tracked(s, ids, SellerMarket.DealAfter(d, change))
    ensures d.swap.value.status == Deals.SETTLED ==> SellerMarket.DealAfter(d, change).swap.value.status == Deals.SETTLED
  {
    MarketSafety.DealStepKeepsTerms(d, change);
    ChangeKeepsName(ids, d, change);
    if d.swap.value.status == Deals.SETTLED {
      SettledStays(d, change);
    }
  }

  lemma ChangeKeepsName(ids: set<string>, d: Deals.Deal, change: SellerMarket.DealStep)
    requires d.swap.Some? && Named(DoDeal(change), ids)
    requires d.swap.value.swapId.Some? ==> d.swap.value.swapId.value in ids
    ensures var d' := SellerMarket.DealAfter(d, change);
            d'.swap.Some? && (d'.swap.value.swapId.Some? ==> d'.swap.value.swapId.value in ids)
  {
  }

  lemma SettledStays(d: Deals.Deal, change: SellerMarket.DealStep)
    requires d.swap.Some? && d.swap.value.status == Deals.SETTLED
    ensures var d' := SellerMarket.DealAfter(d, change); d'.swap.Some? && d'.swap.value.status == Deals.SETTLED
  {
  }

  lemma EffectIsSale(s: Sale, ids: set<string>, d: Deals.Deal)
    requires Tracked(s, ids, d) && s.text in ids
    ensures IsSale(SaleEffect(s, d.swap.value), s) && IsBooking(SaleEffect(s, d.swap.value), ids)
  {
    Scaled(s.bid.quantity * CENTS, d.swap.value.give);
    Scaled(Amount(s.bid.quantity, s.price), d.swap.value.take);
  }

  lemma Scaled(cents: int, scaled: int)
    requires scaled == cents * CENTS
    ensures scaled / CENTS == cents
  {
  }

  lemma SettlementBooks(s: Sale, ids: set<string>, w: World, d: Deals.Deal)
    requires Inv(s, ids, w) && Tracked(s, ids, d) && s.text in ids && w.deal.swap.value.status != Deals.SETTLED
    ensures var e := SaleEffect(s, d.swap.value);
            && Apply(w.book, e, true).Ok?
            && var b := Apply(w.book, e, true).value;
            && Sound(b) && s.cycle in b.cycles && Bookings(Business(b.entries), ids) == [e] && IsSale(e, s)
  {
    var e := SaleEffect(s, d.swap.value);
    EffectIsSale(s, ids, d);
    NoBookingsNoneSeen(Business(w.book.entries), ids, e);
    var b := CycleAccounting.BookedOnce(w.book, e);
    BookingsOfOneMore(Business(w.book.entries), e, ids);
  }

  lemma DealStepKeepsInv(s: Sale, ids: set<string>, w: World, change: SellerMarket.DealStep)
    requires Inv(s, ids, w) && s.text in ids && Named(DoDeal(change), ids)
    ensures Inv(s, ids, DealStep(s, w, change))
  {
    var d := SellerMarket.DealAfter(w.deal, change);
    ChangeStaysTracked(s, ids, w.deal, change);
    if d.swap.value.status == Deals.SETTLED && w.deal.swap.value.status != Deals.SETTLED {
      SettlementBooks(s, ids, w, d);
    }
  }

  lemma OtherPostKeepsBookings(b: Book, idpk: string, e: Effect, ids: set<string>)
    requires Sound(b) && Named(DoOther(idpk, Post(e)), ids)
    ensures var r := Ledger.Execute(b, Post(e), idpk);
            && r.Ok? && Sound(r.value)
            && Bookings(Business(r.value.entries), ids) == Bookings(Business(b.entries), ids)
  {
    NewCycleStaysSound(b, e.cycle);
    ApplyStaysSound(WithCycle(b, e.cycle), e);
    PostRecordsOnce(b, e);
    BookingsOfOneMore(Business(b.entries), e, ids);
  }

  lemma SynchronizeKeepsCycle(b: Book, id: string)
    requires Synchronize(b).Ok? && id in b.cycles
    ensures id in Synchronize(b).value.cycles
  {
    ChronologyIds(b);
    CycleAccounting.CarryFromKeepsEnergy(b, Chronology(b), 0, id);
  }

  lemma OtherKeepsCycle(b: Book, idpk: string, q: Request, id: string)
    requires id in b.cycles && Ledger.Execute(b, q, idpk).Ok?
    ensures id in Ledger.Execute(b, q, idpk).value.cycles
  {
    match q
    case Post(e) =>
      var b1 := WithCycle(b, e.cycle);
      if !Recorded(b1.entries, e.key, e.operation) && e.budget != 0 {
        SynchronizeKeepsCycle(Append(b1, e), id);
      }
    case Status(x, openingEnergy, validUntil) =>
      var b1 := WithCycle(b, x);
      if b1.cycles[x].statusKey != Some(idpk) {
        SynchronizeKeepsCycle(b1.(cycles := b1.cycles[x := Rebase(b1.cycles[x], idpk, openingEnergy, validUntil)]), id);
      }
  }

  lemma OtherKeepsInv(s: Sale, ids: set<string>, w: World, idpk: string, q: Request)
    requires Inv(s, ids, w) && Named(DoOther(idpk, q), ids)
    ensures Inv(s, ids, Next(s, w, DoOther(idpk, q)))
  {
    if Ledger.Execute(w.book, q, idpk).Ok? {
      OtherKeepsCycle(w.book, idpk, q, s.cycle);
      match q
      case Post(e) => OtherPostKeepsBookings(w.book, idpk, e, ids);
      case Status(id, openingEnergy, validUntil) =>
        OpenStaysSound(w.book, id, idpk, openingEnergy, validUntil);
        StatusRecordsNothing(w.book, id, idpk, openingEnergy, validUntil);
    }
  }

  /** A sound ledger that knows the cycle and has no booking of the swap yet. */
  ghost predicate Begins(s: Sale, ids: set<string>, b: Book) {
    Sound(b) && s.cycle in b.cycles && s.text in ids && Bookings(Business(b.entries), ids) == []
  }

  lemma {:induction false} EveryRunKeepsInv(s: Sale, ids: set<string>, b: Book, steps: seq<Step>)
    requires Begins(s, ids, b) && forall step | step in steps :: Named(step, ids)
    ensures Inv(s, ids, Execute(s, b, steps))
  {
    if steps != [] {
      var n := |steps| - 1;
      assert forall step | step in steps[..n] :: step in steps;
      EveryRunKeepsInv(s, ids, b, steps[..n]);
      assert steps[n] in steps;
      var w := Execute(s, b, steps[..n]);
      match steps[n]
      case DoDeal(change) => DealStepKeepsInv(s, ids, w, change);
      case DoOther(idpk, q) => OtherKeepsInv(s, ids, w, idpk, q);
    }
  }

  // ---- Main result ------------------------------------------------------

  /**
   * In every run of wallet events, reads, sweeps, claims and other messages the ledger
   * has exactly one booking of the swap if the swap is settled, late or not, and none
   * otherwise; it moves the agreed energy and the amount frozen at the reservation.
   */
  lemma SettledIsBookedOnce(s: Sale, ids: set<string>, b: Book, steps: seq<Step>)
    requires Begins(s, ids, b) && forall step | step in steps :: Named(step, ids)
    ensures var w := Execute(s, b, steps);
            var bookings := Bookings(Business(w.book.entries), ids);
            && w.deal.swap.Some? && Sound(w.book)
            && (w.deal.swap.value.status == Deals.SETTLED <==> |bookings| == 1)
            && (w.deal.swap.value.status != Deals.SETTLED <==> bookings == [])
            && (bookings != [] ==>
                  && bookings[0].cycle == s.cycle && bookings[0].budget == Amount(s.bid.quantity, s.price)
                  && bookings[0].energy == -(s.bid.quantity * CENTS))
  {
    EveryRunKeepsInv(s, ids, b, steps);
  }
}

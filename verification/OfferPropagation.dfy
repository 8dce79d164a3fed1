/**
 * From the seller's offer to a remote snapshot: the outbox rows of a cycle go out
 * over a FIFO channel that may repeat messages, next to the traffic of other
 * cities, and the remote feed ends up believing what the offer was.
 */
module OfferPropagation {
  import opened Common
  import opened Money
  import opened OfferEvents
  import Feed = MarketFeed

  /** The offer at the instant a message was created. */
  datatype View = View(remaining: nat, price: nat, withdrawn: bool)

  datatype World = World(
    seller: Seller, views: seq<View>,
    listed: set<nat>, broker: seq<nat>,        // rows handed out, rows put on the channel
    cursor: nat, arrivals: seq<Feed.Event>)    // channel position and events of the receiver

  const START := World(Seller(None, []), [], {}, [], 0, [])

  datatype Step =
    | DoPublish(opening: Opening, ids: Ids, now: int)
    | DoReprice(price: int, window: Window, ids: Ids, now: int)
    | DoSell(quantity: nat, window: Window, ids: Ids, now: int)
    | DoWithdraw(window: Window, ids: Ids, now: int)
    | DoClose
    | List(k: nat, now: int)
    | Send(k: nat)
    | Report(k: nat, published: bool)
    | Receive
    | Repeat(j: nat)
    | Foreign(event: Feed.Event)

  /** Identifiers are fresh and an event of another sender is not the close of this cycle. */
  ghost predicate Enabled(w: World, cycle: string, s: Step) {
    match s
    case DoPublish(a, ids, _) => a.cycle == cycle && Fresh(w.seller.rows, ids)
    case DoReprice(_, _, ids, _) => Fresh(w.seller.rows, ids)
    case DoSell(_, _, ids, _) => Fresh(w.seller.rows, ids)
    case DoWithdraw(_, ids, _) => Fresh(w.seller.rows, ids)
    case DoClose => true
    case List(k, now) => Dispatchable(w.seller.rows, k, now)
    case Send(k) => k in w.listed
    case Report(k, published) => k < |w.seller.rows| && (published ==> k in w.broker)
    case Receive => w.cursor < |w.broker|
    case Repeat(j) => j < w.cursor
    case Foreign(e) => Feed.Sender(e) != CITY_ID && (e.body.MarketClosed? ==> e.cycle != cycle)
  }

  ghost predicate Fresh(rows: seq<Row>, ids: Ids) {
    forall i | 0 <= i < |rows| :: rows[i].event.msgId != ids.msgId && rows[i].event.idpk != ids.idpk
  }

  function SellerStep(s: Seller, step: Step): Seller {
    match step
    case DoPublish(a, ids, now) => Published(s, a, ids, now)
    case DoReprice(price, w, ids, now) =>
      (match Reprice(s, price, w, ids, now) case Ok(s') => s' case Err(_) => s)
    case DoSell(q, w, ids, now) => Sell(s, q, w, ids, now)
    case DoWithdraw(w, ids, now) =>
      (match Withdraw(s, w, ids, now) case Ok(s') => s' case Err(_) => s)
    case DoClose => Close(s)
    case Report(k, published) => if k < |s.rows| then s.(rows := Reported(s.rows, k, published)) else s
    case _ => s
  }

  function ViewOf(o: Offer): View {
    View(o.remaining, o.price, o.status == WITHDRAWN)
  }

  function Observed(w: World, s: Seller): World {
    w.(seller := s,
       views := if |s.rows| > |w.seller.rows| && s.offer.Some?
                then w.views + [ViewOf(s.offer.value)] else w.views)
  }

  function Next(w: World, s: Step): World {
    match s
    case List(k, _) => w.(listed := w.listed + {k})
    case Send(k) => w.(broker := w.broker + [k])
    case Receive =>
      if w.cursor < |w.broker| && w.broker[w.cursor] < |w.seller.rows|
      then w.(cursor := w.cursor + 1, arrivals := w.arrivals + [w.seller.rows[w.broker[w.cursor]].event])
      else w
    case Repeat(j) =>
      if j < w.cursor <= |w.broker| && w.broker[j] < |w.seller.rows|
      then w.(arrivals := w.arrivals + [w.seller.rows[w.broker[j]].event]) else w
    case Foreign(e) => w.(arrivals := w.arrivals + [e])
    case _ => Observed(w, SellerStep(w.seller, s))
  }

  function Execute(steps: seq<Step>): World {
    if steps == [] then START else Next(Execute(steps[..|steps| - 1]), steps[|steps| - 1])
  }

  ghost predicate Legal(steps: seq<Step>, cycle: string) {
    forall i | 0 <= i < |steps| :: Enabled(Execute(steps[..i]), cycle, steps[i])
  }

  // ---- The rows tell the offer's story ----------------------------------

  function PriceOf(b: Feed.Body): int {
    match b
    case Offer(_, _, p) => p
    case Updated(_, _, p) => p
    case _ => 0
  }

  /** A withdrawal names no price: the one announced before it stands. */
  function LastPrice(rows: seq<Row>): int
    requires rows != []
  {
    var n := |rows| - 1;
    if n > 0 && rows[n].event.body.Withdrawn? then PriceOf(rows[n - 1].event.body)
    else PriceOf(rows[n].event.body)
  }

  /** Row k announces the k-th view: its level, and its price or the price announced before. */
  ghost predicate Tells(rows: seq<Row>, k: nat, view: View)
    requires k < |rows|
  {
    var body := rows[k].event.body;
    && (body.Withdrawn? <==> view.withdrawn)
    && Feed.Level(body) == (if view.withdrawn then 0 else view.remaining)
    && LastPrice(rows[..k + 1]) == view.price
  }

  ghost predicate Story(rows: seq<Row>, o: Offer, cycle: string) {
    && o.cycle == cycle && rows != []
    && rows[0].event.body.Offer? && rows[0].event.body.quantity == o.initial
    && (forall i | 0 <= i < |rows| ::
          && rows[i].event.city == CITY_ID && rows[i].event.cycle == cycle
          && !rows[i].event.body.MarketClosed? && rows[i].event.body.offerId == o.offerId)
    && (forall i | 0 < i < |rows| ::
          rows[i].event.body.Updated? || (rows[i].event.body.Withdrawn? && i == |rows| - 1))
    && (rows[|rows| - 1].event.body.Withdrawn? <==> o.status == WITHDRAWN)
    && LastPrice(rows) == o.price
  }

  ghost predicate Told(w: World, cycle: string) {
    && |w.views| == |w.seller.rows|
    && (w.seller.offer.None? <==> w.seller.rows == [])
    && (w.seller.offer.Some? ==> Story(w.seller.rows, w.seller.offer.value, cycle))
    && (forall k | 0 <= k < |w.views| :: Tells(w.seller.rows, k, w.views[k]))
  }

  /** Only flags of earlier rows change; at most one row, with fresh identifiers, is added. */
  ghost predicate Grows(rows: seq<Row>, rows': seq<Row>) {
    && |rows| <= |rows'|
    && forall i | 0 <= i < |rows| :: rows'[i].event == rows[i].event
  }

  lemma TellsAgain(rows: seq<Row>, rows': seq<Row>, k: nat, view: View)
    requires k < |rows| && Grows(rows, rows') && Tells(rows, k, view)
    ensures Tells(rows', k, view)
  {
  }

  /** The offer `o` that a row of this kind may announce. */
  ghost predicate Announces(w: World, cycle: string, o: Offer, kind: Kind) {
    match kind
    case Base => w.seller.offer.None? && o.status == ACTIVE && o.remaining == o.initial && o.cycle == cycle
    case Update => w.seller.offer.Some? && w.seller.offer.value.status == ACTIVE && o.status == ACTIVE
                   && SameNames(w.seller.offer.value, o)
    case Withdrawal => w.seller.offer.Some? && w.seller.offer.value.status == ACTIVE
                       && o == w.seller.offer.value.(status := WITHDRAWN)
  }

  predicate SameNames(p: Offer, o: Offer) {
    o.offerId == p.offerId && o.initial == p.initial && o.cycle == p.cycle
  }

  lemma NewRowTells(w: World, cycle: string, o: Offer, kind: Kind, ids: Ids, now: int, span: Span)
    requires Told(w, cycle) && Announces(w, cycle, o, kind)
    ensures var rows' := Enqueue(w.seller.rows, o, kind, ids, now, span);
            Story(rows', o, cycle) && Tells(rows', |w.seller.rows|, ViewOf(o))
  {
    var rows := w.seller.rows;
    var rows' := Enqueue(rows, o, kind, ids, now, span);
    var n := |rows|;
    assert rows'[..n + 1] == rows';
    if kind == Withdrawal {
      assert rows'[n - 1] == rows[n - 1];
      assert LastPrice(rows') == LastPrice(rows);
    }
  }

  lemma AppendTells(w: World, cycle: string, o: Offer, kind: Kind, ids: Ids, now: int, span: Span)
    requires Told(w, cycle) && Announces(w, cycle, o, kind)
    ensures var s := Seller(Some(o), Enqueue(w.seller.rows, o, kind, ids, now, span)); Told(Observed(w, s), cycle)
  {
    NewRowTells(w, cycle, o, kind, ids, now, span);
    forall k | 0 <= k < |w.views| ensures Tells(Enqueue(w.seller.rows, o, kind, ids, now, span), k, w.views[k]) {
      TellsAgain(w.seller.rows, Enqueue(w.seller.rows, o, kind, ids, now, span), k, w.views[k]);
    }
  }

  lemma FlagsTell(w: World, cycle: string, s: Seller)
    requires Told(w, cycle) && |s.rows| == |w.seller.rows| && Grows(w.seller.rows, s.rows)
    requires s.offer.None? <==> w.seller.offer.None?
    requires s.offer.Some? ==>
      && (var o, p := s.offer.value, w.seller.offer.value;
          && o.offerId == p.offerId && o.initial == p.initial && o.cycle == p.cycle && o.price == p.price
          && (o.status == WITHDRAWN <==> p.status == WITHDRAWN))
    ensures Told(Observed(w, s), cycle)
  {
    forall k | 0 <= k < |w.views| ensures Tells(s.rows, k, w.views[k]) {
      TellsAgain(w.seller.rows, s.rows, k, w.views[k]);
    }
    var n := |s.rows| - 1;
    if n >= 0 {
      assert s.rows[n].event == w.seller.rows[n].event;
      if n > 0 {
        assert s.rows[n - 1].event == w.seller.rows[n - 1].event;
      }
    }
  }

  lemma SaleTells(w: World, cycle: string, q: nat, window: Window, ids: Ids, now: int)
    requires Told(w, cycle)
    ensures Told(Observed(w, Sell(w.seller, q, window, ids, now)), cycle)
  {
    if w.seller.offer.Some? {
      var o := w.seller.offer.value.(remaining := Max(0, w.seller.offer.value.remaining - q));
      if o.status == ACTIVE && CanBroadcast(window, now) {
        AppendTells(w, cycle, o, Update, ids, now, Span(Some(now), window.lastOfferAt));
      } else {
        QuietSaleTells(w, cycle, o.remaining);
      }
    }
  }

  lemma QuietSaleTells(w: World, cycle: string, remaining: nat)
    requires Told(w, cycle) && w.seller.offer.Some?
    ensures Told(Observed(w, w.seller.(offer := Some(w.seller.offer.value.(remaining := remaining)))), cycle)
  {
    FlagsTell(w, cycle, w.seller.(offer := Some(w.seller.offer.value.(remaining := remaining))));
  }

  lemma RepriceTells(w: World, cycle: string, price: int, window: Window, ids: Ids, now: int)
    requires Told(w, cycle) && Reprice(w.seller, price, window, ids, now).Ok?
    ensures Told(Observed(w, Reprice(w.seller, price, window, ids, now).value), cycle)
  {
    if w.seller.offer.value.price != CentPrice(price) {
      AppendTells(w, cycle, w.seller.offer.value.(price := CentPrice(price)), Update, ids, now, Span(Some(now), window.lastOfferAt));
    }
  }

  lemma WithdrawalTells(w: World, cycle: string, window: Window, ids: Ids, now: int)
    requires Told(w, cycle) && Withdraw(w.seller, window, ids, now).Ok?
    ensures Told(Observed(w, Withdraw(w.seller, window, ids, now).value), cycle)
  {
    if w.seller.offer.value.status == ACTIVE {
      AppendTells(w, cycle, w.seller.offer.value.(status := WITHDRAWN), Withdrawal, ids, now, Span(Some(now), window.lastOfferAt));
    }
  }

  lemma SellerStepTells(w: World, cycle: string, s: Step)
    requires Told(w, cycle) && Enabled(w, cycle, s)
    ensures Told(Observed(w, SellerStep(w.seller, s)), cycle)
  {
    if SellerStep(w.seller, s) != w.seller {
      match s
      case DoPublish(a, ids, now) => AppendTells(w, cycle, NewOffer(a), Base, ids, now, Span(a.opensAt, a.lastOfferAt));
      case DoReprice(price, window, ids, now) => RepriceTells(w, cycle, price, window, ids, now);
      case DoSell(q, window, ids, now) => SaleTells(w, cycle, q, window, ids, now);
      case DoWithdraw(window, ids, now) => WithdrawalTells(w, cycle, window, ids, now);
      case DoClose => FlagsTell(w, cycle, Close(w.seller));
      case Report(_, _) => FlagsTell(w, cycle, SellerStep(w.seller, s));
      case _ =>
    }
  }

  // ---- Publication follows creation order -------------------------------

  ghost predicate InOrder(w: World) {
    && (forall k | k in w.listed :: k < |w.seller.rows| && PublishedBelow(w.seller.rows, k))
    && (forall k | 0 <= k < |w.seller.rows| && w.seller.rows[k].delivery == PUBLISHED :: k in w.broker)
    && (forall p | 0 <= p < |w.broker| :: w.broker[p] in w.listed)
    && (forall p | 0 <= p < |w.broker| :: AllBefore(w.broker, p))
    && w.cursor <= |w.broker|
  }

  ghost predicate PublishedBelow(rows: seq<Row>, k: nat)
    requires k <= |rows|
  {
    forall i | 0 <= i < k :: rows[i].delivery == PUBLISHED
  }

  /** Everything created before the p-th publication was put on the channel before it. */
  ghost predicate AllBefore(broker: seq<nat>, p: nat)
    requires p < |broker|
  {
    forall i: nat | i < broker[p] :: i in broker[..p]
  }

  ghost predicate DistinctIds(rows: seq<Row>) {
    forall i, j | 0 <= i < j < |rows| ::
      rows[i].event.msgId != rows[j].event.msgId && rows[i].event.idpk != rows[j].event.idpk
  }

  /** What a seller step may do to the rows. */
  ghost predicate RowsStep(w: World, rows': seq<Row>) {
    var rows := w.seller.rows;
    && Grows(rows, rows')
    && |rows'| <= |rows| + 1
    && (forall i | 0 <= i < |rows| :: rows[i].delivery == PUBLISHED ==> rows'[i].delivery == PUBLISHED)
    && (forall i | 0 <= i < |rows'| && rows'[i].delivery == PUBLISHED :: i in w.broker)
    && (|rows'| > |rows| ==>
          Fresh(rows, Ids(rows'[|rows|].event.msgId, rows'[|rows|].event.idpk)))
  }

  lemma SellerRowsStep(w: World, cycle: string, s: Step)
    requires InOrder(w) && Enabled(w, cycle, s)
    ensures RowsStep(w, SellerStep(w.seller, s).rows)
  {
  }

  lemma SendInOrder(w: World, k: nat)
    requires InOrder(w) && k in w.listed
    ensures InOrder(Next(w, Send(k)))
  {
    var w' := Next(w, Send(k));
    assert PublishedBelow(w.seller.rows, k);
    forall p | 0 <= p < |w'.broker| ensures AllBefore(w'.broker, p) {
      assert w'.broker[..p] == w.broker[..p];
      if p < |w.broker| {
        assert AllBefore(w.broker, p);
      } else {
        assert w.broker[..p] == w.broker;
      }
    }
  }

  lemma StepInOrder(w: World, cycle: string, s: Step)
    requires InOrder(w) && DistinctIds(w.seller.rows) && Enabled(w, cycle, s)
    ensures InOrder(Next(w, s)) && DistinctIds(Next(w, s).seller.rows)
  {
    match s
    case Send(k) => SendInOrder(w, k);
    case List(k, _) => assert PublishedBelow(w.seller.rows, k);
    case Receive =>
    case Repeat(_) =>
    case Foreign(_) =>
    case _ => SellerStepInOrder(w, cycle, s);
  }

  lemma SellerStepInOrder(w: World, cycle: string, s: Step)
    requires InOrder(w) && DistinctIds(w.seller.rows) && Enabled(w, cycle, s)
    requires !s.List? && !s.Send? && !s.Receive? && !s.Repeat? && !s.Foreign?
    ensures InOrder(Next(w, s)) && DistinctIds(Next(w, s).seller.rows)
  {
    var rows' := SellerStep(w.seller, s).rows;
    SellerRowsStep(w, cycle, s);
    forall k | k in w.listed ensures k < |rows'| && PublishedBelow(rows', k) {
      assert PublishedBelow(w.seller.rows, k);
    }
  }

  // ---- The receiver ------------------------------------------------------

  /** One more than the highest row among the first publications. */
  function Reach(broker: seq<nat>): nat {
    if broker == [] then 0
    else Max(Reach(broker[..|broker| - 1]), broker[|broker| - 1] + 1)
  }

  lemma {:induction false} ReachIsCovered(broker: seq<nat>)
    requires forall p | 0 <= p < |broker| :: AllBefore(broker, p)
    ensures forall i: nat :: i in broker <==> i < Reach(broker)
  {
    if broker != [] {
      var n := |broker| - 1;
      var before := broker[..n];
      forall p | 0 <= p < n ensures AllBefore(before, p) {
        assert before[..p] == broker[..p];
        assert AllBefore(broker, p);
      }
      ReachIsCovered(before);
      assert AllBefore(broker, n);
      forall i: nat ensures i in broker <==> i < Reach(broker) {
        assert i in broker <==> i in before || i == broker[n];
      }
    }
  }

  function Events(rows: seq<Row>, d: nat): seq<Feed.Event>
    requires d <= |rows|
  {
    seq(d, i requires 0 <= i < d => rows[i].event)
  }

  function Delivered(w: World): nat
    requires w.cursor <= |w.broker|
  {
    Reach(w.broker[..w.cursor])
  }

  function Home(cycle: string): Feed.Place { (cycle, CITY_ID) }

  ghost predicate Heard(rows: seq<Row>, cycle: string, log: seq<Feed.Event>, d: nat) {
    && d <= |rows|
    && Feed.OffersBeforeClose(log, Home(cycle)) == Events(rows, d)
    && !Feed.Closes(log, cycle)
    && (forall i | 0 <= i < |log| && Feed.Sender(log[i]) == CITY_ID :: log[i] in Events(rows, d))
    && (forall k | 0 <= k < d :: rows[k].event in log)
  }

  ghost predicate Ours(rows: seq<Row>, cycle: string) {
    forall i | 0 <= i < |rows| ::
      rows[i].event.city == CITY_ID && rows[i].event.cycle == cycle && !rows[i].event.body.MarketClosed?
  }

  lemma HearAgain(rows: seq<Row>, log: seq<Feed.Event>, k: nat)
    requires k < |rows| && rows[k].event in log
    ensures Feed.Known(log, rows[k].event)
  {
  }

  lemma HearNew(rows: seq<Row>, cycle: string, log: seq<Feed.Event>, d: nat)
    requires Heard(rows, cycle, log, d) && d < |rows| && DistinctIds(rows) && Ours(rows, cycle)
    ensures !Feed.Known(log, rows[d].event)
    ensures Heard(rows, cycle, log + [rows[d].event], d + 1)
  {
  }

  lemma HearForeign(rows: seq<Row>, cycle: string, log: seq<Feed.Event>, d: nat, e: Feed.Event)
    requires Heard(rows, cycle, log, d)
    requires Feed.Sender(e) != CITY_ID && (e.body.MarketClosed? ==> e.cycle != cycle)
    ensures Heard(rows, cycle, log + [e], d)
  {
  }

  ghost predicate Attentive(w: World, cycle: string) {
    && w.cursor <= |w.broker|
    && Heard(w.seller.rows, cycle, Feed.Admitted(w.arrivals), Delivered(w))
  }

  lemma ArrivalsGrow(es: seq<Feed.Event>, e: Feed.Event)
    ensures Feed.Admitted(es + [e])
         == if Feed.Known(Feed.Admitted(es), e) then Feed.Admitted(es) else Feed.Admitted(es) + [e]
  {
  }

  lemma PrefixInOrder(w: World)
    requires InOrder(w)
    ensures forall i: nat :: i in w.broker[..w.cursor] <==> i < Delivered(w)
  {
    var prefix := w.broker[..w.cursor];
    forall p | 0 <= p < |prefix| ensures AllBefore(prefix, p) {
      assert prefix[..p] == w.broker[..p];
      assert AllBefore(w.broker, p);
    }
    ReachIsCovered(prefix);
  }

  lemma NextIsWithinReach(w: World)
    requires InOrder(w) && w.cursor < |w.broker|
    ensures w.broker[w.cursor] <= Delivered(w) && w.broker[w.cursor] < |w.seller.rows|
    ensures Reach(w.broker[..w.cursor + 1]) == Max(Delivered(w), w.broker[w.cursor] + 1)
  {
    var k, d := w.broker[w.cursor], Delivered(w);
    assert k in w.listed;
    PrefixInOrder(w);
    assert AllBefore(w.broker, w.cursor);
    assert d !in w.broker[..w.cursor];
    assert w.broker[..w.cursor + 1][..w.cursor] == w.broker[..w.cursor];
  }

  /** A row within reach arrives: news or a repetition. */
  lemma RowArrives(rows: seq<Row>, cycle: string, arrivals: seq<Feed.Event>, d: nat, k: nat)
    requires Heard(rows, cycle, Feed.Admitted(arrivals), d) && DistinctIds(rows) && Ours(rows, cycle)
    requires k <= d && k < |rows|
    ensures Heard(rows, cycle, Feed.Admitted(arrivals + [rows[k].event]), Max(d, k + 1))
  {
    ArrivalsGrow(arrivals, rows[k].event);
    if k < d {
      HearAgain(rows, Feed.Admitted(arrivals), k);
    } else {
      HearNew(rows, cycle, Feed.Admitted(arrivals), d);
    }
  }

  lemma ReceiveAttends(w: World, cycle: string)
    requires InOrder(w) && DistinctIds(w.seller.rows) && Ours(w.seller.rows, cycle)
    requires Attentive(w, cycle) && w.cursor < |w.broker|
    ensures Attentive(Next(w, Receive), cycle)
  {
    var k := w.broker[w.cursor];
    NextIsWithinReach(w);
    var w' := w.(cursor := w.cursor + 1, arrivals := w.arrivals + [w.seller.rows[k].event]);
    assert Next(w, Receive) == w';
    assert Delivered(w') == Max(Delivered(w), k + 1);
    RowArrives(w.seller.rows, cycle, w.arrivals, Delivered(w), k);
  }

  lemma RepeatAttends(w: World, cycle: string, j: nat)
    requires InOrder(w) && DistinctIds(w.seller.rows) && Ours(w.seller.rows, cycle)
    requires Attentive(w, cycle) && j < w.cursor
    ensures Attentive(Next(w, Repeat(j)), cycle)
  {
    var k := w.broker[j];
    RepeatedIsDelivered(w, j);
    RowArrives(w.seller.rows, cycle, w.arrivals, Delivered(w), k);
    assert Next(w, Repeat(j)) == w.(arrivals := w.arrivals + [w.seller.rows[k].event]);
  }

  lemma RepeatedIsDelivered(w: World, j: nat)
    requires InOrder(w) && j < w.cursor <= |w.broker|
    ensures w.broker[j] < Delivered(w) && w.broker[j] < |w.seller.rows|
  {
    assert w.broker[j] in w.listed;
    PrefixInOrder(w);
    assert w.broker[j] == w.broker[..w.cursor][j];
    assert w.broker[j] in w.broker[..w.cursor];
  }

  lemma ForeignAttends(w: World, cycle: string, e: Feed.Event)
    requires Attentive(w, cycle) && Enabled(w, cycle, Foreign(e))
    ensures Attentive(Next(w, Foreign(e)), cycle)
  {
    ArrivalsGrow(w.arrivals, e);
    if !Feed.Known(Feed.Admitted(w.arrivals), e) {
      HearForeign(w.seller.rows, cycle, Feed.Admitted(w.arrivals), Delivered(w), e);
    }
  }

  lemma RowsStepAttends(rows: seq<Row>, rows': seq<Row>, cycle: string, log: seq<Feed.Event>, d: nat)
    requires Heard(rows, cycle, log, d) && Grows(rows, rows')
    ensures Heard(rows', cycle, log, d)
  {
  }

  ghost predicate Inv(w: World, cycle: string) {
    Told(w, cycle) && InOrder(w) && DistinctIds(w.seller.rows) && Attentive(w, cycle)
  }

  lemma ToldIsOurs(w: World, cycle: string)
    requires Told(w, cycle)
    ensures Ours(w.seller.rows, cycle)
  {
  }

  lemma StepKeepsInv(w: World, cycle: string, s: Step)
    requires Inv(w, cycle) && Enabled(w, cycle, s)
    ensures Inv(Next(w, s), cycle)
  {
    ToldIsOurs(w, cycle);
    StepInOrder(w, cycle, s);
    match s
    case List(_, _) =>
    case Send(k) => assert (w.broker + [k])[..w.cursor] == w.broker[..w.cursor];
    case Receive => ReceiveAttends(w, cycle);
    case Repeat(j) => RepeatAttends(w, cycle, j);
    case Foreign(e) => ForeignAttends(w, cycle, e);
    case _ => SellerStepKeeps(w, cycle, s);
  }

  lemma SellerStepKeeps(w: World, cycle: string, s: Step)
    requires Told(w, cycle) && Attentive(w, cycle) && InOrder(w) && Enabled(w, cycle, s)
    requires !s.List? && !s.Send? && !s.Receive? && !s.Repeat? && !s.Foreign?
    ensures Told(Next(w, s), cycle) && Attentive(Next(w, s), cycle)
  {
    SellerStepTells(w, cycle, s);
    SellerRowsStep(w, cycle, s);
    RowsStepAttends(w.seller.rows, SellerStep(w.seller, s).rows, cycle,
                    Feed.Admitted(w.arrivals), Delivered(w));
  }

  lemma LegalBeforeLast(steps: seq<Step>, cycle: string)
    requires steps != [] && Legal(steps, cycle)
    ensures Legal(steps[..|steps| - 1], cycle)
    ensures Enabled(Execute(steps[..|steps| - 1]), cycle, steps[|steps| - 1])
  {
    var before := steps[..|steps| - 1];
    forall i | 0 <= i < |before| ensures Enabled(Execute(before[..i]), cycle, before[i]) {
      assert before[..i] == steps[..i];
    }
  }

  lemma {:induction false} EveryRunKeepsInv(steps: seq<Step>, cycle: string)
    requires Legal(steps, cycle)
    ensures Inv(Execute(steps), cycle)
  {
    if steps == [] {
      assert Events([], 0) == [];
    } else {
      var n := |steps| - 1;
      var before := steps[..n];
      LegalBeforeLast(steps, cycle);
      EveryRunKeepsInv(before, cycle);
      StepKeepsInv(Execute(before), cycle, steps[n]);
    }
  }

  // ---- Main results -----------------------------------------------------

  /** In every run the published rows of a cycle are a prefix of creation order. */
  lemma PublishedIsPrefix(steps: seq<Step>, cycle: string, i: nat, k: nat)
    requires Legal(steps, cycle)
    requires i < k < |Execute(steps).seller.rows|
    requires Execute(steps).seller.rows[k].delivery == PUBLISHED
    ensures Execute(steps).seller.rows[i].delivery == PUBLISHED
  {
    EveryRunKeepsInv(steps, cycle);
    var w := Execute(steps);
    assert k in w.broker;
    var p :| 0 <= p < |w.broker| && w.broker[p] == k;
    assert k in w.listed;
    assert PublishedBelow(w.seller.rows, k);
  }

  /** The snapshot of a reader that knows the offer as it stood at its last message. */
  function Believed(row: Row, initial: nat, view: View): Feed.Snapshot
    requires !row.event.body.MarketClosed?
  {
    Feed.Snapshot(row.event.body.offerId, Some(initial),
                  if view.withdrawn then 0 else view.remaining, Some(view.price),
                  if view.withdrawn then Feed.WITHDRAWN else Feed.ACTIVE,
                  false, row.event.at, row.event.msgId)
  }

  ghost predicate StrictlyLater(rows: seq<Row>, d: nat)
    requires d <= |rows|
  {
    forall i, j | 0 <= i < j < d :: rows[i].event.at < rows[j].event.at
  }

  lemma StoryIsOrderedIff(w: World, cycle: string, d: nat)
    requires Told(w, cycle) && 0 < d <= |w.seller.rows|
    ensures Feed.WellOrdered(Events(w.seller.rows, d)) <==> StrictlyLater(w.seller.rows, d)
  {
    var rows, log := w.seller.rows, Events(w.seller.rows, d);
    if Feed.WellOrdered(log) {
      forall i, j | 0 <= i < j < d ensures rows[i].event.at < rows[j].event.at {
        assert log[i].at < log[j].at;
      }
    }
  }

  lemma ReplayIsBelieved(w: World, cycle: string, d: nat)
    requires Told(w, cycle) && 0 < d <= |w.seller.rows|
    requires Feed.WellOrdered(Events(w.seller.rows, d))
    ensures Feed.Replay(Events(w.seller.rows, d), false)
         == Believed(w.seller.rows[d - 1], w.seller.offer.value.initial, w.views[d - 1])
  {
  }

  /** The feed's snapshot against the offer as it stood when row d - 1 was created. */
  ghost predicate Believes(w: World, cycle: string, d: nat, feed: Feed.Feed) {
    && 0 < d <= |w.seller.rows| && |w.views| == |w.seller.rows| && Home(cycle) in feed.offers
    && w.seller.offer.Some? && !w.seller.rows[d - 1].event.body.MarketClosed?
    && (!feed.offers[Home(cycle)].uncertain <==> StrictlyLater(w.seller.rows, d))
    && (StrictlyLater(w.seller.rows, d) ==>
          feed.offers[Home(cycle)] == Believed(w.seller.rows[d - 1], w.seller.offer.value.initial, w.views[d - 1]))
  }

  lemma ReflectionIsBelieved(w: World, cycle: string, d: nat, feed: Feed.Feed)
    requires Told(w, cycle) && 0 < d <= |w.seller.rows|
    requires Feed.Reflects(feed, Events(w.seller.rows, d), false, Home(cycle))
    ensures Believes(w, cycle, d, feed)
  {
    StoryIsOrderedIff(w, cycle, d);
    if StrictlyLater(w.seller.rows, d) {
      ReplayIsBelieved(w, cycle, d);
    }
  }

  lemma AttentionReflects(w: World, cycle: string)
    requires Attentive(w, cycle)
    ensures Delivered(w) <= |w.seller.rows|
    ensures Feed.Reflects(Feed.Run(w.arrivals), Events(w.seller.rows, Delivered(w)), false, Home(cycle))
  {
    Feed.SnapshotIsSortedReplay(w.arrivals, Home(cycle));
  }

  /**
   * In every run, before the market closes, the remote snapshot of the city is
   * certain exactly when the delivered messages were created at increasing
   * instants, and then it is the offer as it stood at the last delivered message.
   */
  lemma RemoteBelievesTheOffer(steps: seq<Step>, cycle: string)
    requires Legal(steps, cycle)
    ensures var w := Execute(steps);
            && w.cursor <= |w.broker|
            && (var d, feed := Delivered(w), Feed.Run(w.arrivals);
                && d <= |w.seller.rows|
                && (Home(cycle) in feed.offers <==> d > 0)
                && (d > 0 ==> Believes(w, cycle, d, feed)))
  {
    EveryRunKeepsInv(steps, cycle);
    var w := Execute(steps);
    AttentionReflects(w, cycle);
    if Delivered(w) > 0 {
      ReflectionIsBelieved(w, cycle, Delivered(w), Feed.Run(w.arrivals));
    }
  }

  /** A new price is the asked one rounded to cents, nothing else changes, and it is announced. */
  lemma RepriceRounds(s: Seller, price: int, w: Window, ids: Ids, now: int)
    requires Reprice(s, price, w, ids, now).Ok?
    ensures var s' := Reprice(s, price, w, ids, now).value;
            && s'.offer.Some? && s.offer.Some? && s'.offer.value == s.offer.value.(price := s'.offer.value.price)
            && -PRICE_PER_CENT <= 2 * (s'.offer.value.price - price) <= PRICE_PER_CENT
            && (|s'.rows| == |s.rows| + 1 <==> s'.offer != s.offer)
  {
  }

  // ---- After the close --------------------------------------------------

  /** The offer ended and no row of its cycle waits to be sent. */
  ghost predicate Silent(s: Seller) {
    && s.offer.Some? && s.offer.value.status != ACTIVE
    && forall i | 0 <= i < |s.rows| :: s.rows[i].required ==> s.rows[i].delivery == PUBLISHED
  }

  lemma CloseSilences(s: Seller)
    requires s.offer.Some?
    ensures Silent(Close(s))
  {
  }

  lemma StepKeepsSilence(w: World, cycle: string, s: Step)
    requires Silent(w.seller) && Enabled(w, cycle, s)
    ensures var w' := Next(w, s);
            Silent(w'.seller) && |w'.seller.rows| == |w.seller.rows| && w'.listed == w.listed
  {
  }

  /** What was so at the world `w` is silent and unchanged at `w'`. */
  ghost predicate SilentSince(w: World, w': World) {
    Silent(w'.seller) && |w'.seller.rows| == |w.seller.rows| && w'.listed == w.listed
  }

  lemma ExecuteOneMore(steps: seq<Step>, i: nat)
    requires i < |steps|
    ensures Execute(steps[..i + 1]) == Next(Execute(steps[..i]), steps[i])
  {
    assert steps[..i + 1][..i] == steps[..i];
  }

  ghost predicate SilentAt(w: World, steps: seq<Step>, i: nat) {
    i <= |steps| && SilentSince(w, Execute(steps[..i]))
  }

  lemma OneMoreSilentStep(w: World, steps: seq<Step>, cycle: string, i: nat)
    requires Legal(steps, cycle) && i < |steps| && SilentAt(w, steps, i)
    ensures SilentAt(w, steps, i + 1)
  {
    ExecuteOneMore(steps, i);
    StepKeepsSilence(Execute(steps[..i]), cycle, steps[i]);
  }

  lemma SilentThrough(w: World, steps: seq<Step>, cycle: string, n: nat)
    requires Legal(steps, cycle) && SilentAt(w, steps, n)
    ensures SilentAt(w, steps, |steps|)
  {
    for i := n to |steps|
      invariant SilentAt(w, steps, i)
    {
      OneMoreSilentStep(w, steps, cycle, i);
    }
  }

  /** Once the market of the offer closed, no row is added or handed out in any continuation. */
  lemma ClosedMarketStaysSilent(steps: seq<Step>, cycle: string, n: nat)
    requires Legal(steps, cycle) && n <= |steps| && Silent(Execute(steps[..n]).seller)
    ensures SilentSince(Execute(steps[..n]), Execute(steps))
  {
    SilentThrough(Execute(steps[..n]), steps, cycle, n);
    assert steps[..|steps|] == steps;
  }

  lemma ClosingStepSilences(steps: seq<Step>, n: nat)
    requires n < |steps| && steps[n] == DoClose && Execute(steps[..n]).seller.offer.Some?
    ensures Silent(Execute(steps[..n + 1]).seller)
  {
    ExecuteOneMore(steps, n);
    CloseSilences(Execute(steps[..n]).seller);
  }

  /** After the step that closes the market of an offer, the outbox of the cycle stays silent for good. */
  lemma CloseEndsAnnouncements(steps: seq<Step>, cycle: string, n: nat)
    requires Legal(steps, cycle) && n < |steps| && steps[n] == DoClose
    requires Execute(steps[..n]).seller.offer.Some?
    ensures SilentSince(Execute(steps[..n + 1]), Execute(steps))
  {
    ClosingStepSilences(steps, n);
    ClosedMarketStaysSilent(steps, cycle, n + 1);
  }
}

/**
 * Over every run, the ledger's effects of a negotiation are exactly what its row says:
 * at most one confirmation and one payment of the agreed amount, and a cycle never
 * gives more than it generates beyond its consumption.
 */
module NegotiationRuns {
  import opened Common
  import opened Money
  import opened Ledger
  import opened LedgerLaws
  import opened N = Negotiations

  datatype World = World(desk: Desk, claimed: set<string>)

  datatype Step =
    | DoPropose(draft: Draft, ids: TransferIds)
    | DoRetry(k: nat, msgId: string, now: int)
    | DoPublished(msgId: string, now: int)
    | DoTransferPublished(msgId: string, now: int)
    | DoConfirm(m: Confirmation, ids: TransferIds, now: int)
    | DoPay(p: Payment, now: int)
    | DoAck(target: string, now: int)
    | DoNack(target: string, now: int)
    | DoTimeouts(now: int)
    | DoInbound(proposal: InboundProposal, now: int)
    | DoPoll(ends: map<string, CycleEnd>, now: int)
    | DoOther(idpk: string, request: Request)

  const NEGOTIATION_OPERATIONS := {GiveConfirmed, TakeConfirmed, PaymentReceived, PaymentSent}

  /** The generated transfer id is fresh; other messages book other operations under their own key. */
  ghost predicate Enabled(w: World, s: Step) {
    match s
    case DoConfirm(_, ids, _) => !Recorded(w.desk.book.entries, Given(ids.idpk), PaymentSent)
    case DoOther(idpk, Post(e)) =>
      e.negotiation.None? && e.key == Given(idpk) && e.operation !in NEGOTIATION_OPERATIONS + {BudgetCarryover}
    case _ => true
  }

  /** A transition that is not allowed is an exception and changes nothing. */
  function Moved(d: Desk, k: nat, s': Status, now: int): Desk
    requires k < |d.negotiations|
  {
    match Transition(d.negotiations[k], s', now)
    case Err(_) => d
    case Ok(n) => d.(negotiations := d.negotiations[k := n])
  }

  function Retried(d: Desk, k: nat, msgId: string, now: int): Desk
    requires k < |d.negotiations|
  {
    if d.negotiations[k].status != TIMEOUT then d
    else
      var d' := Moved(d, k, PENDING_PUBLICATION, now);
      d'.(negotiations := d'.negotiations[k := d'.negotiations[k].(latest := Some(msgId))],
          proposals := d'.proposals + [Proposal(msgId, d.negotiations[k].idpk, d.negotiations[k].cycle, true)])
  }

  /** One message of the central in one transaction: a confirmed take is paid at once. */
  function ConfirmAndPay(d: Desk, m: Confirmation, ids: TransferIds, now: int): Result<Desk, N.Error> {
    match Confirm(d, m, now)
    case Err(e) => Err(e)
    case Ok((d1, applied)) =>
      var k := ProposalNegotiation(d, m.target);
      if !applied || m.direction == Give || k.None? || k.value >= |d1.negotiations| then Ok(d1)
      else match PayTake(d1, k.value, ids)
        case Err(e) => Err(e)
        case Ok((d2, _)) => Ok(d2)
  }

  /** The transaction claims the idpk when it commits. */
  function Claimed(w: World, idpk: string, r: Result<Desk, N.Error>): World {
    if idpk in w.claimed then w
    else match r
      case Err(_) => w
      case Ok(d) => World(d, w.claimed + {idpk})
  }

  /** A confirmation under a claimed idpk is on record as a duplicate, and a payment may name it. */
  function Heard(w: World, m: Confirmation): World {
    if m.msgId in w.desk.inbound then w
    else w.(desk := w.desk.(inbound := w.desk.inbound[m.msgId := m.target]))
  }

  function Paid(d: Desk, p: Payment, now: int): Result<Desk, N.Error> {
    match ReceivePayment(d, p, now) case Err(e) => Err(e) case Ok((d', _)) => Ok(d')
  }

  function Other(d: Desk, idpk: string, q: Request): Result<Desk, N.Error> {
    match Ledger.Execute(d.book, q, idpk) case Err(_) => Err(LedgerFailure) case Ok(b) => Ok(d.(book := b))
  }

  function DeskStep(d: Desk, s: Step): Desk {
    match s
    case DoPropose(f, ids) => (match Propose(d, f, ids) case Err(_) => d case Ok(d') => d')
    case DoRetry(k, msgId, now) => if k < |d.negotiations| then Retried(d, k, msgId, now) else d
    case DoPublished(msgId, now) => ProposalPublished(d, msgId, now)
    case DoTransferPublished(msgId, now) =>
      var k := FindByLatest(d.negotiations, msgId);
      if k.Some? && d.negotiations[k.value].direction == Take then Moved(d, k.value, PAID, now) else d
    case DoAck(target, now) =>
      var k := ProposalNegotiation(d, target);
      if k.Some? then Moved(d, k.value, ACKNOWLEDGED, now) else d
    case DoNack(target, now) =>
      var k := ProposalNegotiation(d, target);
      if k.Some? && d.negotiations[k.value].status in {PENDING_PUBLICATION, PROPOSED, ACKNOWLEDGED, TIMEOUT}
      then Moved(d, k.value, REJECTED, now).(proposals := StopProposals(d.proposals, d.negotiations[k.value].idpk))
      else d
    case DoTimeouts(now) => d.(negotiations := ExpireAll(d.negotiations, now))
    case DoPoll(ends, now) => ListFirst(d, |d.proposals|, ends, now)
    case _ => d
  }

  function Next(w: World, s: Step): World {
    match s
    case DoConfirm(m, ids, now) =>
      if m.idpk in w.claimed then Heard(w, m) else Claimed(w, m.idpk, ConfirmAndPay(w.desk, m, ids, now))
    case DoInbound(m, now) => Claimed(w, m.idpk, Ok(ReceiveProposal(w.desk, m, now)))
    case DoPay(p, now) => Claimed(w, p.idpk, Paid(w.desk, p, now))
    case DoOther(idpk, q) => Claimed(w, idpk, Other(w.desk, idpk, q))
    case _ => w.(desk := DeskStep(w.desk, s))
  }

  /** The status of the cycles stays fixed during the run. */
  function Execute(plans: map<string, Plan>, steps: seq<Step>): World {
    if steps == [] then World(Desk(NEW_BOOK, plans, [], [], [], [], map[]), {})
    else Next(Execute(plans, steps[..|steps| - 1]), steps[|steps| - 1])
  }

  ghost predicate Legal(plans: map<string, Plan>, steps: seq<Step>) {
    forall i | 0 <= i < |steps| :: Enabled(Execute(plans, steps[..i]), steps[i])
  }

  // ---- The story of a negotiation ---------------------------------------

  datatype Line = Line(cycle: string, operation: Operation, budget: int, energy: int)

  function LineOf(e: Effect): Line { Line(e.cycle, e.operation, e.budget, e.energy) }

  /** What the ledger tells about negotiation k, in order. */
  function Story(effects: seq<Effect>, k: nat): seq<Line> {
    if effects == [] then []
    else
      var e := effects[|effects| - 1];
      Story(effects[..|effects| - 1], k) + (if e.negotiation == Some(k) then [LineOf(e)] else [])
  }

  /** What the row of the negotiation tells. */
  function Told(n: Negotiation): seq<Line> {
    (if n.energy.Some? then [Line(n.cycle, ConfirmOperation(n.direction), 0, EnergyDelta(n.direction, n.energy.value))] else [])
    + (if n.payment.None? then []
       else if n.direction == Give then [Line(n.cycle, PaymentReceived, n.payment.value, 0)]
       else [Line(n.cycle, PaymentSent, 0 - n.payment.value, 0)])
  }

  /** The payment is the confirmed energy at the confirmed price, a half cent going up. */
  predicate Agreed(n: Negotiation) {
    && (n.energy.Some? <==> n.price.Some?)
    && (n.energy.Some? ==> 0 < n.energy.value && n.price.value >= 0)
    && (n.payment.Some? ==> n.energy.Some? && n.payment.value == ExpectedPayment(n.energy.value, n.price.value))
  }

  predicate ClaimedKey(e: Effect, claimed: set<string>) {
    e.operation in {GiveConfirmed, TakeConfirmed, PaymentReceived} ==> e.key.Given? && e.key.id in claimed
  }

  ghost predicate Faithful(d: Desk) {
    && (forall k | 0 <= k < |d.negotiations| ::
          Story(Effects(d), k) == Told(d.negotiations[k]) && Agreed(d.negotiations[k]))
    && (forall k: nat | k >= |d.negotiations| :: Story(Effects(d), k) == [])
  }

  ghost predicate WithinCapacity(d: Desk) {
    forall c | c in d.plans && Complete(d.plans[c]) :: SoldEnergy(Effects(d), c) <= MaximumSellable(d.plans[c])
  }

  ghost predicate Inv(w: World) {
    && Sound(w.desk.book) && Faithful(w.desk) && WithinCapacity(w.desk)
    && (forall e | e in Effects(w.desk) :: ClaimedKey(e, w.claimed))
  }

  // ---- Booking an effect ------------------------------------------------

  lemma {:induction false} EffectForInStory(effects: seq<Effect>, k: nat, op: Operation)
    ensures EffectFor(effects, k, op).None? ==> forall l | l in Story(effects, k) :: l.operation != op
    ensures EffectFor(effects, k, op).Some? ==> LineOf(EffectFor(effects, k, op).value) in Story(effects, k)
  {
    if effects != [] {
      EffectForInStory(effects[..|effects| - 1], k, op);
    }
  }

  lemma {:induction false} RecordedIsKnown(effects: seq<Effect>, key: Key, op: Operation)
    ensures Seen(effects, Effect("", key, op, None, 0, 0)) <==> exists e | e in effects :: e.key == key && e.operation == op
  {
  }

  /** A new business effect is the one thing that a post adds to the business of a sound book. */
  lemma PostAddsEffect(b: Book, e: Effect)
    requires Sound(b) && e.key.Given? && e.operation != BudgetCarryover && N.Post(b, e).Ok?
    ensures var (b', applied) := N.Post(b, e).value;
            && Sound(b') && applied == !Recorded(b.entries, e.key, e.operation)
            && Business(b'.entries) == (if applied then Business(b.entries) + [e] else Business(b.entries))
  {
    ApplyStaysSound(b, e);
    if !Recorded(b.entries, e.key, e.operation) {
      var entries := Append(b, e).entries;
      assert entries[..|b.entries|] == b.entries;
      assert Business(entries) == Business(b.entries) + [e];
      BusinessOfExtension(entries, Apply(b, e, true).value.entries);
    }
  }

  /** A message that was not claimed has booked none of the operations that claims protect. */
  lemma UnclaimedIsNotRecorded(w: World, idpk: string, op: Operation)
    requires Inv(w) && idpk !in w.claimed && op in {GiveConfirmed, TakeConfirmed, PaymentReceived}
    ensures !Recorded(w.desk.book.entries, Given(idpk), op)
  {
    var e := Effect("", Given(idpk), op, None, 0, 0);
    RecordedIsSeen(w.desk.book.entries, e);
    RecordedIsKnown(Effects(w.desk), Given(idpk), op);
    forall x | x in Effects(w.desk) ensures x.key != Given(idpk) || x.operation != op {
      assert ClaimedKey(x, w.claimed);
    }
  }

  /** The desk with one more effect of negotiation k, and the row that tells it. */
  lemma BookedStaysFaithful(d: Desk, d': Desk, k: nat, e: Effect)
    requires Faithful(d) && k < |d.negotiations| && e.negotiation == Some(k)
    requires |d'.negotiations| == |d.negotiations| && Effects(d') == Effects(d) + [e]
    requires forall j | 0 <= j < |d.negotiations| && j != k :: d'.negotiations[j] == d.negotiations[j]
    requires Agreed(d'.negotiations[k]) && Told(d'.negotiations[k]) == Told(d.negotiations[k]) + [LineOf(e)]
    ensures Faithful(d')
  {
  }

  /** Rows that tell the same, over the same effects. */
  lemma SameStoryStaysFaithful(d: Desk, d': Desk)
    requires Faithful(d) && |d'.negotiations| == |d.negotiations| && Effects(d') == Effects(d)
    requires forall j | 0 <= j < |d.negotiations| :: Retold(d.negotiations[j], d'.negotiations[j])
    ensures Faithful(d')
  {
  }

  predicate Retold(n: Negotiation, n': Negotiation) {
    && n'.cycle == n.cycle && n'.idpk == n.idpk && n'.direction == n.direction && n'.requested == n.requested
    && n'.energy == n.energy && n'.price == n.price && n'.payment == n.payment
  }

  lemma CapacityOfMore(d: Desk, d': Desk, e: Effect)
    requires WithinCapacity(d) && d'.plans == d.plans && Effects(d') == Effects(d) + [e]
    requires e.cycle in d.plans && Complete(d.plans[e.cycle]) ==>
               SoldEnergy(Effects(d), e.cycle) + GivenEnergy(e, e.cycle) <= MaximumSellable(d.plans[e.cycle])
    ensures WithinCapacity(d')
  {
  }

  // ---- Confirmations ----------------------------------------------------

  lemma ConfirmedRow(d: Desk, k: nat, direction: Direction)
    requires Faithful(d) && k < |d.negotiations| && d.negotiations[k].direction == direction
    ensures var n, e := d.negotiations[k], EffectFor(Effects(d), k, ConfirmOperation(direction));
            && (e.Some? <==> n.energy.Some?)
            && (e.Some? ==> e.value.energy == EnergyDelta(direction, n.energy.value))
  {
    var n, op := d.negotiations[k], ConfirmOperation(direction);
    EffectForInStory(Effects(d), k, op);
    assert Story(Effects(d), k) == Told(n);
    if n.energy.Some? {
      assert Told(n)[0].operation == op && Told(n)[0] in Told(n);
    }
  }

  lemma BookedConfirmation(w: World, m: Confirmation, k: nat)
    requires Inv(w) && m.idpk !in w.claimed && k < |w.desk.negotiations| && N.Booked(w.desk, m, k).Ok?
    requires w.desk.negotiations[k].direction == m.direction
    ensures var n := w.desk.negotiations[k];
            var (book, applied) := N.Booked(w.desk, m, k).value;
            && Sound(book)
            && (applied <==> n.energy.None?)
            && (!applied ==> book == w.desk.book && n.energy == Some(m.energy) && n.price == Some(m.price))
            && (applied ==> CapacityProblem(w.desk, m).None?
                            && Business(book.entries) == Effects(w.desk) + [ConfirmEffect(m, k)])
  {
    ConfirmedRow(w.desk, k, m.direction);
    assert Agreed(w.desk.negotiations[k]);
    if EffectFor(Effects(w.desk), k, ConfirmOperation(m.direction)).None? {
      PostAddsEffect(w.desk.book, ConfirmEffect(m, k));
      UnclaimedIsNotRecorded(w, m.idpk, ConfirmOperation(m.direction));
    }
  }

  lemma TransitionRetells(n: Negotiation, s': Status, now: int)
    requires Transition(n, s', now).Ok?
    ensures Retold(n, Transition(n, s', now).value)
  {
  }

  lemma AdoptStaysFaithful(d: Desk, m: Confirmation, k: nat, book: Book, applied: bool, now: int)
    requires Faithful(d) && k < |d.negotiations| && m.energy > 0 && m.price >= 0
    requires d.negotiations[k].direction == m.direction && d.negotiations[k].cycle == m.cycle
    requires applied <==> d.negotiations[k].energy.None?
    requires !applied ==> book == d.book && d.negotiations[k].energy == Some(m.energy) && d.negotiations[k].price == Some(m.price)
    requires applied ==> Business(book.entries) == Effects(d) + [ConfirmEffect(m, k)]
    requires Adopt(d, m, k, book, applied, now).Ok?
    ensures var d' := Adopt(d, m, k, book, applied, now).value.0;
            && Faithful(d') && d'.book == book && d'.plans == d.plans && |d'.negotiations| == |d.negotiations|
  {
    var n := d.negotiations[k];
    var n1 := n.(energy := Some(m.energy), price := Some(m.price));
    TransitionRetells(n1, CONFIRMED, now);
    var d' := Adopt(d, m, k, book, applied, now).value.0;
    assert Agreed(n);
    if applied {
      assert Told(n) + [LineOf(ConfirmEffect(m, k))] == Told(d'.negotiations[k]);
      BookedStaysFaithful(d, d', k, ConfirmEffect(m, k));
    } else {
      SameStoryStaysFaithful(d, d');
    }
  }

  /** What a transaction that commits leaves, before its idpk is claimed. */
  ghost predicate Keeps(w: World, idpk: string, d: Desk) {
    && Sound(d.book) && Faithful(d) && WithinCapacity(d) && d.plans == w.desk.plans
    && (forall e | e in Effects(d) :: ClaimedKey(e, w.claimed + {idpk}))
  }

  lemma InvKeeps(w: World, idpk: string)
    requires Inv(w)
    ensures Keeps(w, idpk, w.desk)
  {
  }

  /** One more effect of negotiation k, told by its row, within the capacity. */
  lemma OneEffectKeeps(w: World, idpk: string, d: Desk, d': Desk, k: nat, e: Effect)
    requires Keeps(w, idpk, d) && Sound(d'.book) && d'.plans == d.plans
    requires k < |d.negotiations| && e.negotiation == Some(k) && ClaimedKey(e, w.claimed + {idpk})
    requires |d'.negotiations| == |d.negotiations| && Effects(d') == Effects(d) + [e]
    requires forall j | 0 <= j < |d.negotiations| && j != k :: d'.negotiations[j] == d.negotiations[j]
    requires Agreed(d'.negotiations[k]) && Told(d'.negotiations[k]) == Told(d.negotiations[k]) + [LineOf(e)]
    requires e.cycle in d.plans && Complete(d.plans[e.cycle]) ==>
               SoldEnergy(Effects(d), e.cycle) + GivenEnergy(e, e.cycle) <= MaximumSellable(d.plans[e.cycle])
    ensures Keeps(w, idpk, d')
  {
    BookedStaysFaithful(d, d', k, e);
    CapacityOfMore(d, d', e);
  }

  lemma FirstConfirmationFits(d: Desk, m: Confirmation)
    requires WithinCapacity(d) && CapacityProblem(d, m).None? && m.energy > 0
    requires m.cycle in d.plans && Complete(d.plans[m.cycle])
    ensures SoldEnergy(Effects(d), m.cycle) + GivenEnergy(ConfirmEffect(m, 0), m.cycle) <= MaximumSellable(d.plans[m.cycle])
  {
  }

  lemma ConfirmShape(d: Desk, m: Confirmation, now: int) returns (k: nat, book: Book, applied: bool)
    requires Confirm(d, m, now).Ok?
    ensures ProposalNegotiation(d, m.target) == Some(k) && k < |d.negotiations| && m.energy > 0 && m.price >= 0
    ensures d.negotiations[k].direction == m.direction && d.negotiations[k].cycle == m.cycle
    ensures N.Booked(d, m, k) == Ok((book, applied))
    ensures Adopt(d, m, k, book, applied, now) == Confirm(d, m, now)
  {
    k := ProposalNegotiation(d, m.target).value;
    book, applied := N.Booked(d, m, k).value.0, N.Booked(d, m, k).value.1;
  }

  lemma ConfirmKeeps(w: World, m: Confirmation, now: int)
    requires Inv(w) && m.idpk !in w.claimed && Confirm(w.desk, m, now).Ok?
    ensures Keeps(w, m.idpk, Confirm(w.desk, m, now).value.0)
    ensures |Confirm(w.desk, m, now).value.0.negotiations| == |w.desk.negotiations|
  {
    var k, book, applied := ConfirmShape(w.desk, m, now);
    BookedConfirmation(w, m, k);
    AdoptKeeps(w, m, k, book, applied, now);
  }

  lemma AdoptKeeps(w: World, m: Confirmation, k: nat, book: Book, applied: bool, now: int)
    requires Inv(w) && k < |w.desk.negotiations| && m.energy > 0 && m.price >= 0 && Sound(book)
    requires w.desk.negotiations[k].direction == m.direction && w.desk.negotiations[k].cycle == m.cycle
    requires applied <==> w.desk.negotiations[k].energy.None?
    requires !applied ==> book == w.desk.book && w.desk.negotiations[k].energy == Some(m.energy)
                          && w.desk.negotiations[k].price == Some(m.price)
    requires applied ==> CapacityProblem(w.desk, m).None?
                         && Business(book.entries) == Effects(w.desk) + [ConfirmEffect(m, k)]
    requires Adopt(w.desk, m, k, book, applied, now).Ok?
    ensures Keeps(w, m.idpk, Adopt(w.desk, m, k, book, applied, now).value.0)
    ensures |Adopt(w.desk, m, k, book, applied, now).value.0.negotiations| == |w.desk.negotiations|
  {
    AdoptStaysFaithful(w.desk, m, k, book, applied, now);
    var d' := Adopt(w.desk, m, k, book, applied, now).value.0;
    if applied {
      ConfirmedKeeps(w, m, k, d');
    } else {
      NothingBookedKeeps(w, m.idpk, d');
    }
  }

  lemma ConfirmedKeeps(w: World, m: Confirmation, k: nat, d: Desk)
    requires Inv(w) && m.energy > 0 && CapacityProblem(w.desk, m).None?
    requires Sound(d.book) && Faithful(d) && d.plans == w.desk.plans && Effects(d) == Effects(w.desk) + [ConfirmEffect(m, k)]
    ensures Keeps(w, m.idpk, d)
  {
    if m.cycle in w.desk.plans && Complete(w.desk.plans[m.cycle]) {
      FirstConfirmationFits(w.desk, m);
    }
    CapacityOfMore(w.desk, d, ConfirmEffect(m, k));
  }

  // ---- Payments ---------------------------------------------------------

  /** The desk after the payment of a confirmed take. */
  ghost predicate TakePaid(d: Desk, d': Desk, k: nat, ids: TransferIds)
    requires k < |d.negotiations|
  {
    var n := d.negotiations[k];
    && n.direction == Take && n.payment.None? && n.energy.Some? && n.price.Some?
    && var quantity := ExpectedPayment(n.energy.value, n.price.value);
    && N.Post(d.book, SentEffect(n, k, ids.idpk, quantity)) == Ok((d'.book, true))
    && d'.plans == d.plans && |d'.negotiations| == |d.negotiations|
    && (forall j | 0 <= j < |d.negotiations| && j != k :: d'.negotiations[j] == d.negotiations[j])
    && Retold(n.(payment := Some(quantity)), d'.negotiations[k])
  }

  lemma PayTakeShape(d: Desk, k: nat, ids: TransferIds)
    requires k < |d.negotiations| && PayTake(d, k, ids).Ok? && PayTake(d, k, ids).value.1
    ensures TakePaid(d, PayTake(d, k, ids).value.0, k, ids)
  {
  }

  lemma TakePaidKeeps(w: World, idpk: string, d: Desk, d': Desk, k: nat, ids: TransferIds)
    requires k < |d.negotiations| && Keeps(w, idpk, d) && TakePaid(d, d', k, ids)
    ensures Keeps(w, idpk, d')
  {
    var n := d.negotiations[k];
    var quantity := ExpectedPayment(n.energy.value, n.price.value);
    PaidRowKeeps(w, idpk, d, d', k, SentEffect(n, k, ids.idpk, quantity), quantity);
  }

  lemma PayTakeKeeps(w: World, idpk: string, d: Desk, k: nat, ids: TransferIds)
    requires Keeps(w, idpk, d) && k < |d.negotiations| && PayTake(d, k, ids).Ok?
    ensures Keeps(w, idpk, PayTake(d, k, ids).value.0)
  {
    var (d', applied) := PayTake(d, k, ids).value;
    if applied {
      PayTakeShape(d, k, ids);
      TakePaidKeeps(w, idpk, d, d', k, ids);
    }
  }

  lemma RowOfFaithful(d: Desk, k: nat)
    requires Faithful(d) && k < |d.negotiations|
    ensures Agreed(d.negotiations[k])
  {
  }

  lemma PaidRowTells(n: Negotiation, n': Negotiation, quantity: nat, line: Line)
    requires Agreed(n) && n.payment.None? && n.energy.Some? && n.price.Some?
    requires quantity == ExpectedPayment(n.energy.value, n.price.value)
    requires Retold(n.(payment := Some(quantity)), n')
    requires line == (if n.direction == Give then Line(n.cycle, PaymentReceived, quantity, 0)
                      else Line(n.cycle, PaymentSent, 0 - quantity, 0))
    ensures Agreed(n') && Told(n') == Told(n) + [line]
  {
  }

  /** The row of a confirmed negotiation with its payment, next to the payment's effect. */
  lemma PaidRowKeeps(w: World, idpk: string, d: Desk, d': Desk, k: nat, e: Effect, quantity: nat)
    requires Keeps(w, idpk, d) && k < |d.negotiations| && d'.plans == d.plans && |d'.negotiations| == |d.negotiations|
    requires forall j | 0 <= j < |d.negotiations| && j != k :: d'.negotiations[j] == d.negotiations[j]
    requires var n := d.negotiations[k];
             && n.payment.None? && n.energy.Some? && n.price.Some?
             && quantity == ExpectedPayment(n.energy.value, n.price.value)
             && Retold(n.(payment := Some(quantity)), d'.negotiations[k])
             && e.negotiation == Some(k) && e.key.Given?
             && LineOf(e) == (if n.direction == Give then Line(n.cycle, PaymentReceived, quantity, 0)
                              else Line(n.cycle, PaymentSent, 0 - quantity, 0))
    requires ClaimedKey(e, w.claimed + {idpk}) && N.Post(d.book, e) == Ok((d'.book, true))
    ensures Keeps(w, idpk, d')
  {
    PostAddsEffect(d.book, e);
    RowOfFaithful(d, k);
    PaidRowTells(d.negotiations[k], d'.negotiations[k], quantity, LineOf(e));
    OneEffectKeeps(w, idpk, d, d', k, e);
  }

  lemma ConfirmAndPayKeeps(w: World, m: Confirmation, ids: TransferIds, now: int)
    requires Inv(w) && m.idpk !in w.claimed && ConfirmAndPay(w.desk, m, ids, now).Ok?
    ensures Keeps(w, m.idpk, ConfirmAndPay(w.desk, m, ids, now).value)
  {
    ConfirmKeeps(w, m, now);
    var (d1, applied) := Confirm(w.desk, m, now).value;
    var k := ProposalNegotiation(w.desk, m.target).value;
    if applied && m.direction == Take {
      PayTakeKeeps(w, m.idpk, d1, k, ids);
    }
  }

  lemma BookPaymentShape(d: Desk, p: Payment, k: nat, now: int)
    requires k < |d.negotiations| && p.quantity >= 0 && BookPayment(d, p, k, now).Ok? && BookPayment(d, p, k, now).value.1
    ensures var n, d' := d.negotiations[k], BookPayment(d, p, k, now).value.0;
            && N.Post(d.book, ReceivedEffect(p, k)) == Ok((d'.book, true))
            && d'.plans == d.plans && |d'.negotiations| == |d.negotiations|
            && (forall j | 0 <= j < |d.negotiations| && j != k :: d'.negotiations[j] == d.negotiations[j])
            && Retold(n.(payment := Some(p.quantity)), d'.negotiations[k])
  {
  }

  lemma BookPaymentKeeps(w: World, p: Payment, k: nat, now: int)
    requires Inv(w) && p.idpk !in w.claimed && k < |w.desk.negotiations| && p.quantity >= 0
    requires PaymentMismatch(w.desk, p, k).None? && w.desk.negotiations[k].payment.None?
    requires BookPayment(w.desk, p, k, now).Ok?
    ensures Keeps(w, p.idpk, BookPayment(w.desk, p, k, now).value.0)
  {
    InvKeeps(w, p.idpk);
    if BookPayment(w.desk, p, k, now).value.1 {
      BookPaymentShape(w.desk, p, k, now);
      PaidRowKeeps(w, p.idpk, w.desk, BookPayment(w.desk, p, k, now).value.0, k, ReceivedEffect(p, k), p.quantity);
    }
  }

  lemma ReceivedKeeps(w: World, p: Payment, now: int)
    requires Inv(w) && p.idpk !in w.claimed && Paid(w.desk, p, now).Ok?
    ensures Keeps(w, p.idpk, Paid(w.desk, p, now).value)
  {
    var k := ConfirmationNegotiation(w.desk, p.becauseOf).value;
    if w.desk.negotiations[k].payment.None? {
      BookPaymentKeeps(w, p, k, now);
    }
  }

  // ---- Other messages and steps -----------------------------------------

  lemma SameEffectsKeep(w: World, idpk: string, d: Desk)
    requires Inv(w) && Sound(d.book) && d == w.desk.(book := d.book) && Effects(d) == Effects(w.desk)
    ensures Keeps(w, idpk, d)
  {
    SameStoryStaysFaithful(w.desk, d);
  }

  lemma UnrelatedStaysFaithful(d: Desk, d': Desk, e: Effect)
    requires Faithful(d) && d'.negotiations == d.negotiations && Effects(d') == Effects(d) + [e] && e.negotiation.None?
    ensures Faithful(d')
  {
  }

  lemma UnrelatedKeeps(w: World, idpk: string, d: Desk, e: Effect)
    requires Inv(w) && Sound(d.book) && d == w.desk.(book := d.book)
    requires Effects(d) == Effects(w.desk) + [e]
    requires e.negotiation.None? && e.operation !in NEGOTIATION_OPERATIONS
    ensures Keeps(w, idpk, d)
  {
    UnrelatedStaysFaithful(w.desk, d, e);
    assert WithinCapacity(w.desk);
    CapacityOfMore(w.desk, d, e);
  }

  lemma PostOther(b: Book, idpk: string, e: Effect)
    requires Sound(b) && e.key == Given(idpk) && e.operation != BudgetCarryover
    ensures var r := Ledger.Execute(b, Ledger.Post(e), idpk);
            && r.Ok? && Sound(r.value)
            && Business(r.value.entries) == (if Seen(Business(b.entries), e) then Business(b.entries) else Business(b.entries) + [e])
  {
    NewCycleStaysSound(b, e.cycle);
    ApplyStaysSound(WithCycle(b, e.cycle), e);
    PostRecordsOnce(b, e);
  }

  lemma PostOtherKeeps(w: World, idpk: string, e: Effect)
    requires Inv(w) && Enabled(w, DoOther(idpk, Ledger.Post(e)))
    ensures Other(w.desk, idpk, Ledger.Post(e)).Ok? && Keeps(w, idpk, Other(w.desk, idpk, Ledger.Post(e)).value)
  {
    PostOther(w.desk.book, idpk, e);
    var d := Other(w.desk, idpk, Ledger.Post(e)).value;
    if Seen(Effects(w.desk), e) {
      SameEffectsKeep(w, idpk, d);
    } else {
      UnrelatedKeeps(w, idpk, d, e);
    }
  }

  lemma StatusKeeps(w: World, idpk: string, id: string, openingEnergy: int, validUntil: int)
    requires Inv(w) && Other(w.desk, idpk, Status(id, openingEnergy, validUntil)).Ok?
    ensures Keeps(w, idpk, Other(w.desk, idpk, Status(id, openingEnergy, validUntil)).value)
  {
    var b, d := w.desk.book, Other(w.desk, idpk, Status(id, openingEnergy, validUntil)).value;
    OpenStaysSound(b, id, idpk, openingEnergy, validUntil);
    StatusRecordsNothing(b, id, idpk, openingEnergy, validUntil);
    SameEffectsKeep(w, idpk, d);
  }

  lemma NewProposalStaysFaithful(d: Desk, d': Desk, n: Negotiation)
    requires Faithful(d) && Effects(d') == Effects(d) && d'.negotiations == d.negotiations + [n]
    requires n.energy.None? && n.price.None? && n.payment.None?
    ensures Faithful(d')
  {
  }

  lemma MovedRetells(d: Desk, k: nat, s': Status, now: int)
    requires k < |d.negotiations|
    ensures var d' := Moved(d, k, s', now);
            && d' == d.(negotiations := d'.negotiations) && SameStories(d, d')
  {
  }

  ghost predicate SameStories(d: Desk, d': Desk) {
    && |d'.negotiations| == |d.negotiations|
    && forall j | 0 <= j < |d.negotiations| :: Retold(d.negotiations[j], d'.negotiations[j])
  }

  lemma PublishedRetells(d: Desk, msgId: string, now: int)
    ensures var d' := ProposalPublished(d, msgId, now); SameStories(d, d') && d'.book == d.book && d'.plans == d.plans
  {
  }

  /** The steps that move one row. */
  lemma MoveRetells(d: Desk, s: Step)
    requires s.DoRetry? || s.DoPublished? || s.DoTransferPublished? || s.DoAck? || s.DoNack?
    ensures var d' := DeskStep(d, s); SameStories(d, d') && d'.book == d.book && d'.plans == d.plans
  {
    match s
    case DoRetry(k, _, now) => if k < |d.negotiations| { MovedRetells(d, k, PENDING_PUBLICATION, now); }
    case DoPublished(msgId, now) => PublishedRetells(d, msgId, now);
    case DoTransferPublished(msgId, now) =>
      var k := FindByLatest(d.negotiations, msgId);
      if k.Some? { MovedRetells(d, k.value, PAID, now); }
    case DoAck(target, now) =>
      var k := ProposalNegotiation(d, target);
      if k.Some? { MovedRetells(d, k.value, ACKNOWLEDGED, now); }
    case DoNack(target, now) =>
      var k := ProposalNegotiation(d, target);
      if k.Some? { MovedRetells(d, k.value, REJECTED, now); }
  }

  lemma ListOneRetells(d: Desk, i: nat, ends: map<string, CycleEnd>, now: int)
    requires i < |d.proposals|
    ensures var d' := ListOne(d, i, ends, now); SameStories(d, d') && d'.book == d.book && d'.plans == d.plans
  {
  }

  lemma {:induction false} ListFirstRetells(d: Desk, n: nat, ends: map<string, CycleEnd>, now: int)
    requires n <= |d.proposals|
    ensures var d' := ListFirst(d, n, ends, now); SameStories(d, d') && d'.book == d.book && d'.plans == d.plans
  {
    if n > 0 {
      ListFirstRetells(d, n - 1, ends, now);
      ListOneRetells(ListFirst(d, n - 1, ends, now), n - 1, ends, now);
    }
  }

  lemma InboundStaysFaithful(d: Desk, m: InboundProposal, now: int)
    requires Faithful(d)
    ensures Faithful(ReceiveProposal(d, m, now))
  {
    var d' := ReceiveProposal(d, m, now);
    if |d'.negotiations| > |d.negotiations| {
      NewProposalStaysFaithful(d, d', N.Received(m, now));
    } else {
      SameStoryStaysFaithful(d, d');
    }
  }

  lemma InboundBooksNothing(d: Desk, m: InboundProposal, now: int)
    requires Sound(d.book)
    ensures var d' := ReceiveProposal(d, m, now);
            d'.plans == d.plans && Sound(d'.book) && Effects(d') == Effects(d)
  {
    NewCycleStaysSound(d.book, m.cycle);
  }

  lemma NothingBookedKeeps(w: World, idpk: string, d: Desk)
    requires Inv(w) && Sound(d.book) && Faithful(d) && d.plans == w.desk.plans && Effects(d) == Effects(w.desk)
    ensures Keeps(w, idpk, d)
  {
  }

  lemma InboundKeeps(w: World, m: InboundProposal, now: int)
    requires Inv(w)
    ensures Keeps(w, m.idpk, ReceiveProposal(w.desk, m, now))
  {
    InboundStaysFaithful(w.desk, m, now);
    InboundBooksNothing(w.desk, m, now);
    NothingBookedKeeps(w, m.idpk, ReceiveProposal(w.desk, m, now));
  }

  lemma ClaimKeepsInv(w: World, idpk: string, r: Result<Desk, N.Error>)
    requires Inv(w) && (idpk !in w.claimed && r.Ok? ==> Keeps(w, idpk, r.value))
    ensures Inv(Claimed(w, idpk, r)) && Claimed(w, idpk, r).desk.plans == w.desk.plans
  {
  }

  lemma HeardKeepsInv(w: World, m: Confirmation)
    requires Inv(w)
    ensures Inv(Heard(w, m))
  {
    SameStoryStaysFaithful(w.desk, Heard(w, m).desk);
  }

  lemma DeskStepStaysFaithful(d: Desk, s: Step)
    requires Faithful(d)
    ensures var d' := DeskStep(d, s); Faithful(d') && d'.book == d.book && d'.plans == d.plans
  {
    if s.DoPropose? {
      ProposeStaysFaithful(d, s);
    } else if s.DoPoll? {
      ListFirstRetells(d, |d.proposals|, s.ends, s.now);
      SameStoryStaysFaithful(d, DeskStep(d, s));
    } else if s.DoTimeouts? {
      SameStoryStaysFaithful(d, DeskStep(d, s));
    } else if !s.DoConfirm? && !s.DoPay? && !s.DoInbound? && !s.DoOther? {
      MoveRetells(d, s);
      SameStoryStaysFaithful(d, DeskStep(d, s));
    }
  }

  lemma ProposeStaysFaithful(d: Desk, s: Step)
    requires Faithful(d) && s.DoPropose?
    ensures var d' := DeskStep(d, s); Faithful(d') && d'.book == d.book && d'.plans == d.plans
  {
    if Propose(d, s.draft, s.ids).Ok? {
      var d' := DeskStep(d, s);
      NewProposalStaysFaithful(d, d', d'.negotiations[|d.negotiations|]);
    }
  }

  lemma MessageKeeps(w: World, s: Step)
    requires Inv(w) && Enabled(w, s)
    ensures s.DoConfirm? && s.m.idpk !in w.claimed && ConfirmAndPay(w.desk, s.m, s.ids, s.now).Ok? ==>
              Keeps(w, s.m.idpk, ConfirmAndPay(w.desk, s.m, s.ids, s.now).value)
    ensures s.DoPay? && s.p.idpk !in w.claimed && Paid(w.desk, s.p, s.now).Ok? ==>
              Keeps(w, s.p.idpk, Paid(w.desk, s.p, s.now).value)
    ensures s.DoOther? && Other(w.desk, s.idpk, s.request).Ok? ==>
              Keeps(w, s.idpk, Other(w.desk, s.idpk, s.request).value)
  {
    if s.DoConfirm? && s.m.idpk !in w.claimed && ConfirmAndPay(w.desk, s.m, s.ids, s.now).Ok? {
      ConfirmAndPayKeeps(w, s.m, s.ids, s.now);
    } else if s.DoPay? && s.p.idpk !in w.claimed && Paid(w.desk, s.p, s.now).Ok? {
      ReceivedKeeps(w, s.p, s.now);
    } else if s.DoOther? && Other(w.desk, s.idpk, s.request).Ok? {
      match s.request {
        case Post(e) => PostOtherKeeps(w, s.idpk, e);
        case Status(id, openingEnergy, validUntil) => StatusKeeps(w, s.idpk, id, openingEnergy, validUntil);
      }
    }
  }

  lemma StepKeepsInv(w: World, s: Step)
    requires Inv(w) && Enabled(w, s)
    ensures Inv(Next(w, s)) && Next(w, s).desk.plans == w.desk.plans
  {
    MessageKeeps(w, s);
    match s
    case DoConfirm(m, ids, now) =>
      HeardKeepsInv(w, m);
      ClaimKeepsInv(w, m.idpk, ConfirmAndPay(w.desk, m, ids, now));
    case DoPay(p, now) => ClaimKeepsInv(w, p.idpk, Paid(w.desk, p, now));
    case DoInbound(m, now) =>
      InboundKeeps(w, m, now);
      ClaimKeepsInv(w, m.idpk, Ok(ReceiveProposal(w.desk, m, now)));
    case DoOther(idpk, q) => ClaimKeepsInv(w, idpk, Other(w.desk, idpk, q));
    case _ => DeskStepStaysFaithful(w.desk, s);
  }

  lemma StartIsSound(plans: map<string, Plan>)
    ensures Inv(Execute(plans, []))
  {
    assert Run([]) == Log(NEW_BOOK, {});
    EveryRunIsSound([]);
  }

  lemma LegalPrefix(plans: map<string, Plan>, steps: seq<Step>, n: nat)
    requires Legal(plans, steps) && n <= |steps|
    ensures Legal(plans, steps[..n])
  {
    forall i | 0 <= i < n ensures Enabled(Execute(plans, steps[..n][..i]), steps[..n][i]) {
      assert steps[..n][..i] == steps[..i];
    }
  }

  lemma {:induction false} EveryRunKeepsInv(plans: map<string, Plan>, steps: seq<Step>)
    requires Legal(plans, steps)
    ensures Inv(Execute(plans, steps)) && Execute(plans, steps).desk.plans == plans
  {
    if steps == [] {
      StartIsSound(plans);
    } else {
      var n := |steps| - 1;
      LegalPrefix(plans, steps, n);
      EveryRunKeepsInv(plans, steps[..n]);
      StepKeepsInv(Execute(plans, steps[..n]), steps[n]);
    }
  }

  // ---- Main results -----------------------------------------------------

  function CountOf(lines: seq<Line>, ops: set<Operation>): nat {
    if lines == [] then 0 else CountOf(lines[1..], ops) + (if lines[0].operation in ops then 1 else 0)
  }

  lemma ToldCounts(n: Negotiation)
    ensures CountOf(Told(n), {GiveConfirmed, TakeConfirmed}) == (if n.energy.Some? then 1 else 0)
    ensures CountOf(Told(n), {PaymentReceived, PaymentSent}) == (if n.payment.Some? then 1 else 0)
  {
    var told, confirmations, payments := Told(n), {GiveConfirmed, TakeConfirmed}, {PaymentReceived, PaymentSent};
    if |told| == 1 {
      assert told == [told[0]];
      CountOfOne(told[0], confirmations);
      CountOfOne(told[0], payments);
    } else if |told| == 2 {
      assert told == [told[0], told[1]];
      CountOfTwo(told[0], told[1], confirmations);
      CountOfTwo(told[0], told[1], payments);
    }
  }

  lemma CountOfOne(l: Line, ops: set<Operation>)
    ensures CountOf([l], ops) == if l.operation in ops then 1 else 0
  {
  }

  lemma CountOfTwo(a: Line, b: Line, ops: set<Operation>)
    ensures CountOf([a, b], ops) == (if a.operation in ops then 1 else 0) + (if b.operation in ops then 1 else 0)
  {
    assert [a, b][1..] == [b];
    CountOfOne(b, ops);
  }

  /** The ledger and the row tell the same: one confirmation and one payment at most, of the agreed amount. */
  lemma EachNegotiationIsBookedOnce(plans: map<string, Plan>, steps: seq<Step>, k: nat)
    requires Legal(plans, steps) && k < |Execute(plans, steps).desk.negotiations|
    ensures var d := Execute(plans, steps).desk;
            var n, story := d.negotiations[k], Story(Effects(d), k);
            && story == Told(n)
            && CountOf(story, {GiveConfirmed, TakeConfirmed}) == (if n.energy.Some? then 1 else 0)
            && CountOf(story, {PaymentReceived, PaymentSent}) == (if n.payment.Some? then 1 else 0)
            && (n.payment.Some? ==> PaidAsAgreed(n))
  {
    EveryRunKeepsInv(plans, steps);
    FaithfulCounts(Execute(plans, steps).desk, k);
  }

  lemma FaithfulCounts(d: Desk, k: nat)
    requires Faithful(d) && k < |d.negotiations|
    ensures var n, story := d.negotiations[k], Story(Effects(d), k);
            && story == Told(n)
            && CountOf(story, {GiveConfirmed, TakeConfirmed}) == (if n.energy.Some? then 1 else 0)
            && CountOf(story, {PaymentReceived, PaymentSent}) == (if n.payment.Some? then 1 else 0)
            && (n.payment.Some? ==> PaidAsAgreed(n))
  {
    ToldCounts(d.negotiations[k]);
    if d.negotiations[k].payment.Some? {
      AgreedIsPaid(d.negotiations[k]);
    }
  }

  lemma AgreedIsPaid(n: Negotiation)
    requires Agreed(n) && n.payment.Some?
    ensures PaidAsAgreed(n)
  {
  }

  /** Twice the payment is within one cent of twice the energy times the price, a tie going up. */
  predicate PaidAsAgreed(n: Negotiation) {
    && n.payment.Some? && n.energy.Some? && n.price.Some?
    && var product := n.energy.value * n.price.value;
    2 * product - 100 < 2 * (n.payment.value * 100) <= 2 * product + 100
  }

  /** A cycle with a complete status never gives more than its generation less its consumption. */
  lemma NeverGivesTooMuch(plans: map<string, Plan>, steps: seq<Step>, cycle: string)
    requires Legal(plans, steps) && cycle in plans && Complete(plans[cycle])
    ensures SoldEnergy(Effects(Execute(plans, steps).desk), cycle)
            <= Max(0, plans[cycle].generation.value - plans[cycle].consumption.value)
  {
    EveryRunKeepsInv(plans, steps);
  }

  /** The balances of the ledger stay sound under negotiations. */
  lemma LedgerStaysSound(plans: map<string, Plan>, steps: seq<Step>)
    requires Legal(plans, steps)
    ensures Sound(Execute(plans, steps).desk.book)
  {
    EveryRunKeepsInv(plans, steps);
  }

  // ---- Fair confirmations -----------------------------------------------

  /** Confirmed energy was asked for, at the settlement price of its cycle. */
  predicate Fair(plans: map<string, Plan>, n: Negotiation) {
    n.energy.Some? ==>
      && n.price.Some? && n.energy.value <= n.requested
      && (n.cycle in plans && plans[n.cycle].cost.Some? ==> SettlementPrice(plans[n.cycle], n.direction) == n.price)
  }

  ghost predicate AllFair(d: Desk) {
    forall k | 0 <= k < |d.negotiations| :: Fair(d.plans, d.negotiations[k])
  }

  /** At most row k changes, and it stays fair. */
  ghost predicate FairlyChanged(d: Desk, d': Desk, k: nat) {
    && d'.plans == d.plans && |d'.negotiations| == |d.negotiations|
    && (forall j | 0 <= j < |d.negotiations| && j != k :: d'.negotiations[j] == d.negotiations[j])
    && (k < |d.negotiations| && Fair(d.plans, d.negotiations[k]) ==> Fair(d.plans, d'.negotiations[k]))
  }

  lemma AdoptIsFair(d: Desk, m: Confirmation, k: nat, book: Book, applied: bool, now: int)
    requires k < |d.negotiations| && Mismatch(d, m, d.negotiations[k]).None? && Adopt(d, m, k, book, applied, now).Ok?
    ensures FairlyChanged(d, Adopt(d, m, k, book, applied, now).value.0, k)
  {
    TransitionRetells(d.negotiations[k].(energy := Some(m.energy), price := Some(m.price)), CONFIRMED, now);
  }

  lemma ConfirmIsFair(d: Desk, m: Confirmation, now: int)
    requires AllFair(d) && Confirm(d, m, now).Ok?
    ensures AllFair(Confirm(d, m, now).value.0)
  {
    var k, book, applied := ConfirmShape(d, m, now);
    AdoptIsFair(d, m, k, book, applied, now);
  }

  lemma PayTakeIsFair(d: Desk, k: nat, ids: TransferIds)
    requires AllFair(d) && k < |d.negotiations| && PayTake(d, k, ids).Ok?
    ensures AllFair(PayTake(d, k, ids).value.0)
  {
    if PayTake(d, k, ids).value.1 {
      PayTakeShape(d, k, ids);
    }
  }

  lemma BookPaymentIsFair(d: Desk, p: Payment, k: nat, now: int)
    requires AllFair(d) && k < |d.negotiations| && p.quantity >= 0 && BookPayment(d, p, k, now).Ok?
    ensures AllFair(BookPayment(d, p, k, now).value.0)
  {
    if BookPayment(d, p, k, now).value.1 {
      BookPaymentShape(d, p, k, now);
    }
  }

  lemma ConfirmAndPayIsFair(d: Desk, m: Confirmation, ids: TransferIds, now: int)
    requires AllFair(d) && ConfirmAndPay(d, m, ids, now).Ok?
    ensures AllFair(ConfirmAndPay(d, m, ids, now).value)
  {
    ConfirmIsFair(d, m, now);
    var (d1, applied) := Confirm(d, m, now).value;
    var k := ProposalNegotiation(d, m.target);
    if applied && m.direction == Take && k.Some? && k.value < |d1.negotiations| {
      PayTakeIsFair(d1, k.value, ids);
    }
  }

  lemma ReceivedIsFair(d: Desk, p: Payment, now: int)
    requires AllFair(d) && Paid(d, p, now).Ok?
    ensures AllFair(Paid(d, p, now).value)
  {
    var k := ConfirmationNegotiation(d, p.becauseOf).value;
    if d.negotiations[k].payment.None? {
      BookPaymentIsFair(d, p, k, now);
    }
  }

  lemma DeskStepIsFair(d: Desk, s: Step)
    requires AllFair(d)
    ensures AllFair(DeskStep(d, s))
  {
    if s.DoRetry? || s.DoPublished? || s.DoTransferPublished? || s.DoAck? || s.DoNack? {
      MoveRetells(d, s);
      SameStoriesAreFair(d, DeskStep(d, s));
    } else if s.DoPoll? {
      ListFirstRetells(d, |d.proposals|, s.ends, s.now);
      SameStoriesAreFair(d, DeskStep(d, s));
    }
  }

  lemma SameStoriesAreFair(d: Desk, d': Desk)
    requires AllFair(d) && SameStories(d, d') && d'.plans == d.plans
    ensures AllFair(d')
  {
    forall k | 0 <= k < |d'.negotiations| ensures Fair(d'.plans, d'.negotiations[k]) {
      assert Retold(d.negotiations[k], d'.negotiations[k]);
    }
  }

  lemma StepIsFair(w: World, s: Step)
    requires AllFair(w.desk)
    ensures AllFair(Next(w, s).desk)
  {
    match s
    case DoConfirm(m, ids, now) =>
      if ConfirmAndPay(w.desk, m, ids, now).Ok? {
        ConfirmAndPayIsFair(w.desk, m, ids, now);
      }
    case DoPay(p, now) =>
      if Paid(w.desk, p, now).Ok? {
        ReceivedIsFair(w.desk, p, now);
      }
    case DoInbound(_, _) =>
    case DoOther(_, _) =>
    case _ => DeskStepIsFair(w.desk, s);
  }

  /** In every run the central's confirmations that count are for asked energy at the settlement price. */
  lemma {:induction false} EveryConfirmationIsFair(plans: map<string, Plan>, steps: seq<Step>)
    ensures AllFair(Execute(plans, steps).desk)
  {
    if steps != [] {
      var n := |steps| - 1;
      EveryConfirmationIsFair(plans, steps[..n]);
      StepIsFair(Execute(plans, steps[..n]), steps[n]);
    }
  }
}

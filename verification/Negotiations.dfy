/**
 * Voluntary negotiations with the central: proposals, give/take confirmations and
 * their payments, each booked in the ledger. Energies, prices and amounts are in
 * hundredths of their unit.
 */
module Negotiations {
  import opened Common
  import opened Money
  import Ledger
  import LedgerLaws

  datatype Direction = Give | Take

  datatype Status = PENDING_PUBLICATION | PROPOSED | ACKNOWLEDGED | CONFIRMED | PAID | REJECTED | TIMEOUT

  datatype Negotiation = Negotiation(
    cycle: string, idpk: string, direction: Direction, requested: int, status: Status,
    deadline: Option<int>, latest: Option<string>,
    energy: Option<int>, price: Option<int>, payment: Option<nat>)

  /** What the cycle's status-statement says. */
  datatype Plan = Plan(generation: Option<int>, consumption: Option<int>, cost: Option<int>)

  /** A proposal in the outbox, with its negotiation's idpk and cycle. */
  datatype Proposal = Proposal(msgId: string, idpk: string, cycle: string, required: bool)

  datatype Transfer = Transfer(msgId: string, idpk: string, target: string, quantity: nat)

  /** `sources` are the msgIds behind the confirmation entries, `inbound` the targets of processed give/take. */
  datatype Desk = Desk(
    book: Ledger.Book, plans: map<string, Plan>, negotiations: seq<Negotiation>,
    proposals: seq<Proposal>, transfers: seq<Transfer>,
    sources: seq<(string, nat)>, inbound: map<string, string>)

  datatype Error =
    | NotPositive | NegativePrice | UnknownTarget | CycleMismatch | DirectionMismatch | IncompleteStatus
    | PriceDiffers | ExceedsRequested | EnergyDiffers | ConfirmedPriceDiffers | OverCapacity
    | InvalidTransition | LedgerFailure | NotConfirmed | NotTake | InconsistentPayment | NegativePayment
    | WrongAmount | PaymentExists | NoConfirmationId | DuplicateIdpk

  // ---- Rules ------------------------------------------------------------

  predicate Complete(p: Plan) { p.generation.Some? && p.consumption.Some? && p.cost.Some? }

  /** The cost itself for energy taken, five per cent more for energy given. */
  function SettlementPrice(p: Plan, d: Direction): Option<int> {
    if !Complete(p) || p.cost.value < 0 then None
    else if d == Take then p.cost else Some(RoundHalfUp(p.cost.value * 105, 100))
  }

  function MaximumSellable(p: Plan): nat
    requires Complete(p)
  {
    Max(0, p.generation.value - p.consumption.value)
  }

  function GivenEnergy(e: Ledger.Effect, cycle: string): nat {
    if e.cycle == cycle && e.operation == Ledger.GiveConfirmed && e.energy < 0 then -e.energy else 0
  }

  function SoldEnergy(effects: seq<Ledger.Effect>, cycle: string): nat {
    if effects == [] then 0
    else SoldEnergy(effects[..|effects| - 1], cycle) + GivenEnergy(effects[|effects| - 1], cycle)
  }

  lemma SoldWithOneMore(entries: seq<Ledger.Entry>, i: nat, cycle: string)
    requires i < |entries|
    ensures SoldEnergy(LedgerLaws.Business(entries[..i + 1]), cycle)
            == SoldEnergy(LedgerLaws.Business(entries[..i]), cycle) + GivenEnergy(entries[i].effect, cycle)
  {
    var known, e := LedgerLaws.Business(entries[..i]), entries[i].effect;
    assert entries[..i + 1][..i] == entries[..i];
    if e.operation != Ledger.BudgetCarryover {
      assert (known + [e])[..|known|] == known;
    } else {
      assert known + [] == known;
    }
  }

  function Effects(d: Desk): seq<Ledger.Effect> { LedgerLaws.Business(d.book.entries) }

  function RemainingSellable(d: Desk, p: Plan, cycle: string): nat
    requires Complete(p)
  {
    Max(0, MaximumSellable(p) - SoldEnergy(Effects(d), cycle))
  }

  /** The cents owed for confirmed energy. */
  function ExpectedPayment(energy: int, price: int): nat {
    RoundHalfUp(Max(0, energy * price), 100)
  }

  // ---- States -----------------------------------------------------------

  const ANSWER_SECONDS := 30
  const SECOND := 1_000_000

  predicate Allowed(s: Status, s': Status) {
    match s
    case PENDING_PUBLICATION => s' in {TIMEOUT, ACKNOWLEDGED, CONFIRMED, REJECTED, PROPOSED}
    case PROPOSED => s' in {ACKNOWLEDGED, CONFIRMED, REJECTED, TIMEOUT}
    case ACKNOWLEDGED => s' in {CONFIRMED, REJECTED, TIMEOUT}
    case CONFIRMED => s' in {PAID, TIMEOUT}
    case PAID => false
    case REJECTED => false
    case TIMEOUT => s' in {CONFIRMED, REJECTED, PENDING_PUBLICATION}
  }

  function Rank(s: Status): Option<nat> {
    match s
    case PENDING_PUBLICATION => Some(0)
    case PROPOSED => Some(1)
    case ACKNOWLEDGED => Some(2)
    case CONFIRMED => Some(3)
    case PAID => Some(4)
    case _ => None
  }

  /** A late message neither changes the state nor is an error. */
  predicate Ignored(s: Status, s': Status) {
    || (s in {TIMEOUT, REJECTED, PAID} && s' in {ACKNOWLEDGED, PROPOSED})
    || s == s'
    || (Rank(s).Some? && Rank(s').Some? && Rank(s').value < Rank(s).value)
  }

  function DeadlineAfter(n: Negotiation, s': Status, now: int): Option<int> {
    match s'
    case PENDING_PUBLICATION => None
    case PROPOSED => Some(now + ANSWER_SECONDS * SECOND)
    case ACKNOWLEDGED => if n.deadline.None? then Some(now + ANSWER_SECONDS * SECOND) else n.deadline
    case CONFIRMED => if n.direction == Give then Some(now + ANSWER_SECONDS * SECOND) else None
    case PAID => None
    case REJECTED => None
    case TIMEOUT => n.deadline
  }

  function Transition(n: Negotiation, s': Status, now: int): Result<Negotiation, Error> {
    if Ignored(n.status, s') then Ok(n)
    else if !Allowed(n.status, s') then Err(InvalidTransition)
    else Ok(n.(status := s', deadline := DeadlineAfter(n, s', now)))
  }

  // ---- Correlation ------------------------------------------------------

  function FindProposal(ps: seq<Proposal>, msgId: string): (k: Option<nat>)
    ensures k.Some? ==> k.value < |ps| && ps[k.value].msgId == msgId
  {
    if ps == [] then None
    else
      var k := FindProposal(ps[..|ps| - 1], msgId);
      if k.Some? then k else if ps[|ps| - 1].msgId == msgId then Some(|ps| - 1) else None
  }

  function FindByIdpk(ns: seq<Negotiation>, idpk: string): (k: Option<nat>)
    ensures k.Some? ==> k.value < |ns| && ns[k.value].idpk == idpk
    ensures k.None? ==> forall i | 0 <= i < |ns| :: ns[i].idpk != idpk
  {
    if ns == [] then None
    else
      var k := FindByIdpk(ns[..|ns| - 1], idpk);
      if k.Some? then k else if ns[|ns| - 1].idpk == idpk then Some(|ns| - 1) else None
  }

  function FindByLatest(ns: seq<Negotiation>, msgId: string): (k: Option<nat>)
    ensures k.Some? ==> k.value < |ns| && ns[k.value].latest == Some(msgId)
  {
    if ns == [] then None
    else
      var k := FindByLatest(ns[..|ns| - 1], msgId);
      if k.Some? then k else if ns[|ns| - 1].latest == Some(msgId) then Some(|ns| - 1) else None
  }

  function FindSource(ss: seq<(string, nat)>, msgId: string): Option<nat> {
    if ss == [] then None
    else
      var k := FindSource(ss[..|ss| - 1], msgId);
      if k.Some? then k else if ss[|ss| - 1].0 == msgId then Some(ss[|ss| - 1].1) else None
  }

  /** Any attempt of a proposal names its negotiation; otherwise the latest message does. */
  function ProposalNegotiation(d: Desk, target: string): (k: Option<nat>)
    ensures k.Some? ==> k.value < |d.negotiations|
  {
    var p := FindProposal(d.proposals, target);
    if p.Some? then FindByIdpk(d.negotiations, d.proposals[p.value].idpk)
    else FindByLatest(d.negotiations, target)
  }

  function ConfirmationNegotiation(d: Desk, target: string): (k: Option<nat>)
    ensures k.Some? ==> k.value < |d.negotiations|
  {
    var source := FindSource(d.sources, target);
    if source.Some? then (if source.value < |d.negotiations| then source else None)
    else
      var found := if target in d.inbound then ProposalNegotiation(d, d.inbound[target]) else None;
      if found.Some? then found else FindByLatest(d.negotiations, target)
  }

  function EffectFor(effects: seq<Ledger.Effect>, k: nat, op: Ledger.Operation): (e: Option<Ledger.Effect>)
    ensures e.Some? ==> e.value in effects && e.value.negotiation == Some(k) && e.value.operation == op
    ensures e.None? ==> forall x | x in effects :: x.negotiation != Some(k) || x.operation != op
  {
    if effects == [] then None
    else
      var e := EffectFor(effects[..|effects| - 1], k, op);
      var last := effects[|effects| - 1];
      if e.Some? then e else if last.negotiation == Some(k) && last.operation == op then Some(last) else None
  }

  function StopProposals(ps: seq<Proposal>, idpk: string): seq<Proposal> {
    seq(|ps|, i requires 0 <= i < |ps| => if ps[i].idpk == idpk then ps[i].(required := false) else ps[i])
  }

  function SendProposal(ps: seq<Proposal>, msgId: string): seq<Proposal> {
    seq(|ps|, i requires 0 <= i < |ps| => if ps[i].msgId == msgId then ps[i].(required := false) else ps[i])
  }

  /** A published proposal waits no longer, and its negotiation is proposed from the publication on. */
  function ProposalPublished(d: Desk, msgId: string, now: int): Desk {
    if FindProposal(d.proposals, msgId).None? then d
    else
      var d1 := d.(proposals := SendProposal(d.proposals, msgId));
      var k := FindByLatest(d.negotiations, msgId);
      if k.None? || d.negotiations[k.value].status != PENDING_PUBLICATION then d1
      else d1.(negotiations := d.negotiations[k.value :=
                 d.negotiations[k.value].(status := PROPOSED, deadline := Some(now + ANSWER_SECONDS * SECOND))])
  }

  // ---- Confirmations ----------------------------------------------------

  datatype Confirmation = Confirmation(
    direction: Direction, cycle: string, idpk: string, msgId: string, target: string, energy: int, price: int)

  function ConfirmOperation(d: Direction): Ledger.Operation {
    if d == Give then Ledger.GiveConfirmed else Ledger.TakeConfirmed
  }

  /** Given energy leaves the city, taken energy arrives. */
  function EnergyDelta(d: Direction, energy: int): int { if d == Give then -energy else energy }

  function ConfirmEffect(m: Confirmation, k: nat): Ledger.Effect {
    Ledger.Effect(m.cycle, Ledger.Given(m.idpk), ConfirmOperation(m.direction), Some(k), 0, EnergyDelta(m.direction, m.energy))
  }

  /** The checks of the confirmation against its negotiation and its cycle. */
  function Mismatch(d: Desk, m: Confirmation, n: Negotiation): Option<Error> {
    if n.cycle != m.cycle then Some(CycleMismatch)
    else if n.direction != m.direction then Some(DirectionMismatch)
    else if m.cycle in d.plans && d.plans[m.cycle].cost.Some? && SettlementPrice(d.plans[m.cycle], m.direction).None?
    then Some(IncompleteStatus)
    else if m.cycle in d.plans && d.plans[m.cycle].cost.Some? && SettlementPrice(d.plans[m.cycle], m.direction) != Some(m.price)
    then Some(PriceDiffers)
    else if m.energy > n.requested then Some(ExceedsRequested)
    else None
  }

  /** A first confirmation is limited by what the cycle can still sell. */
  function CapacityProblem(d: Desk, m: Confirmation): Option<Error> {
    if m.direction == Take || m.cycle !in d.plans || d.plans[m.cycle].generation.None? then None
    else if !Complete(d.plans[m.cycle]) then Some(IncompleteStatus)
    else if m.energy > RemainingSellable(d, d.plans[m.cycle], m.cycle) then Some(OverCapacity)
    else None
  }

  /** The book with the effect, and whether it is new. */
  function Post(b: Ledger.Book, e: Ledger.Effect): Result<(Ledger.Book, bool), Error> {
    match Ledger.Apply(b, e, true)
    case Err(_) => Err(LedgerFailure)
    case Ok(b') => Ok((b', !Ledger.Recorded(b.entries, e.key, e.operation)))
  }

  function Booked(d: Desk, m: Confirmation, k: nat): Result<(Ledger.Book, bool), Error>
    requires k < |d.negotiations|
  {
    match EffectFor(Effects(d), k, ConfirmOperation(m.direction))
    case Some(e) =>
      if e.energy != EnergyDelta(m.direction, m.energy) then Err(EnergyDiffers)
      else if d.negotiations[k].price.Some? && d.negotiations[k].price.value != m.price then Err(ConfirmedPriceDiffers)
      else Ok((d.book, false))
    case None =>
      if CapacityProblem(d, m).Some? then Err(CapacityProblem(d, m).value)
      else Post(d.book, ConfirmEffect(m, k))
  }

  function Confirm(d: Desk, m: Confirmation, now: int): Result<(Desk, bool), Error> {
    if m.energy <= 0 then Err(NotPositive)
    else if m.price < 0 then Err(NegativePrice)
    else match ProposalNegotiation(d, m.target)
      case None => Err(UnknownTarget)
      case Some(k) =>
        var n := d.negotiations[k];
        if Mismatch(d, m, n).Some? then Err(Mismatch(d, m, n).value)
        else match Booked(d, m, k)
          case Err(e) => Err(e)
          case Ok((book, applied)) => Adopt(d, m, k, book, applied, now)
  }

  /** The negotiation's own row, once the energy is booked. */
  function Adopt(d: Desk, m: Confirmation, k: nat, book: Ledger.Book, applied: bool, now: int): Result<(Desk, bool), Error>
    requires k < |d.negotiations|
  {
    match Transition(d.negotiations[k].(energy := Some(m.energy), price := Some(m.price)), CONFIRMED, now)
    case Err(e) => Err(e)
    case Ok(n') => Ok((Confirmed(d, m, k, n', book, applied), applied))
  }

  function Confirmed(d: Desk, m: Confirmation, k: nat, n': Negotiation, book: Ledger.Book, applied: bool): Desk
    requires k < |d.negotiations|
  {
    d.(book := book,
       negotiations := d.negotiations[k := n'.(latest := if n'.payment.None? then Some(m.msgId) else n'.latest)],
       proposals := StopProposals(d.proposals, d.negotiations[k].idpk),
       sources := if applied then d.sources + [(m.msgId, k)] else d.sources,
       inbound := d.inbound[m.msgId := m.target])
  }

  // ---- Payments ---------------------------------------------------------

  datatype TransferIds = TransferIds(msgId: string, idpk: string)

  function SentEffect(n: Negotiation, k: nat, idpk: string, quantity: nat): Ledger.Effect {
    Ledger.Effect(n.cycle, Ledger.Given(idpk), Ledger.PaymentSent, Some(k), 0 - quantity, 0)
  }

  /** The payment of a confirmed take goes out once. */
  function PayTake(d: Desk, k: nat, ids: TransferIds): Result<(Desk, bool), Error>
    requires k < |d.negotiations|
  {
    var n := d.negotiations[k];
    if n.direction != Take then Err(NotTake)
    else if n.status !in {CONFIRMED, PAID} then Err(NotConfirmed)
    else if n.payment.Some? then
      (if EffectFor(Effects(d), k, Ledger.PaymentSent).None? || !(exists t | t in d.transfers :: n.latest == Some(t.msgId))
       then Err(InconsistentPayment) else Ok((d, false)))
    else if n.energy.None? || n.price.None? then Err(NotConfirmed)
    else if n.latest.None? then Err(NoConfirmationId)
    else
      var quantity := ExpectedPayment(n.energy.value, n.price.value);
      match Post(d.book, SentEffect(n, k, ids.idpk, quantity))
      case Err(e) => Err(e)
      case Ok((book, applied)) =>
        if !applied then Err(PaymentExists)
        else Ok((d.(book := book,
                    negotiations := d.negotiations[k := n.(payment := Some(quantity), latest := Some(ids.msgId))],
                    transfers := d.transfers + [Transfer(ids.msgId, ids.idpk, n.latest.value, quantity)]), true))
  }

  datatype Payment = Payment(cycle: string, idpk: string, msgId: string, becauseOf: string, quantity: int)

  function ReceivedEffect(p: Payment, k: nat): Ledger.Effect {
    Ledger.Effect(p.cycle, Ledger.Given(p.idpk), Ledger.PaymentReceived, Some(k), p.quantity, 0)
  }

  function PaymentMismatch(d: Desk, p: Payment, k: nat): Option<Error>
    requires k < |d.negotiations|
  {
    var n := d.negotiations[k];
    if n.cycle != p.cycle then Some(CycleMismatch)
    else if n.direction != Give then Some(DirectionMismatch)
    else if n.status !in {CONFIRMED, PAID} && EffectFor(Effects(d), k, Ledger.GiveConfirmed).None? then Some(NotConfirmed)
    else if n.energy.None? || n.status == REJECTED || n.price.None? then Some(NotConfirmed)
    else if p.quantity != ExpectedPayment(n.energy.value, n.price.value) then Some(WrongAmount)
    else if n.payment.Some? && EffectFor(Effects(d), k, Ledger.PaymentReceived).None? then Some(InconsistentPayment)
    else None
  }

  /** A timed out negotiation is confirmed again before it is paid. */
  function ToPaid(n: Negotiation, quantity: nat, now: int): Result<Negotiation, Error> {
    match (if n.status in {CONFIRMED, PAID} then Ok(n) else Transition(n, CONFIRMED, now))
    case Err(e) => Err(e)
    case Ok(n1) => Transition(n1.(payment := Some(quantity)), PAID, now)
  }

  function ReceivePayment(d: Desk, p: Payment, now: int): Result<(Desk, bool), Error> {
    if p.quantity < 0 then Err(NegativePayment)
    else match ConfirmationNegotiation(d, p.becauseOf)
      case None => Err(UnknownTarget)
      case Some(k) =>
        if PaymentMismatch(d, p, k).Some? then Err(PaymentMismatch(d, p, k).value)
        else if d.negotiations[k].payment.Some? then Ok((d, false))
        else BookPayment(d, p, k, now)
  }

  function BookPayment(d: Desk, p: Payment, k: nat, now: int): Result<(Desk, bool), Error>
    requires k < |d.negotiations| && p.quantity >= 0
  {
    match Post(d.book, ReceivedEffect(p, k))
    case Err(e) => Err(e)
    case Ok((book, applied)) =>
      if !applied then Ok((d, false))
      else match ToPaid(d.negotiations[k], p.quantity, now)
        case Err(e) => Err(e)
        case Ok(n') =>
          Ok((d.(book := book, negotiations := d.negotiations[k := n'],
                 proposals := StopProposals(d.proposals, n'.idpk)), true))
  }

  // ---- Proposals --------------------------------------------------------

  datatype Draft = Draft(cycle: string, direction: Direction, quantity: int, price: int, inWindow: bool)

  function DraftProblem(d: Desk, f: Draft): Option<Error> {
    if f.cycle !in d.plans || !f.inWindow then Some(CycleMismatch)
    else if f.quantity <= 0 then Some(NotPositive)
    else if f.price < 0 then Some(NegativePrice)
    else match SettlementPrice(d.plans[f.cycle], Give)
      case None => Some(IncompleteStatus)
      case Some(cap) =>
        if f.price > cap then Some(PriceDiffers)
        else if f.direction == Give && f.quantity > RemainingSellable(d, d.plans[f.cycle], f.cycle) then Some(OverCapacity)
        else None
  }

  function Propose(d: Desk, f: Draft, ids: TransferIds): Result<Desk, Error> {
    if DraftProblem(d, f).Some? then Err(DraftProblem(d, f).value)
    else if FindByIdpk(d.negotiations, ids.idpk).Some? then Err(DuplicateIdpk)
    else Ok(d.(negotiations := d.negotiations
                 + [Negotiation(f.cycle, ids.idpk, f.direction, f.quantity, PENDING_PUBLICATION, None, Some(ids.msgId), None, None, None)],
               proposals := d.proposals + [Proposal(ids.msgId, ids.idpk, f.cycle, true)]))
  }

  /** A proposal of the central's own. */
  datatype InboundProposal = InboundProposal(
    cycle: string, idpk: string, msgId: string, direction: Direction, quantity: int)

  function Received(m: InboundProposal, now: int): Negotiation {
    Negotiation(m.cycle, m.idpk, m.direction, m.quantity, PROPOSED, Some(now + ANSWER_SECONDS * SECOND),
                Some(m.msgId), None, None, None)
  }

  function ReceiveProposal(d: Desk, m: InboundProposal, now: int): Desk {
    var d1 := d.(book := Ledger.WithCycle(d.book, m.cycle));
    if FindByIdpk(d.negotiations, m.idpk).Some? then d1
    else d1.(negotiations := d.negotiations + [Received(m, now)])
  }

  // ---- The listing of proposals -----------------------------------------

  datatype CycleEnd = CycleEnd(validUntil: Option<int>, closed: bool)

  predicate CycleOver(ends: map<string, CycleEnd>, cycle: string, now: int) {
    cycle !in ends || ends[cycle].validUntil.None? || ends[cycle].closed || now >= ends[cycle].validUntil.value
  }

  function EndOf(ends: map<string, CycleEnd>, cycle: string, now: int): Option<int> {
    if cycle in ends then ends[cycle].validUntil else Some(now)
  }

  predicate Unanswered(s: Status) { s in {PENDING_PUBLICATION, PROPOSED, ACKNOWLEDGED} }

  /** A proposal of an ended cycle is not sent, and its unanswered negotiation times out as of the cycle's end. */
  function ListOne(d: Desk, i: nat, ends: map<string, CycleEnd>, now: int): (d': Desk)
    requires i < |d.proposals|
    ensures |d'.proposals| == |d.proposals| && |d'.negotiations| == |d.negotiations|
  {
    var p := d.proposals[i];
    if !p.required || !CycleOver(ends, p.cycle, now) then d
    else
      var d1 := d.(proposals := d.proposals[i := p.(required := false)]);
      var k := FindByIdpk(d.negotiations, p.idpk);
      if k.None? || !Unanswered(d.negotiations[k.value].status) then d1
      else d1.(negotiations := d.negotiations[k.value :=
                 d.negotiations[k.value].(status := TIMEOUT, deadline := EndOf(ends, p.cycle, now))])
  }

  function ListFirst(d: Desk, n: nat, ends: map<string, CycleEnd>, now: int): (d': Desk)
    requires n <= |d.proposals|
    ensures |d'.proposals| == |d.proposals| && |d'.negotiations| == |d.negotiations|
  {
    if n == 0 then d else ListOne(ListFirst(d, n - 1, ends, now), n - 1, ends, now)
  }

  /** A deadline that passed; a confirmed take waits for nobody. */
  function Expired(n: Negotiation, now: int): Negotiation {
    if n.deadline.None? || n.deadline.value > now || n.status !in {PROPOSED, ACKNOWLEDGED, CONFIRMED} then n
    else if n.status == CONFIRMED && n.direction == Take then n.(deadline := None)
    else n.(status := TIMEOUT)
  }

  /** How many of the negotiations time out now. */
  function TimedOut(ns: seq<Negotiation>, now: int): nat {
    if ns == [] then 0
    else
      var n := ns[|ns| - 1];
      TimedOut(ns[..|ns| - 1], now) + (if Expired(n, now).status != n.status then 1 else 0)
  }

  function ExpireAll(ns: seq<Negotiation>, now: int): seq<Negotiation> {
    seq(|ns|, i requires 0 <= i < |ns| => Expired(ns[i], now))
  }

  // ---- The rows as an object --------------------------------------------

  class NegotiationDesk {
    var book: Ledger.Book
    var plans: map<string, Plan>
    var negotiations: seq<Negotiation>
    var proposals: seq<Proposal>
    var transfers: seq<Transfer>
    var sources: seq<(string, nat)>
    var inbound: map<string, string>

    function State(): Desk reads this { Desk(book, plans, negotiations, proposals, transfers, sources, inbound) }

    constructor (d: Desk)
      ensures State() == d
    {
      book, plans, negotiations, proposals := d.book, d.plans, d.negotiations, d.proposals;
      transfers, sources, inbound := d.transfers, d.sources, d.inbound;
    }

    method MeasureSoldEnergy(cycle: string) returns (total: nat)
      ensures total == SoldEnergy(Effects(State()), cycle)
    {
      total := 0;
      for i := 0 to |book.entries|
        invariant total == SoldEnergy(LedgerLaws.Business(book.entries[..i]), cycle)
      {
        var e := book.entries[i].effect;
        SoldWithOneMore(book.entries, i, cycle);
        if e.cycle == cycle && e.operation == Ledger.GiveConfirmed && e.energy < 0 {
          total := total - e.energy;
        }
      }
      assert book.entries[..|book.entries|] == book.entries;
    }

    /** Ok tells whether the state changed; Err leaves it. */
    method TransitionNegotiation(k: nat, s': Status, now: int) returns (r: Result<bool, Error>)
      requires k < |negotiations|
      modifies this`negotiations
      ensures r.Ok? ==> Transition(old(negotiations)[k], s', now).Ok?
                        && negotiations == old(negotiations)[k := Transition(old(negotiations)[k], s', now).value]
      ensures r.Ok? ==> (r.value <==> old(negotiations)[k].status != negotiations[k].status)
      ensures r.Err? ==> Transition(old(negotiations)[k], s', now) == Err(r.error) && negotiations == old(negotiations)
    {
      var n := negotiations[k];
      if n.status in {TIMEOUT, REJECTED, PAID} && s' in {ACKNOWLEDGED, PROPOSED} {
        return Ok(false);
      }
      if n.status == s' {
        return Ok(false);
      }
      if Rank(n.status).Some? && Rank(s').Some? && Rank(s').value < Rank(n.status).value {
        return Ok(false);
      }
      if !Allowed(n.status, s') {
        return Err(InvalidTransition);
      }
      n := n.(status := s');
      match s' {
        case PENDING_PUBLICATION | PAID | REJECTED =>
          n := n.(deadline := None);
        case PROPOSED =>
          n := n.(deadline := Some(now + ANSWER_SECONDS * SECOND));
        case ACKNOWLEDGED =>
          if n.deadline.None? {
            n := n.(deadline := Some(now + ANSWER_SECONDS * SECOND));
          }
        case CONFIRMED =>
          n := n.(deadline := if n.direction == Give then Some(now + ANSWER_SECONDS * SECOND) else None);
        case TIMEOUT =>
      }
      negotiations := negotiations[k := n];
      return Ok(true);
    }

    /** Ok tells whether the energy was booked now; Err is an exception, and the caller rolls back. */
    method ProcessNegotiationConfirmation(m: Confirmation, now: int) returns (r: Result<bool, Error>)
      modifies this
      ensures r.Ok? ==> Confirm(old(State()), m, now) == Ok((State(), r.value))
      ensures r.Err? ==> Confirm(old(State()), m, now) == Err(r.error)
    {
      if m.energy <= 0 {
        return Err(NotPositive);
      }
      if m.price < 0 {
        return Err(NegativePrice);
      }
      var found := ProposalNegotiation(State(), m.target);
      if found.None? {
        return Err(UnknownTarget);
      }
      var k := found.value;
      var mismatch := Mismatch(State(), m, negotiations[k]);
      if mismatch.Some? {
        return Err(mismatch.value);
      }
      ghost var before := State();
      var booked := BookConfirmation(m, k);
      if booked.Err? {
        return Err(booked.error);
      }
      assert State() == before.(book := book);
      r := AdoptConfirmation(m, k, booked.value, now);
    }

    method BookConfirmation(m: Confirmation, k: nat) returns (r: Result<bool, Error>)
      requires k < |negotiations|
      modifies this`book
      ensures r.Ok? ==> Booked(old(State()), m, k) == Ok((book, r.value))
      ensures r.Err? ==> Booked(old(State()), m, k) == Err(r.error) && book == old(book)
    {
      var existing := EffectFor(Effects(State()), k, ConfirmOperation(m.direction));
      if existing.Some? {
        if existing.value.energy != EnergyDelta(m.direction, m.energy) {
          return Err(EnergyDiffers);
        }
        if negotiations[k].price.Some? && negotiations[k].price.value != m.price {
          return Err(ConfirmedPriceDiffers);
        }
        return Ok(false);
      }
      var problem := CapacityProblem(State(), m);
      if problem.Some? {
        return Err(problem.value);
      }
      var posted := Post(book, ConfirmEffect(m, k));
      if posted.Err? {
        return Err(posted.error);
      }
      book := posted.value.0;
      return Ok(posted.value.1);
    }

    method AdoptConfirmation(m: Confirmation, k: nat, applied: bool, now: int) returns (r: Result<bool, Error>)
      requires k < |negotiations|
      modifies this
      ensures r.Ok? ==> Adopt(old(State()), m, k, old(book), applied, now) == Ok((State(), r.value))
      ensures r.Err? ==> Adopt(old(State()), m, k, old(book), applied, now) == Err(r.error)
    {
      ghost var d0 := State();
      var idpk := negotiations[k].idpk;
      negotiations := negotiations[k := negotiations[k].(energy := Some(m.energy), price := Some(m.price))];
      var moved := TransitionNegotiation(k, CONFIRMED, now);
      if moved.Err? {
        return Err(moved.error);
      }
      ghost var n' := negotiations[k];
      assert negotiations == d0.negotiations[k := n'];
      if negotiations[k].payment.None? {
        negotiations := negotiations[k := negotiations[k].(latest := Some(m.msgId))];
      }
      proposals := StopProposals(proposals, idpk);
      if applied {
        sources := sources + [(m.msgId, k)];
      }
      inbound := inbound[m.msgId := m.target];
      assert State() == Confirmed(d0, m, k, n', d0.book, applied);
      return Ok(applied);
    }

    method EnqueueTakePayment(k: nat, ids: TransferIds) returns (r: Result<bool, Error>)
      requires k < |negotiations|
      modifies this
      ensures r.Ok? ==> PayTake(old(State()), k, ids) == Ok((State(), r.value))
      ensures r.Err? ==> PayTake(old(State()), k, ids) == Err(r.error) && State() == old(State())
    {
      var n := negotiations[k];
      if n.direction != Take {
        return Err(NotTake);
      }
      if n.status != CONFIRMED && n.status != PAID {
        return Err(NotConfirmed);
      }
      if n.payment.Some? {
        if EffectFor(Effects(State()), k, Ledger.PaymentSent).None?
           || !(exists t | t in transfers :: n.latest == Some(t.msgId)) {
          return Err(InconsistentPayment);
        }
        return Ok(false);
      }
      if n.energy.None? || n.price.None? {
        return Err(NotConfirmed);
      }
      if n.latest.None? {
        return Err(NoConfirmationId);
      }
      var quantity := ExpectedPayment(n.energy.value, n.price.value);
      var posted := Post(book, SentEffect(n, k, ids.idpk, quantity));
      if posted.Err? {
        return Err(posted.error);
      }
      if !posted.value.1 {
        return Err(PaymentExists);
      }
      book := posted.value.0;
      transfers := transfers + [Transfer(ids.msgId, ids.idpk, n.latest.value, quantity)];
      negotiations := negotiations[k := n.(payment := Some(quantity), latest := Some(ids.msgId))];
      return Ok(true);
    }

    method ProcessGivePayment(p: Payment, now: int) returns (r: Result<bool, Error>)
      modifies this
      ensures r.Ok? ==> ReceivePayment(old(State()), p, now) == Ok((State(), r.value))
      ensures r.Err? ==> ReceivePayment(old(State()), p, now) == Err(r.error)
    {
      if p.quantity < 0 {
        return Err(NegativePayment);
      }
      var found := ConfirmationNegotiation(State(), p.becauseOf);
      if found.None? {
        return Err(UnknownTarget);
      }
      var k := found.value;
      var mismatch := PaymentMismatch(State(), p, k);
      if mismatch.Some? {
        return Err(mismatch.value);
      }
      if negotiations[k].payment.Some? {
        return Ok(false);
      }
      r := ApplyGivePayment(p, k, now);
    }

    method ApplyGivePayment(p: Payment, k: nat, now: int) returns (r: Result<bool, Error>)
      requires k < |negotiations| && p.quantity >= 0
      modifies this
      ensures r.Ok? ==> BookPayment(old(State()), p, k, now) == Ok((State(), r.value))
      ensures r.Err? ==> BookPayment(old(State()), p, k, now) == Err(r.error)
    {
      ghost var d0 := State();
      var posted := Post(book, ReceivedEffect(p, k));
      if posted.Err? {
        return Err(posted.error);
      }
      if !posted.value.1 {
        return Ok(false);
      }
      book := posted.value.0;
      if negotiations[k].status != CONFIRMED && negotiations[k].status != PAID {
        var again := TransitionNegotiation(k, CONFIRMED, now);
        if again.Err? {
          return Err(again.error);
        }
      }
      ghost var n1 := negotiations[k];
      assert negotiations == d0.negotiations[k := n1];
      proposals := StopProposals(proposals, negotiations[k].idpk);
      negotiations := negotiations[k := negotiations[k].(payment := Some(p.quantity))];
      assert negotiations[k] == n1.(payment := Some(p.quantity));
      var paid := TransitionNegotiation(k, PAID, now);
      if paid.Err? {
        return Err(paid.error);
      }
      assert negotiations == d0.negotiations[k := ToPaid(d0.negotiations[k], p.quantity, now).value];
      return Ok(true);
    }

    method PublishProposal(msgId: string, now: int)
      modifies this`proposals, this`negotiations
      ensures State() == ProposalPublished(old(State()), msgId, now)
    {
      if FindProposal(proposals, msgId).None? {
        return;
      }
      proposals := SendProposal(proposals, msgId);
      var k := FindByLatest(negotiations, msgId);
      if k.Some? && negotiations[k.value].status == PENDING_PUBLICATION {
        var _ := TransitionNegotiation(k.value, PROPOSED, now);
      }
    }

    /** The part of a connector's poll that ends the proposals of ended cycles. */
    method ListOutboundProposals(ends: map<string, CycleEnd>, now: int)
      modifies this`proposals, this`negotiations
      ensures State() == ListFirst(old(State()), |old(proposals)|, ends, now)
    {
      var n := |proposals|;
      for i := 0 to n
        invariant |proposals| == n
        invariant State() == ListFirst(old(State()), i, ends, now)
      {
        var p := proposals[i];
        if p.required && (p.cycle !in ends || ends[p.cycle].validUntil.None? || ends[p.cycle].closed
                          || now >= ends[p.cycle].validUntil.value) {
          proposals := proposals[i := p.(required := false)];
          var k := FindByIdpk(negotiations, p.idpk);
          if k.Some? && Unanswered(negotiations[k.value].status) {
            var limit := if p.cycle in ends then ends[p.cycle].validUntil else Some(now);
            TimeOutAt(k.value, limit, now);
          }
        }
      }
    }

    method TimeOutAt(k: nat, limit: Option<int>, now: int)
      requires k < |negotiations| && Unanswered(negotiations[k].status)
      modifies this`negotiations
      ensures negotiations == old(negotiations)[k := old(negotiations)[k].(status := TIMEOUT, deadline := limit)]
    {
      negotiations := negotiations[k := negotiations[k].(deadline := limit)];
      var _ := TransitionNegotiation(k, TIMEOUT, now);
    }

    method ReceiveNegotiationProposal(m: InboundProposal, now: int) returns (created: bool)
      modifies this`book, this`negotiations
      ensures State() == ReceiveProposal(old(State()), m, now)
      ensures created <==> FindByIdpk(old(negotiations), m.idpk).None?
    {
      book := Ledger.WithCycle(book, m.cycle);
      if FindByIdpk(negotiations, m.idpk).Some? {
        return false;
      }
      negotiations := negotiations + [Received(m, now)];
      return true;
    }

    method ProcessExpiredNegotiations(now: int) returns (timedOut: nat)
      modifies this`negotiations
      ensures negotiations == ExpireAll(old(negotiations), now)
      ensures timedOut == TimedOut(old(negotiations), now)
    {
      timedOut := 0;
      for i := 0 to |negotiations|
        invariant timedOut == TimedOut(old(negotiations)[..i], now)
        invariant |negotiations| == |old(negotiations)|
        invariant forall j | 0 <= j < |negotiations| ::
          negotiations[j] == if j < i then Expired(old(negotiations)[j], now) else old(negotiations)[j]
      {
        var n := negotiations[i];
        assert old(negotiations)[..i + 1][..i] == old(negotiations)[..i];
        if n.deadline.Some? && n.deadline.value <= now && n.status in {PROPOSED, ACKNOWLEDGED, CONFIRMED} {
          if n.status == CONFIRMED && n.direction == Take {
            negotiations := negotiations[i := n.(deadline := None)];
          } else {
            var changed := TransitionNegotiation(i, TIMEOUT, now);
            if changed == Ok(true) {
              timedOut := timedOut + 1;
            }
          }
        }
      }
      assert old(negotiations)[..|old(negotiations)|] == old(negotiations);
    }
  }
}

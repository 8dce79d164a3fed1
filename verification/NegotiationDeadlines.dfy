/**
 * How the rows of negotiations evolve over every run: what is paid or rejected stays so,
 * and every deadline has a step of its own negotiation behind it.
 */
module NegotiationDeadlines {
  import opened Common
  import Ledger
  import opened N = Negotiations
  import opened NegotiationRuns

  // ---- Proposals and their negotiations ---------------------------------

  /** An idpk names one row, and a proposal has the cycle of the row that it names. */
  ghost predicate Linked(d: Desk) {
    && (forall k | 0 <= k < |d.negotiations| :: FindByIdpk(d.negotiations, d.negotiations[k].idpk) == Some(k))
    && (forall i | 0 <= i < |d.proposals| :: NamesRow(d.negotiations, d.proposals[i]))
  }

  predicate NamesRow(ns: seq<Negotiation>, p: Proposal) {
    var k := FindByIdpk(ns, p.idpk);
    k.Some? && ns[k.value].cycle == p.cycle
  }

  predicate SameNames(n: Negotiation, n': Negotiation) {
    n'.cycle == n.cycle && n'.idpk == n.idpk && n'.direction == n.direction
  }

  ghost predicate AllSameNames(ns: seq<Negotiation>, ns': seq<Negotiation>) {
    |ns| <= |ns'| && forall k | 0 <= k < |ns| :: SameNames(ns[k], ns'[k])
  }

  /** Every proposal was one before, or is of an existing row. */
  ghost predicate ProposalsOf(d: Desk, d': Desk) {
    forall i | 0 <= i < |d'.proposals| ::
      || (i < |d.proposals| && d'.proposals[i].idpk == d.proposals[i].idpk && d'.proposals[i].cycle == d.proposals[i].cycle)
      || (exists k | 0 <= k < |d'.negotiations| ::
            d'.proposals[i].idpk == d'.negotiations[k].idpk && d'.proposals[i].cycle == d'.negotiations[k].cycle)
  }

  /** At most one row is new, under a new idpk. */
  ghost predicate NewUnderNewName(ns: seq<Negotiation>, ns': seq<Negotiation>) {
    |ns'| == |ns| || (|ns'| == |ns| + 1 && FindByIdpk(ns, ns'[|ns|].idpk).None?)
  }

  lemma {:induction false} SameNamesFindTheSame(ns: seq<Negotiation>, ns': seq<Negotiation>, idpk: string)
    requires |ns| == |ns'| && AllSameNames(ns, ns')
    ensures FindByIdpk(ns', idpk) == FindByIdpk(ns, idpk)
  {
    if ns != [] {
      SameNamesFindTheSame(ns[..|ns| - 1], ns'[..|ns| - 1], idpk);
    }
  }

  lemma FindAmongMore(ns: seq<Negotiation>, ns': seq<Negotiation>, idpk: string)
    requires AllSameNames(ns, ns') && NewUnderNewName(ns, ns')
    ensures FindByIdpk(ns, idpk).Some? ==> FindByIdpk(ns', idpk) == FindByIdpk(ns, idpk)
    ensures |ns'| > |ns| ==> FindByIdpk(ns', ns'[|ns|].idpk) == Some(|ns|)
  {
    SameNamesFindTheSame(ns, ns'[..|ns|], idpk);
    if |ns'| > |ns| {
      SameNamesFindTheSame(ns, ns'[..|ns|], ns'[|ns|].idpk);
    } else {
      assert ns'[..|ns|] == ns';
    }
  }

  lemma LinkedStays(d: Desk, d': Desk)
    requires Linked(d) && AllSameNames(d.negotiations, d'.negotiations)
    requires NewUnderNewName(d.negotiations, d'.negotiations) && ProposalsOf(d, d')
    ensures Linked(d')
  {
    var ns, ns' := d.negotiations, d'.negotiations;
    forall k | 0 <= k < |ns'| ensures FindByIdpk(ns', ns'[k].idpk) == Some(k) {
      if k < |ns| {
        assert SameNames(ns[k], ns'[k]);
      }
      FindAmongMore(ns, ns', ns'[k].idpk);
    }
    forall i | 0 <= i < |d'.proposals| ensures NamesRow(ns', d'.proposals[i]) {
      var p := d'.proposals[i];
      if i < |d.proposals| && p.idpk == d.proposals[i].idpk && p.cycle == d.proposals[i].cycle {
        FindAmongMore(ns, ns', p.idpk);
        assert NamesRow(ns, d.proposals[i]);
        var k := FindByIdpk(ns, p.idpk).value;
        assert SameNames(ns[k], ns'[k]);
      }
    }
  }

  // ---- The listing of proposals -----------------------------------------

  ghost predicate Waiting(ps: seq<Proposal>, n: nat, idpk: string)
    requires n <= |ps|
  {
    exists i | 0 <= i < n :: ps[i].required && ps[i].idpk == idpk
  }

  function EndedWith(n: Negotiation, ends: map<string, CycleEnd>, now: int): Negotiation {
    n.(status := TIMEOUT, deadline := EndOf(ends, n.cycle, now))
  }

  ghost function RowAfter(ps: seq<Proposal>, n: nat, row: Negotiation, ends: map<string, CycleEnd>, now: int): Negotiation
    requires n <= |ps|
  {
    if Unanswered(row.status) && CycleOver(ends, row.cycle, now) && Waiting(ps, n, row.idpk) then EndedWith(row, ends, now)
    else row
  }

  function ProposalAfter(p: Proposal, seen: bool, ends: map<string, CycleEnd>, now: int): Proposal {
    if seen && CycleOver(ends, p.cycle, now) then p.(required := false) else p
  }

  ghost predicate RowsListed(d: Desk, d': Desk, n: nat, ends: map<string, CycleEnd>, now: int)
    requires n <= |d.proposals|
  {
    && |d'.negotiations| == |d.negotiations|
    && forall k | 0 <= k < |d.negotiations| ::
         d'.negotiations[k] == RowAfter(d.proposals, n, d.negotiations[k], ends, now)
  }

  ghost predicate ProposalsListed(d: Desk, d': Desk, n: nat, ends: map<string, CycleEnd>, now: int)
    requires n <= |d.proposals|
  {
    && |d'.proposals| == |d.proposals|
    && forall i | 0 <= i < |d.proposals| :: d'.proposals[i] == ProposalAfter(d.proposals[i], i < n, ends, now)
  }

  /** A listed proposal of an ended cycle waits no longer. */
  lemma ProposalsOneMore(d: Desk, d1: Desk, n: nat, ends: map<string, CycleEnd>, now: int)
    requires n < |d.proposals| && ProposalsListed(d, d1, n, ends, now)
    ensures ProposalsListed(d, ListOne(d1, n, ends, now), n + 1, ends, now)
  {
  }

  lemma RowOneMore(ps: seq<Proposal>, n: nat, row: Negotiation, ends: map<string, CycleEnd>, now: int)
    requires n < |ps|
    ensures RowAfter(ps, n + 1, row, ends, now)
            == if ps[n].required && ps[n].idpk == row.idpk && CycleOver(ends, row.cycle, now) && Unanswered(row.status)
               then EndedWith(row, ends, now) else RowAfter(ps, n, row, ends, now)
  {
  }

  /** The row that the listing finds is the only one under the proposal's idpk. */
  lemma NamedAlone(d: Desk, n: nat, k: nat)
    requires Linked(d) && n < |d.proposals| && k < |d.negotiations|
    ensures var p, found := d.proposals[n], FindByIdpk(d.negotiations, d.proposals[n].idpk);
            && found.Some? && d.negotiations[found.value].cycle == p.cycle
            && (p.idpk == d.negotiations[k].idpk <==> k == found.value)
  {
    assert NamesRow(d.negotiations, d.proposals[n]);
  }

  lemma ListOneChanges(d1: Desk, n: nat, ends: map<string, CycleEnd>, now: int, k: nat)
    requires n < |d1.proposals| && k < |d1.negotiations|
    ensures var p, row := d1.proposals[n], d1.negotiations[k];
            ListOne(d1, n, ends, now).negotiations[k]
            == if p.required && CycleOver(ends, p.cycle, now) && FindByIdpk(d1.negotiations, p.idpk) == Some(k) && Unanswered(row.status)
               then row.(status := TIMEOUT, deadline := EndOf(ends, p.cycle, now)) else row
  {
  }

  lemma RowsOneMore(d: Desk, d1: Desk, n: nat, ends: map<string, CycleEnd>, now: int)
    requires Linked(d) && n < |d.proposals| && RowsListed(d, d1, n, ends, now) && ProposalsListed(d, d1, n, ends, now)
    ensures RowsListed(d, ListOne(d1, n, ends, now), n + 1, ends, now)
  {
    SameNamesFindTheSame(d.negotiations, d1.negotiations, d.proposals[n].idpk);
    forall k | 0 <= k < |d.negotiations|
      ensures ListOne(d1, n, ends, now).negotiations[k] == RowAfter(d.proposals, n + 1, d.negotiations[k], ends, now)
    {
      NamedAlone(d, n, k);
      RowOneMore(d.proposals, n, d.negotiations[k], ends, now);
      ListOneChanges(d1, n, ends, now, k);
    }
  }

  /** What the first n proposals of the listing leave. */
  ghost predicate Listed(d: Desk, d': Desk, n: nat, ends: map<string, CycleEnd>, now: int)
    requires n <= |d.proposals|
  {
    RowsListed(d, d', n, ends, now) && ProposalsListed(d, d', n, ends, now)
  }

  lemma ListedOneMore(d: Desk, d1: Desk, n: nat, ends: map<string, CycleEnd>, now: int)
    requires Linked(d) && n < |d.proposals| && Listed(d, d1, n, ends, now)
    ensures Listed(d, ListOne(d1, n, ends, now), n + 1, ends, now)
  {
    RowsOneMore(d, d1, n, ends, now);
    ProposalsOneMore(d, d1, n, ends, now);
  }

  ghost predicate ListsFirst(d: Desk, n: nat, ends: map<string, CycleEnd>, now: int)
    requires n <= |d.proposals|
  {
    Listed(d, ListFirst(d, n, ends, now), n, ends, now)
  }

  lemma NothingListedYet(d: Desk, ends: map<string, CycleEnd>, now: int)
    ensures ListsFirst(d, 0, ends, now)
  {
    assert RowsListed(d, d, 0, ends, now) && ProposalsListed(d, d, 0, ends, now);
  }

  lemma ListsOneMore(d: Desk, n: nat, ends: map<string, CycleEnd>, now: int)
    requires Linked(d) && n < |d.proposals| && ListsFirst(d, n, ends, now)
    ensures ListsFirst(d, n + 1, ends, now)
  {
    var d1 := ListFirst(d, n, ends, now);
    ListedOneMore(d, d1, n, ends, now);
    assert ListFirst(d, n + 1, ends, now) == ListOne(d1, n, ends, now);
  }

  lemma ListFirstIsListed(d: Desk, n: nat, ends: map<string, CycleEnd>, now: int)
    requires Linked(d) && n <= |d.proposals|
    ensures ListsFirst(d, n, ends, now)
  {
    NothingListedYet(d, ends, now);
    for m := 0 to n
      invariant ListsFirst(d, m, ends, now)
    {
      ListsOneMore(d, m, ends, now);
    }
  }

  // ---- How a negotiation evolves ----------------------------------------

  predicate Over(n: Negotiation) { n.status in {PAID, REJECTED} }

  /** Who has something to wait for. */
  predicate Open(n: Negotiation) { n.status in {PROPOSED, ACKNOWLEDGED} || (n.status == CONFIRMED && n.direction == Give) }

  predicate Earned(n: Negotiation) { n.status in {CONFIRMED, PAID} ==> n.energy.Some? }

  /** Deadlines are for those who wait; a negotiation that timed out keeps what it had. */
  predicate Shaped(n: Negotiation) { n.status != TIMEOUT ==> (n.deadline.Some? <==> Open(n)) }

  predicate SameOutcome(n: Negotiation, n': Negotiation) {
    n'.status == n.status && n'.energy == n.energy && n'.price == n.price && n'.deadline == n.deadline
  }

  const THIRTY_SECONDS := ANSWER_SECONDS * N.SECOND

  /** A publication, the ack of an unpublished proposal, or a give confirmation. */
  predicate OpensAnew(s: Step, n: Negotiation, n': Negotiation) {
    || (s.DoPublished? && n.status == PENDING_PUBLICATION && n'.status == PROPOSED)
    || (s.DoAck? && n.status == PENDING_PUBLICATION && n'.status == ACKNOWLEDGED)
    || (s.DoConfirm? && n.status in {PENDING_PUBLICATION, PROPOSED, ACKNOWLEDGED, TIMEOUT}
        && n'.status == CONFIRMED && n.direction == Give)
  }

  predicate Opened(s: Step, n: Negotiation, n': Negotiation) {
    OpensAnew(s, n, n') && n'.deadline == Some(s.now + THIRTY_SECONDS)
  }

  /** The waiting is over and the deadline stays. */
  predicate Expires(s: Step, n: Negotiation, n': Negotiation) {
    && s.DoTimeouts? && Open(n) && n.deadline.Some? && n.deadline.value <= s.now
    && n'.status == TIMEOUT && n'.deadline == n.deadline
  }

  /** The cycle is over and its end becomes the deadline. */
  predicate Ends(s: Step, n: Negotiation, n': Negotiation) {
    s.DoPoll? && Unanswered(n.status) && CycleOver(s.ends, n.cycle, s.now) && n' == EndedWith(n, s.ends, s.now)
  }

  predicate Settles(n: Negotiation, n': Negotiation) { n'.status != TIMEOUT && !Open(n') }

  predicate Waits(n: Negotiation, n': Negotiation) {
    n'.deadline == n.deadline && (n'.status == n.status || (n.status == PROPOSED && n'.status == ACKNOWLEDGED))
  }

  predicate Evolves(s: Step, n: Negotiation, n': Negotiation) {
    && SameNames(n, n')
    && (Earned(n) && Shaped(n) ==>
          && Earned(n') && Shaped(n') && (Over(n) ==> SameOutcome(n, n'))
          && (Waits(n, n') || Settles(n, n') || Opened(s, n, n') || Expires(s, n, n') || Ends(s, n, n')))
  }

  predicate Begins(s: Step, n': Negotiation) {
    || (s.DoPropose? && n'.status == PENDING_PUBLICATION && n'.deadline.None?)
    || (s.DoInbound? && n' == N.Received(s.proposal, s.now))
  }

  ghost predicate AllEvolve(s: Step, d: Desk, d': Desk) {
    && |d.negotiations| <= |d'.negotiations|
    && (forall k | 0 <= k < |d.negotiations| :: Evolves(s, d.negotiations[k], d'.negotiations[k]))
    && (forall k | |d.negotiations| <= k < |d'.negotiations| :: Begins(s, d'.negotiations[k]))
  }

  /** Only row k differs, and it evolves. */
  lemma OneRowEvolves(s: Step, d: Desk, d': Desk, k: nat)
    requires k < |d.negotiations| && |d'.negotiations| == |d.negotiations|
    requires forall j | 0 <= j < |d.negotiations| && j != k :: d'.negotiations[j] == d.negotiations[j]
    requires Evolves(s, d.negotiations[k], d'.negotiations[k])
    ensures AllEvolve(s, d, d')
  {
  }

  lemma AdoptEvolves(w: World, s: Step, k: nat, book: Ledger.Book, applied: bool)
    requires s.DoConfirm? && k < |w.desk.negotiations| && Adopt(w.desk, s.m, k, book, applied, s.now).Ok?
    requires var n := w.desk.negotiations[k];
             && n.direction == s.m.direction
             && (applied <==> n.energy.None?) && (!applied ==> n.energy == Some(s.m.energy) && n.price == Some(s.m.price))
    ensures AllEvolve(s, w.desk, Adopt(w.desk, s.m, k, book, applied, s.now).value.0)
    ensures |Adopt(w.desk, s.m, k, book, applied, s.now).value.0.negotiations| == |w.desk.negotiations|
  {
    OneRowEvolves(s, w.desk, Adopt(w.desk, s.m, k, book, applied, s.now).value.0, k);
  }

  lemma ConfirmEvolves(w: World, s: Step)
    requires Inv(w) && s.DoConfirm? && s.m.idpk !in w.claimed && Confirm(w.desk, s.m, s.now).Ok?
    ensures AllEvolve(s, w.desk, Confirm(w.desk, s.m, s.now).value.0)
    ensures |Confirm(w.desk, s.m, s.now).value.0.negotiations| == |w.desk.negotiations|
  {
    var k, book, applied := ConfirmShape(w.desk, s.m, s.now);
    BookedConfirmation(w, s.m, k);
    AdoptEvolves(w, s, k, book, applied);
  }

  /** What is paid out changes neither status nor deadline. */
  lemma PayTakeKeepsStatus(d: Desk, k: nat, ids: TransferIds)
    requires k < |d.negotiations| && PayTake(d, k, ids).Ok?
    ensures var d' := PayTake(d, k, ids).value.0;
            && |d'.negotiations| == |d.negotiations|
            && forall j | 0 <= j < |d.negotiations| ::
                 SameNames(d.negotiations[j], d'.negotiations[j]) && SameOutcome(d.negotiations[j], d'.negotiations[j])
  {
  }

  lemma EvolvesThenSame(s: Step, d: Desk, d1: Desk, d2: Desk)
    requires s.DoConfirm? && AllEvolve(s, d, d1) && |d1.negotiations| == |d.negotiations| == |d2.negotiations|
    requires forall j | 0 <= j < |d1.negotiations| ::
               SameNames(d1.negotiations[j], d2.negotiations[j]) && SameOutcome(d1.negotiations[j], d2.negotiations[j])
    ensures AllEvolve(s, d, d2)
  {
    forall k | 0 <= k < |d.negotiations| ensures Evolves(s, d.negotiations[k], d2.negotiations[k]) {
      assert Evolves(s, d.negotiations[k], d1.negotiations[k]);
      assert SameOutcome(d1.negotiations[k], d2.negotiations[k]);
    }
  }

  lemma ConfirmAndPayEvolves(w: World, s: Step)
    requires Inv(w) && s.DoConfirm? && s.m.idpk !in w.claimed && ConfirmAndPay(w.desk, s.m, s.ids, s.now).Ok?
    ensures AllEvolve(s, w.desk, ConfirmAndPay(w.desk, s.m, s.ids, s.now).value)
  {
    ConfirmEvolves(w, s);
    var (d1, applied) := Confirm(w.desk, s.m, s.now).value;
    var k := ProposalNegotiation(w.desk, s.m.target);
    if applied && s.m.direction == Take && k.Some? && k.value < |d1.negotiations| {
      PayTakeKeepsStatus(d1, k.value, s.ids);
      EvolvesThenSame(s, w.desk, d1, ConfirmAndPay(w.desk, s.m, s.ids, s.now).value);
    }
  }

  lemma PaidEvolves(s: Step, n: Negotiation, quantity: nat, now: int)
    requires ToPaid(n, quantity, now).Ok? && n.energy.Some? && n.status != REJECTED
    ensures Evolves(s, n, ToPaid(n, quantity, now).value)
  {
  }

  lemma ReceivedEvolves(d: Desk, s: Step)
    requires s.DoPay? && Paid(d, s.p, s.now).Ok?
    ensures AllEvolve(s, d, Paid(d, s.p, s.now).value)
  {
    var k := ConfirmationNegotiation(d, s.p.becauseOf).value;
    var d' := Paid(d, s.p, s.now).value;
    if d' != d {
      PaidEvolves(s, d.negotiations[k], s.p.quantity, s.now);
      OneRowEvolves(s, d, d', k);
    }
  }

  lemma RetryEvolves(d: Desk, s: Step)
    requires s.DoRetry?
    ensures AllEvolve(s, d, DeskStep(d, s))
  {
    if s.k < |d.negotiations| {
      OneRowEvolves(s, d, DeskStep(d, s), s.k);
    }
  }

  lemma TransitionEvolves(s: Step, n: Negotiation, s': Status, now: int)
    requires Transition(n, s', now).Ok?
    requires (s.DoAck? && s' == ACKNOWLEDGED && now == s.now) || s' in {PAID, REJECTED}
    ensures Evolves(s, n, Transition(n, s', now).value)
  {
  }

  lemma MovedEvolves(s: Step, d: Desk, k: nat, s': Status, now: int)
    requires k < |d.negotiations|
    requires (s.DoAck? && s' == ACKNOWLEDGED && now == s.now) || s' in {PAID, REJECTED}
    ensures AllEvolve(s, d, Moved(d, k, s', now))
  {
    if Transition(d.negotiations[k], s', now).Ok? {
      TransitionEvolves(s, d.negotiations[k], s', now);
      OneRowEvolves(s, d, Moved(d, k, s', now), k);
    }
  }

  lemma PublicationEvolves(d: Desk, s: Step)
    requires s.DoPublished?
    ensures AllEvolve(s, d, DeskStep(d, s))
  {
    var k := FindByLatest(d.negotiations, s.msgId);
    if k.Some? {
      OneRowEvolves(s, d, DeskStep(d, s), k.value);
    }
  }

  lemma MoveEvolves(d: Desk, s: Step)
    requires s.DoTransferPublished? || s.DoAck? || s.DoNack?
    ensures AllEvolve(s, d, DeskStep(d, s))
  {
    match s
    case DoTransferPublished(msgId, now) =>
      var k := FindByLatest(d.negotiations, msgId);
      if k.Some? { MovedEvolves(s, d, k.value, PAID, now); }
    case DoAck(target, now) =>
      var k := ProposalNegotiation(d, target);
      if k.Some? { MovedEvolves(s, d, k.value, ACKNOWLEDGED, now); }
    case DoNack(target, now) =>
      var k := ProposalNegotiation(d, target);
      if k.Some? { MovedEvolves(s, d, k.value, REJECTED, now); }
  }

  lemma ProposeEvolves(d: Desk, s: Step)
    requires s.DoPropose?
    ensures AllEvolve(s, d, DeskStep(d, s))
  {
  }

  lemma TimeoutsEvolve(d: Desk, s: Step)
    requires s.DoTimeouts?
    ensures AllEvolve(s, d, DeskStep(d, s))
  {
  }

  lemma ListedRowEvolves(s: Step, ps: seq<Proposal>, n: Negotiation)
    requires s.DoPoll?
    ensures Evolves(s, n, RowAfter(ps, |ps|, n, s.ends, s.now))
  {
  }

  lemma ListedRowsEvolve(s: Step, d: Desk, d': Desk)
    requires s.DoPoll? && RowsListed(d, d', |d.proposals|, s.ends, s.now)
    ensures AllEvolve(s, d, d')
  {
    forall k | 0 <= k < |d.negotiations| ensures Evolves(s, d.negotiations[k], d'.negotiations[k]) {
      ListedRowEvolves(s, d.proposals, d.negotiations[k]);
    }
  }

  lemma PollEvolves(d: Desk, s: Step)
    requires s.DoPoll? && Linked(d)
    ensures AllEvolve(s, d, DeskStep(d, s))
  {
    ListFirstIsListed(d, |d.proposals|, s.ends, s.now);
    ListedRowsEvolve(s, d, DeskStep(d, s));
  }

  lemma InboundEvolves(w: World, s: Step)
    requires s.DoInbound?
    ensures AllEvolve(s, w.desk, Next(w, s).desk)
  {
  }

  lemma SameRowsEvolve(s: Step, d: Desk, d': Desk)
    requires d'.negotiations == d.negotiations
    ensures AllEvolve(s, d, d')
  {
  }

  lemma OtherEvolves(w: World, s: Step)
    requires s.DoOther?
    ensures AllEvolve(s, w.desk, Next(w, s).desk)
  {
    SameRowsEvolve(s, w.desk, Next(w, s).desk);
  }

  lemma DeskStepEvolves(d: Desk, s: Step)
    requires Linked(d) && !s.DoConfirm? && !s.DoPay? && !s.DoOther? && !s.DoInbound?
    ensures AllEvolve(s, d, DeskStep(d, s))
  {
    match s
    case DoPropose(_, _) => ProposeEvolves(d, s);
    case DoRetry(_, _, _) => RetryEvolves(d, s);
    case DoPublished(_, _) => PublicationEvolves(d, s);
    case DoTimeouts(_) => TimeoutsEvolve(d, s);
    case DoPoll(_, _) => PollEvolves(d, s);
    case _ => MoveEvolves(d, s);
  }

  lemma MessageEvolves(w: World, s: Step)
    requires Inv(w) && (s.DoConfirm? || s.DoPay?)
    ensures AllEvolve(s, w.desk, Next(w, s).desk)
  {
    if s.DoConfirm? && s.m.idpk !in w.claimed && ConfirmAndPay(w.desk, s.m, s.ids, s.now).Ok? {
      ConfirmAndPayEvolves(w, s);
    } else if s.DoPay? && s.p.idpk !in w.claimed && Paid(w.desk, s.p, s.now).Ok? {
      ReceivedEvolves(w.desk, s);
    } else {
      SameRowsEvolve(s, w.desk, Next(w, s).desk);
    }
  }

  lemma StepEvolves(w: World, s: Step)
    requires Inv(w) && Linked(w.desk)
    ensures AllEvolve(s, w.desk, Next(w, s).desk)
  {
    match s
    case DoConfirm(_, _, _) => MessageEvolves(w, s);
    case DoPay(_, _) => MessageEvolves(w, s);
    case DoInbound(_, _) => InboundEvolves(w, s);
    case DoOther(_, _) => OtherEvolves(w, s);
    case _ =>
      assert Next(w, s).desk == DeskStep(w.desk, s);
      DeskStepEvolves(w.desk, s);
  }

  // ---- Names over a run -------------------------------------------------

  ghost predicate KeepsNames(d: Desk, d': Desk) {
    NewUnderNewName(d.negotiations, d'.negotiations) && ProposalsOf(d, d')
  }

  lemma ConfirmKeepsNames(d: Desk, m: Confirmation, ids: TransferIds, now: int)
    requires ConfirmAndPay(d, m, ids, now).Ok?
    ensures KeepsNames(d, ConfirmAndPay(d, m, ids, now).value)
  {
    var k, book, applied := ConfirmShape(d, m, now);
    assert Adopt(d, m, k, book, applied, now).value.0.proposals == StopProposals(d.proposals, d.negotiations[k].idpk);
  }

  lemma PayKeepsNames(d: Desk, p: Payment, now: int)
    requires Paid(d, p, now).Ok?
    ensures KeepsNames(d, Paid(d, p, now).value)
  {
  }

  lemma RetryKeepsNames(d: Desk, s: Step)
    requires s.DoRetry?
    ensures KeepsNames(d, DeskStep(d, s))
  {
    if s.k < |d.negotiations| {
      var d' := DeskStep(d, s);
      assert d'.negotiations[s.k].idpk == d.negotiations[s.k].idpk && d'.negotiations[s.k].cycle == d.negotiations[s.k].cycle;
    }
  }

  lemma MoveKeepsNames(d: Desk, s: Step)
    requires s.DoPublished? || s.DoTransferPublished? || s.DoAck? || s.DoNack? || s.DoTimeouts?
    ensures KeepsNames(d, DeskStep(d, s))
  {
  }

  lemma ProposeKeepsNames(d: Desk, s: Step)
    requires s.DoPropose?
    ensures KeepsNames(d, DeskStep(d, s))
  {
    if Propose(d, s.draft, s.ids).Ok? {
      var d' := DeskStep(d, s);
      assert d'.negotiations[|d.negotiations|].idpk == s.ids.idpk;
    }
  }

  lemma PollKeepsNames(d: Desk, s: Step)
    requires s.DoPoll? && Linked(d)
    ensures KeepsNames(d, DeskStep(d, s))
  {
    ListFirstIsListed(d, |d.proposals|, s.ends, s.now);
  }

  lemma DeskStepKeepsNames(d: Desk, s: Step)
    requires Linked(d)
    ensures KeepsNames(d, DeskStep(d, s))
  {
    match s
    case DoPropose(_, _) => ProposeKeepsNames(d, s);
    case DoRetry(_, _, _) => RetryKeepsNames(d, s);
    case DoPoll(_, _) => PollKeepsNames(d, s);
    case DoConfirm(_, _, _) =>
    case DoPay(_, _) =>
    case DoInbound(_, _) =>
    case DoOther(_, _) =>
    case _ => MoveKeepsNames(d, s);
  }

  lemma StepKeepsNames(w: World, s: Step)
    requires Linked(w.desk)
    ensures KeepsNames(w.desk, Next(w, s).desk)
  {
    match s
    case DoConfirm(m, ids, now) =>
      if ConfirmAndPay(w.desk, m, ids, now).Ok? {
        ConfirmKeepsNames(w.desk, m, ids, now);
      }
    case DoPay(p, now) =>
      if Paid(w.desk, p, now).Ok? {
        PayKeepsNames(w.desk, p, now);
      }
    case DoInbound(_, _) =>
    case DoOther(_, _) =>
    case _ => DeskStepKeepsNames(w.desk, s);
  }

  ghost predicate AllInShape(d: Desk) {
    forall k | 0 <= k < |d.negotiations| :: Earned(d.negotiations[k]) && Shaped(d.negotiations[k])
  }

  ghost predicate Good(w: World) { Inv(w) && Linked(w.desk) && AllInShape(w.desk) }

  lemma EvolvedStaysInShape(s: Step, d: Desk, d': Desk)
    requires AllInShape(d) && AllEvolve(s, d, d')
    ensures AllInShape(d')
  {
    forall k | 0 <= k < |d'.negotiations| ensures Earned(d'.negotiations[k]) && Shaped(d'.negotiations[k]) {
      if k < |d.negotiations| {
        assert Evolves(s, d.negotiations[k], d'.negotiations[k]);
      } else {
        assert Begins(s, d'.negotiations[k]);
      }
    }
  }

  lemma EvolvedStaysLinked(s: Step, d: Desk, d': Desk)
    requires Linked(d) && AllEvolve(s, d, d') && KeepsNames(d, d')
    ensures Linked(d')
  {
    forall k | 0 <= k < |d.negotiations| ensures SameNames(d.negotiations[k], d'.negotiations[k]) {
      assert Evolves(s, d.negotiations[k], d'.negotiations[k]);
    }
    LinkedStays(d, d');
  }

  lemma StepStaysGood(w: World, s: Step)
    requires Good(w) && Enabled(w, s)
    ensures Good(Next(w, s)) && AllEvolve(s, w.desk, Next(w, s).desk)
  {
    StepKeepsInv(w, s);
    StepEvolves(w, s);
    StepKeepsNames(w, s);
    EvolvedStaysInShape(s, w.desk, Next(w, s).desk);
    EvolvedStaysLinked(s, w.desk, Next(w, s).desk);
  }

  lemma {:induction false} EveryRunStaysGood(plans: map<string, Plan>, steps: seq<Step>)
    requires Legal(plans, steps)
    ensures Good(NegotiationRuns.Execute(plans, steps))
  {
    if steps == [] {
      StartIsSound(plans);
    } else {
      var n := |steps| - 1;
      LegalPrefix(plans, steps, n);
      EveryRunStaysGood(plans, steps[..n]);
      StepStaysGood(NegotiationRuns.Execute(plans, steps[..n]), steps[n]);
    }
  }

  /** The desks that a run passes, from the empty one on. */
  function Desks(plans: map<string, Plan>, steps: seq<Step>): (ds: seq<Desk>)
    ensures |ds| == |steps| + 1
  {
    seq(|steps| + 1, i requires 0 <= i <= |steps| => NegotiationRuns.Execute(plans, steps[..i]).desk)
  }

  ghost predicate Trace(ds: seq<Desk>, steps: seq<Step>) {
    && |ds| == |steps| + 1 && ds[0].negotiations == []
    && (forall i | 0 <= i < |ds| :: AllInShape(ds[i]))
    && (forall i | 0 <= i < |steps| :: AllEvolve(steps[i], ds[i], ds[i + 1]))
  }

  lemma ExecuteOneMore(plans: map<string, Plan>, steps: seq<Step>, i: nat)
    requires i < |steps|
    ensures NegotiationRuns.Execute(plans, steps[..i + 1]) == Next(NegotiationRuns.Execute(plans, steps[..i]), steps[i])
  {
    assert steps[..i + 1][..i] == steps[..i];
  }

  lemma NextStepEvolves(plans: map<string, Plan>, steps: seq<Step>, s: Step)
    requires Legal(plans, steps) && Enabled(NegotiationRuns.Execute(plans, steps), s)
    ensures var w := NegotiationRuns.Execute(plans, steps); AllEvolve(s, w.desk, Next(w, s).desk)
  {
    EveryRunStaysGood(plans, steps);
    StepStaysGood(NegotiationRuns.Execute(plans, steps), s);
  }

  lemma StepOfRunEvolves(plans: map<string, Plan>, steps: seq<Step>, i: nat)
    requires Legal(plans, steps) && i < |steps|
    ensures var ds := Desks(plans, steps); AllEvolve(steps[i], ds[i], ds[i + 1])
  {
    LegalPrefix(plans, steps, i);
    NextStepEvolves(plans, steps[..i], steps[i]);
    ExecuteOneMore(plans, steps, i);
  }

  lemma RunIsTrace(plans: map<string, Plan>, steps: seq<Step>)
    requires Legal(plans, steps)
    ensures Trace(Desks(plans, steps), steps)
  {
    var ds := Desks(plans, steps);
    forall i | 0 <= i < |ds| ensures AllInShape(ds[i]) {
      LegalPrefix(plans, steps, i);
      EveryRunStaysGood(plans, steps[..i]);
    }
    forall i | 0 <= i < |steps| ensures AllEvolve(steps[i], ds[i], ds[i + 1]) {
      StepOfRunEvolves(plans, steps, i);
    }
  }

  // ---- Paid and rejected negotiations -----------------------------------

  predicate OverAs(d: Desk, k: nat, n: Negotiation) {
    k < |d.negotiations| && Over(n) && SameOutcome(n, d.negotiations[k])
  }

  lemma OneMoreStepStays(s: Step, d: Desk, d': Desk, k: nat, n: Negotiation)
    requires AllInShape(d) && AllEvolve(s, d, d') && OverAs(d, k, n)
    ensures OverAs(d', k, n)
  {
    assert Evolves(s, d.negotiations[k], d'.negotiations[k]);
  }

  lemma OverStays(ds: seq<Desk>, steps: seq<Step>, i: nat, j: nat, k: nat, n: Negotiation)
    requires Trace(ds, steps) && i <= j < |ds| && OverAs(ds[i], k, n)
    ensures OverAs(ds[j], k, n)
  {
    for l := i to j
      invariant OverAs(ds[l], k, n)
    {
      OneMoreStepStays(steps[l], ds[l], ds[l + 1], k, n);
    }
  }

  /** A negotiation that is paid or rejected keeps its status, energy, price and deadline in every continuation. */
  lemma FinalNegotiationsStay(plans: map<string, Plan>, steps: seq<Step>, i: nat, j: nat, k: nat)
    requires Legal(plans, steps) && i <= j <= |steps| && k < |Desks(plans, steps)[i].negotiations|
    requires Over(Desks(plans, steps)[i].negotiations[k])
    ensures OverAs(Desks(plans, steps)[j], k, Desks(plans, steps)[i].negotiations[k])
  {
    RunIsTrace(plans, steps);
    var ds := Desks(plans, steps);
    OverStays(ds, steps, i, j, k, ds[i].negotiations[k]);
  }

  // ---- Where a deadline comes from --------------------------------------

  predicate OpenWith(d: Desk, k: nat, t: int) {
    k < |d.negotiations| && Open(d.negotiations[k]) && d.negotiations[k].deadline == Some(t)
  }

  /** The step makes negotiation k wait until t, thirty seconds after its own instant. */
  predicate SetsDeadline(s: Step, d: Desk, d': Desk, k: nat, t: int) {
    && !OpenWith(d, k, t) && OpenWith(d', k, t)
    && if k < |d.negotiations| then Opened(s, d.negotiations[k], d'.negotiations[k])
       else s.DoInbound? && d'.negotiations[k] == N.Received(s.proposal, s.now)
  }

  lemma NewDeadlineIsSet(s: Step, d: Desk, d': Desk, k: nat, t: int)
    requires AllInShape(d) && AllEvolve(s, d, d') && OpenWith(d', k, t) && !OpenWith(d, k, t)
    ensures SetsDeadline(s, d, d', k, t)
  {
    if k < |d.negotiations| {
      assert Evolves(s, d.negotiations[k], d'.negotiations[k]);
    } else {
      assert Begins(s, d'.negotiations[k]);
    }
  }

  /** Step i sets the deadline t of negotiation k, and through desk n nothing moves it. */
  ghost predicate CauseAt(ds: seq<Desk>, steps: seq<Step>, n: nat, i: nat, k: nat, t: int)
    requires |ds| == |steps| + 1 && i < n < |ds|
  {
    && SetsDeadline(steps[i], ds[i], ds[i + 1], k, t)
    && forall j | i < j <= n :: OpenWith(ds[j], k, t)
  }

  lemma {:induction false} WaitHasCause(ds: seq<Desk>, steps: seq<Step>, n: nat, k: nat, t: int) returns (i: nat)
    requires Trace(ds, steps) && n < |ds| && OpenWith(ds[n], k, t)
    ensures i < n && CauseAt(ds, steps, n, i, k, t)
  {
    if OpenWith(ds[n - 1], k, t) {
      i := WaitHasCause(ds, steps, n - 1, k, t);
    } else {
      i := n - 1;
      NewDeadlineIsSet(steps[i], ds[i], ds[n], k, t);
    }
  }

  /**
   * A negotiation that waits until t began to do so in one step of the run, and has
   * waited until t ever since: no ack, repeat, retry or poll moves the deadline.
   */
  lemma OpenDeadlineHasCause(plans: map<string, Plan>, steps: seq<Step>, k: nat, t: int) returns (i: nat)
    requires Legal(plans, steps) && OpenWith(Desks(plans, steps)[|steps|], k, t)
    ensures i < |steps| && CauseAt(Desks(plans, steps), steps, |steps|, i, k, t)
  {
    RunIsTrace(plans, steps);
    i := WaitHasCause(Desks(plans, steps), steps, |steps|, k, t);
  }

  predicate TimedOutWith(d: Desk, k: nat, t: Option<int>) {
    k < |d.negotiations| && d.negotiations[k].status == TIMEOUT && d.negotiations[k].deadline == t
  }

  /** The negotiation expires, or its cycle ends it. */
  predicate TimesOut(s: Step, d: Desk, d': Desk, k: nat) {
    && k < |d.negotiations| && k < |d'.negotiations|
    && (Expires(s, d.negotiations[k], d'.negotiations[k]) || Ends(s, d.negotiations[k], d'.negotiations[k]))
  }

  lemma NewTimeoutIsSet(s: Step, d: Desk, d': Desk, k: nat, t: Option<int>)
    requires AllInShape(d) && AllEvolve(s, d, d') && TimedOutWith(d', k, t) && !TimedOutWith(d, k, t)
    ensures TimesOut(s, d, d', k)
  {
    assert k >= |d.negotiations| ==> Begins(s, d'.negotiations[k]);
    assert Evolves(s, d.negotiations[k], d'.negotiations[k]);
  }

  /** Step m times negotiation k out, and through desk n it keeps status and deadline. */
  ghost predicate TimeoutAt(ds: seq<Desk>, steps: seq<Step>, n: nat, m: nat, k: nat, t: Option<int>)
    requires |ds| == |steps| + 1 && m < n < |ds|
  {
    && TimesOut(steps[m], ds[m], ds[m + 1], k)
    && forall j | m < j <= n :: TimedOutWith(ds[j], k, t)
  }

  lemma {:induction false} TimeoutHasStep(ds: seq<Desk>, steps: seq<Step>, n: nat, k: nat, t: Option<int>) returns (m: nat)
    requires Trace(ds, steps) && n < |ds| && TimedOutWith(ds[n], k, t)
    ensures m < n && TimeoutAt(ds, steps, n, m, k, t)
  {
    if TimedOutWith(ds[n - 1], k, t) {
      m := TimeoutHasStep(ds, steps, n - 1, k, t);
    } else {
      m := n - 1;
      NewTimeoutIsSet(steps[m], ds[m], ds[n], k, t);
    }
  }

  /** Until step m negotiation k waited for the deadline t that step i had set, and then it is past. */
  ghost predicate RanOut(ds: seq<Desk>, steps: seq<Step>, m: nat, i: nat, k: nat, t: Option<int>)
    requires |ds| == |steps| + 1 && m < |steps|
  {
    steps[m].DoTimeouts? && t.Some? && t.value <= steps[m].now && i < m && CauseAt(ds, steps, m, i, k, t.value)
  }

  /** Step m is a poll after the end of the cycle, which becomes the deadline of an unanswered negotiation. */
  ghost predicate CycleEnded(ds: seq<Desk>, steps: seq<Step>, m: nat, k: nat, t: Option<int>)
    requires |ds| == |steps| + 1 && m < |steps|
  {
    && steps[m].DoPoll? && k < |ds[m].negotiations|
    && var n := ds[m].negotiations[k];
    && Unanswered(n.status) && CycleOver(steps[m].ends, n.cycle, steps[m].now)
    && t == EndOf(steps[m].ends, n.cycle, steps[m].now)
  }

  lemma TimeoutOfTrace(ds: seq<Desk>, steps: seq<Step>, k: nat, t: Option<int>) returns (m: nat, i: nat)
    requires Trace(ds, steps) && TimedOutWith(ds[|steps|], k, t)
    ensures m < |steps| && TimeoutAt(ds, steps, |steps|, m, k, t)
    ensures if steps[m].DoPoll? then CycleEnded(ds, steps, m, k, t) else RanOut(ds, steps, m, i, k, t)
  {
    m := TimeoutHasStep(ds, steps, |steps|, k, t);
    i := 0;
    assert TimedOutWith(ds[m + 1], k, t);
    if Expires(steps[m], ds[m].negotiations[k], ds[m + 1].negotiations[k]) {
      i := WaitHasCause(ds, steps, m, k, t.value);
    }
  }

  /**
   * A negotiation that timed out did so in one step and has its deadline since: the one
   * it had been waiting for, or the end of its cycle exactly when a poll ended it.
   */
  lemma TimeoutHasCause(plans: map<string, Plan>, steps: seq<Step>, k: nat, t: Option<int>) returns (m: nat, i: nat)
    requires Legal(plans, steps) && TimedOutWith(Desks(plans, steps)[|steps|], k, t)
    ensures m < |steps| && TimeoutAt(Desks(plans, steps), steps, |steps|, m, k, t)
    ensures if steps[m].DoPoll? then CycleEnded(Desks(plans, steps), steps, m, k, t)
            else RanOut(Desks(plans, steps), steps, m, i, k, t)
  {
    RunIsTrace(plans, steps);
    m, i := TimeoutOfTrace(Desks(plans, steps), steps, k, t);
  }

  lemma RunIsLinked(plans: map<string, Plan>, steps: seq<Step>)
    requires Legal(plans, steps)
    ensures Linked(NegotiationRuns.Execute(plans, steps).desk)
  {
    EveryRunStaysGood(plans, steps);
  }

  /**
   * After any run a poll ends exactly the unanswered negotiations of ended cycles that
   * still have a proposal to send, and no proposal of an ended cycle is sent.
   */
  lemma PollEndsExactly(plans: map<string, Plan>, steps: seq<Step>, ends: map<string, CycleEnd>, now: int)
    requires Legal(plans, steps)
    ensures ListsFirst(NegotiationRuns.Execute(plans, steps).desk, |NegotiationRuns.Execute(plans, steps).desk.proposals|, ends, now)
  {
    RunIsLinked(plans, steps);
    var d := NegotiationRuns.Execute(plans, steps).desk;
    ListFirstIsListed(d, |d.proposals|, ends, now);
  }

  lemma ProposedAlone(d: Desk, f: Draft, ids: TransferIds)
    requires DraftProblem(d, f).None? && d.negotiations == [] && d.proposals == []
    ensures Propose(d, f, ids).Ok?
    ensures var d' := Propose(d, f, ids).value;
            && |d'.negotiations| == 1 && d'.negotiations[0].status == PENDING_PUBLICATION
            && d'.proposals == [Proposal(ids.msgId, ids.idpk, f.cycle, true)]
            && FindByIdpk(d'.negotiations, ids.idpk) == Some(0)
  {
    assert FindByIdpk(Propose(d, f, ids).value.negotiations[..0], ids.idpk).None?;
  }

  lemma UnpublishedEnds(d: Desk, f: Draft, ids: TransferIds, ends: map<string, CycleEnd>, now: int)
    requires DraftProblem(d, f).None? && d.negotiations == [] && d.proposals == [] && CycleOver(ends, f.cycle, now)
    ensures TimedOutWith(DeskStep(DeskStep(d, DoPropose(f, ids)), DoPoll(ends, now)), 0, EndOf(ends, f.cycle, now))
  {
    ProposedAlone(d, f, ids);
    var d1 := Propose(d, f, ids).value;
    assert ListFirst(d1, 1, ends, now) == ListOne(ListFirst(d1, 0, ends, now), 0, ends, now);
  }

  lemma TwoSilentSteps(plans: map<string, Plan>, f: Draft, ids: TransferIds, ends: map<string, CycleEnd>, now: int)
    ensures var steps := [DoPropose(f, ids), DoPoll(ends, now)];
            && Legal(plans, steps)
            && NegotiationRuns.Execute(plans, steps).desk
               == DeskStep(DeskStep(Desk(Ledger.NEW_BOOK, plans, [], [], [], [], map[]), DoPropose(f, ids)), DoPoll(ends, now))
  {
    var steps := [DoPropose(f, ids), DoPoll(ends, now)];
    assert steps[..1] == [DoPropose(f, ids)] && steps[..1][..0] == [];
  }

  /** A proposal that is never published times out as of the end of its cycle, which no thirty seconds explain. */
  lemma EndedCycleIsTheDeadline()
    ensures var plans := map["c" := Plan(Some(0), Some(0), Some(100))];
            var steps := [DoPropose(Draft("c", Take, 10, 0, true), TransferIds("m", "p")),
                          DoPoll(map["c" := CycleEnd(Some(50), false)], 60)];
            Legal(plans, steps) && TimedOutWith(NegotiationRuns.Execute(plans, steps).desk, 0, Some(50))
  {
    var plans := map["c" := Plan(Some(0), Some(0), Some(100))];
    var ends := map["c" := CycleEnd(Some(50), false)];
    var f, ids := Draft("c", Take, 10, 0, true), TransferIds("m", "p");
    TwoSilentSteps(plans, f, ids, ends, 60);
    UnpublishedEnds(Desk(Ledger.NEW_BOOK, plans, [], [], [], [], map[]), f, ids, ends, 60);
  }
}

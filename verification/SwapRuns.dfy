/**
 * All interleavings of workers, crashes, lost replies, wallet events and sweeps on
 * one reserved bid, with a wallet that is idempotent on the Idempotency-Key.
 */
module SwapRuns {
  import opened Common
  import opened Money
  import opened Deals
  import opened SwapDispatch

  /** The content of a POST /swaps. */
  datatype Request = Request(key: Uuid, expiresAt: int, give: int, take: int, counterpart: string, memo: string)

  function RequestOf(a: Attempt): Request {
    Request(a.key, a.expiresAt, a.give, a.take, a.counterpart, a.memo)
  }

  /** The rows, the claims handed to workers, the POSTs sent and the swaps the wallet made. */
  datatype World = World(deal: Deal, issued: seq<Attempt>, posts: seq<Request>, created: seq<Request>)

  /** A worker that crashed or lost its reply is one whose attempt is never finished. */
  datatype Step =
    | DoClaim(token: Uuid, now: int)
    | DoPost(i: nat)
    | DoFinish(i: nat, now: int, outcome: Outcome, error: Option<string>,
               retryAfter: Option<int>, confirmed: Option<string>, replay: Option<Observation>)
    | DoRecover(i: nat, observation: Observation, now: int)
    | DoEvent(event: Event)
    | DoSweep(now: int, reply: Lookup)
    | DoAccept

  ghost predicate Enabled(w: World, s: Step) {
    match s
    case DoClaim(token, _) => forall i | 0 <= i < |w.issued| :: w.issued[i].token != token
    case DoPost(i) => i < |w.issued|
    case DoFinish(i, _, _, _, _, _, _) => i < |w.issued|
    case DoRecover(i, _, _) => i < |w.issued|
    case _ => true
  }

  function Answer(created: seq<Request>, r: Request): seq<Request> {
    if exists i | 0 <= i < |created| :: created[i].key == r.key then created else created + [r]
  }

  /** The finish of an attempt and, after a 200, the state that came with it. */
  function FinishStep(d: Deal, a: Attempt, s: Step): Deal
    requires d.swap.Some? && s.DoFinish?
  {
    var d' := d.(swap := Some(Finished(d.swap.value, a, s.now, s.outcome, s.error, s.retryAfter, s.confirmed)));
    if s.replay.Some? then ApplyObservation(d', s.replay.value) else d'
  }

  /** The GET that precedes a repeated POST settles the attempt when it still owns the claim. */
  function RecoverStep(d: Deal, a: Attempt, o: Observation, now: int): Deal
    requires d.swap.Some?
  {
    if d.swap.value.claimToken != Some(a.token) || !Settles(d.swap.value, o) then d
    else
      var d' := ApplyObservation(d, o);
      d'.(swap := Some(Finished(d'.swap.value, a, now, RECOVERED, None, None, None)))
  }

  function DealStep(d: Deal, issued: seq<Attempt>, s: Step): Deal
    requires d.swap.Some?
  {
    match s
    case DoClaim(token, now) => Claim(d, token, now)
    case DoPost(_) => d
    case DoFinish(i, _, _, _, _, _, _) => if i < |issued| then FinishStep(d, issued[i], s) else d
    case DoRecover(i, o, now) => if i < |issued| then RecoverStep(d, issued[i], o, now) else d
    case DoEvent(e) => ProcessEvent(d, e)
    case DoSweep(now, reply) => Sweep(d, now, reply)
    case DoAccept => if d.status == RESERVED && d.swap.value.status == PROPOSED then d.(status := ACCEPTED) else d
  }

  function Next(w: World, s: Step): World
    requires w.deal.swap.Some?
    ensures Next(w, s).deal.swap.Some?
  {
    var w' := w.(deal := DealStep(w.deal, w.issued, s));
    match s
    case DoClaim(token, now) =>
      if Claimable(w.deal, now)
      then w'.(issued := w.issued + [AttemptOf(w'.deal.swap.value, token)]) else w'
    case DoPost(i) =>
      if i < |w.issued|
      then w'.(posts := w.posts + [RequestOf(w.issued[i])], created := Answer(w.created, RequestOf(w.issued[i])))
      else w'
    case _ => w'
  }

  /** Every run starts with the rows that the reservation committed. */
  datatype Origin = Origin(bid: Bid, price: nat, offerId: string)

  function Execute(o: Origin, steps: seq<Step>): (w: World)
    ensures w.deal.swap.Some?
  {
    if steps == [] then World(Reserved(o.bid, o.price, o.offerId), [], [], [])
    else Next(Execute(o, steps[..|steps| - 1]), steps[|steps| - 1])
  }

  ghost predicate Legal(o: Origin, steps: seq<Step>) {
    forall i | 0 <= i < |steps| :: Enabled(Execute(o, steps[..i]), steps[i])
  }

  lemma LegalPrefix(o: Origin, steps: seq<Step>, n: nat)
    requires Legal(o, steps) && n <= |steps|
    ensures Legal(o, steps[..n])
  {
    forall i | 0 <= i < n ensures Enabled(Execute(o, steps[..n][..i]), steps[..n][i]) {
      assert steps[..n][..i] == steps[..i];
    }
  }

  // ---- The frozen request -----------------------------------------------

  /** The terms that the reservation fixed. */
  ghost predicate Frozen(o: Origin, d: Deal) {
    && d.bid == o.bid && d.acceptedPrice == Some(o.price) && d.swap.Some?
    && d.swap.value.key == o.bid.idpk && d.swap.value.counterpart == o.bid.buyer
    && d.swap.value.memo == o.offerId
    && d.swap.value.give == o.bid.quantity * PRICE_SCALE
    && d.swap.value.take == Amount(o.bid.quantity, o.price) * PRICE_PER_CENT
  }

  function Terms(o: Origin, expiresAt: int): Request {
    Request(o.bid.idpk, expiresAt, o.bid.quantity * PRICE_SCALE,
            Amount(o.bid.quantity, o.price) * PRICE_PER_CENT, o.bid.buyer, o.offerId)
  }

  ghost predicate ClaimsInv(o: Origin, w: World) {
    && Frozen(o, w.deal)
    && w.deal.swap.value.attempts == |w.issued|
    && (w.issued != [] ==> w.deal.swap.value.proposalExpiresAt.Some?)
    && (forall i | 0 <= i < |w.issued| ::
          RequestOf(w.issued[i]) == Terms(o, w.deal.swap.value.proposalExpiresAt.value)
          && w.issued[i].number == i + 1)
    && (forall i, j | 0 <= i < j < |w.issued| :: w.issued[i].token != w.issued[j].token)
    && (w.deal.swap.value.claimToken.Some? ==>
          w.issued != [] && w.deal.swap.value.claimToken.value == w.issued[|w.issued| - 1].token)
  }

  ghost predicate PostsInv(o: Origin, w: World) {
    && (w.posts != [] ==> w.issued != [] && w.created != [])
    && |w.created| <= 1
    && (forall i | 0 <= i < |w.posts| :: w.issued != [] && w.posts[i] == RequestOf(w.issued[0]))
    && (forall i | 0 <= i < |w.created| :: w.issued != [] && w.created[i] == RequestOf(w.issued[0]))
  }

  /** What no step but a claim touches. */
  ghost predicate SameClaims(s: Swap, s': Swap) {
    && s'.key == s.key && s'.give == s.give && s'.take == s.take && s'.counterpart == s.counterpart
    && s'.memo == s.memo && s'.attempts == s.attempts && s'.proposalExpiresAt == s.proposalExpiresAt
    && (s'.claimToken == s.claimToken || s'.claimToken.None?)
    && (s.swapId.Some? ==> s'.swapId == s.swapId)
  }

  ghost predicate ClaimsKept(d: Deal, d': Deal) {
    && d.swap.Some? && d'.swap.Some? && SameClaims(d.swap.value, d'.swap.value)
    && d'.bid == d.bid && d'.acceptedPrice == d.acceptedPrice
  }

  lemma ObservationKeepsClaims(d: Deal, o: Observation)
    requires d.swap.Some?
    ensures ClaimsKept(d, ApplyObservation(d, o))
  {
  }

  lemma FinishKeepsClaims(s: Swap, a: Attempt, now: int, o: Outcome, error: Option<string>,
                          retryAfter: Option<int>, confirmed: Option<string>)
    ensures SameClaims(s, Finished(s, a, now, o, error, retryAfter, confirmed))
  {
  }

  lemma SweepKeepsClaims(d: Deal, now: int, reply: Lookup)
    requires d.swap.Some?
    ensures ClaimsKept(d, Sweep(d, now, reply))
  {
  }

  lemma WorkerStepKeepsClaims(d: Deal, a: Attempt, s: Step)
    requires d.swap.Some?
    ensures s.DoFinish? ==> ClaimsKept(d, FinishStep(d, a, s))
    ensures s.DoRecover? ==> ClaimsKept(d, RecoverStep(d, a, s.observation, s.now))
  {
    if s.DoFinish? {
      FinishKeepsClaims(d.swap.value, a, s.now, s.outcome, s.error, s.retryAfter, s.confirmed);
      var d' := d.(swap := Some(Finished(d.swap.value, a, s.now, s.outcome, s.error, s.retryAfter, s.confirmed)));
      if s.replay.Some? {
        ObservationKeepsClaims(d', s.replay.value);
      }
    } else if s.DoRecover? {
      ObservationKeepsClaims(d, s.observation);
      var d' := ApplyObservation(d, s.observation);
      FinishKeepsClaims(d'.swap.value, a, s.now, RECOVERED, None, None, None);
    }
  }

  lemma OtherStepsKeepClaims(d: Deal, issued: seq<Attempt>, s: Step)
    requires d.swap.Some? && !s.DoClaim?
    ensures ClaimsKept(d, DealStep(d, issued, s))
  {
    match s
    case DoFinish(i, _, _, _, _, _, _) => if i < |issued| { WorkerStepKeepsClaims(d, issued[i], s); }
    case DoRecover(i, _, _) => if i < |issued| { WorkerStepKeepsClaims(d, issued[i], s); }
    case DoSweep(now, reply) => SweepKeepsClaims(d, now, reply);
    case _ =>
  }

  lemma StepKeepsClaims(o: Origin, w: World, s: Step)
    requires ClaimsInv(o, w) && Enabled(w, s)
    ensures ClaimsInv(o, Next(w, s))
  {
    if s.DoClaim? {
      var w' := Next(w, s);
      forall i | 0 <= i < |w'.issued|
        ensures RequestOf(w'.issued[i]) == Terms(o, w'.deal.swap.value.proposalExpiresAt.value)
        ensures w'.issued[i].number == i + 1
      {
      }
    } else {
      OtherStepsKeepClaims(w.deal, w.issued, s);
    }
  }

  lemma PostKeepsPosts(o: Origin, w: World, i: nat)
    requires ClaimsInv(o, w) && PostsInv(o, w) && i < |w.issued|
    ensures PostsInv(o, Next(w, DoPost(i)))
  {
    assert RequestOf(w.issued[i]) == RequestOf(w.issued[0]);
    if w.created != [] {
      assert w.created[0].key == RequestOf(w.issued[i]).key;
    }
  }

  lemma OtherStepsPostNothing(w: World, s: Step)
    requires w.deal.swap.Some? && !s.DoPost?
    ensures Next(w, s).posts == w.posts && Next(w, s).created == w.created && w.issued <= Next(w, s).issued
  {
  }

  lemma MoreClaimsKeepPosts(o: Origin, w: World, w': World)
    requires PostsInv(o, w) && w'.posts == w.posts && w'.created == w.created && w.issued <= w'.issued
    ensures PostsInv(o, w')
  {
  }

  lemma StepKeepsPosts(o: Origin, w: World, s: Step)
    requires ClaimsInv(o, w) && PostsInv(o, w) && Enabled(w, s)
    ensures PostsInv(o, Next(w, s))
  {
    if s.DoPost? {
      PostKeepsPosts(o, w, s.i);
    } else {
      OtherStepsPostNothing(w, s);
      MoreClaimsKeepPosts(o, w, Next(w, s));
    }
  }

  lemma {:induction false} EveryRunKeepsInv(o: Origin, steps: seq<Step>)
    requires Legal(o, steps)
    ensures ClaimsInv(o, Execute(o, steps)) && PostsInv(o, Execute(o, steps))
  {
    if steps != [] {
      var n := |steps| - 1;
      LegalPrefix(o, steps, n);
      EveryRunKeepsInv(o, steps[..n]);
      StepKeepsClaims(o, Execute(o, steps[..n]), steps[n]);
      StepKeepsPosts(o, Execute(o, steps[..n]), steps[n]);
    }
  }

  // ---- Main results -----------------------------------------------------

  /** All POSTs of a bid are the same request, on the frozen terms, and make at most one swap. */
  lemma OneRequestPerBid(o: Origin, steps: seq<Step>)
    requires Legal(o, steps)
    ensures var w := Execute(o, steps);
            && |w.created| <= 1
            && (forall i | 0 <= i < |w.posts| :: w.posts[i] == Terms(o, w.posts[0].expiresAt))
            && (forall i | 0 <= i < |w.posts| :: |w.created| == 1 && w.created[0] == w.posts[i])
  {
    EveryRunKeepsInv(o, steps);
    var w := Execute(o, steps);
    if w.posts != [] {
      assert w.posts[0] == RequestOf(w.issued[0]);
    }
  }

  /** The finish of an attempt that is not the latest claim changes nothing. */
  lemma SupersededFinishChangesNothing(o: Origin, steps: seq<Step>, i: nat, now: int, outcome: Outcome,
                                       error: Option<string>, retryAfter: Option<int>, confirmed: Option<string>)
    requires Legal(o, steps) && i + 1 < |Execute(o, steps).issued|
    ensures var w := Execute(o, steps);
            Finished(w.deal.swap.value, w.issued[i], now, outcome, error, retryAfter, confirmed) == w.deal.swap.value
  {
    EveryRunKeepsInv(o, steps);
  }

  /** HTTP acceptance was recorded, or the swap left SUBMITTED. */
  ghost predicate Done(d: Deal)
    requires d.swap.Some?
  {
    d.swap.value.httpAcceptedAt.Some? || d.swap.value.status != SUBMITTED
  }

  lemma StepKeepsDone(w: World, s: Step)
    requires w.deal.swap.Some? && Done(w.deal)
    ensures Done(Next(w, s).deal) && Next(w, s).issued == w.issued
  {
  }

  lemma LastStepKeepsDone(o: Origin, steps: seq<Step>)
    requires steps != [] && Done(Execute(o, steps[..|steps| - 1]).deal)
    ensures Done(Execute(o, steps).deal)
    ensures Execute(o, steps).issued == Execute(o, steps[..|steps| - 1]).issued
  {
    StepKeepsDone(Execute(o, steps[..|steps| - 1]), steps[|steps| - 1]);
  }

  ghost predicate NoLaterClaim(o: Origin, steps: seq<Step>, n: nat)
    requires n <= |steps|
  {
    Done(Execute(o, steps).deal) && Execute(o, steps).issued == Execute(o, steps[..n]).issued
  }

  lemma OneMoreStepWithoutClaim(o: Origin, steps: seq<Step>, n: nat)
    requires n < |steps| && NoLaterClaim(o, steps[..|steps| - 1], n)
    ensures NoLaterClaim(o, steps, n)
  {
    assert steps[..|steps| - 1][..n] == steps[..n];
    LastStepKeepsDone(o, steps);
  }

  /** Once a deal is done, no later step of the run claims it again. */
  lemma {:induction false} NoClaimAfterDone(o: Origin, steps: seq<Step>, n: nat)
    requires n <= |steps| && Done(Execute(o, steps[..n]).deal)
    ensures NoLaterClaim(o, steps, n)
    decreases |steps|
  {
    if n == |steps| {
      assert steps[..n] == steps;
    } else {
      var before := steps[..|steps| - 1];
      assert before[..n] == steps[..n];
      NoClaimAfterDone(o, before, n);
      OneMoreStepWithoutClaim(o, steps, n);
    }
  }

  predicate BringsSettlement(s: Step) { s.DoEvent? && s.event.fact.SwapSettled? }

  /** The world w' has the terminal status of w, or SETTLED after a late settlement. */
  predicate StaysTerminal(w: World, w': World, settled: bool) {
    && w.deal.swap.Some? && w'.deal.swap.Some? && Terminal(w.deal.swap.value.status)
    && w'.deal.swap.value.status == (if settled then SETTLED else w.deal.swap.value.status)
    && w'.deal.reservation == w.deal.reservation
  }

  lemma StepStaysTerminal(w: World, w1: World, settled: bool, s: Step)
    requires StaysTerminal(w, w1, settled)
    ensures StaysTerminal(w, Next(w1, s), settled || BringsSettlement(s))
  {
  }

  ghost predicate SettlementIn(steps: seq<Step>, n: nat, i: nat)
    requires i <= |steps|
  {
    exists j | n <= j < i :: BringsSettlement(steps[j])
  }

  ghost predicate TerminalAt(o: Origin, steps: seq<Step>, n: nat, i: nat) {
    n <= i <= |steps| && StaysTerminal(Execute(o, steps[..n]), Execute(o, steps[..i]), SettlementIn(steps, n, i))
  }

  lemma ExecuteOneMore(o: Origin, steps: seq<Step>, i: nat)
    requires i < |steps|
    ensures Execute(o, steps[..i + 1]) == Next(Execute(o, steps[..i]), steps[i])
  {
    assert steps[..i + 1][..i] == steps[..i];
  }

  lemma TerminalOneMore(o: Origin, steps: seq<Step>, n: nat, i: nat)
    requires i < |steps| && TerminalAt(o, steps, n, i)
    ensures TerminalAt(o, steps, n, i + 1)
  {
    ExecuteOneMore(o, steps, i);
    StepStaysTerminal(Execute(o, steps[..n]), Execute(o, steps[..i]), SettlementIn(steps, n, i), steps[i]);
  }

  lemma TerminalThrough(o: Origin, steps: seq<Step>, n: nat)
    requires TerminalAt(o, steps, n, n)
    ensures TerminalAt(o, steps, n, |steps|)
  {
    for i := n to |steps|
      invariant TerminalAt(o, steps, n, i)
    {
      TerminalOneMore(o, steps, n, i);
    }
  }

  /** In every continuation a terminal status and its HOLD stay, but a late settlement makes the status SETTLED. */
  lemma TerminalIsAbsorbing(o: Origin, steps: seq<Step>, n: nat)
    requires n <= |steps| && Terminal(Execute(o, steps[..n]).deal.swap.value.status)
    ensures StaysTerminal(Execute(o, steps[..n]), Execute(o, steps), SettlementIn(steps, n, |steps|))
  {
    TerminalThrough(o, steps, n);
    assert steps[..|steps|] == steps;
  }

  /** The sweep's decision that nothing was ever sent, taken on the current rows. */
  ghost predicate GivesUpUnsent(d: Deal, now: int)
    requires d.swap.Some?
  {
    Stale(d.swap.value, now) && NeverSent(d.swap.value)
  }

  lemma GivingUpEndsTheDeal(d: Deal, issued: seq<Attempt>, now: int, reply: Lookup)
    requires d.swap.Some? && GivesUpUnsent(d, now)
    requires d.reservation.Some? && d.status in {RESERVED, ACCEPTED, EXPIRED_BID}
    ensures var d' := DealStep(d, issued, DoSweep(now, reply));
            && d'.swap.Some? && d'.swap.value.status == EXPIRED && d'.status == EXPIRED_BID
            && d'.reservation.Some? && d'.reservation.value.status != HOLD
  {
  }

  /** The reservation always has the bid's quantity. */
  ghost predicate KeepsReservation(o: Origin, d: Deal) {
    && d.reservation.Some? && d.reservation.value.quantity == o.bid.quantity
    && d.status in {RESERVED, ACCEPTED, EXPIRED_BID}
  }

  lemma StepKeepsReservation(o: Origin, d: Deal, issued: seq<Attempt>, s: Step)
    requires d.swap.Some? && KeepsReservation(o, d)
    ensures KeepsReservation(o, DealStep(d, issued, s))
  {
  }

  lemma {:induction false} EveryRunKeepsReservation(o: Origin, steps: seq<Step>)
    ensures KeepsReservation(o, Execute(o, steps).deal)
  {
    if steps != [] {
      var w := Execute(o, steps[..|steps| - 1]);
      EveryRunKeepsReservation(o, steps[..|steps| - 1]);
      StepKeepsReservation(o, w.deal, w.issued, steps[|steps| - 1]);
    }
  }

  lemma UnsentReleaseEndsTheDeal(o: Origin, steps: seq<Step>, now: int, reply: Lookup)
    requires GivesUpUnsent(Execute(o, steps).deal, now)
    ensures var d := Execute(o, steps + [DoSweep(now, reply)]).deal;
            && d.swap.value.status == EXPIRED && d.status == EXPIRED_BID
            && d.reservation.Some? && d.reservation.value.status != HOLD
  {
    var w := Execute(o, steps);
    EveryRunKeepsReservation(o, steps);
    GivingUpEndsTheDeal(w.deal, w.issued, now, reply);
    assert (steps + [DoSweep(now, reply)])[..|steps|] == steps;
  }

  lemma NothingClaimedNothingSent(o: Origin, steps: seq<Step>)
    requires Legal(o, steps) && Execute(o, steps).deal.swap.value.attempts == 0
    ensures Execute(o, steps).issued == [] && Execute(o, steps).posts == []
  {
    EveryRunKeepsInv(o, steps);
  }

  /**
   * The HOLD is released as never sent only in runs where no POST was claimed or
   * sent, and after that decision none ever is.
   */
  lemma UnsentReleaseIsSafe(o: Origin, before: seq<Step>, now: int, reply: Lookup, later: seq<Step>)
    requires Legal(o, before + [DoSweep(now, reply)] + later)
    requires GivesUpUnsent(Execute(o, before).deal, now)
    ensures Execute(o, before).issued == [] && Execute(o, before).posts == []
    ensures var d := Execute(o, before + [DoSweep(now, reply)]).deal;
            && d.swap.value.status == EXPIRED && d.status == EXPIRED_BID
            && d.reservation.Some? && d.reservation.value.status != HOLD
    ensures Execute(o, before + [DoSweep(now, reply)] + later).issued == []
    ensures Execute(o, before + [DoSweep(now, reply)] + later).posts == []
  {
    BeforeUnsentRelease(o, before, now, reply, later);
    UnsentReleaseEndsTheDeal(o, before, now, reply);
    AfterUnsentRelease(o, before, now, reply, later);
  }

  lemma BeforeUnsentRelease(o: Origin, before: seq<Step>, now: int, reply: Lookup, later: seq<Step>)
    requires Legal(o, before + [DoSweep(now, reply)] + later)
    requires GivesUpUnsent(Execute(o, before).deal, now)
    ensures Execute(o, before).issued == [] && Execute(o, before).posts == []
  {
    var steps := before + [DoSweep(now, reply)] + later;
    LegalPrefix(o, steps, |before|);
    assert steps[..|before|] == before;
    NothingClaimedNothingSent(o, before);
  }

  lemma SweepIssuesNothing(o: Origin, before: seq<Step>, now: int, reply: Lookup)
    ensures Execute(o, before + [DoSweep(now, reply)]).issued == Execute(o, before).issued
  {
  }

  lemma AfterUnsentRelease(o: Origin, before: seq<Step>, now: int, reply: Lookup, later: seq<Step>)
    requires Legal(o, before + [DoSweep(now, reply)] + later)
    requires Execute(o, before).issued == []
    requires Execute(o, before + [DoSweep(now, reply)]).deal.swap.value.status == EXPIRED
    ensures Execute(o, before + [DoSweep(now, reply)] + later).issued == []
    ensures Execute(o, before + [DoSweep(now, reply)] + later).posts == []
  {
    var n := |before| + 1;
    var steps := before + [DoSweep(now, reply)] + later;
    SweepIssuesNothing(o, before, now, reply);
    assert steps[..n] == before + [DoSweep(now, reply)];
    NoClaimAfterDone(o, steps, n);
    EveryRunKeepsInv(o, steps);
  }

  /** A wallet that only reports on swaps that were POSTed. */
  ghost predicate Truthful(o: Origin, steps: seq<Step>) {
    forall i | 0 <= i < |steps| && steps[i].DoEvent? :: Execute(o, steps[..i]).posts != []
  }

  /** An intention that was never claimed, and of which the wallet cannot know. */
  ghost predicate Untouched(s: Swap) {
    && s.status == SUBMITTED && s.swapId.None? && s.expiresAt.None?
    && s.proposalExpiresAt.None? && s.blockedAt.None?
  }

  lemma StepKeepsUntouched(w: World, s: Step)
    requires w.deal.swap.Some? && Untouched(w.deal.swap.value) && w.issued == []
    requires !s.DoEvent? && Next(w, s).issued == []
    ensures Untouched(Next(w, s).deal.swap.value)
  {
  }

  lemma NothingIssuedBefore(o: Origin, steps: seq<Step>)
    requires steps != [] && Legal(o, steps) && Truthful(o, steps) && Execute(o, steps).issued == []
    ensures var n := |steps| - 1;
            && Legal(o, steps[..n]) && Truthful(o, steps[..n])
            && Execute(o, steps[..n]).issued == [] && !steps[n].DoEvent?
  {
    var n := |steps| - 1;
    var before := steps[..n];
    LegalPrefix(o, steps, n);
    forall i | 0 <= i < n && before[i].DoEvent? ensures Execute(o, before[..i]).posts != [] {
      assert before[..i] == steps[..i];
    }
    IssuedGrows(Execute(o, before), steps[n]);
    assert Execute(o, steps) == Next(Execute(o, before), steps[n]);
    EveryRunKeepsInv(o, before);
  }

  lemma IssuedGrows(w: World, s: Step)
    requires w.deal.swap.Some?
    ensures w.issued <= Next(w, s).issued
  {
  }

  lemma {:induction false} UnclaimedIsUntouched(o: Origin, steps: seq<Step>)
    requires Legal(o, steps) && Truthful(o, steps) && Execute(o, steps).issued == []
    ensures Untouched(Execute(o, steps).deal.swap.value)
  {
    if steps != [] {
      var n := |steps| - 1;
      NothingIssuedBefore(o, steps);
      UnclaimedIsUntouched(o, steps[..n]);
      StepKeepsUntouched(Execute(o, steps[..n]), steps[n]);
    }
  }

  /**
   * With a truthful wallet the sweep never takes that decision: an intention that
   * was never claimed has no deadline by which it could be stale.
   */
  lemma TruthfulRunsNeverGiveUpUnsent(o: Origin, steps: seq<Step>, now: int)
    requires Legal(o, steps) && Truthful(o, steps)
    ensures !GivesUpUnsent(Execute(o, steps).deal, now)
  {
    EveryRunKeepsInv(o, steps);
    if Execute(o, steps).issued == [] {
      UnclaimedIsUntouched(o, steps);
    }
  }

  /** It takes an event that names no swapId but an expiry, on an intention never claimed. */
  lemma UntruthfulEventLetsSweepGiveUp(o: Origin)
    ensures var steps := [DoEvent(Event(SwapProposed, None, None, Some(5)))];
            Legal(o, steps) && GivesUpUnsent(Execute(o, steps).deal, 5)
  {
  }

  // ---- Leases and retries -----------------------------------------------

  /** While the lease of a claim runs, nobody else claims; and the POST has time to arrive. */
  lemma LeaseExcludes(d: Deal, token: Uuid, now: int, later: int)
    requires Claimable(d, now)
    ensures var s := Claim(d, token, now).swap.value;
            && AttemptOf(s, token).expiresAt > now + PROPOSAL_MARGIN
            && (later < now + LEASE ==> !Claimable(Claim(d, token, now), later))
  {
  }

  lemma PowerBounds(n: nat)
    ensures Power(n) >= n + 1
  {
  }

  /** The wait grows with the attempts up to a minute, and respects what the wallet asked for. */
  lemma BackoffBounds(number: nat, retryAfter: Option<int>)
    ensures 1 <= Backoff(number, None) <= 60 && Backoff(number, None) >= Min(60, Min(number, 6) + 1)
    ensures Backoff(number, retryAfter) >= Backoff(number, None)
    ensures retryAfter.Some? ==> Backoff(number, retryAfter) >= retryAfter.value
  {
    PowerBounds(Min(number, 6));
  }

  /**
   * When the outcome of the current claim lets the intention be claimed again: never
   * after an acceptance or a block, at once after a recovery, else when its wait is over.
   */
  lemma FinishDecides(d: Deal, a: Attempt, now: int, o: Outcome, error: Option<string>, retryAfter: Option<int>, later: int)
    requires d.swap.Some? && Claimable(d.(swap := Some(d.swap.value.(claimToken := None, leaseUntil := None, retryAt := None))), later)
    requires d.swap.value.claimToken == Some(a.token)
    ensures var d' := d.(swap := Some(Finished(d.swap.value, a, now, o, error, retryAfter, None)));
            Claimable(d', later) <==>
              (o == RECOVERED || (o == RETRY && later >= now + Backoff(a.number, retryAfter) * SECOND))
  {
  }

  predicate Named(w: World, swapId: string) { w.deal.swap.Some? && w.deal.swap.value.swapId == Some(swapId) }

  lemma StepKeepsName(w: World, s: Step, swapId: string)
    requires Named(w, swapId)
    ensures Named(Next(w, s), swapId)
  {
    if !s.DoClaim? {
      OtherStepsKeepClaims(w.deal, w.issued, s);
    }
  }

  ghost predicate NamedAt(o: Origin, steps: seq<Step>, i: nat, swapId: string) {
    i <= |steps| && Named(Execute(o, steps[..i]), swapId)
  }

  lemma NamedOneMore(o: Origin, steps: seq<Step>, i: nat, swapId: string)
    requires i < |steps| && NamedAt(o, steps, i, swapId)
    ensures NamedAt(o, steps, i + 1, swapId)
  {
    ExecuteOneMore(o, steps, i);
    StepKeepsName(Execute(o, steps[..i]), steps[i], swapId);
  }

  lemma NamedThrough(o: Origin, steps: seq<Step>, n: nat, swapId: string)
    requires NamedAt(o, steps, n, swapId)
    ensures NamedAt(o, steps, |steps|, swapId)
  {
    for i := n to |steps|
      invariant NamedAt(o, steps, i, swapId)
    {
      NamedOneMore(o, steps, i, swapId);
    }
  }

  /** Once the wallet's name of the swap is known, no continuation replaces it. */
  lemma SwapIdIsStable(o: Origin, steps: seq<Step>, n: nat, swapId: string)
    requires n <= |steps| && Named(Execute(o, steps[..n]), swapId)
    ensures Named(Execute(o, steps), swapId)
  {
    NamedThrough(o, steps, n, swapId);
    assert steps[..|steps|] == steps;
  }

  // ---- Claims over a run ------------------------------------------------

  /** Step i of the run claims the intention. */
  ghost predicate ClaimsAt(o: Origin, steps: seq<Step>, i: nat)
    requires i < |steps|
  {
    steps[i].DoClaim? && Claimable(Execute(o, steps[..i]).deal, steps[i].now)
  }

  /** The step reports on an attempt that was handed out as number `first` or later. */
  predicate Reports(s: Step, first: nat) {
    (s.DoFinish? && s.i >= first) || (s.DoRecover? && s.i >= first)
  }

  ghost predicate LeasedUntil(w: World, t: int) {
    w.deal.swap.Some? && w.deal.swap.value.leaseUntil.Some? && w.deal.swap.value.leaseUntil.value >= t
  }

  lemma SupersededReportKeepsLease(d: Deal, a: Attempt, s: Step)
    requires d.swap.Some? && d.swap.value.claimToken != Some(a.token)
    ensures s.DoFinish? ==> FinishStep(d, a, s).swap.Some? && FinishStep(d, a, s).swap.value.leaseUntil == d.swap.value.leaseUntil
    ensures s.DoRecover? ==> RecoverStep(d, a, s.observation, s.now) == d
  {
  }

  /** Until a report on the claim or a later one, the lease of a claim only moves on. */
  lemma StepKeepsLease(o: Origin, w: World, s: Step, first: nat, t: int)
    requires ClaimsInv(o, w) && LeasedUntil(w, t) && first < |w.issued| && !Reports(s, first)
    ensures LeasedUntil(Next(w, s), t)
  {
    if (s.DoFinish? || s.DoRecover?) && s.i < |w.issued| {
      assert w.issued[s.i].token != w.issued[|w.issued| - 1].token;
      SupersededReportKeepsLease(w.deal, w.issued[s.i], s);
    }
  }

  ghost predicate LeaseHolds(o: Origin, steps: seq<Step>, first: nat, t: int) {
    LeasedUntil(Execute(o, steps), t) && first < |Execute(o, steps).issued|
  }

  lemma LeaseHoldsOneMore(o: Origin, steps: seq<Step>, first: nat, t: int)
    requires steps != [] && Legal(o, steps) && LeaseHolds(o, steps[..|steps| - 1], first, t)
    requires !Reports(steps[|steps| - 1], first)
    ensures LeaseHolds(o, steps, first, t)
  {
    var l := |steps| - 1;
    LegalPrefix(o, steps, l);
    EveryRunKeepsInv(o, steps[..l]);
    StepKeepsLease(o, Execute(o, steps[..l]), steps[l], first, t);
    IssuedGrows(Execute(o, steps[..l]), steps[l]);
  }

  lemma {:induction false} LeaseHoldsUntilReport(o: Origin, steps: seq<Step>, n: nat, first: nat, t: int)
    requires Legal(o, steps) && n <= |steps| && LeaseHolds(o, steps[..n], first, t)
    requires forall l | n <= l < |steps| :: !Reports(steps[l], first)
    ensures LeaseHolds(o, steps, first, t)
  {
    if n == |steps| {
      assert steps[..n] == steps;
    } else {
      var l := |steps| - 1;
      assert steps[..l][..n] == steps[..n];
      LegalPrefix(o, steps, l);
      LeaseHoldsUntilReport(o, steps[..l], n, first, t);
      LeaseHoldsOneMore(o, steps, first, t);
    }
  }

  lemma ClaimTakesLease(o: Origin, steps: seq<Step>, i: nat)
    requires i < |steps| && ClaimsAt(o, steps, i)
    ensures LeaseHolds(o, steps[..i + 1], |Execute(o, steps[..i]).issued|, steps[i].now + LEASE)
  {
    assert steps[..i + 1][..i] == steps[..i];
  }

  /**
   * In every legal run two claims of one intention lie at least a lease apart, unless
   * a report on the first of them, or on one after it, lies between.
   */
  lemma ClaimsAreLeaseApart(o: Origin, steps: seq<Step>, i: nat, j: nat)
    requires Legal(o, steps) && i < j < |steps| && ClaimsAt(o, steps, i) && ClaimsAt(o, steps, j)
    requires forall l | i < l < j :: !Reports(steps[l], |Execute(o, steps[..i]).issued|)
    ensures steps[j].now >= steps[i].now + LEASE
  {
    ClaimTakesLease(o, steps, i);
    assert steps[..j][..i + 1] == steps[..i + 1];
    LegalPrefix(o, steps, j);
    LeaseHoldsUntilReport(o, steps[..j], i + 1, |Execute(o, steps[..i]).issued|, steps[i].now + LEASE);
  }

  lemma ScaledIsWhole(s: Swap, quantity: nat, cents: nat)
    requires quantity >= 1 && s.memo != ""
    requires s.give == quantity * PRICE_SCALE && s.take == cents * PRICE_PER_CENT
    ensures ValidKwh(s) && ValidCr(s)
  {
  }

  /** The amounts of a reserved bid are whole in every run, so a claim is never refused for them. */
  lemma EveryClaimIsValid(o: Origin, steps: seq<Step>)
    requires Legal(o, steps) && o.bid.quantity >= 1 && o.offerId != ""
    ensures var s := Execute(o, steps).deal.swap.value; ValidKwh(s) && ValidCr(s)
  {
    EveryRunKeepsInv(o, steps);
    ScaledIsWhole(Execute(o, steps).deal.swap.value, o.bid.quantity, Amount(o.bid.quantity, o.price));
  }

  /**
   * A superseded worker whose repeated POST got the wallet's state still has that state
   * applied: the step is the observation alone, and it settles an open swap when the
   * wallet names it and knows its end.
   */
  lemma SupersededReplayIsApplied(o: Origin, steps: seq<Step>, s: Step)
    requires Legal(o, steps) && s.DoFinish? && s.i + 1 < |Execute(o, steps).issued| && s.replay.Some?
    ensures var w := Execute(o, steps);
            && Next(w, s).deal == ApplyObservation(w.deal, s.replay.value)
            && (Settles(w.deal.swap.value, s.replay.value) && !Terminal(w.deal.swap.value.status)
                && FactOf(s.replay.value.state).Some? ==>
                  Next(w, s).deal.swap.value.status == FactStatus(FactOf(s.replay.value.state).value))
  {
    var w := Execute(o, steps);
    SupersededFinishChangesNothing(o, steps, s.i, s.now, s.outcome, s.error, s.retryAfter, s.confirmed);
    assert w.deal.(swap := Some(w.deal.swap.value)) == w.deal;
  }
}

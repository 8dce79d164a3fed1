/**
 * The durable dispatch of one swap intention: workers claim it under a lease and a
 * fencing token, POST it to the wallet outside any transaction, and may crash, be
 * overtaken or lose the reply, while wallet events and the expiry sweep go on.
 */
module SwapDispatch {
  import opened Common
  import opened Money
  import opened Deals

  const SECOND := 1_000_000
  const LEASE := 40 * SECOND        // max(30, 3 * the wallet timeout + 10) seconds
  const PROPOSAL_LIFE := 55 * SECOND
  const PROPOSAL_MARGIN := 3 * SECOND

  datatype Attempt = Attempt(
    token: Uuid, key: Uuid, give: int, take: int, counterpart: string, memo: string,
    expiresAt: int, number: nat)

  datatype Outcome = ACCEPTED_202 | REPLAYED_200 | RECOVERED | BLOCKED | RETRY

  /** The wallet's answer to a GET or to a repeated POST. */
  datatype Observed = ObsProposed | ObsAccepted | ObsSettled | ObsRejected(reason: Option<string>)
                    | ObsCancelled | ObsExpired
  datatype Observation = Observation(swapId: string, state: Observed, token: Option<string>)

  // ---- Claim ------------------------------------------------------------

  predicate Elapsed(t: Option<int>, now: int) { t.None? || t.value <= now }

  /** What the query for the next intention selects. */
  predicate Selectable(d: Deal, now: int) {
    && d.swap.Some? && d.swap.value.status == SUBMITTED
    && d.swap.value.httpAcceptedAt.None? && d.swap.value.blockedAt.None?
    && (d.swap.value.proposalExpiresAt.None? || d.swap.value.proposalExpiresAt.value > now + PROPOSAL_MARGIN)
    && Elapsed(d.swap.value.retryAt, now) && Elapsed(d.swap.value.leaseUntil, now)
    && d.status == RESERVED && d.bid.buyer == d.swap.value.counterpart
    && d.reservation == Some(Reservation(d.bid.quantity, HOLD))
  }

  /** Whole kWh and whole cents, for a named offer. */
  predicate ValidKwh(s: Swap) { s.memo != "" && s.give > 0 && s.give % PRICE_SCALE == 0 }
  predicate ValidCr(s: Swap) { s.take >= 0 && s.take % PRICE_PER_CENT == 0 }

  predicate Claimable(d: Deal, now: int) {
    Selectable(d, now) && ValidKwh(d.swap.value) && ValidCr(d.swap.value)
  }

  datatype IntentError = INVALID_KWH | INVALID_CR

  function Claimed(s: Swap, token: Uuid, now: int): Swap {
    s.(proposalExpiresAt := if s.proposalExpiresAt.None? then Some(now + PROPOSAL_LIFE) else s.proposalExpiresAt,
       claimToken := Some(token), leaseUntil := Some(now + LEASE), attempts := s.attempts + 1)
  }

  /** The request of the claim that the row now shows. */
  function AttemptOf(s: Swap, token: Uuid): Attempt
    requires s.proposalExpiresAt.Some?
  {
    Attempt(token, s.key, s.give, s.take, s.counterpart, s.memo, s.proposalExpiresAt.value, s.attempts)
  }

  function Claim(d: Deal, token: Uuid, now: int): Deal {
    if Claimable(d, now) then d.(swap := Some(Claimed(d.swap.value, token, now))) else d
  }

  // ---- Finish -----------------------------------------------------------

  function Power(n: nat): nat { if n == 0 then 1 else 2 * Power(n - 1) }

  function Backoff(number: nat, retryAfter: Option<int>): nat {
    var base := Min(60, Power(Min(number, 6)));
    if retryAfter.None? then base else Max(base, Max(1, retryAfter.value))
  }

  function Finished(s: Swap, a: Attempt, now: int, o: Outcome, error: Option<string>,
                    retryAfter: Option<int>, confirmed: Option<string>): Swap
  {
    if s.claimToken != Some(a.token) then s
    else
      var freed := s.(claimToken := None, leaseUntil := None);
      if Terminal(s.status) || s.status == PROPOSED then
        freed.(retryAt := None,
               httpAcceptedAt := if o in {ACCEPTED_202, REPLAYED_200} then Some(now) else s.httpAcceptedAt)
      else
        var noted := freed.(lastError := error, swapId := Merge(confirmed, s.swapId));
        match o
        case ACCEPTED_202 => noted.(httpAcceptedAt := Some(now), retryAt := None, blockedAt := None)
        case REPLAYED_200 => noted.(httpAcceptedAt := Some(now), retryAt := None, blockedAt := None)
        case RECOVERED => noted.(retryAt := None)
        case BLOCKED => noted.(blockedAt := Some(now), retryAt := None)
        case RETRY => noted.(retryAt := Some(now + Backoff(a.number, retryAfter) * SECOND))
  }

  // ---- Observations -----------------------------------------------------

  function FactOf(o: Observed): Option<Fact> {
    match o
    case ObsSettled => Some(SwapSettled)
    case ObsRejected(r) => Some(SwapRejected(r))
    case ObsCancelled => Some(SwapCancelled)
    case ObsExpired => Some(SwapExpired)
    case _ => None
  }

  /** True: the observation shows that no POST has to be repeated. */
  predicate Settles(s: Swap, o: Observation) {
    s.swapId == Some(o.swapId)
  }

  function ApplyObservation(d: Deal, o: Observation): Deal
    requires d.swap.Some?
  {
    var s := d.swap.value;
    if !Settles(s, o) || Terminal(s.status) then d
    else if FactOf(o.state).Some? then ProcessEvent(d, Event(FactOf(o.state).value, s.swapId, None, None))
    else if o.token.Some? then ProcessEvent(d, Event(SwapProposed, s.swapId, o.token, None))
    else d.(swap := Some(s.(status := PROPOSED)))
  }

  // ---- The expiry sweep -------------------------------------------------

  predicate Stale(s: Swap, now: int) {
    && s.status in {SUBMITTED, PROPOSED}
    && (s.blockedAt.Some?
        || (s.expiresAt.Some? && s.expiresAt.value <= now)
        || (s.proposalExpiresAt.Some? && s.proposalExpiresAt.value <= now))
  }

  predicate NeverSent(s: Swap) {
    s.swapId.None? && s.attempts == 0 && s.httpAcceptedAt.None? && s.blockedAt.None?
  }

  function ExpiredLocally(d: Deal, reason: string): Deal
    requires d.swap.Some?
  {
    if Terminal(d.swap.value.status) then d
    else BidExpired(d.(swap := Some(d.swap.value.(status := EXPIRED, rejection := Some(reason))),
                       reservation := Settle(d.reservation, RELEASE)))
  }

  /** The wallet's reply to the sweep's GET, when the sweep has to ask. */
  datatype Lookup = NoAnswer | NotFound | Found(swapId: string, state: Observed)

  function Sweep(d: Deal, now: int, reply: Lookup): Deal
    requires d.swap.Some?
  {
    var s := d.swap.value;
    if !Stale(s, now) then d
    else if NeverSent(s) then ExpiredLocally(d, "PROPOSAL_NEVER_SENT")
    else if s.swapId.None? then d
    else match reply
      case NoAnswer => d
      case NotFound => if s.blockedAt.Some? then ExpiredLocally(d, "WALLET_SWAP_NOT_FOUND") else d
      case Found(id, state) =>
        if Some(id) != s.swapId then d
        else match FactOf(state)
          case None => d
          case Some(fact) =>
            var d' := ProcessEvent(d, Event(fact, s.swapId, None, None));
            if fact.SwapSettled? then d' else BidExpired(d')
  }

  /** What the sweep reports or asks for; a request to cancel goes to the wallet and changes no row. */
  datatype Action = NOTHING | EXPIRED_SWAP | SETTLED_FROM_WALLET | CANCEL_REQUESTED | INDETERMINATE

  function SweepAction(d: Deal, now: int, reply: Lookup): Action
    requires d.swap.Some?
  {
    var s := d.swap.value;
    if !Stale(s, now) then NOTHING
    else if NeverSent(s) then EXPIRED_SWAP
    else if s.swapId.None? then INDETERMINATE
    else match reply
      case NoAnswer => INDETERMINATE
      case NotFound => if s.blockedAt.Some? then EXPIRED_SWAP else INDETERMINATE
      case Found(id, state) =>
        if Some(id) != s.swapId then INDETERMINATE
        else match state
          case ObsSettled => SETTLED_FROM_WALLET
          case ObsProposed => if s.expiresAt.Some? && s.expiresAt.value <= now then CANCEL_REQUESTED else NOTHING
          case ObsAccepted => if s.expiresAt.Some? && s.expiresAt.value <= now then CANCEL_REQUESTED else NOTHING
          case _ => EXPIRED_SWAP
  }

  /** The sweep takes energy off HOLD only with a verdict: never while the wallet may still settle. */
  lemma SweepTouchesHoldIff(d: Deal, now: int, reply: Lookup)
    requires d.swap.Some? && d.reservation.Some? && d.reservation.value.status == HOLD
    ensures var d', action := Sweep(d, now, reply), SweepAction(d, now, reply);
            && (d'.reservation != d.reservation <==> action in {EXPIRED_SWAP, SETTLED_FROM_WALLET})
            && (action in {NOTHING, CANCEL_REQUESTED, INDETERMINATE} <==> d' == d)
            && (action == SETTLED_FROM_WALLET <==> d'.reservation == Some(d.reservation.value.(status := COMMITTED)))
  {
  }

  // ---- One deal's rows as an object -------------------------------------

  class DealRow {
    var deal: Deal

    constructor (d: Deal)
      ensures deal == d
    {
      deal := d;
    }

    /** An intention with impossible amounts is an error; nothing is claimed then. */
    method ClaimOne(token: Uuid, now: int) returns (r: Result<Option<Attempt>, IntentError>)
      modifies this
      ensures deal == Claim(old(deal), token, now)
      ensures r.Ok? ==> (r.value.Some? <==> Claimable(old(deal), now))
      ensures r.Ok? && r.value.Some? ==> deal.swap.Some? && deal.swap.value.proposalExpiresAt.Some?
                                         && r.value.value == AttemptOf(deal.swap.value, token)
      ensures r.Err? <==> Selectable(old(deal), now) && !Claimable(old(deal), now)
      ensures r.Err? ==> (r.error == INVALID_KWH <==> !ValidKwh(old(deal).swap.value))
    {
      if !Selectable(deal, now) {
        return Ok(None);
      }
      var record := deal.swap.value;
      if record.memo == "" || record.give <= 0 || record.give % PRICE_SCALE != 0 {
        return Err(INVALID_KWH);
      }
      if record.take < 0 || record.take % PRICE_PER_CENT != 0 {
        return Err(INVALID_CR);
      }
      if record.proposalExpiresAt.None? {
        record := record.(proposalExpiresAt := Some(now + PROPOSAL_LIFE));
      }
      record := record.(claimToken := Some(token));
      record := record.(leaseUntil := Some(now + LEASE));
      record := record.(attempts := record.attempts + 1);
      deal := deal.(swap := Some(record));
      return Ok(Some(AttemptOf(record, token)));
    }

    method Finish(a: Attempt, now: int, o: Outcome, error: Option<string>,
                  retryAfter: Option<int>, confirmed: Option<string>)
      requires deal.swap.Some?
      modifies this
      ensures deal == old(deal).(swap := Some(Finished(old(deal).swap.value, a, now, o, error, retryAfter, confirmed)))
    {
      var record := deal.swap.value;
      if record.claimToken != Some(a.token) {
        return;
      }
      record := record.(claimToken := None, leaseUntil := None);
      if record.status in {SETTLED, REJECTED, CANCELLED, EXPIRED, PROPOSED} {
        record := record.(retryAt := None);
        if o == ACCEPTED_202 || o == REPLAYED_200 {
          record := record.(httpAcceptedAt := Some(now));
        }
        deal := deal.(swap := Some(record));
        return;
      }
      record := record.(lastError := error);
      if confirmed.Some? && record.swapId.None? {
        record := record.(swapId := confirmed);
      }
      match o {
        case ACCEPTED_202 | REPLAYED_200 =>
          record := record.(httpAcceptedAt := Some(now), retryAt := None, blockedAt := None);
        case RECOVERED =>
          record := record.(retryAt := None);
        case BLOCKED =>
          record := record.(blockedAt := Some(now), retryAt := None);
        case RETRY =>
          var backoff := Min(60, Power(Min(a.number, 6)));
          if retryAfter.Some? {
            backoff := Max(backoff, Max(1, retryAfter.value));
          }
          record := record.(retryAt := Some(now + backoff * SECOND));
      }
      deal := deal.(swap := Some(record));
    }

    method ApplyWalletObservation(o: Observation) returns (settles: bool)
      requires deal.swap.Some?
      modifies this
      ensures deal == ApplyObservation(old(deal), o)
      ensures settles <==> Settles(old(deal).swap.value, o)
    {
      var record := deal.swap.value;
      if record.swapId.None? || record.swapId.value != o.swapId {
        return false;
      }
      if Terminal(record.status) {
        return true;
      }
      if FactOf(o.state).Some? {
        deal := ProcessEvent(deal, Event(FactOf(o.state).value, record.swapId, None, None));
      } else if o.token.Some? {
        deal := ProcessEvent(deal, Event(SwapProposed, record.swapId, o.token, None));
      } else {
        deal := deal.(swap := Some(record.(status := PROPOSED)));
      }
      return true;
    }

    /** True when the decision expired the swap. */
    method ExpireRecord(reason: string) returns (expired: bool)
      requires deal.swap.Some?
      modifies this
      ensures deal == ExpiredLocally(old(deal), reason)
      ensures expired <==> !Terminal(old(deal).swap.value.status)
    {
      var record := deal.swap.value;
      if record.status in {SETTLED, EXPIRED, CANCELLED, REJECTED} {
        return false;
      }
      deal := deal.(swap := Some(record.(status := EXPIRED, rejection := Some(reason))));
      deal := deal.(reservation := Settle(deal.reservation, RELEASE));
      deal := BidExpired(deal);
      return true;
    }

    method ExpireStaleSwap(now: int, reply: Lookup) returns (action: Action)
      requires deal.swap.Some?
      modifies this
      ensures deal == Sweep(old(deal), now, reply)
      ensures action == SweepAction(old(deal), now, reply)
    {
      var record := deal.swap.value;
      if !Stale(record, now) {
        return NOTHING;
      }
      if record.swapId.None? && record.attempts == 0 && record.httpAcceptedAt.None? && record.blockedAt.None? {
        var _ := ExpireRecord("PROPOSAL_NEVER_SENT");
        return EXPIRED_SWAP;
      }
      if record.swapId.None? {
        return INDETERMINATE;
      }
      match reply {
        case NoAnswer =>
          return INDETERMINATE;
        case NotFound =>
          if record.blockedAt.None? {
            return INDETERMINATE;
          }
          var _ := ExpireRecord("WALLET_SWAP_NOT_FOUND");
          return EXPIRED_SWAP;
        case Found(id, state) =>
          if id != record.swapId.value {
            return INDETERMINATE;
          }
          if state.ObsProposed? || state.ObsAccepted? {
            return if record.expiresAt.Some? && record.expiresAt.value <= now then CANCEL_REQUESTED else NOTHING;
          }
          deal := ProcessEvent(deal, Event(FactOf(state).value, record.swapId, None, None));
          if state.ObsSettled? {
            return SETTLED_FROM_WALLET;
          }
          deal := BidExpired(deal);
          return EXPIRED_SWAP;
      }
    }
  }
}

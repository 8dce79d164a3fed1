/**
 * The buyer's side of a swap: each accepted bid gets one acceptor record, and workers
 * drive it through separate transactions with HTTP calls in between, while wallet
 * events and other workers change the same record.
 */
module SwapAcceptance {
  import opened Common
  import Deals
  import opened SwapDispatch

  datatype Status = SUBMITTED | ACCEPT_SUBMITTED | PROPOSED | SETTLED | REJECTED | CANCELLED | EXPIRED

  predicate Final(s: Status) { s in {SETTLED, REJECTED, CANCELLED, EXPIRED} }

  /** `acceptKey` is missing when the swap token was found invalid. */
  datatype Record = Record(
    swapId: string, acceptKey: Option<Deals.Uuid>, status: Status, rejection: Option<string>,
    expiresAt: Option<int>, attempts: nat, error: Option<string>, retryAt: Option<int>)

  const ACCEPT_LEASE := 30 * SECOND

  datatype Reply = Accepted202 | Retry(code: string, retryAfter: Option<int>) | Refused(code: string)

  /** Where a worker is between two of its transactions; `now` is the instant of its tick. */
  datatype Phase =
    | Selected(now: int)
    | Leased(now: int)
    | Cleared(now: int)
    | InFlight(now: int)
    | Replied(now: int, reply: Reply)
    | Verified(now: int, reply: Reply)
    | Over

  // ---- Facts of the wallet ----------------------------------------------

  function StatusOf(f: Deals.Fact): Status {
    match f
    case SwapProposed => PROPOSED
    case SwapSettled => SETTLED
    case SwapRejected(_) => REJECTED
    case SwapExpired => EXPIRED
    case SwapCancelled => CANCELLED
  }

  function AfterFact(r: Record, e: Deals.Event): Record {
    if Final(r.status) then
      if e.fact.SwapSettled? then r.(status := SETTLED)
      else if r.status == REJECTED && e.fact.SwapRejected? && e.fact.reason.Some?
              && r.rejection in {None, Some("UNKNOWN_REJECTION")}
      then r.(rejection := e.fact.reason) else r
    else
      r.(status := StatusOf(e.fact), expiresAt := Deals.Merge(r.expiresAt, e.expiresAt),
         rejection := if !e.fact.SwapRejected? then r.rejection
                      else if e.fact.reason.Some? then e.fact.reason else Some("UNKNOWN_REJECTION"))
  }

  /** Proposed alone does not show that the acceptance arrived. */
  predicate Proves(r: Record, o: Observation) {
    r.swapId == o.swapId && (Final(r.status) || FactOf(o.state).Some? || o.state.ObsAccepted?)
  }

  function AfterObservation(r: Record, o: Observation): Record {
    if !Proves(r, o) || Final(r.status) then r
    else if FactOf(o.state).Some? then AfterFact(r, Deals.Event(FactOf(o.state).value, Some(r.swapId), None, None))
    else r.(status := ACCEPT_SUBMITTED, error := None)
  }

  /** The expiry sweep on an acceptor record: only the wallet's word ends it. */
  predicate StaleRecord(r: Record, now: int) {
    r.status in {SUBMITTED, PROPOSED, ACCEPT_SUBMITTED} && r.expiresAt.Some? && r.expiresAt.value <= now
  }

  predicate EndsByWallet(r: Record, now: int, reply: Lookup) {
    StaleRecord(r, now) && reply.Found? && reply.swapId == r.swapId && FactOf(reply.state).Some?
  }

  function SweepRecord(r: Record, now: int, reply: Lookup): Record {
    if EndsByWallet(r, now, reply)
    then AfterFact(r, Deals.Event(FactOf(reply.state).value, Some(r.swapId), None, None)) else r
  }

  /** What the wallet ended unsettled expires the bid that the record came from. */
  function SweepBid(b: Option<Deals.BidStatus>, r: Record, now: int, reply: Lookup): Option<Deals.BidStatus> {
    if EndsByWallet(r, now, reply) && !reply.state.ObsSettled? && b.Some? && b != Some(Deals.REJECTED_BID)
    then Some(Deals.EXPIRED_BID) else b
  }

  function SweepRecordAction(r: Record, now: int, reply: Lookup): Action {
    if !StaleRecord(r, now) then NOTHING
    else if !reply.Found? || reply.swapId != r.swapId then INDETERMINATE
    else if reply.state.ObsSettled? then SETTLED_FROM_WALLET
    else if reply.state.ObsProposed? || reply.state.ObsAccepted? then CANCEL_REQUESTED
    else EXPIRED_SWAP
  }

  // ---- The transactions of a worker -------------------------------------

  predicate Workable(r: Record, now: int) {
    && r.acceptKey.Some? && Elapsed(r.retryAt, now)
    && (r.status == SUBMITTED || (r.status == ACCEPT_SUBMITTED && r.error.Some?))
  }

  function Lease(r: Record, now: int): (Record, Phase) {
    if Final(r.status) || !Elapsed(r.retryAt, now) then (r, Over)
    else (r.(retryAt := Some(now + ACCEPT_LEASE)), Leased(now))
  }

  /** A GET that may settle the matter: before another POST, or after a refusal. */
  function Inspect(r: Record, o: Option<Observation>, next: Phase): (Record, Phase) {
    if o.None? then (r, next)
    else if Final(r.status) then (r.(retryAt := None), Over)
    else if Proves(r, o.value) then (AfterObservation(r, o.value).(retryAt := None), Over)
    else (r, next)
  }

  function Send(r: Record, now: int): (Record, Phase) {
    if r.expiresAt.Some? && r.expiresAt.value <= now then (r.(retryAt := None), Over)
    else if Final(r.status) || (r.status == ACCEPT_SUBMITTED && r.error.None?) then (r.(retryAt := None), Over)
    else (r.(attempts := r.attempts + 1, error := Some("WALLET_IN_FLIGHT"), status := ACCEPT_SUBMITTED), InFlight(now))
  }

  function RetryDelay(attempts: nat, retryAfter: Option<int>): int {
    var backoff := Min(60, Power(Min(attempts, 6)));
    Max(1, if retryAfter.Some? then Max(backoff, retryAfter.value) else backoff)
  }

  function Conclude(r: Record, now: int, reply: Reply): Record {
    if Final(r.status) then r.(retryAt := None)
    else match reply
      case Accepted202 => r.(status := ACCEPT_SUBMITTED, error := None, retryAt := None)
      case Retry(code, after) =>
        r.(error := Some(code), retryAt := Some(now + RetryDelay(r.attempts, after) * SECOND))
      case Refused(code) =>
        r.(status := REJECTED, rejection := Some("WALLET_" + code), error := Some("WALLET_ERROR:" + code), retryAt := None)
  }

  /** The record, and the status of the bid that it came from when that is on file. */
  class AcceptorRow {
    var record: Record
    var bid: Option<Deals.BidStatus>

    constructor (r: Record, b: Option<Deals.BidStatus>)
      ensures record == r && bid == b
    {
      record, bid := r, b;
    }

    /** The final status, or an unexpired lease, sends the worker away. */
    method TakeLease(now: int) returns (phase: Phase)
      modifies this`record
      ensures (record, phase) == Lease(old(record), now)
    {
      if record.status in {SETTLED, REJECTED, CANCELLED, EXPIRED} {
        return Over;
      }
      if record.retryAt.Some? && record.retryAt.value > now {
        return Over;
      }
      record := record.(retryAt := Some(now + ACCEPT_LEASE));
      return Leased(now);
    }

    method ApplyWalletObservation(o: Observation) returns (proves: bool)
      modifies this`record
      ensures record == AfterObservation(old(record), o)
      ensures proves <==> Proves(old(record), o)
    {
      if record.swapId != o.swapId {
        return false;
      }
      if Final(record.status) {
        return true;
      }
      if FactOf(o.state).Some? {
        record := AfterFact(record, Deals.Event(FactOf(o.state).value, Some(record.swapId), None, None));
        return true;
      }
      if o.state.ObsAccepted? {
        record := record.(status := ACCEPT_SUBMITTED);
        record := record.(error := None);
        return true;
      }
      return false;
    }

    method InspectKnownSwap(observed: Option<Observation>, next: Phase) returns (phase: Phase)
      modifies this`record
      ensures (record, phase) == Inspect(old(record), observed, next)
    {
      if observed.None? {
        return next;
      }
      if Final(record.status) {
        record := record.(retryAt := None);
        return Over;
      }
      var proves := ApplyWalletObservation(observed.value);
      if proves {
        record := record.(retryAt := None);
        return Over;
      }
      return next;
    }

    method PrepareSend(now: int) returns (phase: Phase)
      modifies this`record
      ensures (record, phase) == Send(old(record), now)
    {
      if (record.expiresAt.Some? && record.expiresAt.value <= now)
         || Final(record.status) || (record.status == ACCEPT_SUBMITTED && record.error.None?) {
        record := record.(retryAt := None);
        return Over;
      }
      record := record.(attempts := record.attempts + 1);
      record := record.(error := Some("WALLET_IN_FLIGHT"));
      record := record.(status := ACCEPT_SUBMITTED);
      return InFlight(now);
    }

    method ExpireStaleAcceptance(now: int, reply: Lookup) returns (action: Action)
      modifies this
      ensures record == SweepRecord(old(record), now, reply)
      ensures bid == SweepBid(old(bid), old(record), now, reply)
      ensures action == SweepRecordAction(old(record), now, reply)
      ensures action in {EXPIRED_SWAP, SETTLED_FROM_WALLET} <==> EndsByWallet(old(record), now, reply)
      ensures EndsByWallet(old(record), now, reply) ==> Final(record.status)
    {
      if !StaleRecord(record, now) {
        return NOTHING;
      }
      if !reply.Found? || reply.swapId != record.swapId {
        return INDETERMINATE;
      }
      if reply.state.ObsProposed? || reply.state.ObsAccepted? {
        return CANCEL_REQUESTED;
      }
      record := AfterFact(record, Deals.Event(FactOf(reply.state).value, Some(record.swapId), None, None));
      if reply.state.ObsSettled? {
        return SETTLED_FROM_WALLET;
      }
      if bid.Some? && bid.value !in {Deals.EXPIRED_BID, Deals.REJECTED_BID} {
        bid := Some(Deals.EXPIRED_BID);
      }
      return EXPIRED_SWAP;
    }

    method ConcludeAttempt(now: int, reply: Reply)
      modifies this`record
      ensures record == Conclude(old(record), now, reply)
    {
      if record.status in {SETTLED, REJECTED, CANCELLED, EXPIRED} {
        record := record.(retryAt := None);
        return;
      }
      match reply {
        case Accepted202 =>
          record := record.(status := ACCEPT_SUBMITTED);
          record := record.(error := None);
          record := record.(retryAt := None);
        case Retry(code, after) =>
          var backoff := Min(60, Power(Min(record.attempts, 6)));
          if after.Some? {
            backoff := Max(backoff, after.value);
          }
          record := record.(error := Some(code));
          record := record.(retryAt := Some(now + Max(1, backoff) * SECOND));
        case Refused(code) =>
          record := record.(status := REJECTED);
          record := record.(rejection := Some("WALLET_" + code));
          record := record.(error := Some("WALLET_ERROR:" + code));
          record := record.(retryAt := None);
      }
    }
  }
}

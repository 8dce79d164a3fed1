/**
 * The receiver's view of the market feed: one conservative snapshot per city and
 * cycle, updated by events that may arrive twice, late or out of order.
 */
module MarketFeed {
  import opened Common
  import opened Sorting

  datatype Body =
    | Offer(offerId: string, quantity: int, price: int)
    | Updated(offerId: string, remaining: int, price: int)
    | Withdrawn(offerId: string)
    | MarketClosed

  datatype Event = Event(city: string, msgId: string, idpk: string, cycle: string, at: int, body: Body)

  function Sender(e: Event): string {
    if e.body.MarketClosed? then "central" else e.city
  }

  datatype State = ACTIVE | UNRESOLVED | WITHDRAWN | CLOSED

  datatype Snapshot = Snapshot(
    offerId: string, initial: Option<int>, remaining: int, price: Option<int>,
    state: State, uncertain: bool, lastAt: int, lastMsgId: string)

  datatype Audit = PROCESSED | NOT_PROCESSED | DUPLICATE

  /** A claim of an identity, with everything of the operation but its msgId and timestamp. */
  datatype Claim = Claim(sender: string, idpk: string, msgId: string, city: string, cycle: string, body: Body)

  function ClaimOf(e: Event): Claim {
    Claim(Sender(e), e.idpk, e.msgId, e.city, e.cycle, e.body)
  }

  type Place = (string, string)

  datatype Feed = Feed(claims: seq<Claim>, closed: set<string>, offers: map<Place, Snapshot>)

  const EMPTY := Feed([], {}, map[])

  predicate Conflicts(c: Claim, e: Event) {
    c.sender == Sender(e) && (c.idpk == e.idpk || c.msgId == e.msgId)
  }

  predicate Taken(claims: seq<Claim>, e: Event) {
    exists i | 0 <= i < |claims| :: Conflicts(claims[i], e)
  }

  function FirstConflict(claims: seq<Claim>, e: Event): (i: nat)
    requires Taken(claims, e)
    ensures i < |claims| && Conflicts(claims[i], e)
    ensures forall j | 0 <= j < i :: !Conflicts(claims[j], e)
  {
    if Conflicts(claims[0], e) then 0
    else
      var i :| 0 <= i < |claims| && Conflicts(claims[i], e);
      assert claims[1..][i - 1] == claims[i];
      1 + FirstConflict(claims[1..], e)
  }

  /** A repeat of the claimed operation, as opposed to its identity reused for another one. */
  predicate SameOperation(c: Claim, e: Event) {
    c.idpk == e.idpk && c.city == e.city && c.cycle == e.cycle && c.body == e.body
  }

  // ---- One event on one snapshot ----------------------------------------

  function Created(e: Event): Snapshot
    requires !e.body.MarketClosed?
  {
    match e.body
    case Offer(id, q, p) => Snapshot(id, Some(q), q, Some(p), ACTIVE, false, e.at, e.msgId)
    case Updated(id, r, p) => Snapshot(id, None, r, Some(p), UNRESOLVED, true, e.at, e.msgId)
    case Withdrawn(id) => Snapshot(id, None, 0, None, WITHDRAWN, true, e.at, e.msgId)
  }

  predicate TooLate(s: Snapshot, e: Event) {
    s.state in {WITHDRAWN, CLOSED} || e.at <= s.lastAt
  }

  function Changed(s: Snapshot, e: Event): Snapshot
    requires !e.body.MarketClosed?
  {
    if s.offerId != e.body.offerId then s.(uncertain := true)
    else match e.body
      case Offer(_, q, _) =>
        if s.state == UNRESOLVED && e.at < s.lastAt
        then s.(initial := Some(q), state := ACTIVE, uncertain := true)
        else s.(uncertain := true)
      case Updated(_, r, p) =>
        if TooLate(s, e) then s.(uncertain := true)
        else s.(remaining := r, price := Some(p), lastAt := e.at, lastMsgId := e.msgId)
      case Withdrawn(_) =>
        if TooLate(s, e) then s.(uncertain := true)
        else s.(state := WITHDRAWN, remaining := 0, lastAt := e.at, lastMsgId := e.msgId)
  }

  function ApplyOffer(f: Feed, e: Event): Feed
    requires !e.body.MarketClosed?
  {
    var place := (e.cycle, e.city);
    if e.cycle in f.closed then f
    else if place !in f.offers then f.(offers := f.offers[place := Created(e)])
    else f.(offers := f.offers[place := Changed(f.offers[place], e)])
  }

  function Shut(s: Snapshot): Snapshot {
    if s.state in {ACTIVE, UNRESOLVED} then s.(state := CLOSED) else s
  }

  function ApplyClosed(f: Feed, e: Event): Feed {
    if e.cycle in f.closed then f
    else f.(closed := f.closed + {e.cycle},
            offers := map p | p in f.offers ::
                        if p.0 == e.cycle then Shut(f.offers[p]) else f.offers[p])
  }

  function Deliver(f: Feed, e: Event): Feed {
    if Taken(f.claims, e) then f
    else
      var claimed := f.(claims := f.claims + [ClaimOf(e)]);
      if e.body.MarketClosed? then ApplyClosed(claimed, e) else ApplyOffer(claimed, e)
  }

  function Run(es: seq<Event>): Feed {
    if es == [] then EMPTY else Deliver(Run(es[..|es| - 1]), es[|es| - 1])
  }

  // ---- The tables as an object ------------------------------------------

  class FeedStore {
    var claims: seq<Claim>
    var closed: set<string>
    var offers: map<Place, Snapshot>

    ghost function State(): Feed reads this { Feed(claims, closed, offers) }

    constructor ()
      ensures State() == EMPTY
    {
      claims, closed, offers := [], {}, map[];
    }

    method ApplyOfferEvent(e: Event) returns (audit: Audit)
      requires !e.body.MarketClosed?
      modifies this`offers
      ensures State() == ApplyOffer(old(State()), e)
      ensures audit == PROCESSED || audit == NOT_PROCESSED
      ensures e.cycle in closed ==> audit == NOT_PROCESSED
    {
      if e.cycle in closed {
        return NOT_PROCESSED;
      }
      var place := (e.cycle, e.city);
      if place !in offers {
        offers := offers[place := Created(e)];
        return if e.body.Updated? then NOT_PROCESSED else PROCESSED;
      }
      var snapshot := offers[place];
      audit := NOT_PROCESSED;
      if snapshot.offerId != e.body.offerId {
        snapshot := snapshot.(uncertain := true);
      } else if e.body.Offer? {
        if snapshot.state == UNRESOLVED && e.at < snapshot.lastAt {
          snapshot := snapshot.(initial := Some(e.body.quantity), state := ACTIVE);
          audit := PROCESSED;
        }
        snapshot := snapshot.(uncertain := true);
      } else if snapshot.state == WITHDRAWN || snapshot.state == CLOSED || e.at <= snapshot.lastAt {
        snapshot := snapshot.(uncertain := true);
      } else if e.body.Updated? {
        snapshot := snapshot.(remaining := e.body.remaining, price := Some(e.body.price));
        snapshot := snapshot.(lastAt := e.at, lastMsgId := e.msgId);
        audit := PROCESSED;
      } else {
        snapshot := snapshot.(state := WITHDRAWN, remaining := 0);
        snapshot := snapshot.(lastAt := e.at, lastMsgId := e.msgId);
        audit := PROCESSED;
      }
      offers := offers[place := snapshot];
    }

    method ApplyMarketClosed(e: Event) returns (audit: Audit)
      modifies this`offers, this`closed
      ensures State() == ApplyClosed(old(State()), e)
      ensures audit == if e.cycle in old(closed) then NOT_PROCESSED else PROCESSED
    {
      if e.cycle in closed {
        return NOT_PROCESSED;
      }
      closed := closed + {e.cycle};
      var places := set p | p in offers && p.0 == e.cycle;
      ghost var before := offers;
      while places != {}
        invariant offers.Keys == before.Keys && closed == old(closed) + {e.cycle}
        invariant places <= offers.Keys && forall p | p in places :: p.0 == e.cycle
        invariant forall p | p in offers ::
          offers[p] == if p.0 == e.cycle && p !in places then Shut(before[p]) else before[p]
        decreases |places|
      {
        var place :| place in places;
        var snapshot := offers[place];
        if snapshot.state == ACTIVE || snapshot.state == UNRESOLVED {
          offers := offers[place := snapshot.(state := CLOSED)];
        }
        places := places - {place};
      }
      return PROCESSED;
    }

    method PersistMarketFeed(e: Event) returns (audit: Audit)
      modifies this
      ensures State() == Deliver(old(State()), e)
      ensures !Taken(old(claims), e) ==> audit != DUPLICATE
      ensures Taken(old(claims), e) ==>
        audit == if SameOperation(old(claims)[FirstConflict(old(claims), e)], e) then DUPLICATE else NOT_PROCESSED
    {
      if Taken(claims, e) {
        var existing := claims[FirstConflict(claims, e)];
        return if SameOperation(existing, e) then DUPLICATE else NOT_PROCESSED;
      }
      claims := claims + [ClaimOf(e)];
      if e.body.MarketClosed? {
        audit := ApplyMarketClosed(e);
      } else {
        audit := ApplyOfferEvent(e);
      }
    }
  }

  // ---- The history a snapshot stands for --------------------------------

  predicate SameIdentity(a: Event, b: Event) {
    Sender(a) == Sender(b) && (a.idpk == b.idpk || a.msgId == b.msgId)
  }

  predicate Known(log: seq<Event>, e: Event) {
    exists i | 0 <= i < |log| :: SameIdentity(log[i], e)
  }

  /** The events of an arrival sequence that claim an identity first. */
  function Admitted(es: seq<Event>): seq<Event> {
    if es == [] then []
    else
      var earlier, e := Admitted(es[..|es| - 1]), es[|es| - 1];
      if Known(earlier, e) then earlier else earlier + [e]
  }

  predicate Closes(es: seq<Event>, cycle: string) {
    exists i | 0 <= i < |es| :: es[i].body.MarketClosed? && es[i].cycle == cycle
  }

  /** The offer events of a city in a cycle that come before the cycle's close. */
  function OffersBeforeClose(es: seq<Event>, place: Place): seq<Event> {
    if es == [] then []
    else
      var before, e := es[..|es| - 1], es[|es| - 1];
      OffersBeforeClose(before, place)
      + (if !e.body.MarketClosed? && (e.cycle, e.city) == place && !Closes(before, place.0) then [e] else [])
  }

  /** One offer, then updates at strictly later instants, then at most one final withdrawal. */
  ghost predicate WellOrdered(log: seq<Event>) {
    && |log| > 0 && log[0].body.Offer?
    && (forall i | 0 <= i < |log| :: !log[i].body.MarketClosed? && log[i].body.offerId == log[0].body.offerId)
    && (forall i | 0 < i < |log| :: log[i].body.Updated? || (log[i].body.Withdrawn? && i == |log| - 1))
    && (forall i, j | 0 <= i < j < |log| :: log[i].at < log[j].at)
  }

  predicate EarlierOrSame(a: Event, b: Event) { a.at <= b.at }

  function Level(b: Body): int {
    match b
    case Offer(_, q, _) => q
    case Updated(_, r, _) => r
    case Withdrawn(_) => 0
    case MarketClosed => 0
  }

  /** What a reader of the events in timestamp order believes at the end. */
  function Replay(log: seq<Event>, closed: bool): Snapshot
    requires |log| > 0 && log[0].body.Offer?
    requires forall i | 0 < i < |log| :: log[i].body.Updated? || (log[i].body.Withdrawn? && i == |log| - 1)
  {
    var n := |log| - 1;
    var last := log[n].body;
    Snapshot(log[0].body.offerId, Some(log[0].body.quantity), Level(last),
             Some(if last.Withdrawn? then log[n - 1].body.price else last.price),
             if last.Withdrawn? then WITHDRAWN else if closed then CLOSED else ACTIVE,
             false, log[n].at, log[n].msgId)
  }

  lemma OrderedIsSorted(log: seq<Event>)
    requires WellOrdered(log)
    ensures Sort(EarlierOrSame, log) == log
  {
    SortOfSorted(EarlierOrSame, log);
  }

  // ---- Main results -----------------------------------------------------

  lemma {:induction false} ClaimsAreAdmitted(es: seq<Event>)
    ensures |Run(es).claims| == |Admitted(es)|
    ensures forall i | 0 <= i < |Admitted(es)| :: Run(es).claims[i] == ClaimOf(Admitted(es)[i])
    decreases |es|, 0
  {
    if es != [] {
      ClaimsAreAdmitted(es[..|es| - 1]);
      TakenIffAdmitted(es[..|es| - 1], es[|es| - 1]);
    }
  }

  lemma {:induction false} TakenIffAdmitted(es: seq<Event>, e: Event)
    ensures Taken(Run(es).claims, e) <==> Known(Admitted(es), e)
    decreases |es|, 1
  {
    ClaimsAreAdmitted(es);
    var claims, log := Run(es).claims, Admitted(es);
    if Taken(claims, e) {
      var i :| 0 <= i < |claims| && Conflicts(claims[i], e);
      assert SameIdentity(log[i], e);
    }
    if Known(log, e) {
      var i :| 0 <= i < |log| && SameIdentity(log[i], e);
      assert Conflicts(claims[i], e);
    }
  }

  /** What the snapshot of a place is, given its offer events before the close. */
  ghost predicate Reflects(f: Feed, log: seq<Event>, closed: bool, place: Place) {
    && (place.0 in f.closed <==> closed)
    && (place in f.offers <==> log != [])
    && (log != [] ==>
          && (f.offers[place].uncertain <==> !WellOrdered(log))
          && (WellOrdered(log) ==> f.offers[place] == Replay(log, closed)))
  }

  /** An ordered log stays ordered exactly when the next event is a later one of the same offer. */
  lemma OrderedExtends(log: seq<Event>, e: Event)
    requires WellOrdered(log) && !e.body.MarketClosed?
    ensures WellOrdered(log + [e]) <==>
      && e.body.offerId == log[0].body.offerId && !e.body.Offer?
      && !log[|log| - 1].body.Withdrawn? && log[|log| - 1].at < e.at
  {
    var n, log' := |log|, log + [e];
    assert log'[n] == e && log'[n - 1] == log[n - 1];
    if e.body.offerId == log[0].body.offerId && !e.body.Offer?
       && !log[n - 1].body.Withdrawn? && log[n - 1].at < e.at {
      forall i, j | 0 <= i < j < |log'| ensures log'[i].at < log'[j].at {
        if j == n && i < n - 1 {
          assert log[i].at < log[n - 1].at;
        }
      }
    }
  }

  lemma DisorderRemains(log: seq<Event>, e: Event)
    requires log != [] && !WellOrdered(log)
    ensures !WellOrdered(log + [e])
  {
    var log' := log + [e];
    if WellOrdered(log') {
      forall i | 0 <= i < |log| ensures log[i] == log'[i] {
      }
      assert WellOrdered(log);
    }
  }

  lemma OfferKeepsReflecting(f: Feed, log: seq<Event>, closed: bool, place: Place, e: Event)
    requires Reflects(f, log, closed, place) && !e.body.MarketClosed?
    ensures var log' := log + (if (e.cycle, e.city) == place && !closed then [e] else []);
            Reflects(ApplyOffer(f, e), log', closed, place)
  {
    assert log + [] == log;
    if (e.cycle, e.city) == place && !closed {
      if log == [] {
        assert log + [e] == [e];
      } else if WellOrdered(log) {
        OrderedExtends(log, e);
        assert (log + [e])[|log| - 1] == log[|log| - 1];
      } else {
        DisorderRemains(log, e);
      }
    }
  }

  lemma CloseKeepsReflecting(f: Feed, log: seq<Event>, closed: bool, place: Place, e: Event)
    requires Reflects(f, log, closed, place)
    ensures Reflects(ApplyClosed(f, e), log, closed || e.cycle == place.0, place)
  {
  }

  /**
   * For every arrival sequence, a snapshot is certain exactly when the events it
   * admitted before the close are in order, and then it is their replay by timestamp.
   */
  lemma {:induction false} SnapshotIsSortedReplay(es: seq<Event>, place: Place)
    ensures var log, closed := OffersBeforeClose(Admitted(es), place), Closes(Admitted(es), place.0);
            && Reflects(Run(es), log, closed, place)
            && (WellOrdered(log) ==> Sort(EarlierOrSame, log) == log)
  {
    if es != [] {
      var before, e := es[..|es| - 1], es[|es| - 1];
      SnapshotIsSortedReplay(before, place);
      TakenIffAdmitted(before, e);
      var f, past := Run(before), Admitted(before);
      if !Taken(f.claims, e) {
        assert Admitted(es)[..|past|] == past;
        var log, closed := OffersBeforeClose(past, place), Closes(past, place.0);
        var claimed := f.(claims := f.claims + [ClaimOf(e)]);
        assert Reflects(claimed, log, closed, place);
        ClosesAfter(past, e, place.0);
        if e.body.MarketClosed? {
          CloseKeepsReflecting(claimed, log, closed, place, e);
          assert log + [] == log;
        } else {
          OfferKeepsReflecting(claimed, log, closed, place, e);
        }
      }
    }
    var log := OffersBeforeClose(Admitted(es), place);
    if WellOrdered(log) {
      OrderedIsSorted(log);
    }
  }

  lemma ClosesAfter(es: seq<Event>, e: Event, cycle: string)
    ensures Closes(es + [e], cycle) <==> Closes(es, cycle) || (e.body.MarketClosed? && e.cycle == cycle)
  {
    if Closes(es, cycle) {
      var i :| 0 <= i < |es| && es[i].body.MarketClosed? && es[i].cycle == cycle;
      assert (es + [e])[i] == es[i];
    }
    assert (es + [e])[|es|] == e;
  }

  /**
   * No event clears an uncertainty, revives a withdrawn or closed snapshot, or
   * touches any snapshot of a cycle that is already closed.
   */
  lemma NoEventRevives(f: Feed, e: Event, place: Place)
    requires place in f.offers
    ensures place in Deliver(f, e).offers
    ensures f.offers[place].uncertain ==> Deliver(f, e).offers[place].uncertain
    ensures f.offers[place].state in {WITHDRAWN, CLOSED} ==>
              Deliver(f, e).offers[place].state == f.offers[place].state
              && Deliver(f, e).offers[place].remaining == f.offers[place].remaining
    ensures place.0 in f.closed ==> Deliver(f, e).offers[place] == f.offers[place]
  {
  }

  /** What the arrival of anything leaves of a snapshot that is uncertain, ended, or of a closed cycle. */
  ghost predicate EndKept(f: Feed, f': Feed, place: Place) {
    && place in f.offers && place in f'.offers
    && (f.offers[place].uncertain ==> f'.offers[place].uncertain)
    && (f.offers[place].state in {WITHDRAWN, CLOSED} ==>
          f'.offers[place].state == f.offers[place].state && f'.offers[place].remaining == f.offers[place].remaining)
    && (place.0 in f.closed ==> place.0 in f'.closed && f'.offers[place] == f.offers[place])
  }

  lemma OneMoreArrival(f: Feed, f1: Feed, e: Event, place: Place)
    requires EndKept(f, f1, place)
    ensures EndKept(f, Deliver(f1, e), place)
  {
    NoEventRevives(f1, e, place);
  }

  /** After any arrivals, no further arrivals clear an uncertainty, revive an ended snapshot or touch a closed cycle. */
  lemma {:induction false} NoArrivalsRevive(es: seq<Event>, more: seq<Event>, place: Place)
    requires place in Run(es).offers
    ensures EndKept(Run(es), Run(es + more), place)
  {
    if more == [] {
      assert es + [] == es;
    } else {
      var n := |more| - 1;
      assert (es + more)[..|es| + n] == es + more[..n] && (es + more)[|es| + n] == more[n];
      NoArrivalsRevive(es, more[..n], place);
      OneMoreArrival(Run(es), Run(es + more[..n]), more[n], place);
    }
  }
}

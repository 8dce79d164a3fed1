/**
 * The sweep that is to leave no local energy in a closed market: what it does to each
 * opened cycle in any run of messages and sweeps, and exactly when it falls short.
 */
module ClosingSweep {
  import opened Common
  import opened Sorting
  import opened Ledger
  import opened LedgerLaws
  import opened CycleAccounting

  datatype Times = Times(closesAt: Option<int>, reportOpensAt: Option<int>)

  /** What the sweep reads besides the ledger: market times, and the cycles with a settlement. */
  datatype Sweep = Sweep(times: map<string, Times>, settled: set<string>, now: int)

  predicate Ended(t: Times, now: int) {
    (t.closesAt.Some? && t.closesAt.value <= now) || (t.reportOpensAt.Some? && t.reportOpensAt.value <= now)
  }

  /** The central opened the cycle, and its market closed or its report window opened. */
  predicate Selected(b: Book, id: string, sw: Sweep) {
    id in b.cycles && b.cycles[id].statusKey.Some? && id in sw.times && Ended(sw.times[id], sw.now)
  }

  function CloseKey(cycle: string, settled: bool): string {
    if settled then "close:" + cycle else "fallback:" + cycle
  }

  function CloseOperation(settled: bool): Operation {
    if settled then ImbalanceClose else ImbalanceBurnFallback
  }

  predicate Burnt(b: Book, id: string, settled: bool) {
    Recorded(b.entries, Given(CloseKey(id, settled)), CloseOperation(settled))
  }

  function SweepOne(b: Book, id: string, sw: Sweep): Book {
    if Selected(b, id, sw)
    then BurnLeft(b, id, CloseKey(id, id in sw.settled), CloseOperation(id in sw.settled)) else b
  }

  function SweepAll(b: Book, order: seq<string>, sw: Sweep): Book {
    if order == [] then b
    else SweepOne(SweepAll(b, order[..|order| - 1], sw), order[|order| - 1], sw)
  }

  function ById(a: string, b: string): bool {
    a == "" || (b != "" && (a[0] < b[0] || (a[0] == b[0] && ById(a[1..], b[1..]))))
  }

  function Order(b: Book): seq<string> { Sort(ById, b.table) }

  function Tidy(b: Book, sw: Sweep): Book { SweepAll(b, Order(b), sw) }

  function CountSelected(b: Book, order: seq<string>, sw: Sweep, withEnergy: bool): nat {
    if order == [] then 0
    else
      var id := order[|order| - 1];
      CountSelected(b, order[..|order| - 1], sw, withEnergy)
      + (if Selected(b, id, sw) && (withEnergy ==> b.cycles[id].energy != 0) then 1 else 0)
  }

  // ---- One cycle --------------------------------------------------------

  /** Nothing about the cycle changed. */
  ghost predicate Untouched(b: Book, b': Book, id: string) {
    && (id in b'.cycles <==> id in b.cycles) && (id in b.cycles ==> b'.cycles[id] == b.cycles[id])
    && (forall settled :: Burnt(b', id, settled) <==> Burnt(b, id, settled))
  }

  /** No energy is left unless this burn was posted before; a burn of some energy is on record after. */
  ghost predicate Swept(b: Book, b': Book, id: string, sw: Sweep) {
    && (id in b'.cycles <==> id in b.cycles)
    && (id in b.cycles ==>
          && b'.cycles[id].statusKey == b.cycles[id].statusKey && b'.cycles[id].validUntil == b.cycles[id].validUntil
          && b'.cycles[id].energy
             == (if Selected(b, id, sw) && !Burnt(b, id, id in sw.settled) then 0 else b.cycles[id].energy))
    && (forall settled :: Burnt(b', id, settled) <==>
          Burnt(b, id, settled)
          || (settled == (id in sw.settled) && Selected(b, id, sw) && b.cycles[id].energy != 0))
  }

  lemma RecordedOfOneMore(entries: seq<Entry>, e: Entry, key: Key, operation: Operation)
    ensures Recorded(entries + [e], key, operation) <==>
              Recorded(entries, key, operation) || (e.effect.key == key && e.effect.operation == operation)
  {
    if Recorded(entries, key, operation) {
      var i :| 0 <= i < |entries| && entries[i].effect.key == key && entries[i].effect.operation == operation;
      assert (entries + [e])[i] == entries[i];
    }
    assert (entries + [e])[|entries|] == e;
  }

  lemma KeysDiffer(a: string, b: string, settled: bool)
    requires a != b
    ensures CloseKey(a, settled) != CloseKey(b, settled)
  {
    var prefix := if settled then "close:" else "fallback:";
    assert CloseKey(a, settled)[|prefix|..] == a && CloseKey(b, settled)[|prefix|..] == b;
  }

  lemma BurntOfOneMore(b: Book, e: Effect, cycle: string, settled: bool)
    requires e.cycle in b.cycles
    ensures Burnt(Append(b, e), cycle, settled) <==>
              Burnt(b, cycle, settled) || (e.key == Given(CloseKey(cycle, settled)) && e.operation == CloseOperation(settled))
  {
    RecordedOfOneMore(b.entries, Append(b, e).entries[|b.entries|], Given(CloseKey(cycle, settled)), CloseOperation(settled));
  }

  lemma SweepOneSweeps(b: Book, id: string, sw: Sweep)
    ensures Swept(b, SweepOne(b, id, sw), id, sw)
  {
    if Selected(b, id, sw) && b.cycles[id].energy != 0 && !Burnt(b, id, id in sw.settled) {
      var e := Burn(id, CloseKey(id, id in sw.settled), CloseOperation(id in sw.settled), b.cycles[id].energy);
      forall settled ensures Burnt(Append(b, e), id, settled) <==> Burnt(b, id, settled) || settled == (id in sw.settled) {
        BurntOfOneMore(b, e, id, settled);
      }
    }
  }

  lemma SweepOneSparesOthers(b: Book, id: string, sw: Sweep, other: string)
    requires other != id
    ensures Untouched(b, SweepOne(b, id, sw), other)
  {
    if Selected(b, id, sw) && b.cycles[id].energy != 0 && !Burnt(b, id, id in sw.settled) {
      var e := Burn(id, CloseKey(id, id in sw.settled), CloseOperation(id in sw.settled), b.cycles[id].energy);
      forall settled ensures Burnt(Append(b, e), other, settled) <==> Burnt(b, other, settled) {
        BurntOfOneMore(b, e, other, settled);
        KeysDiffer(id, other, settled);
      }
    }
  }

  lemma {:induction false} SweepSparesUnlisted(b: Book, order: seq<string>, sw: Sweep, id: string)
    requires id !in order
    ensures Untouched(b, SweepAll(b, order, sw), id)
  {
    if order != [] {
      var n := |order| - 1;
      SweepSparesUnlisted(b, order[..n], sw, id);
      SweepOneSparesOthers(SweepAll(b, order[..n], sw), order[n], sw, id);
    }
  }

  lemma {:induction false} SweepReachesListed(b: Book, order: seq<string>, sw: Sweep, id: string)
    requires NoRepeats(order) && id in order
    ensures Swept(b, SweepAll(b, order, sw), id, sw)
  {
    var n := |order| - 1;
    var b1 := SweepAll(b, order[..n], sw);
    if id == order[n] {
      SweepSparesUnlisted(b, order[..n], sw, id);
      SweepOneSweeps(b1, id, sw);
    } else {
      SweepReachesListed(b, order[..n], sw, id);
      SweepOneSparesOthers(b1, order[n], sw, id);
    }
  }

  // ---- The whole sweep --------------------------------------------------

  lemma OrderListsCycles(b: Book)
    requires WellFormed(b)
    ensures NoRepeats(Order(b)) && forall id :: id in Order(b) <==> id in b.cycles
  {
    var order := Order(b);
    SortPermutes(ById, b.table);
    forall id ensures id in order <==> id in b.table {
      assert id in order <==> id in multiset(order);
      assert id in b.table <==> id in multiset(b.table);
    }
    PermutationRepeatsNot(b.table, order);
  }

  lemma {:induction false} CountsOnce(ids: seq<string>, id: string)
    requires NoRepeats(ids)
    ensures multiset(ids)[id] <= 1
  {
    if ids != [] {
      assert ids == [ids[0]] + ids[1..];
      CountsOnce(ids[1..], id);
      if ids[0] == id {
        assert multiset(ids[1..])[id] == 0;
      }
    }
  }

  lemma TwiceCounts(ids: seq<string>, i: nat, j: nat)
    requires i < j < |ids| && ids[i] == ids[j]
    ensures multiset(ids)[ids[i]] >= 2
  {
    assert ids == ids[..i] + [ids[i]] + ids[i + 1..j] + [ids[j]] + ids[j + 1..];
  }

  lemma PermutationRepeatsNot(ids: seq<string>, order: seq<string>)
    requires NoRepeats(ids) && multiset(order) == multiset(ids)
    ensures NoRepeats(order)
  {
    forall i, j | 0 <= i < j < |order| ensures order[i] != order[j] {
      CountsOnce(ids, order[i]);
      if order[i] == order[j] {
        TwiceCounts(order, i, j);
      }
    }
  }

  /** One sweep, for every cycle of the ledger. */
  lemma TidySweepsAll(b: Book, sw: Sweep, id: string)
    requires WellFormed(b) && id in b.cycles
    ensures Swept(b, Tidy(b, sw), id, sw)
  {
    OrderListsCycles(b);
    SweepReachesListed(b, Order(b), sw, id);
  }

  /** What the first n cycles of the order leave, and the counts so far. */
  ghost predicate Finalized(b: Book, order: seq<string>, sw: Sweep, n: nat, b': Book, examined: nat, burns: nat) {
    && n <= |order| && b' == SweepAll(b, order[..n], sw)
    && examined == CountSelected(b, order[..n], sw, false) && burns == CountSelected(b, order[..n], sw, true)
  }

  /** The sweep so far has not touched the next cycle, so it counts as it was at the start. */
  lemma FinalizedOneMore(b: Book, order: seq<string>, sw: Sweep, n: nat, b1: Book, examined: nat, burns: nat)
    requires WellFormed(b) && order == Order(b) && n < |order| && Finalized(b, order, sw, n, b1, examined, burns)
    ensures var selected := Selected(b1, order[n], sw);
            Finalized(b, order, sw, n + 1, SweepOne(b1, order[n], sw),
                      examined + (if selected then 1 else 0),
                      burns + (if selected && b1.cycles[order[n]].energy != 0 then 1 else 0))
  {
    OrderListsCycles(b);
    assert order[..n + 1][..n] == order[..n];
    SweepSparesUnlisted(b, order[..n], sw, order[n]);
  }

  /** The counts are the cycles that the query selects, and those among them with energy. */
  method FinalizeClosedMarkets(ledger: CityLedger, sw: Sweep) returns (examined: nat, burns: nat)
    requires WellFormed(ledger.State())
    modifies ledger
    ensures ledger.State() == Tidy(old(ledger.State()), sw)
    ensures examined == CountSelected(old(ledger.State()), Order(old(ledger.State())), sw, false)
    ensures burns == CountSelected(old(ledger.State()), Order(old(ledger.State())), sw, true)
  {
    ghost var b := ledger.State();
    var order := Sort(ById, ledger.table);
    examined, burns := 0, 0;
    for i := 0 to |order|
      invariant Finalized(b, order, sw, i, ledger.State(), examined, burns)
    {
      FinalizedOneMore(b, order, sw, i, ledger.State(), examined, burns);
      var selected, burnt := FinalizeCycle(ledger, order[i], sw);
      examined := examined + if selected then 1 else 0;
      burns := burns + if burnt then 1 else 0;
    }
    assert order[..|order|] == order;
  }

  method FinalizeCycle(ledger: CityLedger, id: string, sw: Sweep) returns (selected: bool, burnt: bool)
    modifies ledger
    ensures ledger.State() == SweepOne(old(ledger.State()), id, sw)
    ensures selected <==> Selected(old(ledger.State()), id, sw)
    ensures burnt <==> selected && old(ledger.State()).cycles[id].energy != 0
  {
    selected := id in ledger.cycles && ledger.cycles[id].statusKey.Some? && id in sw.times && Ended(sw.times[id], sw.now);
    burnt := false;
    if selected && ledger.cycles[id].energy != 0 {
      var settled := id in sw.settled;
      var burn := Burn(id, CloseKey(id, settled), CloseOperation(settled), ledger.cycles[id].energy);
      var _ := ledger.ApplyLedgerEffect(burn, true);
      burnt := true;
    }
  }

  // ---- Runs of messages and sweeps --------------------------------------

  datatype Act = Arrive(message: Message) | Clean(sweep: Sweep)

  function History(acts: seq<Act>): Log {
    if acts == [] then Log(NEW_BOOK, {})
    else
      var l := History(acts[..|acts| - 1]);
      match acts[|acts| - 1]
      case Arrive(m) => Receive(l, m)
      case Clean(sw) => l.(book := Tidy(l.book, sw))
  }

  /** Messages book business effects under their own keys; only the sweep books the closing burns. */
  predicate OrdinaryMessage(m: Message) {
    m.request.Post? ==>
      m.request.effect.key.Given?
      && m.request.effect.operation !in {BudgetCarryover, ImbalanceClose, ImbalanceBurnFallback}
  }

  predicate Ordinary(acts: seq<Act>) {
    forall a | a in acts :: a.Arrive? ==> OrdinaryMessage(a.message)
  }

  lemma SweepOneStaysSound(b: Book, id: string, sw: Sweep)
    requires Sound(b)
    ensures Sound(SweepOne(b, id, sw))
  {
    if Selected(b, id, sw) && b.cycles[id].energy != 0 && !Burnt(b, id, id in sw.settled) {
      ApplyStaysSound(b, Burn(id, CloseKey(id, id in sw.settled), CloseOperation(id in sw.settled), b.cycles[id].energy));
    }
  }

  lemma {:induction false} SweepAllStaysSound(b: Book, order: seq<string>, sw: Sweep)
    requires Sound(b)
    ensures Sound(SweepAll(b, order, sw))
  {
    if order != [] {
      SweepAllStaysSound(b, order[..|order| - 1], sw);
      SweepOneStaysSound(SweepAll(b, order[..|order| - 1], sw), order[|order| - 1], sw);
    }
  }

  lemma EmptyIsSound()
    ensures Sound(NEW_BOOK)
  {
    assert Run([]) == Log(NEW_BOOK, {});
    EveryRunIsSound([]);
  }

  lemma ArrivalStaysSound(l: Log, m: Message)
    requires Sound(l.book) && OrdinaryMessage(m)
    ensures Sound(Receive(l, m).book)
  {
    assert FromMessages([m]);
    MessageStaysSound(l, m);
  }

  /** Sweeps between messages keep the ledger sound. */
  lemma {:induction false} EveryHistoryIsSound(acts: seq<Act>)
    requires Ordinary(acts)
    ensures Sound(History(acts).book)
  {
    if acts == [] {
      EmptyIsSound();
    } else {
      var n := |acts| - 1;
      EveryHistoryIsSound(acts[..n]);
      match acts[n]
      case Arrive(m) => ArrivalStaysSound(History(acts[..n]), m);
      case Clean(sw) => SweepAllStaysSound(History(acts[..n]).book, Order(History(acts[..n]).book), sw);
    }
  }

  // ---- Which burns are on record ----------------------------------------

  /** Act i is a sweep that finds energy in the cycle while it is settled, or is not. */
  ghost predicate BurnsAt(acts: seq<Act>, i: nat, id: string, settled: bool)
    requires i < |acts|
  {
    && acts[i].Clean? && (id in acts[i].sweep.settled) == settled
    && var b := History(acts[..i]).book;
    Selected(b, id, acts[i].sweep) && b.cycles[id].energy != 0
  }

  ghost predicate BurntBefore(acts: seq<Act>, id: string, settled: bool) {
    exists i | 0 <= i < |acts| :: BurnsAt(acts, i, id, settled)
  }

  lemma MessagesBurnNothing(l: Log, m: Message, id: string, settled: bool)
    requires Sound(l.book) && OrdinaryMessage(m)
    ensures Burnt(Receive(l, m).book, id, settled) <==> Burnt(l.book, id, settled)
  {
    var burn := Effect(id, Given(CloseKey(id, settled)), CloseOperation(settled), None, 0, 0);
    assert FromMessages([m]);
    MessageRecordsOnce(l, m);
    RecordedIsSeen(l.book.entries, burn);
    RecordedIsSeen(Receive(l, m).book.entries, burn);
    if m.request.Post? {
      SeenBesides(Business(l.book.entries), m.request.effect, burn);
    }
  }

  lemma BurntBeforeOneMore(acts: seq<Act>, id: string, settled: bool)
    requires acts != []
    ensures BurntBefore(acts, id, settled) <==>
              BurntBefore(acts[..|acts| - 1], id, settled) || BurnsAt(acts, |acts| - 1, id, settled)
  {
    var before := acts[..|acts| - 1];
    forall i | 0 <= i < |before| ensures BurnsAt(before, i, id, settled) <==> BurnsAt(acts, i, id, settled) {
      assert before[..i] == acts[..i];
    }
  }

  lemma TidyBurns(b: Book, sw: Sweep, id: string, settled: bool)
    requires WellFormed(b)
    ensures Burnt(Tidy(b, sw), id, settled) <==>
              Burnt(b, id, settled)
              || (settled == (id in sw.settled) && Selected(b, id, sw) && b.cycles[id].energy != 0)
  {
    OrderListsCycles(b);
    if id in b.cycles {
      TidySweepsAll(b, sw, id);
    } else {
      SweepSparesUnlisted(b, Order(b), sw, id);
    }
  }

  /** A closing burn is on record exactly when an earlier sweep of its kind found energy. */
  lemma {:induction false} BurntIffSweptBefore(acts: seq<Act>, id: string, settled: bool)
    requires Ordinary(acts)
    ensures Burnt(History(acts).book, id, settled) <==> BurntBefore(acts, id, settled)
  {
    if acts != [] {
      var n := |acts| - 1;
      EveryHistoryIsSound(acts[..n]);
      BurntIffSweptBefore(acts[..n], id, settled);
      BurntBeforeOneMore(acts, id, settled);
      match acts[n]
      case Arrive(m) => MessagesBurnNothing(History(acts[..n]), m, id, settled);
      case Clean(sw) => TidyBurns(History(acts[..n]).book, sw, id, settled);
    }
  }

  // ---- Main results -----------------------------------------------------

  /**
   * After any history, a sweep leaves no energy in a closed cycle if and only if there
   * was none, or no earlier sweep of the same kind, with or without a settlement, had
   * found any. What it does not select it leaves as it is.
   */
  lemma SweepLeavesNothingIff(acts: seq<Act>, sw: Sweep, id: string)
    requires Ordinary(acts) && id in History(acts).book.cycles
    ensures var b, b' := History(acts).book, History(acts + [Clean(sw)]).book;
            && id in b'.cycles
            && (Selected(b, id, sw) ==>
                  (b'.cycles[id].energy == 0 <==>
                     b.cycles[id].energy == 0 || !BurntBefore(acts, id, id in sw.settled)))
            && (!Selected(b, id, sw) ==> b'.cycles[id].energy == b.cycles[id].energy)
  {
    assert (acts + [Clean(sw)])[..|acts|] == acts;
    EveryHistoryIsSound(acts);
    BurntIffSweptBefore(acts, id, id in sw.settled);
    TidySweepsAll(History(acts).book, sw, id);
  }

  /** What a message that books an effect for the first time does to its cycle. */
  lemma ArrivalMovesEnergy(l: Log, m: Message, id: string)
    requires Sound(l.book) && OrdinaryMessage(m) && m.idpk !in l.processed
    requires m.request.Post? && m.request.effect.cycle == id && !Seen(Business(l.book.entries), m.request.effect)
    requires id in l.book.cycles && id in Deadlines(l.book)
    ensures var b' := Receive(l, m).book;
            && id in b'.cycles && b'.cycles[id].statusKey.Some?
            && b'.cycles[id].energy == l.book.cycles[id].energy + m.request.effect.energy
  {
    var b, e := l.book, m.request.effect;
    ApplyStaysSound(b, e);
    ApplyKeepsCycles(b, e);
    RecordedIsSeen(b.entries, e);
    AppendKeepsChronology(b, e);
    assert id in Deadlines(Apply(b, e, true).value);
  }

  /** The cycle is opened, has energy that a sweep finds for the first time, and the sweep selects it. */
  ghost predicate FirstFind(acts: seq<Act>, sw: Sweep, id: string) {
    && var b := History(acts).book;
    && Selected(b, id, sw) && id in Deadlines(b) && b.cycles[id].energy != 0
    && !BurntBefore(acts, id, id in sw.settled)
  }

  lemma FirstSweepEmpties(acts: seq<Act>, sw: Sweep, id: string)
    requires Ordinary(acts) && FirstFind(acts, sw, id)
    ensures var b := History(acts + [Clean(sw)]).book;
            && Sound(b) && id in b.cycles && b.cycles[id].energy == 0 && id in Deadlines(b)
            && BurntBefore(acts + [Clean(sw)], id, id in sw.settled) && Burnt(b, id, id in sw.settled)
  {
    var swept := acts + [Clean(sw)];
    assert swept[..|acts|] == acts;
    EveryHistoryIsSound(acts);
    EveryHistoryIsSound(swept);
    BurntIffSweptBefore(acts, id, id in sw.settled);
    TidySweepsAll(History(acts).book, sw, id);
    assert BurnsAt(swept, |acts|, id, id in sw.settled);
  }

  /**
   * Energy booked after that sweep stays: a sweep finds it and leaves it, in every
   * history and for every effect that can still arrive after the close.
   */
  lemma LateEnergyStays(acts: seq<Act>, sw: Sweep, m: Message, again: Sweep, id: string)
    requires Ordinary(acts) && OrdinaryMessage(m) && FirstFind(acts, sw, id)
    requires var l := History(acts + [Clean(sw)]);
             m.idpk !in l.processed && m.request.Post? && m.request.effect.cycle == id
             && m.request.effect.energy != 0 && !Seen(Business(l.book.entries), m.request.effect)
    requires id in again.times && Ended(again.times[id], again.now) && (id in again.settled <==> id in sw.settled)
    ensures var b := History(acts + [Clean(sw), Arrive(m), Clean(again)]).book;
            id in b.cycles && b.cycles[id].energy == m.request.effect.energy
  {
    var late := acts + [Clean(sw), Arrive(m)];
    LateEnergyIsBooked(acts, sw, m, id);
    SweepLeavesBurnt(late, again, id);
    assert late + [Clean(again)] == acts + [Clean(sw), Arrive(m), Clean(again)];
  }

  /** A sweep passes over a cycle whose burn is on record. */
  lemma SweepLeavesBurnt(acts: seq<Act>, sw: Sweep, id: string)
    requires var b := History(acts).book; Sound(b) && id in b.cycles && Burnt(b, id, id in sw.settled)
    ensures var b' := History(acts + [Clean(sw)]).book;
            id in b'.cycles && b'.cycles[id].energy == History(acts).book.cycles[id].energy
  {
    assert (acts + [Clean(sw)])[..|acts|] == acts;
    TidySweepsAll(History(acts).book, sw, id);
  }

  lemma LateEnergyIsBooked(acts: seq<Act>, sw: Sweep, m: Message, id: string)
    requires Ordinary(acts) && OrdinaryMessage(m) && FirstFind(acts, sw, id)
    requires var l := History(acts + [Clean(sw)]);
             m.idpk !in l.processed && m.request.Post? && m.request.effect.cycle == id
             && !Seen(Business(l.book.entries), m.request.effect)
    ensures var b := History(acts + [Clean(sw), Arrive(m)]).book;
            && Sound(b) && id in b.cycles && b.cycles[id].energy == m.request.effect.energy
            && Burnt(b, id, id in sw.settled)
  {
    var swept, late := acts + [Clean(sw)], acts + [Clean(sw), Arrive(m)];
    assert late[..|swept|] == swept && late[|swept|] == Arrive(m);
    assert History(late) == Receive(History(swept), m);
    FirstSweepEmpties(acts, sw, id);
    LateOnEmpty(History(swept), m, id, id in sw.settled);
  }

  lemma LateOnEmpty(l: Log, m: Message, id: string, settled: bool)
    requires Sound(l.book) && OrdinaryMessage(m) && m.idpk !in l.processed
    requires m.request.Post? && m.request.effect.cycle == id && !Seen(Business(l.book.entries), m.request.effect)
    requires id in l.book.cycles && id in Deadlines(l.book) && l.book.cycles[id].energy == 0
    requires Burnt(l.book, id, settled)
    ensures var b := Receive(l, m).book;
            && Sound(b) && id in b.cycles && b.cycles[id].energy == m.request.effect.energy && Burnt(b, id, settled)
  {
    ArrivalMovesEnergy(l, m, id);
    ArrivalStaysSound(l, m);
    MessagesBurnNothing(l, m, id, settled);
  }

  // ---- Such a history ---------------------------------------------------

  /** The central opens a cycle in which the city has five units of energy. */
  const OPENING := [Arrive(Message("s1", Status("c", 500, 100)))]
  const AFTER_CLOSE := Sweep(map["c" := Times(Some(50), None)], {}, 60)
  const LATE_SWAP := Message("e1", Post(Effect("c", Given("w1"), SwapSettled, None, 800, -300)))

  const OPENED := Book(["c"], map["c" := Rebase(PLACEHOLDER, "s1", 500, 100)], [], 0)

  lemma OpeningNeedsNoCarry()
    ensures Synchronize(OPENED) == Ok(OPENED)
  {
    assert Deadlines(OPENED) == map["c" := 100];
    assert Opened(["c"], Deadlines(OPENED)) == ["c"];
    assert Chronology(OPENED) == ["c"];
    assert CarryInto(OPENED, ["c"], 0) == OPENED;
    assert CarryFrom(OPENED, ["c"], 1) == OPENED;
  }

  lemma OpeningOpens()
    ensures Ordinary(OPENING) && History(OPENING) == Log(OPENED, {"s1"})
  {
    OpeningNeedsNoCarry();
    assert OPENING[..0] == [];
    var rebased := WithCycle(NEW_BOOK, "c");
    assert rebased.(cycles := rebased.cycles["c" := Rebase(rebased.cycles["c"], "s1", 500, 100)]) == OPENED;
    assert Receive(Log(NEW_BOOK, {}), OPENING[0].message) == Log(OPENED, {"s1"});
  }

  /**
   * The sweep promises that a closed market keeps no local energy. Here it empties the
   * book cycle, a late swap-settled books more, and the next sweep leaves that.
   */
  lemma SecondSweepLeavesEnergy()
    ensures var acts := OPENING + [Clean(AFTER_CLOSE)];
            var b := History(acts).book;
            "c" in b.cycles && b.cycles["c"].statusKey.Some? && b.cycles["c"].energy == 0
    ensures var b := History(OPENING + [Clean(AFTER_CLOSE), Arrive(LATE_SWAP), Clean(AFTER_CLOSE)]).book;
            "c" in b.cycles && b.cycles["c"].energy == -300
  {
    OpeningOpens();
    var swept := OPENING + [Clean(AFTER_CLOSE)];
    assert swept[..|OPENING|] == OPENING;
    assert !BurntBefore(OPENING, "c", false);
    assert "c" in Deadlines(History(OPENING).book);
    FirstSweepEmpties(OPENING, AFTER_CLOSE, "c");
    FirstSweepBooksItsBurn();
    LateEnergyStays(OPENING, AFTER_CLOSE, LATE_SWAP, AFTER_CLOSE, "c");
  }

  lemma SweepOneBooksBurns(b: Book, id: string, sw: Sweep, e: Effect)
    requires e.operation == SwapSettled && !Seen(Business(b.entries), e)
    ensures !Seen(Business(SweepOne(b, id, sw).entries), e)
  {
    var b' := SweepOne(b, id, sw);
    if b' != b {
      assert b'.entries[..|b.entries|] == b.entries;
      SeenBesides(Business(b.entries), b'.entries[|b.entries|].effect, e);
    }
  }

  lemma {:induction false} SweepBooksBurns(b: Book, order: seq<string>, sw: Sweep, e: Effect)
    requires e.operation == SwapSettled && !Seen(Business(b.entries), e)
    ensures !Seen(Business(SweepAll(b, order, sw).entries), e)
  {
    if order != [] {
      SweepBooksBurns(b, order[..|order| - 1], sw, e);
      SweepOneBooksBurns(SweepAll(b, order[..|order| - 1], sw), order[|order| - 1], sw, e);
    }
  }

  lemma FirstSweepBooksItsBurn()
    ensures var l := History(OPENING + [Clean(AFTER_CLOSE)]);
            LATE_SWAP.idpk !in l.processed && !Seen(Business(l.book.entries), LATE_SWAP.request.effect)
  {
    OpeningOpens();
    var b := History(OPENING).book;
    assert (OPENING + [Clean(AFTER_CLOSE)])[..|OPENING|] == OPENING;
    SweepBooksBurns(b, Order(b), AFTER_CLOSE, LATE_SWAP.request.effect);
  }
}

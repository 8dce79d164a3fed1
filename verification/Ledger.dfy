/**
 * The city's append-only ledger. Every cycle row carries a materialised balance
 * and the money, never the energy, is carried from each opened cycle to the next
 * one in the order of their central deadlines. Amounts are whole cents.
 */
module Ledger {
  import opened Common
  import opened Sorting

  /** A key is given by a message, or generated for a carry-over adjustment. */
  datatype Key = Given(id: string) | Generated(n: nat)

  datatype Operation =
    | BudgetCarryover
    | TransferIn | DemandStatement
    | GiveConfirmed | TakeConfirmed | PaymentReceived | PaymentSent
    | SwapSettled | SwapTransport
    | ImbalanceSettlement | ImbalanceBurn | ImbalanceClose | ImbalanceBurnFallback

  datatype Effect = Effect(
    cycle: string, key: Key, operation: Operation, negotiation: Option<nat>,
    budget: int, energy: int)

  datatype Entry = Entry(effect: Effect, sequence: nat, budgetAfter: int, energyAfter: int)

  datatype Cycle = Cycle(
    statusKey: Option<string>, validUntil: Option<int>,
    openingBudget: int, openingEnergy: int,
    budget: int, energy: int, lastSequence: nat)

  const PLACEHOLDER := Cycle(None, None, 0, 0, 0, 0, 0)

  /** The tables: cycle ids in insertion order, their rows, the entries, the id supply. */
  datatype Book = Book(table: seq<string>, cycles: map<string, Cycle>, entries: seq<Entry>, generated: nat)

  const NEW_BOOK := Book([], map[], [], 0)

  datatype Error = UnknownCycle | AmbiguousChronology

  // ---- Sums over entries ------------------------------------------------

  datatype Part = Budget | Carried | Own | Energy | Rows

  function Weight(e: Effect, cycle: string, part: Part): int {
    if e.cycle != cycle then 0
    else match part
      case Budget => e.budget
      case Carried => if e.operation == BudgetCarryover then e.budget else 0
      case Own => if e.operation == BudgetCarryover then 0 else e.budget
      case Energy => e.energy
      case Rows => 1
  }

  function Sum(entries: seq<Entry>, cycle: string, part: Part): int {
    if entries == [] then 0
    else
      var n := |entries| - 1;
      Sum(entries[..n], cycle, part) + Weight(entries[n].effect, cycle, part)
  }

  lemma SumAppend(entries: seq<Entry>, e: Entry, cycle: string, part: Part)
    ensures Sum(entries + [e], cycle, part) == Sum(entries, cycle, part) + Weight(e.effect, cycle, part)
  {
  }

  lemma {:induction false} BudgetIsOwnPlusCarried(entries: seq<Entry>, cycle: string)
    ensures Sum(entries, cycle, Budget) == Sum(entries, cycle, Own) + Sum(entries, cycle, Carried)
  {
    if entries != [] {
      BudgetIsOwnPlusCarried(entries[..|entries| - 1], cycle);
    }
  }

  // ---- Steps ------------------------------------------------------------

  predicate Recorded(entries: seq<Entry>, key: Key, operation: Operation) {
    exists i | 0 <= i < |entries| :: entries[i].effect.key == key && entries[i].effect.operation == operation
  }

  function Append(b: Book, e: Effect): Book
    requires e.cycle in b.cycles
  {
    var c := b.cycles[e.cycle];
    var entry := Entry(e, c.lastSequence + 1, c.budget + e.budget, c.energy + e.energy);
    b.(entries := b.entries + [entry],
       cycles := b.cycles[e.cycle := c.(budget := entry.budgetAfter, energy := entry.energyAfter,
                                       lastSequence := entry.sequence)])
  }

  function AppendOnce(b: Book, e: Effect): Book
    requires e.cycle in b.cycles
  {
    if Recorded(b.entries, e.key, e.operation) then b else Append(b, e)
  }

  /** The deadlines of the cycles that the central has opened. */
  function Deadlines(b: Book): map<string, int> {
    map id | id in b.cycles && b.cycles[id].statusKey.Some? && b.cycles[id].validUntil.Some?
      :: b.cycles[id].validUntil.value
  }

  function DeadlineOf(deadlines: map<string, int>, id: string): int {
    if id in deadlines then deadlines[id] else 0
  }

  function ByDeadline(deadlines: map<string, int>): (string, string) -> bool {
    (x, y) => DeadlineOf(deadlines, x) <= DeadlineOf(deadlines, y)
  }

  function Opened(table: seq<string>, deadlines: map<string, int>): (r: seq<string>)
    ensures forall id :: id in r <==> id in table && id in deadlines
  {
    if table == [] then []
    else (if table[0] in deadlines then [table[0]] else []) + Opened(table[1..], deadlines)
  }

  /** The opened cycles from the earliest deadline to the latest. */
  function Chronology(b: Book): seq<string> {
    Sort(ByDeadline(Deadlines(b)), Opened(b.table, Deadlines(b)))
  }

  predicate Distinct(order: seq<string>, deadlines: map<string, int>) {
    forall i, j | 0 <= i < j < |order| :: DeadlineOf(deadlines, order[i]) != DeadlineOf(deadlines, order[j])
  }

  function Expected(b: Book, order: seq<string>, k: nat): int
    requires k < |order| && forall id | id in order :: id in b.cycles
  {
    if k == 0 then 0 else b.cycles[order[k - 1]].budget
  }

  function Adjustment(b: Book, order: seq<string>, k: nat): Effect
    requires k < |order| && forall id | id in order :: id in b.cycles
  {
    Effect(order[k], Generated(b.generated), BudgetCarryover, None,
           Expected(b, order, k) - Sum(b.entries, order[k], Carried), 0)
  }

  /** Bring the carry-over of the k-th cycle in line with the balance before it. */
  function CarryInto(b: Book, order: seq<string>, k: nat): Book
    requires k < |order| && forall id | id in order :: id in b.cycles
  {
    var e := Adjustment(b, order, k);
    if e.budget == 0 then b else AppendOnce(b, e).(generated := b.generated + 1)
  }

  function CarryFrom(b: Book, order: seq<string>, k: nat): Book
    requires k <= |order| && forall id | id in order :: id in b.cycles
    decreases |order| - k
  {
    if k == |order| then b else CarryFrom(CarryInto(b, order, k), order, k + 1)
  }

  lemma ChronologyIds(b: Book)
    ensures forall id :: id in Chronology(b) <==> id in b.table && id in Deadlines(b)
  {
    var ids := Opened(b.table, Deadlines(b));
    SortPermutes(ByDeadline(Deadlines(b)), ids);
    forall id ensures id in Chronology(b) <==> id in ids {
      assert id in Chronology(b) <==> id in multiset(Chronology(b));
      assert id in ids <==> id in multiset(ids);
    }
  }

  function Synchronize(b: Book): Result<Book, Error> {
    var order := Chronology(b);
    ChronologyIds(b);
    if Distinct(order, Deadlines(b)) then Ok(CarryFrom(b, order, 0)) else Err(AmbiguousChronology)
  }

  function Apply(b: Book, e: Effect, propagate: bool): Result<Book, Error> {
    if e.cycle !in b.cycles then Err(UnknownCycle)
    else if Recorded(b.entries, e.key, e.operation) then Ok(b)
    else if propagate && e.budget != 0 then Synchronize(Append(b, e))
    else Ok(Append(b, e))
  }

  function WithCycle(b: Book, id: string): Book {
    if id in b.cycles then b
    else b.(table := b.table + [id], cycles := b.cycles[id := PLACEHOLDER])
  }

  /** A status-statement moves the opening energy by the difference and dates the cycle. */
  function Rebase(c: Cycle, key: string, openingEnergy: int, validUntil: int): Cycle {
    c.(statusKey := Some(key), validUntil := Some(validUntil), openingEnergy := openingEnergy,
       energy := c.energy + (openingEnergy - c.openingEnergy))
  }

  function Open(b: Book, id: string, key: string, openingEnergy: int, validUntil: int): Result<Book, Error> {
    var b1 := WithCycle(b, id);
    if b1.cycles[id].statusKey == Some(key) then Ok(b1)
    else Synchronize(b1.(cycles := b1.cycles[id := Rebase(b1.cycles[id], key, openingEnergy, validUntil)]))
  }

  // ---- The tables as objects --------------------------------------------

  class CityLedger {
    var table: seq<string>
    var cycles: map<string, Cycle>
    var entries: seq<Entry>
    var generated: nat
    var processed: set<string>

    ghost function State(): Book reads this { Book(table, cycles, entries, generated) }

    constructor ()
      ensures State() == NEW_BOOK && processed == {}
    {
      table, cycles, entries, generated, processed := [], map[], [], 0, {};
    }

    method ApplyLedgerEffect(e: Effect, propagate: bool) returns (r: Result<bool, Error>)
      modifies this
      ensures r.Ok? ==> Apply(old(State()), e, propagate) == Ok(State())
      ensures r.Ok? ==> (r.value <==> !Recorded(old(entries), e.key, e.operation))
      ensures r.Err? ==> Apply(old(State()), e, propagate) == Err(r.error)
      ensures processed == old(processed)
      decreases if propagate then 3 else 0
    {
      if e.cycle !in cycles {
        return Err(UnknownCycle);
      }
      if Recorded(entries, e.key, e.operation) {
        return Ok(false);
      }
      ghost var before := State();
      var cycle := cycles[e.cycle];
      var entry := Entry(e, cycle.lastSequence + 1, cycle.budget + e.budget, cycle.energy + e.energy);
      entries := entries + [entry];
      cycles := cycles[e.cycle := cycle.(budget := entry.budgetAfter, energy := entry.energyAfter,
                                         lastSequence := entry.sequence)];
      assert State() == Append(before, e);
      if propagate && e.budget != 0 {
        var synced := SynchronizeBudgetCarryover();
        if synced.Some? {
          return Err(synced.value);
        }
      }
      return Ok(true);
    }

    method SynchronizeBudgetCarryover() returns (failure: Option<Error>)
      modifies this
      ensures failure.None? ==> Synchronize(old(State())) == Ok(State())
      ensures failure.Some? ==> Synchronize(old(State())) == Err(failure.value) && State() == old(State())
      ensures processed == old(processed)
      decreases 2
    {
      var b := Book(table, cycles, entries, generated);
      var order := Chronology(b);
      if !Distinct(order, Deadlines(b)) {
        return Some(AmbiguousChronology);
      }
      ChronologyIds(b);
      var previous: Option<string> := None;
      for k := 0 to |order|
        invariant forall id | id in order :: id in cycles
        invariant previous == if k == 0 then None else Some(order[k - 1])
        invariant CarryFrom(State(), order, k) == CarryFrom(old(State()), order, 0)
        invariant processed == old(processed)
      {
        var expected := if previous.Some? then cycles[previous.value].budget else 0;
        AdjustCarryover(order, k, expected);
        previous := Some(order[k]);
      }
      return None;
    }

    /** Append the difference between what the cycle should carry and what it was credited. */
    method AdjustCarryover(order: seq<string>, k: nat, expected: int)
      requires k < |order| && forall id | id in order :: id in cycles
      requires expected == Expected(State(), order, k)
      modifies this
      ensures State() == CarryInto(old(State()), order, k)
      ensures forall id | id in order :: id in cycles
      ensures processed == old(processed)
      decreases 1
    {
      var difference := expected - Sum(entries, order[k], Carried);
      if difference != 0 {
        var key := Generated(generated);
        var _ := ApplyLedgerEffect(Effect(order[k], key, BudgetCarryover, None, difference, 0), false);
        generated := generated + 1;
      }
    }

    method RebuildCycleBalances(id: string) returns (r: Option<(int, int)>)
      ensures r.None? <==> id !in cycles
      ensures r.Some? ==> r.value.0 == cycles[id].openingBudget + Sum(entries, id, Budget)
      ensures r.Some? ==> r.value.1 == cycles[id].openingEnergy + Sum(entries, id, Energy)
    {
      if id !in cycles {
        return None;
      }
      var budget, energy := cycles[id].openingBudget, cycles[id].openingEnergy;
      for i := 0 to |entries|
        invariant budget == cycles[id].openingBudget + Sum(entries[..i], id, Budget)
        invariant energy == cycles[id].openingEnergy + Sum(entries[..i], id, Energy)
      {
        assert entries[..i + 1] == entries[..i] + [entries[i]];
        SumAppend(entries[..i], entries[i], id, Budget);
        SumAppend(entries[..i], entries[i], id, Energy);
        if entries[i].effect.cycle == id {
          budget := budget + entries[i].effect.budget;
          energy := energy + entries[i].effect.energy;
        }
      }
      assert entries[..|entries|] == entries;
      return Some((budget, energy));
    }

    /** Some balances: they are the replayed ones and the materialised ones. */
    method ValidateCycleConsistency(id: string) returns (r: Option<(int, int)>)
      ensures r.Some? <==> id in cycles
                           && cycles[id].budget == cycles[id].openingBudget + Sum(entries, id, Budget)
                           && cycles[id].energy == cycles[id].openingEnergy + Sum(entries, id, Energy)
      ensures r.Some? ==> r.value == (cycles[id].budget, cycles[id].energy)
    {
      var rebuilt := RebuildCycleBalances(id);
      if rebuilt.None? || rebuilt.value != (cycles[id].budget, cycles[id].energy) {
        return None;
      }
      return rebuilt;
    }

    /** A message is applied in one transaction; an exception undoes all of it. */
    method Ingest(m: Message) returns (applied: bool)
      modifies this
      ensures Log(State(), processed) == Receive(Log(old(State()), old(processed)), m)
      ensures applied <==> m.idpk !in old(processed) && Execute(old(State()), m.request, m.idpk).Ok?
    {
      if m.idpk in processed {
        return false;
      }
      var table0, cycles0, entries0, generated0 := table, cycles, entries, generated;
      var ok: bool;
      match m.request {
        case Post(e) =>
          GetOrCreateCycle(e.cycle);
          var r := ApplyLedgerEffect(e, true);
          ok := r.Ok?;
        case Status(id, openingEnergy, validUntil) =>
          GetOrCreateCycle(id);
          if cycles[id].statusKey == Some(m.idpk) {
            ok := true;
          } else {
            cycles := cycles[id := Rebase(cycles[id], m.idpk, openingEnergy, validUntil)];
            var failure := SynchronizeBudgetCarryover();
            ok := failure.None?;
          }
      }
      if ok {
        processed := processed + {m.idpk};
      } else {
        table, cycles, entries, generated := table0, cycles0, entries0, generated0;
      }
      return ok;
    }

    method GetOrCreateCycle(id: string)
      modifies this
      ensures State() == WithCycle(old(State()), id) && processed == old(processed)
    {
      if id !in cycles {
        table := table + [id];
        cycles := cycles[id := PLACEHOLDER];
      }
    }
  }

  // ---- Runs -------------------------------------------------------------

  datatype Request =
    | Post(effect: Effect)
    | Status(cycle: string, openingEnergy: int, validUntil: int)

  datatype Message = Message(idpk: string, request: Request)

  datatype Log = Log(book: Book, processed: set<string>)

  function Execute(b: Book, q: Request, idpk: string): Result<Book, Error> {
    match q
    case Post(e) => Apply(WithCycle(b, e.cycle), e, true)
    case Status(id, openingEnergy, validUntil) => Open(b, id, idpk, openingEnergy, validUntil)
  }

  function Receive(l: Log, m: Message): Log {
    if m.idpk in l.processed then l
    else match Execute(l.book, m.request, m.idpk)
      case Ok(b) => Log(b, l.processed + {m.idpk})
      case Err(_) => l
  }

  function Run(ms: seq<Message>): Log {
    if ms == [] then Log(NEW_BOOK, {})
    else Receive(Run(ms[..|ms| - 1]), ms[|ms| - 1])
  }
}

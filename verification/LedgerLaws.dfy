/** What every committed state of the ledger satisfies, over all runs of messages. */
module LedgerLaws {
  import opened Common
  import opened Sorting
  import opened Ledger

  // ---- Replay, numbering and uniqueness ---------------------------------

  ghost predicate WellFormed(b: Book) {
    && (forall id :: id in b.cycles <==> id in b.table)
    && (forall i, j | 0 <= i < j < |b.table| :: b.table[i] != b.table[j])
    && (forall i | 0 <= i < |b.entries| :: b.entries[i].effect.cycle in b.cycles)
    && (forall id | id in b.cycles :: b.cycles[id].openingBudget == 0)
  }

  /** The materialised balances of a cycle are its opening plus the sum of its deltas. */
  ghost predicate Replays(b: Book, id: string)
    requires id in b.cycles
  {
    var c := b.cycles[id];
    && c.budget == c.openingBudget + Sum(b.entries, id, Budget)
    && c.energy == c.openingEnergy + Sum(b.entries, id, Energy)
    && c.lastSequence == Sum(b.entries, id, Rows)
  }

  /** An entry's number is its position in its cycle and its budget is the running balance. */
  ghost predicate Numbered(entries: seq<Entry>, i: nat)
    requires i < |entries|
  {
    var id := entries[i].effect.cycle;
    && entries[i].sequence == Sum(entries[..i + 1], id, Rows)
    && entries[i].budgetAfter == Sum(entries[..i + 1], id, Budget)
  }

  ghost predicate KeysUnique(entries: seq<Entry>) {
    forall i, j | 0 <= i < j < |entries| ::
      entries[i].effect.key != entries[j].effect.key
      || entries[i].effect.operation != entries[j].effect.operation
  }

  ghost predicate FreshSupply(b: Book) {
    forall i | 0 <= i < |b.entries| ::
      b.entries[i].effect.key.Generated? ==> b.entries[i].effect.key.n < b.generated
  }

  /** Only adjustments carry, under generated keys, and they never carry energy. */
  ghost predicate CarriesMoneyOnly(entries: seq<Entry>) {
    forall i | 0 <= i < |entries| ::
      (entries[i].effect.operation == BudgetCarryover <==> entries[i].effect.key.Generated?)
      && (entries[i].effect.operation == BudgetCarryover ==> entries[i].effect.energy == 0)
  }

  ghost predicate Booked(b: Book) {
    && WellFormed(b)
    && (forall id | id in b.cycles :: Replays(b, id))
    && (forall i | 0 <= i < |b.entries| :: Numbered(b.entries, i))
    && KeysUnique(b.entries) && FreshSupply(b)
    && CarriesMoneyOnly(b.entries)
  }

  ghost predicate Acceptable(b: Book, e: Effect) {
    && e.cycle in b.cycles
    && (e.operation == BudgetCarryover <==> e.key.Generated?)
    && (e.operation == BudgetCarryover ==> e.energy == 0)
    && (e.key.Generated? ==> e.key.n < b.generated)
  }

  lemma AppendReplays(b: Book, e: Effect, id: string)
    requires e.cycle in b.cycles && id in b.cycles && Replays(b, id)
    ensures Replays(Append(b, e), id)
  {
  }

  lemma AppendNumbers(b: Book, e: Effect)
    requires e.cycle in b.cycles && Replays(b, e.cycle) && b.cycles[e.cycle].openingBudget == 0
    requires forall i | 0 <= i < |b.entries| :: Numbered(b.entries, i)
    ensures forall i | 0 <= i <= |b.entries| :: Numbered(Append(b, e).entries, i)
  {
    var n, after := |b.entries|, Append(b, e).entries;
    forall i | 0 <= i <= n ensures Numbered(after, i) {
      if i < n {
        assert after[..i + 1] == b.entries[..i + 1];
        assert Numbered(b.entries, i);
      } else {
        assert after[..n + 1] == after == b.entries + [after[n]];
        SumAppend(b.entries, after[n], e.cycle, Budget);
        SumAppend(b.entries, after[n], e.cycle, Rows);
      }
    }
  }

  lemma AppendKeepsKeys(b: Book, e: Effect)
    requires WellFormed(b) && KeysUnique(b.entries) && FreshSupply(b) && CarriesMoneyOnly(b.entries)
    requires Acceptable(b, e) && !Recorded(b.entries, e.key, e.operation)
    ensures var b' := Append(b, e);
            WellFormed(b') && KeysUnique(b'.entries) && FreshSupply(b') && CarriesMoneyOnly(b'.entries)
  {
  }

  lemma AppendStaysBooked(b: Book, e: Effect)
    requires Booked(b) && Acceptable(b, e) && !Recorded(b.entries, e.key, e.operation)
    ensures Booked(Append(b, e))
  {
    var b' := Append(b, e);
    AppendNumbers(b, e);
    AppendKeepsKeys(b, e);
    forall id | id in b'.cycles ensures Replays(b', id) {
      AppendReplays(b, e, id);
    }
  }

  lemma CarryIntoAppends(b: Book, order: seq<string>, k: nat)
    requires FreshSupply(b) && k < |order| && forall id | id in order :: id in b.cycles
    ensures var e, b' := Adjustment(b, order, k), CarryInto(b, order, k);
            b' == if e.budget == 0 then b else Append(b.(generated := b.generated + 1), e)
    ensures FreshSupply(CarryInto(b, order, k)) && CarryInto(b, order, k).cycles.Keys == b.cycles.Keys
  {
  }

  lemma CarryIntoStaysBooked(b: Book, order: seq<string>, k: nat)
    requires Booked(b) && k < |order| && forall id | id in order :: id in b.cycles
    ensures Booked(CarryInto(b, order, k))
  {
    var e := Adjustment(b, order, k);
    CarryIntoAppends(b, order, k);
    if e.budget != 0 {
      var b1 := b.(generated := b.generated + 1);
      BookedWithMoreKeys(b);
      NotRecordedYet(b, e);
      AppendStaysBooked(b1, e);
    }
  }

  lemma BookedWithMoreKeys(b: Book)
    requires Booked(b)
    ensures Booked(b.(generated := b.generated + 1))
  {
  }

  lemma NotRecordedYet(b: Book, e: Effect)
    requires FreshSupply(b) && e.key == Generated(b.generated)
    ensures !Recorded(b.entries, e.key, e.operation)
  {
  }

  // ---- The carry-over chain ---------------------------------------------

  /** The carry-over credited to a cycle is the balance of the cycle before it. */
  ghost predicate Linked(b: Book, order: seq<string>, k: nat)
    requires k < |order| && forall id | id in order :: id in b.cycles
  {
    Sum(b.entries, order[k], Carried) == Expected(b, order, k)
  }

  ghost predicate Unlisted(b: Book, order: seq<string>) {
    forall id | id in b.cycles && id !in order :: Sum(b.entries, id, Carried) == 0
  }

  ghost predicate Chained(b: Book) {
    var order := Chronology(b);
    && (forall id | id in order :: id in b.cycles)
    && Distinct(order, Deadlines(b))
    && LinkedBelow(b, order, |order|)
    && Unlisted(b, order)
  }

  ghost predicate Sound(b: Book) {
    Booked(b) && Chained(b)
  }

  lemma DistinctIds(order: seq<string>, deadlines: map<string, int>)
    requires Distinct(order, deadlines)
    ensures NoRepeats(order)
  {
  }

  ghost predicate Extends(before: seq<Entry>, after: seq<Entry>) {
    && |before| <= |after| && after[..|before|] == before
    && forall i | |before| <= i < |after| :: after[i].effect.operation == BudgetCarryover
  }

  /** Only adjustments were added: same cycles, same deadlines, same earlier entries. */
  ghost predicate Adjusted(b: Book, b': Book) {
    && b'.table == b.table && b'.cycles.Keys == b.cycles.Keys
    && Deadlines(b') == Deadlines(b)
    && Extends(b.entries, b'.entries)
  }

  lemma AdjustedTransitive(b: Book, b': Book, b'': Book)
    requires Adjusted(b, b') && Adjusted(b', b'')
    ensures Adjusted(b, b'')
  {
  }

  lemma CarryIntoAdjusts(b: Book, order: seq<string>, k: nat)
    requires FreshSupply(b) && k < |order| && forall id | id in order :: id in b.cycles
    ensures Adjusted(b, CarryInto(b, order, k))
  {
  }

  lemma CarryIntoSums(b: Book, order: seq<string>, k: nat, id: string)
    requires FreshSupply(b) && k < |order| && forall id | id in order :: id in b.cycles
    ensures Sum(CarryInto(b, order, k).entries, id, Carried)
         == if id == order[k] then Expected(b, order, k) else Sum(b.entries, id, Carried)
  {
  }

  ghost predicate LinkedBelow(b: Book, order: seq<string>, k: nat)
    requires k <= |order| && forall id | id in order :: id in b.cycles
  {
    forall j | 0 <= j < k :: Linked(b, order, j)
  }

  ghost predicate NoRepeats(order: seq<string>) {
    forall i, j | 0 <= i < j < |order| :: order[i] != order[j]
  }

  lemma CarryIntoLinks(b: Book, order: seq<string>, k: nat)
    requires FreshSupply(b) && k < |order| && forall id | id in order :: id in b.cycles
    requires NoRepeats(order) && LinkedBelow(b, order, k) && Unlisted(b, order)
    ensures var b' := CarryInto(b, order, k);
            && b'.cycles.Keys == b.cycles.Keys
            && LinkedBelow(b', order, k + 1) && Unlisted(b', order)
  {
    CarryIntoAppends(b, order, k);
    var b' := CarryInto(b, order, k);
    forall j | 0 <= j < k + 1 ensures Linked(b', order, j) {
      CarryIntoSums(b, order, k, order[j]);
      assert j < k ==> Linked(b, order, j);
    }
    forall id | id in b'.cycles && id !in order ensures Sum(b'.entries, id, Carried) == 0 {
      CarryIntoSums(b, order, k, id);
    }
  }

  lemma {:induction false} CarryFromStaysBooked(b: Book, order: seq<string>, k: nat)
    requires Booked(b) && k <= |order| && forall id | id in order :: id in b.cycles
    ensures Booked(CarryFrom(b, order, k))
    decreases |order| - k
  {
    if k < |order| {
      CarryIntoStaysBooked(b, order, k);
      CarryFromStaysBooked(CarryInto(b, order, k), order, k + 1);
    }
  }

  lemma {:induction false} CarryFromAdjusts(b: Book, order: seq<string>, k: nat)
    requires FreshSupply(b) && k <= |order| && forall id | id in order :: id in b.cycles
    ensures Adjusted(b, CarryFrom(b, order, k))
    decreases |order| - k
  {
    if k < |order| {
      var b1 := CarryInto(b, order, k);
      CarryIntoAppends(b, order, k);
      CarryIntoAdjusts(b, order, k);
      CarryFromAdjusts(b1, order, k + 1);
      AdjustedTransitive(b, b1, CarryFrom(b1, order, k + 1));
    }
  }

  lemma {:induction false} CarryFromLinks(b: Book, order: seq<string>, k: nat)
    requires FreshSupply(b) && k <= |order| && forall id | id in order :: id in b.cycles
    requires NoRepeats(order) && LinkedBelow(b, order, k) && Unlisted(b, order)
    ensures CarryFrom(b, order, k).cycles.Keys == b.cycles.Keys
    ensures LinkedBelow(CarryFrom(b, order, k), order, |order|) && Unlisted(CarryFrom(b, order, k), order)
    decreases |order| - k
  {
    if k < |order| {
      CarryIntoAppends(b, order, k);
      CarryIntoLinks(b, order, k);
      CarryFromLinks(CarryInto(b, order, k), order, k + 1);
    }
  }

  /** The preconditions under which a synchronisation restores the chain. */
  ghost predicate Restorable(b: Book) {
    Booked(b) && Unlisted(b, Chronology(b))
  }

  lemma SynchronizeChains(b: Book)
    requires Restorable(b) && Synchronize(b).Ok?
    ensures Sound(Synchronize(b).value)
    ensures Adjusted(b, Synchronize(b).value)
  {
    var order := Chronology(b);
    ChronologyIds(b);
    DistinctIds(order, Deadlines(b));
    CarryFromStaysBooked(b, order, 0);
    CarryFromAdjusts(b, order, 0);
    CarryFromLinks(b, order, 0);
    assert Chronology(Synchronize(b).value) == order;
  }

  /** A second synchronisation appends nothing. */
  lemma {:induction false} LinkedNeedsNothing(b: Book, order: seq<string>, k: nat)
    requires k <= |order| && forall id | id in order :: id in b.cycles
    requires LinkedBelow(b, order, |order|)
    ensures CarryFrom(b, order, k) == b
    decreases |order| - k
  {
    if k < |order| {
      assert Linked(b, order, k);
      LinkedNeedsNothing(b, order, k + 1);
    }
  }

  lemma SynchronizeTwiceIsOnce(b: Book)
    requires Sound(b)
    ensures Synchronize(b) == Ok(b)
  {
    ChronologyIds(b);
    LinkedNeedsNothing(b, Chronology(b), 0);
  }

  // ---- The closed form --------------------------------------------------

  /** The non-carried budget effects of the first n cycles of the chronology. */
  function OwnTotal(b: Book, order: seq<string>, n: nat): int
    requires n <= |order|
  {
    if n == 0 then 0 else OwnTotal(b, order, n - 1) + Sum(b.entries, order[n - 1], Own)
  }

  /** A cycle's balance is its own effects on top of the balance before it. */
  ghost predicate AddsUp(b: Book, order: seq<string>, k: nat) {
    && k < |order| && order[k] in b.cycles && (k > 0 ==> order[k - 1] in b.cycles)
    && b.cycles[order[k]].budget
       == Sum(b.entries, order[k], Own) + if k == 0 then 0 else b.cycles[order[k - 1]].budget
  }

  lemma LinkAddsUp(b: Book, k: nat)
    requires Sound(b) && k < |Chronology(b)|
    ensures AddsUp(b, Chronology(b), k)
  {
    var order := Chronology(b);
    var id := order[k];
    assert id in order && (k > 0 ==> order[k - 1] in order);
    assert Linked(b, order, k);
    assert Replays(b, id);
    BudgetIsOwnPlusCarried(b.entries, id);
  }

  lemma {:induction false} LinksAddUp(b: Book, order: seq<string>, k: nat)
    requires k < |order| && forall i | 0 <= i <= k :: AddsUp(b, order, i)
    ensures order[k] in b.cycles && b.cycles[order[k]].budget == OwnTotal(b, order, k + 1)
  {
    assert AddsUp(b, order, k);
    if k > 0 {
      LinksAddUp(b, order, k - 1);
    }
  }

  /** The balance of the k-th opened cycle is the sum of all own effects up to it. */
  lemma BudgetClosedForm(b: Book, k: nat)
    requires Sound(b) && k < |Chronology(b)|
    ensures Chronology(b)[k] in b.cycles
    ensures b.cycles[Chronology(b)[k]].budget == OwnTotal(b, Chronology(b), k + 1)
  {
    forall i | 0 <= i <= k ensures AddsUp(b, Chronology(b), i) {
      LinkAddsUp(b, i);
    }
    LinksAddUp(b, Chronology(b), k);
  }

  /** The chronology lists exactly the opened cycles, by strictly increasing deadlines. */
  lemma ChronologyIsByDeadline(b: Book)
    requires Sound(b)
    ensures forall id :: id in Chronology(b) <==> id in Deadlines(b)
    ensures var order, due := Chronology(b), Deadlines(b);
            forall i, j | 0 <= i < j < |order| :: DeadlineOf(due, order[i]) < DeadlineOf(due, order[j])
  {
    ChronologyIds(b);
    var due := Deadlines(b);
    var ids := Opened(b.table, due);
    SortSorts(ByDeadline(due), ids);
    var order := Chronology(b);
    forall i, j | 0 <= i < j < |order| ensures DeadlineOf(due, order[i]) < DeadlineOf(due, order[j]) {
      assert ByDeadline(due)(order[i], order[j]);
    }
  }

  // ---- Every run --------------------------------------------------------

  lemma AppendKeepsCarries(b: Book, e: Effect, order: seq<string>)
    requires e.cycle in b.cycles && e.operation != BudgetCarryover && Unlisted(b, order)
    ensures Unlisted(Append(b, e), order)
  {
  }

  lemma AppendKeepsChronology(b: Book, e: Effect)
    requires e.cycle in b.cycles
    ensures Chronology(Append(b, e)) == Chronology(b) && Deadlines(Append(b, e)) == Deadlines(b)
  {
    assert Deadlines(Append(b, e)) == Deadlines(b);
  }

  lemma AppendWithoutBudgetStaysChained(b: Book, e: Effect)
    requires Sound(b) && e.cycle in b.cycles && e.operation != BudgetCarryover && e.budget == 0
    ensures Chained(Append(b, e))
  {
    var b', order := Append(b, e), Chronology(b);
    AppendKeepsChronology(b, e);
    AppendKeepsCarries(b, e, order);
    forall k | 0 <= k < |order| ensures Linked(b', order, k) {
      assert order[k] in order;
      assert Linked(b, order, k);
      SumAppend(b.entries, b'.entries[|b.entries|], order[k], Carried);
    }
  }

  /** A business effect on a sound book always commits and leaves a sound book. */
  lemma ApplyStaysSound(b: Book, e: Effect)
    requires Sound(b) && Acceptable(b, e) && e.operation != BudgetCarryover
    ensures Apply(b, e, true).Ok? && Sound(Apply(b, e, true).value)
    ensures !Recorded(b.entries, e.key, e.operation) ==> Adjusted(Append(b, e), Apply(b, e, true).value)
  {
    if !Recorded(b.entries, e.key, e.operation) {
      AppendStaysBooked(b, e);
      AppendKeepsChronology(b, e);
      if e.budget == 0 {
        AppendWithoutBudgetStaysChained(b, e);
      } else {
        AppendKeepsCarries(b, e, Chronology(b));
        SynchronizeChains(Append(b, e));
      }
    }
  }

  lemma {:induction false} NoEntriesNoSum(entries: seq<Entry>, id: string, part: Part)
    requires forall i | 0 <= i < |entries| :: entries[i].effect.cycle != id
    ensures Sum(entries, id, part) == 0
  {
    if entries != [] {
      NoEntriesNoSum(entries[..|entries| - 1], id, part);
    }
  }

  lemma {:induction false} OpenedIgnoresOthers(table: seq<string>, deadlines: map<string, int>, id: string)
    requires id !in deadlines
    ensures Opened(table + [id], deadlines) == Opened(table, deadlines)
  {
    if table == [] {
      assert Opened([id], deadlines) == [];
    } else {
      assert (table + [id])[1..] == table[1..] + [id];
      OpenedIgnoresOthers(table[1..], deadlines, id);
    }
  }

  lemma NewCycleStaysBooked(b: Book, id: string)
    requires Booked(b) && id !in b.cycles
    ensures Booked(WithCycle(b, id)) && forall part :: Sum(b.entries, id, part) == 0
  {
    var b' := WithCycle(b, id);
    forall part ensures Sum(b.entries, id, part) == 0 {
      NoEntriesNoSum(b.entries, id, part);
    }
    forall x | x in b'.cycles ensures Replays(b', x) {
      if x != id {
        assert Replays(b, x);
      }
    }
  }

  lemma NewCycleStaysChained(b: Book, id: string)
    requires Chained(b) && id !in b.cycles && Sum(b.entries, id, Carried) == 0
    ensures Chained(WithCycle(b, id))
  {
    var b', order := WithCycle(b, id), Chronology(b);
    assert Deadlines(b') == Deadlines(b);
    OpenedIgnoresOthers(b.table, Deadlines(b), id);
    assert Chronology(b') == order;
    forall k | 0 <= k < |order| ensures Linked(b', order, k) {
      assert order[k] in order;
      assert Linked(b, order, k);
      assert k > 0 ==> order[k - 1] in order;
    }
  }

  lemma NewCycleStaysSound(b: Book, id: string)
    requires Sound(b)
    ensures Sound(WithCycle(b, id))
  {
    if id !in b.cycles {
      NewCycleStaysBooked(b, id);
      NewCycleStaysChained(b, id);
    }
  }

  function Rebased(b: Book, id: string, key: string, openingEnergy: int, validUntil: int): Book
    requires id in b.cycles
  {
    b.(cycles := b.cycles[id := Rebase(b.cycles[id], key, openingEnergy, validUntil)])
  }

  lemma RebaseStaysBooked(b: Book, id: string, key: string, openingEnergy: int, validUntil: int)
    requires Booked(b) && id in b.cycles
    ensures Booked(Rebased(b, id, key, openingEnergy, validUntil))
  {
  }

  lemma RebaseKeepsUnlisted(b: Book, id: string, key: string, openingEnergy: int, validUntil: int)
    requires Unlisted(b, Chronology(b)) && id in b.cycles
    ensures var b' := Rebased(b, id, key, openingEnergy, validUntil); Unlisted(b', Chronology(b'))
  {
    var b' := Rebased(b, id, key, openingEnergy, validUntil);
    ChronologyIds(b);
    ChronologyIds(b');
    forall x | x in b'.cycles && x !in Chronology(b') ensures Sum(b'.entries, x, Carried) == 0 {
      assert x in Deadlines(b) ==> x in Deadlines(b');
      assert x !in Chronology(b);
    }
  }

  /** Opening or re-dating a cycle restores the chain, unless the date is taken and it is refused. */
  lemma OpenStaysSound(b: Book, id: string, key: string, openingEnergy: int, validUntil: int)
    requires Sound(b) && Open(b, id, key, openingEnergy, validUntil).Ok?
    ensures Sound(Open(b, id, key, openingEnergy, validUntil).value)
    ensures Extends(b.entries, Open(b, id, key, openingEnergy, validUntil).value.entries)
  {
    NewCycleStaysSound(b, id);
    var b1 := WithCycle(b, id);
    if b1.cycles[id].statusKey != Some(key) {
      RebaseStaysBooked(b1, id, key, openingEnergy, validUntil);
      RebaseKeepsUnlisted(b1, id, key, openingEnergy, validUntil);
      SynchronizeChains(Rebased(b1, id, key, openingEnergy, validUntil));
    }
  }

  /** Keys of messages are given and only the synchronisation itself carries. */
  ghost predicate FromMessages(ms: seq<Message>) {
    forall i | 0 <= i < |ms| :: ms[i].request.Post? ==>
      ms[i].request.effect.key.Given? && ms[i].request.effect.operation != BudgetCarryover
  }

  /** The ledger is sound after any run of messages, repeats and status-statements. */
  lemma {:induction false} EveryRunIsSound(ms: seq<Message>)
    requires FromMessages(ms)
    ensures Sound(Run(ms).book)
  {
    if ms == [] {
      assert Opened([], map[]) == [];
      assert Deadlines(NEW_BOOK) == map[];
    } else {
      var n := |ms| - 1;
      EveryRunIsSound(ms[..n]);
      MessageStaysSound(Run(ms[..n]), ms[n]);
    }
  }

  lemma MessageStaysSound(l: Log, m: Message)
    requires Sound(l.book) && FromMessages([m])
    ensures Sound(Receive(l, m).book)
  {
    assert [m][0] == m;
    match m.request
    case Post(e) =>
      NewCycleStaysSound(l.book, e.cycle);
      ApplyStaysSound(WithCycle(l.book, e.cycle), e);
    case Status(id, openingEnergy, validUntil) =>
      if Open(l.book, id, m.idpk, openingEnergy, validUntil).Ok? {
        OpenStaysSound(l.book, id, m.idpk, openingEnergy, validUntil);
      }
  }

  /**
   * After any run, every balance is its opening plus its deltas, the cycles add up
   * along the chronology, and synchronising once more appends nothing.
   */
  lemma EveryCommittedBalance(ms: seq<Message>)
    requires FromMessages(ms)
    ensures var b := Run(ms).book;
            && Synchronize(b) == Ok(b)
            && (forall id | id in b.cycles ::
                  && b.cycles[id].openingBudget == 0
                  && b.cycles[id].budget == Sum(b.entries, id, Budget)
                  && b.cycles[id].energy == b.cycles[id].openingEnergy + Sum(b.entries, id, Energy))
            && (forall k | 0 <= k < |Chronology(b)| ::
                  Chronology(b)[k] in b.cycles
                  && b.cycles[Chronology(b)[k]].budget == OwnTotal(b, Chronology(b), k + 1))
            && (forall i | 0 <= i < |b.entries| :: Numbered(b.entries, i))
  {
    var b := Run(ms).book;
    EveryRunIsSound(ms);
    SynchronizeTwiceIsOnce(b);
    forall id | id in b.cycles ensures b.cycles[id].budget == Sum(b.entries, id, Budget) {
      assert Replays(b, id);
    }
    forall k | 0 <= k < |Chronology(b)|
      ensures Chronology(b)[k] in b.cycles
      ensures b.cycles[Chronology(b)[k]].budget == OwnTotal(b, Chronology(b), k + 1)
    {
      BudgetClosedForm(b, k);
    }
  }

  // ---- Exactly once -----------------------------------------------------

  /** The business effects in the entries, in order. */
  function Business(entries: seq<Entry>): seq<Effect> {
    if entries == [] then []
    else
      var n := |entries| - 1;
      Business(entries[..n])
      + (if entries[n].effect.operation == BudgetCarryover then [] else [entries[n].effect])
  }

  predicate Seen(effects: seq<Effect>, e: Effect) {
    exists i | 0 <= i < |effects| :: effects[i].key == e.key && effects[i].operation == e.operation
  }

  /** The first effect of each (key, operation) among the messages admitted by the idpk claim. */
  function FirstEffects(ms: seq<Message>): seq<Effect> {
    if ms == [] then []
    else
      var n := |ms| - 1;
      var earlier, m := FirstEffects(ms[..n]), ms[n];
      if m.idpk !in Run(ms[..n]).processed && m.request.Post? && !Seen(earlier, m.request.effect)
      then earlier + [m.request.effect]
      else earlier
  }

  lemma {:induction false} BusinessOfExtension(before: seq<Entry>, after: seq<Entry>)
    requires Extends(before, after)
    ensures Business(after) == Business(before)
  {
    if |after| > |before| {
      var n := |after| - 1;
      assert after[..n][..|before|] == after[..|before|];
      BusinessOfExtension(before, after[..n]);
    } else {
      assert after == before;
    }
  }

  lemma {:induction false} RecordedIsSeen(entries: seq<Entry>, e: Effect)
    requires e.operation != BudgetCarryover
    ensures Recorded(entries, e.key, e.operation) <==> Seen(Business(entries), e)
  {
    if entries != [] {
      var n := |entries| - 1;
      var rest, last := Business(entries[..n]), entries[n].effect;
      RecordedIsSeen(entries[..n], e);
      if Recorded(entries, e.key, e.operation) {
        var i :| 0 <= i <= n && entries[i].effect.key == e.key && entries[i].effect.operation == e.operation;
        if i < n {
          assert entries[..n][i] == entries[i];
          var j :| 0 <= j < |rest| && rest[j].key == e.key && rest[j].operation == e.operation;
          assert Business(entries)[j] == rest[j];
        } else {
          assert Business(entries)[|rest|] == last;
        }
      }
      if Seen(Business(entries), e) {
        var j :| 0 <= j < |Business(entries)| && Business(entries)[j].key == e.key
                 && Business(entries)[j].operation == e.operation;
        if j < |rest| {
          assert Seen(rest, e);
          var i :| 0 <= i < n && entries[..n][i].effect.key == e.key && entries[..n][i].effect.operation == e.operation;
          assert entries[i] == entries[..n][i];
        }
      }
    }
  }

  lemma PostRecordsOnce(b: Book, e: Effect)
    requires Sound(b) && e.key.Given? && e.operation != BudgetCarryover
    ensures var b1 := WithCycle(b, e.cycle);
            && Apply(b1, e, true).Ok?
            && Business(Apply(b1, e, true).value.entries)
               == if Seen(Business(b.entries), e) then Business(b.entries) else Business(b.entries) + [e]
  {
    var b1 := WithCycle(b, e.cycle);
    NewCycleStaysSound(b, e.cycle);
    ApplyStaysSound(b1, e);
    RecordedIsSeen(b.entries, e);
    if !Recorded(b.entries, e.key, e.operation) {
      var entries := Append(b1, e).entries;
      assert entries[..|b.entries|] == b.entries;
      assert Business(entries) == Business(b.entries) + [e];
      BusinessOfExtension(entries, Apply(b1, e, true).value.entries);
    }
  }

  lemma StatusRecordsNothing(b: Book, id: string, key: string, openingEnergy: int, validUntil: int)
    requires Sound(b) && Open(b, id, key, openingEnergy, validUntil).Ok?
    ensures Business(Open(b, id, key, openingEnergy, validUntil).value.entries) == Business(b.entries)
  {
    OpenStaysSound(b, id, key, openingEnergy, validUntil);
    BusinessOfExtension(b.entries, Open(b, id, key, openingEnergy, validUntil).value.entries);
  }

  lemma MessageRecordsOnce(l: Log, m: Message)
    requires Sound(l.book) && FromMessages([m])
    ensures var known := Business(l.book.entries);
            Business(Receive(l, m).book.entries)
              == if m.idpk !in l.processed && m.request.Post? && !Seen(known, m.request.effect)
                 then known + [m.request.effect] else known
  {
    assert [m][0] == m;
    match m.request
    case Post(e) => PostRecordsOnce(l.book, e);
    case Status(id, openingEnergy, validUntil) =>
      if Open(l.book, id, m.idpk, openingEnergy, validUntil).Ok? {
        StatusRecordsNothing(l.book, id, m.idpk, openingEnergy, validUntil);
      }
  }

  /** The entries are exactly the first occurrences of each effect, plus carry-overs. */
  lemma {:induction false} EachEffectOnce(ms: seq<Message>)
    requires FromMessages(ms)
    ensures Business(Run(ms).book.entries) == FirstEffects(ms)
  {
    if ms != [] {
      var n := |ms| - 1;
      EachEffectOnce(ms[..n]);
      EveryRunIsSound(ms[..n]);
      MessageRecordsOnce(Run(ms[..n]), ms[n]);
    }
  }
}

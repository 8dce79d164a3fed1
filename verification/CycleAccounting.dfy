/** Market facts turned into ledger effects: settled swaps, trades and settlements. */
module CycleAccounting {
  import opened Common
  import opened Ledger
  import opened LedgerLaws

  datatype Asset = KWH | CR | Other(code: string)

  datatype Swap = Swap(
    idpk: string, swapId: Option<string>, cycle: string,
    giveAsset: Asset, giveAmount: int, takeAsset: Asset, takeAmount: int)

  datatype Settlement = Settlement(settlementId: string, cycle: string, total: int)

  datatype Deltas = Deltas(budget: int, energy: int)

  /** What a swap does to our balances: we lose the given leg and gain the taken one. */
  function AssetEffects(s: Swap): Option<Deltas> {
    if s.giveAsset.Other? || s.takeAsset.Other? then None
    else Some(Deltas(
      (if s.takeAsset == CR then s.takeAmount else 0) - (if s.giveAsset == CR then s.giveAmount else 0),
      (if s.takeAsset == KWH then s.takeAmount else 0) - (if s.giveAsset == KWH then s.giveAmount else 0)))
  }

  /** The same swap as the counterpart records it. */
  function Mirror(s: Swap): Swap {
    s.(giveAsset := s.takeAsset, giveAmount := s.takeAmount,
       takeAsset := s.giveAsset, takeAmount := s.giveAmount)
  }

  method ComputeAssetEffects(s: Swap) returns (r: Option<Deltas>)
    ensures r == AssetEffects(s)
    ensures r.Some? ==> AssetEffects(Mirror(s)) == Some(Deltas(-r.value.budget, -r.value.energy))
  {
    var budget, energy := 0, 0;
    if s.giveAsset.Other? || s.takeAsset.Other? {
      return None;
    }
    var legs := [(s.giveAsset, s.giveAmount, -1), (s.takeAsset, s.takeAmount, 1)];
    for i := 0 to |legs|
      invariant i >= 1 ==> budget == (if s.giveAsset == CR then -s.giveAmount else 0)
                                     + (if i == 2 && s.takeAsset == CR then s.takeAmount else 0)
      invariant i >= 1 ==> energy == (if s.giveAsset == KWH then -s.giveAmount else 0)
                                     + (if i == 2 && s.takeAsset == KWH then s.takeAmount else 0)
      invariant i == 0 ==> budget == 0 && energy == 0
    {
      var (asset, amount, sign) := legs[i];
      if asset == KWH {
        energy := energy + sign * amount;
      } else {
        budget := budget + sign * amount;
      }
    }
    return Some(Deltas(budget, energy));
  }

  function SwapEffect(s: Swap, d: Deltas): Effect {
    Effect(s.cycle, Given(if s.swapId.Some? && s.swapId.value != "" then s.swapId.value else s.idpk),
           SwapSettled, None, d.budget, d.energy)
  }

  method ApplySwapSettled(ledger: CityLedger, s: Swap) returns (r: Option<Result<bool, Error>>)
    modifies ledger
    ensures r.None? <==> s.cycle !in old(ledger.cycles) || AssetEffects(s).None?
    ensures r.None? ==> ledger.State() == old(ledger.State())
    ensures r.Some? && r.value.Ok? ==>
      Apply(old(ledger.State()), SwapEffect(s, AssetEffects(s).value), true) == Ok(ledger.State())
    ensures r.Some? && r.value.Err? ==>
      Apply(old(ledger.State()), SwapEffect(s, AssetEffects(s).value), true) == Err(r.value.error)
  {
    if s.cycle !in ledger.cycles {
      return None;
    }
    var effects := ComputeAssetEffects(s);
    if effects.None? {
      return None;
    }
    var applied := ledger.ApplyLedgerEffect(SwapEffect(s, effects.value), true);
    return Some(applied);
  }

  datatype Trade = Trade(swapId: string, cycle: string, buyer: bool, transportTotal: int)

  /** The transport of a trade, under the key of its swap but as an operation of its own. */
  function TransportEffect(t: Trade): Effect {
    Effect(t.cycle, Given(t.swapId), SwapTransport, None, -t.transportTotal, 0)
  }

  /** Only the buyer pays the transport. */
  method ApplyTradeTransport(ledger: CityLedger, t: Trade) returns (r: Option<Result<bool, Error>>)
    modifies ledger
    ensures r.None? <==> !t.buyer || t.cycle !in old(ledger.cycles)
    ensures r.None? ==> ledger.State() == old(ledger.State())
    ensures r.Some? && r.value.Ok? ==> Apply(old(ledger.State()), TransportEffect(t), true) == Ok(ledger.State())
    ensures r.Some? && r.value.Err? ==> Apply(old(ledger.State()), TransportEffect(t), true) == Err(r.value.error)
  {
    if !t.buyer || t.cycle !in ledger.cycles {
      return None;
    }
    var applied := ledger.ApplyLedgerEffect(TransportEffect(t), true);
    return Some(applied);
  }

  /** Settlement and transport of one swap are both booked, and each of them once. */
  lemma SettlementAndTransportOnce(b: Book, s: Swap, t: Trade) returns (one: Book, both: Book)
    requires Sound(b) && s.cycle in b.cycles && t.cycle == s.cycle && AssetEffects(s).Some?
    requires var e := SwapEffect(s, AssetEffects(s).value);
             e.key == Given(t.swapId) && !Seen(Business(b.entries), e) && !Seen(Business(b.entries), TransportEffect(t))
    ensures var e, f := SwapEffect(s, AssetEffects(s).value), TransportEffect(t);
            && Apply(b, e, true) == Ok(one) && Apply(one, f, true) == Ok(both)
            && Business(both.entries) == Business(b.entries) + [e, f]
            && Apply(both, e, true) == Ok(both) && Apply(both, f, true) == Ok(both)
  {
    var e, f := SwapEffect(s, AssetEffects(s).value), TransportEffect(t);
    one, both := BookedTogether(b, e, f);
    NeitherAgain(both, Business(b.entries), e, f);
  }

  lemma BookedTogether(b: Book, e: Effect, f: Effect) returns (one: Book, both: Book)
    requires Sound(b) && e.cycle in b.cycles && f.cycle == e.cycle && e.key.Given? && f.key.Given?
    requires e.operation != f.operation && e.operation != BudgetCarryover && f.operation != BudgetCarryover
    requires !Seen(Business(b.entries), e) && !Seen(Business(b.entries), f)
    ensures Apply(b, e, true) == Ok(one) && Apply(one, f, true) == Ok(both)
    ensures Business(both.entries) == Business(b.entries) + [e, f] && e.cycle in both.cycles
  {
    one := BookedOnce(b, e);
    SeenBesides(Business(b.entries), e, f);
    both := BookedOnce(one, f);
    TwoMore(Business(b.entries), e, f);
  }

  lemma TwoMore(effects: seq<Effect>, e: Effect, f: Effect)
    ensures effects + [e] + [f] == effects + [e, f]
  {
  }

  lemma NeitherAgain(b: Book, effects: seq<Effect>, e: Effect, f: Effect)
    requires e.cycle in b.cycles && f.cycle in b.cycles && e.operation != BudgetCarryover && f.operation != BudgetCarryover
    requires Business(b.entries) == effects + [e, f]
    ensures Apply(b, e, true) == Ok(b) && Apply(b, f, true) == Ok(b)
  {
    LastTwoAreSeen(effects, e, f);
    AlreadyBooked(b, e);
    AlreadyBooked(b, f);
  }

  lemma LastTwoAreSeen(effects: seq<Effect>, e: Effect, f: Effect)
    ensures Seen(effects + [e, f], e) && Seen(effects + [e, f], f)
  {
    var all, n := effects + [e, f], |effects|;
    assert all[n] == e && all[n + 1] == f;
  }

  lemma BookedOnce(b: Book, e: Effect) returns (b': Book)
    requires Sound(b) && e.cycle in b.cycles && e.key.Given? && e.operation != BudgetCarryover
    requires !Seen(Business(b.entries), e)
    ensures Apply(b, e, true) == Ok(b') && Sound(b') && e.cycle in b'.cycles
    ensures Business(b'.entries) == Business(b.entries) + [e]
  {
    ApplyStaysSound(b, e);
    ApplyKeepsCycles(b, e);
    PostRecordsOnce(b, e);
    b' := Apply(b, e, true).value;
  }

  lemma AlreadyBooked(b: Book, e: Effect)
    requires e.cycle in b.cycles && e.operation != BudgetCarryover && Seen(Business(b.entries), e)
    ensures Apply(b, e, true) == Ok(b)
  {
    RecordedIsSeen(b.entries, e);
  }

  // ---- Burning what is left ---------------------------------------------

  function Burn(cycle: string, key: string, operation: Operation, energy: int): Effect {
    Effect(cycle, Given(key), operation, None, 0, -energy)
  }

  /** Post the effect that brings the local energy to zero, unless it is zero already. */
  function BurnLeft(b: Book, cycle: string, key: string, operation: Operation): Book
    requires cycle in b.cycles
  {
    if b.cycles[cycle].energy == 0 then b
    else AppendOnce(b, Burn(cycle, key, operation, b.cycles[cycle].energy))
  }

  function SettlementEffect(s: Settlement): Effect {
    Effect(s.cycle, Given(s.settlementId), ImbalanceSettlement, None, s.total, 0)
  }

  method ApplyImbalanceSettlement(ledger: CityLedger, s: Settlement) returns (r: Option<Result<bool, Error>>)
    modifies ledger
    ensures r.None? <==> s.cycle !in old(ledger.cycles)
    ensures r.None? ==> ledger.State() == old(ledger.State())
    ensures r.Some? ==> var settled := Apply(old(ledger.State()), SettlementEffect(s), true);
                        if settled.Err? then r.value == Err(settled.error)
                        else s.cycle in settled.value.cycles && r.value.Ok?
                             && ledger.State() == BurnLeft(settled.value, s.cycle, s.settlementId, ImbalanceBurn)
  {
    if s.cycle !in ledger.cycles {
      return None;
    }
    ApplyKeepsCycles(ledger.State(), SettlementEffect(s));
    var entry := ledger.ApplyLedgerEffect(SettlementEffect(s), true);
    if entry.Err? {
      return Some(entry);
    }
    if ledger.cycles[s.cycle].energy != 0 {
      var burn := Burn(s.cycle, s.settlementId, ImbalanceBurn, ledger.cycles[s.cycle].energy);
      var _ := ledger.ApplyLedgerEffect(burn, true);
    }
    return Some(entry);
  }

  lemma {:induction false} CarryFromKeepsEnergy(b: Book, order: seq<string>, k: nat, id: string)
    requires k <= |order| && (forall x | x in order :: x in b.cycles) && id in b.cycles
    ensures CarryFrom(b, order, k).cycles.Keys == b.cycles.Keys
    ensures CarryFrom(b, order, k).cycles[id].energy == b.cycles[id].energy
    decreases |order| - k
  {
    if k < |order| {
      CarryFromKeepsEnergy(CarryInto(b, order, k), order, k + 1, id);
    }
  }

  lemma ApplyKeepsCycles(b: Book, e: Effect)
    requires e.cycle in b.cycles
    ensures var r := Apply(b, e, true);
            r.Ok? ==> e.cycle in r.value.cycles
                      && r.value.cycles[e.cycle].energy
                         == b.cycles[e.cycle].energy
                            + (if Recorded(b.entries, e.key, e.operation) then 0 else e.energy)
  {
    if !Recorded(b.entries, e.key, e.operation) && e.budget != 0 {
      var b1 := Append(b, e);
      ChronologyIds(b1);
      if Distinct(Chronology(b1), Deadlines(b1)) {
        CarryFromKeepsEnergy(b1, Chronology(b1), 0, e.cycle);
      }
    }
  }

  /**
   * No local energy is left behind if and only if there was none, or this burn
   * had not been posted before: its key is fixed, so a cycle is burnt only once.
   */
  lemma BurnLeavesNothingIff(b: Book, cycle: string, key: string, operation: Operation)
    requires cycle in b.cycles
    ensures cycle in BurnLeft(b, cycle, key, operation).cycles
    ensures BurnLeft(b, cycle, key, operation).cycles[cycle].energy == 0
            <==> b.cycles[cycle].energy == 0 || !Recorded(b.entries, Given(key), operation)
  {
  }

  lemma SettlingRecordsNoBurn(b: Book, e: Effect, burn: Effect)
    requires Sound(b) && e.cycle in b.cycles && e.key.Given?
    requires e.operation == ImbalanceSettlement && burn.operation == ImbalanceBurn
    ensures var r := Apply(b, e, true);
            && r.Ok?
            && (Recorded(r.value.entries, burn.key, burn.operation)
                <==> Recorded(b.entries, burn.key, burn.operation))
  {
    ApplyStaysSound(b, e);
    if !Recorded(b.entries, e.key, e.operation) {
      var one, settled := Append(b, e).entries, Apply(b, e, true).value.entries;
      RecordedIsSeen(b.entries, burn);
      RecordedIsSeen(settled, burn);
      BusinessOfExtension(one, settled);
      assert one[..|b.entries|] == b.entries;
      assert Business(one) == Business(b.entries) + [e];
      SeenBesides(Business(b.entries), e, burn);
    }
  }

  /** The settlement's own burn, seen from the book before the settlement. */
  lemma SettlementLeavesNothingIff(b: Book, s: Settlement)
    requires s.cycle in b.cycles && Sound(b)
    ensures var settled := Apply(b, SettlementEffect(s), true);
            && settled.Ok? && s.cycle in settled.value.cycles
            && (var after := BurnLeft(settled.value, s.cycle, s.settlementId, ImbalanceBurn);
                s.cycle in after.cycles
                && (after.cycles[s.cycle].energy == 0
                    <==> b.cycles[s.cycle].energy == 0
                         || !Recorded(b.entries, Given(s.settlementId), ImbalanceBurn)))
  {
    var e := SettlementEffect(s);
    SettlingRecordsNoBurn(b, e, Burn(s.cycle, s.settlementId, ImbalanceBurn, 0));
    ApplyKeepsCycles(b, e);
    BurnLeavesNothingIff(Apply(b, e, true).value, s.cycle, s.settlementId, ImbalanceBurn);
  }

  lemma SeenBesides(effects: seq<Effect>, last: Effect, e: Effect)
    requires last.operation != e.operation
    ensures Seen(effects + [last], e) <==> Seen(effects, e)
  {
    if Seen(effects, e) {
      var i :| 0 <= i < |effects| && effects[i].key == e.key && effects[i].operation == e.operation;
      assert (effects + [last])[i] == effects[i];
    }
  }
}

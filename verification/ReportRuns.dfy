/**
 * Over every run of a cycle's reports: at most one row waits for dispatch, attempts
 * repeat the balances of their report, and a deferred one respects the central's opensAt.
 */
module ReportRuns {
  import opened Common
  import opened ReportDispatch

  datatype Step =
    | DoSchedule(cycle: Cycle)
    | DoExpire(now: int)
    | DoEnqueue(budget: int, energy: int, ids: Ids, now: int)
    | DoError(complaint: Complaint, msgId: string, now: int)
    | DoResult(k: nat, sent: bool, error: string, now: int)

  /** The rows with, for each, the opensAt that deferred it. */
  datatype World = World(file: File, floors: seq<Option<int>>)

  function FileStep(f: File, s: Step): File {
    match s
    case DoSchedule(c) => f.(cycle := c)
    case DoExpire(now) => Expire(f, now)
    case DoEnqueue(budget, energy, ids, now) => Enqueue(f, budget, energy, ids, now)
    case DoError(e, msgId, now) => ReportError(f, e, msgId, now)
    case DoResult(k, sent, error, now) => if k < |f.rows| then AfterResult(f, k, sent, error, now) else f
  }

  function Next(w: World, s: Step): World {
    var f := FileStep(w.file, s);
    World(f, if |f.rows| > |w.file.rows|
             then w.floors + [if s.DoError? then Some(s.complaint.opensAt) else None] else w.floors)
  }

  function Execute(c: Cycle, steps: seq<Step>): World {
    if steps == [] then World(File(c, [], []), [])
    else Next(Execute(c, steps[..|steps| - 1]), steps[|steps| - 1])
  }

  /** Generated identifiers are fresh. */
  ghost predicate Enabled(f: File, s: Step) {
    match s
    case DoEnqueue(_, _, ids, _) =>
      FindReport(f.reports, ids.idpk).None? && forall r | r in f.rows :: r.msgId != ids.msgId
    case DoError(_, msgId, _) => forall r | r in f.rows :: r.msgId != msgId
    case _ => true
  }

  ghost predicate Legal(c: Cycle, steps: seq<Step>) {
    forall i | 0 <= i < |steps| :: Enabled(Execute(c, steps[..i]).file, steps[i])
  }

  // ---- The invariant ----------------------------------------------------

  ghost predicate Matches(row: Row, r: Report) {
    row.idpk == r.idpk && row.budget == r.budget && row.energy == r.energy
  }

  ghost predicate Filed(row: Row, reports: seq<Report>) {
    exists k | 0 <= k < |reports| :: Matches(row, reports[k])
  }

  /** Only the last attempt of the latest report waits. */
  ghost predicate OnlyLastWaits(reports: seq<Report>, rows: seq<Row>) {
    forall i | 0 <= i < |rows| && rows[i].required ::
      reports != [] && LastAttempt(rows, reports[|reports| - 1].idpk) == Some(i)
  }

  ghost predicate Inv(f: File) {
    && (forall i, j | 0 <= i < j < |f.reports| :: f.reports[i].idpk != f.reports[j].idpk)
    && (forall i | 0 <= i < |f.rows| :: Filed(f.rows[i], f.reports))
    && OnlyLastWaits(f.reports, f.rows)
  }

  // ---- Changes that keep it ---------------------------------------------

  predicate SameReport(r: Report, r': Report) {
    r'.idpk == r.idpk && r'.budget == r.budget && r'.energy == r.energy
  }

  predicate SameRow(row: Row, row': Row) {
    && row'.msgId == row.msgId && row'.idpk == row.idpk && row'.budget == row.budget && row'.energy == row.energy
    && row'.availableAt == row.availableAt && (row'.required ==> row.required)
  }

  /** Statuses, notes and dispatch flags change; nothing starts to wait. */
  ghost predicate Calmer(f: File, f': File) {
    && |f'.reports| == |f.reports| && |f'.rows| == |f.rows|
    && (forall i | 0 <= i < |f.reports| :: SameReport(f.reports[i], f'.reports[i]))
    && (forall i | 0 <= i < |f.rows| :: SameRow(f.rows[i], f'.rows[i]))
  }

  lemma CalmerTransitive(f: File, f1: File, f2: File)
    requires Calmer(f, f1) && Calmer(f1, f2)
    ensures Calmer(f, f2)
  {
  }

  lemma CalmerKeepsInv(f: File, f': File)
    requires Inv(f) && Calmer(f, f')
    ensures Inv(f')
  {
  }

  lemma {:induction false} ExpireRowsCalms(f: File, n: nat, reason: Note)
    requires n <= |f.rows|
    ensures Calmer(f, ExpireRows(f, n, reason))
    ensures forall i | 0 <= i < n :: !ExpireRows(f, n, reason).rows[i].required
  {
    if n > 0 {
      ExpireRowsCalms(f, n - 1, reason);
    }
  }

  lemma ExpireCalms(f: File, now: int)
    ensures Calmer(f, Expire(f, now)) && Expire(f, now).cycle == f.cycle
  {
    if ExpiryReason(f.cycle, now).Some? {
      ExpireRowsCalms(f, |f.rows|, ExpiryReason(f.cycle, now).value);
    }
  }

  lemma {:induction false} SupersedeRowsCalms(f: File, n: nat, idpk: string)
    requires n <= |f.rows|
    ensures var f' := SupersedeRows(f, n, idpk);
            Calmer(f, f') && forall i | 0 <= i < n && f'.rows[i].required :: f'.rows[i].idpk == idpk
  {
    if n > 0 {
      SupersedeRowsCalms(f, n - 1, idpk);
    }
  }

  lemma ResultCalms(f: File, k: nat, sent: bool, error: string, now: int)
    requires k < |f.rows|
    ensures Calmer(f, AfterResult(f, k, sent, error, now))
  {
  }

  /** A new last attempt of the latest report, when nothing else waits. */
  lemma NewRowKeepsInv(f: File, f': File, row: Row)
    requires Inv(f) && f.reports != [] && Matches(row, f.reports[|f.reports| - 1])
    requires forall i | 0 <= i < |f.rows| :: !f.rows[i].required
    requires f'.reports == f.reports && f'.rows == f.rows + [row]
    ensures Inv(f')
  {
  }

  lemma NewReportFiled(f: File, r: Report)
    requires Inv(f) && FindReport(f.reports, r.idpk).None?
    ensures var f' := f.(reports := f.reports + [r]);
            && (forall i, j | 0 <= i < j < |f'.reports| :: f'.reports[i].idpk != f'.reports[j].idpk)
            && (forall i | 0 <= i < |f'.rows| :: Filed(f'.rows[i], f'.reports))
            && LastAttempt(f'.rows, r.idpk).None?
  {
    var f' := f.(reports := f.reports + [r]);
    forall i | 0 <= i < |f'.rows| ensures Filed(f'.rows[i], f'.reports) && f'.rows[i].idpk != r.idpk {
      assert Filed(f.rows[i], f.reports);
      var k :| 0 <= k < |f.reports| && Matches(f.rows[i], f.reports[k]);
      assert Matches(f'.rows[i], f'.reports[k]);
    }
  }

  /** Everything but the waiting, and no attempt of the latest report yet. */
  ghost predicate Prepared(f: File, report: Report) {
    && f.reports != [] && SameReport(f.reports[|f.reports| - 1], report)
    && (forall i, j | 0 <= i < j < |f.reports| :: f.reports[i].idpk != f.reports[j].idpk)
    && (forall i | 0 <= i < |f.rows| :: Filed(f.rows[i], f.reports) && f.rows[i].idpk != report.idpk)
  }

  lemma SupersedeKeepsPrepared(f: File, report: Report)
    requires Prepared(f, report)
    ensures var f' := SupersedeRows(f, |f.rows|, report.idpk);
            Prepared(f', report) && forall i | 0 <= i < |f'.rows| :: !f'.rows[i].required
  {
    var f' := SupersedeRows(f, |f.rows|, report.idpk);
    SupersedeRowsCalms(f, |f.rows|, report.idpk);
    forall i | 0 <= i < |f'.rows| ensures Filed(f'.rows[i], f'.reports) && f'.rows[i].idpk != report.idpk {
      assert Filed(f.rows[i], f.reports) && SameRow(f.rows[i], f'.rows[i]);
      var k :| 0 <= k < |f.reports| && Matches(f.rows[i], f.reports[k]);
      assert SameReport(f.reports[k], f'.reports[k]);
      assert Matches(f'.rows[i], f'.reports[k]);
    }
    assert SameReport(f.reports[|f.reports| - 1], f'.reports[|f.reports| - 1]);
  }

  lemma PreparedIsQuiet(f: File, report: Report)
    requires Prepared(f, report) && forall i | 0 <= i < |f.rows| :: !f.rows[i].required
    ensures Inv(f)
  {
  }

  lemma EnqueueReportKeepsInv(f: File, budget: int, energy: int, ids: Ids)
    requires Inv(f) && FindReport(f.reports, ids.idpk).None?
    ensures Inv(EnqueueReport(f, budget, energy, ids))
  {
    var (reports, report) := Generate(f, budget, energy, ids.idpk);
    var f1 := f.(reports := reports);
    if reports != f.reports {
      NewReportFiled(f, report);
    }
    if LastAttempt(f.rows, report.idpk).None? {
      assert Prepared(f1, report);
      SupersedeKeepsPrepared(f1, report);
      var f2 := SupersedeRows(f1, |f1.rows|, report.idpk);
      PreparedIsQuiet(f2, report);
      NewRowKeepsInv(f2, EnqueueReport(f, budget, energy, ids), NewRow(report, ids.msgId, f.cycle.opensAt));
    }
  }

  lemma {:induction false} SameIdsSameFind(reports: seq<Report>, reports': seq<Report>, idpk: string)
    requires |reports'| == |reports| && forall i | 0 <= i < |reports| :: SameReport(reports[i], reports'[i])
    ensures FindReport(reports', idpk) == FindReport(reports, idpk)
  {
    if reports != [] {
      SameIdsSameFind(reports[..|reports| - 1], reports'[..|reports| - 1], idpk);
    }
  }

  lemma EnqueueKeepsInv(f: File, budget: int, energy: int, ids: Ids, now: int)
    requires Inv(f) && FindReport(f.reports, ids.idpk).None?
    ensures Inv(Enqueue(f, budget, energy, ids, now))
  {
    var f1 := Expire(f, now);
    ExpireCalms(f, now);
    CalmerKeepsInv(f, f1);
    SameIdsSameFind(f.reports, f1.reports, ids.idpk);
    if Due(f1.cycle, now) && !Blocks(f1) {
      EnqueueReportKeepsInv(f1, budget, energy, ids);
    }
  }

  /** The complaint ends the attempt that waited, if any did. */
  lemma ComplaintQuiets(f: File, e: Complaint, r: Report)
    requires Inv(f) && Current(f, e.target) && SameReport(f.reports[|f.reports| - 1], r)
    ensures var k := FindRow(f.rows, e.target).value;
            var f1 := LastReport(f.(rows := f.rows[k := f.rows[k].(required := false, error := Some(e.reason))]), r);
            Inv(f1) && forall i | 0 <= i < |f1.rows| :: !f1.rows[i].required
  {
    var k := FindRow(f.rows, e.target).value;
    var f1 := LastReport(f.(rows := f.rows[k := f.rows[k].(required := false, error := Some(e.reason))]), r);
    CalmerKeepsInv(f, f1);
  }

  lemma DeferralKeepsInv(f: File, f': File, r: Report, msgId: string, opening: int)
    requires Inv(f) && f.reports != [] && SameReport(f.reports[|f.reports| - 1], r)
    requires forall i | 0 <= i < |f.rows| :: !f.rows[i].required
    requires f'.reports == f.reports && f'.rows == f.rows + [NewRow(r, msgId, Some(opening))]
    ensures Inv(f')
  {
  }

  lemma ErrorKeepsInv(f: File, e: Complaint, msgId: string, now: int)
    requires Inv(f)
    ensures Inv(ReportError(f, e, msgId, now))
  {
    if Current(f, e.target) {
      SettleKeepsInv(f, e, msgId, now);
    }
  }

  /** Without a deferral, nothing starts to wait. */
  lemma SettleCalms(f: File, e: Complaint, msgId: string, now: int)
    requires Current(f, e.target) && |Settle(f, e, msgId, now).rows| == |f.rows|
    ensures Calmer(f, Settle(f, e, msgId, now))
  {
    var k := FindRow(f.rows, e.target).value;
    var report := f.reports[|f.reports| - 1].(reason := Some(e.reason));
    var quiet := f.(rows := f.rows[k := f.rows[k].(required := false, error := Some(e.reason))]);
    var f1 := LastReport(quiet.(cycle := f.cycle.(phase := CLOSED)), report.(status := EXPIRED));
    if e.reason == CycleExpired || f.cycle.validUntil.None? || now >= f.cycle.validUntil.value {
      ExpireCalms(f1, now);
      CalmerTransitive(f, f1, Expire(f1, now));
    }
  }

  lemma SettleKeepsInv(f: File, e: Complaint, msgId: string, now: int)
    requires Inv(f) && Current(f, e.target)
    ensures Inv(Settle(f, e, msgId, now))
  {
    var f' := Settle(f, e, msgId, now);
    if |f'.rows| == |f.rows| {
      SettleCalms(f, e, msgId, now);
      CalmerKeepsInv(f, f');
    } else {
      DeferralGrows(f, e, msgId, now);
      var report := f.reports[|f.reports| - 1].(reason := Some(e.reason), status := DEFERRED);
      var k := FindRow(f.rows, e.target).value;
      var f1 := LastReport(f.(rows := f.rows[k := f.rows[k].(required := false, error := Some(e.reason))]), report);
      ComplaintQuiets(f, e, report);
      DeferralKeepsInv(f1, f', report, msgId, MaxOpening(f.cycle, e.opensAt));
    }
  }

  lemma DeferralGrows(f: File, e: Complaint, msgId: string, now: int)
    requires Current(f, e.target) && |Settle(f, e, msgId, now).rows| != |f.rows|
    ensures var report := f.reports[|f.reports| - 1].(reason := Some(e.reason), status := DEFERRED);
            var k := FindRow(f.rows, e.target).value;
            var f1 := LastReport(f.(rows := f.rows[k := f.rows[k].(required := false, error := Some(e.reason))]), report);
            var f' := Settle(f, e, msgId, now);
            && f'.reports == f1.reports
            && f'.rows == f1.rows + [NewRow(report, msgId, Some(MaxOpening(f.cycle, e.opensAt)))]
  {
  }

  lemma StepKeepsInv(f: File, s: Step)
    requires Inv(f) && Enabled(f, s)
    ensures Inv(FileStep(f, s))
  {
    match s
    case DoSchedule(c) => CalmerKeepsInv(f, f.(cycle := c));
    case DoExpire(now) =>
      ExpireCalms(f, now);
      CalmerKeepsInv(f, Expire(f, now));
    case DoEnqueue(budget, energy, ids, now) => EnqueueKeepsInv(f, budget, energy, ids, now);
    case DoError(e, msgId, now) => ErrorKeepsInv(f, e, msgId, now);
    case DoResult(k, sent, error, now) =>
      if k < |f.rows| {
        ResultCalms(f, k, sent, error, now);
        CalmerKeepsInv(f, AfterResult(f, k, sent, error, now));
      }
  }

  // ---- Availability -----------------------------------------------------

  predicate SameRows(rows: seq<Row>, rows': seq<Row>) {
    |rows| <= |rows'| && forall i | 0 <= i < |rows| :: SameRow(rows[i], rows'[i])
  }

  /** A step keeps the rows and adds at most one; a deferral adds it for the opensAt it was told. */
  ghost predicate Grows(f: File, f': File, s: Step) {
    && SameRows(f.rows, f'.rows) && |f'.rows| <= |f.rows| + 1
    && (|f'.rows| > |f.rows| && s.DoError? ==>
          var row := f'.rows[|f.rows|];
          && row.availableAt.Some? && row.availableAt.value >= s.complaint.opensAt
          && f.reports != [] && Matches(row, f.reports[|f.reports| - 1]))
  }

  lemma EnqueueGrows(f: File, s: Step)
    requires s.DoEnqueue?
    ensures Grows(f, FileStep(f, s), s)
  {
    var f1 := Expire(f, s.now);
    ExpireCalms(f, s.now);
    if Due(f1.cycle, s.now) && !Blocks(f1) {
      var (reports, report) := Generate(f1, s.budget, s.energy, s.ids.idpk);
      var f2 := f1.(reports := reports);
      SupersedeRowsCalms(f2, |f2.rows|, report.idpk);
    }
  }

  lemma ErrorGrows(f: File, s: Step)
    requires s.DoError?
    ensures Grows(f, FileStep(f, s), s)
  {
    if Current(f, s.complaint.target) {
      var k := FindRow(f.rows, s.complaint.target).value;
      var report := f.reports[|f.reports| - 1].(reason := Some(s.complaint.reason));
      var quiet := f.(rows := f.rows[k := f.rows[k].(required := false, error := Some(s.complaint.reason))]);
      ExpireCalms(LastReport(quiet.(cycle := f.cycle.(phase := CLOSED)), report.(status := EXPIRED)), s.now);
    }
  }

  lemma StepGrows(f: File, s: Step)
    ensures Grows(f, FileStep(f, s), s)
  {
    match s
    case DoSchedule(_) =>
    case DoExpire(now) => ExpireCalms(f, now);
    case DoEnqueue(_, _, _, _) => EnqueueGrows(f, s);
    case DoError(_, _, _) => ErrorGrows(f, s);
    case DoResult(k, sent, error, now) =>
      if k < |f.rows| {
        ResultCalms(f, k, sent, error, now);
      }
  }

  ghost predicate Floored(w: World) {
    && |w.floors| == |w.file.rows|
    && forall i | 0 <= i < |w.floors| && w.floors[i].Some? ::
         w.file.rows[i].availableAt.Some? && w.file.rows[i].availableAt.value >= w.floors[i].value
  }

  lemma StepKeepsFloors(w: World, s: Step)
    requires Floored(w)
    ensures Floored(Next(w, s))
  {
    StepGrows(w.file, s);
    var w' := Next(w, s);
    forall i | 0 <= i < |w'.floors| && w'.floors[i].Some?
      ensures w'.file.rows[i].availableAt.Some? && w'.file.rows[i].availableAt.value >= w'.floors[i].value
    {
      if i < |w.floors| {
        assert SameRow(w.file.rows[i], w'.file.rows[i]);
      }
    }
  }

  lemma {:induction false} EveryRunKeepsInv(c: Cycle, steps: seq<Step>)
    requires Legal(c, steps)
    ensures Inv(Execute(c, steps).file) && Floored(Execute(c, steps))
  {
    if steps != [] {
      var n := |steps| - 1;
      forall i | 0 <= i < n ensures Enabled(Execute(c, steps[..n][..i]).file, steps[..n][i]) {
        assert steps[..n][..i] == steps[..i];
      }
      EveryRunKeepsInv(c, steps[..n]);
      StepKeepsInv(Execute(c, steps[..n]).file, steps[n]);
      StepKeepsFloors(Execute(c, steps[..n]), steps[n]);
    }
  }

  // ---- Main results -----------------------------------------------------

  /** At most one row of the cycle waits for dispatch: the last attempt of the latest report. */
  lemma OneWaitingRow(c: Cycle, steps: seq<Step>)
    requires Legal(c, steps)
    ensures var f := Execute(c, steps).file;
            && (forall i, j | 0 <= i < |f.rows| && 0 <= j < |f.rows| && f.rows[i].required && f.rows[j].required :: i == j)
            && (forall i | 0 <= i < |f.rows| && f.rows[i].required ::
                  f.reports != [] && LastAttempt(f.rows, f.reports[|f.reports| - 1].idpk) == Some(i))
  {
    EveryRunKeepsInv(c, steps);
    AtMostOneWaits(Execute(c, steps).file);
  }

  lemma AtMostOneWaits(f: File)
    requires OnlyLastWaits(f.reports, f.rows)
    ensures forall i, j | 0 <= i < |f.rows| && 0 <= j < |f.rows| && f.rows[i].required && f.rows[j].required :: i == j
  {
  }

  /**
   * Every attempt repeats the idpk and the balances of a report, and an attempt that
   * the central deferred is not handed out before the opensAt it gave.
   */
  lemma DeferredAttemptsWait(c: Cycle, steps: seq<Step>, k: nat, now: int)
    requires Legal(c, steps) && k < |Execute(c, steps).file.rows|
    ensures var w := Execute(c, steps);
            && Filed(w.file.rows[k], w.file.reports) && |w.floors| == |w.file.rows|
            && (Dispatchable(w.file, k, now) && w.floors[k].Some? ==> w.floors[k].value <= now)
  {
    EveryRunKeepsInv(c, steps);
  }

  lemma {:induction false} ExpireRowsKeepsFinal(f: File, n: nat, reason: Note, i: nat)
    requires n <= |f.rows| && i < |f.reports| && f.reports[i].status !in {PENDING, DEFERRED}
    ensures var f' := ExpireRows(f, n, reason); i < |f'.reports| && f'.reports[i] == f.reports[i]
  {
    if n > 0 {
      ExpireRowsKeepsFinal(f, n - 1, reason, i);
    }
  }

  /** What an error about the current attempt leads to. */
  lemma CurrentErrorDecides(f: File, e: Complaint, msgId: string, now: int)
    requires Current(f, e.target)
    ensures var f', last := ReportError(f, e, msgId, now), |f.reports| - 1;
            && |f'.reports| == |f.reports|
            && (f'.reports[last].status in {EXPIRED, REJECTED}
                || (f'.reports[last].status == DEFERRED && |f'.rows| == |f.rows| + 1
                    && e.reason == ReportTooEarly && now < e.opensAt
                    && Matches(f'.rows[|f.rows|], f'.reports[last])))
  {
    if e.reason == CycleExpired || f.cycle.validUntil.None? || now >= f.cycle.validUntil.value {
      var k := FindRow(f.rows, e.target).value;
      var report := f.reports[|f.reports| - 1].(reason := Some(e.reason), status := EXPIRED);
      var f1 := LastReport(f.(rows := f.rows[k := f.rows[k].(required := false, error := Some(e.reason))],
                              cycle := f.cycle.(phase := CLOSED)), report);
      ExpireCalms(f1, now);
      ExpireRowsKeepsFinal(f1, |f1.rows|, if !f1.cycle.known || f1.cycle.validUntil.None? then CycleUnknown else CycleExpired,
                           |f.reports| - 1);
    }
  }

  /** An error has an effect exactly when it is about the last attempt of the latest report, still open. */
  lemma LateErrorsChangeNothing(f: File, e: Complaint, msgId: string, now: int)
    ensures Current(f, e.target) <==> ReportError(f, e, msgId, now) != f
  {
    if Current(f, e.target) {
      CurrentErrorDecides(f, e, msgId, now);
    }
  }

  /** A due cycle whose balances are not yet reported gets a row with them, open from the window on. */
  lemma NewBalancesGoOut(f: File, budget: int, energy: int, ids: Ids, now: int)
    requires Inv(f) && FindReport(f.reports, ids.idpk).None?
    requires Due(f.cycle, now) && !Blocks(f)
    requires f.reports == [] || f.reports[|f.reports| - 1].budget != budget || f.reports[|f.reports| - 1].energy != energy
    ensures var f' := Enqueue(f, budget, energy, ids, now);
            && |f'.rows| == |f.rows| + 1 && |f'.reports| == |f.reports| + 1
            && f'.rows[|f.rows|] == Row(ids.msgId, ids.idpk, budget, energy, WAITING, true, None, f.cycle.opensAt)
            && Dispatchable(f', |f.rows|, now)
            && (forall i | 0 <= i < |f.rows| :: !f'.rows[i].required)
  {
    var report := Report(ids.idpk, budget, energy, PENDING, None, None);
    var f1 := f.(reports := f.reports + [report]);
    assert Expire(f, now) == f;
    NewReportFiled(f, report);
    SupersedeRowsCalms(f1, |f1.rows|, ids.idpk);
  }

  /** A publication reported again changes nothing, and the first instant stays. */
  lemma RepeatedResultChangesNothing(f: File, k: nat, error: string, now: int, error': string, now': int)
    requires k < |f.rows|
    ensures var f' := AfterResult(f, k, true, error, now);
            && |f'.rows| == |f.rows| && f'.rows[k].delivery.SENT? && (f.rows[k].delivery.SENT? || f'.rows[k].delivery.at == now)
            && AfterResult(f', k, true, error', now') == f'
  {
    var f' := AfterResult(f, k, true, error, now);
    SameIdsSameFind(f.reports, f'.reports, f.rows[k].idpk);
    SameNamesSameAttempt(f.rows, f'.rows, f.rows[k].idpk);
    assert AfterResult(f', k, true, error', now').rows == f'.rows;
    assert AfterResult(f', k, true, error', now').reports == f'.reports;
  }

  lemma {:induction false} SameNamesSameAttempt(rows: seq<Row>, rows': seq<Row>, idpk: string)
    requires |rows'| == |rows| && forall i | 0 <= i < |rows| :: rows'[i].idpk == rows[i].idpk
    ensures LastAttempt(rows', idpk) == LastAttempt(rows, idpk)
  {
    if rows != [] {
      SameNamesSameAttempt(rows[..|rows| - 1], rows'[..|rows| - 1], idpk);
    }
  }
}

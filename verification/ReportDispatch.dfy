/**
 * The negotiation report of a cycle: generated from the balances, sent through the
 * outbox, deferred when the central says it is too early, and expired with the cycle.
 */
module ReportDispatch {
  import opened Common

  datatype Status = PENDING | DEFERRED | PUBLISHED | EXPIRED | REJECTED | SUPERSEDED

  datatype Note = ReportTooEarly | CycleExpired | CycleUnknown | Superseded | PriceAboveCap | OverCapacity
                | Text(text: string)

  datatype Report = Report(
    idpk: string, budget: int, energy: int, status: Status, reason: Option<Note>, sentAt: Option<int>)

  /** `at`: the instant of the first publication. */
  datatype Delivery = WAITING | FAILED | SENT(at: int)

  /** An outbox row of the cycle's reports; the balances are its payload. */
  datatype Row = Row(
    msgId: string, idpk: string, budget: int, energy: int,
    delivery: Delivery, required: bool, error: Option<Note>, availableAt: Option<int>)

  datatype Phase = BEFORE_WINDOW | REPORT_WINDOW | CLOSED

  /** `known`: the central opened the cycle with a status-statement. */
  datatype Cycle = Cycle(known: bool, validUntil: Option<int>, opensAt: Option<int>, phase: Phase)

  /** Reports and rows of one cycle, in id order. */
  datatype File = File(cycle: Cycle, reports: seq<Report>, rows: seq<Row>)

  function FindReport(reports: seq<Report>, idpk: string): (k: Option<nat>)
    ensures k.Some? ==> k.value < |reports| && reports[k.value].idpk == idpk
    ensures k.None? ==> forall i | 0 <= i < |reports| :: reports[i].idpk != idpk
  {
    if reports == [] then None
    else
      var n := |reports| - 1;
      var k := FindReport(reports[..n], idpk);
      if k.Some? then k else if reports[n].idpk == idpk then Some(n) else None
  }

  /** The row with this msgId. */
  function FindRow(rows: seq<Row>, msgId: string): (k: Option<nat>)
    ensures k.Some? ==> k.value < |rows| && rows[k.value].msgId == msgId
  {
    if rows == [] then None
    else
      var n := |rows| - 1;
      var k := FindRow(rows[..n], msgId);
      if k.Some? then k else if rows[n].msgId == msgId then Some(n) else None
  }

  /** The latest attempt of an operation. */
  function LastAttempt(rows: seq<Row>, idpk: string): (k: Option<nat>)
    ensures k.Some? ==> k.value < |rows| && rows[k.value].idpk == idpk
    ensures k.Some? ==> forall i | k.value < i < |rows| :: rows[i].idpk != idpk
    ensures k.None? ==> forall i | 0 <= i < |rows| :: rows[i].idpk != idpk
  {
    if rows == [] then None
    else if rows[|rows| - 1].idpk == idpk then Some(|rows| - 1)
    else LastAttempt(rows[..|rows| - 1], idpk)
  }

  // ---- Expiry -----------------------------------------------------------

  function ExpiryReason(c: Cycle, now: int): Option<Note> {
    if !c.known || c.validUntil.None? then Some(CycleUnknown)
    else if c.phase == CLOSED || now >= c.validUntil.value then Some(CycleExpired)
    else None
  }

  function Ended(r: Report, reason: Note): Report {
    if r.status in {PENDING, DEFERRED}
    then r.(status := if reason == CycleExpired then EXPIRED else REJECTED, reason := Some(reason)) else r
  }

  function EndedAt(reports: seq<Report>, idpk: string, reason: Note): seq<Report> {
    var k := FindReport(reports, idpk);
    if k.None? then reports else reports[k.value := Ended(reports[k.value], reason)]
  }

  /** The first n rows no longer wait for dispatch. */
  function ExpireRows(f: File, n: nat, reason: Note): (f': File)
    requires n <= |f.rows|
    ensures |f'.rows| == |f.rows| && f'.cycle == f.cycle
  {
    if n == 0 then f
    else
      var f1 := ExpireRows(f, n - 1, reason);
      var row := f1.rows[n - 1];
      if !row.required then f1
      else f1.(rows := f1.rows[n - 1 := row.(required := false, error := Some(reason))],
               reports := EndedAt(f1.reports, row.idpk, reason))
  }

  function Expire(f: File, now: int): File {
    if ExpiryReason(f.cycle, now).None? then f else ExpireRows(f, |f.rows|, ExpiryReason(f.cycle, now).value)
  }

  // ---- Enqueue ----------------------------------------------------------

  datatype Ids = Ids(idpk: string, msgId: string)

  predicate Due(c: Cycle, now: int) {
    && c.phase == REPORT_WINDOW && c.known
    && c.opensAt.Some? && c.opensAt.value <= now
    && c.validUntil.Some? && now < c.validUntil.value
  }

  /** Unchanged balances belong to the latest report; others make a new one. */
  function Generate(f: File, budget: int, energy: int, idpk: string): (seq<Report>, Report) {
    if f.reports != [] && f.reports[|f.reports| - 1].budget == budget && f.reports[|f.reports| - 1].energy == energy
    then (f.reports, f.reports[|f.reports| - 1])
    else
      var report := Report(idpk, budget, energy, PENDING, None, None);
      (f.reports + [report], report)
  }

  function SupersededAt(reports: seq<Report>, idpk: string): seq<Report> {
    var k := FindReport(reports, idpk);
    if k.None? || reports[k.value].status !in {PENDING, DEFERRED} then reports
    else reports[k.value := reports[k.value].(status := SUPERSEDED)]
  }

  /** Among the first n rows, those of other operations give way to a newer report. */
  function SupersedeRows(f: File, n: nat, idpk: string): (f': File)
    requires n <= |f.rows|
    ensures |f'.rows| == |f.rows| && f'.cycle == f.cycle
  {
    if n == 0 then f
    else
      var f1 := SupersedeRows(f, n - 1, idpk);
      var row := f1.rows[n - 1];
      if !row.required || row.idpk == idpk then f1
      else f1.(rows := f1.rows[n - 1 := row.(required := false, error := Some(Superseded))],
               reports := SupersededAt(f1.reports, row.idpk))
  }

  function NewRow(r: Report, msgId: string, availableAt: Option<int>): Row {
    Row(msgId, r.idpk, r.budget, r.energy, WAITING, true, None, availableAt)
  }

  predicate Blocks(f: File) {
    f.reports != [] && f.reports[|f.reports| - 1].status in {DEFERRED, EXPIRED, REJECTED}
  }

  function EnqueueReport(f: File, budget: int, energy: int, ids: Ids): File {
    var (reports, report) := Generate(f, budget, energy, ids.idpk);
    var f1 := f.(reports := reports);
    if LastAttempt(f.rows, report.idpk).Some? then f1
    else
      var f2 := SupersedeRows(f1, |f1.rows|, report.idpk);
      f2.(rows := f2.rows + [NewRow(report, ids.msgId, f.cycle.opensAt)])
  }

  function Enqueue(f: File, budget: int, energy: int, ids: Ids, now: int): File {
    var f1 := Expire(f, now);
    if !Due(f1.cycle, now) || Blocks(f1) then f1 else EnqueueReport(f1, budget, energy, ids)
  }

  // ---- Errors of the central --------------------------------------------

  datatype Complaint = Complaint(target: string, reason: Note, opensAt: int)

  /** The error is about the latest attempt of the latest report, which is still open. */
  predicate Current(f: File, target: string) {
    var k := FindRow(f.rows, target);
    && k.Some? && f.reports != []
    && var report := f.reports[|f.reports| - 1];
    && f.rows[k.value].idpk == report.idpk && LastAttempt(f.rows, report.idpk) == k
    && report.status !in {EXPIRED, REJECTED}
  }

  function LastReport(f: File, r: Report): File
    requires f.reports != []
  {
    f.(reports := f.reports[|f.reports| - 1 := r])
  }

  function MaxOpening(c: Cycle, opensAt: int): int {
    if c.opensAt.None? then opensAt else Max(c.opensAt.value, opensAt)
  }

  function Settle(f: File, e: Complaint, msgId: string, now: int): File
    requires f.reports != [] && FindRow(f.rows, e.target).Some?
  {
    var k := FindRow(f.rows, e.target).value;
    var report := f.reports[|f.reports| - 1].(reason := Some(e.reason));
    var f1 := f.(rows := f.rows[k := f.rows[k].(required := false, error := Some(e.reason))]);
    if e.reason == CycleExpired || f.cycle.validUntil.None? || now >= f.cycle.validUntil.value then
      Expire(LastReport(f1.(cycle := f.cycle.(phase := CLOSED)), report.(status := EXPIRED)), now)
    else if e.reason == ReportTooEarly then
      var opening := MaxOpening(f.cycle, e.opensAt);
      var f2 := f1.(cycle := f.cycle.(opensAt := Some(opening)));
      if e.opensAt >= f.cycle.validUntil.value then LastReport(f2, report.(status := EXPIRED))
      else if e.opensAt <= now then LastReport(f2, report.(status := REJECTED))
      else LastReport(f2, report.(status := DEFERRED)).(rows := f2.rows + [NewRow(report, msgId, Some(opening))])
    else LastReport(f1, report.(status := REJECTED))
  }

  function ReportError(f: File, e: Complaint, msgId: string, now: int): File {
    if Current(f, e.target) then Settle(f, e, msgId, now) else f
  }

  // ---- Results ----------------------------------------------------------

  predicate Lasting(n: Option<Note>) {
    n.Some? && !n.value.Text?
  }

  function SentReport(f: File, k: nat, sentAt: int): File
    requires k < |f.rows|
  {
    var j := FindReport(f.reports, f.rows[k].idpk);
    if j.None? then f
    else
      var r, last := f.reports[j.value], LastAttempt(f.rows, f.rows[k].idpk) == Some(k);
      var r1 := if last && f.rows[k].error.None? && r.status in {PENDING, DEFERRED}
                then r.(status := PUBLISHED, reason := None) else r;
      f.(reports := f.reports[j.value :=
           r1.(sentAt := if last || r.sentAt.None? then Some(sentAt) else r.sentAt)])
  }

  function AfterResult(f: File, k: nat, sent: bool, error: string, now: int): File
    requires k < |f.rows|
  {
    var row := f.rows[k];
    if sent then
      var at := if row.delivery.SENT? then row.delivery.at else now;
      var row1 := row.(delivery := SENT(at), required := false, error := if Lasting(row.error) then row.error else None);
      SentReport(f.(rows := f.rows[k := row1]), k, at)
    else if !row.delivery.SENT? && row.required then
      f.(rows := f.rows[k := row.(delivery := FAILED, error := Some(Text(error)))])
    else f
  }

  /** The rows that the connector may be handed. */
  predicate Dispatchable(f: File, k: nat, now: int) {
    && k < |f.rows| && f.rows[k].required && !f.rows[k].delivery.SENT?
    && (f.rows[k].availableAt.None? || f.rows[k].availableAt.value <= now)
    && f.cycle.known && f.cycle.validUntil.Some? && f.cycle.validUntil.value > now
    && f.cycle.opensAt.Some? && f.cycle.opensAt.value <= now && f.cycle.phase != CLOSED
  }

  // ---- The rows as an object --------------------------------------------

  class ReportDesk {
    var cycle: Cycle
    var reports: seq<Report>
    var rows: seq<Row>

    function State(): File reads this { File(cycle, reports, rows) }

    constructor (c: Cycle)
      ensures State() == File(c, [], [])
    {
      cycle, reports, rows := c, [], [];
    }

    method ExpireReportDispatches(now: int)
      modifies this`reports, this`rows
      ensures State() == Expire(old(State()), now)
    {
      var reason: Note;
      if !cycle.known || cycle.validUntil.None? {
        reason := CycleUnknown;
      } else if cycle.phase == CLOSED || now >= cycle.validUntil.value {
        reason := CycleExpired;
      } else {
        return;
      }
      var n := |rows|;
      for i := 0 to n
        invariant |rows| == n
        invariant State() == ExpireRows(old(State()), i, reason)
      {
        if rows[i].required {
          rows := rows[i := rows[i].(required := false, error := Some(reason))];
          var k := FindReport(reports, rows[i].idpk);
          if k.Some? && reports[k.value].status in {PENDING, DEFERRED} {
            var ended := if reason == CycleExpired then EXPIRED else REJECTED;
            reports := reports[k.value := reports[k.value].(status := ended, reason := Some(reason))];
          }
        }
      }
    }

    method EnqueueDueNegotiationReport(budget: int, energy: int, ids: Ids, now: int) returns (enqueued: bool)
      modifies this`reports, this`rows
      ensures State() == Enqueue(old(State()), budget, energy, ids, now)
      ensures enqueued <==> |rows| == |old(rows)| + 1
      ensures !enqueued ==> |rows| == |old(rows)|
    {
      ExpireReportDispatches(now);
      if !Due(cycle, now) || Blocks(State()) {
        return false;
      }
      ghost var f := State();
      var report: Report;
      if reports != [] && reports[|reports| - 1].budget == budget && reports[|reports| - 1].energy == energy {
        report := reports[|reports| - 1];
      } else {
        report := Report(ids.idpk, budget, energy, PENDING, None, None);
        reports := reports + [report];
      }
      assert Generate(f, budget, energy, ids.idpk) == (reports, report);
      if LastAttempt(rows, report.idpk).Some? {
        return false;
      }
      ghost var f1 := State();
      var n := |rows|;
      for i := 0 to n
        invariant |rows| == n
        invariant State() == SupersedeRows(f1, i, report.idpk)
      {
        if rows[i].required && rows[i].idpk != report.idpk {
          rows := rows[i := rows[i].(required := false, error := Some(Superseded))];
          var k := FindReport(reports, rows[i].idpk);
          if k.Some? && reports[k.value].status in {PENDING, DEFERRED} {
            reports := reports[k.value := reports[k.value].(status := SUPERSEDED)];
          }
        }
      }
      rows := rows + [NewRow(report, ids.msgId, cycle.opensAt)];
      return true;
    }

    method ProcessReportError(e: Complaint, msgId: string, now: int)
      modifies this
      ensures State() == ReportError(old(State()), e, msgId, now)
    {
      if !Current(State(), e.target) {
        return;
      }
      var k := FindRow(rows, e.target).value;
      var last := |reports| - 1;
      rows := rows[k := rows[k].(required := false, error := Some(e.reason))];
      var report := reports[last].(reason := Some(e.reason));
      if e.reason == CycleExpired || cycle.validUntil.None? || now >= cycle.validUntil.value {
        reports := reports[last := report.(status := EXPIRED)];
        cycle := cycle.(phase := CLOSED);
        ExpireReportDispatches(now);
      } else if e.reason == ReportTooEarly {
        var opening := MaxOpening(cycle, e.opensAt);
        cycle := cycle.(opensAt := Some(opening));
        if e.opensAt >= cycle.validUntil.value {
          reports := reports[last := report.(status := EXPIRED)];
        } else if e.opensAt <= now {
          reports := reports[last := report.(status := REJECTED)];
        } else {
          reports := reports[last := report.(status := DEFERRED)];
          rows := rows + [NewRow(report, msgId, Some(opening))];
        }
      } else {
        reports := reports[last := report.(status := REJECTED)];
      }
    }

    method UpdateOutboundAudit(k: nat, sent: bool, error: string, now: int)
      requires k < |rows|
      modifies this`reports, this`rows
      ensures State() == AfterResult(old(State()), k, sent, error, now)
    {
      if sent {
        rows := rows[k := rows[k].(required := false)];
        if !Lasting(rows[k].error) {
          rows := rows[k := rows[k].(error := None)];
        }
        if !rows[k].delivery.SENT? {
          rows := rows[k := rows[k].(delivery := SENT(now))];
        }
        assert rows == old(rows)[k := rows[k]];
        MarkNegotiationReportSent(k, rows[k].delivery.at);
      } else if !rows[k].delivery.SENT? && rows[k].required {
        rows := rows[k := rows[k].(delivery := FAILED, error := Some(Text(error)))];
      }
    }

    method MarkNegotiationReportSent(k: nat, sentAt: int)
      requires k < |rows|
      modifies this`reports
      ensures State() == SentReport(old(State()), k, sentAt)
    {
      var j := FindReport(reports, rows[k].idpk);
      if j.None? {
        return;
      }
      var report := reports[j.value];
      var last := LastAttempt(rows, rows[k].idpk) == Some(k);
      if last && rows[k].error.None? && report.status in {PENDING, DEFERRED} {
        report := report.(status := PUBLISHED, reason := None);
      }
      if last || report.sentAt.None? {
        report := report.(sentAt := Some(sentAt));
      }
      reports := reports[j.value := report];
    }
  }

  // ---- All cycles -------------------------------------------------------

  /** The balances of one cycle, and the identifiers generated for its report. */
  datatype Input = Input(budget: int, energy: int, ids: Ids)

  function Enqueued(f: File, x: Input, now: int): File { Enqueue(f, x.budget, x.energy, x.ids, now) }

  function NewRows(files: seq<File>, inputs: seq<Input>, now: int): nat
    requires |inputs| == |files|
  {
    if files == [] then 0
    else
      var n := |files| - 1;
      NewRows(files[..n], inputs[..n], now)
      + (if |Enqueued(files[n], inputs[n], now).rows| == |files[n].rows| + 1 then 1 else 0)
  }

  lemma OneMoreCycle(files: seq<File>, inputs: seq<Input>, now: int, i: nat)
    requires |inputs| == |files| && i < |files|
    ensures NewRows(files[..i + 1], inputs[..i + 1], now)
            == NewRows(files[..i], inputs[..i], now)
               + (if |Enqueued(files[i], inputs[i], now).rows| == |files[i].rows| + 1 then 1 else 0)
  {
    assert files[..i + 1][..i] == files[..i] && inputs[..i + 1][..i] == inputs[..i];
  }

  function Files(desks: seq<ReportDesk>): (files: seq<File>)
    reads desks
    ensures |files| == |desks| && forall i | 0 <= i < |desks| :: files[i] == desks[i].State()
  {
    seq(|desks|, i requires 0 <= i < |desks| reads desks => desks[i].State())
  }

  /** Every cycle with its own balances, and how many got a row. */
  method EnqueueDueNegotiationReports(desks: seq<ReportDesk>, inputs: seq<Input>, now: int) returns (enqueued: nat)
    requires |inputs| == |desks| && forall i, j | 0 <= i < j < |desks| :: desks[i] != desks[j]
    modifies desks
    ensures forall i | 0 <= i < |desks| :: desks[i].State() == Enqueued(old(desks[i].State()), inputs[i], now)
    ensures enqueued == NewRows(old(Files(desks)), inputs, now)
  {
    ghost var files := Files(desks);
    enqueued := 0;
    for i := 0 to |desks|
      invariant enqueued == NewRows(files[..i], inputs[..i], now)
      invariant forall j | 0 <= j < i :: desks[j].State() == Enqueued(files[j], inputs[j], now)
      invariant forall j | i <= j < |desks| :: desks[j].State() == files[j]
    {
      var x := inputs[i];
      var more := desks[i].EnqueueDueNegotiationReport(x.budget, x.energy, x.ids, now);
      assert desks[i].State() == Enqueued(files[i], x, now);
      OneMoreCycle(files, inputs, now, i);
      enqueued := enqueued + if more then 1 else 0;
    }
    assert files[..|files|] == files && inputs[..|inputs|] == inputs;
  }
}

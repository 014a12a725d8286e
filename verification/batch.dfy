/** The background worker of a job: one browser session enrolls the
    records in order while the job's state and log follow along, and the
    results go to a workbook that is saved after every fifth record and
    once more at the end. */
module Batch {
  import opened Common
  import opened Clock
  import opened Eligibility
  import opened Intake
  import opened Processor
  import opened Tasks

  /** The column titles of the result workbook. */
  const Header: seq<string> := [
    "No. Fila Original", "No. Reserva", "Nombre Completo", "Correo", "C\U{F3}digo Afiliaci\U{F3}n",
    "Afiliador", "Estado", "Observaciones", "Fecha Proceso"
  ]

  /** The state column of a result row. */
  datatype Verdict = Succeeded | Errored | CrashedRecord

  function VerdictName(v: Verdict): (name: string)
    ensures name in ["EXITOSO", "ERROR", "ERROR CR\U{CD}TICO"]
  {
    match v
    case Succeeded => "EXITOSO"
    case Errored => "ERROR"
    case CrashedRecord => "ERROR CR\U{CD}TICO"
  }

  /** One row of the result workbook, column by column. */
  datatype Row = Row(
    line: nat, reservation: string, name: string, email: string, code: string,
    affiliator: string, state: Verdict, notes: string, date: Moment)

  /** The row as the workbook shows it. The processing date is written
      with `RowStamp`, except on a row for a record whose handling raised,
      which gets the format without the last colon. */
  function Cells(row: Row): (cells: seq<string>)
    ensures |cells| == |Header| && cells[6] == VerdictName(row.state)
    ensures DecimalValue(cells[0]) == row.line
    ensures cells[1] == row.reservation && cells[2] == row.name && cells[3] == row.email
    ensures cells[4] == row.code && cells[5] == row.affiliator && cells[7] == row.notes
    ensures row.state == CrashedRecord ==> cells[8] == RowStampAsWritten(row.date)
    ensures row.state != CrashedRecord ==> cells[8] == RowStamp(row.date)
  {
    DecimalOfNatToString(row.line);
    [NatToString(row.line), row.reservation, row.name, row.email, row.code, row.affiliator,
     VerdictName(row.state), row.notes,
     if row.state == CrashedRecord then RowStampAsWritten(row.date) else RowStamp(row.date)]
  }

  /** The row as evidently intended: every processing date written with
      `RowStamp`. */
  function IntendedCells(row: Row): (cells: seq<string>)
    ensures |cells| == |Header| && cells[..8] == Cells(row)[..8] && cells[8] == RowStamp(row.date)
  {
    Cells(row)[..8] + [RowStamp(row.date)]
  }

  /** The processing date of a row as written reads back exactly when the
      row is not one for a record whose handling raised; as intended it
      always reads back. */
  lemma DatesReadBack(row: Row)
    requires Clock.Valid(row.date)
    ensures ParseRowStamp(Cells(row)[8]) == Some(row.date) <==> row.state != CrashedRecord
    ensures ParseRowStamp(IntendedCells(row)[8]) == Some(row.date)
  {
    RowStampRoundTrip(row.date);
    if row.state == CrashedRecord {
      CriticalStampUnreadable(row.date);
    }
  }

  const CheckpointEvery: nat := 5

  /** Everything outside the program the worker depends on: whether the
      browser session starts, the clock when the job starts, while record
      `i` is handled and when the job ends, the enrollment site as record
      `i` meets it, what saving the workbook after record `i` raises, what
      the final save raises. */
  datatype World<!E> = World(
    browserReady: bool,
    start: Moment,
    clock: nat -> Moment,
    finish: Moment,
    pages: nat -> FormPage<E>,
    checkpointFails: nat -> Option<string>,
    finalSaveFails: Option<string>)

  /** Multiplying by a non-negative number keeps the order. */
  lemma MulMonotone(x: int, y: int, n: nat)
    ensures x <= y ==> x * n <= y * n
  {
    if x <= y {
      assert y * n - x * n == (y - x) * n;
    }
  }

  /** The integer percentage of `done` out of `n` lies in `0..100` and is
      `100` only for the last record. */
  lemma PercentBounds(done: nat, n: nat)
    requires 0 < done <= n
    ensures 0 <= done * 100 / n <= 100
    ensures done * 100 / n == 100 <==> done == n
  {
    var q, r := done * 100 / n, done * 100 % n;
    assert done * 100 == q * n + r && 0 <= r < n;
    MulMonotone(q, -1, n);
    MulMonotone(101, q, n);
    if done == n {
      MulMonotone(q, 99, n);
    } else {
      MulMonotone(100, q, n);
    }
  }

  /** The percentage shown after `done` of `n` records. */
  function Progress(done: nat, n: nat): (p: int)
    requires 0 < done <= n
    ensures 0 <= p <= 100
    ensures p == 100 <==> done == n
  {
    PercentBounds(done, n);
    done * 100 / n
  }

  /** Integer division by a positive number keeps the order. */
  lemma DivMonotone(a: nat, b: nat, n: nat)
    requires a <= b && 0 < n
    ensures a / n <= b / n
  {
    var qa, qb := a / n, b / n;
    assert qa * n <= a && b < qb * n + n;
    MulMonotone(qb + 1, qa, n);
    assert (qb + 1) * n == qb * n + n;
  }

  /** Progress never goes backwards. */
  lemma ProgressMonotone(d1: nat, d2: nat, n: nat)
    requires 0 < d1 <= d2 <= n
    ensures Progress(d1, n) <= Progress(d2, n)
  {
    DivMonotone(d1 * 100, d2 * 100, n);
  }

  const ChromeDriverError: string := "Error configurando ChromeDriver"
  const ConfiguringNote: string := "Configurando navegador..."
  const ConfiguredNote: string := "Navegador configurado correctamente"
  const ClosedNote: string := "Navegador cerrado"
  const SavedNote: string := "Archivo Excel de resultados guardado"
  const DoneNote: string := "Proceso completado"

  function StartingLine(n: nat): string {
    "Iniciando procesamiento de " + NatToString(n) + " registros"
  }

  /** The record being handled, as the job shows it. */
  function CurrentLabel(r: Record): string {
    r.name + " (" + r.email + ")"
  }
  const Completion: string := "Afiliaci\U{F3}n completada correctamente"

  function AnnounceLine(idx: nat, n: nat, r: Record): string {
    "[" + NatToString(idx + 1) + "/" + NatToString(n) + "] Procesando: " + r.name + " - " + r.email
  }

  function OutcomeLine(r: Record, out: Outcome): string {
    match out
    case Success(code, _, _, _) => "\U{2705} \U{C9}XITO: " + r.name + " - C\U{F3}digo: " + code
    case Failure(e) => "\U{274C} ERROR: " + r.name + " - " + e
  }

  function SavedLine(idx: nat, n: nat): string {
    "Progreso guardado: " + NatToString(idx + 1) + "/" + NatToString(n)
  }

  function CriticalLine(r: Record, e: string): string {
    "\U{1F6A8} ERROR CR\U{CD}TICO: " + r.name + " - " + e
  }

  function CrashBanner(e: string): string {
    "\U{1F6A8} Error cr\U{ED}tico en procesamiento: " + e
  }

  function FinalMessage(ok: nat, err: nat): string {
    "\U{2705} Proceso completado exitosamente. Resultados: " + NatToString(ok) + " exitosos, "
    + NatToString(err) + " errores"
  }

  /** Where the result file can be downloaded from. */
  function ResultUrl(kind: string, m: Moment): (url: string)
    ensures EndsWith(url, ".xlsx")
  {
    "/download/afiliaciones_" + kind + "_" + FileStamp(m) + ".xlsx"
  }

  /** The result row of one record: its identity, the code or `N/A`, the
      person enrolling, the state, the detail and the processing date. */
  function ResultRow(r: Record, out: Outcome, affiliator: string, m: Moment): (row: Row)
    ensures row.line == r.line && row.name == r.name && row.email == r.email && row.reservation == r.reservation
    ensures row.state == Succeeded <==> out.Success?
    ensures out.Success? ==> row.code == out.code && row.notes == Completion
    ensures out.Failure? ==> row.code == "N/A" && row.state == Errored && row.notes == out.error
  {
    if out.Success? then Row(r.line, r.reservation, r.name, r.email, out.code, affiliator, Succeeded, Completion, m)
    else Row(r.line, r.reservation, r.name, r.email, "N/A", affiliator, Errored, out.error, m)
  }

  /** The extra row written when handling a record raised; the detail is
      cut to its first hundred characters. */
  function CriticalRow(r: Record, affiliator: string, e: string, m: Moment): (row: Row)
    ensures row.line == r.line && row.name == r.name && row.email == r.email && row.reservation == r.reservation
    ensures row.code == "N/A" && row.affiliator == affiliator && row.state == CrashedRecord && row.date == m
    ensures exists d :: |d| == (if |e| < 100 then |e| else 100) && d <= e && row.notes == "Error procesando: " + d
  {
    Row(r.line, r.reservation, r.name, r.email, "N/A", affiliator, CrashedRecord,
        "Error procesando: " + Take(e, 100), m)
  }

  /** The update and log line that open the handling of record `idx`:
      the record counts as processed, the progress and the record being
      handled are shown, and nothing else of the job changes. */
  function Announce(tasks: map<string, Task>, id: string, idx: nat, n: nat, r: Record, m: Moment)
    : (t: map<string, Task>)
    requires idx < n
    ensures t.Keys == tasks.Keys
    ensures forall k :: k in tasks && k != id ==> t[k] == tasks[k]
    ensures id in tasks ==>
              t[id] == tasks[id].(processed := idx + 1, progress := Progress(idx + 1, n),
                                  current := CurrentLabel(r), lastUpdated := m,
                                  logs := PushLog(tasks[id].logs, LogLine(m, AnnounceLine(idx, n, r))))
  {
    var p := Patch(None, Some(Progress(idx + 1, n)), None, Some(idx + 1), None, None,
                   Some(CurrentLabel(r)), None, None);
    Logged(Patched(tasks, id, p, m), id, LogLine(m, AnnounceLine(idx, n, r)))
  }

  /** The outcome of record `idx`, given the addresses recorded before it. */
  function OutcomeOf<E>(job: Job, w: World<E>, idx: nat, seen: set<string>): Outcome
    requires idx < |job.records|
  {
    var r := job.records[idx];
    Attempt(Lower(job.kind), seen, r.name, r.email, r.reservation, w.pages(idx))
  }

  /** Whether the workbook is saved after record `idx`. */
  predicate IsCheckpoint(idx: nat) {
    (idx + 1) % CheckpointEvery == 0
  }

  /** Whether saving after record `idx` raises. */
  predicate SaveFailsAfter<E>(w: World<E>, idx: nat) {
    IsCheckpoint(idx) && w.checkpointFails(idx).Some?
  }

  /** The addresses the processor has recorded after the attempt of `r`. */
  function Note(seen: set<string>, r: Record): set<string> {
    if Records(seen, r.name, r.email) then seen + {r.email} else seen
  }

  /** The addresses recorded by the first `k` attempts. */
  function SeenTo(job: Job, k: nat): set<string>
    requires k <= |job.records|
  {
    Gather(Note, job.records, k)
  }

  /** The state left by applying `step` to the first `k` records in turn. */
  function Gather(step: (set<string>, Record) -> set<string>, rs: seq<Record>, k: nat): set<string>
    requires k <= |rs|
  {
    if k == 0 then {} else step(Gather(step, rs, k - 1), rs[k - 1])
  }

  /** The outcomes of the first `k` records, in order. */
  function Outcomes<E>(job: Job, w: World<E>, k: nat): (outs: seq<Outcome>)
    requires k <= |job.records|
    ensures |outs| == k
  {
    seq(k, i requires 0 <= i < k => OutcomeOf(job, w, i, SeenTo(job, i)))
  }

  /** The worker's bookkeeping between records: the rows of the workbook in
      memory (below the header), the rows as last saved, and the two
      counters. */
  datatype Ledger = Ledger(rows: seq<Row>, file: Option<seq<Row>>, ok: nat, err: nat)

  const Blank: Ledger := Ledger([], None, 0, 0)

  /** The bookkeeping of record `idx` with outcome `out`: its row and its
      count, and after every fifth record a save; a failed save counts the
      record once more as an error and writes a second row for it. */
  function Tally<E>(job: Job, w: World<E>, idx: nat, out: Outcome, l: Ledger): (next: Ledger)
    requires idx < |job.records|
  {
    var r := job.records[idx];
    var m := w.clock(idx);
    var rows := l.rows + [ResultRow(r, out, job.affiliator, m)];
    var ok := if out.Success? then l.ok + 1 else l.ok;
    var err := if out.Success? then l.err else l.err + 1;
    if !IsCheckpoint(idx) then Ledger(rows, l.file, ok, err)
    else
      match w.checkpointFails(idx)
      case None => Ledger(rows, Some(rows), ok, err)
      case Some(e) => Ledger(rows + [CriticalRow(r, job.affiliator, e, m)], l.file, ok, err + 1)
  }

  /** The bookkeeping after the first `k` records, given their outcomes. */
  function LedgerOf<E>(job: Job, w: World<E>, outs: seq<Outcome>, k: nat): Ledger
    requires k <= |job.records| && k <= |outs|
    decreases k
  {
    if k == 0 then Blank else Tally(job, w, k - 1, outs[k - 1], LedgerOf(job, w, outs, k - 1))
  }

  /** The lines logged once the outcome of record `idx` is known: the
      outcome line and, after every fifth record, the line about the save. */
  function OutcomeLines<E>(job: Job, w: World<E>, idx: nat, out: Outcome): (lines: seq<string>)
    requires idx < |job.records|
    ensures 1 <= |lines| <= 2 && lines[0] == LogLine(w.clock(idx), OutcomeLine(job.records[idx], out))
    ensures |lines| == 2 <==> IsCheckpoint(idx)
    ensures IsCheckpoint(idx) && w.checkpointFails(idx).None? ==>
              lines[1] == LogLine(w.clock(idx), SavedLine(idx, |job.records|))
    ensures IsCheckpoint(idx) && w.checkpointFails(idx).Some? ==>
              lines[1] == LogLine(w.clock(idx), CriticalLine(job.records[idx], w.checkpointFails(idx).value))
  {
    var r := job.records[idx];
    var m := w.clock(idx);
    [LogLine(m, OutcomeLine(r, out))]
    + if !IsCheckpoint(idx) then []
      else match w.checkpointFails(idx)
        case None => [LogLine(m, SavedLine(idx, |job.records|))]
        case Some(e) => [LogLine(m, CriticalLine(r, e))]
  }

  /** All the lines logged while record `idx` is handled. */
  function RecordLines<E>(job: Job, w: World<E>, idx: nat, out: Outcome): (lines: seq<string>)
    requires idx < |job.records|
    ensures |lines| == 1 + |OutcomeLines(job, w, idx, out)|
    ensures lines[0] == LogLine(w.clock(idx), AnnounceLine(idx, |job.records|, job.records[idx]))
  {
    [LogLine(w.clock(idx), AnnounceLine(idx, |job.records|, job.records[idx]))] + OutcomeLines(job, w, idx, out)
  }

  /** What the registry records once the outcome of record `idx` is
      known: only the job's log grows, by `OutcomeLines`. */
  function Aftermath<E>(tasks: map<string, Task>, id: string, job: Job, w: World<E>, idx: nat, out: Outcome)
    : (t: map<string, Task>)
    requires idx < |job.records|
    ensures t.Keys == tasks.Keys
    ensures forall k :: k in tasks && k != id ==> t[k] == tasks[k]
    ensures id in tasks ==> t[id] == tasks[id].(logs := PushAll(tasks[id].logs, OutcomeLines(job, w, idx, out)))
  {
    var r := job.records[idx];
    var m := w.clock(idx);
    var t := Logged(tasks, id, LogLine(m, OutcomeLine(r, out)));
    var logs := if id in tasks then tasks[id].logs else [];
    if !IsCheckpoint(idx) then
      PushFew(logs, LogLine(m, OutcomeLine(r, out)), "");
      t
    else
      match w.checkpointFails(idx)
      case None =>
        PushFew(logs, LogLine(m, OutcomeLine(r, out)), LogLine(m, SavedLine(idx, |job.records|)));
        Logged(t, id, LogLine(m, SavedLine(idx, |job.records|)))
      case Some(e) =>
        PushFew(logs, LogLine(m, OutcomeLine(r, out)), LogLine(m, CriticalLine(r, e)));
        Logged(t, id, LogLine(m, CriticalLine(r, e)))
  }

  /** What handling record `idx` writes to the registry: the progress
      update and the announcing line, then the outcome. The job's status,
      total, counters of results and message stay as they were. */
  function Journal<E>(tasks: map<string, Task>, id: string, job: Job, w: World<E>, idx: nat, out: Outcome)
    : (t: map<string, Task>)
    requires idx < |job.records|
    ensures t.Keys == tasks.Keys
    ensures forall k :: k in tasks && k != id ==> t[k] == tasks[k]
    ensures id in tasks ==>
              t[id] == tasks[id].(processed := idx + 1, progress := Progress(idx + 1, |job.records|),
                                  current := CurrentLabel(job.records[idx]),
                                  lastUpdated := w.clock(idx), logs := t[id].logs)
              && t[id].logs == PushAll(tasks[id].logs, RecordLines(job, w, idx, out))
  {
    var r := job.records[idx];
    var a := Announce(tasks, id, idx, |job.records|, r, w.clock(idx));
    var logs := if id in tasks then tasks[id].logs else [];
    PushAllCons(logs, LogLine(w.clock(idx), AnnounceLine(idx, |job.records|, r)), OutcomeLines(job, w, idx, out));
    Aftermath(a, id, job, w, idx, out)
  }

  /** The lines logged while the first `k` records are handled. */
  function LinesTo<E>(job: Job, w: World<E>, outs: seq<Outcome>, k: nat): seq<string>
    requires k <= |job.records| && k <= |outs|
  {
    if k == 0 then [] else LinesTo(job, w, outs, k - 1) + RecordLines(job, w, k - 1, outs[k - 1])
  }

  /** The registry after the first `k` records; only the worker's own job
      changes. Its status, total, counters of results and message stay as
      they were, it shows `k` records processed and the matching progress,
      and its log has grown by the lines of those records. */
  function TasksTo<E>(id: string, job: Job, w: World<E>, outs: seq<Outcome>, tasks: map<string, Task>, k: nat)
    : (t: map<string, Task>)
    requires k <= |job.records| && k <= |outs|
    ensures t.Keys == tasks.Keys
    ensures forall j :: j in tasks && j != id ==> t[j] == tasks[j]
    ensures id in tasks ==> Steady(tasks[id], t[id])
    ensures id in tasks && k > 0 ==> t[id].processed == k && t[id].progress == Progress(k, |job.records|)
    ensures id in tasks ==> t[id].logs == PushAll(tasks[id].logs, LinesTo(job, w, outs, k))
    decreases k
  {
    if k == 0 then tasks
    else
      var before := TasksTo(id, job, w, outs, tasks, k - 1);
      var logs := if id in tasks then tasks[id].logs else [];
      PushAllAppend(logs, LinesTo(job, w, outs, k - 1), RecordLines(job, w, k - 1, outs[k - 1]));
      Journal(before, id, job, w, k - 1, outs[k - 1])
  }

  /** The fields of a job that handling records leaves alone. */
  predicate Steady(a: Task, b: Task) {
    b.id == a.id && b.status == a.status && b.total == a.total && b.successful == a.successful
    && b.errors == a.errors && b.message == a.message && b.resultUrl == a.resultUrl
    && b.createdAt == a.createdAt && b.kind == a.kind && b.affiliator == a.affiliator
  }

  /** The lines and the update before the browser is started: the job
      is processing and knows its number of records. */
  function Opening<E>(tasks: map<string, Task>, id: string, n: nat, w: World<E>): (t: map<string, Task>)
    ensures t.Keys == tasks.Keys
    ensures forall k :: k in tasks && k != id ==> t[k] == tasks[k]
    ensures id in tasks ==>
              t[id] == tasks[id].(status := Processing, total := n, lastUpdated := w.start, logs := t[id].logs)
              && t[id].logs == PushAll(tasks[id].logs, [LogLine(w.start, StartingLine(n)),
                                                        LogLine(w.start, ConfiguringNote)])
  {
    var first := LogLine(w.start, StartingLine(n));
    var second := LogLine(w.start, ConfiguringNote);
    var t := Logged(tasks, id, first);
    var t' := Patched(t, id, NoChange.(status := Some(Processing), total := Some(n)), w.start);
    PushFew(if id in tasks then tasks[id].logs else [], first, second);
    Logged(t', id, second)
  }

  /** The final save and the final state of the job. */
  function Closing<E>(id: string, job: Job, w: World<E>, tasks: map<string, Task>, l: Ledger): (t: map<string, Task>)
    ensures t.Keys == tasks.Keys
    ensures forall k :: k in tasks && k != id ==> t[k] == tasks[k]
    ensures id in tasks ==> t[id].total == tasks[id].total
    ensures id in tasks && w.finalSaveFails.Some? ==>
              t[id] == tasks[id].(status := Failed, message := CrashBanner(w.finalSaveFails.value),
                                  lastUpdated := w.finish)
    ensures id in tasks && w.finalSaveFails.None? ==>
              t[id].status == Completed && t[id].progress == 100 && t[id].successful == l.ok
              && t[id].errors == l.err && t[id].resultUrl == Some(ResultUrl(job.kind, w.start))
              && t[id].message == FinalMessage(l.ok, l.err)
    ensures id in tasks && w.finalSaveFails.None? ==>
              t[id] == tasks[id].(status := Completed, progress := 100, successful := l.ok, errors := l.err,
                                  current := DoneNote, message := FinalMessage(l.ok, l.err),
                                  resultUrl := Some(ResultUrl(job.kind, w.start)), lastUpdated := w.finish,
                                  logs := t[id].logs)
              && t[id].logs == PushAll(tasks[id].logs, [LogLine(w.finish, SavedNote),
                                                        LogLine(w.finish, FinalMessage(l.ok, l.err))])
  {
    match w.finalSaveFails
    case Some(e) =>
      Patched(tasks, id, NoChange.(status := Some(Failed), message := Some(CrashBanner(e))), w.finish)
    case None =>
      PushFew(if id in tasks then tasks[id].logs else [], LogLine(w.finish, SavedNote),
              LogLine(w.finish, FinalMessage(l.ok, l.err)));
      var t := Logged(tasks, id, LogLine(w.finish, SavedNote));
      var p := Patch(Some(Completed), Some(100), None, None, Some(l.ok), Some(l.err),
                     Some(DoneNote), None, Some(ResultUrl(job.kind, w.start)));
      var t' := Logged(Patched(t, id, p, w.finish), id, LogLine(w.finish, FinalMessage(l.ok, l.err)));
      Patched(t', id, NoChange.(message := Some(FinalMessage(l.ok, l.err))), w.finish)
  }

  /** The line written once the browser is closed; closing swallows its
      own failures, so the line is always written. */
  function Closed<E>(tasks: map<string, Task>, id: string, w: World<E>): (t: map<string, Task>)
    ensures t.Keys == tasks.Keys
    ensures forall k :: k in tasks && k != id ==> t[k] == tasks[k]
    ensures id in tasks ==> t[id] == tasks[id].(logs := PushLog(tasks[id].logs, LogLine(w.finish, ClosedNote)))
  {
    Logged(tasks, id, LogLine(w.finish, ClosedNote))
  }

  /** The registry just before the first record: the job is processing,
      knows its number of records, and has logged that the browser is
      configured. */
  function Ready<E>(tasks: map<string, Task>, id: string, job: Job, w: World<E>): (t: map<string, Task>)
    ensures t.Keys == tasks.Keys
    ensures forall k :: k in tasks && k != id ==> t[k] == tasks[k]
    ensures id in tasks ==>
              t[id] == tasks[id].(status := Processing, total := |job.records|, lastUpdated := w.start, logs := t[id].logs)
              && t[id].logs != [] && t[id].logs[|t[id].logs| - 1] == LogLine(w.start, ConfiguredNote)
  {
    Logged(Opening(tasks, id, |job.records|, w), id, LogLine(w.start, ConfiguredNote))
  }

  /** The registry and the saved workbook after the whole job. */
  datatype RunResult = RunResult(tasks: map<string, Task>, file: Option<seq<Row>>)

  /** The job when the browser cannot be started: it fails with the
      driver's message, still knowing its number of records, and the last
      line of its log says the browser was closed. */
  function Abandoned<E>(tasks: map<string, Task>, id: string, n: nat, w: World<E>): (t: map<string, Task>)
    ensures t.Keys == tasks.Keys
    ensures forall k :: k in tasks && k != id ==> t[k] == tasks[k]
    ensures id in tasks ==>
              t[id].status == Failed && t[id].message == CrashBanner(ChromeDriverError) && t[id].total == n
              && t[id].logs != [] && t[id].logs[|t[id].logs| - 1] == LogLine(w.finish, ClosedNote)
  {
    var failed := NoChange.(status := Some(Failed), message := Some(CrashBanner(ChromeDriverError)));
    Closed(Patched(Opening(tasks, id, n, w), id, failed, w.finish), id, w)
  }

  /** The job when the browser starts: every record is handled, then the
      final save decides between completed and failed; the job still
      knows its number of records, and the last line of its log says the
      browser was closed. */
  function Worked<E>(tasks: map<string, Task>, id: string, job: Job, w: World<E>, outs: seq<Outcome>)
    : (t: map<string, Task>)
    requires |outs| == |job.records|
    ensures t.Keys == tasks.Keys
    ensures forall k :: k in tasks && k != id ==> t[k] == tasks[k]
    ensures id in tasks ==>
              t[id].total == |job.records|
              && t[id].logs != [] && t[id].logs[|t[id].logs| - 1] == LogLine(w.finish, ClosedNote)
  {
    var n := |job.records|;
    var ready := Ready(tasks, id, job, w);
    var t := TasksTo(id, job, w, outs, ready, n);
    var l := LedgerOf(job, w, outs, n);
    ClosingKeepsTotal(id, job, w, t, l);
    Closed(Closing(id, job, w, t, l), id, w)
  }

  /** The whole job, given the outcomes of its records. */
  function RunWith<E>(tasks: map<string, Task>, id: string, job: Job, w: World<E>, outs: seq<Outcome>): (r: RunResult)
    requires |outs| == |job.records|
    ensures r.tasks.Keys == tasks.Keys
    ensures forall j :: j in tasks && j != id ==> r.tasks[j] == tasks[j]
    ensures !w.browserReady ==> r.file.None?
    ensures w.browserReady && w.finalSaveFails.None? ==> r.file == Some(LedgerOf(job, w, outs, |job.records|).rows)
    ensures w.browserReady && w.finalSaveFails.Some? ==> r.file == LedgerOf(job, w, outs, |job.records|).file
  {
    if !w.browserReady then
      RunResult(Abandoned(tasks, id, |job.records|, w), None)
    else
      var l := LedgerOf(job, w, outs, |job.records|);
      RunResult(Worked(tasks, id, job, w, outs), if w.finalSaveFails.None? then Some(l.rows) else l.file)
  }

  /** The whole job, with the outcomes the processor gives its records. */
  function Run<E>(tasks: map<string, Task>, id: string, job: Job, w: World<E>): (r: RunResult)
    ensures r.tasks.Keys == tasks.Keys
    ensures forall j :: j in tasks && j != id ==> r.tasks[j] == tasks[j]
  {
    RunWith(tasks, id, job, w, Outcomes(job, w, |job.records|))
  }

  /** The progress update and the announcing line of record `idx`. */
  method AnnounceRecord<E>(reg: Registry, id: string, job: Job, w: World<E>, idx: nat)
    requires idx < |job.records| && reg.Valid()
    modifies reg
    ensures reg.Valid()
    ensures reg.tasks == Announce(old(reg.tasks), id, idx, |job.records|, job.records[idx], w.clock(idx))
  {
    var n := |job.records|;
    var r := job.records[idx];
    var m := w.clock(idx);
    var p := Patch(None, Some(Progress(idx + 1, n)), None, Some(idx + 1), None, None,
                   Some(CurrentLabel(r)), None, None);
    reg.Update(id, p, m);
    reg.Log(id, m, AnnounceLine(idx, n, r));
  }

  /** Counting, logging and writing the outcome of record `idx`, and the
      save after every fifth record. */
  method RecordOutcome<E>(reg: Registry, id: string, job: Job, w: World<E>, idx: nat, out: Outcome, l: Ledger)
    returns (next: Ledger)
    requires idx < |job.records| && reg.Valid()
    modifies reg
    ensures reg.Valid() && next == Tally(job, w, idx, out, l)
    ensures reg.tasks == Aftermath(old(reg.tasks), id, job, w, idx, out)
  {
    var r := job.records[idx];
    var m := w.clock(idx);
    var rows, ok, err := l.rows, l.ok, l.err;
    if out.Success? {
      ok := ok + 1;
    } else {
      err := err + 1;
    }
    reg.Log(id, m, OutcomeLine(r, out));
    rows := rows + [ResultRow(r, out, job.affiliator, m)];
    var file := l.file;
    if IsCheckpoint(idx) {
      var failure := w.checkpointFails(idx);
      if failure.None? {
        file := Some(rows);
        reg.Log(id, m, SavedLine(idx, |job.records|));
      } else {
        err := err + 1;
        reg.Log(id, m, CriticalLine(r, failure.value));
        rows := rows + [CriticalRow(r, job.affiliator, failure.value, m)];
      }
    }
    next := Ledger(rows, file, ok, err);
  }

  /** One pass of the worker's loop. */
  method HandleRecord<E>(reg: Registry, processor: MarriottProcessor, id: string, job: Job, w: World<E>,
                         idx: nat, l: Ledger) returns (next: Ledger)
    requires idx < |job.records| && reg.Valid() && processor.kind == Lower(job.kind)
    modifies reg, processor
    ensures reg.Valid() && processor.processed == Note(old(processor.processed), job.records[idx])
    ensures next == Tally(job, w, idx, OutcomeOf(job, w, idx, old(processor.processed)), l)
    ensures reg.tasks == Journal(old(reg.tasks), id, job, w, idx, OutcomeOf(job, w, idx, old(processor.processed)))
  {
    var r := job.records[idx];
    AnnounceRecord(reg, id, job, w, idx);
    var out := processor.Process(r.name, r.email, r.reservation, w.pages(idx));
    next := RecordOutcome(reg, id, job, w, idx, out, l);
  }

  /** The final save, the final state and the closing of the browser. */
  method Finish<E>(reg: Registry, id: string, job: Job, w: World<E>, l: Ledger) returns (file: Option<seq<Row>>)
    requires reg.Valid()
    modifies reg
    ensures reg.Valid() && reg.tasks == Closed(Closing(id, job, w, old(reg.tasks), l), id, w)
    ensures file == if w.finalSaveFails.None? then Some(l.rows) else l.file
  {
    if w.finalSaveFails.Some? {
      reg.Update(id, NoChange.(status := Some(Failed), message := Some(CrashBanner(w.finalSaveFails.value))), w.finish);
      file := l.file;
    } else {
      file := Some(l.rows);
      reg.Log(id, w.finish, SavedNote);
      reg.Update(id, Patch(Some(Completed), Some(100), None, None, Some(l.ok), Some(l.err),
                           Some(DoneNote), None, Some(ResultUrl(job.kind, w.start))), w.finish);
      reg.Log(id, w.finish, FinalMessage(l.ok, l.err));
      reg.Update(id, NoChange.(message := Some(FinalMessage(l.ok, l.err))), w.finish);
    }
    reg.Log(id, w.finish, ClosedNote);
  }

  /** The worker's loop over the records, in order. */
  method ProcessAll<E>(reg: Registry, processor: MarriottProcessor, id: string, job: Job, w: World<E>)
    returns (l: Ledger)
    requires reg.Valid() && processor.kind == Lower(job.kind) && processor.processed == {}
    modifies reg, processor
    ensures reg.Valid()
    ensures l == LedgerOf(job, w, Outcomes(job, w, |job.records|), |job.records|)
    ensures reg.tasks == TasksTo(id, job, w, Outcomes(job, w, |job.records|), old(reg.tasks), |job.records|)
  {
    ghost var outs := Outcomes(job, w, |job.records|);
    l := Blank;
    var idx := 0;
    while idx < |job.records|
      invariant idx <= |job.records| && reg.Valid()
      invariant processor.kind == Lower(job.kind) && processor.processed == SeenTo(job, idx)
      invariant l == LedgerOf(job, w, outs, idx) && reg.tasks == TasksTo(id, job, w, outs, old(reg.tasks), idx)
    {
      assert outs[idx] == OutcomeOf(job, w, idx, SeenTo(job, idx));
      l := HandleRecord(reg, processor, id, job, w, idx, l);
      OneMoreRecord(id, job, w, outs, old(reg.tasks), idx);
      idx := idx + 1;
    }
  }

  /** The registry and the bookkeeping after one more record. */
  lemma OneMoreRecord<E>(id: string, job: Job, w: World<E>, outs: seq<Outcome>, tasks: map<string, Task>, k: nat)
    requires k < |job.records| && k < |outs|
    ensures TasksTo(id, job, w, outs, tasks, k + 1) == Journal(TasksTo(id, job, w, outs, tasks, k), id, job, w, k, outs[k])
    ensures LedgerOf(job, w, outs, k + 1) == Tally(job, w, k, outs[k], LedgerOf(job, w, outs, k))
  {
  }

  /** The worker as it runs against the shared registry. */
  method RunBatch<E>(reg: Registry, id: string, job: Job, w: World<E>) returns (file: Option<seq<Row>>)
    requires reg.Valid()
    modifies reg
    ensures reg.Valid()
    ensures reg.tasks == Run(old(reg.tasks), id, job, w).tasks && file == Run(old(reg.tasks), id, job, w).file
  {
    var n := |job.records|;
    reg.Log(id, w.start, StartingLine(n));
    reg.Update(id, NoChange.(status := Some(Processing), total := Some(n)), w.start);
    var processor := new MarriottProcessor(job.kind, job.affiliator);
    reg.Log(id, w.start, ConfiguringNote);
    if !w.browserReady {
      reg.Update(id, NoChange.(status := Some(Failed), message := Some(CrashBanner(ChromeDriverError))), w.finish);
      reg.Log(id, w.finish, ClosedNote);
      return None;
    }
    reg.Log(id, w.start, ConfiguredNote);
    var l := ProcessAll(reg, processor, id, job, w);
    file := Finish(reg, id, job, w, l);
  }

  // ----- properties of the worker -----

  /** Number of failed saves among the first `k` records. */
  function FailedSaves<E>(w: World<E>, k: nat): (c: nat)
    ensures c <= k
  {
    if k == 0 then 0 else FailedSaves(w, k - 1) + if SaveFailsAfter(w, k - 1) then 1 else 0
  }

  /** Every record is counted once as a success or an error and has its
      row, except that a failed save counts its record a second time and
      writes a second row for it; this holds whatever the outcomes are. */
  lemma {:induction false} CountsAddUp<E>(job: Job, w: World<E>, outs: seq<Outcome>, k: nat)
    requires k <= |job.records| && k <= |outs|
    ensures LedgerOf(job, w, outs, k).ok + LedgerOf(job, w, outs, k).err == k + FailedSaves(w, k)
    ensures |LedgerOf(job, w, outs, k).rows| == k + FailedSaves(w, k)
    decreases k
  {
    if k > 0 {
      CountsAddUp(job, w, outs, k - 1);
    }
  }

  /** Number of successful outcomes among the first `k`. */
  function Successes(outs: seq<Outcome>, k: nat): (c: nat)
    requires k <= |outs|
    ensures c <= k
  {
    if k == 0 then 0 else Successes(outs, k - 1) + if outs[k - 1].Success? then 1 else 0
  }

  /** The successes counted are the successful outcomes. */
  lemma {:induction false} SuccessesCounted<E>(job: Job, w: World<E>, outs: seq<Outcome>, k: nat)
    requires k <= |job.records| && k <= |outs|
    ensures LedgerOf(job, w, outs, k).ok == Successes(outs, k)
    decreases k
  {
    if k > 0 {
      SuccessesCounted(job, w, outs, k - 1);
    }
  }

  /** With no failed save, the workbook holds one row per record, in the
      order of the records, each naming its original row and its guest and
      showing its outcome. */
  lemma {:induction false} OneRowPerRecord<E>(job: Job, w: World<E>, outs: seq<Outcome>, k: nat)
    requires k <= |job.records| && k <= |outs| && FailedSaves(w, k) == 0
    ensures |LedgerOf(job, w, outs, k).rows| == k
    ensures forall i :: 0 <= i < k ==>
              LedgerOf(job, w, outs, k).rows[i] == ResultRow(job.records[i], outs[i], job.affiliator, w.clock(i))
    decreases k
  {
    if k > 0 {
      OneRowPerRecord(job, w, outs, k - 1);
      var prev := LedgerOf(job, w, outs, k - 1).rows;
      var rows := LedgerOf(job, w, outs, k).rows;
      assert rows == prev + [ResultRow(job.records[k - 1], outs[k - 1], job.affiliator, w.clock(k - 1))];
    }
  }

  /** One more record is one more step. */
  lemma GatherStep(step: (set<string>, Record) -> set<string>, rs: seq<Record>, k: nat)
    requires k < |rs|
    ensures Gather(step, rs, k + 1) == step(Gather(step, rs, k), rs[k])
  {
  }

  /** Applying a step that never forgets leaves a growing state. */
  lemma {:induction false} GatherGrows(step: (set<string>, Record) -> set<string>, rs: seq<Record>, i: nat, k: nat)
    requires i <= k <= |rs|
    requires forall s, r :: s <= step(s, r)
    ensures Gather(step, rs, i) <= Gather(step, rs, k)
    decreases k
  {
    if i < k {
      GatherGrows(step, rs, i, k - 1);
      assert Gather(step, rs, k - 1) <= step(Gather(step, rs, k - 1), rs[k - 1]);
    }
  }

  /** The processor never forgets an address. */
  lemma NoteGrows()
    ensures forall s, r :: s <= Note(s, r)
  {
  }

  /** The processor's record of addresses only grows. */
  lemma SeenGrows(job: Job, i: nat, k: nat)
    requires i <= k <= |job.records|
    ensures SeenTo(job, i) <= SeenTo(job, k)
  {
    NoteGrows();
    GatherGrows(Note, job.records, i, k);
  }

  /** The attempt of record `i` records its address when `Records` holds. */
  lemma RecordedAt(job: Job, i: nat)
    requires i < |job.records|
    requires Records(SeenTo(job, i), job.records[i].name, job.records[i].email)
    ensures CheckEmail(job.records[i].email, SeenTo(job, i)) == Eligibility.Accepted
    ensures job.records[i].email in SeenTo(job, i + 1)
  {
    GatherStep(Note, job.records, i);
  }

  /** An address that an earlier record had recorded is, for a later record
      with the same address, a duplicate. */
  lemma RecordedIsDuplicate(job: Job, i: nat, j: nat)
    requires i < j < |job.records| && job.records[i].email == job.records[j].email
    requires Records(SeenTo(job, i), job.records[i].name, job.records[i].email)
    ensures CheckEmail(job.records[j].email, SeenTo(job, j)) == Duplicate
  {
    RecordedAt(job, i);
    NoteGrows();
    StaysDuplicate(Note, job.records, job.records[i].email, i, j);
  }

  /** An address accepted before step `i` and recorded by it stays a
      duplicate after every later step, for any step that never forgets. */
  lemma StaysDuplicate(step: (set<string>, Record) -> set<string>, rs: seq<Record>, email: string, i: nat, j: nat)
    requires i < j <= |rs|
    requires forall s, r :: s <= step(s, r)
    requires CheckEmail(email, Gather(step, rs, i)) == Eligibility.Accepted && email in Gather(step, rs, i + 1)
    ensures CheckEmail(email, Gather(step, rs, j)) == Duplicate
  {
    GatherGrows(step, rs, i + 1, j);
    DuplicateOnceSeen(email, Gather(step, rs, i), Gather(step, rs, j));
  }

  /** Within one job, a guest whose address was taken up by an earlier
      record is refused as a duplicate, however the earlier attempt ended. */
  lemma DuplicateInJob<E>(job: Job, w: World<E>, i: nat, j: nat)
    requires i < j < |job.records| && job.records[i].email == job.records[j].email
    requires Records(SeenTo(job, i), job.records[i].name, job.records[i].email)
    ensures OutcomeOf(job, w, j, SeenTo(job, j)) == Failure(EmailRefusal(Duplicate))
  {
    RecordedIsDuplicate(job, i, j);
  }

  /** A job ends completed exactly when the browser started and the final
      save went through; otherwise it ends in error with the cause in its
      message. */
  lemma EndState<E>(tasks: map<string, Task>, id: string, job: Job, w: World<E>, outs: seq<Outcome>)
    requires id in tasks && |outs| == |job.records|
    ensures RunWith(tasks, id, job, w, outs).tasks[id].status == Completed <==> w.browserReady && w.finalSaveFails.None?
    ensures RunWith(tasks, id, job, w, outs).tasks[id].status != Completed ==>
              RunWith(tasks, id, job, w, outs).tasks[id].status == Failed
              && RunWith(tasks, id, job, w, outs).tasks[id].message
                 == CrashBanner(if w.browserReady then w.finalSaveFails.value else ChromeDriverError)
  {
    var n := |job.records|;
    if !w.browserReady {
      assert RunWith(tasks, id, job, w, outs).tasks == Abandoned(tasks, id, n, w);
    } else {
      var l := LedgerOf(job, w, outs, n);
      var t := TasksTo(id, job, w, outs, Ready(tasks, id, job, w), n);
      assert id in t;
      assert RunWith(tasks, id, job, w, outs).tasks == Worked(tasks, id, job, w, outs)
                                                     == Closed(Closing(id, job, w, t, l), id, w);
    }
  }

  /** While the records are handled, the job is processing: it reports
      its total, the records processed so far, the matching progress and
      how many remain, it cannot be deleted, and its log has grown by the
      lines of the records handled. */
  lemma RunningJob<E>(tasks: map<string, Task>, id: string, job: Job, w: World<E>, outs: seq<Outcome>, k: nat)
    requires id in tasks && |outs| == |job.records| && k <= |job.records|
    ensures var ready := Ready(tasks, id, job, w);
            var t := TasksTo(id, job, w, outs, ready, k);
            && t[id].status == Processing && t[id].total == |job.records|
            && (k > 0 ==> t[id].processed == k && t[id].progress == Progress(k, |job.records|)
                          && StatusReport(t, id).Ok? && StatusReport(t, id).value.remaining == |job.records| - k)
            && Delete(t, id).reply == Err(HttpError(400, StillProcessing)) && Delete(t, id).tasks == t
            && t[id].logs == PushAll(ready[id].logs, LinesTo(job, w, outs, k))
  {
    var ready := Ready(tasks, id, job, w);
    var t := TasksTo(id, job, w, outs, ready, k);
    assert Steady(ready[id], t[id]);
  }

  /** Whatever happens, the job ends knowing its number of records, and
      the last line of its log says the browser was closed. */
  lemma EndLog<E>(tasks: map<string, Task>, id: string, job: Job, w: World<E>, outs: seq<Outcome>)
    requires id in tasks && |outs| == |job.records|
    ensures var t := RunWith(tasks, id, job, w, outs).tasks[id];
            t.total == |job.records| && t.logs != [] && t.logs[|t.logs| - 1] == LogLine(w.finish, ClosedNote)
  {
    if !w.browserReady {
      assert RunWith(tasks, id, job, w, outs).tasks == Abandoned(tasks, id, |job.records|, w);
    } else {
      assert RunWith(tasks, id, job, w, outs).tasks == Worked(tasks, id, job, w, outs);
    }
  }

  lemma ClosingKeepsTotal<E>(id: string, job: Job, w: World<E>, t: map<string, Task>, l: Ledger)
    ensures id in t ==>
              var c := Closed(Closing(id, job, w, t, l), id, w)[id];
              c.total == t[id].total && c.logs != [] && c.logs[|c.logs| - 1] == LogLine(w.finish, ClosedNote)
  {
  }

  /** With no failed save among the first `k` records, the saved workbook
      is nothing before the fifth record and otherwise the rows as they
      stood after the last multiple of five. */
  lemma {:induction false} Checkpoints<E>(job: Job, w: World<E>, outs: seq<Outcome>, k: nat)
    requires k <= |job.records| && k <= |outs| && FailedSaves(w, k) == 0
    ensures LedgerOf(job, w, outs, k).file
            == if k < CheckpointEvery then None else Some(LedgerOf(job, w, outs, k - k % CheckpointEvery).rows)
    decreases k
  {
    if k > 0 {
      Checkpoints(job, w, outs, k - 1);
      TallyFile(job, w, k - 1, outs[k - 1], LedgerOf(job, w, outs, k - 1));
      CheckpointArithmetic(k);
    }
  }

  /** Record `k - 1` is a checkpoint exactly when `k` is a multiple of
      five; otherwise the last multiple of five is the same for `k - 1`
      and `k`. */
  lemma CheckpointArithmetic(k: nat)
    requires k > 0
    ensures IsCheckpoint(k - 1) <==> k % CheckpointEvery == 0
    ensures IsCheckpoint(k - 1) ==> k >= CheckpointEvery && k - k % CheckpointEvery == k
    ensures !IsCheckpoint(k - 1) ==>
              (k - 1) - (k - 1) % CheckpointEvery == k - k % CheckpointEvery
              && (k - 1 < CheckpointEvery <==> k < CheckpointEvery)
  {
  }

  /** The saved workbook after one record: the rows written so far after a
      save that goes through, the earlier one otherwise. */
  lemma TallyFile<E>(job: Job, w: World<E>, idx: nat, out: Outcome, l: Ledger)
    requires idx < |job.records|
    ensures Tally(job, w, idx, out, l).file
            == if IsCheckpoint(idx) && w.checkpointFails(idx).None? then Some(Tally(job, w, idx, out, l).rows) else l.file
  {
  }

  /** A completed job shows full progress, the counters of the run, which
      add up to the records plus the failed saves, the download address of
      the result file and the summary message. */
  lemma CompletedJob<E>(tasks: map<string, Task>, id: string, job: Job, w: World<E>, outs: seq<Outcome>)
    requires id in tasks && w.browserReady && w.finalSaveFails.None? && |outs| == |job.records|
    ensures var t := RunWith(tasks, id, job, w, outs).tasks[id];
            var l := LedgerOf(job, w, outs, |job.records|);
            t.progress == 100 && t.successful == l.ok && t.errors == l.err
            && t.successful + t.errors == |job.records| + FailedSaves(w, |job.records|)
            && t.resultUrl == Some(ResultUrl(job.kind, w.start))
            && t.message == FinalMessage(l.ok, l.err)
  {
    var n := |job.records|;
    var l := LedgerOf(job, w, outs, n);
    var t := TasksTo(id, job, w, outs, Ready(tasks, id, job, w), n);
    assert id in t;
    assert RunWith(tasks, id, job, w, outs).tasks == Worked(tasks, id, job, w, outs)
                                                   == Closed(Closing(id, job, w, t, l), id, w);
    CountsAddUp(job, w, outs, n);
  }
}

/** The web service's in-memory registry of batch jobs: the state of each
    job, its bounded log, and the endpoints that create a job from an
    upload, report on it and delete it. */
module Tasks {
  import opened Common
  import opened Clock
  import opened Intake

  datatype Status = Pending | Processing | Completed | Failed

  /** The status as the service reports it. */
  function StatusName(s: Status): (name: string)
    ensures name in ["pending", "processing", "completed", "error"]
  {
    match s
    case Pending => "pending"
    case Processing => "processing"
    case Completed => "completed"
    case Failed => "error"
  }

  /** Distinct statuses are reported under distinct names. */
  lemma StatusNamesDistinct(a: Status, b: Status)
    ensures StatusName(a) == StatusName(b) ==> a == b
  {
  }

  /** The state of one job. `total`, `processed`, `successful` and `errors`
      count records; `current` says which record is being handled. */
  datatype Task = Task(
    id: string, status: Status, progress: int, total: nat, processed: nat,
    successful: nat, errors: nat, current: string, message: string,
    logs: seq<string>, resultUrl: Option<string>, createdAt: Moment, lastUpdated: Moment,
    kind: string, affiliator: string)

  /** The fields one update names, with their new values; `None` leaves a
      field as it is. */
  datatype Patch = Patch(
    status: Option<Status>, progress: Option<int>, total: Option<nat>, processed: Option<nat>,
    successful: Option<nat>, errors: Option<nat>, current: Option<string>, message: Option<string>,
    resultUrl: Option<string>)

  const NoChange: Patch := Patch(None, None, None, None, None, None, None, None, None)

  function Pick<T>(o: Option<T>, keep: T): T {
    match o case Some(v) => v case None => keep
  }

  /** One update: each named field takes its new value, the time of the
      last update is refreshed, and nothing else changes. */
  function ApplyPatch(t: Task, p: Patch, now: Moment): (u: Task)
    ensures u.id == t.id && u.logs == t.logs && u.createdAt == t.createdAt
    ensures u.kind == t.kind && u.affiliator == t.affiliator && u.lastUpdated == now
    ensures p.status.None? ==> u.status == t.status
    ensures p.status.Some? ==> u.status == p.status.value
    ensures p.progress.None? ==> u.progress == t.progress
    ensures p.progress.Some? ==> u.progress == p.progress.value
    ensures p.total.None? ==> u.total == t.total
    ensures p.total.Some? ==> u.total == p.total.value
    ensures p.processed.None? ==> u.processed == t.processed
    ensures p.processed.Some? ==> u.processed == p.processed.value
    ensures p.successful.None? ==> u.successful == t.successful
    ensures p.successful.Some? ==> u.successful == p.successful.value
    ensures p.errors.None? ==> u.errors == t.errors
    ensures p.errors.Some? ==> u.errors == p.errors.value
    ensures p.current.None? ==> u.current == t.current
    ensures p.current.Some? ==> u.current == p.current.value
    ensures p.message.None? ==> u.message == t.message
    ensures p.message.Some? ==> u.message == p.message.value
    ensures p.resultUrl.None? ==> u.resultUrl == t.resultUrl
    ensures p.resultUrl.Some? ==> u.resultUrl == p.resultUrl
  {
    t.(status := Pick(p.status, t.status), progress := Pick(p.progress, t.progress),
       total := Pick(p.total, t.total), processed := Pick(p.processed, t.processed),
       successful := Pick(p.successful, t.successful), errors := Pick(p.errors, t.errors),
       current := Pick(p.current, t.current), message := Pick(p.message, t.message),
       resultUrl := if p.resultUrl.Some? then p.resultUrl else t.resultUrl,
       lastUpdated := now)
  }

  /** Repeating an update changes nothing more. */
  lemma PatchIdempotent(t: Task, p: Patch, now: Moment)
    ensures ApplyPatch(ApplyPatch(t, p, now), p, now) == ApplyPatch(t, p, now)
  {
  }

  /** An update that names no field only refreshes the time stamp. */
  lemma EmptyPatchTouches(t: Task, now: Moment)
    ensures ApplyPatch(t, NoChange, now) == t.(lastUpdated := now)
  {
  }

  /** How many log lines a job keeps. */
  const LogLimit: nat := 20

  /** A log line: the time of day in brackets, then the message. */
  function LogLine(m: Moment, msg: string): (line: string)
    ensures |line| == |msg| + 11 && line[0] == '[' && line[9] == ']' && line[10] == ' ' && line[11..] == msg
  {
    "[" + TimeOfDay(m) + "] " + msg
  }

  /** Appending a line and then dropping the oldest lines beyond the limit. */
  function PushLog(logs: seq<string>, line: string): (r: seq<string>)
    ensures |r| == if |logs| < LogLimit then |logs| + 1 else LogLimit
    ensures r[|r| - 1] == line
    ensures |logs| < LogLimit ==> r == logs + [line]
    ensures exists k :: 0 <= k <= |logs| && logs + [line] == (logs + [line])[..k] + r
  {
    var all := logs + [line];
    if |all| > LogLimit then
      var r := all[|all| - LogLimit..];
      assert all == all[..|all| - LogLimit] + r;
      r
    else
      assert all == all[..0] + all;
      all
  }

  function PushAll(logs: seq<string>, lines: seq<string>): seq<string>
    decreases |lines|
  {
    if lines == [] then logs else PushAll(PushLog(logs, lines[0]), lines[1..])
  }

  /** Appending one or two lines. */
  lemma PushFew(logs: seq<string>, x: string, y: string)
    ensures PushAll(logs, [x]) == PushLog(logs, x)
    ensures PushAll(logs, [x, y]) == PushLog(PushLog(logs, x), y)
  {
    assert [x][1..] == [];
    assert [x, y][1..] == [y];
    assert PushAll(PushLog(logs, x), [y]) == PushAll(PushLog(PushLog(logs, x), y), []);
  }

  /** Appending one line, then more. */
  lemma PushAllCons(logs: seq<string>, line: string, lines: seq<string>)
    ensures PushAll(logs, [line] + lines) == PushAll(PushLog(logs, line), lines)
  {
    assert ([line] + lines)[1..] == lines;
  }

  /** Appending two batches of lines is appending them one after the other. */
  lemma {:induction false} PushAllAppend(logs: seq<string>, a: seq<string>, b: seq<string>)
    ensures PushAll(logs, a + b) == PushAll(PushAll(logs, a), b)
    decreases |a|
  {
    if a == [] {
      assert a + b == b;
    } else {
      assert (a + b)[1..] == a[1..] + b;
      PushAllAppend(PushLog(logs, a[0]), a[1..], b);
    }
  }

  /** The log is a sliding window: after any lines are appended, it holds
      exactly the last twenty of everything ever logged. */
  lemma {:induction false} LogIsWindow(logs: seq<string>, lines: seq<string>)
    requires |logs| <= LogLimit
    ensures PushAll(logs, lines) == LastN(logs + lines, LogLimit)
    decreases |lines|
  {
    if lines == [] {
      assert logs + lines == logs;
    } else {
      var next := PushLog(logs, lines[0]);
      assert next == LastN(logs + [lines[0]], LogLimit);
      LogIsWindow(next, lines[1..]);
      WindowOfWindow(logs + [lines[0]], lines[1..]);
      assert logs + [lines[0]] + lines[1..] == logs + lines;
    }
  }

  lemma WindowOfWindow(xs: seq<string>, ys: seq<string>)
    ensures LastN(LastN(xs, LogLimit) + ys, LogLimit) == LastN(xs + ys, LogLimit)
  {
    var w := LastN(xs, LogLimit);
    var d := |xs| - |w|;
    assert xs == xs[..d] + w;
    assert xs + ys == xs[..d] + (w + ys);
  }

  // ----- the registry as a map -----

  /** An update of one job in the registry; an unknown id changes nothing. */
  function Patched(tasks: map<string, Task>, id: string, p: Patch, now: Moment): (r: map<string, Task>)
    ensures r.Keys == tasks.Keys
    ensures forall k :: k in tasks && k != id ==> r[k] == tasks[k]
    ensures id in tasks ==> r[id] == ApplyPatch(tasks[id], p, now)
  {
    if id in tasks then tasks[id := ApplyPatch(tasks[id], p, now)] else tasks
  }

  /** A log line appended to one job; an unknown id changes nothing, and
      the time of the last update is not refreshed. */
  function Logged(tasks: map<string, Task>, id: string, line: string): (r: map<string, Task>)
    ensures r.Keys == tasks.Keys
    ensures forall k :: k in tasks && k != id ==> r[k] == tasks[k]
    ensures id in tasks ==> r[id] == tasks[id].(logs := PushLog(tasks[id].logs, line))
  {
    if id in tasks then tasks[id := tasks[id].(logs := PushLog(tasks[id].logs, line))] else tasks
  }

  /** What the registry keeps true: every job is filed under its own id and
      its log is within the limit. */
  predicate Consistent(tasks: map<string, Task>) {
    forall id :: id in tasks ==> tasks[id].id == id && |tasks[id].logs| <= LogLimit
  }

  lemma PatchedConsistent(tasks: map<string, Task>, id: string, p: Patch, now: Moment)
    requires Consistent(tasks)
    ensures Consistent(Patched(tasks, id, p, now))
  {
  }

  lemma LoggedConsistent(tasks: map<string, Task>, id: string, line: string)
    requires Consistent(tasks)
    ensures Consistent(Logged(tasks, id, line))
  {
  }

  datatype HttpError = HttpError(code: nat, detail: string)

  const TaskNotFound: string := "Tarea no encontrada"
  const StillProcessing: string := "No se puede eliminar una tarea en procesamiento"

  /** The reply to a status request: the fields of `TaskStatus`, with only
      the last ten log lines, plus the update time and how many records
      remain. The kind and the person enrolling are not part of it. */
  datatype Report = Report(
    id: string, status: Status, progress: int, total: nat, processed: nat,
    successful: nat, errors: nat, current: string, message: string,
    logs: seq<string>, resultUrl: Option<string>, createdAt: Moment, lastUpdated: Moment,
    remaining: int)

  /** The report copies every field it shares with the task, except the log. */
  predicate Shows(r: Report, t: Task) {
    r.id == t.id && r.status == t.status && r.progress == t.progress && r.total == t.total
    && r.processed == t.processed && r.successful == t.successful && r.errors == t.errors
    && r.current == t.current && r.message == t.message && r.resultUrl == t.resultUrl
    && r.createdAt == t.createdAt && r.lastUpdated == t.lastUpdated
  }

  function StatusReport(tasks: map<string, Task>, id: string): (r: Result<Report, HttpError>)
    ensures r.Err? <==> id !in tasks
    ensures r.Err? ==> r.error == HttpError(404, TaskNotFound)
    ensures r.Ok? ==> Shows(r.value, tasks[id])
    ensures r.Ok? ==> |r.value.logs| == (if |tasks[id].logs| < 10 then |tasks[id].logs| else 10)
    ensures r.Ok? ==> exists k :: 0 <= k <= |tasks[id].logs| && tasks[id].logs[k..] == r.value.logs
    ensures r.Ok? && tasks[id].total == 0 ==> r.value.remaining == 0
    ensures r.Ok? && tasks[id].total > 0 ==> r.value.remaining == tasks[id].total - tasks[id].processed
    ensures r.Ok? && tasks[id].processed <= tasks[id].total ==> 0 <= r.value.remaining <= tasks[id].total
  {
    if id !in tasks then Err(HttpError(404, TaskNotFound))
    else
      var t := tasks[id];
      var recent := LastN(t.logs, 10);
      assert t.logs[|t.logs| - |recent|..] == recent;
      Ok(Report(t.id, t.status, t.progress, t.total, t.processed, t.successful, t.errors, t.current, t.message,
                recent, t.resultUrl, t.createdAt, t.lastUpdated,
                if t.total > 0 then t.total as int - t.processed as int else 0))
  }

  /** Deleting a job: unknown ids and running jobs are refused and leave the
      registry as it was; otherwise exactly that job is removed. */
  datatype Removal = Removal(reply: Result<string, HttpError>, tasks: map<string, Task>)

  function Delete(tasks: map<string, Task>, id: string): (r: Removal)
    ensures r.reply.Ok? <==> id in tasks && tasks[id].status != Processing
    ensures id !in tasks ==> r.reply == Err(HttpError(404, TaskNotFound))
    ensures id in tasks && tasks[id].status == Processing ==> r.reply == Err(HttpError(400, StillProcessing))
    ensures r.reply.Err? ==> r.tasks == tasks
    ensures r.reply.Ok? ==> r.tasks.Keys == tasks.Keys - {id}
                            && r.reply.value == "Tarea " + id + " eliminada exitosamente"
    ensures forall k :: k in r.tasks ==> k in tasks && r.tasks[k] == tasks[k]
  {
    if id !in tasks then Removal(Err(HttpError(404, TaskNotFound)), tasks)
    else if tasks[id].status == Processing then Removal(Err(HttpError(400, StillProcessing)), tasks)
    else Removal(Ok("Tarea " + id + " eliminada exitosamente"), tasks - {id})
  }

  // ----- job creation -----

  /** The form of an upload: the file's name and its sheet, the kind of
      enrollment and the name of the person enrolling. */
  datatype Upload = Upload(filename: string, kind: string, affiliator: string, sheet: Sheet)

  /** What the background job is given. */
  datatype Job = Job(records: seq<Record>, kind: string, affiliator: string)

  const NotExcel: string := "Solo se permiten archivos Excel (.xlsx, .xls)"
  const BadKind: string := "tipo_afiliacion debe ser 'express' o 'junior'"
  const Preparing: string := "Preparando..."
  const CreatedHead: string := "Tarea creada. "
  const CreatedTail: string := " registros para procesar."
  const NoAffiliator: string := "nombre_afiliador es requerido y no puede estar vac\U{ED}o"

  predicate EndsWith(s: string, suffix: string) {
    |suffix| <= |s| && s[|s| - |suffix|..] == suffix
  }

  predicate IsExcelName(filename: string) {
    EndsWith(filename, ".xlsx") || EndsWith(filename, ".xls")
  }

  /** The checks of an upload, in order: the file name, the kind, the name
      of the person enrolling, then the sheet itself. */
  function Validate(u: Upload): (r: Result<Job, HttpError>)
    ensures !IsExcelName(u.filename) ==> r == Err(HttpError(400, NotExcel))
    ensures IsExcelName(u.filename) && Lower(u.kind) !in ["express", "junior"] ==> r == Err(HttpError(400, BadKind))
    ensures IsExcelName(u.filename) && Lower(u.kind) in ["express", "junior"] && Strip(u.affiliator) == [] ==>
              r == Err(HttpError(400, NoAffiliator))
    ensures r.Err? ==> r.error.code == 400
    ensures r.Ok? <==> IsExcelName(u.filename) && Lower(u.kind) in ["express", "junior"]
                       && Strip(u.affiliator) != [] && ReadSheet(u.sheet).Ok?
    ensures r.Ok? ==> r.value == Job(ReadSheet(u.sheet).value, Lower(u.kind), Strip(u.affiliator))
    ensures (IsExcelName(u.filename) && Lower(u.kind) in ["express", "junior"] && Strip(u.affiliator) != []
             && ReadSheet(u.sheet).Err?) ==> r == Err(HttpError(400, ReadSheet(u.sheet).error))
  {
    if !IsExcelName(u.filename) then Err(HttpError(400, NotExcel))
    else if Lower(u.kind) !in ["express", "junior"] then Err(HttpError(400, BadKind))
    else if Strip(u.affiliator) == [] then Err(HttpError(400, NoAffiliator))
    else
      match ReadSheet(u.sheet)
      case Err(e) => Err(HttpError(400, e))
      case Ok(records) => Ok(Job(records, Lower(u.kind), Strip(u.affiliator)))
  }

  /** A newly created job: pending, nothing processed, one log line. */
  function NewTask(id: string, job: Job, now: Moment): (t: Task)
    ensures t.id == id && t.status == Pending && t.progress == 0 && t.total == |job.records|
    ensures t.processed == 0 && t.successful == 0 && t.errors == 0 && t.resultUrl.None?
    ensures t.logs == ["Tarea iniciada con " + NatToString(|job.records|) + " registros"]
    ensures t.current == Preparing
    ensures t.message == CreatedHead + NatToString(|job.records|) + CreatedTail
    ensures t.kind == job.kind && t.affiliator == job.affiliator
    ensures t.createdAt == now && t.lastUpdated == now
  {
    var n := NatToString(|job.records|);
    Task(id, Pending, 0, |job.records|, 0, 0, 0, Preparing,
         CreatedHead + n + CreatedTail,
         ["Tarea iniciada con " + n + " registros"], None, now, now, job.kind, job.affiliator)
  }

  /** The reply to an accepted upload, and the job handed to the
      background worker. */
  datatype Accepted = Accepted(taskId: string, total: nat, statusUrl: string, job: Job)

  /** The registry as a whole, shared by the endpoints and the worker. */
  class Registry {
    var tasks: map<string, Task>

    predicate Valid()
      reads this
    {
      Consistent(tasks)
    }

    constructor()
      ensures tasks == map[] && Valid()
    {
      tasks := map[];
    }

    /** Update the named fields of a job, if it exists. */
    method Update(id: string, p: Patch, now: Moment)
      requires Valid()
      modifies this
      ensures Valid() && tasks == Patched(old(tasks), id, p, now)
    {
      if id in tasks {
        tasks := tasks[id := ApplyPatch(tasks[id], p, now)];
      }
    }

    /** Append a time-stamped line to a job's log, if the job exists. */
    method Log(id: string, m: Moment, msg: string)
      requires Valid()
      modifies this
      ensures Valid() && tasks == Logged(old(tasks), id, LogLine(m, msg))
    {
      if id in tasks {
        var logs := tasks[id].logs + [LogLine(m, msg)];
        if |logs| > LogLimit {
          logs := logs[|logs| - LogLimit..];
        }
        tasks := tasks[id := tasks[id].(logs := logs)];
      }
    }

    /** The status endpoint. */
    function Status(id: string): (r: Result<Report, HttpError>)
      reads this
      ensures r == StatusReport(tasks, id)
    {
      StatusReport(tasks, id)
    }

    /** The delete endpoint. */
    method Remove(id: string) returns (reply: Result<string, HttpError>)
      requires Valid()
      modifies this
      ensures Valid() && reply == Delete(old(tasks), id).reply && tasks == Delete(old(tasks), id).tasks
    {
      if id !in tasks {
        return Err(HttpError(404, TaskNotFound));
      }
      if tasks[id].status == Processing {
        return Err(HttpError(400, StillProcessing));
      }
      tasks := tasks - {id};
      reply := Ok("Tarea " + id + " eliminada exitosamente");
    }

    /** The upload endpoint: a valid upload files a new pending job under
        the given fresh id; a refused one leaves the registry as it was. */
    method Submit(id: string, u: Upload, now: Moment) returns (r: Result<Accepted, HttpError>)
      requires Valid()
      modifies this
      ensures Valid()
      ensures match Validate(u)
              case Err(e) => r == Err(e) && tasks == old(tasks)
              case Ok(job) => r == Ok(Accepted(id, |job.records|, "/status/" + id, job))
                              && tasks == old(tasks)[id := NewTask(id, job, now)]
    {
      var checked := Validate(u);
      if checked.Err? {
        return Err(checked.error);
      }
      var job := checked.value;
      tasks := tasks[id := NewTask(id, job, now)];
      r := Ok(Accepted(id, |job.records|, "/status/" + id, job));
    }
  }

  /** Right after an upload is accepted, its job reports pending, nothing
      done, every record remaining and the creation line as its only log. */
  lemma FreshJobReport(tasks: map<string, Task>, id: string, job: Job, now: Moment)
    ensures var t := NewTask(id, job, now);
            var r := StatusReport(tasks[id := t], id);
            r.Ok? && Shows(r.value, t) && r.value.logs == t.logs && r.value.remaining == |job.records|
  {
    var t := NewTask(id, job, now);
    var m := tasks[id := t];
    assert m[id] == t;
    assert LastN(t.logs, 10) == t.logs;
    assert t.total == |job.records| && t.processed == 0;
  }

  /** A job that is not running can always be deleted, and deleting it
      makes its status unknown. */
  lemma DeleteThenUnknown(tasks: map<string, Task>, id: string)
    requires id in tasks && tasks[id].status != Processing
    ensures StatusReport(Delete(tasks, id).tasks, id) == Err(HttpError(404, TaskNotFound))
  {
  }
}

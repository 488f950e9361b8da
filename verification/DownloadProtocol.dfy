/** The download service as a step system.

    One step is one indivisible action of one goroutine: a section under the downloader's
    mutex with the transaction inside it, one channel operation, one look at a context, one
    action of the child process, one transaction of the registry, or a crash.  Everything
    the environment decides is a parameter of the step: whether a commit is refused, what
    the child prints, how it exits, what the clock shows.

    `DownloadModel` and `Retry` are the entry points.  Their unlocked read of the model is a
    step of its own, so the acceptance that follows may act on a stale answer. */
module DownloadProtocol {
  import opened Wrappers
  import opened Utf8
  import opened LogWindow
  import opened LineStream
  import opened Coordinates
  import opened Database
  import opened Restart

  /** Where the goroutine that owns a job stands. */
  datatype Phase =
    | Queued                      // waiting for a worker slot
    | Granted                     // took a slot, not yet inside the mutex
    | Checked                     // left the mutex, about to look at its context
    | Launching                   // owns a slot, about to start the child
    | Alive                       // the child runs and its output is consumed
    | Waited(ok: bool)            // the child is reaped, the slot is still held
    | Released(ok: bool)          // the slot is back, the context not yet looked at
    | Finishing(outcome: JobState)
    | Finished                    // terminal, but not yet counted out
    | Gone
    | Archived                    // loaded by restore; no goroutine ever owned it

  /** `data` are the columns the job carries; the two table stamps in it are unused.
      The counters record what its goroutine did. */
  datatype Job = Job(id: string, data: Row, phase: Phase, cancelable: bool, cancelled: bool, lost: bool,
                     acquired: nat, released: nat, finishes: nat, dones: nat)

  datatype Request = Request(jobId: string, modelId: string, repository: string, revision: string, retry: bool)

  datatype Mode = Down | Restoring(todo: seq<string>, boot: Db) | Up

  /** `db` and `minted` survive a crash; the rest is the memory of one process. */
  datatype State = State(mode: Mode, db: Db, minted: set<string>, clock: nat,
                         jobs: map<nat, Job>, next: nat, index: map<string, nat>, requests: set<Request>,
                         workers: int, wg: int, closed: bool, terminalErr: bool)

  datatype Step =
    | RegisterHuggingFace(model: string, repository: string, revision: string)
    | RegisterLocal(model: string, path: Path, size: nat)
    | DeleteModel(model: string)
    | ReadModel(jobId: string, model: string)
    | ReadRetry(jobId: string)
    | Accept(request: Request, dt: nat)
    | Acquire(a: nat)
    | QueuedCancel(a: nat)
    | StartQueued(a: nat, dt: nat, commit: bool)
    | CheckContext(a: nat)
    | Launch(a: nat, ok: bool)
    | AppendLog(a: nat, entry: Entry, percent: Option<real>)
    | PersistLog(a: nat)
    | WaitChild(a: nat, ok: bool)
    | Release(a: nat)
    | Choose(a: nat)
    | Finish(a: nat, files: Option<nat>, message: Text, dt: nat, commit: bool)
    | Done(a: nat)
    | Cancel(jobId: string)
    | Shutdown
    | Tick(dt: nat)
    | Crash
    | Boot(order: seq<string>)
    | RestoreOne(dt: nat)
    | Serve

  const INTERRUPTED: Text := Ascii("interrupted by service restart")

  predicate Terminal(state: JobState) { !Active(state) }

  predicate Holds(p: Phase) { p in {Granted, Checked, Launching, Alive} || p.Waited? }
  predicate Open(p: Phase) { p !in {Finished, Gone, Archived} }
  predicate Counted(p: Phase) { p !in {Gone, Archived} }

  predicate ContextDone(s: State, j: Job) { s.closed || j.cancelled }

  predicate At(s: State, a: nat, p: Phase) { s.mode == Up && a in s.jobs && s.jobs[a].phase == p }

  function SetJob(s: State, a: nat, j: Job): State { s.(jobs := s.jobs[a := j]) }

  /** Giving the slot back: a receive from the workers channel. */
  function FreeSlot(s: State): State { s.(workers := s.workers - 1) }

  function Freed(j: Job, p: Phase): Job { j.(phase := p, released := j.released + 1) }

  function Minted(s: State, id: string, db: Option<Db>): Option<State> {
    if s.mode == Up && id !in s.minted && ValidModelId(id) && db.Some?
    then Some(s.(db := db.value, minted := s.minted + {id})) else None
  }

  function RegisterHuggingFaceStep(s: State, id: string, repository: string, revision: string): Option<State> {
    var r, v := NormalizeRepository(repository), NormalizeRevision(revision);
    if r.None? || v.None? then None
    else Minted(s, id, RegisterTx(s.db, id, Model(HuggingFace, r.value, v.value, Registered, None, 0, s.clock, s.clock)))
  }

  function RegisterLocalStep(s: State, id: string, path: Path, size: nat): Option<State> {
    Minted(s, id, RegisterTx(s.db, id, Model(Local, "", "", Ready, Some(path), size, s.clock, s.clock)))
  }

  function DeleteModelStep(s: State, id: string): Option<State> {
    var db := DeleteModelTx(s.db, id);
    if s.mode == Up && db.Some? then Some(s.(db := db.value)) else None
  }

  function ReadModelStep(s: State, jobId: string, id: string, retry: bool): Option<State> {
    if s.mode == Up && ValidJobId(jobId) && id in s.db.models
       && s.db.models[id].kind == HuggingFace && Claimable(s.db.models[id].status)
    then Some(s.(requests := s.requests + {Request(jobId, id, s.db.models[id].repository, s.db.models[id].revision, retry)}))
    else None
  }

  function ReadRetryStep(s: State, jobId: string): Option<State> {
    if jobId in s.index && s.index[jobId] in s.jobs
       && s.jobs[s.index[jobId]].data.state in {Failed, Canceled} && s.jobs[s.index[jobId]].data.modelId.Some?
    then ReadModelStep(s, jobId, s.jobs[s.index[jobId]].data.modelId.value, true)
    else None
  }

  /** Some indexed job is at work in this directory. */
  predicate DestinationInUse(s: State, destination: Path) {
    exists id :: id in s.index && s.index[id] in s.jobs
      && Active(s.jobs[s.index[id]].data.state) && s.jobs[s.index[id]].data.destination == destination
  }

  predicate IdentityRefused(s: State, r: Request) {
    r.jobId in s.index && s.index[r.jobId] in s.jobs
    && var existing := s.jobs[s.index[r.jobId]];
       Active(existing.data.state) || !r.retry || existing.data.modelId != Some(r.modelId)
  }

  function AcceptedRow(c: Config, r: Request, running: bool, now: nat): Row {
    Row(Some(r.modelId), r.repository, r.revision, Join(c.root, r.modelId), if running then Running else Pending,
        0.0, [], [], if running then Some(now) else None, None, 0, 0)
  }

  /** The acceptance section.  A refused request leaves no trace: the slot it took is given
      back before the mutex is released, so refusal is not a step. */
  function AcceptStep(c: Config, s: State, r: Request, dt: nat): Option<State> {
    if s.mode != Up || r !in s.requests || s.closed || IdentityRefused(s, r)
       || DestinationInUse(s, Join(c.root, r.modelId)) then None
    else
      var slot := s.workers < c.maxWorkers;
      var data := AcceptedRow(c, r, slot, s.clock);
      var db := AcceptTx(s.db, r.jobId, data, r.retry, s.clock + dt);
      if db.None? then None
      else
        var j := Job(r.jobId, data, if slot then Launching else Queued, true, false, false, if slot then 1 else 0, 0, 0, 0);
        Some(s.(db := db.value, clock := s.clock + dt, jobs := s.jobs[s.next := j], next := s.next + 1,
                index := s.index[r.jobId := s.next], wg := s.wg + 1,
                workers := if slot then s.workers + 1 else s.workers))
  }

  function AcquireStep(c: Config, s: State, a: nat): Option<State> {
    if At(s, a, Queued) && s.workers < c.maxWorkers
    then Some(SetJob(s, a, s.jobs[a].(phase := Granted, acquired := s.jobs[a].acquired + 1)).(workers := s.workers + 1))
    else None
  }

  function QueuedCancelStep(s: State, a: nat): Option<State> {
    if At(s, a, Queued) && ContextDone(s, s.jobs[a])
    then Some(SetJob(s, a, s.jobs[a].(phase := Finishing(Canceled)))) else None
  }

  /** A queued job becomes durably running before its child may start, or it fails. */
  function StartQueuedStep(s: State, a: nat, dt: nat, commit: bool): Option<State> {
    if !At(s, a, Granted) then None
    else
      var j := s.jobs[a];
      if !ContextDone(s, j) && j.data.state == Pending then
        var data := j.data.(state := Running, started := Some(s.clock));
        if commit then
          Some(SetJob(s, a, j.(data := data, phase := Checked))
               .(db := UpsertRow(s.db, j.id, data, s.clock + dt), clock := s.clock + dt))
        else Some(SetJob(FreeSlot(s), a, Freed(j, Finishing(Failed))))
      else Some(SetJob(s, a, j.(phase := Checked)))
  }

  function CheckContextStep(s: State, a: nat): Option<State> {
    if !At(s, a, Checked) then None
    else if ContextDone(s, s.jobs[a]) then Some(SetJob(FreeSlot(s), a, Freed(s.jobs[a], Finishing(Canceled))))
    else Some(SetJob(s, a, s.jobs[a].(phase := Launching)))
  }

  /** The runner refuses to start a command whose context is done, so such a launch cannot succeed. */
  function LaunchStep(s: State, a: nat, ok: bool): Option<State> {
    if !At(s, a, Launching) || (ok && ContextDone(s, s.jobs[a])) then None
    else if ok then Some(SetJob(s, a, s.jobs[a].(phase := Alive)))
    else Some(SetJob(FreeSlot(s), a, Freed(s.jobs[a], Finishing(Failed))))
  }

  function LoggedRow(c: Config, data: Row, entry: Entry, percent: Option<real>): Row {
    data.(logs := Window(data.logs + [BoundedLine(entry.line, entry.truncated)], c.maxLogs, MAX_LOG_BYTES),
          progress := if percent.Some? && 0.0 <= percent.value <= 100.0 then percent.value else data.progress)
  }

  function AppendLogStep(c: Config, s: State, a: nat, entry: Entry, percent: Option<real>): Option<State> {
    if At(s, a, Alive) then Some(SetJob(s, a, s.jobs[a].(data := LoggedRow(c, s.jobs[a].data, entry, percent)))) else None
  }

  /** The log write that follows an append; one that SQLite refuses is dropped, so it is not a step. */
  function PersistLogStep(s: State, a: nat): Option<State> {
    if At(s, a, Alive) then Some(s.(db := UpsertRow(s.db, s.jobs[a].id, s.jobs[a].data, s.clock))) else None
  }

  function WaitChildStep(s: State, a: nat, ok: bool): Option<State> {
    if At(s, a, Alive) then Some(SetJob(s, a, s.jobs[a].(phase := Waited(ok)))) else None
  }

  function ReleaseStep(s: State, a: nat): Option<State> {
    if s.mode == Up && a in s.jobs && s.jobs[a].phase.Waited?
    then Some(SetJob(FreeSlot(s), a, Freed(s.jobs[a], Released(s.jobs[a].phase.ok)))) else None
  }

  function ChooseStep(s: State, a: nat): Option<State> {
    if s.mode == Up && a in s.jobs && s.jobs[a].phase.Released? then
      var outcome := if ContextDone(s, s.jobs[a]) then Canceled else if s.jobs[a].phase.ok then Succeeded else Failed;
      Some(SetJob(s, a, s.jobs[a].(phase := Finishing(outcome))))
    else None
  }

  /** What `finish` decides before it takes the mutex: a success needs the files to be there. */
  function FinalState(outcome: JobState, files: Option<nat>): JobState {
    if outcome == Succeeded && files.None? then Failed else outcome
  }

  function FinishedRow(data: Row, state: JobState, message: Text, now: nat): Row {
    data.(state := state, finished := Some(now), error := if state == Succeeded then data.error else BoundedError(message))
  }

  function FinishPath(state: JobState, data: Row): Option<Path> {
    if state == Succeeded then Some(data.destination) else None
  }

  function FinishStep(s: State, a: nat, files: Option<nat>, message: Text, dt: nat, commit: bool): Option<State> {
    if s.mode != Up || a !in s.jobs || !s.jobs[a].phase.Finishing? then None
    else
      var j := s.jobs[a];
      var state := FinalState(j.phase.outcome, files);
      if state != Succeeded && message == [] then None
      else
        var data := FinishedRow(j.data, state, message, s.clock);
        var size := if files.Some? then files.value else 0;
        var db := TerminalTx(s.db, j.id, data, FinishPath(state, data), size, s.clock + dt);
        var done := j.(phase := Finished, cancelable := false, finishes := j.finishes + 1);
        if commit && db.Some? then Some(SetJob(s, a, done.(data := data)).(db := db.value, clock := s.clock + dt))
        else Some(SetJob(s, a, done.(data := data.(state := Failed), lost := true)).(terminalErr := true, clock := s.clock + dt))
  }

  function DoneStep(s: State, a: nat): Option<State> {
    if At(s, a, Finished)
    then Some(SetJob(s, a, s.jobs[a].(phase := Gone, dones := s.jobs[a].dones + 1)).(wg := s.wg - 1)) else None
  }

  function CancelStep(s: State, jobId: string): Option<State> {
    if s.mode == Up && jobId in s.index && s.index[jobId] in s.jobs
       && Active(s.jobs[s.index[jobId]].data.state) && s.jobs[s.index[jobId]].cancelable
    then Some(SetJob(s, s.index[jobId], s.jobs[s.index[jobId]].(cancelled := true))) else None
  }

  function CrashStep(s: State): State {
    State(Down, s.db, s.minted, s.clock, map[], 0, map[], {}, 0, 0, false, false)
  }

  predicate Lists(order: seq<string>, ids: set<string>) {
    && (forall i :: 0 <= i < |order| ==> order[i] in ids)
    && (forall id :: id in ids ==> id in order)
    && forall i, k :: 0 <= i < k < |order| ==> order[i] != order[k]
  }

  /** Restart reads and validates every row before it takes the mutex. */
  function BootStep(c: Config, s: State, order: seq<string>): Option<State> {
    if s.mode == Down && Lists(order, s.db.downloads.Keys) && RestoreAccepts(c, s.db)
    then Some(s.(mode := Restoring(order, s.db))) else None
  }

  function InterruptedRow(row: Row, now: nat): Row {
    if Active(row.state) then row.(state := Canceled, error := INTERRUPTED, finished := Some(now)) else row
  }

  /** One turn of restore's writing loop.  A refused write makes restore fail and the process exit. */
  function RestoreOneStep(s: State, dt: nat): Option<State> {
    if !s.mode.Restoring? || s.mode.todo == [] || s.mode.todo[0] !in s.db.downloads then None
    else
      var id := s.mode.todo[0];
      var row := s.db.downloads[id];
      var data := InterruptedRow(row, s.clock);
      var db := if Active(row.state) then TerminalTx(s.db, id, data, None, 0, s.clock + dt) else Some(s.db);
      if db.None? then None
      else
        Some(s.(mode := s.mode.(todo := s.mode.todo[1..]), db := db.value, clock := s.clock + dt,
                jobs := s.jobs[s.next := Job(id, data, Archived, false, false, false, 0, 0, 0, 0)], next := s.next + 1,
                index := s.index[id := s.next]))
  }

  function ServeStep(s: State): Option<State> {
    if s.mode.Restoring? && s.mode.todo == [] then Some(s.(mode := Up)) else None
  }

  function Apply(c: Config, s: State, step: Step): Option<State> {
    match step
    case RegisterHuggingFace(m, repository, revision) => RegisterHuggingFaceStep(s, m, repository, revision)
    case RegisterLocal(m, path, size) => RegisterLocalStep(s, m, path, size)
    case DeleteModel(m) => DeleteModelStep(s, m)
    case ReadModel(jobId, m) => ReadModelStep(s, jobId, m, false)
    case ReadRetry(jobId) => ReadRetryStep(s, jobId)
    case Accept(r, dt) => AcceptStep(c, s, r, dt)
    case Acquire(a) => AcquireStep(c, s, a)
    case QueuedCancel(a) => QueuedCancelStep(s, a)
    case StartQueued(a, dt, commit) => StartQueuedStep(s, a, dt, commit)
    case CheckContext(a) => CheckContextStep(s, a)
    case Launch(a, ok) => LaunchStep(s, a, ok)
    case AppendLog(a, entry, percent) => AppendLogStep(c, s, a, entry, percent)
    case PersistLog(a) => PersistLogStep(s, a)
    case WaitChild(a, ok) => WaitChildStep(s, a, ok)
    case Release(a) => ReleaseStep(s, a)
    case Choose(a) => ChooseStep(s, a)
    case Finish(a, files, message, dt, commit) => FinishStep(s, a, files, message, dt, commit)
    case Done(a) => DoneStep(s, a)
    case Cancel(jobId) => CancelStep(s, jobId)
    case Shutdown => if s.mode == Up then Some(s.(closed := true)) else None
    case Tick(dt) => Some(s.(clock := s.clock + dt))
    case Crash => Some(CrashStep(s))
    case Boot(order) => BootStep(c, s, order)
    case RestoreOne(dt) => RestoreOneStep(s, dt)
    case Serve => ServeStep(s)
  }

  /** A run: every step enabled where it is taken. */
  function Run(c: Config, s: State, steps: seq<Step>): Option<State> {
    if steps == [] then Some(s)
    else
      var before := Run(c, s, steps[..|steps| - 1]);
      if before.None? then None else Apply(c, before.value, steps[|steps| - 1])
  }

  /** A fresh installation, before its first start. */
  const FRESH: State := State(Down, Db(map[], map[]), {}, 0, map[], 0, map[], {}, 0, 0, false, false)
}

/** Every step of the download service keeps the invariant. */
module DownloadSteps {
  import opened Wrappers
  import opened Utf8
  import opened LogWindow
  import opened LineStream
  import opened Coordinates
  import opened Database
  import opened Restart
  import opened DownloadTransactions
  import opened DownloadProtocol
  import opened DownloadInvariant

  // ---- channel operations, context looks, the child ----

  lemma LogStays(c: Config, data: Row, entry: Entry, percent: Option<real>)
    requires LogsAccepted(c, data.logs) && 0.0 <= data.progress <= 100.0
    ensures var d := LoggedRow(c, data, entry, percent);
      LogsAccepted(c, d.logs) && 0.0 <= d.progress <= 100.0 && RowMatches(d, data)
  {
    hide Valid, BoundedLine;
    var line := BoundedLine(entry.line, entry.truncated);
    BoundedLineAccepted(entry.line, entry.truncated);
    assert AllWithin(data.logs + [line], MAX_LINE_BYTES + |LINE_SUFFIX|);
    WindowKeepsLines(data.logs + [line], c.maxLogs, MAX_LOG_BYTES, MAX_LINE_BYTES + |LINE_SUFFIX|);
    WindowIsLongest(data.logs + [line], c.maxLogs, MAX_LOG_BYTES);
  }

  lemma AcquireKeeps(c: Config, s: State, a: nat)
    requires Inv(c, s) && AcquireStep(c, s, a).Some?
    ensures Inv(c, AcquireStep(c, s, a).value)
  {
    hide Inv;
    var t := AcquireStep(c, s, a).value;
    JobFacts(c, s, a);
    PhaseKeeps(c, s, a, t.jobs[a], t.workers);
  }

  lemma QueuedCancelKeeps(c: Config, s: State, a: nat)
    requires Inv(c, s) && QueuedCancelStep(s, a).Some?
    ensures Inv(c, QueuedCancelStep(s, a).value)
  {
    hide DbOk, IndexOk, RequestsOk, ModeOk, DataOk, LogsAccepted, RowMatches;
    var t := QueuedCancelStep(s, a).value;
    assert JobOk(c, s, a);
    PhaseKeeps(c, s, a, t.jobs[a], t.workers);
  }

  lemma CheckContextKeeps(c: Config, s: State, a: nat)
    requires Inv(c, s) && CheckContextStep(s, a).Some?
    ensures Inv(c, CheckContextStep(s, a).value)
  {
    hide Inv;
    var t := CheckContextStep(s, a).value;
    JobFacts(c, s, a);
    PhaseKeeps(c, s, a, t.jobs[a], t.workers);
  }

  lemma LaunchKeeps(c: Config, s: State, a: nat, ok: bool)
    requires Inv(c, s) && LaunchStep(s, a, ok).Some?
    ensures Inv(c, LaunchStep(s, a, ok).value)
  {
    hide Inv;
    var t := LaunchStep(s, a, ok).value;
    JobFacts(c, s, a);
    PhaseKeeps(c, s, a, t.jobs[a], t.workers);
  }

  lemma AppendLogKeeps(c: Config, s: State, a: nat, entry: Entry, percent: Option<real>)
    requires Inv(c, s) && AppendLogStep(c, s, a, entry, percent).Some?
    ensures Inv(c, AppendLogStep(c, s, a, entry, percent).value)
  {
    hide DbOk, IndexOk, RequestsOk, ModeOk, LogsAccepted;
    var t := AppendLogStep(c, s, a, entry, percent).value;
    assert JobOk(c, s, a);
    LogStays(c, s.jobs[a].data, entry, percent);
    MoveKeeps(c, s, a, t.jobs[a], t.workers);
  }

  lemma WaitChildKeeps(c: Config, s: State, a: nat, ok: bool)
    requires Inv(c, s) && WaitChildStep(s, a, ok).Some?
    ensures Inv(c, WaitChildStep(s, a, ok).value)
  {
    hide Inv;
    var t := WaitChildStep(s, a, ok).value;
    JobFacts(c, s, a);
    PhaseKeeps(c, s, a, t.jobs[a], t.workers);
  }

  lemma ReleaseKeeps(c: Config, s: State, a: nat)
    requires Inv(c, s) && ReleaseStep(s, a).Some?
    ensures Inv(c, ReleaseStep(s, a).value)
  {
    hide Inv;
    var t := ReleaseStep(s, a).value;
    JobFacts(c, s, a);
    PhaseKeeps(c, s, a, t.jobs[a], t.workers);
  }

  lemma ChooseKeeps(c: Config, s: State, a: nat)
    requires Inv(c, s) && ChooseStep(s, a).Some?
    ensures Inv(c, ChooseStep(s, a).value)
  {
    hide Inv;
    var t := ChooseStep(s, a).value;
    JobFacts(c, s, a);
    PhaseKeeps(c, s, a, t.jobs[a], t.workers);
  }

  lemma IndexedJob(c: Config, s: State, id: string)
    requires JobsOk(c, s) && IndexOk(s) && id in s.index
    ensures s.index[id] in s.jobs && JobOk(c, s, s.index[id])
  {
    hide JobOk;
    assert EntryOk(s, id);
  }

  /** Everything the ledger and the state of a job say stays true of the cancelled job. */
  lemma CancelledJob(c: Config, s: State, a: nat)
    requires a in s.jobs && JobOk(c, s, a) && SlotsOk(c, s) && Open(s.jobs[a].phase)
    ensures LedgerOk(s.jobs[a].(cancelled := true)) && StateFits(s.closed, s.jobs[a].(cancelled := true)) && s.workers <= c.maxWorkers
  {
    hide LogsAccepted, OpenOk;
  }

  lemma CancelKeeps(c: Config, s: State, id: string)
    requires Inv(c, s) && CancelStep(s, id).Some?
    ensures Inv(c, CancelStep(s, id).value)
  {
    hide DbOk, RequestsOk, ModeOk, JobsOk, IndexOk, SlotsOk;
    var a := s.index[id];
    IndexedJob(c, s, id);
    CancelledJob(c, s, a);
    PhaseKeeps(c, s, a, s.jobs[a].(cancelled := true), s.workers);
  }

  // ---- sections that write one row and one job ----

  /** Only job `a`, its index entry and the row of `id` differ. */
  predicate OneChanged(s: State, t: State, a: nat, id: string) {
    && s.clock <= t.clock && s.next <= t.next && t.closed == s.closed && (s.terminalErr ==> t.terminalErr)
    && a in t.jobs && t.jobs[a].id == id && (a in s.jobs ==> s.jobs[a].id == id)
    && t.jobs == s.jobs[a := t.jobs[a]]
    && id in t.index && t.index == s.index[id := a]
    && id in t.db.downloads && t.db.downloads == s.db.downloads[id := t.db.downloads[id]]
    && (id in s.index && s.index[id] != a ==> s.index[id] in s.jobs && !Open(s.jobs[s.index[id]].phase))
  }

  lemma OtherJobsKeep(c: Config, s: State, t: State, a: nat, id: string, b: nat)
    requires JobsOk(c, s) && OneChanged(s, t, a, id) && b in t.jobs && b != a
    ensures JobOk(c, t, b)
  {
    hide LedgerOk, LogsAccepted, StateFits, DataOk;
    assert JobOk(c, s, b);
    JobKeeps(c, s, t, b);
  }

  lemma OtherEntriesKeep(s: State, t: State, a: nat, id: string, e: string)
    requires IndexOk(s) && OneChanged(s, t, a, id) && e in t.index && e != id
    ensures EntryOk(t, e)
  {
    assert EntryOk(s, e);
  }

  /** The new job and row fit together. */
  lemma LocalKeeps(c: Config, s: State, t: State, a: nat, id: string)
    requires ConfigOk(c) && JobsOk(c, s) && IndexOk(s) && SlotsOk(c, s) && OneChanged(s, t, a, id)
    requires JobOk(c, t, a) && EntryOk(t, id)
    requires t.workers == s.workers - Bit(a in s.jobs && Holds(s.jobs[a].phase)) + Bit(Holds(t.jobs[a].phase))
    requires t.workers <= c.maxWorkers
    requires t.wg == s.wg - Bit(a in s.jobs && Counted(s.jobs[a].phase)) + Bit(Counted(t.jobs[a].phase))
    ensures JobsOk(c, t) && IndexOk(t) && SlotsOk(c, t)
  {
    hide JobOk, EntryOk, OneChanged;
    forall b | b in t.jobs ensures JobOk(c, t, b) { if b != a { OtherJobsKeep(c, s, t, a, id, b); } }
    forall e | e in t.index ensures EntryOk(t, e) { if e != id { OtherEntriesKeep(s, t, a, id, e); } }
    assert t.jobs == s.jobs[a := t.jobs[a]] by { SameJobs(s, t, a, id); }
    CountersMove(s.jobs, a, t.jobs[a]);
  }

  lemma SameJobs(s: State, t: State, a: nat, id: string)
    requires OneChanged(s, t, a, id)
    ensures a in t.jobs && t.jobs == s.jobs[a := t.jobs[a]]
  {
  }

  lemma RequestsKeep(s: State, t: State)
    requires RequestsOk(s) && t.requests <= s.requests && t.db.models.Keys <= s.db.models.Keys && t.minted == s.minted
    requires forall m :: m in t.db.models ==>
               t.db.models[m].kind == s.db.models[m].kind && t.db.models[m].repository == s.db.models[m].repository
               && t.db.models[m].revision == s.db.models[m].revision
    ensures RequestsOk(t)
  {
    hide RequestOk;
    forall r | r in t.requests ensures RequestOk(t, r) { RequestKeeps(s, t, r); }
  }

  /** A running upsert: the log writes and the start of a queued job. */
  predicate MayWrite(c: Config, s: State, a: nat, j: Job) {
    && s.mode == Up && a in s.jobs && Open(s.jobs[a].phase) && Open(j.phase)
    && j.id == s.jobs[a].id && Holds(j.phase) == Holds(s.jobs[a].phase)
    && LedgerOk(j) && StateFits(s.closed, j) && DataOk(c, s.clock, j) && Active(j.data.state)
    && SameAttempt(c, s.clock, s.jobs[a].data, j.data)
  }

  function Written(s: State, a: nat, j: Job, now: nat): State {
    SetJob(s, a, j).(db := UpsertRow(s.db, j.id, j.data, now), clock := now)
  }

  lemma WriteKeepsDb(c: Config, s: State, a: nat, j: Job, now: nat)
    requires DbOk(c, s.db, s.clock) && JobOk(c, s, a) && MayWrite(c, s, a, j) && s.clock <= now
    ensures DbOk(c, Written(s, a, j, now).db, now)
  {
    hide LogsAccepted, Exclusive, DownloadingIsClaimed, ModelsOk, RowsOk, LedgerOk;
    ProgressKeeps(c, s.db, s.clock, j.id, j.data, now);
  }

  lemma WriteIsLocal(c: Config, s: State, a: nat, j: Job, now: nat)
    requires JobOk(c, s, a) && MayWrite(c, s, a, j) && s.clock <= now
    ensures var t := Written(s, a, j, now);
      OneChanged(s, t, a, j.id) && JobOk(c, t, a) && EntryOk(t, j.id) && j.id in s.index
  {
    hide LogsAccepted, LedgerOk, StateFits;
  }

  lemma WriteKeeps(c: Config, s: State, a: nat, j: Job, now: nat)
    requires Inv(c, s) && MayWrite(c, s, a, j) && s.clock <= now
    ensures Inv(c, Written(s, a, j, now))
  {
    hide DbOk, RequestsOk, JobOk, EntryOk, OneChanged, LedgerOk, StateFits, DataOk, SameAttempt;
    var t := Written(s, a, j, now);
    WriteKeepsDb(c, s, a, j, now);
    WriteIsLocal(c, s, a, j, now);
    LocalKeeps(c, s, t, a, j.id);
    RequestsKeep(s, t);
  }

  lemma StartQueuedWrites(c: Config, s: State, a: nat, dt: nat)
    requires Inv(c, s) && At(s, a, Granted) && !ContextDone(s, s.jobs[a]) && s.jobs[a].data.state == Pending
    ensures Inv(c, StartQueuedStep(s, a, dt, true).value)
  {
    hide DbOk, IndexOk, RequestsOk, ModeOk, SlotsOk, LogsAccepted, UpsertRow;
    assert JobOk(c, s, a);
    var j := s.jobs[a];
    WriteKeeps(c, s, a, j.(data := j.data.(state := Running, started := Some(s.clock)), phase := Checked), s.clock + dt);
  }

  lemma StartQueuedKeeps(c: Config, s: State, a: nat, dt: nat, commit: bool)
    requires Inv(c, s) && StartQueuedStep(s, a, dt, commit).Some?
    ensures Inv(c, StartQueuedStep(s, a, dt, commit).value)
  {
    hide Inv, UpsertRow;
    JobFacts(c, s, a);
    if commit && !ContextDone(s, s.jobs[a]) && s.jobs[a].data.state == Pending {
      StartQueuedWrites(c, s, a, dt);
    } else {
      var t := StartQueuedStep(s, a, dt, commit).value;
      PhaseKeeps(c, s, a, t.jobs[a], t.workers);
    }
  }

  lemma PersistLogKeeps(c: Config, s: State, a: nat)
    requires Inv(c, s) && PersistLogStep(s, a).Some?
    ensures Inv(c, PersistLogStep(s, a).value)
  {
    hide DbOk, IndexOk, RequestsOk, ModeOk, LogsAccepted, UpsertRow;
    assert JobOk(c, s, a);
    assert s.jobs[a := s.jobs[a]] == s.jobs;
    WriteKeeps(c, s, a, s.jobs[a], s.clock);
  }
  // ---- the terminal section ----

  lemma FinishedColumns(c: Config, s: State, a: nat, files: Option<nat>, message: Text)
    requires JobOk(c, s, a) && s.jobs[a].phase.Finishing?
    requires FinalState(s.jobs[a].phase.outcome, files) != Succeeded ==> message != []
    ensures var j := s.jobs[a];
      var state := FinalState(j.phase.outcome, files);
      j.id in s.db.downloads && Active(s.db.downloads[j.id].state)
      && TerminalColumns(c, s.clock, s.db.downloads[j.id], FinishedRow(j.data, state, message, s.clock))
  {
    hide LogsAccepted, LedgerOk, BoundedError;
    BoundedErrorAccepted(message);
  }

  /** The job after a published finish, and after one whose commit was refused. */
  function Published(s: State, a: nat, data: Row): Job
    requires a in s.jobs
  {
    s.jobs[a].(phase := Finished, cancelable := false, finishes := s.jobs[a].finishes + 1, data := data)
  }

  function Refused(s: State, a: nat, data: Row): Job
    requires a in s.jobs
  {
    Published(s, a, data).(data := data.(state := Failed), lost := true)
  }

  lemma PublishedIsLocal(c: Config, s: State, t: State, a: nat, data: Row, now: nat)
    requires s.mode == Up && JobOk(c, s, a) && s.jobs[a].phase.Finishing? && !Active(data.state) && s.clock <= now
    requires s.jobs[a].id in t.db.downloads
    requires t.db.downloads == s.db.downloads[s.jobs[a].id := t.db.downloads[s.jobs[a].id]]
    requires Recorded(t.db.downloads[s.jobs[a].id], data)
    requires t == SetJob(s, a, Published(s, a, data)).(db := t.db, clock := now)
    ensures OneChanged(s, t, a, s.jobs[a].id) && JobOk(c, t, a) && EntryOk(t, s.jobs[a].id) && s.jobs[a].id in s.index
  {
    hide LogsAccepted;
  }

  lemma RefusedIsLocal(c: Config, s: State, a: nat, data: Row, now: nat)
    requires s.mode == Up && JobOk(c, s, a) && s.jobs[a].phase.Finishing? && !Active(data.state) && s.clock <= now
    ensures var t := SetJob(s, a, Refused(s, a, data)).(terminalErr := true, clock := now);
      OneChanged(s, t, a, s.jobs[a].id) && JobOk(c, t, a) && EntryOk(t, s.jobs[a].id) && s.jobs[a].id in s.index
  {
    hide LogsAccepted;
  }

  lemma FinishEnabled(s: State, a: nat, files: Option<nat>, message: Text, dt: nat, commit: bool)
    requires s.mode == Up && a in s.jobs && s.jobs[a].phase.Finishing?
    requires FinalState(s.jobs[a].phase.outcome, files) != Succeeded ==> message != []
    ensures FinishStep(s, a, files, message, dt, commit).Some?
  {
    hide TerminalTx, BoundedError;
  }

  lemma FinishShape(c: Config, s: State, a: nat, files: Option<nat>, message: Text, dt: nat, commit: bool)
    requires FinishStep(s, a, files, message, dt, commit).Some?
    ensures s.mode == Up && a in s.jobs && s.jobs[a].phase.Finishing?
    ensures var j := s.jobs[a];
      var state := FinalState(j.phase.outcome, files);
      var data := FinishedRow(j.data, state, message, s.clock);
      var db := TerminalTx(s.db, j.id, data, FinishPath(state, data), if files.Some? then files.value else 0, s.clock + dt);
      && (state != Succeeded ==> message != [])
      && FinishStep(s, a, files, message, dt, commit).value ==
         if commit && db.Some? then SetJob(s, a, Published(s, a, data)).(db := db.value, clock := s.clock + dt)
         else SetJob(s, a, Refused(s, a, data)).(terminalErr := true, clock := s.clock + dt)
  {
    hide BoundedError, TerminalTx;
  }

  lemma FinishKeeps(c: Config, s: State, a: nat, files: Option<nat>, message: Text, dt: nat, commit: bool)
    requires Inv(c, s) && FinishStep(s, a, files, message, dt, commit).Some?
    ensures Inv(c, FinishStep(s, a, files, message, dt, commit).value)
  {
    hide DbOk, RequestsOk, JobOk, EntryOk, OneChanged, FinishStep;
    FinishEffect(c, s, a, files, message, dt, commit);
    var t := FinishStep(s, a, files, message, dt, commit).value;
    LocalKeeps(c, s, t, a, s.jobs[a].id);
    RequestsKeep(s, t);
  }

  /** What a finish does: one row, one model, one job, and the tables stay fit for restart. */
  lemma FinishEffect(c: Config, s: State, a: nat, files: Option<nat>, message: Text, dt: nat, commit: bool)
    requires Inv(c, s) && FinishStep(s, a, files, message, dt, commit).Some?
    ensures a in s.jobs && s.jobs[a].phase.Finishing?
    ensures var t, j := FinishStep(s, a, files, message, dt, commit).value, s.jobs[a];
      && t.mode == s.mode == Up && t.workers == s.workers && t.wg == s.wg && t.index == s.index
      && t.requests == s.requests && t.minted == s.minted && t.db.downloads.Keys == s.db.downloads.Keys
      && DbOk(c, t.db, t.clock) && OneChanged(s, t, a, j.id) && JobOk(c, t, a) && EntryOk(t, j.id) && j.id in s.index
      && a in t.jobs && t.jobs[a].phase == Finished && t.db.models.Keys == s.db.models.Keys
      && forall m :: m in s.db.models ==>
           t.db.models[m].kind == s.db.models[m].kind && t.db.models[m].repository == s.db.models[m].repository
           && t.db.models[m].revision == s.db.models[m].revision
  {
    hide DbOk, RequestsOk, JobOk, EntryOk, OneChanged, TerminalColumns, TerminalTx, FinishStep, SettledModel, BoundedError;
    hide IndexOk, SlotsOk, ModeOk;
    FinishShape(c, s, a, files, message, dt, commit);
    var t, j := FinishStep(s, a, files, message, dt, commit).value, s.jobs[a];
    var state := FinalState(j.phase.outcome, files);
    var data := FinishedRow(j.data, state, message, s.clock);
    var size := if files.Some? then files.value else 0;
    FinishedColumns(c, s, a, files, message);
    TerminalFacts(c, s, a, data, size, s.clock + dt);
    if commit && TerminalTx(s.db, j.id, data, FinishPath(state, data), size, s.clock + dt).Some? {
      PublishedIsLocal(c, s, t, a, data, s.clock + dt);
    } else {
      RefusedIsLocal(c, s, a, data, s.clock + dt);
      TickKeeps(c, s.db, s.clock, s.clock + dt);
    }
  }

  lemma TerminalFacts(c: Config, s: State, a: nat, data: Row, size: nat, now: nat)
    requires DbOk(c, s.db, s.clock) && a in s.jobs && s.clock <= now
    requires s.jobs[a].id in s.db.downloads && Active(s.db.downloads[s.jobs[a].id].state)
    requires TerminalColumns(c, s.clock, s.db.downloads[s.jobs[a].id], data)
    ensures var id := s.jobs[a].id;
      var db := TerminalTx(s.db, id, data, FinishPath(data.state, data), size, now);
      && !Active(data.state)
      && (db.None? ==> data.state == Succeeded)
      && (db.Some? ==>
            && DbOk(c, db.value, now)
            && db.value.downloads == s.db.downloads[id := data.(created := s.db.downloads[id].created, updated := now)]
            && db.value.models.Keys == s.db.models.Keys
            && forall m :: m in s.db.models ==>
                 db.value.models[m].kind == s.db.models[m].kind && db.value.models[m].repository == s.db.models[m].repository
                 && db.value.models[m].revision == s.db.models[m].revision)
  {
    hide DbOk, LogsAccepted, Valid, TerminalTx;
    var id := s.jobs[a].id;
    TerminalResult(c, s.db, s.clock, id, data, FinishPath(data.state, data), size, now);
    if TerminalTx(s.db, id, data, FinishPath(data.state, data), size, now).Some? {
      SettleKeeps(c, s.db, s.clock, id, data, FinishPath(data.state, data), size, now);
    }
  }

  lemma DoneKeepsJobs(c: Config, s: State, a: nat)
    requires JobsOk(c, s) && DoneStep(s, a).Some?
    ensures JobsOk(c, DoneStep(s, a).value)
  {
    hide LogsAccepted, OpenOk;
    var t := DoneStep(s, a).value;
    forall b | b in t.jobs ensures JobOk(c, t, b) {
      assert JobOk(c, s, b);
      if b != a { JobKeeps(c, s, t, b); }
    }
  }

  lemma DoneKeeps(c: Config, s: State, a: nat)
    requires Inv(c, s) && DoneStep(s, a).Some?
    ensures Inv(c, DoneStep(s, a).value)
  {
    hide DbOk, RequestsOk, JobsOk, LogsAccepted, RowMatches;
    var t := DoneStep(s, a).value;
    CountersMove(s.jobs, a, t.jobs[a]);
    DoneKeepsJobs(c, s, a);
    forall id | id in t.index ensures EntryOk(t, id) { assert EntryOk(s, id); }
    RequestsKeep(s, t);
  }

  // ---- acceptance ----

  lemma AcceptShape(c: Config, s: State, r: Request, dt: nat)
    requires Inv(c, s) && AcceptStep(c, s, r, dt).Some?
    ensures s.mode == Up && !s.closed && !IdentityRefused(s, r) && RequestOk(s, r)
    ensures var slot := s.workers < c.maxWorkers;
      var data := AcceptedRow(c, r, slot, s.clock);
      var db := AcceptTx(s.db, r.jobId, data, r.retry, s.clock + dt);
      && db.Some?
      && AcceptStep(c, s, r, dt).value ==
           s.(db := db.value, clock := s.clock + dt, next := s.next + 1, index := s.index[r.jobId := s.next],
              wg := s.wg + 1, workers := if slot then s.workers + 1 else s.workers,
              jobs := s.jobs[s.next := Job(r.jobId, data, if slot then Launching else Queued, true, false, false,
                                           if slot then 1 else 0, 0, 0, 0)])
  {
    hide DbOk, AcceptTx, JobsOk, IndexOk, SlotsOk, RequestOk, DestinationInUse;
    assert RequestOk(s, r);
  }

  lemma AcceptKeepsDb(c: Config, s: State, r: Request, slot: bool, dt: nat)
    requires DbOk(c, s.db, s.clock) && RequestOk(s, r)
    requires AcceptTx(s.db, r.jobId, AcceptedRow(c, r, slot, s.clock), r.retry, s.clock + dt).Some?
    ensures var data := AcceptedRow(c, r, slot, s.clock);
      var after := AcceptTx(s.db, r.jobId, data, r.retry, s.clock + dt).value;
      && FreshAttempt(c, s.db, s.clock, r.jobId, data)
      && DbOk(c, after, s.clock + dt)
      && r.jobId in after.downloads && RowMatches(after.downloads[r.jobId], data)
      && after.downloads == s.db.downloads[r.jobId := after.downloads[r.jobId]]
      && after.models.Keys == s.db.models.Keys
      && forall m :: m in s.db.models ==>
           after.models[m].kind == s.db.models[m].kind && after.models[m].repository == s.db.models[m].repository
           && after.models[m].revision == s.db.models[m].revision
  {
    hide DbOk, CanonicalRepository, CanonicalRevision, ValidJobId;
    AcceptKeeps(c, s.db, s.clock, r.jobId, AcceptedRow(c, r, slot, s.clock), r.retry, s.clock + dt);
  }

  lemma AcceptIsLocal(c: Config, s: State, t: State, r: Request, slot: bool, now: nat)
    requires ConfigOk(c) && JobsOk(c, s) && IndexOk(s) && s.clock <= now && !IdentityRefused(s, r)
    requires r.jobId in t.db.downloads && RowMatches(t.db.downloads[r.jobId], AcceptedRow(c, r, slot, s.clock))
    requires t.db.downloads == s.db.downloads[r.jobId := t.db.downloads[r.jobId]]
    requires t == s.(db := t.db, clock := now, next := s.next + 1, index := s.index[r.jobId := s.next],
                     wg := s.wg + 1, workers := if slot then s.workers + 1 else s.workers,
                     jobs := s.jobs[s.next := Job(r.jobId, AcceptedRow(c, r, slot, s.clock), if slot then Launching else Queued,
                                                  true, false, false, if slot then 1 else 0, 0, 0, 0)])
    ensures s.next !in s.jobs && OneChanged(s, t, s.next, r.jobId) && JobOk(c, t, s.next) && EntryOk(t, r.jobId)
  {
    hide JobOk, AllWithin;
    if s.next in s.jobs { JobBelow(c, s, s.next); }
    if r.jobId in s.index {
      assert EntryOk(s, r.jobId);
      JobOpenIsActive(c, s, s.index[r.jobId]);
    }
    AcceptedJobOk(c, s, t, r, slot, now);
  }

  lemma JobBelow(c: Config, s: State, a: nat)
    requires JobsOk(c, s) && a in s.jobs
    ensures a < s.next
  {
    assert JobOk(c, s, a);
  }

  lemma JobOpenIsActive(c: Config, s: State, a: nat)
    requires JobsOk(c, s) && a in s.jobs
    ensures Open(s.jobs[a].phase) ==> Active(s.jobs[a].data.state)
    ensures !Open(s.jobs[a].phase) ==> !Active(s.jobs[a].data.state)
  {
    hide LogsAccepted, OpenOk;
    assert JobOk(c, s, a);
  }

  lemma AcceptedJobOk(c: Config, s: State, t: State, r: Request, slot: bool, now: nat)
    requires s.clock <= now && t.clock == now && t.next == s.next + 1
    requires r.jobId in t.db.downloads && RowMatches(t.db.downloads[r.jobId], AcceptedRow(c, r, slot, s.clock))
    requires s.next in t.jobs && r.jobId in t.index && t.index[r.jobId] == s.next
    requires t.jobs[s.next] == Job(r.jobId, AcceptedRow(c, r, slot, s.clock), if slot then Launching else Queued,
                                   true, false, false, if slot then 1 else 0, 0, 0, 0)
    ensures JobOk(c, t, s.next)
  {
    assert Bytes([]) == 0;
  }

  lemma AcceptKeepsInv(c: Config, s: State, r: Request, dt: nat)
    requires Inv(c, s) && AcceptStep(c, s, r, dt).Some?
    ensures Inv(c, AcceptStep(c, s, r, dt).value)
  {
    hide DbOk, JobsOk, IndexOk, RequestsOk, RequestOk, JobOk, EntryOk, OneChanged;
    hide AcceptTx, AcceptStep, RowMatches, FreshAttempt, IdentityRefused, AcceptedRow;
    AcceptShape(c, s, r, dt);
    var t, slot := AcceptStep(c, s, r, dt).value, s.workers < c.maxWorkers;
    AcceptKeepsDb(c, s, r, slot, dt);
    AcceptIsLocal(c, s, t, r, slot, s.clock + dt);
    LocalKeeps(c, s, t, s.next, r.jobId);
    RequestsKeep(s, t);
  }

  // ---- the registry, reads, shutdown, time ----

  /** A row keeps everything but, at most, the link to a model that was deleted. */
  predicate Frozen(was: Row, now: Row) { now == was || now == was.(modelId := None) }

  /** Nothing but tables, requests, the closed flag and the clock may differ. */
  predicate SameMemory(s: State, t: State) {
    && t.jobs == s.jobs && t.next == s.next && t.index == s.index && t.workers == s.workers && t.wg == s.wg
    && t.terminalErr == s.terminalErr && (s.closed ==> t.closed) && s.clock <= t.clock
    && t.db.downloads.Keys == s.db.downloads.Keys
    && (forall d :: d in s.db.downloads ==> Frozen(s.db.downloads[d], t.db.downloads[d]))
    && (forall d :: d in s.db.downloads && Active(s.db.downloads[d].state) ==> t.db.downloads[d] == s.db.downloads[d])
  }

  lemma SameMemoryKeepsJob(c: Config, s: State, t: State, b: nat)
    requires JobOk(c, s, b) && SameMemory(s, t)
    ensures JobOk(c, t, b)
  {
    hide LogsAccepted, LedgerOk;
    JobKeeps(c, s, t, b);
  }

  lemma SameMemoryKeeps(c: Config, s: State, t: State)
    requires JobsOk(c, s) && IndexOk(s) && SlotsOk(c, s) && SameMemory(s, t)
    ensures JobsOk(c, t) && IndexOk(t) && SlotsOk(c, t)
  {
    hide JobOk;
    forall b | b in t.jobs ensures JobOk(c, t, b) { SameMemoryKeepsJob(c, s, t, b); }
    forall id | id in t.index ensures EntryOk(t, id) { assert EntryOk(s, id); }
  }

  lemma MintedKeeps(c: Config, s: State, id: string, model: Model)
    requires Inv(c, s) && Minted(s, id, RegisterTx(s.db, id, model)).Some?
    requires ModelAccepted(id, model) && model.updated <= s.clock && model.status != Downloading
    ensures Inv(c, Minted(s, id, RegisterTx(s.db, id, model)).value)
  {
    hide DbOk, JobsOk, IndexOk, RequestOk, ModelAccepted;
    var t := Minted(s, id, RegisterTx(s.db, id, model)).value;
    RegisterKeeps(c, s.db, s.clock, id, model);
    SameMemoryKeeps(c, s, t);
    forall r | r in t.requests ensures RequestOk(t, r) {
      FreshForRequest(s, r, id);
      RequestKeeps(s, t, r);
    }
  }

  lemma FreshForRequest(s: State, r: Request, id: string)
    requires RequestOk(s, r) && id !in s.minted
    ensures r.modelId != id
  {
    hide CanonicalRepository, CanonicalRevision;
  }

  lemma RegisterKeepsInv(c: Config, s: State, step: Step)
    requires Inv(c, s) && (step.RegisterHuggingFace? || step.RegisterLocal?) && Apply(c, s, step).Some?
    ensures Inv(c, Apply(c, s, step).value)
  {
    hide Inv, RegisterTx, NormalizeRepository, NormalizeRevision;
    match step {
      case RegisterHuggingFace(m, repository, revision) =>
        NormalizedIsCanonical(repository, revision);
        MintedKeeps(c, s, m, Model(HuggingFace, NormalizeRepository(repository).value, NormalizeRevision(revision).value,
                                   Registered, None, 0, s.clock, s.clock));
      case RegisterLocal(m, path, size) =>
        MintedKeeps(c, s, m, Model(Local, "", "", Ready, Some(path), size, s.clock, s.clock));
    }
  }

  lemma DeleteModelKeeps(c: Config, s: State, id: string)
    requires Inv(c, s) && DeleteModelStep(s, id).Some?
    ensures Inv(c, DeleteModelStep(s, id).value)
  {
    hide DbOk, JobsOk, IndexOk, RequestOk;
    var t := DeleteModelStep(s, id).value;
    DeleteKeeps(c, s.db, s.clock, id);
    SameMemoryKeeps(c, s, t);
    RequestsKeep(s, t);
  }

  lemma ModelFacts(c: Config, db: Db, clock: nat, id: string)
    requires DbOk(c, db, clock) && id in db.models
    ensures db.models[id].kind == HuggingFace ==>
              CanonicalRepository(db.models[id].repository) && CanonicalRevision(db.models[id].revision)
  {
    hide CanonicalRepository, CanonicalRevision, RowsOk, Exclusive, DownloadingIsClaimed;
    assert ModelAccepted(id, db.models[id]);
  }

  lemma ReadModelKeeps(c: Config, s: State, jobId: string, id: string, retry: bool)
    requires Inv(c, s) && ReadModelStep(s, jobId, id, retry).Some?
    ensures Inv(c, ReadModelStep(s, jobId, id, retry).value)
  {
    hide DbOk, JobsOk, IndexOk, CanonicalRepository, CanonicalRevision, ValidJobId;
    var t := ReadModelStep(s, jobId, id, retry).value;
    ModelFacts(c, s.db, s.clock, id);
    SameMemoryKeeps(c, s, t);
    forall r | r in t.requests ensures RequestOk(t, r) {
      if r in s.requests { RequestKeeps(s, t, r); }
    }
  }

  lemma ReadRetryKeeps(c: Config, s: State, jobId: string)
    requires Inv(c, s) && ReadRetryStep(s, jobId).Some?
    ensures Inv(c, ReadRetryStep(s, jobId).value)
  {
    hide Inv, ReadModelStep;
    ReadModelKeeps(c, s, jobId, s.jobs[s.index[jobId]].data.modelId.value, true);
  }

  lemma ShutdownKeeps(c: Config, s: State)
    requires Inv(c, s) && s.mode == Up
    ensures Inv(c, s.(closed := true))
  {
    hide DbOk, JobsOk, IndexOk, RequestOk;
    SameMemoryKeeps(c, s, s.(closed := true));
    RequestsKeep(s, s.(closed := true));
  }

  lemma TickStepKeeps(c: Config, s: State, dt: nat)
    requires Inv(c, s)
    ensures Inv(c, s.(clock := s.clock + dt))
  {
    hide DbOk, JobsOk, IndexOk, RequestOk;
    var t := s.(clock := s.clock + dt);
    TickKeeps(c, s.db, s.clock, t.clock);
    SameMemoryKeeps(c, s, t);
    RequestsKeep(s, t);
  }

  // ---- crash and restart ----

  lemma CrashKeeps(c: Config, s: State)
    requires Inv(c, s)
    ensures Inv(c, CrashStep(s))
  {
    hide DbOk;
    assert Holders(map[]) == {} && Owners(map[]) == {};
  }

  lemma BootKeeps(c: Config, s: State, order: seq<string>)
    requires Inv(c, s) && BootStep(c, s, order).Some?
    ensures Inv(c, BootStep(c, s, order).value)
  {
    hide DbOk, RestoreAccepts;
    var t := BootStep(c, s, order).value;
    SameMemoryKeeps(c, s, t);
  }

  lemma ServeKeeps(c: Config, s: State)
    requires Inv(c, s) && ServeStep(s).Some?
    ensures Inv(c, ServeStep(s).value)
  {
    hide DbOk, RequestsOk, JobsOk, IndexOk, RestoreProgress;
    SameMemoryKeeps(c, s, ServeStep(s).value);
    RequestsKeep(s, ServeStep(s).value);
  }

  lemma InterruptedColumns(c: Config, db: Db, clock: nat, id: string)
    requires DbOk(c, db, clock) && id in db.downloads && Active(db.downloads[id].state)
    ensures TerminalColumns(c, clock, db.downloads[id], InterruptedRow(db.downloads[id], clock))
  {
    hide Exclusive, DownloadingIsClaimed, ModelsOk, LinkAccepted, CanonicalRepository, CanonicalRevision, ValidJobId, ValidModelId, Valid;
    assert RowAccepted(c, id, db.downloads[id]);
    AsciiIsValid("interrupted by service restart");
  }

  /** What one turn of the loop writes. */
  lemma RestoreTx(c: Config, db: Db, clock: nat, id: string, now: nat)
    requires DbOk(c, db, clock) && id in db.downloads && Active(db.downloads[id].state) && clock <= now
    ensures var row := db.downloads[id];
      var data := InterruptedRow(row, clock);
      && row.modelId.Some? && row.modelId.value in db.models && db.models[row.modelId.value].status == Downloading
      && var after := Db(db.models[row.modelId.value := db.models[row.modelId.value].(status := StatusCanceled, updated := now)],
                         db.downloads[id := data.(created := row.created, updated := now)]);
         TerminalTx(db, id, data, None, 0, now) == Some(after) && DbOk(c, after, now)
  {
    hide DbOk, LogsAccepted, Valid, TerminalTx;
    var data := InterruptedRow(db.downloads[id], clock);
    ActiveRowFacts(c, db, clock, id);
    InterruptedColumns(c, db, clock, id);
    TerminalResult(c, db, clock, id, data, None, 0, now);
    SettleKeeps(c, db, clock, id, data, None, 0, now);
  }

  lemma NextToRestore(s: State)
    requires ModeOk(s) && s.mode.Restoring? && s.mode.todo != []
    ensures s.mode.todo[0] in s.db.downloads && s.mode.todo[0] !in s.index
  {
    assert s.db.downloads.Keys == s.mode.boot.downloads.Keys;
  }

  lemma RestoreOneShape(c: Config, s: State, dt: nat)
    requires Inv(c, s) && s.mode.Restoring? && s.mode.todo != []
    ensures s.mode.todo[0] in s.db.downloads && s.mode.todo[0] !in s.index
    ensures RestoreOneStep(s, dt).Some?
    ensures var t := RestoreOneStep(s, dt).value;
      var id := s.mode.todo[0];
      var row := s.db.downloads[id];
      && DbOk(c, t.db, t.clock)
      && t == s.(mode := s.mode.(todo := s.mode.todo[1..]), db := t.db, clock := s.clock + dt, next := s.next + 1,
                 jobs := s.jobs[s.next := Job(id, InterruptedRow(row, s.clock), Archived, false, false, false, 0, 0, 0, 0)],
                 index := s.index[id := s.next])
      && if Active(row.state) then
           row.modelId.Some? && row.modelId.value in s.db.models && s.db.models[row.modelId.value].status == Downloading
           && t.db == Db(s.db.models[row.modelId.value := s.db.models[row.modelId.value].(status := StatusCanceled, updated := t.clock)],
                         s.db.downloads[id := InterruptedRow(row, s.clock).(updated := t.clock)])
         else t.db == s.db
  {
    hide DbOk, JobsOk, IndexOk, RequestsOk, SlotsOk, ModeOk, TerminalTx;
    var id := s.mode.todo[0];
    NextToRestore(s);
    TickKeeps(c, s.db, s.clock, s.clock + dt);
    if Active(s.db.downloads[id].state) { RestoreTx(c, s.db, s.clock, id, s.clock + dt); }
  }

  lemma ArchivedIsLocal(c: Config, s: State, t: State, id: string)
    requires ConfigOk(c) && JobsOk(c, s) && s.clock <= t.clock && id in s.db.downloads && id !in s.index
    requires t.index == s.index[id := s.next] && t.next == s.next + 1 && t.closed == s.closed && t.terminalErr == s.terminalErr
    requires t.jobs == s.jobs[s.next := Job(id, InterruptedRow(s.db.downloads[id], s.clock), Archived, false, false, false, 0, 0, 0, 0)]
    requires id in t.db.downloads && t.db.downloads == s.db.downloads[id := t.db.downloads[id]]
    requires Recorded(t.db.downloads[id], InterruptedRow(s.db.downloads[id], s.clock))
    ensures s.next !in s.jobs && OneChanged(s, t, s.next, id) && JobOk(c, t, s.next) && EntryOk(t, id)
  {
    if s.next in s.jobs { JobBelow(c, s, s.next); }
  }

  lemma RestoreProgressKeeps(boot: Db, db: Db, after: Db, todo: seq<string>, at: nat, now: nat)
    requires RestoreProgress(boot, db, todo) && todo != [] && forall i :: 0 < i < |todo| ==> todo[i] != todo[0]
    requires todo[0] in db.downloads
    requires var row := db.downloads[todo[0]];
      if Active(row.state) then
        row.modelId.Some? && row.modelId.value in db.models && db.models[row.modelId.value].status == Downloading
        && after == Db(db.models[row.modelId.value := db.models[row.modelId.value].(status := StatusCanceled, updated := now)],
                       db.downloads[todo[0] := InterruptedRow(row, at).(updated := now)])
      else after == db
    ensures RestoreProgress(boot, after, todo[1..])
  {
    var id, rest := todo[0], todo[1..];
    assert todo == [id] + rest;
    assert db.downloads[todo[0]] == boot.downloads[todo[0]];
    forall d | d in boot.downloads && d !in rest ensures RowRestored(boot, after, d) {
      if d != id {
        assert d !in todo;
        assert RowRestored(boot, db, d);
      }
    }
    forall m | m in boot.models ensures ModelRestored(boot, after, m) { assert ModelRestored(boot, db, m); }
    forall i | 0 <= i < |rest| ensures rest[i] in boot.downloads && after.downloads[rest[i]] == boot.downloads[rest[i]] {
      assert rest[i] == todo[i + 1];
    }
  }

  lemma RestoreOneKeeps(c: Config, s: State, dt: nat)
    requires Inv(c, s) && RestoreOneStep(s, dt).Some?
    ensures Inv(c, RestoreOneStep(s, dt).value)
  {
    hide DbOk, RequestsOk, JobOk, EntryOk, OneChanged, RestoreProgress;
    RestoreOneShape(c, s, dt);
    var t, id := RestoreOneStep(s, dt).value, s.mode.todo[0];
    RestoreProgressKeeps(s.mode.boot, s.db, t.db, s.mode.todo, s.clock, t.clock);
    ArchivedIsLocal(c, s, t, id);
    LocalKeeps(c, s, t, s.next, id);
    assert RequestsOk(t) by { RestoredRequests(s, t); }
    RestoreModeKeeps(s, t);
  }

  lemma RestoredRequests(s: State, t: State)
    requires RequestsOk(s) && t.requests == s.requests && t.minted == s.minted && s.requests == {}
    requires t.db.models.Keys == s.db.models.Keys
    ensures RequestsOk(t)
  {
  }

  lemma RestoreModeKeeps(s: State, t: State)
    requires s.mode.Restoring? && ModeOk(s) && s.mode.todo != []
    requires t.mode == s.mode.(todo := s.mode.todo[1..])
    requires t.requests == s.requests && t.closed == s.closed && t.terminalErr == s.terminalErr
    requires s.next !in s.jobs && s.next in t.jobs && t.jobs == s.jobs[s.next := t.jobs[s.next]] && t.jobs[s.next].phase == Archived
    requires t.index == s.index[s.mode.todo[0] := s.next]
    requires t.db.downloads.Keys == s.db.downloads.Keys
    requires RestoreProgress(t.mode.boot, t.db, t.mode.todo)
    ensures ModeOk(t)
  {
    hide RestoreProgress;
    var todo := s.mode.todo;
    forall id | id in t.db.downloads ensures id in t.index || id in t.mode.todo {
      if id !in s.index && id != todo[0] {
        assert todo == [todo[0]] + t.mode.todo;
      }
    }
  }

  // ---- every step, every run ----

  lemma JobStepKeeps(c: Config, s: State, step: Step)
    requires Inv(c, s) && Apply(c, s, step).Some?
    requires step.Acquire? || step.QueuedCancel? || step.StartQueued? || step.CheckContext? || step.Launch? || step.AppendLog?
             || step.PersistLog? || step.WaitChild? || step.Release? || step.Choose? || step.Finish? || step.Done?
    ensures Inv(c, Apply(c, s, step).value)
  {
    hide Inv, AcquireStep, QueuedCancelStep, StartQueuedStep, CheckContextStep, LaunchStep, AppendLogStep, PersistLogStep,
         WaitChildStep, ReleaseStep, ChooseStep, FinishStep, DoneStep;
    match step
    case Acquire(a) => AcquireKeeps(c, s, a);
    case QueuedCancel(a) => QueuedCancelKeeps(c, s, a);
    case StartQueued(a, dt, commit) => StartQueuedKeeps(c, s, a, dt, commit);
    case CheckContext(a) => CheckContextKeeps(c, s, a);
    case Launch(a, ok) => LaunchKeeps(c, s, a, ok);
    case AppendLog(a, entry, percent) => AppendLogKeeps(c, s, a, entry, percent);
    case PersistLog(a) => PersistLogKeeps(c, s, a);
    case WaitChild(a, ok) => WaitChildKeeps(c, s, a, ok);
    case Release(a) => ReleaseKeeps(c, s, a);
    case Choose(a) => ChooseKeeps(c, s, a);
    case Finish(a, files, message, dt, commit) => FinishKeeps(c, s, a, files, message, dt, commit);
    case Done(a) => DoneKeeps(c, s, a);
  }

  lemma StepKeeps(c: Config, s: State, step: Step)
    requires Inv(c, s) && Apply(c, s, step).Some?
    ensures Inv(c, Apply(c, s, step).value)
  {
    hide Inv, DeleteModelStep, ReadModelStep, ReadRetryStep, AcceptStep, CancelStep, BootStep, RestoreOneStep, ServeStep, CrashStep,
         RegisterHuggingFaceStep, RegisterLocalStep, FinishStep, StartQueuedStep;
    match step
    case RegisterHuggingFace(m, repository, revision) => RegisterKeepsInv(c, s, step);
    case RegisterLocal(m, path, size) => RegisterKeepsInv(c, s, step);
    case DeleteModel(m) => DeleteModelKeeps(c, s, m);
    case ReadModel(jobId, m) => ReadModelKeeps(c, s, jobId, m, false);
    case ReadRetry(jobId) => ReadRetryKeeps(c, s, jobId);
    case Accept(r, dt) => AcceptKeepsInv(c, s, r, dt);
    case Cancel(jobId) => CancelKeeps(c, s, jobId);
    case Shutdown => ShutdownKeeps(c, s);
    case Tick(dt) => TickStepKeeps(c, s, dt);
    case Crash => CrashKeeps(c, s);
    case Boot(order) => BootKeeps(c, s, order);
    case RestoreOne(dt) => RestoreOneKeeps(c, s, dt);
    case Serve => ServeKeeps(c, s);
    case _ => JobStepKeeps(c, s, step);
  }

  lemma FreshOk(c: Config)
    requires ConfigOk(c)
    ensures Inv(c, FRESH)
  {
    assert Holders(map[]) == {} && Owners(map[]) == {};
  }

  lemma {:induction false} RunKeeps(c: Config, s: State, steps: seq<Step>)
    requires Inv(c, s) && Run(c, s, steps).Some?
    ensures Inv(c, Run(c, s, steps).value)
  {
    if steps != [] {
      hide Inv, Apply;
      RunKeeps(c, s, steps[..|steps| - 1]);
      StepKeeps(c, Run(c, s, steps[..|steps| - 1]).value, steps[|steps| - 1]);
    }
  }
}

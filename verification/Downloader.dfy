/** The downloader as the object it is: fields assigned under its mutex, transactions written
    statement by statement, loops over the job map and over the restored rows.

    Each method below is one section of the code that runs with the mutex held, and is proved
    to take exactly one step of `DownloadProtocol`, or to leave everything as it was.  Two
    clock readings of one section differ by `dt`; `commit` is SQLite's answer to the commit. */
module DownloaderService {
  import opened Wrappers
  import opened Utf8
  import opened LogWindow
  import opened LineStream
  import opened Database
  import opened Restart
  import opened DownloadTransactions
  import opened DownloadProtocol
  import opened DownloadInvariant
  import opened DownloadSteps
  import opened DownloadTheorems
  import opened DownloadAnswers
  import opened DownloadOutcomes

  class Downloader {
    const c: Config
    var mode: Mode
    var db: Db
    var minted: set<string>
    var clock: nat
    var jobs: map<nat, Job>
    var next: nat
    var index: map<string, nat>
    var requests: set<Request>
    var workers: int
    var wg: int
    var closed: bool
    var terminalErr: bool

    function View(): State reads this {
      State(mode, db, minted, clock, jobs, next, index, requests, workers, wg, closed, terminalErr)
    }

    ghost predicate Valid() reads this { Inv(c, View()) }

    /** A process that starts over a database some earlier process left behind. */
    constructor (c: Config, crashed: State)
      requires Inv(c, crashed) && crashed.mode == Down
      ensures this.c == c && View() == crashed && Valid()
    {
      this.c := c;
      mode, db, minted, clock := Down, crashed.db, crashed.minted, crashed.clock;
      jobs, next, index, requests := map[], 0, map[], {};
      workers, wg, closed, terminalErr := 0, 0, false, false;
      new;
      assert crashed == CrashStep(crashed);
    }

    // ---- the three kinds of write ----

    method PersistAcceptance(id: string, data: Row, retry: bool, now: nat, commit: bool) returns (err: bool)
      modifies this`db
      ensures err <==> !commit || AcceptTx(old(db), id, data, retry, now).None?
      ensures db == if err then old(db) else AcceptTx(old(db), id, data, retry, now).value
      ensures err <==>
                || !commit
                || (if retry then
                      !(id in old(db).downloads && old(db).downloads[id].state in {JobState.Failed, Canceled}
                        && data.modelId.Some? && old(db).downloads[id].modelId == data.modelId)
                    else id in old(db).downloads)
                || (data.modelId.Some? &&
                      !(data.modelId.value in old(db).models
                        && old(db).models[data.modelId.value].status in {Registered, StatusError, StatusFailed, StatusCanceled}))
    {
      var tx := db;
      if retry {
        var matches := id in tx.downloads && data.modelId.Some? && tx.downloads[id].modelId == data.modelId
                       && tx.downloads[id].state in {Failed, Canceled};
        if !matches { return true; }
        tx := tx.(downloads := tx.downloads[id := data.(created := tx.downloads[id].created, updated := now)]);
      } else {
        if id in tx.downloads { return true; }
        tx := tx.(downloads := tx.downloads[id := data.(created := now, updated := now)]);
      }
      if data.modelId.Some? {
        var m := data.modelId.value;
        if m !in tx.models || tx.models[m].status !in {Registered, StatusError, StatusFailed, StatusCanceled} { return true; }
        tx := tx.(models := tx.models[m := tx.models[m].(status := Downloading, updated := now)]);
      }
      if !commit { return true; }
      db := tx;
      err := false;
    }

    method PersistTerminal(id: string, data: Row, localPath: Option<Path>, size: nat, now: nat, commit: bool) returns (err: bool)
      modifies this`db
      ensures err <==> !commit || TerminalTx(old(db), id, data, localPath, size, now).None?
      ensures db == if err then old(db) else TerminalTx(old(db), id, data, localPath, size, now).value
      ensures err <==>
                || !commit
                || (data.modelId.Some? &&
                      (data.modelId.value !in old(db).models
                       || (data.state == Succeeded && localPath.Some?
                           && exists k :: k in old(db).models && k != data.modelId.value && old(db).models[k].localPath == localPath)))
      ensures !err ==> db.downloads == old(db).downloads[id := data.(created := db.downloads[id].created, updated := now)]
      ensures !err && id in old(db).downloads ==> db.downloads[id].created == old(db).downloads[id].created
      ensures !err && data.modelId.Some? ==>
                var m := old(db).models[data.modelId.value];
                db.models == old(db).models[data.modelId.value :=
                  match data.state
                  case Succeeded => if localPath.Some? then m.(status := Ready, localPath := localPath, size := size, updated := now)
                                    else m.(status := StatusError, updated := now)
                  case Canceled => m.(status := StatusCanceled, updated := now)
                  case Failed => m.(status := StatusError, updated := now)
                  case _ => m.(status := Downloading, updated := now)]
    {
      var tx := UpsertRow(db, id, data, now);
      if data.modelId.Some? {
        var m := data.modelId.value;
        var status := StatusError;
        match data.state {
          case Running => status := Downloading;
          case Pending => status := Downloading;
          case Succeeded => if localPath.Some? { status := Ready; }
          case Canceled => status := StatusCanceled;
          case Failed =>
        }
        if m !in tx.models { return true; }
        if status == Ready && localPath.Some? {
          if PathTakenByOther(tx.models, m, localPath.value) { return true; }
          tx := tx.(models := tx.models[m := tx.models[m].(status := status, localPath := localPath, size := size, updated := now)]);
        } else {
          tx := tx.(models := tx.models[m := tx.models[m].(status := status, updated := now)]);
        }
      }
      if !commit { return true; }
      db := tx;
      err := false;
    }

    // ---- acceptance ----

    /** The scan of the job map for a job at work in the same directory. */
    method FindDestination(destination: Path) returns (used: bool)
      requires IndexOk(View())
      ensures used == DestinationInUse(View(), destination)
    {
      var rest := index.Keys;
      used := false;
      while rest != {}
        invariant rest <= index.Keys
        invariant !used ==> forall id :: id in index.Keys - rest ==>
                    !(Active(jobs[index[id]].data.state) && jobs[index[id]].data.destination == destination)
        invariant used ==> DestinationInUse(View(), destination)
        decreases rest
      {
        var id :| id in rest;
        assert EntryOk(View(), id);
        var existing := jobs[index[id]];
        if Active(existing.data.state) && existing.data.destination == destination {
          used := true;
          return;
        }
        rest := rest - {id};
      }
    }

    method AcceptRequest(r: Request, dt: nat, commit: bool) returns (err: bool)
      requires Valid() && mode == Up && r in requests
      modifies this
      ensures Valid()
      ensures err <==> !commit || AcceptStep(c, old(View()), r, dt).None?
      // open, no pending or running job in the directory, an id that is new or whose row failed or was
      // canceled for this model, and a model that can be claimed
      ensures var s := old(View());
        !err <==>
          && commit && !s.closed
          && (forall id :: id in s.index && s.index[id] in s.jobs && s.jobs[s.index[id]].data.state in {Pending, Running}
                ==> s.jobs[s.index[id]].data.destination != Join(c.root, r.modelId))
          && (if r.retry then
                r.jobId in s.index && r.jobId in s.db.downloads
                && s.db.downloads[r.jobId].state in {JobState.Failed, Canceled} && s.db.downloads[r.jobId].modelId == Some(r.modelId)
              else r.jobId !in s.index)
          && r.modelId in s.db.models
          && s.db.models[r.modelId].status in {Registered, StatusError, StatusFailed, StatusCanceled}
      ensures View() == if err then old(View()) else AcceptStep(c, old(View()), r, dt).value
    {
      hide Inv, AcceptStep, AcceptTx, DestinationInUse;
      InvIndex(c, View());
      AcceptsWhen(c, View(), r, dt);
      AcceptCases(c, View(), r, dt);
      if closed { return true; }
      if r.jobId in index {
        EntryInJobs(View(), r.jobId);
        var existing := jobs[index[r.jobId]];
        if Active(existing.data.state) { return true; }
        if !r.retry || existing.data.modelId != Some(r.modelId) { return true; }
      }
      var used := FindDestination(Join(c.root, r.modelId));
      if used { return true; }
      err := Admit(r, dt, commit);
    }

    method NewJobRow(r: Request, acquired: bool) returns (data: Row)
      ensures data == AcceptedRow(c, r, acquired, clock)
    {
      data := Row(Some(r.modelId), r.repository, r.revision, Join(c.root, r.modelId), Pending, 0.0, [], [], None, None, 0, 0);
      if acquired { data := data.(state := Running, started := Some(clock)); }
    }

    /** Enter the accepted job in the map and count it. */
    method PublishJob(id: string, data: Row, acquired: bool)
      modifies this`jobs, this`index, this`next, this`wg
      ensures jobs == old(jobs)[old(next) := Job(id, data, if acquired then Launching else Queued, true, false, false,
                                                 if acquired then 1 else 0, 0, 0, 0)]
      ensures index == old(index)[id := old(next)] && next == old(next) + 1 && wg == old(wg) + 1
    {
      var j := Job(id, data, Queued, true, false, false, 0, 0, 0, 0);
      if acquired { j := j.(phase := Launching, acquired := 1); }
      jobs, index, next := jobs[next := j], index[id := next], next + 1;
      wg := wg + 1;
    }

    method Admit(r: Request, dt: nat, commit: bool) returns (err: bool)
      requires Valid() && mode == Up && r in requests && !closed && !IdentityRefused(View(), r)
      requires !DestinationInUse(View(), Join(c.root, r.modelId))
      modifies this
      ensures Valid()
      ensures err <==> !commit || AcceptStep(c, old(View()), r, dt).None?
      ensures View() == if err then old(View()) else AcceptStep(c, old(View()), r, dt).value
    {
      hide Inv, AcceptStep, AcceptTx, DestinationInUse, IdentityRefused, AcceptedRow;
      ghost var before := View();
      AcceptCases(c, before, r, dt);
      var acquired := false;
      if workers < c.maxWorkers {
        workers := workers + 1;
        acquired := true;
      }
      var data := NewJobRow(r, acquired);
      var refused := PersistAcceptance(r.jobId, data, r.retry, clock + dt, commit);
      if refused {
        if acquired { workers := workers - 1; }
        return true;
      }
      PublishJob(r.jobId, data, acquired);
      clock := clock + dt;
      err := false;
      AcceptKeepsInv(c, before, r, dt);
    }

    // ---- the queued start ----

    method StartQueuedJob(a: nat, dt: nat, commit: bool)
      requires Valid() && At(View(), a, Granted)
      modifies this
      ensures Valid() && StartQueuedStep(old(View()), a, dt, commit) == Some(View())
    {
      hide Inv, UpsertRow;
      ghost var before := View();
      var j := jobs[a];
      if !(closed || j.cancelled) && j.data.state == Pending {
        j := j.(data := j.data.(state := Running, started := Some(clock)));
        if commit {
          db := UpsertRow(db, j.id, j.data, clock + dt);
          clock := clock + dt;
          jobs := jobs[a := j.(phase := Checked)];
        } else {
          j := j.(data := j.data.(state := Pending, started := None));
          workers := workers - 1;
          jobs := jobs[a := j.(phase := Finishing(Failed), released := j.released + 1)];
          QueuedHasNoStart(c, before, a);
        }
      } else {
        jobs := jobs[a := j.(phase := Checked)];
      }
      StartQueuedKeeps(c, before, a, dt, commit);
    }

    // ---- log lines ----

    method AppendLogLine(a: nat, entry: Entry, percent: Option<real>)
      requires Valid() && At(View(), a, Alive)
      modifies this`jobs
      ensures Valid() && AppendLogStep(c, old(View()), a, entry, percent) == Some(View())
      ensures jobs.Keys == old(jobs).Keys && forall k :: k in jobs && k != a ==> jobs[k] == old(jobs)[k]
      ensures a in jobs && jobs[a] == old(jobs)[a].(data := jobs[a].data)
      ensures var was := old(jobs)[a].data;
        jobs[a].data == was.(logs := Window(was.logs + [BoundedLine(entry.line, entry.truncated)], c.maxLogs, 4194304),
                             progress := if percent.Some? && 0.0 <= percent.value <= 100.0 then percent.value else was.progress)
    {
      hide DbOk, JobsOk, IndexOk, SlotsOk, RequestsOk, ModeOk, BoundedLine;
      ghost var before := View();
      var line := BoundLogLine(entry.line, entry.truncated);
      var j := jobs[a];
      var logs := AppendLine(j.data.logs, line, c.maxLogs, MAX_LOG_BYTES);
      j := j.(data := j.data.(logs := logs));
      if percent.Some? && 0.0 <= percent.value <= 100.0 { j := j.(data := j.data.(progress := percent.value)); }
      jobs := jobs[a := j];
      AppendLogKeeps(c, before, a, entry, percent);
    }

    // ---- the terminal section ----

    /** What is decided before the row is written: the files of a success must be there. */
    method Conclude(row: Row, outcome: JobState, files: Option<nat>, message: Text)
      returns (data: Row, localPath: Option<Path>, size: nat)
      ensures var state := FinalState(outcome, files);
        data == FinishedRow(row, state, message, clock) && localPath == FinishPath(state, data)
        && size == if files.Some? then files.value else 0
      ensures data.state == (if outcome == Succeeded && files.None? then JobState.Failed else outcome)
      ensures data == row.(state := data.state, finished := Some(clock),
                           error := if data.state == Succeeded then row.error else BoundedError(message))
      ensures localPath == if data.state == Succeeded then Some(row.destination) else None
    {
      hide BoundedError;
      var state := outcome;
      localPath, size := None, 0;
      if files.Some? { size := files.value; }
      if state == Succeeded {
        if files.Some? { localPath := Some(row.destination); } else { state := Failed; }
      }
      data := row.(state := state, finished := Some(clock));
      if state != Succeeded {
        var text := BoundDownloadError(message);
        data := data.(error := text);
      }
    }

    method FinishJob(a: nat, files: Option<nat>, message: Text, dt: nat, commit: bool) returns (err: bool)
      requires Valid() && mode == Up && a in jobs && jobs[a].phase.Finishing?
      requires FinalState(jobs[a].phase.outcome, files) != Succeeded ==> message != []
      modifies this
      ensures Valid() && FinishStep(old(View()), a, files, message, dt, commit) == Some(View())
      ensures err <==> a in jobs && jobs[a].lost
      // lost only when refused by the store, or for a success whose directory another model holds
      ensures var s := old(View());
        err <==>
          !commit || (s.jobs[a].phase.outcome == Succeeded && files.Some?
                      && exists k :: k in s.db.models && Some(k) != s.jobs[a].data.modelId
                           && s.db.models[k].localPath == Some(s.jobs[a].data.destination))
      // the outcome, the bounded message and the clock, over what the job carries
      ensures var s := old(View());
        var j := s.jobs[a];
        var state := if j.phase.outcome == Succeeded && files.None? then JobState.Failed else j.phase.outcome;
        var data := j.data.(state := state, error := if state == Succeeded then [] else BoundedError(message), finished := Some(s.clock));
        && a in jobs && j.id in s.db.downloads
        && jobs[a].data == (if err then data.(state := JobState.Failed) else data)
        && db.downloads == (if err then s.db.downloads
                            else s.db.downloads[j.id := data.(created := s.db.downloads[j.id].created, updated := clock)])
    {
      hide Inv, FinishStep, BoundedError;
      FinishEnabled(View(), a, files, message, dt, commit);
      FinishAnswers(c, View(), a, files, message, dt, commit);
      err := CommitFinish(a, files, message, dt, commit);
    }

    /** The row, the model and the job, or the lost mark. */
    method CommitFinish(a: nat, files: Option<nat>, message: Text, dt: nat, commit: bool) returns (err: bool)
      requires Valid() && mode == Up && a in jobs && jobs[a].phase.Finishing?
      requires FinalState(jobs[a].phase.outcome, files) != Succeeded ==> message != []
      modifies this
      ensures Valid() && FinishStep(old(View()), a, files, message, dt, commit) == Some(View())
      ensures err <==> a in jobs && jobs[a].lost
    {
      hide Inv, FinishStep, TerminalTx, FinishedRow, FinishPath, FinalState, BoundedError;
      ghost var before := View();
      FinishEnabled(before, a, files, message, dt, commit);
      FinishShape(c, before, a, files, message, dt, commit);
      InvNotLost(c, before, a);
      var j := jobs[a];
      var data, localPath, size := Conclude(j.data, j.phase.outcome, files, message);
      j := j.(data := data, cancelable := false, finishes := j.finishes + 1, phase := Finished);
      err := PersistTerminal(j.id, data, localPath, size, clock + dt, commit);
      if err {
        j := j.(data := data.(state := Failed), lost := true);
        terminalErr := true;
      }
      jobs := jobs[a := j];
      clock := clock + dt;
      FinishKeeps(c, before, a, files, message, dt, commit);
    }

    method CancelJob(id: string) returns (err: bool)
      requires Valid() && mode == Up
      modifies this`jobs
      ensures Valid()
      ensures err <==> CancelStep(old(View()), id).None?
      ensures var s := old(View());
        !err <==> id in s.index && s.index[id] in s.jobs && s.jobs[s.index[id]].phase !in {Finished, Gone, Archived}
      ensures View() == if err then old(View()) else CancelStep(old(View()), id).value
    {
      hide DbOk, JobsOk, SlotsOk, RequestsOk, ModeOk, EntryOk;
      ghost var before := View();
      CancelWhen(c, before, id);
      if id !in index { return true; }
      assert EntryOk(View(), id);
      EntryInJobs(View(), id);
      var a := index[id];
      if !Active(jobs[a].data.state) || !jobs[a].cancelable { return true; }
      jobs := jobs[a := jobs[a].(cancelled := true)];
      err := false;
      CancelKeeps(c, before, id);
    }

    // ---- restart ----

    /** One turn of the writing loop. */
    method RestoreRow(dt: nat, commit: bool) returns (err: bool)
      requires Valid() && mode.Restoring? && mode.todo != []
      modifies this
      ensures err ==> !commit && View() == old(View())
      ensures !err ==> RestoreOneStep(old(View()), dt) == Some(View())
      ensures !err ==>
                var id, row := old(mode).todo[0], old(db).downloads[old(mode).todo[0]];
                && id in index && index[id] in jobs && id in db.downloads && jobs[index[id]].data == row.(
                     state := if row.state in {Pending, Running} then Canceled else row.state,
                     error := if row.state in {Pending, Running} then Ascii("interrupted by service restart") else row.error,
                     finished := if row.state in {Pending, Running} then Some(old(clock)) else row.finished)
                && db.downloads[id] == jobs[index[id]].data.(updated := db.downloads[id].updated)
    {
      hide Inv, TerminalTx;
      RestoreNeverRefused(c, View(), dt);
      var id := mode.todo[0];
      var data := db.downloads[id];
      if Active(data.state) {
        data := data.(state := Canceled, error := INTERRUPTED, finished := Some(clock));
        err := PersistTerminal(id, data, None, 0, clock + dt, commit);
        if err { return; }
      }
      jobs := jobs[next := Job(id, data, Archived, false, false, false, 0, 0, 0, 0)];
      index, next := index[id := next], next + 1;
      clock := clock + dt;
      mode := mode.(todo := mode.todo[1..]);
      err := false;
    }

    /** Every row by itself, then every row against its model. */
    method ValidateRows(order: seq<string>) returns (err: bool)
      requires forall i :: 0 <= i < |order| ==> order[i] in db.downloads
      ensures !err <==> forall i :: 0 <= i < |order| ==>
                RowAccepted(c, order[i], db.downloads[order[i]]) && LinkAccepted(c, db, db.downloads[order[i]])
    {
      hide RowAccepted, LinkAccepted;
      for i := 0 to |order|
        invariant forall j :: 0 <= j < i ==> RowAccepted(c, order[j], db.downloads[order[j]])
      {
        var ok := ValidateRestoredJob(c, order[i], db.downloads[order[i]]);
        if !ok { return true; }
      }
      for i := 0 to |order|
        invariant forall j :: 0 <= j < i ==> LinkAccepted(c, db, db.downloads[order[j]])
      {
        var ok := ValidateLinkedJob(c, db, db.downloads[order[i]]);
        if !ok { return true; }
      }
      err := false;
    }

    /** Validate everything, then settle the interrupted rows one by one.  A write that SQLite
        refuses stops the start; the tables are then fit for the next one. */
    method Restore(order: seq<string>, dt: nat, commits: seq<bool>) returns (err: bool)
      requires Valid() && mode == Down && Lists(order, db.downloads.Keys) && |commits| == |order|
      modifies this
      ensures !err ==> Valid() && mode == Up && RestoreResult(old(db), db)
      ensures !err ==> index.Keys == db.downloads.Keys
                       && forall id :: id in index ==> index[id] in jobs && Recorded(db.downloads[id], jobs[index[id]].data)
      ensures err ==> Inv(c, CrashStep(View()))
      ensures (forall i :: 0 <= i < |order| ==> commits[i]) ==> !err
    {
      hide Inv, RestoreOneStep, RestoreResult, RowAccepted, LinkAccepted, Recorded;
      DownMeansAccepted(c, View());
      err := ValidateRows(order);
      if err { return; }
      BootKeeps(c, View(), order);
      var boot := db;
      mode := Restoring(order, boot);
      for i := 0 to |order|
        invariant Valid() && mode == Restoring(order[i..], boot)
      {
        ghost var before := View();
        RestoreOneShape(c, before, dt);
        RestoreOneKeeps(c, before, dt);
        err := RestoreRow(dt, commits[i]);
        if err {
          CrashKeeps(c, View());
          return;
        }
      }
      RestoreEnds(c, View());
      RestoredJobs(c, View());
      ServeKeeps(c, View());
      mode := Up;
      err := false;
    }
  }

  lemma EntryInJobs(s: State, id: string)
    requires EntryOk(s, id)
    ensures id in s.index && s.index[id] in s.jobs
  {
  }

  lemma InvIndex(c: Config, s: State)
    requires Inv(c, s)
    ensures IndexOk(s)
  {
  }

  lemma TodoIsStored(c: Config, s: State)
    requires Inv(c, s) && s.mode.Restoring? && s.mode.todo != []
    ensures s.mode.todo[0] in s.db.downloads
  {
    hide DbOk, JobsOk, IndexOk, SlotsOk, RequestsOk;
    assert s.db.downloads.Keys == s.mode.boot.downloads.Keys;
  }

  /** The tables themselves never refuse to settle an interrupted row. */
  lemma RestoreNeverRefused(c: Config, s: State, dt: nat)
    requires Inv(c, s) && s.mode.Restoring? && s.mode.todo != []
    ensures s.mode.todo[0] in s.db.downloads
    ensures var id := s.mode.todo[0];
      var row := s.db.downloads[id];
      Active(row.state) ==> TerminalTx(s.db, id, InterruptedRow(row, s.clock), None, 0, s.clock + dt).Some?
  {
    hide Inv, DbOk, RestoreAccepts, TerminalTx, InterruptedRow;
    TodoIsStored(c, s);
    DownMeansAccepted(c, s);
    if Active(s.db.downloads[s.mode.todo[0]].state) { RestoreTx(c, s.db, s.clock, s.mode.todo[0], s.clock + dt); }
  }

  lemma InvNotLost(c: Config, s: State, a: nat)
    requires Inv(c, s) && a in s.jobs && Open(s.jobs[a].phase)
    ensures !s.jobs[a].lost
  {
    hide DbOk, IndexOk, SlotsOk, RequestsOk, ModeOk, LogsAccepted, LedgerOk;
    assert JobOk(c, s, a);
  }

  lemma FinishAnswers(c: Config, s: State, a: nat, files: Option<nat>, message: Text, dt: nat, commit: bool)
    requires Inv(c, s) && FinishStep(s, a, files, message, dt, commit).Some?
    ensures var t := FinishStep(s, a, files, message, dt, commit).value;
      && a in s.jobs && s.jobs[a].phase.Finishing? && a in t.jobs && s.jobs[a].id in s.db.downloads
      && (t.jobs[a].lost <==>
            !commit || (s.jobs[a].phase.outcome == Succeeded && files.Some?
                        && exists k :: k in s.db.models && Some(k) != s.jobs[a].data.modelId
                             && s.db.models[k].localPath == Some(s.jobs[a].data.destination)))
      && var j := s.jobs[a];
         var state := if j.phase.outcome == Succeeded && files.None? then JobState.Failed else j.phase.outcome;
         var data := j.data.(state := state, error := if state == Succeeded then [] else BoundedError(message), finished := Some(s.clock));
         && t.jobs[a].data == (if t.jobs[a].lost then data.(state := JobState.Failed) else data)
         && t.db.downloads == (if t.jobs[a].lost then s.db.downloads
                               else s.db.downloads[j.id := data.(created := s.db.downloads[j.id].created, updated := t.clock)])
  {
    hide Inv, FinishStep, BoundedError, Followed, PathTakenByOther;
    FinishTables(c, s, a, files, message, dt, commit);
    InvNotLost(c, s, a);
    TakenMeans(s.db.models, s.jobs[a].data.modelId.value, s.jobs[a].data.destination);
  }

  /** When acceptance is refused, and what it does otherwise. */
  lemma AcceptCases(c: Config, s: State, r: Request, dt: nat)
    requires s.mode == Up && r in s.requests
    ensures var slot := s.workers < c.maxWorkers;
      var data := AcceptedRow(c, r, slot, s.clock);
      var db := AcceptTx(s.db, r.jobId, data, r.retry, s.clock + dt);
      if s.closed || IdentityRefused(s, r) || DestinationInUse(s, Join(c.root, r.modelId)) || db.None? then AcceptStep(c, s, r, dt).None?
      else AcceptStep(c, s, r, dt) == Some(
             s.(db := db.value, clock := s.clock + dt, next := s.next + 1, index := s.index[r.jobId := s.next],
                wg := s.wg + 1, workers := if slot then s.workers + 1 else s.workers,
                jobs := s.jobs[s.next := Job(r.jobId, data, if slot then Launching else Queued, true, false, false,
                                             if slot then 1 else 0, 0, 0, 0)]))
  {
    hide AcceptTx, DestinationInUse, IdentityRefused;
  }

  lemma QueuedHasNoStart(c: Config, s: State, a: nat)
    requires Inv(c, s) && At(s, a, Granted)
    ensures s.jobs[a].data.state == Pending && s.jobs[a].data.started.None?
  {
    hide DbOk, IndexOk, SlotsOk, RequestsOk, ModeOk, LogsAccepted;
    assert JobOk(c, s, a);
  }

  lemma DownMeansAccepted(c: Config, s: State)
    requires Inv(c, s)
    ensures DbOk(c, s.db, s.clock) && RestoreAccepts(c, s.db)
  {
    hide JobsOk, IndexOk, SlotsOk, RequestsOk, ModeOk, RowAccepted, LinkAccepted;
  }
}

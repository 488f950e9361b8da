/** When each entry point says yes, and what it then writes, in columns. */
module DownloadAnswers {
  import opened Wrappers
  import opened Coordinates
  import opened Database
  import opened Restart
  import opened DownloadTransactions
  import opened DownloadProtocol
  import opened DownloadInvariant
  import opened DownloadTheorems

  // ---- acceptance ----

  lemma IndexFacts(c: Config, s: State, id: string)
    requires Inv(c, s) && s.mode == Up
    ensures id in s.db.downloads <==> id in s.index
    ensures id in s.index ==> s.index[id] in s.jobs && EntryOk(s, id) && JobOk(c, s, s.index[id])
  {
    hide DbOk, SlotsOk, RequestsOk, JobOk;
    if id in s.index { assert EntryOk(s, id); }
  }

  /** A row that can be retried stands for a job that is over and was never lost. */
  lemma RetryableEntry(c: Config, s: State, id: string)
    requires id in s.index && s.index[id] in s.jobs && EntryOk(s, id) && JobOk(c, s, s.index[id])
    ensures s.db.downloads[id].state in {JobState.Failed, Canceled} && s.db.downloads[id].modelId.Some? ==>
              s.jobs[s.index[id]].data.state == s.db.downloads[id].state
              && s.jobs[s.index[id]].data.modelId == s.db.downloads[id].modelId
  {
    hide LogsAccepted, LedgerOk, DataOk;
  }

  /** A request that was read is accepted, if the store commits, exactly when the service is open, no
      pending or running job has the directory, the id is new or names a failed or canceled download
      of the same model, and the model can still be claimed. */
  lemma AcceptanceIff(c: Config, s: State, r: Request, dt: nat)
    requires Reachable(c, s) && s.mode == Up && r in s.requests
    ensures Apply(c, s, Accept(r, dt)).Some? <==>
              && !s.closed
              && (forall id :: id in s.index && s.index[id] in s.jobs && s.jobs[s.index[id]].data.state in {Pending, Running}
                    ==> s.jobs[s.index[id]].data.destination != Join(c.root, r.modelId))
              && (if r.retry then
                    r.jobId in s.index && r.jobId in s.db.downloads
                    && s.db.downloads[r.jobId].state in {JobState.Failed, Canceled} && s.db.downloads[r.jobId].modelId == Some(r.modelId)
                  else r.jobId !in s.index)
              && r.modelId in s.db.models
              && s.db.models[r.modelId].status in {Registered, StatusError, StatusFailed, StatusCanceled}
  {
    hide Inv, AcceptStep;
    ReachableOk(c, s);
    AcceptsWhen(c, s, r, dt);
  }

  lemma AcceptsWhen(c: Config, s: State, r: Request, dt: nat)
    requires Inv(c, s) && s.mode == Up && r in s.requests
    ensures AcceptStep(c, s, r, dt).Some? <==>
              && !s.closed
              && (forall id :: id in s.index && s.index[id] in s.jobs && s.jobs[s.index[id]].data.state in {Pending, Running}
                    ==> s.jobs[s.index[id]].data.destination != Join(c.root, r.modelId))
              && (if r.retry then
                    r.jobId in s.index && r.jobId in s.db.downloads
                    && s.db.downloads[r.jobId].state in {JobState.Failed, Canceled} && s.db.downloads[r.jobId].modelId == Some(r.modelId)
                  else r.jobId !in s.index)
              && r.modelId in s.db.models
              && s.db.models[r.modelId].status in {Registered, StatusError, StatusFailed, StatusCanceled}
  {
    hide Inv, EntryOk, JobOk;
    IndexFacts(c, s, r.jobId);
    if r.jobId in s.index { RetryableEntry(c, s, r.jobId); }
  }

  /** What an acceptance writes: the row, the claim, the job, and the slot if one is free. */
  lemma AcceptanceWrites(c: Config, s: State, r: Request, dt: nat)
    requires Reachable(c, s) && Apply(c, s, Accept(r, dt)).Some?
    ensures r.modelId in s.db.models && (r.retry ==> r.jobId in s.db.downloads)
    ensures var slot, now, m := s.workers < c.maxWorkers, s.clock + dt, s.db.models[r.modelId];
      var columns := Row(Some(r.modelId), r.repository, r.revision, Join(c.root, r.modelId), if slot then Running else Pending,
                         0.0, [], [], if slot then Some(s.clock) else None, None, 0, 0);
      var row := columns.(created := if r.retry then s.db.downloads[r.jobId].created else now, updated := now);
      Apply(c, s, Accept(r, dt)).value ==
        s.(db := Db(s.db.models[r.modelId := m.(status := Downloading, updated := now)], s.db.downloads[r.jobId := row]),
           clock := now, next := s.next + 1, index := s.index[r.jobId := s.next], wg := s.wg + 1,
           workers := s.workers + (if slot then 1 else 0),
           jobs := s.jobs[s.next := Job(r.jobId, columns, if slot then Launching else Queued, true, false, false,
                                        if slot then 1 else 0, 0, 0, 0)])
  {
    hide Inv, DestinationInUse, IdentityRefused;
  }

  // ---- retry ----

  /** A download that failed or was canceled can be asked for again whenever its model is still there
      to be claimed and its directory is free. */
  lemma EndedDownloadCanBeRetried(c: Config, s: State, id: string, m: string)
    requires Reachable(c, s) && s.mode == Up && !s.closed
    requires id in s.db.downloads && s.db.downloads[id].state in {JobState.Failed, Canceled} && s.db.downloads[id].modelId == Some(m)
    requires m in s.db.models && s.db.models[m].status in {Registered, StatusError, StatusFailed, StatusCanceled}
    requires forall k :: k in s.index && s.index[k] in s.jobs && s.jobs[s.index[k]].data.state in {Pending, Running}
               ==> s.jobs[s.index[k]].data.destination != Join(c.root, m)
    ensures Apply(c, s, ReadRetry(id)).Some?
    ensures var read := Apply(c, s, ReadRetry(id)).value;
      var r := Request(id, m, s.db.models[m].repository, s.db.models[m].revision, true);
      && read == s.(requests := s.requests + {r})
      && Apply(c, read, Accept(r, 0)).Some?
      && var t := Apply(c, read, Accept(r, 0)).value;
         t.db.downloads[id].state in {Pending, Running} && t.db.downloads[id].modelId == Some(m)
         && t.db.models[m].status == Downloading
  {
    hide Inv, AcceptStep, RowAccepted, EntryOk, JobOk;
    ReachableOk(c, s);
    IndexFacts(c, s, id);
    RetryableEntry(c, s, id);
    RetryableRow(c, s, id, m);
    var read := Apply(c, s, ReadRetry(id)).value;
    var r := Request(id, m, s.db.models[m].repository, s.db.models[m].revision, true);
    ReachableNext(c, s, ReadRetry(id));
    AcceptanceIff(c, read, r, 0);
    AcceptanceWrites(c, read, r, 0);
  }

  lemma RetryableRow(c: Config, s: State, id: string, m: string)
    requires Inv(c, s) && id in s.db.downloads && s.db.downloads[id].modelId == Some(m) && m in s.db.models
    ensures ValidJobId(id) && s.db.models[m].kind == HuggingFace
  {
    hide JobsOk, IndexOk, SlotsOk, RequestsOk, ModeOk, LogsAccepted, ValidJobId;
    assert RowAccepted(c, id, s.db.downloads[id]) && LinkAccepted(c, s.db, s.db.downloads[id]);
  }

  lemma ReachableNext(c: Config, s: State, step: Step)
    requires Reachable(c, s) && Apply(c, s, step).Some?
    ensures Reachable(c, Apply(c, s, step).value)
  {
    hide Apply;
    var steps :| Run(c, FRESH, steps) == Some(s);
    RunAppend(c, FRESH, steps, step);
  }

  /** A read answers exactly for a Hugging Face model that can be claimed, a retry in addition only for
      a job that failed or was canceled; the request carries what the model row says. */
  lemma ReadsIff(c: Config, s: State, jobId: string, m: string)
    requires Reachable(c, s) && s.mode == Up && ValidJobId(jobId)
    ensures Apply(c, s, ReadModel(jobId, m)).Some? <==>
              m in s.db.models && s.db.models[m].kind == HuggingFace
              && s.db.models[m].status in {Registered, StatusError, StatusFailed, StatusCanceled}
    ensures Apply(c, s, ReadModel(jobId, m)).Some? ==>
              Apply(c, s, ReadModel(jobId, m)).value
              == s.(requests := s.requests + {Request(jobId, m, s.db.models[m].repository, s.db.models[m].revision, false)})
    ensures Apply(c, s, ReadRetry(jobId)).Some? <==>
              && jobId in s.index && s.index[jobId] in s.jobs
              && var j := s.jobs[s.index[jobId]];
                 j.data.state in {JobState.Failed, Canceled} && j.data.modelId.Some? && Apply(c, s, ReadModel(jobId, j.data.modelId.value)).Some?
  {
  }

  // ---- cancel, deletion, registration ----

  /** A cancel is accepted exactly while the job of that id has not ended, and marks only its context. */
  lemma CancelIff(c: Config, s: State, id: string)
    requires Reachable(c, s) && s.mode == Up
    ensures Apply(c, s, Cancel(id)).Some? <==>
              id in s.index && s.index[id] in s.jobs && s.jobs[s.index[id]].phase !in {Finished, Gone, Archived}
    ensures Apply(c, s, Cancel(id)).Some? ==>
              var a := s.index[id];
              Apply(c, s, Cancel(id)).value == s.(jobs := s.jobs[a := s.jobs[a].(cancelled := true)])
  {
    hide Inv;
    ReachableOk(c, s);
    CancelWhen(c, s, id);
  }

  lemma CancelWhen(c: Config, s: State, id: string)
    requires Inv(c, s) && s.mode == Up
    ensures CancelStep(s, id).Some? <==>
              id in s.index && s.index[id] in s.jobs && s.jobs[s.index[id]].phase !in {Finished, Gone, Archived}
  {
    hide Inv;
    IndexFacts(c, s, id);
    if id in s.index { EndedIsTerminal(c, s, s.index[id]); }
  }

  lemma EndedIsTerminal(c: Config, s: State, a: nat)
    requires a in s.jobs && JobOk(c, s, a)
    ensures Open(s.jobs[a].phase) <==> Active(s.jobs[a].data.state)
    ensures Open(s.jobs[a].phase) ==> s.jobs[a].cancelable
  {
    hide LogsAccepted, LedgerOk;
  }

  /** A model goes exactly when no download at work is linked to it or writes to its directory; the
      rows of its other downloads lose the link and nothing else. */
  lemma ModelDeletionIff(c: Config, s: State, m: string)
    requires s.mode == Up
    ensures Apply(c, s, DeleteModel(m)).Some? <==>
              && m in s.db.models
              && forall d :: d in s.db.downloads && s.db.downloads[d].state in {Pending, Running} ==>
                   s.db.downloads[d].modelId != Some(m) && s.db.models[m].localPath != Some(s.db.downloads[d].destination)
    ensures Apply(c, s, DeleteModel(m)).Some? ==>
              var t := Apply(c, s, DeleteModel(m)).value;
              && t == s.(db := t.db) && t.db.models == s.db.models - {m} && t.db.downloads.Keys == s.db.downloads.Keys
              && forall d :: d in s.db.downloads ==>
                   t.db.downloads[d] == if s.db.downloads[d].modelId == Some(m) then s.db.downloads[d].(modelId := None) else s.db.downloads[d]
  {
  }

  /** A registration under a new id is refused only for coordinates the Hub would not take, or for a
      path that is registered already. */
  lemma RegistrationIff(c: Config, s: State, m: string, repository: string, revision: string, path: Path, size: nat)
    requires Reachable(c, s) && s.mode == Up && ValidModelId(m) && m !in s.minted
    ensures Apply(c, s, RegisterHuggingFace(m, repository, revision)).Some? <==>
              NormalizeRepository(repository).Some? && NormalizeRevision(revision).Some?
    ensures Apply(c, s, RegisterHuggingFace(m, repository, revision)).Some? ==>
              Apply(c, s, RegisterHuggingFace(m, repository, revision)).value.db
              == Db(s.db.models[m := Model(HuggingFace, NormalizeRepository(repository).value, NormalizeRevision(revision).value,
                                           Registered, None, 0, s.clock, s.clock)], s.db.downloads)
    ensures Apply(c, s, RegisterLocal(m, path, size)).Some? <==>
              forall k :: k in s.db.models ==> s.db.models[k].localPath != Some(path)
    ensures Apply(c, s, RegisterLocal(m, path, size)).Some? ==>
              Apply(c, s, RegisterLocal(m, path, size)).value.db
              == Db(s.db.models[m := Model(Local, "", "", Ready, Some(path), size, s.clock, s.clock)], s.db.downloads)
  {
    hide Inv, NormalizeRepository, NormalizeRevision;
    ReachableOk(c, s);
    ModelsAreMinted(c, s);
  }

  lemma ModelsAreMinted(c: Config, s: State)
    requires Inv(c, s)
    ensures s.db.models.Keys <= s.minted
  {
    hide DbOk, JobsOk, IndexOk, SlotsOk, ModeOk, RequestOk;
  }

  /** A start goes on to write exactly when every persisted row passes both validators. */
  lemma StartIff(c: Config, s: State, order: seq<string>)
    requires s.mode == Down && Lists(order, s.db.downloads.Keys)
    ensures Apply(c, s, Boot(order)).Some? <==>
              forall id :: id in s.db.downloads ==>
                RowAccepted(c, id, s.db.downloads[id]) && LinkAccepted(c, s.db, s.db.downloads[id])
    ensures Apply(c, s, Boot(order)).Some? ==> Apply(c, s, Boot(order)).value == s.(mode := Restoring(order, s.db))
  {
    hide RowAccepted, LinkAccepted, Lists;
  }

  // ---- the queued start ----

  /** A queued job that is granted a slot becomes durably running before it may go on; refused by the
      store it gives the slot back and ends failed, its row still pending. */
  lemma QueuedStartResult(c: Config, s: State, a: nat, dt: nat, commit: bool)
    requires Reachable(c, s) && s.mode == Up && a in s.jobs && s.jobs[a].phase == Granted
    ensures s.jobs[a].id in s.db.downloads && Apply(c, s, StartQueued(a, dt, commit)).Some?
    ensures var j, t := s.jobs[a], Apply(c, s, StartQueued(a, dt, commit)).value;
      var data := j.data.(state := Running, started := Some(s.clock));
      t ==
        if s.closed || j.cancelled then s.(jobs := s.jobs[a := j.(phase := Checked)])
        else if commit then
          s.(jobs := s.jobs[a := j.(phase := Checked, data := data)], clock := s.clock + dt,
             db := s.db.(downloads := s.db.downloads[j.id := data.(created := s.db.downloads[j.id].created, updated := s.clock + dt)]))
        else s.(jobs := s.jobs[a := j.(phase := Finishing(JobState.Failed), released := j.released + 1)], workers := s.workers - 1)
  {
    hide DbOk, IndexOk, SlotsOk, RequestsOk, ModeOk, LogsAccepted;
    ReachableOk(c, s);
    assert JobOk(c, s, a);
  }

  /** A log write copies what the job carries into its row. */
  lemma LogWriteResult(c: Config, s: State, a: nat)
    requires Reachable(c, s) && s.mode == Up && a in s.jobs && s.jobs[a].phase == Alive
    ensures s.jobs[a].id in s.db.downloads && Apply(c, s, PersistLog(a)).Some?
    ensures var j, t := s.jobs[a], Apply(c, s, PersistLog(a)).value;
      && t == s.(db := s.db.(downloads := t.db.downloads)) && t.db.downloads == s.db.downloads[j.id := t.db.downloads[j.id]]
      && t.db.downloads[j.id].logs == j.data.logs && t.db.downloads[j.id].progress == j.data.progress
      && t.db.downloads[j.id].state == Running
  {
    hide DbOk, IndexOk, SlotsOk, RequestsOk, ModeOk, LogsAccepted;
    ReachableOk(c, s);
    assert JobOk(c, s, a);
  }
}

/** A downloaded model is ready because of one download, and only because of it. */
module DownloadReadiness {
  import opened Wrappers
  import opened Utf8
  import opened Coordinates
  import opened Database
  import opened Restart
  import opened DownloadTransactions
  import opened DownloadProtocol
  import opened DownloadInvariant
  import opened DownloadSteps
  import opened DownloadTheorems

  /** Download row `d` succeeded and is still linked to model `m`. */
  predicate Produced(db: Db, d: string, m: string) {
    d in db.downloads && db.downloads[d].state == Succeeded && db.downloads[d].modelId == Some(m)
  }

  predicate HasProducer(db: Db, m: string) { exists d :: d in db.downloads && Produced(db, d, m) }

  /** A product is in place: its model is ready at its own directory, which the download wrote. */
  predicate InPlace(c: Config, db: Db, d: string, m: string) {
    && d in db.downloads && m in db.models && db.models[m].kind == HuggingFace && db.models[m].status == Ready
    && db.models[m].localPath == Some(db.downloads[d].destination) && db.downloads[d].destination == Join(c.root, m)
  }

  predicate NeedsProducer(db: Db, m: string) {
    m in db.models && db.models[m].kind == HuggingFace && db.models[m].status == Ready
  }

  ghost predicate ReadyOk(c: Config, db: Db) {
    && (forall d, m :: Produced(db, d, m) ==> InPlace(c, db, d, m))
    && (forall m :: NeedsProducer(db, m) ==> HasProducer(db, m))
    && (forall d, e, m :: Produced(db, d, m) && Produced(db, e, m) ==> d == e)
  }

  // ---- how the transactions move it ----

  /** Nothing about readiness changes: no success is overwritten, none is written, and models move
      only between states that are not ready. */
  predicate KeepsReadiness(db: Db, after: Db) {
    && db.downloads.Keys <= after.downloads.Keys && after.models.Keys == db.models.Keys
    && (forall d :: d in after.downloads ==>
          if d in db.downloads && db.downloads[d].state == Succeeded then after.downloads[d] == db.downloads[d]
          else after.downloads[d].state != Succeeded)
    && (forall m :: m in db.models ==>
          after.models[m] == db.models[m]
          || (after.models[m].kind == db.models[m].kind && db.models[m].status != Ready && after.models[m].status != Ready))
  }

  lemma KeptReadiness(c: Config, db: Db, after: Db)
    requires ReadyOk(c, db) && KeepsReadiness(db, after)
    ensures ReadyOk(c, after)
  {
    forall d, m | Produced(after, d, m) ensures Produced(db, d, m) && InPlace(c, after, d, m) {
      assert Produced(db, d, m) && InPlace(c, db, d, m);
    }
    forall m | NeedsProducer(after, m) ensures HasProducer(after, m) {
      assert NeedsProducer(db, m);
      var d :| d in db.downloads && Produced(db, d, m);
      assert Produced(after, d, m);
    }
  }

  /** A success: the row of a downloading model succeeds and the model is ready where the row says. */
  lemma SuccessReadiness(c: Config, db: Db, after: Db, id: string, m: string)
    requires ReadyOk(c, db) && m in db.models && db.models[m].status == Downloading && db.models[m].kind == HuggingFace
    requires id in db.downloads && Active(db.downloads[id].state)
    requires after.downloads.Keys == db.downloads.Keys && after.models.Keys == db.models.Keys
    requires forall d :: d in db.downloads && d != id ==> after.downloads[d] == db.downloads[d]
    requires forall k :: k in db.models && k != m ==> after.models[k] == db.models[k]
    requires after.downloads[id].state == Succeeded && after.downloads[id].modelId == Some(m)
    requires after.models[m].kind == HuggingFace && after.models[m].status == Ready
    requires after.models[m].localPath == Some(after.downloads[id].destination)
    requires after.downloads[id].destination == Join(c.root, m)
    ensures ReadyOk(c, after)
  {
    forall d, k | Produced(after, d, k) && d != id ensures Produced(db, d, k) && k != m && InPlace(c, after, d, k) {
      assert Produced(db, d, k) && InPlace(c, db, d, k);
    }
    assert Produced(after, id, m);
    forall k | NeedsProducer(after, k) ensures HasProducer(after, k) {
      if k != m {
        assert NeedsProducer(db, k);
        var d :| d in db.downloads && Produced(db, d, k);
        assert d != id && Produced(after, d, k);
      }
    }
  }

  lemma RegisterReadiness(c: Config, db: Db, clock: nat, id: string, model: Model)
    requires ReadyOk(c, db) && DbOk(c, db, clock) && RegisterTx(db, id, model).Some?
    requires !(model.kind == HuggingFace && model.status == Ready)
    ensures ReadyOk(c, RegisterTx(db, id, model).value)
  {
    hide RowAccepted, ModelAccepted, Exclusive, DownloadingIsClaimed;
    var after := RegisterTx(db, id, model).value;
    forall d, m | Produced(after, d, m) ensures Produced(db, d, m) && InPlace(c, after, d, m) {
      assert Produced(db, d, m) && InPlace(c, db, d, m);
    }
    forall m | NeedsProducer(after, m) ensures HasProducer(after, m) {
      assert m != id && NeedsProducer(db, m);
      var d :| d in db.downloads && Produced(db, d, m);
      assert Produced(after, d, m);
    }
  }

  lemma DeleteReadiness(c: Config, db: Db, id: string)
    requires ReadyOk(c, db) && DeleteModelTx(db, id).Some?
    ensures ReadyOk(c, DeleteModelTx(db, id).value)
  {
    hide DeletionBlocked;
    var after := DeleteModelTx(db, id).value;
    forall d, m | Produced(after, d, m) ensures Produced(db, d, m) && InPlace(c, after, d, m) {
      assert Produced(db, d, m) && InPlace(c, db, d, m);
    }
    forall m | NeedsProducer(after, m) ensures HasProducer(after, m) {
      assert NeedsProducer(db, m);
      var d :| d in db.downloads && Produced(db, d, m);
      assert Produced(after, d, m);
    }
  }

  // ---- every step ----

  lemma AcceptReadiness(c: Config, s: State, r: Request, dt: nat)
    requires AcceptStep(c, s, r, dt).Some?
    ensures KeepsReadiness(s.db, AcceptStep(c, s, r, dt).value.db)
  {
    hide DestinationInUse, IdentityRefused;
  }

  lemma WriterReadiness(c: Config, s: State, step: Step)
    requires Inv(c, s) && (step.StartQueued? || step.PersistLog?) && Apply(c, s, step).Some?
    ensures KeepsReadiness(s.db, Apply(c, s, step).value.db)
  {
    hide DbOk, JobsOk, IndexOk, SlotsOk, RequestsOk, ModeOk;
    if step.a in s.jobs { OpenJobIsActive(c, s, step.a); }
  }

  lemma OpenJobIsActive(c: Config, s: State, a: nat)
    requires JobsOk(c, s) && a in s.jobs
    ensures Open(s.jobs[a].phase) ==>
              s.jobs[a].id in s.db.downloads && Active(s.db.downloads[s.jobs[a].id].state) && Active(s.jobs[a].data.state)
  {
    hide LogsAccepted;
    assert JobOk(c, s, a);
  }

  lemma FinishReadiness(c: Config, s: State, step: Step)
    requires Inv(c, s) && ReadyOk(c, s.db) && step.Finish? && Apply(c, s, step).Some?
    ensures ReadyOk(c, Apply(c, s, step).value.db)
  {
    hide Inv, FinishStep, TerminalTx, ReadyOk, FinishedRow, BoundedError, FinalState;
    FinishShape(c, s, step.a, step.files, step.message, step.dt, step.commit);
    var j := s.jobs[step.a];
    var state := FinalState(j.phase.outcome, step.files);
    var data := FinishedRow(j.data, state, step.message, s.clock);
    var size := if step.files.Some? then step.files.value else 0;
    var db := TerminalTx(s.db, j.id, data, FinishPath(state, data), size, s.clock + step.dt);
    if step.commit && db.Some? { FinishedTables(c, s, step.a, step.files, step.message, size, s.clock + step.dt); }
  }

  lemma FinishedTables(c: Config, s: State, a: nat, files: Option<nat>, message: Text, size: nat, now: nat)
    requires Inv(c, s) && ReadyOk(c, s.db) && a in s.jobs && s.jobs[a].phase.Finishing? && s.clock <= now
    requires FinalState(s.jobs[a].phase.outcome, files) != Succeeded ==> message != []
    ensures var j := s.jobs[a];
      var data := FinishedRow(j.data, FinalState(j.phase.outcome, files), message, s.clock);
      var db := TerminalTx(s.db, j.id, data, FinishPath(data.state, data), size, now);
      && data.state == FinalState(j.phase.outcome, files)
      && (db.Some? ==> ReadyOk(c, db.value))
  {
    hide DbOk, IndexOk, SlotsOk, RequestsOk, ModeOk, LogsAccepted, TerminalTx, LedgerOk, BoundedError, Valid, ReadyOk;
    assert JobOk(c, s, a);
    var j := s.jobs[a];
    var data := FinishedRow(j.data, FinalState(j.phase.outcome, files), message, s.clock);
    FinishedColumns(c, s, a, files, message);
    TerminalResult(c, s.db, s.clock, j.id, data, FinishPath(data.state, data), size, now);
    ActiveRowFacts(c, s.db, s.clock, j.id);
    var db := TerminalTx(s.db, j.id, data, FinishPath(data.state, data), size, now);
    if db.Some? {
      if data.state == Succeeded { SuccessReadiness(c, s.db, db.value, j.id, data.modelId.value); }
      else {
        assert KeepsReadiness(s.db, db.value);
        KeptReadiness(c, s.db, db.value);
      }
    }
  }

  lemma RestoreReadiness(c: Config, s: State, dt: nat)
    requires Inv(c, s) && RestoreOneStep(s, dt).Some?
    ensures KeepsReadiness(s.db, RestoreOneStep(s, dt).value.db)
  {
    hide Inv, RestoreOneStep, DbOk;
    RestoringNeeded(s, dt);
    RestoreOneShape(c, s, dt);
  }

  lemma RegistrationReadiness(c: Config, s: State, step: Step)
    requires Inv(c, s) && ReadyOk(c, s.db) && (step.RegisterHuggingFace? || step.RegisterLocal?) && Apply(c, s, step).Some?
    ensures ReadyOk(c, Apply(c, s, step).value.db)
  {
    hide ReadyOk, RegisterTx, NormalizeRepository, NormalizeRevision, DbOk, JobsOk, IndexOk, SlotsOk, RequestsOk, ModeOk;
    match step {
      case RegisterHuggingFace(m, repository, revision) =>
        RegisterReadiness(c, s.db, s.clock, m, Model(HuggingFace, NormalizeRepository(repository).value,
                                                     NormalizeRevision(revision).value, Registered, None, 0, s.clock, s.clock));
      case RegisterLocal(m, path, size) =>
        RegisterReadiness(c, s.db, s.clock, m, Model(Local, "", "", Ready, Some(path), size, s.clock, s.clock));
    }
  }

  lemma StepReadiness(c: Config, s: State, step: Step)
    requires Inv(c, s) && ReadyOk(c, s.db) && Apply(c, s, step).Some?
    ensures ReadyOk(c, Apply(c, s, step).value.db)
  {
    hide Inv, ReadyOk, KeepsReadiness, DeleteModelTx, AcceptStep, FinishStep, StartQueuedStep, PersistLogStep, RestoreOneStep;
    hide NormalizeRepository, NormalizeRevision, RestoreAccepts;
    var t := Apply(c, s, step).value;
    if step.RegisterHuggingFace? || step.RegisterLocal? { RegistrationReadiness(c, s, step); }
    else if step.DeleteModel? { DeleteReadiness(c, s.db, step.model); }
    else if step.Finish? { FinishReadiness(c, s, step); }
    else if step.Accept? {
      AcceptReadiness(c, s, step.request, step.dt);
      KeptReadiness(c, s.db, t.db);
    } else if step.StartQueued? || step.PersistLog? {
      WriterReadiness(c, s, step);
      KeptReadiness(c, s.db, t.db);
    } else if step.RestoreOne? {
      RestoreReadiness(c, s, step.dt);
      KeptReadiness(c, s.db, t.db);
    }
  }

  lemma {:induction false} RunReadiness(c: Config, s: State, steps: seq<Step>)
    requires Inv(c, s) && ReadyOk(c, s.db) && Run(c, s, steps).Some?
    ensures ReadyOk(c, Run(c, s, steps).value.db)
  {
    hide Inv, ReadyOk, Apply;
    if steps != [] {
      RunReadiness(c, s, steps[..|steps| - 1]);
      RunKeeps(c, s, steps[..|steps| - 1]);
      StepReadiness(c, Run(c, s, steps[..|steps| - 1]).value, steps[|steps| - 1]);
    }
  }

  /** A Hugging Face model is ready exactly when one succeeded download, and no other, is linked to
      it; that download wrote the model's own directory, which is where it is registered. */
  lemma ReadyMeansOneSuccess(c: Config, s: State, m: string)
    requires Reachable(c, s) && m in s.db.models && s.db.models[m].kind == HuggingFace
    ensures s.db.models[m].status == Ready <==> exists d :: d in s.db.downloads && Produced(s.db, d, m)
    ensures forall d, e :: Produced(s.db, d, m) && Produced(s.db, e, m) ==> d == e
    ensures forall d :: Produced(s.db, d, m) ==>
              s.db.models[m].localPath == Some(s.db.downloads[d].destination) == Some(Join(c.root, m))
  {
    hide Inv;
    var steps :| Run(c, FRESH, steps) == Some(s);
    FreshOk(c);
    assert ReadyOk(c, FRESH.db);
    RunReadiness(c, FRESH, steps);
    forall d | Produced(s.db, d, m)
      ensures s.db.models[m].localPath == Some(s.db.downloads[d].destination) == Some(Join(c.root, m))
    {
      assert InPlace(c, s.db, d, m);
    }
    if s.db.models[m].status == Ready { assert NeedsProducer(s.db, m); }
  }
}

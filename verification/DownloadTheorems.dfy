/** What the download service promises, over every run from a fresh installation: any
    interleaving, any refused commit, any number of crashes and restarts. */
module DownloadTheorems {
  import opened Wrappers
  import opened Sets
  import opened Utf8
  import opened Coordinates
  import opened Database
  import opened Restart
  import opened DownloadTransactions
  import opened DownloadProtocol
  import opened DownloadInvariant
  import opened DownloadSteps

  ghost predicate Reachable(c: Config, s: State) {
    ConfigOk(c) && exists steps :: Run(c, FRESH, steps) == Some(s)
  }

  lemma ReachableOk(c: Config, s: State)
    requires Reachable(c, s)
    ensures Inv(c, s)
  {
    hide Inv;
    var steps :| Run(c, FRESH, steps) == Some(s);
    FreshOk(c);
    RunKeeps(c, FRESH, steps);
  }

  // ---- one claim per downloading model ----

  function ActiveDownloads(db: Db, m: string): set<string> { set d | d in db.downloads && Claims(db, d, m) }

  /** A model is downloading exactly when one and only one active download is linked to it. */
  lemma DownloadingMeansOneActiveDownload(c: Config, s: State, m: string)
    requires Reachable(c, s) && m in s.db.models
    ensures s.db.models[m].status == Downloading ==> |ActiveDownloads(s.db, m)| == 1
    ensures s.db.models[m].status != Downloading ==> ActiveDownloads(s.db, m) == {}
  {
    hide RowAccepted, ModelAccepted, JobsOk, IndexOk, SlotsOk, RequestsOk, ModeOk;
    ReachableOk(c, s);
    forall d | d in ActiveDownloads(s.db, m) ensures s.db.models[m].status == Downloading {
      ActiveRowFacts(c, s.db, s.clock, d);
    }
    if s.db.models[m].status == Downloading {
      assert Claimed(s.db, m);
      var d :| Claims(s.db, d, m);
      assert ActiveDownloads(s.db, m) == {d};
    }
  }

  // ---- restart ----

  /** Whatever the program was doing when it died, its own validators accept what it left. */
  lemma RestartAcceptsEveryDurableState(c: Config, s: State)
    requires Reachable(c, s)
    ensures RestoreAccepts(c, s.db)
    ensures forall m :: m in s.db.models ==> ModelAccepted(m, s.db.models[m])
  {
    hide RowAccepted, ModelAccepted, LinkAccepted, JobsOk, IndexOk, SlotsOk, RequestsOk, ModeOk;
    ReachableOk(c, s);
  }

  /** No work is claimed by anyone. */
  predicate Quiescent(db: Db) {
    && (forall d :: d in db.downloads ==> !Active(db.downloads[d].state))
    && (forall m :: m in db.models ==> db.models[m].status != Downloading)
  }

  lemma NoActiveRowMeansQuiescent(c: Config, db: Db, clock: nat)
    requires DbOk(c, db, clock) && forall d :: d in db.downloads ==> !Active(db.downloads[d].state)
    ensures Quiescent(db)
  {
    hide RowAccepted, ModelAccepted, LinkAccepted;
    forall m | m in db.models ensures db.models[m].status != Downloading {
      assert !Claimed(db, m);
    }
  }

  /** The tables a completed restore leaves for the tables it found. */
  predicate RestoreResult(boot: Db, db: Db) {
    && Quiescent(db)
    && db.downloads.Keys == boot.downloads.Keys && db.models.Keys == boot.models.Keys
    && (forall d :: d in boot.downloads ==> RowRestored(boot, db, d))
    && (forall m :: m in boot.models ==> ModelRestored(boot, db, m))
    && (forall m :: m in boot.models && boot.models[m].status == Downloading ==> db.models[m].status == StatusCanceled)
  }

  /** When restore has gone through every row, nothing is active, every interrupted job and its
      model are canceled, and everything else is as it was. */
  lemma RestoreSettlesEverything(c: Config, s: State)
    requires Reachable(c, s) && s.mode.Restoring? && s.mode.todo == []
    ensures RestoreResult(s.mode.boot, s.db)
  {
    hide Inv;
    ReachableOk(c, s);
    RestoreEnds(c, s);
  }

  lemma RestoreEnds(c: Config, s: State)
    requires Inv(c, s) && s.mode.Restoring? && s.mode.todo == []
    ensures RestoreResult(s.mode.boot, s.db)
  {
    hide RowAccepted, ModelAccepted, LinkAccepted, JobsOk, IndexOk, SlotsOk, RequestsOk;
    forall d | d in s.db.downloads ensures !Active(s.db.downloads[d].state) {
      assert RowRestored(s.mode.boot, s.db, d);
    }
    NoActiveRowMeansQuiescent(c, s.db, s.clock);
    forall m | m in s.mode.boot.models && s.mode.boot.models[m].status == Downloading
      ensures s.db.models[m].status == StatusCanceled
    {
      assert ModelRestored(s.mode.boot, s.db, m);
    }
  }

  function RestoreSteps(n: nat): seq<Step> { seq(n, i => RestoreOne(0)) }

  lemma {:induction false} RestoreLoopRuns(c: Config, s: State, n: nat)
    requires Inv(c, s) && s.mode.Restoring? && n <= |s.mode.todo|
    ensures Run(c, s, RestoreSteps(n)).Some?
    ensures var t := Run(c, s, RestoreSteps(n)).value;
      Inv(c, t) && t.mode == Restoring(s.mode.todo[n..], s.mode.boot)
  {
    hide Inv, RestoreOneStep, Apply;
    if n == 0 {
      assert RestoreSteps(0) == [];
    } else {
      RestoreLoopRuns(c, s, n - 1);
      assert RestoreSteps(n)[..n - 1] == RestoreSteps(n - 1);
      var mid := Run(c, s, RestoreSteps(n - 1)).value;
      RestoreOneShape(c, mid, 0);
      RestoreOneKeeps(c, mid, 0);
      RestoreOneApplies(c, mid, 0);
    }
  }

  lemma RestoreOneApplies(c: Config, s: State, dt: nat)
    ensures Apply(c, s, RestoreOne(dt)) == RestoreOneStep(s, dt)
  {
  }

  lemma RunAppend(c: Config, s: State, steps: seq<Step>, step: Step)
    requires Run(c, s, steps).Some?
    ensures Run(c, s, steps + [step]) == Apply(c, Run(c, s, steps).value, step)
  {
    assert (steps + [step])[..|steps|] == steps;
  }

  /** From every crash a restart in which SQLite accepts the writes comes up, whatever the order of the rows. */
  lemma RestartConverges(c: Config, s: State, order: seq<string>)
    requires Reachable(c, s) && s.mode == Down && Lists(order, s.db.downloads.Keys)
    ensures BootStep(c, s, order).Some?
    ensures exists t :: Run(c, BootStep(c, s, order).value, RestoreSteps(|order|) + [Serve]) == Some(t)
              && t.mode == Up && Inv(c, t) && RestoreResult(s.db, t.db)
  {
    hide Inv, RestoreAccepts;
    ReachableOk(c, s);
    RestartAcceptsEveryDurableState(c, s);
    BootKeeps(c, s, order);
    var b := BootStep(c, s, order).value;
    RestoreLoopRuns(c, b, |order|);
    var e := Run(c, b, RestoreSteps(|order|)).value;
    RestoreEnds(c, e);
    RunAppend(c, b, RestoreSteps(|order|), Serve);
    ServeKeeps(c, e);
  }

  // ---- workers ----

  function LiveChildren(s: State): set<nat> { set a | a in s.jobs && s.jobs[a].phase == Alive }

  /** A live child always has its slot, so children never outnumber slots held, nor slots the maximum. */
  lemma ChildrenBoundedByWorkers(c: Config, s: State)
    requires Reachable(c, s)
    ensures LiveChildren(s) <= Holders(s.jobs)
    ensures |LiveChildren(s)| <= s.workers <= c.maxWorkers
  {
    hide DbOk, JobsOk, IndexOk, RequestsOk, ModeOk;
    ReachableOk(c, s);
    SubsetSize(LiveChildren(s), Holders(s.jobs));
  }

  /** Each accepted job takes at most one slot, gives back what it took, finishes once and is
      counted out once; the channel and the wait group never fall below what is owed. */
  lemma WorkersConserved(c: Config, s: State, a: nat)
    requires Reachable(c, s) && a in s.jobs
    ensures var j := s.jobs[a];
      && j.released <= j.acquired <= 1 && j.finishes <= 1 && j.dones <= j.finishes
      && (Holds(j.phase) ==> j.acquired == j.released + 1 && s.workers >= 1)
      && (!Holds(j.phase) ==> j.acquired == j.released)
      && (Counted(j.phase) ==> s.wg >= 1)
      && (j.phase == Gone ==> j.finishes == 1 && j.dones == 1 && j.acquired == j.released && !Active(j.data.state))
  {
    hide DbOk, IndexOk, RequestsOk, ModeOk, OpenOk;
    ReachableOk(c, s);
    assert JobOk(c, s, a);
    if Holds(s.jobs[a].phase) { assert a in Holders(s.jobs); }
    if Counted(s.jobs[a].phase) { assert a in Owners(s.jobs); }
  }

  // ---- children and tables ----

  /** While a child runs, its row is durably running and its model is downloading into its directory. */
  lemma LiveChildIsDurable(c: Config, s: State, a: nat)
    requires Reachable(c, s) && a in s.jobs && s.jobs[a].phase == Alive
    ensures var j := s.jobs[a];
      && j.id in s.db.downloads && s.db.downloads[j.id].state == Running
      && s.db.downloads[j.id].modelId == j.data.modelId && j.data.modelId.Some?
      && j.data.modelId.value in s.db.models
      && s.db.models[j.data.modelId.value].status == Downloading
      && s.db.downloads[j.id].destination == Join(c.root, j.data.modelId.value)
  {
    hide DbOk, IndexOk, SlotsOk, RequestsOk, ModeOk, LogsAccepted;
    ReachableOk(c, s);
    assert JobOk(c, s, a);
    ActiveRowFacts(c, s.db, s.clock, s.jobs[a].id);
  }

  /** The terminal transaction never finds its model gone: when the tables refuse a finish, it is
      a success whose directory another model has registered meanwhile. */
  lemma FinishRefusedOnlyForTakenPath(c: Config, s: State, a: nat, files: Option<nat>, message: Text, now: nat)
    requires Reachable(c, s) && a in s.jobs && s.jobs[a].phase.Finishing? && s.clock <= now
    requires FinalState(s.jobs[a].phase.outcome, files) != Succeeded ==> message != []
    ensures var j := s.jobs[a];
      var data := FinishedRow(j.data, FinalState(j.phase.outcome, files), message, s.clock);
      && j.data.modelId.Some? && j.data.modelId.value in s.db.models
      && (TerminalTx(s.db, j.id, data, FinishPath(data.state, data), if files.Some? then files.value else 0, now).None?
          <==> data.state == Succeeded && PathTakenByOther(s.db.models, j.data.modelId.value, data.destination))
  {
    hide DbOk, IndexOk, SlotsOk, RequestsOk, ModeOk, LogsAccepted, TerminalTx, LedgerOk, BoundedError, Valid;
    ReachableOk(c, s);
    assert JobOk(c, s, a);
    var j := s.jobs[a];
    var data := FinishedRow(j.data, FinalState(j.phase.outcome, files), message, s.clock);
    FinishedColumns(c, s, a, files, message);
    TerminalResult(c, s.db, s.clock, j.id, data, FinishPath(data.state, data), if files.Some? then files.value else 0, now);
  }

  predicate Agree(state: JobState, status: Status) {
    (state == Succeeded <==> status == Ready) && (state == Canceled <==> status == StatusCanceled)
    && (state == Failed <==> status == StatusError)
  }

  /** A finish publishes the row and its model together or neither: the outcome of the job, a success
      only with its files, in both tables, and nothing else in either. */
  lemma FinishPublishesTogether(c: Config, s: State, a: nat, files: Option<nat>, message: Text, dt: nat, commit: bool)
    requires Reachable(c, s) && FinishStep(s, a, files, message, dt, commit).Some?
    ensures a in s.jobs && s.jobs[a].phase.Finishing? && s.jobs[a].data.modelId.Some?
    ensures var t, j := FinishStep(s, a, files, message, dt, commit).value, s.jobs[a];
      && a in t.jobs && !Active(t.jobs[a].data.state)
      && if t.jobs[a].lost then t.db == s.db && t.jobs[a].data.state == Failed && t.terminalErr
         else
           var m := j.data.modelId.value;
           && j.id in t.db.downloads && m in t.db.models && t.terminalErr == s.terminalErr
           && t.db.downloads[j.id].state == t.jobs[a].data.state && Agree(t.jobs[a].data.state, t.db.models[m].status)
           && (t.jobs[a].data.state == Succeeded <==> j.phase.outcome == Succeeded && files.Some?)
           && (t.jobs[a].data.state == Canceled <==> j.phase.outcome == Canceled)
           && (forall k :: k in s.db.downloads && k != j.id ==> k in t.db.downloads && t.db.downloads[k] == s.db.downloads[k])
           && (forall k :: k in s.db.models && k != m ==> k in t.db.models && t.db.models[k] == s.db.models[k])
  {
    hide Inv, FinishStep, TerminalTx, FinishedRow, BoundedError;
    ReachableOk(c, s);
    FinishShape(c, s, a, files, message, dt, commit);
    FinishResult(c, s, a, files, message, s.clock + dt);
  }

  lemma FinishResult(c: Config, s: State, a: nat, files: Option<nat>, message: Text, now: nat)
    requires Inv(c, s) && a in s.jobs && s.jobs[a].phase.Finishing? && s.clock <= now
    requires FinalState(s.jobs[a].phase.outcome, files) != Succeeded ==> message != []
    ensures !s.jobs[a].lost && s.jobs[a].phase.outcome in {Succeeded, Failed, Canceled}
    ensures var j := s.jobs[a];
      var data := FinishedRow(j.data, FinalState(j.phase.outcome, files), message, s.clock);
      var m := j.data.modelId;
      var db := TerminalTx(s.db, j.id, data, FinishPath(data.state, data), if files.Some? then files.value else 0, now);
      && m.Some? && data.state == FinalState(j.phase.outcome, files)
      && (db.Some? ==>
            && j.id in db.value.downloads && m.value in db.value.models
            && db.value.downloads[j.id].state == data.state && Agree(data.state, db.value.models[m.value].status)
            && db.value.downloads == s.db.downloads[j.id := db.value.downloads[j.id]]
            && db.value.models == s.db.models[m.value := db.value.models[m.value]])
  {
    hide DbOk, IndexOk, SlotsOk, RequestsOk, ModeOk, LogsAccepted, TerminalTx, LedgerOk, BoundedError, Valid;
    assert JobOk(c, s, a);
    var j := s.jobs[a];
    var data := FinishedRow(j.data, FinalState(j.phase.outcome, files), message, s.clock);
    FinishedColumns(c, s, a, files, message);
    TerminalResult(c, s.db, s.clock, j.id, data, FinishPath(data.state, data), if files.Some? then files.value else 0, now);
  }

  // ---- a run to success ----

  /** Acceptance, in the tables, when a slot is free. */
  lemma AcceptedTables(c: Config, s: State, r: Request)
    requires AcceptStep(c, s, r, 0).Some? && s.workers < c.maxWorkers
    ensures var t, m := AcceptStep(c, s, r, 0).value, r.modelId;
      && s.mode == Up && !s.closed
      && t == s.(db := t.db, next := t.next, index := t.index, wg := t.wg, workers := t.workers, jobs := t.jobs)
      && t.workers == s.workers + 1 && t.wg == s.wg + 1
      && s.next in t.jobs && t.jobs[s.next].phase == Launching && t.jobs[s.next].id == r.jobId && !t.jobs[s.next].cancelled
      && t.jobs[s.next].data.modelId == Some(m) && t.jobs[s.next].data.destination == Join(c.root, m)
      && m in s.db.models && m in t.db.models && t.db.models.Keys == s.db.models.Keys
      && forall k :: k in s.db.models ==> t.db.models[k].localPath == s.db.models[k].localPath
  {
    hide DestinationInUse, IdentityRefused;
  }

  /** The terminal transaction of a success whose directory nobody else holds. */
  lemma SuccessfulTables(db: Db, id: string, j: Row, size: nat, now: nat)
    requires j.modelId.Some? && j.modelId.value in db.models && j.state == Succeeded
    requires !PathTakenByOther(db.models, j.modelId.value, j.destination)
    ensures var after := TerminalTx(db, id, j, Some(j.destination), size, now);
      && after.Some? && id in after.value.downloads && after.value.downloads[id].state == Succeeded
      && j.modelId.value in after.value.models && after.value.models[j.modelId.value].status == Ready
      && after.value.models[j.modelId.value].localPath == Some(j.destination)
  {
  }

  function ChildSteps(a: nat): seq<Step> { [Launch(a, true), WaitChild(a, true), Release(a), Choose(a)] }

  lemma OwnerSteps(c: Config, s: State, a: nat, files: nat)
    ensures Apply(c, s, Launch(a, true)) == LaunchStep(s, a, true)
    ensures Apply(c, s, WaitChild(a, true)) == WaitChildStep(s, a, true)
    ensures Apply(c, s, Release(a)) == ReleaseStep(s, a) && Apply(c, s, Choose(a)) == ChooseStep(s, a)
    ensures Apply(c, s, Finish(a, Some(files), [], 0, true)) == FinishStep(s, a, Some(files), [], 0, true)
    ensures Apply(c, s, Done(a)) == DoneStep(s, a)
  {
    hide LaunchStep, WaitChildStep, ReleaseStep, ChooseStep, FinishStep, DoneStep;
  }

  /** A launched job whose child exits cleanly reaches the terminal section with its slot back. */
  lemma ChildRuns(c: Config, s: State, a: nat)
    requires At(s, a, Launching) && !s.closed && !s.jobs[a].cancelled
    ensures Run(c, s, ChildSteps(a)).Some?
    ensures var t := Run(c, s, ChildSteps(a)).value;
      && t.mode == Up && t.db == s.db && t.wg == s.wg && t.workers == s.workers - 1
      && a in t.jobs && t.jobs[a].phase == Finishing(Succeeded) && t.jobs[a].data == s.jobs[a].data && t.jobs[a].id == s.jobs[a].id
  {
    hide Apply, Run;
    var s1 := SetJob(s, a, s.jobs[a].(phase := Alive));
    var s2 := SetJob(s1, a, s1.jobs[a].(phase := Waited(true)));
    var s3 := SetJob(FreeSlot(s2), a, Freed(s2.jobs[a], Released(true)));
    OwnerSteps(c, s, a, 0);
    OwnerSteps(c, s1, a, 0);
    OwnerSteps(c, s2, a, 0);
    OwnerSteps(c, s3, a, 0);
    RunFour(c, s, Launch(a, true), s1, WaitChild(a, true), s2, Release(a), s3, Choose(a));
  }

  lemma RunFour(c: Config, s: State, w: Step, s1: State, x: Step, s2: State, y: Step, s3: State, z: Step)
    requires Apply(c, s, w) == Some(s1) && Apply(c, s1, x) == Some(s2) && Apply(c, s2, y) == Some(s3)
    ensures Run(c, s, [w, x, y, z]) == Apply(c, s3, z)
  {
    hide Apply;
    var steps: seq<Step> := [];
    RunAppend(c, s, steps, w);
    steps := steps + [w];
    RunAppend(c, s, steps, x);
    steps := steps + [x];
    RunAppend(c, s, steps, y);
    steps := steps + [y];
    RunAppend(c, s, steps, z);
    assert steps + [z] == [w, x, y, z];
  }

  function SuccessSteps(a: nat, files: nat): seq<Step> {
    ChildSteps(a) + [Finish(a, Some(files), [], 0, true)] + [Done(a)]
  }

  /** Nothing in the protocol stands in the way of a success: a request that is accepted while a
      slot is free can be carried through to a ready model, and leaves slots and counts as they were. */
  lemma AcceptedJobCanSucceed(c: Config, s: State, r: Request, files: nat)
    requires Reachable(c, s) && AcceptStep(c, s, r, 0).Some? && s.workers < c.maxWorkers
    requires !PathTakenByOther(s.db.models, r.modelId, Join(c.root, r.modelId))
    ensures Run(c, AcceptStep(c, s, r, 0).value, SuccessSteps(s.next, files)).Some?
    ensures var t := Run(c, AcceptStep(c, s, r, 0).value, SuccessSteps(s.next, files)).value;
      && r.jobId in t.db.downloads && t.db.downloads[r.jobId].state == Succeeded
      && r.modelId in t.db.models && t.db.models[r.modelId].status == Ready
      && t.db.models[r.modelId].localPath == Some(Join(c.root, r.modelId))
      && t.workers == s.workers && t.wg == s.wg && s.next in t.jobs && t.jobs[s.next].phase == Gone
  {
    hide AcceptStep, FinishStep, Reachable, Run, ChildSteps, Join, Apply, PathTakenByOther;
    AcceptedTables(c, s, r);
    var a, s0 := s.next, AcceptStep(c, s, r, 0).value;
    ChildRuns(c, s0, a);
    var s4 := Run(c, s0, ChildSteps(a)).value;
    SamePaths(s.db.models, s4.db.models, r.modelId, Join(c.root, r.modelId));
    FinishSucceeds(s4, a, files);
    OwnerSteps(c, s4, a, files);
    OwnerSteps(c, FinishStep(s4, a, Some(files), [], 0, true).value, a, files);
    RunAppend(c, s0, ChildSteps(a), Finish(a, Some(files), [], 0, true));
    RunAppend(c, s0, ChildSteps(a) + [Finish(a, Some(files), [], 0, true)], Done(a));
  }

  lemma SamePaths(before: map<string, Model>, after: map<string, Model>, id: string, path: Path)
    requires before.Keys == after.Keys && forall k :: k in before ==> after[k].localPath == before[k].localPath
    requires !PathTakenByOther(before, id, path)
    ensures !PathTakenByOther(after, id, path)
  {
  }

  lemma FinishSucceeds(s: State, a: nat, files: nat)
    requires s.mode == Up && a in s.jobs && s.jobs[a].phase == Finishing(Succeeded) && s.jobs[a].data.modelId.Some?
    requires s.jobs[a].data.modelId.value in s.db.models
    requires !PathTakenByOther(s.db.models, s.jobs[a].data.modelId.value, s.jobs[a].data.destination)
    ensures FinishStep(s, a, Some(files), [], 0, true).Some?
    ensures var j := s.jobs[a];
      TerminalTx(s.db, j.id, FinishedRow(j.data, Succeeded, [], s.clock), Some(j.data.destination), files, s.clock + 0).Some?
    ensures var t, j := FinishStep(s, a, Some(files), [], 0, true).value, s.jobs[a];
      && t.mode == Up && t.workers == s.workers && t.wg == s.wg && a in t.jobs && t.jobs[a].phase == Finished
      && j.id in t.db.downloads && t.db.downloads[j.id].state == Succeeded
      && j.data.modelId.value in t.db.models && t.db.models[j.data.modelId.value].status == Ready
      && t.db.models[j.data.modelId.value].localPath == Some(j.data.destination)
  {
    hide TerminalTx, PathTakenByOther;
    var j := s.jobs[a];
    var data := FinishedRow(j.data, Succeeded, [], s.clock);
    SuccessfulTables(s.db, j.id, data, files, s.clock + 0);
  }

  // ---- memory and tables ----

  /** While no terminal write has been refused, the job every id stands for is in the state of its row;
      and a job that is over is its row in every column, but for a link the row has lost. */
  lemma MemoryRefinesTables(c: Config, s: State, id: string)
    requires Reachable(c, s) && s.mode == Up
    ensures id in s.db.downloads <==> id in s.index
    ensures id in s.index ==> s.index[id] in s.jobs && s.jobs[s.index[id]].id == id
    ensures id in s.index && !s.terminalErr ==> s.jobs[s.index[id]].data.state == s.db.downloads[id].state
    ensures id in s.index && s.jobs[s.index[id]].data.state != s.db.downloads[id].state
            ==> s.jobs[s.index[id]].data.state == Failed && Active(s.db.downloads[id].state)
    ensures id in s.index && s.jobs[s.index[id]].phase in {Finished, Gone, Archived} && !s.jobs[s.index[id]].lost ==>
              var row, data := s.db.downloads[id], s.jobs[s.index[id]].data;
              && row.(modelId := None, created := 0, updated := 0) == data.(modelId := None, created := 0, updated := 0)
              && (row.modelId.None? || row.modelId == data.modelId)
  {
    hide DbOk, JobsOk, SlotsOk, RequestsOk;
    ReachableOk(c, s);
    if id in s.index { assert EntryOk(s, id); }
  }

  /** A restore that has gone through every row has loaded every row. */
  lemma RestoredJobs(c: Config, s: State)
    requires Inv(c, s) && s.mode.Restoring? && s.mode.todo == []
    ensures s.index.Keys == s.db.downloads.Keys
    ensures forall id :: id in s.index ==> s.index[id] in s.jobs && Recorded(s.db.downloads[id], s.jobs[s.index[id]].data)
  {
    hide DbOk, JobsOk, SlotsOk, RequestsOk;
    forall id | id in s.index
      ensures id in s.db.downloads && s.index[id] in s.jobs && Recorded(s.db.downloads[id], s.jobs[s.index[id]].data)
    {
      assert EntryOk(s, id);
    }
  }

  lemma CountedOutIsOver(c: Config, s: State, a: nat)
    requires JobsOk(c, s) && a in s.jobs && !Counted(s.jobs[a].phase)
    ensures !Active(s.jobs[a].data.state) && !Holds(s.jobs[a].phase)
  {
    hide OpenOk, LedgerOk;
    assert JobOk(c, s, a);
  }

  /** A nil Shutdown: closed, everything counted out, no terminal error.  Then every job ever
      accepted is terminal and durably so, no slot is held and no child is alive. */
  lemma ShutdownDrains(c: Config, s: State)
    requires Reachable(c, s) && s.mode == Up && s.closed && s.wg == 0
    ensures s.workers == 0 && LiveChildren(s) == {}
    ensures forall a :: a in s.jobs ==> !Active(s.jobs[a].data.state)
    ensures !s.terminalErr ==> Quiescent(s.db)
    ensures !s.terminalErr ==> forall id :: id in s.index ==>
              id in s.db.downloads && s.index[id] in s.jobs
              && s.db.downloads[id].state == s.jobs[s.index[id]].data.state
  {
    hide DbOk, JobsOk, RequestsOk, EntryOk;
    ReachableOk(c, s);
    assert Owners(s.jobs) == {};
    forall a | a in s.jobs ensures !Active(s.jobs[a].data.state) && !Holds(s.jobs[a].phase) {
      assert a !in Owners(s.jobs);
      CountedOutIsOver(c, s, a);
    }
    assert Holders(s.jobs) == {};
    if !s.terminalErr {
      forall d | d in s.index
        ensures d in s.db.downloads && s.index[d] in s.jobs && s.db.downloads[d].state == s.jobs[s.index[d]].data.state
      {
        MemoryRefinesTables(c, s, d);
      }
      NoActiveRowMeansQuiescent(c, s.db, s.clock);
    }
  }

  // ---- audit identity ----

  lemma WritersLeaveHistory(c: Config, s: State, step: Step, id: string)
    requires JobsOk(c, s) && (step.StartQueued? || step.PersistLog? || step.Finish?) && Apply(c, s, step).Some?
    requires id in s.db.downloads && !Active(s.db.downloads[id].state)
    ensures var t := Apply(c, s, step).value; id in t.db.downloads && t.db.downloads[id] == s.db.downloads[id]
  {
    hide JobsOk, FinishStep, StartQueuedStep, PersistLogStep;
    if step.a in s.jobs { WriterRowIsActive(c, s, step.a); }
    WriterWritesOwnRow(s, step.a, if step.Finish? then step.files else None, if step.Finish? then step.message else [],
                       if step.PersistLog? then 0 else step.dt, if step.PersistLog? then true else step.commit, id);
  }

  /** No writer touches the row of another job. */
  lemma WriterWritesOwnRow(s: State, a: nat, files: Option<nat>, message: Text, dt: nat, commit: bool, id: string)
    requires id in s.db.downloads && (a in s.jobs && Open(s.jobs[a].phase) ==> s.jobs[a].id != id)
    ensures FinishStep(s, a, files, message, dt, commit).Some? ==>
              var t := FinishStep(s, a, files, message, dt, commit).value; id in t.db.downloads && t.db.downloads[id] == s.db.downloads[id]
    ensures StartQueuedStep(s, a, dt, commit).Some? ==>
              var t := StartQueuedStep(s, a, dt, commit).value; id in t.db.downloads && t.db.downloads[id] == s.db.downloads[id]
    ensures PersistLogStep(s, a).Some? ==>
              var t := PersistLogStep(s, a).value; id in t.db.downloads && t.db.downloads[id] == s.db.downloads[id]
  {
    hide BoundedError, FinalState;
  }

  lemma AcceptLeavesHistory(c: Config, s: State, r: Request, dt: nat, id: string)
    requires AcceptStep(c, s, r, dt).Some?
    requires id in s.db.downloads && !Active(s.db.downloads[id].state)
    ensures var t := AcceptStep(c, s, r, dt).value;
      id in t.db.downloads
      && (t.db.downloads[id] == s.db.downloads[id]
          || (s.db.downloads[id].state in {Failed, Canceled} && r.retry && r.jobId == id
              && s.db.downloads[id].modelId == Some(r.modelId) && t.db.downloads[id].modelId == Some(r.modelId)))
  {
    hide DestinationInUse, IdentityRefused;
  }

  /** A terminal row is history.  A success never changes; a failed or canceled row changes only
      when it is retried for the model it is linked to. */
  lemma TerminalRowsAreHistory(c: Config, s: State, step: Step, id: string)
    requires Reachable(c, s) && Apply(c, s, step).Some?
    requires id in s.db.downloads && !Active(s.db.downloads[id].state)
    ensures id in Apply(c, s, step).value.db.downloads
    ensures var was, now := s.db.downloads[id], Apply(c, s, step).value.db.downloads[id];
      Frozen(was, now)
      || (was.state in {Failed, Canceled} && step.Accept? && step.request.retry && step.request.jobId == id
          && was.modelId == Some(step.request.modelId) && now.modelId == Some(step.request.modelId))
  {
    hide Inv, Apply;
    ReachableOk(c, s);
    HistoryStep(c, s, step, id);
  }

  lemma HistoryStep(c: Config, s: State, step: Step, id: string)
    requires Inv(c, s) && Apply(c, s, step).Some?
    requires id in s.db.downloads && !Active(s.db.downloads[id].state)
    ensures var t := Apply(c, s, step).value;
      id in t.db.downloads
      && (Frozen(s.db.downloads[id], t.db.downloads[id])
          || (s.db.downloads[id].state in {Failed, Canceled}
              && step.Accept? && step.request.retry && step.request.jobId == id
              && s.db.downloads[id].modelId == Some(step.request.modelId)
              && t.db.downloads[id].modelId == Some(step.request.modelId)))
  {
    hide Inv, AcceptStep, FinishStep, StartQueuedStep, PersistLogStep, RestoreOneStep;
    hide NormalizeRepository, NormalizeRevision, RestoreAccepts;
    if step.StartQueued? || step.PersistLog? || step.Finish? {
      InvJobs(c, s);
      WritersLeaveHistory(c, s, step, id);
    } else if step.Accept? {
      AcceptLeavesHistory(c, s, step.request, step.dt, id);
    } else if step.RestoreOne? {
      RestoreLeavesHistory(c, s, step.dt, id);
    }
  }

  lemma InvJobs(c: Config, s: State)
    requires Inv(c, s)
    ensures JobsOk(c, s)
  {
  }

  lemma RestoreLeavesHistory(c: Config, s: State, dt: nat, id: string)
    requires Inv(c, s) && RestoreOneStep(s, dt).Some?
    requires id in s.db.downloads && !Active(s.db.downloads[id].state)
    ensures var t := RestoreOneStep(s, dt).value; id in t.db.downloads && t.db.downloads[id] == s.db.downloads[id]
  {
    hide Inv, RestoreOneStep;
    RestoringNeeded(s, dt);
    RestoreOneShape(c, s, dt);
  }

  lemma RestoringNeeded(s: State, dt: nat)
    requires RestoreOneStep(s, dt).Some?
    ensures s.mode.Restoring? && s.mode.todo != []
  {
  }

  lemma WriterRowIsActive(c: Config, s: State, a: nat)
    requires JobsOk(c, s) && a in s.jobs
    ensures Open(s.jobs[a].phase) ==>
              s.jobs[a].id in s.db.downloads && Active(s.db.downloads[s.jobs[a].id].state)
  {
    hide LogsAccepted;
    assert JobOk(c, s, a);
  }

  /** Over any further run a success keeps its state, coordinates, stamps and logs. */
  lemma SuccessIsForever(c: Config, s: State, steps: seq<Step>, id: string)
    requires Reachable(c, s) && Run(c, s, steps).Some?
    requires id in s.db.downloads && s.db.downloads[id].state == Succeeded
    ensures id in Run(c, s, steps).value.db.downloads
    ensures Frozen(s.db.downloads[id], Run(c, s, steps).value.db.downloads[id])
  {
    hide Inv, Apply;
    ReachableOk(c, s);
    SuccessOverRun(c, s, steps, id);
  }

  lemma {:induction false} SuccessOverRun(c: Config, s: State, steps: seq<Step>, id: string)
    requires Inv(c, s) && Run(c, s, steps).Some?
    requires id in s.db.downloads && s.db.downloads[id].state == Succeeded
    ensures id in Run(c, s, steps).value.db.downloads
    ensures Frozen(s.db.downloads[id], Run(c, s, steps).value.db.downloads[id])
  {
    hide Inv, Apply;
    if steps != [] {
      SuccessOverRun(c, s, steps[..|steps| - 1], id);
      RunKeeps(c, s, steps[..|steps| - 1]);
      HistoryStep(c, Run(c, s, steps[..|steps| - 1]).value, steps[|steps| - 1], id);
    }
  }

  /** Two ids at work never share a directory in the tables. */
  lemma ActiveRowsInDistinctDirectories(c: Config, db: Db, clock: nat, d: string, e: string)
    requires DbOk(c, db, clock) && d in db.downloads && e in db.downloads && d != e
    requires Active(db.downloads[d].state) && Active(db.downloads[e].state)
    ensures db.downloads[d].destination != db.downloads[e].destination
  {
    hide RowsOk, ModelsOk;
    ActiveRowFacts(c, db, clock, d);
    ActiveRowFacts(c, db, clock, e);
    var m, n := db.downloads[d].modelId.value, db.downloads[e].modelId.value;
    assert m != n;
    if db.downloads[d].destination == db.downloads[e].destination { JoinInjective(c.root, m, n); }
  }

  /** Pending or running jobs, in memory and in the tables, are all in different directories. */
  lemma ActiveDestinationsDistinct(c: Config, s: State, d: string, e: string)
    requires Reachable(c, s) && d != e && d in s.db.downloads && e in s.db.downloads
    ensures Active(s.db.downloads[d].state) && Active(s.db.downloads[e].state)
            ==> s.db.downloads[d].destination != s.db.downloads[e].destination
    ensures d in s.index && e in s.index ==> s.index[d] in s.jobs && s.index[e] in s.jobs
    ensures d in s.index && e in s.index
            && Active(s.jobs[s.index[d]].data.state) && Active(s.jobs[s.index[e]].data.state)
            ==> s.jobs[s.index[d]].data.destination != s.jobs[s.index[e]].data.destination
  {
    hide DbOk, JobsOk, SlotsOk, RequestsOk, ModeOk;
    ReachableOk(c, s);
    if d in s.index && e in s.index {
      assert EntryOk(s, d) && EntryOk(s, e);
      WorkingJobMatches(c, s, s.index[d]);
      WorkingJobMatches(c, s, s.index[e]);
    }
    if Active(s.db.downloads[d].state) && Active(s.db.downloads[e].state) {
      ActiveRowsInDistinctDirectories(c, s.db, s.clock, d, e);
    }
  }

  lemma WorkingJobMatches(c: Config, s: State, a: nat)
    requires JobsOk(c, s) && a in s.jobs
    ensures Active(s.jobs[a].data.state) ==>
              s.jobs[a].id in s.db.downloads && s.db.downloads[s.jobs[a].id].state == s.jobs[a].data.state
              && s.db.downloads[s.jobs[a].id].destination == s.jobs[a].data.destination
  {
    hide LogsAccepted, DataOk;
    assert JobOk(c, s, a);
  }
}

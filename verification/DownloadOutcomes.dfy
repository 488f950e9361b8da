/** How a job comes to its end, what its end writes, and what its log holds on the way. */
module DownloadOutcomes {
  import opened Wrappers
  import opened Utf8
  import opened LogWindow
  import opened LineStream
  import opened Database
  import opened Restart
  import opened DownloadTransactions
  import opened DownloadProtocol
  import opened DownloadInvariant
  import opened DownloadSteps
  import opened DownloadTheorems
  import opened DownloadDrain
  import opened DownloadCancellation

  // ---- what an end writes ----

  /** The model after the end of its download: ready at its directory with the size found there, or
      canceled, or in error, its path and size as they were. */
  function Followed(model: Model, state: JobState, destination: Path, files: Option<nat>, now: nat): Model {
    match state
    case Succeeded => model.(status := Ready, localPath := Some(destination), size := if files.Some? then files.value else 0, updated := now)
    case Canceled => model.(status := StatusCanceled, updated := now)
    case _ => model.(status := StatusError, updated := now)
  }

  /** A finish, in columns.  It is lost exactly when the store refuses it or when another model holds
      the directory of a success; otherwise the row takes the outcome, the bounded message and the
      clock of the section, keeps everything else the job carries, and the model follows. */
  lemma FinishWrites(c: Config, s: State, a: nat, files: Option<nat>, message: Text, dt: nat, commit: bool)
    requires Reachable(c, s) && Apply(c, s, Finish(a, files, message, dt, commit)).Some?
    ensures a in s.jobs && s.jobs[a].phase.Finishing? && s.jobs[a].data.modelId.Some? && s.jobs[a].data.modelId.value in s.db.models
    ensures s.jobs[a].id in s.db.downloads
    ensures var j, t := s.jobs[a], Apply(c, s, Finish(a, files, message, dt, commit)).value;
      var m, now := j.data.modelId.value, s.clock + dt;
      var state := if j.phase.outcome == Succeeded && files.None? then JobState.Failed else j.phase.outcome;
      var data := j.data.(state := state, error := if state == Succeeded then [] else BoundedError(message), finished := Some(s.clock));
      var done := j.(phase := Finished, cancelable := false, finishes := j.finishes + 1);
      if !commit || (state == Succeeded && exists k :: k in s.db.models && k != m && s.db.models[k].localPath == Some(j.data.destination))
      then
        t == s.(clock := now, terminalErr := true, jobs := s.jobs[a := done.(data := data.(state := JobState.Failed), lost := true)])
      else
        t == s.(clock := now, jobs := s.jobs[a := done.(data := data)],
                db := Db(s.db.models[m := Followed(s.db.models[m], state, j.data.destination, files, now)],
                         s.db.downloads[j.id := data.(created := s.db.downloads[j.id].created, updated := now)]))
    ensures Valid(message) && |message| <= 65536 ==> BoundedError(message) == message
  {
    hide Inv, FinishStep, BoundedError, Valid, Followed, Apply, Reachable, PathTakenByOther;
    ReachableOk(c, s);
    FinishApplies(c, s, Finish(a, files, message, dt, commit));
    FinishTables(c, s, a, files, message, dt, commit);
    TakenMeans(s.db.models, s.jobs[a].data.modelId.value, s.jobs[a].data.destination);
    BoundedErrorAccepted(message);
  }

  lemma FinishTables(c: Config, s: State, a: nat, files: Option<nat>, message: Text, dt: nat, commit: bool)
    requires Inv(c, s) && FinishStep(s, a, files, message, dt, commit).Some?
    ensures a in s.jobs && s.jobs[a].phase.Finishing? && s.jobs[a].data.modelId.Some? && s.jobs[a].data.modelId.value in s.db.models
    ensures s.jobs[a].id in s.db.downloads
    ensures var j := s.jobs[a];
      var state, m, now := FinalState(j.phase.outcome, files), j.data.modelId.value, s.clock + dt;
      var data := j.data.(state := state, error := if state == Succeeded then [] else BoundedError(message), finished := Some(s.clock));
      FinishStep(s, a, files, message, dt, commit).value ==
        if !commit || (state == Succeeded && PathTakenByOther(s.db.models, m, j.data.destination))
        then SetJob(s, a, Refused(s, a, data)).(terminalErr := true, clock := now)
        else SetJob(s, a, Published(s, a, data)).(clock := now,
               db := Db(s.db.models[m := Followed(s.db.models[m], state, j.data.destination, files, now)],
                        s.db.downloads[j.id := data.(created := s.db.downloads[j.id].created, updated := now)]))
  {
    hide Inv, FinishStep, TerminalTx, FinishedRow, BoundedError, Followed, PathTakenByOther, FinalState, FinishPath, Published, Refused, SetJob;
    FinishShape(c, s, a, files, message, dt, commit);
    FinishColumns(c, s, a, files, message, s.clock + dt);
  }

  lemma TakenMeans(models: map<string, Model>, m: string, path: Path)
    ensures PathTakenByOther(models, m, path) <==> exists k :: k in models && k != m && models[k].localPath == Some(path)
  {
  }

  lemma FinishColumns(c: Config, s: State, a: nat, files: Option<nat>, message: Text, now: nat)
    requires Inv(c, s) && a in s.jobs && s.jobs[a].phase.Finishing? && s.clock <= now
    requires FinalState(s.jobs[a].phase.outcome, files) != Succeeded ==> message != []
    ensures s.jobs[a].id in s.db.downloads && s.jobs[a].data.modelId.Some? && s.jobs[a].data.modelId.value in s.db.models
    ensures !s.jobs[a].lost && s.jobs[a].phase.outcome in {Succeeded, JobState.Failed, Canceled} && s.jobs[a].data.error == []
    ensures var j := s.jobs[a];
      var state, m := FinalState(j.phase.outcome, files), j.data.modelId.value;
      var data := FinishedRow(j.data, state, message, s.clock);
      var size := if files.Some? then files.value else 0;
      && data == j.data.(state := state, error := if state == Succeeded then [] else BoundedError(message), finished := Some(s.clock))
      && TerminalTx(s.db, j.id, data, FinishPath(state, data), size, now) ==
           if state == Succeeded && PathTakenByOther(s.db.models, m, j.data.destination) then None
           else Some(Db(s.db.models[m := Followed(s.db.models[m], state, j.data.destination, files, now)],
                        s.db.downloads[j.id := data.(created := s.db.downloads[j.id].created, updated := now)]))
  {
    hide DbOk, IndexOk, SlotsOk, RequestsOk, ModeOk, LogsAccepted, TerminalTx, LedgerOk, BoundedError, Valid;
    assert JobOk(c, s, a);
    var j := s.jobs[a];
    var data := FinishedRow(j.data, FinalState(j.phase.outcome, files), message, s.clock);
    FinishedColumns(c, s, a, files, message);
    TerminalResult(c, s.db, s.clock, j.id, data, FinishPath(data.state, data), if files.Some? then files.value else 0, now);
  }

  // ---- what leads to an end ----

  /** The ways a job comes to its terminal section, and the outcome of each. */
  predicate Caused(s: State, step: Step, a: nat, outcome: JobState) {
    a in s.jobs
    && var j := s.jobs[a];
       var done := s.closed || j.cancelled;
    && (outcome == Succeeded <==> step == Choose(a) && j.phase == Released(true) && !done)
    && (outcome == Canceled <==> done && (step == QueuedCancel(a) || step == CheckContext(a) || step == Choose(a)))
    && (outcome == JobState.Failed <==>
          || step == Launch(a, false)
          || (step.StartQueued? && step.a == a && !step.commit)
          || (step == Choose(a) && j.phase == Released(false) && !done))
  }

  /** Nothing else brings a job to an end, and each way has the outcome it should. */
  lemma OutcomeHasCause(c: Config, s: State, step: Step, t: State, a: nat)
    requires Apply(c, s, step) == Some(t) && a in s.jobs && a in t.jobs && a < s.next
    requires t.jobs[a].phase.Finishing? && !s.jobs[a].phase.Finishing?
    ensures Caused(s, step, a, t.jobs[a].phase.outcome)
  {
    hide Apply, Owns, Caused;
    NotACrash(c, s, step, t, a);
    if !Owns(step, a) {
      OthersLeaveJob(c, s, step, t, a);
    } else if step.QueuedCancel? || step.StartQueued? || step.CheckContext? {
      WaiterOutcome(c, s, step, t, a);
    } else {
      RunnerOutcome(c, s, step, t, a);
    }
  }

  lemma NotACrash(c: Config, s: State, step: Step, t: State, a: nat)
    requires Apply(c, s, step) == Some(t) && a in t.jobs
    ensures step != Crash
  {
  }

  lemma WaiterOutcome(c: Config, s: State, step: Step, t: State, a: nat)
    requires Apply(c, s, step) == Some(t) && a in s.jobs && a in t.jobs && Owns(step, a)
    requires step.QueuedCancel? || step.StartQueued? || step.CheckContext?
    requires t.jobs[a].phase.Finishing? && !s.jobs[a].phase.Finishing?
    ensures Caused(s, step, a, t.jobs[a].phase.outcome)
  {
    hide UpsertRow, AcceptStep, FinishStep, RestoreOneStep, BootStep, LoggedRow, LaunchStep, ChooseStep, ReleaseStep, WaitChildStep;
  }

  lemma RunnerOutcome(c: Config, s: State, step: Step, t: State, a: nat)
    requires Apply(c, s, step) == Some(t) && a in s.jobs && a in t.jobs && Owns(step, a)
    requires !step.QueuedCancel? && !step.StartQueued? && !step.CheckContext?
    requires t.jobs[a].phase.Finishing? && !s.jobs[a].phase.Finishing?
    ensures Caused(s, step, a, t.jobs[a].phase.outcome)
  {
    hide Apply, Owns, Caused;
    if step.Finish? {
      OwnsFinish(step, a);
      FinishApplies(c, s, step);
      FinishShape(c, s, a, step.files, step.message, step.dt, step.commit);
    } else if step.Launch? || step.Choose? {
      LaunchOrChoose(c, s, step, t, a);
    } else {
      NoOutcome(c, s, step, t, a);
    }
  }

  lemma LaunchOrChoose(c: Config, s: State, step: Step, t: State, a: nat)
    requires Apply(c, s, step) == Some(t) && a in s.jobs && a in t.jobs && Owns(step, a) && (step.Launch? || step.Choose?)
    requires t.jobs[a].phase.Finishing? && !s.jobs[a].phase.Finishing?
    ensures Caused(s, step, a, t.jobs[a].phase.outcome)
  {
  }

  lemma NoOutcome(c: Config, s: State, step: Step, t: State, a: nat)
    requires Apply(c, s, step) == Some(t) && a in s.jobs && a in t.jobs && Owns(step, a)
    requires !(step.QueuedCancel? || step.StartQueued? || step.CheckContext? || step.Launch? || step.Choose? || step.Finish?)
    ensures t.jobs[a].phase.Finishing? ==> s.jobs[a].phase.Finishing?
  {
    match step
    case Acquire(_) => case AppendLog(_, _, _) => case PersistLog(_) => case WaitChild(_, _) => case Release(_) => case Done(_) =>
    case _ =>
  }

  /** A step of another goroutine leaves the job as it was, but for its context. */
  lemma OthersLeaveJob(c: Config, s: State, step: Step, t: State, a: nat)
    requires a in s.jobs && a < s.next && !Owns(step, a) && step != Crash && Apply(c, s, step) == Some(t)
    ensures Untouched(s, t, a)
  {
    hide Apply, Untouched, Owns;
    OwnsFinish(step, a);
    if step.Accept? || step.RestoreOne? { AdditionsLeaveJob(c, s, step, t, a); }
    else if step.Finish? { FinishLeavesJob(c, s, step, t, a); }
    else { PlainLeavesJob(c, s, step, t, a); }
  }

  lemma OwnsFinish(step: Step, a: nat)
    ensures step.Finish? ==> (Owns(step, a) <==> step.a == a)
  {
  }

  // ---- a success is earned ----

  /** From here on the child is known to have exited cleanly. */
  predicate Earned(j: Job) {
    j.phase == Waited(true) || j.phase == Released(true) || j.phase == Finishing(Succeeded) || j.data.state == Succeeded
  }

  lemma StepEarns(c: Config, s: State, step: Step, t: State, a: nat)
    requires Inv(c, s) && a in s.jobs && a in t.jobs && Apply(c, s, step) == Some(t)
    ensures Earned(t.jobs[a]) && !Earned(s.jobs[a]) ==> step == WaitChild(a, true)
    ensures t.jobs[a].data.state == Succeeded && s.jobs[a].data.state != Succeeded ==>
              step.Finish? && step.a == a && step.files.Some? && step.commit
    ensures t.jobs[a].phase == Alive && s.jobs[a].phase != Alive ==> step == Launch(a, true) && !(s.closed || s.jobs[a].cancelled)
  {
    hide Inv, Apply, Owns, Earned;
    NotACrash(c, s, step, t, a);
    JobBelowInv(c, s, a);
    if !Owns(step, a) {
      OthersLeaveJob(c, s, step, t, a);
      UntouchedEarned(s, t, a);
    } else if step.Finish? {
      OwnsFinish(step, a);
      FinishApplies(c, s, step);
      FinishTables(c, s, a, step.files, step.message, step.dt, step.commit);
      FinishedEarned(c, s, a, step.files, step.message, step.dt, step.commit);
    } else {
      OwnStepEarns(c, s, step, t, a);
    }
  }

  lemma JobBelowInv(c: Config, s: State, a: nat)
    requires Inv(c, s) && a in s.jobs
    ensures a < s.next
  {
    hide DbOk, IndexOk, SlotsOk, RequestsOk, ModeOk, LedgerOk, OpenOk, StateFits;
    assert JobOk(c, s, a);
  }

  lemma UntouchedEarned(s: State, t: State, a: nat)
    requires Untouched(s, t, a)
    ensures Earned(t.jobs[a]) == Earned(s.jobs[a]) && t.jobs[a].phase == s.jobs[a].phase && t.jobs[a].data == s.jobs[a].data
  {
  }

  lemma FinishedEarned(c: Config, s: State, a: nat, files: Option<nat>, message: Text, dt: nat, commit: bool)
    requires Inv(c, s) && FinishStep(s, a, files, message, dt, commit).Some?
    ensures a in s.jobs && a in FinishStep(s, a, files, message, dt, commit).value.jobs
    ensures var t := FinishStep(s, a, files, message, dt, commit).value;
      && (Earned(t.jobs[a]) ==> Earned(s.jobs[a])) && t.jobs[a].phase == Finished
      && (t.jobs[a].data.state == Succeeded ==> files.Some? && commit)
  {
    hide Inv, FinishStep, BoundedError, Followed, PathTakenByOther;
    FinishTables(c, s, a, files, message, dt, commit);
  }

  lemma OwnStepEarns(c: Config, s: State, step: Step, t: State, a: nat)
    requires a in s.jobs && Owns(step, a) && !step.Finish? && Apply(c, s, step) == Some(t)
    ensures a in t.jobs
    ensures Earned(t.jobs[a]) && !Earned(s.jobs[a]) ==> step == WaitChild(a, true)
    ensures t.jobs[a].data.state == Succeeded ==> s.jobs[a].data.state == Succeeded
    ensures t.jobs[a].phase == Alive && s.jobs[a].phase != Alive ==> step == Launch(a, true) && !(s.closed || s.jobs[a].cancelled)
  {
    hide Apply, Owns;
    if step.QueuedCancel? || step.StartQueued? || step.CheckContext? || step.Acquire? {
      WaiterStepEarns(c, s, step, t, a);
    } else {
      RunnerStepEarns(c, s, step, t, a);
    }
  }

  lemma WaiterStepEarns(c: Config, s: State, step: Step, t: State, a: nat)
    requires a in s.jobs && Owns(step, a) && Apply(c, s, step) == Some(t)
    requires step.QueuedCancel? || step.StartQueued? || step.CheckContext? || step.Acquire?
    ensures a in t.jobs && (Earned(t.jobs[a]) ==> Earned(s.jobs[a]))
    ensures t.jobs[a].data.state == Succeeded ==> s.jobs[a].data.state == Succeeded
    ensures t.jobs[a].phase != Alive
    ensures t.jobs[a].data.logs == s.jobs[a].data.logs && t.jobs[a].data.progress == s.jobs[a].data.progress
  {
    hide UpsertRow;
    match step
    case QueuedCancel(_) =>
    case StartQueued(_, dt, commit) => StartEarns(s, a, dt, commit);
    case CheckContext(_) =>
    case Acquire(_) =>
  }

  lemma StartEarns(s: State, a: nat, dt: nat, commit: bool)
    requires a in s.jobs && StartQueuedStep(s, a, dt, commit).Some?
    ensures var t := StartQueuedStep(s, a, dt, commit).value;
      && a in t.jobs && t.jobs[a].phase in {Checked, Finishing(JobState.Failed)}
      && (t.jobs[a].data.state == s.jobs[a].data.state || t.jobs[a].data.state == Running)
      && t.jobs[a].data.logs == s.jobs[a].data.logs && t.jobs[a].data.progress == s.jobs[a].data.progress
  {
    hide UpsertRow;
  }

  lemma RunnerStepEarns(c: Config, s: State, step: Step, t: State, a: nat)
    requires a in s.jobs && Owns(step, a) && !step.Finish? && Apply(c, s, step) == Some(t)
    requires !step.QueuedCancel? && !step.StartQueued? && !step.CheckContext? && !step.Acquire?
    ensures a in t.jobs
    ensures Earned(t.jobs[a]) && !Earned(s.jobs[a]) ==> step == WaitChild(a, true)
    ensures t.jobs[a].data.state == s.jobs[a].data.state && (step.AppendLog? || t.jobs[a].data == s.jobs[a].data)
    ensures t.jobs[a].phase == Alive && s.jobs[a].phase != Alive ==> step == Launch(a, true) && !(s.closed || s.jobs[a].cancelled)
  {
    hide UpsertRow, Window;
    match step
    case Launch(_, _) => case AppendLog(_, _, _) => case PersistLog(_) => case WaitChild(_, _) => case Release(_) => case Choose(_) =>
    case Done(_) =>
    case _ =>
  }

  /** A job that succeeds launched its child after it was accepted, saw it exit cleanly, and found its
      files there: no run makes a success out of anything else. */
  lemma {:induction false} SuccessIsEarned(c: Config, s: State, steps: seq<Step>, a: nat)
    requires Inv(c, s) && a in s.jobs && !Earned(s.jobs[a]) && s.jobs[a].phase != Alive
    requires Run(c, s, steps).Some? && NoCrash(steps) && a in Run(c, s, steps).value.jobs
    ensures Earned(Run(c, s, steps).value.jobs[a]) ==> WaitChild(a, true) in steps
    ensures Run(c, s, steps).value.jobs[a].phase == Alive || Earned(Run(c, s, steps).value.jobs[a]) ==> Launch(a, true) in steps
    ensures Run(c, s, steps).value.jobs[a].data.state == Succeeded ==>
              exists i :: 0 <= i < |steps| && steps[i].Finish? && steps[i].a == a && steps[i].files.Some? && steps[i].commit
  {
    hide Inv, Apply, Earned;
    if steps != [] {
      var k := |steps| - 1;
      var before, t := Run(c, s, steps[..k]).value, Run(c, s, steps).value;
      JobStays(c, s, steps[..k], a);
      SuccessIsEarned(c, s, steps[..k], a);
      RunKeeps(c, s, steps[..k]);
      StepEarns(c, before, steps[k], t, a);
      assert forall x :: x in steps[..k] ==> x in steps;
      if steps[k] == WaitChild(a, true) { WaitNeedsAlive(c, before, a); }
      if before.jobs[a].data.state == Succeeded {
        var i :| 0 <= i < k && steps[..k][i].Finish? && steps[..k][i].a == a && steps[..k][i].files.Some? && steps[..k][i].commit;
        assert steps[i] == steps[..k][i];
      }
      SucceededIsEarned(before.jobs[a]);
      SucceededIsEarned(s.jobs[a]);
    } else {
      SucceededIsEarned(s.jobs[a]);
    }
  }

  lemma SucceededIsEarned(j: Job)
    ensures j.data.state == Succeeded ==> Earned(j)
  {
  }

  lemma WaitNeedsAlive(c: Config, s: State, a: nat)
    requires Apply(c, s, WaitChild(a, true)).Some?
    ensures a in s.jobs && s.jobs[a].phase == Alive
  {
  }

  lemma {:induction false} JobStays(c: Config, s: State, steps: seq<Step>, a: nat)
    requires Inv(c, s) && a in s.jobs && Run(c, s, steps).Some? && NoCrash(steps)
    ensures a in Run(c, s, steps).value.jobs
  {
    hide Inv, Apply;
    if steps != [] {
      var k := |steps| - 1;
      JobStays(c, s, steps[..k], a);
      RunKeeps(c, s, steps[..k]);
      StepLeavesJobs(c, Run(c, s, steps[..k]).value, steps[k], a);
    }
  }

  lemma StepLeavesJobs(c: Config, s: State, step: Step, a: nat)
    requires Inv(c, s) && a in s.jobs && step != Crash && Apply(c, s, step).Some?
    ensures a in Apply(c, s, step).value.jobs
  {
    hide Inv, Apply, Owns;
    JobBelowInv(c, s, a);
    var t := Apply(c, s, step).value;
    if !Owns(step, a) {
      OthersLeaveJob(c, s, step, t, a);
      UntouchedIsThere(s, t, a);
    } else if step.Finish? {
      OwnsFinish(step, a);
      FinishApplies(c, s, step);
      FinishedEarned(c, s, a, step.files, step.message, step.dt, step.commit);
    } else {
      OwnStepEarns(c, s, step, t, a);
    }
  }

  lemma UntouchedIsThere(s: State, t: State, a: nat)
    requires Untouched(s, t, a)
    ensures a in t.jobs
  {
  }

  // ---- the log of a job ----

  /** The lines a run appends to the log of job a, each bounded. */
  function LinesFor(steps: seq<Step>, a: nat): seq<Text> {
    if steps == [] then []
    else
      var before, step := LinesFor(steps[..|steps| - 1], a), steps[|steps| - 1];
      if step.AppendLog? && step.a == a then before + [BoundedLine(step.entry.line, step.entry.truncated)] else before
  }

  /** The last percentage from 0 to 100 a run reports for job a. */
  function ProgressFor(steps: seq<Step>, a: nat, start: real): real {
    if steps == [] then start
    else
      var step := steps[|steps| - 1];
      if step.AppendLog? && step.a == a && step.percent.Some? && 0.0 <= step.percent.value <= 100.0 then step.percent.value
      else ProgressFor(steps[..|steps| - 1], a, start)
  }

  /** Over every run the log of a job is the window of all the lines it was given, and its progress the
      last one that was in range. */
  lemma {:induction false} LogIsWindowOfLines(c: Config, s: State, steps: seq<Step>, a: nat)
    requires Inv(c, s) && a in s.jobs && s.jobs[a].data.logs == [] && Run(c, s, steps).Some? && NoCrash(steps)
    ensures a in Run(c, s, steps).value.jobs
    ensures Run(c, s, steps).value.jobs[a].data.logs == Window(LinesFor(steps, a), c.maxLogs, MAX_LOG_BYTES)
    ensures Run(c, s, steps).value.jobs[a].data.progress == ProgressFor(steps, a, s.jobs[a].data.progress)
  {
    hide Inv, Apply, Window, BoundedLine;
    if steps == [] {
      EmptyWindow(c.maxLogs);
    } else {
      var k := |steps| - 1;
      var before := Run(c, s, steps[..k]).value;
      LogIsWindowOfLines(c, s, steps[..k], a);
      RunKeeps(c, s, steps[..k]);
      StepLogs(c, before, steps[k], Run(c, s, steps).value, a);
      if steps[k].AppendLog? && steps[k].a == a {
        IncrementalWindow(LinesFor(steps[..k], a), BoundedLine(steps[k].entry.line, steps[k].entry.truncated), c.maxLogs, MAX_LOG_BYTES);
      }
    }
  }

  lemma EmptyWindow(maxLines: nat)
    ensures Window([], maxLines, MAX_LOG_BYTES) == []
  {
  }

  lemma StepLogs(c: Config, s: State, step: Step, t: State, a: nat)
    requires Inv(c, s) && a in s.jobs && step != Crash && Apply(c, s, step) == Some(t)
    ensures a in t.jobs
    ensures t.jobs[a].data.logs ==
              if step.AppendLog? && step.a == a
              then Window(s.jobs[a].data.logs + [BoundedLine(step.entry.line, step.entry.truncated)], c.maxLogs, MAX_LOG_BYTES)
              else s.jobs[a].data.logs
    ensures t.jobs[a].data.progress ==
              if step.AppendLog? && step.a == a && step.percent.Some? && 0.0 <= step.percent.value <= 100.0 then step.percent.value
              else s.jobs[a].data.progress
  {
    hide Inv, Apply, Owns, Window, BoundedLine;
    StepLeavesJobs(c, s, step, a);
    JobBelowInv(c, s, a);
    OwnsAppend(step, a);
    if !Owns(step, a) {
      OthersLeaveJob(c, s, step, t, a);
      UntouchedEarned(s, t, a);
    } else if step.Finish? {
      OwnsFinish(step, a);
      FinishApplies(c, s, step);
      FinishLogs(c, s, a, step.files, step.message, step.dt, step.commit);
    } else if step.AppendLog? {
      AppendLogs(c, s, a, step.entry, step.percent);
    } else {
      OwnStepLogs(c, s, step, t, a);
    }
  }

  lemma OwnsAppend(step: Step, a: nat)
    ensures step.AppendLog? ==> (Owns(step, a) <==> step.a == a)
  {
  }

  lemma AppendLogs(c: Config, s: State, a: nat, entry: Entry, percent: Option<real>)
    requires a in s.jobs && Apply(c, s, AppendLog(a, entry, percent)).Some?
    ensures var data := Apply(c, s, AppendLog(a, entry, percent)).value.jobs[a].data;
      && data.logs == Window(s.jobs[a].data.logs + [BoundedLine(entry.line, entry.truncated)], c.maxLogs, MAX_LOG_BYTES)
      && data.progress == if percent.Some? && 0.0 <= percent.value <= 100.0 then percent.value else s.jobs[a].data.progress
  {
    hide Window, BoundedLine;
  }

  lemma FinishLogs(c: Config, s: State, a: nat, files: Option<nat>, message: Text, dt: nat, commit: bool)
    requires Inv(c, s) && FinishStep(s, a, files, message, dt, commit).Some?
    ensures a in s.jobs && a in FinishStep(s, a, files, message, dt, commit).value.jobs
    ensures var data := FinishStep(s, a, files, message, dt, commit).value.jobs[a].data;
      data.logs == s.jobs[a].data.logs && data.progress == s.jobs[a].data.progress
  {
    hide Inv, FinishStep, BoundedError, Followed, PathTakenByOther;
    FinishTables(c, s, a, files, message, dt, commit);
  }

  lemma OwnStepLogs(c: Config, s: State, step: Step, t: State, a: nat)
    requires a in s.jobs && a in t.jobs && Owns(step, a) && !step.Finish? && !step.AppendLog? && Apply(c, s, step) == Some(t)
    ensures t.jobs[a].data.logs == s.jobs[a].data.logs && t.jobs[a].data.progress == s.jobs[a].data.progress
  {
    hide Apply, Owns;
    if step.QueuedCancel? || step.StartQueued? || step.CheckContext? || step.Acquire? {
      WaiterStepEarns(c, s, step, t, a);
    } else {
      RunnerStepEarns(c, s, step, t, a);
    }
  }

  // ---- a run to success, from every phase ----

  predicate OnTheWay(p: Phase) {
    p in {Queued, Granted, Checked, Launching, Alive} || p == Waited(true) || p == Released(true) || p == Finishing(Succeeded)
  }

  /** The step that carries a job on when everything goes well. */
  function GoodStep(p: Phase, a: nat): Step {
    match p
    case Queued => Acquire(a)
    case Granted => StartQueued(a, 0, true)
    case Checked => CheckContext(a)
    case Launching => Launch(a, true)
    case Alive => WaitChild(a, true)
    case Waited(_) => Release(a)
    case _ => Choose(a)
  }

  lemma GoodStepWorks(c: Config, s: State, a: nat)
    requires Inv(c, s) && s.mode == Up && a in s.jobs && OnTheWay(s.jobs[a].phase) && s.jobs[a].phase != Finishing(Succeeded)
    requires !ContextDone(s, s.jobs[a]) && (s.jobs[a].phase == Queued ==> s.workers < c.maxWorkers)
    ensures var t := Apply(c, s, GoodStep(s.jobs[a].phase, a));
      && t.Some? && t.value.mode == Up && t.value.db.models == s.db.models && a in t.value.jobs
      && var j, k := s.jobs[a], t.value.jobs[a];
         OnTheWay(k.phase) && k.phase != Queued && StepsLeft(k.phase) < StepsLeft(j.phase) && !ContextDone(t.value, k)
         && k.id == j.id && k.data.modelId == j.data.modelId && k.data.destination == j.data.destination
  {
    hide Inv, UpsertRow, Apply, LoggedRow;
    GoodStepApplies(c, s, a);
    if s.jobs[a].phase == Granted { PendingWhenGranted(c, s, a); }
    match s.jobs[a].phase
    case Granted => GrantedWorks(s, a);
    case _ =>
  }

  lemma GrantedWorks(s: State, a: nat)
    requires At(s, a, Granted) && !ContextDone(s, s.jobs[a]) && s.jobs[a].data.state == Pending
    ensures var j := s.jobs[a];
      StartQueuedStep(s, a, 0, true) ==
        Some(s.(jobs := s.jobs[a := j.(phase := Checked, data := j.data.(state := Running, started := Some(s.clock)))],
                db := UpsertRow(s.db, j.id, j.data.(state := Running, started := Some(s.clock)), s.clock + 0), clock := s.clock + 0))
    ensures StartQueuedStep(s, a, 0, true).value.db.models == s.db.models
  {
  }

  lemma PendingWhenGranted(c: Config, s: State, a: nat)
    requires Inv(c, s) && a in s.jobs && s.jobs[a].phase == Granted
    ensures s.jobs[a].data.state == Pending
  {
    hide DbOk, IndexOk, SlotsOk, RequestsOk, ModeOk, LogsAccepted, LedgerOk, OpenOk;
    assert JobOk(c, s, a);
  }

  lemma GoodStepApplies(c: Config, s: State, a: nat)
    requires a in s.jobs && OnTheWay(s.jobs[a].phase) && s.jobs[a].phase != Finishing(Succeeded)
    ensures var p := s.jobs[a].phase;
      Apply(c, s, GoodStep(p, a)) ==
        match p
        case Queued => AcquireStep(c, s, a)
        case Granted => StartQueuedStep(s, a, 0, true)
        case Checked => CheckContextStep(s, a)
        case Launching => LaunchStep(s, a, true)
        case Alive => WaitChildStep(s, a, true)
        case Waited(_) => ReleaseStep(s, a)
        case _ => ChooseStep(s, a)
  {
    hide AcquireStep, StartQueuedStep, CheckContextStep, LaunchStep, WaitChildStep, ReleaseStep, ChooseStep;
  }

  lemma {:induction false} ReachesTheEnd(c: Config, s: State, a: nat) returns (steps: seq<Step>)
    requires Inv(c, s) && s.mode == Up && a in s.jobs && OnTheWay(s.jobs[a].phase)
    requires !ContextDone(s, s.jobs[a]) && (s.jobs[a].phase == Queued ==> s.workers < c.maxWorkers)
    ensures NoCrash(steps) && Run(c, s, steps).Some?
    ensures var t := Run(c, s, steps).value;
      && Inv(c, t) && t.mode == Up && t.db.models == s.db.models && a in t.jobs && t.jobs[a].phase == Finishing(Succeeded)
      && var j, k := s.jobs[a], t.jobs[a];
         k.id == j.id && k.data.modelId == j.data.modelId && k.data.destination == j.data.destination
    decreases StepsLeft(s.jobs[a].phase)
  {
    hide Inv, Apply, Run;
    if s.jobs[a].phase == Finishing(Succeeded) {
      steps := [];
      RunNone(c, s);
    } else {
      var step := GoodStep(s.jobs[a].phase, a);
      GoodStepWorks(c, s, a);
      StepKeeps(c, s, step);
      RunOne(c, s, step);
      var rest := ReachesTheEnd(c, Apply(c, s, step).value, a);
      RunAfter(c, s, [step], rest);
      steps := [step] + rest;
      NotCrash(s.jobs[a].phase, a);
    }
  }

  lemma RunNone(c: Config, s: State)
    ensures Run(c, s, []) == Some(s)
  {
  }

  lemma NotCrash(p: Phase, a: nat)
    ensures GoodStep(p, a) != Crash
  {
  }

  /** A job that nobody cancelled can still succeed, wherever it stands before its end, if a slot is
      free for it to wait for and nobody else has registered its directory. */
  lemma OpenJobCanSucceed(c: Config, s: State, a: nat, files: nat)
    requires Reachable(c, s) && s.mode == Up && a in s.jobs && OnTheWay(s.jobs[a].phase)
    requires !(s.closed || s.jobs[a].cancelled) && (s.jobs[a].phase == Queued ==> s.workers < c.maxWorkers)
    requires s.jobs[a].data.modelId.Some? ==> !PathTakenByOther(s.db.models, s.jobs[a].data.modelId.value, s.jobs[a].data.destination)
    ensures s.jobs[a].data.modelId.Some?
    ensures exists steps, t :: Run(c, s, steps) == Some(t) && NoCrash(steps)
              && var id, m := s.jobs[a].id, s.jobs[a].data.modelId.value;
                 && id in t.db.downloads && t.db.downloads[id].state == Succeeded
                 && m in t.db.models && t.db.models[m].status == Ready
                 && t.db.models[m].localPath == Some(s.jobs[a].data.destination) && t.db.models[m].size == files
  {
    hide Inv, Apply, Run, PathTakenByOther, FinishStep;
    ReachableOk(c, s);
    var steps := ReachesTheEnd(c, s, a);
    var e := Run(c, s, steps).value;
    LastStep(c, e, a, files);
    RunAppend(c, s, steps, Finish(a, Some(files), [], 0, true));
    var t := FinishStep(e, a, Some(files), [], 0, true).value;
    assert Run(c, s, steps + [Finish(a, Some(files), [], 0, true)]) == Some(t);
  }

  lemma LastStep(c: Config, s: State, a: nat, files: nat)
    requires Inv(c, s) && s.mode == Up && a in s.jobs && s.jobs[a].phase == Finishing(Succeeded)
    requires s.jobs[a].data.modelId.Some? ==> !PathTakenByOther(s.db.models, s.jobs[a].data.modelId.value, s.jobs[a].data.destination)
    ensures s.jobs[a].data.modelId.Some?
    ensures Apply(c, s, Finish(a, Some(files), [], 0, true)) == FinishStep(s, a, Some(files), [], 0, true)
    ensures FinishStep(s, a, Some(files), [], 0, true).Some?
    ensures var t, id, m := FinishStep(s, a, Some(files), [], 0, true).value, s.jobs[a].id, s.jobs[a].data.modelId.value;
      && id in t.db.downloads && t.db.downloads[id].state == Succeeded
      && m in t.db.models && t.db.models[m].status == Ready
      && t.db.models[m].localPath == Some(s.jobs[a].data.destination) && t.db.models[m].size == files
  {
    hide Inv, FinishStep, PathTakenByOther, TerminalTx;
    FinishColumns(c, s, a, Some(files), [], s.clock + 0);
    FinishApplies(c, s, Finish(a, Some(files), [], 0, true));
    FinishEnabled(s, a, Some(files), [], 0, true);
    FinishTables(c, s, a, Some(files), [], 0, true);
  }
}

/** How a job ends once its context is done, by a cancel or by a shutdown.

    A job looks at its context while it waits for a slot and before it launches, where it ends
    canceled; the start of the command looks, and refuses, where it ends failed; and it looks once
    more after its child is reaped, where it ends canceled again.  Past that look a cancel is
    still accepted and decides nothing. */
module DownloadCancellation {
  import opened Wrappers
  import opened Utf8
  import opened Database
  import opened Restart
  import opened DownloadTransactions
  import opened DownloadProtocol
  import opened DownloadInvariant
  import opened DownloadSteps
  import opened DownloadTheorems
  import opened DownloadDrain

  /** From here a done context leads to a canceled job. */
  predicate LeadsToCanceled(p: Phase) {
    p in {Queued, Granted, Checked, Alive} || p.Waited? || p.Released? || p == Finishing(Canceled)
  }

  /** From here it leads to a failed one. */
  predicate LeadsToFailed(p: Phase) { p == Launching || p == Finishing(Failed) }

  /** The ends still possible for a job with a done context. */
  datatype Fate = Cancels | Fails | Escapes

  function FateOf(p: Phase): Fate {
    if LeadsToCanceled(p) then Cancels else if LeadsToFailed(p) then Fails else Escapes
  }

  /** A job whose terminal write was refused is failed in memory, whatever its fate was. */
  predicate EndFits(j: Job, fate: Fate) {
    match fate
    case Cancels => j.data.state == Canceled || j.lost
    case Fails => j.data.state == Failed
    case Escapes => j.data.state in {Succeeded, Failed}
  }

  predicate Fated(s: State, a: nat, fate: Fate) {
    && a in s.jobs && ContextDone(s, s.jobs[a])
    && if s.jobs[a].phase in {Finished, Gone} then EndFits(s.jobs[a], fate)
       else
         Open(s.jobs[a].phase) && FateOf(s.jobs[a].phase) == fate
         && (s.jobs[a].phase.Finishing? ==> s.jobs[a].phase.outcome in {Succeeded, Failed, Canceled})
  }

  /** A step of the goroutine that owns the job. */
  predicate Owns(step: Step, a: nat) {
    match step
    case Acquire(b) => a == b
    case QueuedCancel(b) => a == b
    case StartQueued(b, _, _) => a == b
    case CheckContext(b) => a == b
    case Launch(b, _) => a == b
    case AppendLog(b, _, _) => a == b
    case PersistLog(b) => a == b
    case WaitChild(b, _) => a == b
    case Release(b) => a == b
    case Choose(b) => a == b
    case Finish(b, _, _, _, _) => a == b
    case Done(b) => a == b
    case _ => false
  }

  lemma OwnStepKeepsFate(c: Config, s: State, step: Step, t: State, a: nat, fate: Fate)
    requires Fated(s, a, fate) && Owns(step, a) && !step.Finish? && Apply(c, s, step) == Some(t)
    ensures Fated(t, a, fate)
  {
    hide AcceptStep, FinishStep, RestoreOneStep, BootStep, UpsertRow, LoggedRow;
  }

  lemma FinishKeepsFate(s: State, a: nat, files: Option<nat>, message: Text, dt: nat, commit: bool, fate: Fate)
    requires Fated(s, a, fate) && FinishStep(s, a, files, message, dt, commit).Some?
    ensures Fated(FinishStep(s, a, files, message, dt, commit).value, a, fate)
  {
    hide TerminalTx, BoundedError;
  }

  /** The job is as it was, but perhaps cancelled, and a shutdown is not taken back. */
  predicate Untouched(s: State, t: State, a: nat) {
    && a in s.jobs && a in t.jobs && (t.jobs[a] == s.jobs[a] || t.jobs[a] == s.jobs[a].(cancelled := true))
    && (s.closed ==> t.closed)
  }

  lemma AdditionsLeaveJob(c: Config, s: State, step: Step, t: State, a: nat)
    requires a in s.jobs && a < s.next && (step.Accept? || step.RestoreOne?) && Apply(c, s, step) == Some(t)
    ensures Untouched(s, t, a)
  {
    hide DestinationInUse, IdentityRefused, AcceptTx, TerminalTx, AcceptedRow, InterruptedRow;
  }

  lemma FinishLeavesJob(c: Config, s: State, step: Step, t: State, a: nat)
    requires a in s.jobs && step.Finish? && step.a != a && Apply(c, s, step) == Some(t)
    ensures Untouched(s, t, a)
  {
    hide TerminalTx, BoundedError;
  }

  lemma PlainLeavesJob(c: Config, s: State, step: Step, t: State, a: nat)
    requires a in s.jobs && !Owns(step, a) && Apply(c, s, step) == Some(t)
    requires !step.Accept? && !step.RestoreOne? && !step.Finish? && !step.Crash?
    ensures Untouched(s, t, a)
  {
    hide AcceptStep, FinishStep, RestoreOneStep, RegisterTx, DeleteModelTx, UpsertRow, LoggedRow, RestoreAccepts, Lists;
  }

  lemma UntouchedKeepsFate(s: State, t: State, a: nat, fate: Fate)
    requires Fated(s, a, fate) && Untouched(s, t, a)
    ensures Fated(t, a, fate)
  {
  }

  lemma StepKeepsFate(c: Config, s: State, step: Step, t: State, a: nat, fate: Fate)
    requires Inv(c, s) && Fated(s, a, fate) && step != Crash && Apply(c, s, step) == Some(t)
    ensures Fated(t, a, fate)
  {
    hide JobsOk, DbOk, IndexOk, SlotsOk, RequestsOk, ModeOk, Apply, Fated, Untouched;
    FatedIsThere(s, a, fate);
    JobBelow(c, s, a);
    if Owns(step, a) {
      if step.Finish? {
        FinishApplies(c, s, step);
        FinishKeepsFate(s, a, step.files, step.message, step.dt, step.commit, fate);
      } else {
        OwnStepKeepsFate(c, s, step, t, a, fate);
      }
    } else {
      if step.Accept? || step.RestoreOne? { AdditionsLeaveJob(c, s, step, t, a); }
      else if step.Finish? { FinishLeavesJob(c, s, step, t, a); }
      else { PlainLeavesJob(c, s, step, t, a); }
      UntouchedKeepsFate(s, t, a, fate);
    }
  }

  lemma FinishApplies(c: Config, s: State, step: Step)
    requires step.Finish?
    ensures Apply(c, s, step) == FinishStep(s, step.a, step.files, step.message, step.dt, step.commit)
  {
    hide FinishStep;
  }

  lemma {:induction false} RunKeepsFate(c: Config, s: State, steps: seq<Step>, a: nat, fate: Fate)
    requires Inv(c, s) && a in s.jobs && Fated(s, a, fate) && Run(c, s, steps).Some? && NoCrash(steps)
    ensures Fated(Run(c, s, steps).value, a, fate)
  {
    hide Inv, Apply, Fated;
    if steps != [] {
      var before := Run(c, s, steps[..|steps| - 1]).value;
      RunKeepsFate(c, s, steps[..|steps| - 1], a, fate);
      RunKeeps(c, s, steps[..|steps| - 1]);
      FatedIsThere(before, a, fate);
      StepKeepsFate(c, before, steps[|steps| - 1], Run(c, s, steps).value, a, fate);
    }
  }

  lemma FatedIsThere(s: State, a: nat, fate: Fate)
    requires Fated(s, a, fate)
    ensures a in s.jobs
  {
  }

  // ---- how it ends ----

  /** The job is over and its end is in the tables. */
  predicate Over(s: State, a: nat) { a in s.jobs && s.jobs[a].phase in {Finished, Gone} && !s.jobs[a].lost }

  /** Over every run without a crash the job, once over, is in one of these states. */
  ghost predicate EndsOnlyIn(c: Config, s: State, a: nat, ends: set<JobState>) {
    forall steps, t :: Run(c, s, steps) == Some(t) && NoCrash(steps) && Over(t, a) ==> t.jobs[a].data.state in ends
  }

  ghost predicate CanEnd(c: Config, s: State, a: nat) {
    exists steps, t :: Run(c, s, steps) == Some(t) && NoCrash(steps) && Over(t, a)
  }

  lemma FatedAtFirst(c: Config, s: State, a: nat)
    requires Inv(c, s) && a in s.jobs && Open(s.jobs[a].phase) && ContextDone(s, s.jobs[a])
    ensures Fated(s, a, FateOf(s.jobs[a].phase)) && !s.jobs[a].lost
  {
    hide DbOk, IndexOk, SlotsOk, RequestsOk, ModeOk, LogsAccepted, LedgerOk;
    assert JobOk(c, s, a);
  }

  function Ends(fate: Fate): set<JobState> {
    match fate
    case Cancels => {Canceled}
    case Fails => {Failed}
    case Escapes => {Succeeded, Failed}
  }

  lemma FateDecides(s: State, a: nat, fate: Fate)
    requires Fated(s, a, fate) && Over(s, a)
    ensures s.jobs[a].data.state in Ends(fate)
  {
  }

  /** What a done context means for a job at work: it can end, and every end it can come to without
      a crash or a refused write is the one its phase leads to. */
  lemma ContextDecides(c: Config, s: State, a: nat)
    requires Reachable(c, s) && s.mode == Up && a in s.jobs && Open(s.jobs[a].phase) && ContextDone(s, s.jobs[a])
    ensures CanEnd(c, s, a) && EndsOnlyIn(c, s, a, Ends(FateOf(s.jobs[a].phase)))
    ensures EndsOnlyIn(c, s, a, {Canceled}) <==> LeadsToCanceled(s.jobs[a].phase)
    ensures LeadsToFailed(s.jobs[a].phase) ==> EndsOnlyIn(c, s, a, {Failed})
  {
    hide Inv, Apply, Fated, Run;
    var fate := FateOf(s.jobs[a].phase);
    ReachableOk(c, s);
    FatedAtFirst(c, s, a);
    forall steps, t | Run(c, s, steps) == Some(t) && NoCrash(steps) && Over(t, a) ensures t.jobs[a].data.state in Ends(fate) {
      RunKeepsFate(c, s, steps, a, fate);
      FateDecides(t, a, fate);
    }
    var steps := JobEnds(c, s, a);
    var t := Run(c, s, steps).value;
    assert Over(t, a) && t.jobs[a].data.state in Ends(fate);
  }

  /** A nil Cancel means that the job ends canceled, if the store lets it end, exactly when it is
      queued, about to look at its context, running, just reaped, or ending canceled anyway. */
  lemma CancelDecides(c: Config, s: State, id: string)
    requires Reachable(c, s) && CancelStep(s, id).Some?
    ensures id in s.index && s.index[id] in s.jobs
    ensures var a, t := s.index[id], CancelStep(s, id).value;
      && CanEnd(c, t, a)
      && (EndsOnlyIn(c, t, a, {Canceled}) <==> LeadsToCanceled(s.jobs[a].phase))
      && (LeadsToFailed(s.jobs[a].phase) ==> EndsOnlyIn(c, t, a, {Failed}))
      && (FateOf(s.jobs[a].phase) == Escapes <==> s.jobs[a].phase == Finishing(Succeeded))
  {
    hide Inv, CanEnd, EndsOnlyIn;
    ReachableOk(c, s);
    CancelledIsOpen(c, s, id);
    CancelApplies(c, s, id);
    ReachableAfter(c, s, Cancel(id));
    ContextDecides(c, CancelStep(s, id).value, s.index[id]);
  }

  lemma CancelledIsOpen(c: Config, s: State, id: string)
    requires Inv(c, s) && CancelStep(s, id).Some?
    ensures s.mode == Up && id in s.index && s.index[id] in s.jobs && Open(s.jobs[s.index[id]].phase)
    ensures var a, t := s.index[id], CancelStep(s, id).value;
      t.mode == Up && a in t.jobs && t.jobs[a].phase == s.jobs[a].phase && ContextDone(t, t.jobs[a])
    ensures s.jobs[s.index[id]].phase.Finishing? ==> s.jobs[s.index[id]].phase.outcome in {Succeeded, Failed, Canceled}
  {
    hide DbOk, SlotsOk, RequestsOk, ModeOk, OpenOk, LedgerOk;
    assert EntryOk(s, id) && JobOk(c, s, s.index[id]);
  }

  lemma CancelApplies(c: Config, s: State, id: string)
    ensures Apply(c, s, Cancel(id)) == CancelStep(s, id)
  {
    hide CancelStep;
  }

  lemma ReachableAfter(c: Config, s: State, step: Step)
    requires Reachable(c, s) && Apply(c, s, step).Some?
    ensures Reachable(c, Apply(c, s, step).value)
  {
    hide Apply;
    var steps :| Run(c, FRESH, steps) == Some(s);
    RunAppend(c, FRESH, steps, step);
  }

  /** Past the last look a cancel is still accepted, and the job succeeds all the same. */
  lemma CancelCanComeTooLate(c: Config, s: State, a: nat, files: nat)
    requires Reachable(c, s) && s.mode == Up && a in s.jobs && s.jobs[a].phase == Finishing(Succeeded)
    requires s.jobs[a].data.modelId.Some?
             ==> !PathTakenByOther(s.db.models, s.jobs[a].data.modelId.value, s.jobs[a].data.destination)
    ensures CancelStep(s, s.jobs[a].id).Some?
    ensures var t := CancelStep(s, s.jobs[a].id).value;
      && a in t.jobs && t.jobs[a].cancelled
      && FinishStep(t, a, Some(files), [], 0, true).Some?
      && var u := FinishStep(t, a, Some(files), [], 0, true).value;
         a in u.jobs && u.jobs[a].data.state == Succeeded && !u.jobs[a].lost
  {
    hide Inv, FinishStep, CancelStep, PathTakenByOther;
    ReachableOk(c, s);
    LateCancelAccepted(c, s, a);
    var t := CancelStep(s, s.jobs[a].id).value;
    FinishSucceeds(t, a, files);
    FinishOutcome(t, a, files);
  }

  lemma LateCancelAccepted(c: Config, s: State, a: nat)
    requires Inv(c, s) && s.mode == Up && a in s.jobs && s.jobs[a].phase == Finishing(Succeeded)
    ensures s.jobs[a].data.modelId.Some? && s.jobs[a].data.modelId.value in s.db.models && !s.jobs[a].lost
    ensures CancelStep(s, s.jobs[a].id) == Some(SetJob(s, a, s.jobs[a].(cancelled := true)))
  {
    hide DbOk, IndexOk, SlotsOk, RequestsOk, ModeOk, LogsAccepted;
    assert JobOk(c, s, a);
    ActiveRowFacts(c, s.db, s.clock, s.jobs[a].id);
  }

  lemma FinishOutcome(s: State, a: nat, files: nat)
    requires s.mode == Up && a in s.jobs && s.jobs[a].phase == Finishing(Succeeded) && !s.jobs[a].lost
    requires FinishStep(s, a, Some(files), [], 0, true).Some?
    requires var j := s.jobs[a];
      TerminalTx(s.db, j.id, FinishedRow(j.data, Succeeded, [], s.clock), Some(j.data.destination), files, s.clock + 0).Some?
    ensures var u := FinishStep(s, a, Some(files), [], 0, true).value;
      a in u.jobs && u.jobs[a].data.state == Succeeded && !u.jobs[a].lost
  {
    hide TerminalTx;
  }
}

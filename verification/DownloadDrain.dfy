/** Nothing keeps a job whose context is done from ending, nor a closed service from draining. */
module DownloadDrain {
  import opened Wrappers
  import opened Database
  import opened Restart
  import opened DownloadTransactions
  import opened DownloadProtocol
  import opened DownloadInvariant
  import opened DownloadSteps
  import opened DownloadTheorems

  predicate NoCrash(steps: seq<Step>) { forall i :: 0 <= i < |steps| ==> steps[i] != Crash }

  /** What the goroutine of a job with a done context does next when the store commits. */
  function NextStep(p: Phase, a: nat): Step
    requires Counted(p)
  {
    match p
    case Queued => QueuedCancel(a)
    case Granted => StartQueued(a, 0, true)
    case Checked => CheckContext(a)
    case Launching => Launch(a, false)
    case Alive => WaitChild(a, true)
    case Waited(_) => Release(a)
    case Released(_) => Choose(a)
    case Finishing(_) => Finish(a, None, [0x78], 0, true)
    case Finished => Done(a)
  }

  /** How many of its steps are left. */
  function StepsLeft(p: Phase): nat {
    match p
    case Queued => 9
    case Granted => 8
    case Checked => 7
    case Launching => 6
    case Alive => 5
    case Waited(_) => 4
    case Released(_) => 3
    case Finishing(_) => 2
    case Finished => 1
    case Gone | Archived => 0
  }

  /** The job moved one step towards its end, and nothing of its standing was lost. */
  predicate Advanced(s: State, t: State, a: nat) {
    && a in s.jobs && a in t.jobs && t.mode == Up && t.closed == s.closed
    && t.jobs[a].cancelled == s.jobs[a].cancelled
    && Counted(s.jobs[a].phase) && StepsLeft(t.jobs[a].phase) < StepsLeft(s.jobs[a].phase) && t.jobs[a].phase != Archived
    && (if s.jobs[a].phase == Finished then t.jobs[a].phase == Gone && t.wg == s.wg - 1 else Counted(t.jobs[a].phase) && t.wg == s.wg)
    && (s.jobs[a].lost == t.jobs[a].lost)
  }

  lemma PlainStepWorks(c: Config, s: State, a: nat)
    requires s.mode == Up && a in s.jobs && Counted(s.jobs[a].phase) && ContextDone(s, s.jobs[a]) && !s.jobs[a].phase.Finishing?
    ensures Apply(c, s, NextStep(s.jobs[a].phase, a)).Some?
    ensures Advanced(s, Apply(c, s, NextStep(s.jobs[a].phase, a)).value, a)
  {
    hide Apply, Advanced;
    NextApplies(c, s, a);
    if s.jobs[a].phase in {Queued, Granted, Checked} { WaiterAdvances(s, a); } else { RunnerAdvances(s, a); }
  }

  /** Before the launch. */
  lemma WaiterAdvances(s: State, a: nat)
    requires s.mode == Up && a in s.jobs && s.jobs[a].phase in {Queued, Granted, Checked} && ContextDone(s, s.jobs[a])
    ensures var t := match s.jobs[a].phase
                     case Queued => QueuedCancelStep(s, a)
                     case Granted => StartQueuedStep(s, a, 0, true)
                     case _ => CheckContextStep(s, a);
      t.Some? && Advanced(s, t.value, a)
  {
    hide UpsertRow;
  }

  /** From the launch on, but for the terminal section. */
  lemma RunnerAdvances(s: State, a: nat)
    requires s.mode == Up && a in s.jobs && Counted(s.jobs[a].phase) && ContextDone(s, s.jobs[a])
    requires s.jobs[a].phase !in {Queued, Granted, Checked} && !s.jobs[a].phase.Finishing?
    ensures var t := match s.jobs[a].phase
                     case Launching => LaunchStep(s, a, false)
                     case Alive => WaitChildStep(s, a, true)
                     case Waited(_) => ReleaseStep(s, a)
                     case Released(_) => ChooseStep(s, a)
                     case _ => DoneStep(s, a);
      t.Some? && Advanced(s, t.value, a)
  {
    var p := s.jobs[a].phase;
    if p == Launching {} else if p == Alive {} else if p.Waited? {} else if p.Released? {} else {}
  }

  lemma NextApplies(c: Config, s: State, a: nat)
    requires a in s.jobs && Counted(s.jobs[a].phase)
    ensures var p := s.jobs[a].phase;
      Apply(c, s, NextStep(p, a)) ==
        match p
        case Queued => QueuedCancelStep(s, a)
        case Granted => StartQueuedStep(s, a, 0, true)
        case Checked => CheckContextStep(s, a)
        case Launching => LaunchStep(s, a, false)
        case Alive => WaitChildStep(s, a, true)
        case Waited(_) => ReleaseStep(s, a)
        case Released(_) => ChooseStep(s, a)
        case Finishing(_) => FinishStep(s, a, None, [0x78], 0, true)
        case Finished => DoneStep(s, a)
  {
    hide QueuedCancelStep, StartQueuedStep, CheckContextStep, LaunchStep, WaitChildStep, ReleaseStep, ChooseStep, FinishStep, DoneStep;
  }

  /** A finish that does not publish files is never refused by the tables. */
  lemma FinishWorks(c: Config, s: State, a: nat)
    requires Inv(c, s) && s.mode == Up && a in s.jobs && s.jobs[a].phase.Finishing?
    ensures FinishStep(s, a, None, [0x78], 0, true).Some?
    ensures Advanced(s, FinishStep(s, a, None, [0x78], 0, true).value, a)
  {
    hide Inv, TerminalTx, FinishedRow;
    FailureIsPublished(c, s, a);
    FinishResult(c, s, a, None, [0x78], s.clock + 0);
  }

  lemma FailureIsPublished(c: Config, s: State, a: nat)
    requires Inv(c, s) && a in s.jobs && s.jobs[a].phase.Finishing?
    ensures var j := s.jobs[a];
      var state := FinalState(j.phase.outcome, None);
      var data := FinishedRow(j.data, state, [0x78], s.clock);
      state != Succeeded && TerminalTx(s.db, j.id, data, FinishPath(state, data), 0, s.clock + 0).Some?
  {
    hide DbOk, IndexOk, SlotsOk, RequestsOk, ModeOk, LogsAccepted, TerminalTx, LedgerOk;
    assert JobOk(c, s, a);
    var j := s.jobs[a];
    var state := FinalState(j.phase.outcome, None);
    var data := FinishedRow(j.data, state, [0x78], s.clock);
    FinishedColumns(c, s, a, None, [0x78]);
    TerminalResult(c, s.db, s.clock, j.id, data, FinishPath(state, data), 0, s.clock + 0);
  }

  lemma NextStepWorks(c: Config, s: State, a: nat)
    requires Inv(c, s) && s.mode == Up && a in s.jobs && Counted(s.jobs[a].phase)
    requires ContextDone(s, s.jobs[a])
    ensures Apply(c, s, NextStep(s.jobs[a].phase, a)).Some?
    ensures Advanced(s, Apply(c, s, NextStep(s.jobs[a].phase, a)).value, a)
  {
    hide Inv, FinishStep, Advanced;
    if s.jobs[a].phase.Finishing? {
      FinishWorks(c, s, a);
      NextApplies(c, s, a);
    } else {
      PlainStepWorks(c, s, a);
    }
  }

  lemma {:induction false} RunAfter(c: Config, s: State, a: seq<Step>, b: seq<Step>)
    requires Run(c, s, a).Some?
    ensures Run(c, s, a + b) == Run(c, Run(c, s, a).value, b)
    decreases |b|
  {
    hide Apply;
    if b == [] {
      assert a + b == a;
    } else {
      RunAfter(c, s, a, b[..|b| - 1]);
      assert (a + b)[..|a + b| - 1] == a + b[..|b| - 1];
    }
  }

  /** A job with a done context has a run to its end in which no write is refused. */
  lemma {:induction false} JobEnds(c: Config, s: State, a: nat) returns (steps: seq<Step>)
    requires Inv(c, s) && s.mode == Up && a in s.jobs && Counted(s.jobs[a].phase) && ContextDone(s, s.jobs[a])
    ensures NoCrash(steps) && Run(c, s, steps).Some?
    ensures var t := Run(c, s, steps).value;
      && Inv(c, t) && t.mode == Up && t.closed == s.closed && t.wg == s.wg - 1
      && a in t.jobs && t.jobs[a].phase == Gone && t.jobs[a].lost == s.jobs[a].lost
    decreases StepsLeft(s.jobs[a].phase)
  {
    hide Inv, Apply, Run;
    var step := NextStep(s.jobs[a].phase, a);
    NextStepWorks(c, s, a);
    var next := Apply(c, s, step).value;
    StepKeeps(c, s, step);
    RunOne(c, s, step);
    if s.jobs[a].phase == Finished {
      steps := [step];
    } else {
      var rest := JobEnds(c, next, a);
      RunAfter(c, s, [step], rest);
      steps := [step] + rest;
    }
  }

  lemma RunOne(c: Config, s: State, step: Step)
    ensures Run(c, s, [step]) == Apply(c, s, step)
  {
    hide Apply;
    assert [step][..0] == [];
  }

  lemma CountedJobExists(c: Config, s: State) returns (a: nat)
    requires Inv(c, s) && s.wg != 0
    ensures a in s.jobs && Counted(s.jobs[a].phase)
  {
    hide DbOk, JobsOk, IndexOk, RequestsOk, ModeOk;
    a :| a in Owners(s.jobs);
  }

  lemma WaitGroupIsNatural(c: Config, s: State)
    requires Inv(c, s)
    ensures s.wg >= 0
  {
    hide DbOk, JobsOk, IndexOk, RequestsOk, ModeOk;
  }

  lemma {:induction false} AllJobsEnd(c: Config, s: State) returns (steps: seq<Step>)
    requires Inv(c, s) && s.mode == Up && s.closed
    ensures NoCrash(steps) && Run(c, s, steps).Some?
    ensures var t := Run(c, s, steps).value; Inv(c, t) && t.mode == Up && t.closed && t.wg == 0
    decreases s.wg
  {
    hide Inv, Apply;
    WaitGroupIsNatural(c, s);
    if s.wg == 0 {
      steps := [];
    } else {
      var a := CountedJobExists(c, s);
      var first := JobEnds(c, s, a);
      WaitGroupIsNatural(c, Run(c, s, first).value);
      var rest := AllJobsEnd(c, Run(c, s, first).value);
      RunAfter(c, s, first, rest);
      steps := first + rest;
    }
  }

  /** From every state in which the service is shut down there is a run, without a crash, after
      which every job has been counted out: Shutdown can always return. */
  lemma ShutdownCanReturn(c: Config, s: State)
    requires Reachable(c, s) && s.mode == Up && s.closed
    ensures exists steps :: NoCrash(steps) && Run(c, s, steps).Some?
              && var t := Run(c, s, steps).value; t.mode == Up && t.closed && t.wg == 0
  {
    hide Inv, Run, NoCrash;
    ReachableOk(c, s);
    var steps := AllJobsEnd(c, s);
  }
}

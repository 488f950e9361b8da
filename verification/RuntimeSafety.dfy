/** One run at a time, and no removal under a running model. */
module RuntimeSafety {
  import opened Wrappers
  import opened LogWindow
  import opened RuntimeProtocol

  predicate Current(s: State, r: nat) { s.cmd == Some(r) }

  predicate ChildOk(s: State, r: nat) {
    r in s.runs && var c := s.runs[r];
    && r < s.next && c.dropped == 0
    && (c.drained ==> c.readerDone && c.exit.Some?)
    && (c.published ==> c.drained && c.closes == 1 && !Current(s, r))
    && (!c.published ==> c.closes == 0 && Current(s, r))
  }

  /** cmd, done and an active status come and go together, for the newest run. */
  predicate HandleOk(s: State) {
    && s.done == s.cmd
    && (s.cmd.Some? <==> Active(s.status))
    && (s.cmd.Some? ==> s.cmd.value in s.runs && s.next == s.cmd.value + 1)
    && (forall r :: 0 <= r < s.next ==> r in s.runs)
  }

  /** The log is the window of everything the newest run printed. */
  predicate LogsOk(s: State) {
    s.logs == if s.next == 0 then [] else if s.next - 1 in s.runs then Window(s.runs[s.next - 1].lines, MAX_LINES, MAX_LOG_BYTES) else []
  }

  /** Where the supervisor's operation stands. */
  predicate CallOk(s: State) {
    && (s.status == Starting ==> s.owner == Some(Who.Client) && (s.call.Polling? || s.call.Publish? || s.call.AbortEntry?))
    && (s.owner.Some? ==>
          match s.call
          case StartEntry(_, _, _) => s.owner == Some(Who.Client)
          case Polling(r) => s.owner == Some(Who.Client) && Launched(s, r) && s.status != Running && s.status != Stopping
          case Publish(r) => s.owner == Some(Who.Client) && Launched(s, r) && s.status != Running && s.status != Stopping
          case Recheck(r) => s.owner == Some(Who.Client) && Launched(s, r) && s.status != Starting && s.status != Stopping
          case AbortEntry => s.owner == Some(Who.Client) && s.status != Running && s.status != Stopping
          case AbortWait(r) => s.owner == Some(Who.Client) && Launched(s, r) && s.status != Running
          case StopEntry(after) => after.ThenStart? ==> s.owner == Some(Who.Client)
          case StopWait(r, after) => s.status != Running && Launched(s, r) && (after.ThenStart? ==> s.owner == Some(Who.Client))
          case Return(_) => true)
  }

  /** Run `r` is the newest; it is current exactly while its exit is not published. */
  predicate Launched(s: State, r: nat) { r in s.runs && s.next == r + 1 && (Active(s.status) ==> Current(s, r)) }

  /** A running child runs the associated path, for the associated model. */
  predicate Associated(s: State) {
    s.status == Running && s.cmd.Some? && s.cmd.value in s.runs ==>
      s.modelPath == Some(s.runs[s.cmd.value].path) && s.active == s.runs[s.cmd.value].model
  }

  /** A live child was launched for this path and this model. */
  predicate Runs(s: State, path: Path, model: Option<string>) {
    s.status in {Starting, Running} && s.cmd.Some? && s.cmd.value in s.runs ==>
      s.runs[s.cmd.value].path == path && s.runs[s.cmd.value].model == model
  }

  /** The call the client asked for, and what it has achieved. */
  predicate StartFits(s: State, path: Path, model: Option<string>) {
    if s.owner != Some(Who.Client) then Associated(s)
    else match s.call
      case StartEntry(p, m, _) => p == path && m == model && Associated(s)
      case Polling(_) | Publish(_) | Recheck(_) | AbortEntry | AbortWait(_) =>
        Runs(s, path, model) && (s.status != Running || s.call.Recheck?)
      case Return(ok) => if ok then Runs(s, path, model) else Associated(s)
      case StopEntry(_) | StopWait(_, _) => false
  }

  predicate ClientOk(s: State) {
    && (s.owner == Some(Who.Client) ==> ClientCall(s.client).Some?)
    && match s.client
       case SwitchStarting(id, path, _) => StartFits(s, path, Some(id))
       case PlainStarting(path, _) => StartFits(s, path, None)
       case SwitchStopping(_, _, _) => Associated(s) && (s.owner == Some(Who.Client) ==> StopOnly(s))
       case PlainStopping => Associated(s) && (s.owner == Some(Who.Client) ==> StopOnly(s))
       case Restarting(path) =>
         if s.owner == Some(Who.Client) && (s.call.StopEntry? || s.call.StopWait?) then s.call.after == ThenStart(path) && Associated(s)
         else StartFits(s, path, None)
       case RestartRead(path, ok) => if ok then Runs(s, path, None) else Associated(s)
       case Removing(id, path) =>
         Associated(s) && (s.status == Running && s.cmd.Some? && s.cmd.value in s.runs ==>
           Some(s.runs[s.cmd.value].path) != path && s.runs[s.cmd.value].model != Some(id))
       case Nobody => Associated(s)
       case SwitchRead(_, _, _) => Associated(s)
  }

  predicate StopOnly(s: State) {
    match s.call
    case StopEntry(after) => after == Nothing
    case StopWait(_, after) => after == Nothing
    case Return(ok) => ok ==> !Active(s.status)
    case _ => false
  }

  predicate Inv(s: State) {
    && ChildrenOk(s) && HandleOk(s) && LogsOk(s) && CallOk(s) && ClientOk(s)
  }

  predicate ChildrenOk(s: State) { forall r :: r in s.runs ==> ChildOk(s, r) }

  predicate IsSection(step: Step) {
    step.StartSection? || step.Poll? || step.PublishSection? || step.RecheckSection? || step.AbortSection? || step.AbortDone?
    || step.StopSection? || step.StopDone? || step.StopGivesUp?
  }

  predicate IsChild(step: Step) {
    step.Line? || step.ReaderEnds? || step.Reap? || step.Drain? || step.PublishExit?
  }

  // ---- sections of the supervisor ----

  lemma SectionKeepsHandle(s: State, step: Step)
    requires Inv(s) && IsSection(step) && Apply(s, step).Some?
    ensures ChildrenOk(Apply(s, step).value) && HandleOk(Apply(s, step).value) && LogsOk(Apply(s, step).value)
  {
    hide ChildrenOk, HandleOk, LogsOk, CallOk, ClientOk, Apply;
    if step.StartSection? { StartKeepsHandle(s, step.spawn); } else { QuietSectionKeepsHandle(s, step); }
  }

  lemma StartKeepsHandle(s: State, spawn: bool)
    requires ChildrenOk(s) && HandleOk(s) && LogsOk(s) && Apply(s, StartSection(spawn)).Some?
    ensures var t := Apply(s, StartSection(spawn)).value; ChildrenOk(t) && HandleOk(t) && LogsOk(t)
  {
    hide Window;
    var t := StartSectionStep(s, spawn).value;
    forall r | r in t.runs ensures ChildOk(t, r) { if r in s.runs { assert ChildOk(s, r); } }
    assert Window([], MAX_LINES, MAX_LOG_BYTES) == [] by { WindowIsLongest([], MAX_LINES, MAX_LOG_BYTES); }
  }

  /** The other sections leave the child alone; they may only move an active status. */
  lemma QuietSectionKeepsHandle(s: State, step: Step)
    requires ChildrenOk(s) && HandleOk(s) && LogsOk(s) && CallOk(s) && IsSection(step) && !step.StartSection? && Apply(s, step).Some?
    ensures var t := Apply(s, step).value; ChildrenOk(t) && HandleOk(t) && LogsOk(t)
  {
    hide LogsOk, ChildOk, ChildrenOk;
    var t := Apply(s, step).value;
    assert t.runs == s.runs && t.cmd == s.cmd && t.done == s.done && t.next == s.next && t.logs == s.logs;
    SameRuns(s, t);
  }

  lemma SameRuns(s: State, t: State)
    requires ChildrenOk(s) && LogsOk(s)
    requires t.runs == s.runs && t.cmd == s.cmd && t.done == s.done && t.next == s.next && t.logs == s.logs
    ensures ChildrenOk(t) && LogsOk(t)
  {
    hide Window;
    forall r | r in t.runs ensures ChildOk(t, r) { assert ChildOk(s, r); }
  }

  lemma SectionKeepsCall(s: State, step: Step)
    requires Inv(s) && IsSection(step) && Apply(s, step).Some?
    ensures CallOk(Apply(s, step).value)
  {
    hide ClientOk, LogsOk, Window;
  }

  lemma SectionKeepsClient(s: State, step: Step)
    requires Inv(s) && IsSection(step) && Apply(s, step).Some?
    ensures ClientOk(Apply(s, step).value)
  {
    hide LogsOk, ChildrenOk, ClientOk, HandleOk, CallOk, Apply;
    if step.StartSection? || step.Poll? || step.PublishSection? || step.RecheckSection? { StartingKeepsClient(s, step); }
    else { StoppingKeepsClient(s, step); }
  }

  lemma StartingKeepsClient(s: State, step: Step)
    requires HandleOk(s) && CallOk(s) && ClientOk(s) && Apply(s, step).Some?
    requires step.StartSection? || step.Poll? || step.PublishSection? || step.RecheckSection?
    ensures ClientOk(Apply(s, step).value)
  {
    hide Window;
  }

  lemma StoppingKeepsClient(s: State, step: Step)
    requires ChildrenOk(s) && HandleOk(s) && CallOk(s) && ClientOk(s) && Apply(s, step).Some?
    requires step.AbortSection? || step.AbortDone? || step.StopSection? || step.StopDone? || step.StopGivesUp?
    ensures ClientOk(Apply(s, step).value)
  {
    hide Window, ChildrenOk;
    if step.StopDone? { StoppedChildIsPublished(s, s.call.run); }
  }

  lemma StoppedChildIsPublished(s: State, r: nat)
    requires ChildrenOk(s) && r in s.runs && s.runs[r].closes > 0
    ensures !Current(s, r)
  {
    assert ChildOk(s, r);
  }

  lemma SectionKeeps(s: State, step: Step)
    requires Inv(s) && IsSection(step) && Apply(s, step).Some?
    ensures Inv(Apply(s, step).value)
  {
    hide HandleOk, LogsOk, CallOk, ClientOk, Apply;
    SectionKeepsHandle(s, step);
    SectionKeepsCall(s, step);
    SectionKeepsClient(s, step);
  }

  // ---- events of the child ----

  lemma ChildEventKeepsHandle(s: State, step: Step)
    requires Inv(s) && IsChild(step) && Apply(s, step).Some?
    ensures ChildrenOk(Apply(s, step).value) && HandleOk(Apply(s, step).value) && LogsOk(Apply(s, step).value)
  {
    hide ClientOk, CallOk, Window;
    var t, r := Apply(s, step).value, step.run;
    assert ChildOk(s, r);
    if step.Line? { IncrementalWindow(s.runs[r].lines, step.text, MAX_LINES, MAX_LOG_BYTES); }
    forall k | k in t.runs ensures ChildOk(t, k) { assert ChildOk(s, k); }
  }

  lemma ChildEventKeepsCall(s: State, step: Step)
    requires Inv(s) && IsChild(step) && Apply(s, step).Some?
    ensures CallOk(Apply(s, step).value)
  {
    hide ClientOk, LogsOk, Window;
    assert ChildOk(s, step.run);
  }

  lemma ChildEventKeepsClient(s: State, step: Step)
    requires Inv(s) && IsChild(step) && Apply(s, step).Some?
    ensures ClientOk(Apply(s, step).value)
  {
    hide LogsOk, CallOk, ChildrenOk, Apply;
    if step.PublishExit? { ExitKeepsClient(s, step.run); } else { OutputKeepsClient(s, step); }
  }

  lemma ExitKeepsClient(s: State, r: nat)
    requires ChildrenOk(s) && HandleOk(s) && ClientOk(s) && Apply(s, PublishExit(r)).Some?
    ensures ClientOk(Apply(s, PublishExit(r)).value)
  {
    hide Window;
    assert ChildOk(s, r);
  }

  lemma OutputKeepsClient(s: State, step: Step)
    requires ClientOk(s) && IsChild(step) && !step.PublishExit? && Apply(s, step).Some?
    ensures ClientOk(Apply(s, step).value)
  {
    hide ClientOk, Apply;
    OutputFrame(s, step);
    FrameKeepsClient(s, Apply(s, step).value);
  }

  /** What the claims about clients depend on. */
  ghost predicate SameForClients(s: State, t: State) {
    && t.status == s.status && t.cmd == s.cmd && t.owner == s.owner && t.call == s.call && t.client == s.client
    && t.active == s.active && t.modelPath == s.modelPath
    && t.runs.Keys == s.runs.Keys && forall r :: r in s.runs ==> t.runs[r].path == s.runs[r].path && t.runs[r].model == s.runs[r].model
  }

  lemma OutputFrame(s: State, step: Step)
    requires IsChild(step) && !step.PublishExit? && Apply(s, step).Some?
    ensures SameForClients(s, Apply(s, step).value)
  {
    hide Window;
  }

  lemma FrameKeepsClient(s: State, t: State)
    requires ClientOk(s) && SameForClients(s, t)
    ensures ClientOk(t)
  {
  }

  lemma ChildEventKeeps(s: State, step: Step)
    requires Inv(s) && IsChild(step) && Apply(s, step).Some?
    ensures Inv(Apply(s, step).value)
  {
    hide HandleOk, LogsOk, CallOk, ClientOk, Apply;
    ChildEventKeepsHandle(s, step);
    ChildEventKeepsCall(s, step);
    ChildEventKeepsClient(s, step);
  }

  // ---- clients ----

  lemma ClientKeepsRuns(s: State, step: Step)
    requires Inv(s) && !IsSection(step) && !IsChild(step) && Apply(s, step).Some?
    ensures ChildrenOk(Apply(s, step).value) && HandleOk(Apply(s, step).value) && LogsOk(Apply(s, step).value)
  {
    hide ClientOk, CallOk, LogsOk, ChildrenOk;
    SameRuns(s, Apply(s, step).value);
  }

  lemma ClientKeepsCall(s: State, step: Step)
    requires Inv(s) && !IsSection(step) && !IsChild(step) && Apply(s, step).Some?
    ensures CallOk(Apply(s, step).value)
  {
    hide LogsOk, Window, HandleOk;
  }

  lemma ClientKeepsClient(s: State, step: Step)
    requires Inv(s) && !IsSection(step) && !IsChild(step) && Apply(s, step).Some?
    ensures ClientOk(Apply(s, step).value)
  {
    hide LogsOk, ChildrenOk, HandleOk, CallOk, ClientOk, Apply;
    if step.ClientReturns? { ReturnKeepsClient(s); }
    else if step.Lock? || step.BeginDirectStop? || step.DirectReturns? { MutexKeepsClient(s, step); }
    else { SwitchStepKeepsClient(s, step); }
  }

  lemma ReturnKeepsClient(s: State)
    requires HandleOk(s) && CallOk(s) && ClientOk(s) && Apply(s, ClientReturns).Some?
    ensures ClientOk(Apply(s, ClientReturns).value)
  {
  }

  lemma MutexKeepsClient(s: State, step: Step)
    requires HandleOk(s) && CallOk(s) && ClientOk(s) && (step.Lock? || step.BeginDirectStop? || step.DirectReturns?)
    requires Apply(s, step).Some?
    ensures ClientOk(Apply(s, step).value)
  {
    hide Window;
  }

  lemma SwitchStepKeepsClient(s: State, step: Step)
    requires HandleOk(s) && CallOk(s) && ClientOk(s) && !IsSection(step) && !IsChild(step) && Apply(s, step).Some?
    requires !step.ClientReturns? && !step.Lock? && !step.BeginDirectStop? && !step.DirectReturns?
    ensures ClientOk(Apply(s, step).value)
  {
    hide Window;
  }

  lemma ClientKeeps(s: State, step: Step)
    requires Inv(s) && !IsSection(step) && !IsChild(step) && Apply(s, step).Some?
    ensures Inv(Apply(s, step).value)
  {
    hide HandleOk, LogsOk, CallOk, ClientOk, Apply;
    ClientKeepsRuns(s, step);
    ClientKeepsCall(s, step);
    ClientKeepsClient(s, step);
  }

  lemma StepKeeps(s: State, step: Step)
    requires Inv(s) && Apply(s, step).Some?
    ensures Inv(Apply(s, step).value)
  {
    hide Inv, Apply;
    if IsSection(step) { SectionKeeps(s, step); }
    else if IsChild(step) { ChildEventKeeps(s, step); }
    else { ClientKeeps(s, step); }
  }

  lemma {:induction false} RunKeeps(s: State, steps: seq<Step>)
    requires Inv(s) && Run(s, steps).Some?
    ensures Inv(Run(s, steps).value)
  {
    hide Inv, Apply;
    if steps != [] {
      RunKeeps(s, steps[..|steps| - 1]);
      StepKeeps(Run(s, steps[..|steps| - 1]).value, steps[|steps| - 1]);
    }
  }

  // ---- what it means ----

  ghost predicate Reachable(s: State) { exists steps :: Run(FRESH, steps) == Some(s) }

  lemma ReachableOk(s: State)
    requires Reachable(s)
    ensures Inv(s)
  {
    var steps :| Run(FRESH, steps) == Some(s);
    RunKeeps(FRESH, steps);
  }

  /** At no instant of a guarded removal is a child starting, or running from the removed path or
      for the removed model. */
  lemma RemovalNeverUnderLiveModel(s: State)
    requires Reachable(s) && s.client.Removing?
    ensures s.status != Starting
    ensures s.status == Running ==> s.cmd.Some? && s.cmd.value in s.runs && Some(s.runs[s.cmd.value].path) != s.client.target
                                    && s.runs[s.cmd.value].model != Some(s.client.model)
  {
    hide LogsOk, ChildrenOk;
    ReachableOk(s);
  }

  /** Whenever the switch mutex is free, nothing is starting, a running child runs the associated
      path, and the active model is exactly the one a switch launched that child for. */
  lemma RunningModelIsAssociated(s: State)
    requires Reachable(s) && s.client == Nobody
    ensures s.status != Starting
    ensures s.status == Running ==> s.cmd.Some? && s.cmd.value in s.runs && s.modelPath == Some(s.runs[s.cmd.value].path)
                                    && s.active == s.runs[s.cmd.value].model
  {
    hide Inv;
    ReachableOk(s);
    AssociationFits(s);
  }

  /** The handle, the done channel and an active status exist together; there is never a second
      child whose leader is not reaped, and the one there is is the current one. */
  lemma SingleRun(s: State, r: nat)
    requires Reachable(s) && r in s.runs
    ensures s.cmd == s.done && (s.cmd.Some? <==> Active(s.status))
    ensures s.runs[r].exit.None? ==> s.cmd == Some(r)
    ensures !s.runs[r].published <==> s.cmd == Some(r)
    ensures s.runs[r].closes == if s.runs[r].published then 1 else 0
  {
    hide LogsOk, CallOk, ClientOk;
    ReachableOk(s);
    assert ChildOk(s, r);
  }

  /** The goroutine that waits for a child always finds its own child current, so it always
      publishes; when it does, the log holds everything the child printed, within the window. */
  lemma ExitPublishedWithFullLog(s: State, r: nat)
    requires Reachable(s) && Apply(s, PublishExit(r)).Some?
    ensures r in s.runs && s.cmd == Some(r)
    ensures s.runs[r].dropped == 0 && s.runs[r].readerDone
    ensures s.logs == Window(s.runs[r].lines, MAX_LINES, MAX_LOG_BYTES)
    ensures var t := Apply(s, PublishExit(r)).value;
      t.cmd.None? && t.logs == s.logs && r in t.runs && t.runs[r].published && t.runs[r].closes == 1
      && t.status == if s.runs[r].exit == Some(true) && s.status != Stopping then Failed else Stopped
  {
    hide CallOk, ClientOk, Window;
    ReachableOk(s);
    assert ChildOk(s, r);
  }

  /** The log always holds lines of the newest run only, and none of them was dropped. */
  lemma LogIsNewestRun(s: State)
    requires Reachable(s)
    ensures s.next == 0 ==> s.logs == []
    ensures s.next > 0 ==> s.next - 1 in s.runs && s.logs == Window(s.runs[s.next - 1].lines, MAX_LINES, MAX_LOG_BYTES)
    ensures forall r :: r in s.runs ==> s.runs[r].dropped == 0
  {
    hide CallOk, ClientOk, Window;
    ReachableOk(s);
    forall r | r in s.runs ensures s.runs[r].dropped == 0 { assert ChildOk(s, r); }
  }

  // ---- what a section may rely on ----

  /** While nobody holds the switch mutex the association fits the child. */
  lemma AssociationFits(s: State)
    requires Inv(s) && s.client == Nobody
    ensures s.status != Starting
    ensures s.status == Running ==> s.cmd.Some? && s.cmd.value in s.runs && s.modelPath == Some(s.runs[s.cmd.value].path)
                                    && s.active == s.runs[s.cmd.value].model
  {
    hide LogsOk, ChildrenOk;
  }

  /** A child whose exit is not published is the current one and the newest, and the log is its own. */
  lemma UnpublishedIsCurrent(s: State, r: nat)
    requires Inv(s) && r in s.runs && !s.runs[r].published
    ensures s.cmd == Some(r) && s.done == Some(r) && Active(s.status) && s.runs[r].closes == 0 && s.runs[r].dropped == 0
    ensures s.logs == Window(s.runs[r].lines, MAX_LINES, MAX_LOG_BYTES)
  {
    hide CallOk, ClientOk, Window;
    assert ChildOk(s, r);
  }

  lemma OpenIsUnpublished(s: State, r: nat)
    requires Inv(s) && r in s.runs && !s.runs[r].readerDone
    ensures !s.runs[r].published
  {
    hide CallOk, ClientOk, LogsOk, HandleOk;
    assert ChildOk(s, r);
  }

  /** With no active status every child's exit is published. */
  lemma IdleMeansAllPublished(s: State)
    requires Inv(s)
    ensures s.cmd.None? <==> !Active(s.status)
    ensures s.cmd.None? ==> forall r :: r in s.runs ==> s.runs[r].published
    ensures s.cmd.Some? ==> s.cmd.value in s.runs && !s.runs[s.cmd.value].published
  {
    hide CallOk, ClientOk, LogsOk;
    forall r | r in s.runs && s.cmd.None? ensures s.runs[r].published { assert ChildOk(s, r); }
    if s.cmd.Some? { assert ChildOk(s, s.cmd.value); }
  }

  lemma ReadinessFits(s: State, r: nat)
    requires Inv(s) && s.owner.Some? && s.call == Publish(r)
    ensures r in s.runs && (s.cmd == Some(r) && s.status == Starting <==> !s.runs[r].published)
    ensures s.status != Running
  {
    hide LogsOk, ClientOk;
    assert ChildOk(s, r);
  }

  /** A stop reported as done has left nothing up. */
  lemma StopReturnFits(s: State)
    requires Inv(s) && s.owner == Some(Who.Client) && s.call == Return(true) && (s.client.SwitchStopping? || s.client == PlainStopping)
    ensures !Active(s.status)
  {
    hide LogsOk, ChildrenOk;
  }

  // ---- readiness against exit ----

  /** Readiness is published exactly when the exit of the same run has not been. */
  lemma RunningPublishedIffExitIsNot(s: State)
    requires Reachable(s) && s.owner.Some? && s.call.Publish?
    ensures s.call.run in s.runs && Apply(s, PublishSection).Some?
    ensures Apply(s, PublishSection).value.status == Running <==> !s.runs[s.call.run].published
  {
    hide LogsOk, ClientOk;
    ReachableOk(s);
    assert ChildOk(s, s.call.run);
  }

  lemma RunThen(s: State, steps: seq<Step>, step: Step)
    requires Run(s, steps).Some?
    ensures Run(s, steps + [step]) == Apply(Run(s, steps).value, step)
  {
    assert (steps + [step])[..|steps|] == steps;
  }

  lemma ReachableNext(s: State, step: Step)
    requires Reachable(s) && Apply(s, step).Some?
    ensures Reachable(Apply(s, step).value)
  {
    hide Apply;
    var steps :| Run(FRESH, steps) == Some(s);
    RunThen(FRESH, steps, step);
  }

  /** That is weaker than "the child is alive".  Wherever a probe has answered for a live child,
      the child may be reaped before the section runs, and is then published as running. */
  lemma ReapedChildPublishedAsRunning(s: State, err: bool)
    requires Reachable(s) && s.owner.Some? && s.call.Publish? && s.call.run in s.runs && s.runs[s.call.run].exit.None?
    ensures exists t :: Reachable(t) && t.status == Running && t.cmd == Some(s.call.run)
              && s.call.run in t.runs && t.runs[s.call.run].exit == Some(err)
  {
    SingleRun(s, s.call.run);
    ReachableNext(s, Reap(s.call.run, err));
    var a := Apply(s, Reap(s.call.run, err)).value;
    RunningPublishedIffExitIsNot(a);
    ReachableNext(a, PublishSection);
    var t := Apply(a, PublishSection).value;
    assert t.status == Running && t.cmd == Some(s.call.run);
  }

  /** Such a state exists: the first start of a fresh service, right after its probe answers. */
  lemma ProbeAnswersForLiveChild(path: Path)
    ensures exists s :: Reachable(s) && s.owner.Some? && s.call == Publish(0) && 0 in s.runs && s.runs[0].exit.None?
  {
    assert Run(FRESH, []) == Some(FRESH);
    ReachableNext(FRESH, BeginStart(path, true));
    var a := FRESH.(client := PlainStarting(path, true));
    ReachableNext(a, Lock);
    var b := a.(owner := Some(Who.Client), call := StartEntry(path, None, true));
    ReachableNext(b, StartSection(true));
    var c := StartSectionStep(b, true).value;
    ReachableNext(c, Poll(true));
    var d := c.(call := Publish(0));
    assert Reachable(d) && 0 in d.runs && d.runs[0].exit.None?;
  }
}

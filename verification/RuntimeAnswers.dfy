/** When the switch service says yes, and that it always can. */
module RuntimeAnswers {
  import opened Wrappers
  import opened RuntimeProtocol
  import opened RuntimeSafety

  // ---- the deletion guard ----

  /** The guard refuses exactly while the runtime is up with this model or this path recorded. */
  lemma GuardIff(s: State, id: string, target: Option<Path>)
    ensures Apply(s, Guard(id, target)).Some? <==>
              s.client == Nobody
              && !(s.status in {Starting, Running, Stopping} && (s.active == Some(id) || (target.Some? && s.modelPath == target)))
    ensures Apply(s, Guard(id, target)).Some? ==> Apply(s, Guard(id, target)).value == s.(client := Removing(id, target))
  {
  }

  /** So with the switch mutex free and a child running, a removal is granted exactly when the child was
      launched neither for the model nor from the path; with nothing up it is always granted. */
  lemma RemovalGrantedIff(s: State, id: string, target: Option<Path>)
    requires Reachable(s) && s.client == Nobody
    ensures s.status == Running ==>
              s.cmd.Some? && s.cmd.value in s.runs
              && (Apply(s, Guard(id, target)).Some? <==>
                    s.runs[s.cmd.value].model != Some(id) && Some(s.runs[s.cmd.value].path) != target)
    ensures s.status in {Stopped, Failed} ==> Apply(s, Guard(id, target)).Some?
  {
    hide Apply;
    RunningModelIsAssociated(s);
    GuardIff(s, id, target);
  }

  // ---- what a start reports ----

  /** The last look of a start: it reports success exactly when the exit of its own run has not been
      published in between. */
  lemma StartReportsIff(s: State)
    requires Reachable(s) && s.owner.Some? && s.call.Recheck?
    ensures s.call.run in s.runs && Apply(s, RecheckSection) == Some(s.(call := Return(s.status == Running)))
    ensures s.status == Running <==> !s.runs[s.call.run].published
    ensures s.status == Running ==> s.cmd == Some(s.call.run)
  {
    hide LogsOk, ClientOk;
    ReachableOk(s);
    assert ChildOk(s, s.call.run);
  }

  /** A probe that failed, or a process that was gone, makes the start stop its child and report failure. */
  lemma FailedProbeStops(s: State)
    requires Reachable(s) && s.owner.Some? && s.call.Polling?
    ensures Apply(s, Poll(false)) == Some(s.(call := AbortEntry)) && Apply(s, Poll(true)) == Some(s.(call := Publish(s.call.run)))
    ensures var a := s.(call := AbortEntry);
      Apply(a, AbortSection) ==
        if s.cmd.None? then Some(a.(call := Return(false))) else Some(a.(status := Stopping, call := AbortWait(s.cmd.value)))
    ensures s.cmd.Some? ==>
              Apply(s.(status := Stopping, call := AbortWait(s.cmd.value)), AbortDone) == Some(s.(status := Stopping, call := Return(false)))
  {
  }

  // ---- a switch can always be carried through ----

  ghost predicate Reaches(s: State, t: State) { exists steps :: Run(s, steps) == Some(t) }

  lemma ReachesSelf(s: State)
    ensures Reaches(s, s)
  {
    assert Run(s, []) == Some(s);
  }

  lemma ReachesNext(s: State, t: State, step: Step, u: State)
    requires Reaches(s, t) && Apply(t, step) == Some(u)
    ensures Reaches(s, u)
  {
    hide Apply;
    var steps :| Run(s, steps) == Some(t);
    RunThen(s, steps, step);
  }

  lemma ReachesKeeps(s: State, t: State)
    requires Inv(s) && Reaches(s, t)
    ensures Inv(t)
  {
    hide Inv, Run;
    var steps :| Run(s, steps) == Some(t);
    RunKeeps(s, steps);
  }

  /** The exit of the current child: reader, leader, output, publication. */
  lemma ChildEnds(s: State, t: State, r: nat) returns (u: State)
    requires Inv(t) && Reaches(s, t) && t.status == Stopping && t.cmd == Some(r)
    ensures Reaches(s, u) && Inv(u) && u.status == Stopped && u.cmd.None? && r in u.runs && u.runs[r].closes == 1
    ensures u == t.(status := Stopped, cmd := None, done := None, runs := u.runs, logs := u.logs)
  {
    hide Apply, Inv, ChildOk;
    IdleMeansAllPublished(t);
    UnpublishedIsCurrent(t, r);
    var a := SetRun(t, r, t.runs[r].(readerDone := true));
    ChildApplies(t, r);
    ReachesNext(s, t, ReaderEnds(r), a);
    StepKeeps(t, ReaderEnds(r));
    var b := a;
    if a.runs[r].exit.None? {
      b := SetRun(a, r, a.runs[r].(exit := Some(false)));
      ChildApplies(a, r);
      ReachesNext(s, a, Reap(r, false), b);
      StepKeeps(a, Reap(r, false));
    }
    var d := SetRun(b, r, b.runs[r].(drained := true));
    ChildApplies(b, r);
    ReachesNext(s, b, Drain(r), d);
    StepKeeps(b, Drain(r));
    UnpublishedIsCurrent(d, r);
    ChildApplies(d, r);
    u := PublishExitStep(d, r).value;
    ReachesNext(s, d, PublishExit(r), u);
    StepKeeps(d, PublishExit(r));
  }

  lemma ChildApplies(s: State, r: nat)
    requires r in s.runs
    ensures Apply(s, ReaderEnds(r)) == Some(SetRun(s, r, s.runs[r].(readerDone := true)))
    ensures s.runs[r].exit.None? ==> Apply(s, Reap(r, false)) == Some(SetRun(s, r, s.runs[r].(exit := Some(false))))
    ensures s.runs[r].exit.Some? && s.runs[r].readerDone ==> Apply(s, Drain(r)) == Some(SetRun(s, r, s.runs[r].(drained := true)))
    ensures Apply(s, PublishExit(r)) == PublishExitStep(s, r)
  {
  }

  /** Stopping what is up: the opening section, the exit, and the return. */
  lemma StopRuns(s: State, t: State, after: After) returns (u: State)
    requires Inv(t) && Reaches(s, t) && t.owner == Some(Who.Client) && t.call == StopEntry(after)
    ensures Reaches(s, u) && Inv(u) && !Active(u.status) && u.call == Continue(after)
    ensures u.owner == t.owner && u.client == t.client && u.active == t.active && u.modelPath == t.modelPath
  {
    hide Inv;
    IdleMeansAllPublished(t);
    var a := StopSectionStep(t).value;
    ReachesNext(s, t, StopSection, a);
    StepKeeps(t, StopSection);
    if t.cmd.None? {
      u := a;
    } else {
      var b := ChildEnds(s, a, t.cmd.value);
      u := b.(call := Continue(after));
      ReachesNext(s, b, StopDone, u);
      StepKeeps(b, StopDone);
    }
  }

  /** A start with nothing up: launch, probe, publish, look again. */
  lemma StartRuns(s: State, t: State, path: Path, model: Option<string>) returns (u: State)
    requires Inv(t) && Reaches(s, t) && t.owner == Some(Who.Client) && t.call == StartEntry(path, model, true) && !Active(t.status)
    ensures Reaches(s, u) && Inv(u) && u.status == Running && u.call == Return(true) && u.owner == t.owner && u.client == t.client
    ensures u.cmd.Some? && u.cmd.value in u.runs && u.runs[u.cmd.value].path == path && u.runs[u.cmd.value].model == model
  {
    hide Inv;
    var a := StartSectionStep(t, true).value;
    ReachesNext(s, t, StartSection(true), a);
    StepKeeps(t, StartSection(true));
    var b := a.(call := Publish(t.next));
    ReachesNext(s, a, Poll(true), b);
    StepKeeps(a, Poll(true));
    var d := b.(status := Running, call := Recheck(t.next));
    ReachesNext(s, b, PublishSection, d);
    StepKeeps(b, PublishSection);
    u := d.(call := Return(true));
    ReachesNext(s, d, RecheckSection, u);
    StepKeeps(d, RecheckSection);
  }

  lemma Opens(s: State, id: string, path: Path)
    requires s.client == Nobody
    ensures Apply(s, BeginSwitch(id, path, true)) == Some(s.(client := SwitchRead(id, path, true)))
  {
  }

  lemma OpensStop(s: State)
    requires s.client == Nobody
    ensures Apply(s, BeginStop) == Some(s.(client := PlainStopping))
  {
  }

  lemma Decides(s: State, id: string, path: Path)
    requires s.client == SwitchRead(id, path, true)
    ensures Apply(s, SwitchReads) == Some(if Active(s.status) then s.(client := SwitchStopping(id, path, true))
                                          else ClearAssociation(s).(client := SwitchStarting(id, path, true)))
  {
  }

  lemma Locks(s: State)
    requires s.owner.None? && ClientCall(s.client).Some?
    ensures Apply(s, Lock) == Some(s.(owner := Some(Who.Client), call := ClientCall(s.client).value))
  {
  }

  lemma Returns(s: State)
    requires s.owner == Some(Who.Client) && s.call == Return(true)
    ensures Apply(s, ClientReturns) == ClientReturnsStep(s)
  {
  }

  /** A switch that has stopped what was up, if anything, and is about to start. */
  lemma SwitchClears(s: State, id: string, path: Path) returns (t: State)
    requires Inv(s) && s.client == Nobody && s.owner.None?
    ensures Reaches(s, t) && Inv(t) && t.client == SwitchStarting(id, path, true) && t.owner.None? && !Active(t.status)
  {
    hide Inv, Apply, Reaches;
    ReachesSelf(s);
    Opens(s, id, path);
    var a := s.(client := SwitchRead(id, path, true));
    ReachesNext(s, s, BeginSwitch(id, path, true), a);
    Decides(a, id, path);
    t := Apply(a, SwitchReads).value;
    ReachesNext(s, a, SwitchReads, t);
    ReachesKeeps(s, t);
    if Active(s.status) {
      Locks(t);
      var d := t.(owner := Some(Who.Client), call := StopEntry(Nothing));
      ReachesNext(s, t, Lock, d);
      ReachesKeeps(s, d);
      var f := StopRuns(s, d, Nothing);
      Returns(f);
      t := ClientReturnsStep(f).value;
      ReachesNext(s, f, ClientReturns, t);
      ReachesKeeps(s, t);
    }
  }

  /** From every reachable state in which no operation is in progress a switch can be carried through:
      whatever was up is stopped, and the new model runs and is the one recorded. */
  lemma SwitchCanSucceed(s: State, id: string, path: Path)
    requires Reachable(s) && s.client == Nobody && s.owner.None?
    ensures exists t :: Reaches(s, t) && t.client == Nobody && t.owner.None? && t.status == Running
              && t.active == Some(id) && t.modelPath == Some(path)
              && t.cmd.Some? && t.cmd.value in t.runs && t.runs[t.cmd.value].path == path && t.runs[t.cmd.value].model == Some(id)
  {
    hide Inv, Apply, Reaches;
    ReachableOk(s);
    var e := SwitchClears(s, id, path);
    Locks(e);
    var g := e.(owner := Some(Who.Client), call := StartEntry(path, Some(id), true));
    ReachesNext(s, e, Lock, g);
    ReachesKeeps(s, g);
    var h := StartRuns(s, g, path, Some(id));
    Returns(h);
    var t := ClientReturnsStep(h).value;
    ReachesNext(s, h, ClientReturns, t);
  }

  /** And a stop. */
  lemma StopCanSucceed(s: State)
    requires Reachable(s) && s.client == Nobody && s.owner.None?
    ensures exists t :: Reaches(s, t) && t.client == Nobody && t.owner.None? && !Active(t.status)
              && t.cmd.None? && t.active.None? && t.modelPath.None?
  {
    hide Inv, Apply, Reaches;
    ReachableOk(s);
    ReachesSelf(s);
    OpensStop(s);
    var a := s.(client := PlainStopping);
    ReachesNext(s, s, BeginStop, a);
    Locks(a);
    var b := a.(owner := Some(Who.Client), call := StopEntry(Nothing));
    ReachesNext(s, a, Lock, b);
    ReachesKeeps(s, b);
    var d := StopRuns(s, b, Nothing);
    IdleMeansAllPublished(d);
    Returns(d);
    var t := ClientReturnsStep(d).value;
    ReachesNext(s, d, ClientReturns, t);
  }

  lemma OpensRestart(s: State, path: Path)
    requires s.client == Nobody
    ensures Apply(s, BeginRestart(path, true)) == Some(s.(client := Restarting(path)))
    ensures Apply(s, BeginRestart(path, false)) == Some(s.(client := RestartRead(path, false)))
  {
  }

  lemma ReadsRestart(s: State, path: Path)
    requires s.client == RestartRead(path, true)
    ensures Apply(s, RestartReads) == Some(s.(client := Nobody, active := None, modelPath := Some(path)))
  {
  }

  /** And a restart, after which the new child runs and no model is recorded for it. */
  lemma RestartCanSucceed(s: State, path: Path)
    requires Reachable(s) && s.client == Nobody && s.owner.None?
    ensures exists t :: Reaches(s, t) && t.client == Nobody && t.owner.None? && t.status == Running
              && t.active.None? && t.modelPath == Some(path)
              && t.cmd.Some? && t.cmd.value in t.runs && t.runs[t.cmd.value].path == path
  {
    hide Inv, Apply, Reaches;
    ReachableOk(s);
    ReachesSelf(s);
    OpensRestart(s, path);
    var a := s.(client := Restarting(path));
    ReachesNext(s, s, BeginRestart(path, true), a);
    Locks(a);
    var b := a.(owner := Some(Who.Client), call := StopEntry(ThenStart(path)));
    ReachesNext(s, a, Lock, b);
    ReachesKeeps(s, b);
    var d := StopRuns(s, b, ThenStart(path));
    var h := StartRuns(s, d, path, None);
    Returns(h);
    var e := ClientReturnsStep(h).value;
    ReachesNext(s, h, ClientReturns, e);
    ReadsRestart(e, path);
    var t := Apply(e, RestartReads).value;
    ReachesNext(s, e, RestartReads, t);
  }

  // ---- no operation is stuck ----

  function CallLeft(call: Call): nat {
    match call
    case Polling(_) => 3
    case AbortEntry | Publish(_) | StopEntry(_) => 2
    case AbortWait(_) | Recheck(_) | StopWait(_, _) | StartEntry(_, _, _) => 1
    case Return(_) => 0
  }

  /** What brings a supervisor operation to its return, at worst with a failure. */
  function NextOf(call: Call): Step {
    match call
    case StartEntry(_, _, _) => StartSection(false)
    case Polling(_) => Poll(false)
    case Publish(_) => PublishSection
    case Recheck(_) => RecheckSection
    case AbortEntry => AbortSection
    case AbortWait(_) => AbortDone
    case StopEntry(_) => StopSection
    case _ => StopGivesUp
  }

  lemma CallAdvances(s: State)
    requires s.owner.Some? && !s.call.Return?
    ensures Apply(s, NextOf(s.call)).Some?
    ensures var t := Apply(s, NextOf(s.call)).value; t.owner == s.owner && t.client == s.client && CallLeft(t.call) < CallLeft(s.call)
  {
    match s.call
    case StopEntry(after) => StopAdvances(s);
    case _ =>
  }

  lemma StopAdvances(s: State)
    requires s.owner.Some? && s.call.StopEntry?
    ensures StopSectionStep(s).Some?
    ensures var t := StopSectionStep(s).value; t.owner == s.owner && t.client == s.client && CallLeft(t.call) < CallLeft(s.call)
  {
  }

  lemma {:induction false} CallEnds(s: State, t: State) returns (u: State)
    requires Reaches(s, t) && t.owner.Some?
    ensures Reaches(s, u) && u.owner == t.owner && u.client == t.client && u.call.Return?
    decreases CallLeft(t.call)
  {
    hide Apply, Reaches;
    if t.call.Return? {
      u := t;
    } else {
      CallAdvances(t);
      var v := Apply(t, NextOf(t.call)).value;
      ReachesNext(s, t, NextOf(t.call), v);
      u := CallEnds(s, v);
    }
  }

  function ClientLeft(c: Client): nat {
    match c
    case Nobody => 0
    case SwitchRead(_, _, _) => 4
    case SwitchStopping(_, _, _) => 3
    case SwitchStarting(_, _, _) | Restarting(_) => 2
    case _ => 1
  }

  lemma LastReturn(s: State)
    requires Inv(s) && s.owner.Some? && s.call.Return?
    ensures s.owner == Some(Direct) ==> Apply(s, DirectReturns) == Some(s.(owner := None))
    ensures s.owner == Some(Who.Client) ==>
              var t := Apply(s, ClientReturns); t.Some? && t.value.owner.None? && ClientLeft(t.value.client) < ClientLeft(s.client)
  {
    hide ChildrenOk, LogsOk, HandleOk, CallOk, StartFits, Associated, StopOnly, Runs;
  }

  /** The operation mutex is given back. */
  lemma OwnerLeaves(s: State, t: State) returns (u: State)
    requires Inv(s) && Reaches(s, t) && t.owner.Some?
    ensures Reaches(s, u) && u.owner.None?
    ensures t.owner == Some(Direct) ==> u.client == t.client
    ensures t.owner == Some(Who.Client) ==> ClientLeft(u.client) < ClientLeft(t.client)
  {
    hide Inv, Apply, Reaches;
    var v := CallEnds(s, t);
    ReachesKeeps(s, v);
    LastReturn(v);
    assert v.owner.value == Direct || v.owner.value == Who.Client;
    var step := if v.owner == Some(Direct) then DirectReturns else ClientReturns;
    u := Apply(v, step).value;
    ReachesNext(s, v, step, u);
  }

  /** What the client does next once nobody holds the operation mutex. */
  function ClientNext(c: Client): Step {
    match c
    case SwitchRead(_, _, _) => SwitchReads
    case RestartRead(_, _) => RestartReads
    case Removing(_, _) => RemovalEnds
    case _ => Lock
  }

  lemma ClientAdvances(s: State)
    requires s.owner.None? && s.client != Nobody
    ensures Apply(s, ClientNext(s.client)).Some?
    ensures var t := Apply(s, ClientNext(s.client)).value;
      if ClientNext(s.client) == Lock then t.owner == Some(Who.Client) && t.client == s.client
      else t.owner.None? && ClientLeft(t.client) < ClientLeft(s.client)
  {
  }

  lemma {:induction false} ClientEnds(s: State, t: State) returns (u: State)
    requires Inv(s) && Reaches(s, t) && t.owner.None?
    ensures Reaches(s, u) && u.owner.None? && u.client == Nobody
    decreases ClientLeft(t.client)
  {
    hide Inv, Apply, Reaches;
    if t.client == Nobody {
      u := t;
    } else {
      ClientAdvances(t);
      var v := Apply(t, ClientNext(t.client)).value;
      ReachesNext(s, t, ClientNext(t.client), v);
      if v.owner.Some? { v := OwnerLeaves(s, v); }
      u := ClientEnds(s, v);
    }
  }

  /** No operation is ever stuck: from every reachable state a run leads to one with none in progress. */
  lemma OperationsCanEnd(s: State)
    requires Reachable(s)
    ensures exists t :: Reaches(s, t) && t.owner.None? && t.client == Nobody
  {
    hide Inv, Apply, Reaches;
    ReachableOk(s);
    ReachesSelf(s);
    var t := s;
    if t.owner.Some? { t := OwnerLeaves(s, t); }
    var u := ClientEnds(s, t);
  }
}

/** The supervisor and switch service as objects: the sections that run under their locks.

    Each method is one section of the code and is proved to take exactly the step of
    `RuntimeProtocol` of the same name, so every claim about runs of steps is a claim about
    them.  `owner`, `call` and `client` are the program counters of the goroutines involved
    and `runs` is the history of launched children; both exist only to state the claims. */
module SupervisorService {
  import opened Wrappers
  import opened Utf8
  import opened LogWindow
  import opened RuntimeProtocol
  import opened RuntimeSafety

  class Supervisor {
    var status: Status
    var cmd: Option<nat>
    var done: Option<nat>
    var logs: seq<Text>
    var next: nat
    var active: Option<string>
    var modelPath: Option<Path>
    ghost var runs: map<nat, Child>
    ghost var owner: Option<Who>
    ghost var call: Call
    ghost var client: Client

    ghost function View(): State reads this {
      State(status, cmd, done, logs, runs, next, owner, call, client, active, modelPath)
    }

    ghost predicate Valid() reads this { Inv(View()) }

    constructor ()
      ensures View() == FRESH && Valid()
    {
      status, cmd, done, logs, next := Stopped, None, None, [], 0;
      active, modelPath := None, None;
      runs, owner, call, client := map[], None, Return(true), Nobody;
    }

    /** The launch section: refuse a second start, spawn, and install the new run. */
    method LaunchLocked(path: Path, ghost model: Option<string>, valid: bool, spawn: bool) returns (err: bool)
      requires Valid() && owner.Some? && call == StartEntry(path, model, valid)
      modifies this
      ensures Valid() && StartSectionStep(old(View()), spawn) == Some(View())
      ensures err <==> call == Return(false)
      ensures err <==> !valid || !spawn || old(status) in {Starting, Running, Stopping}
      ensures !err ==> call == Polling(old(next)) && old(next) in runs && runs[old(next)].path == path && runs[old(next)].model == model
      ensures err ==> status == old(status) && cmd == old(cmd) && done == old(done) && logs == old(logs) && runs == old(runs)
      // a launch finds no child whose exit is still to be published
      ensures !err ==> cmd == done == Some(old(next)) && status == Starting && logs == []
                       && forall r :: r in old(runs) ==> old(runs)[r].published
    {
      hide Inv;
      IdleMeansAllPublished(View());
      SectionKeeps(View(), StartSection(spawn));
      if !valid || status == Starting || status == Running || status == Stopping || !spawn {
        call := Return(false);
        return true;
      }
      cmd, done := Some(next), Some(next);
      status, logs := Starting, [];
      runs := runs[next := Child(path, model, None, false, false, false, 0, [], 0)];
      call := Polling(next);
      next := next + 1;
      err := false;
    }

    /** Publish readiness if the run is still the current one and nobody stopped it. */
    method ReadyLocked(run: nat)
      requires Valid() && owner.Some? && call == Publish(run)
      modifies this`status, this`call
      ensures Valid() && PublishSectionStep(old(View())) == Some(View())
      ensures run in runs && (status == Running <==> !runs[run].published)
    {
      hide Inv;
      ReadinessFits(View(), run);
      SectionKeeps(View(), PublishSection);
      if cmd == Some(run) && status == Starting { status := Running; }
      call := Recheck(run);
    }

    /** The section that opens a stop: nothing to do without a child, otherwise mark it stopping. */
    method StopLocked(ghost after: After) returns (run: Option<nat>)
      requires Valid() && owner.Some? && call == StopEntry(after)
      modifies this`status, this`call
      ensures Valid() && StopSectionStep(old(View())) == Some(View())
      ensures run == old(cmd)
      ensures run.None? <==> old(status) !in {Starting, Running, Stopping}
      ensures run.None? ==> call == Continue(after) && status == old(status)
      ensures run.Some? ==> status == Stopping && run.value in runs && !runs[run.value].published
    {
      hide Inv;
      IdleMeansAllPublished(View());
      SectionKeeps(View(), StopSection);
      run := cmd;
      if run.None? {
        call := Continue(after);
        return;
      }
      status := Stopping;
      call := StopWait(run.value, after);
    }

    /** The section in which the waiting goroutine publishes the exit of its child. */
    method ExitLocked(run: nat, err: bool)
      requires Valid() && run in runs && runs[run].drained && !runs[run].published && runs[run].exit == Some(err)
      modifies this
      ensures Valid() && PublishExitStep(old(View()), run) == Some(View())
      // the child is the current one, so the code's early return for another child is never taken
      ensures old(cmd) == old(done) == Some(run) && cmd.None? && done.None? && !Active(status)
      ensures status == Failed <==> err && old(status) != Stopping
      ensures run in runs && runs[run].published && runs[run].closes == 1
      ensures logs == old(logs) == Window(runs[run].lines, MAX_LINES, MAX_LOG_BYTES)
    {
      hide Inv, PublishExitStep, Apply, Window;
      UnpublishedIsCurrent(View(), run);
      PublishExitShape(View(), run);
      PublishExitApplies(View(), run);
      ChildEventKeeps(View(), PublishExit(run));
      if err && status != Stopping { status := Failed; } else { status := Stopped; }
      cmd := None;
      if done.Some? {
        runs := runs[run := runs[run].(closes := runs[run].closes + 1, published := true)];
        done := None;
      }
    }

    /** One line of the child's output. */
    method LogLocked(run: nat, line: Text, truncated: bool)
      requires Valid() && run in runs && !runs[run].readerDone
      modifies this`logs, this`runs
      ensures Valid() && LineStep(old(View()), run, BoundedLine(line, truncated)) == Some(View())
      // the child is the current one, so the code's early return is never taken, no line is dropped,
      // and the log is the window of this child's lines alone
      ensures cmd == Some(run) && run in runs && runs[run].lines == old(runs)[run].lines + [BoundedLine(line, truncated)] && runs[run].dropped == 0
      ensures logs == Window(runs[run].lines, 1000, 4194304)
    {
      hide Inv, BoundedLine, Window;
      OpenIsUnpublished(View(), run);
      UnpublishedIsCurrent(View(), run);
      IncrementalWindow(runs[run].lines, BoundedLine(line, truncated), MAX_LINES, MAX_LOG_BYTES);
      var text := BoundLogLine(line, truncated);
      ChildEventKeeps(View(), Line(run, text));
      runs := runs[run := runs[run].(lines := runs[run].lines + [text])];
      logs := AppendLine(logs, text, MAX_LINES, MAX_LOG_BYTES);
    }

    // ---- the switch service ----

    /** Switch looks at the runtime: stop one that is up, or start at once with nothing associated. */
    method OpenSwitch(id: string, path: Path, valid: bool) returns (stop: bool)
      requires Valid() && client == SwitchRead(id, path, valid)
      modifies this`client, this`active, this`modelPath
      ensures Valid() && SwitchReadsStep(old(View())) == Some(View())
      ensures stop <==> old(status) in {Starting, Running, Stopping}
      ensures stop <==> client == SwitchStopping(id, path, valid)
      ensures stop ==> active == old(active) && modelPath == old(modelPath)
      ensures !stop ==> !Active(status) && active.None? && modelPath.None? && client == SwitchStarting(id, path, valid)
    {
      hide Inv;
      ClientKeeps(View(), SwitchReads);
      stop := status == Starting || status == Running || status == Stopping;
      if stop {
        client := SwitchStopping(id, path, valid);
      } else {
        active, modelPath := None, None;
        client := SwitchStarting(id, path, valid);
      }
    }

    /** What follows the supervisor's answer to a stop: forget the association if it stopped. */
    method SettleStop(ok: bool)
      requires Valid() && owner == Some(Who.Client) && call == Return(ok) && (client.SwitchStopping? || client == PlainStopping)
      modifies this`client, this`owner, this`active, this`modelPath
      ensures Valid() && ClientReturnsStep(old(View())) == Some(View())
      ensures ok ==> !Active(status) && active.None? && modelPath.None?
      ensures ok ==> client == if old(client).SwitchStopping? then SwitchStarting(old(client).id, old(client).path, old(client).valid) else Nobody
      ensures !ok ==> active == old(active) && modelPath == old(modelPath) && client == Nobody
    {
      hide Inv;
      if ok { StopReturnFits(View()); }
      ClientKeeps(View(), ClientReturns);
      owner := None;
      if ok { active, modelPath := None, None; }
      client := if ok && client.SwitchStopping? then SwitchStarting(client.id, client.path, client.valid) else Nobody;
    }

    /** What follows the supervisor's answer to a start: associate what was started. */
    method SettleStart(path: Path, id: Option<string>, ok: bool)
      requires Valid() && owner == Some(Who.Client) && call == Return(ok)
      requires if id.Some? then client.SwitchStarting? && client.id == id.value && client.path == path
               else client.PlainStarting? && client.path == path
      modifies this`client, this`owner, this`active, this`modelPath
      ensures Valid() && ClientReturnsStep(old(View())) == Some(View())
      ensures client == Nobody && (!ok ==> active == old(active) && modelPath == old(modelPath))
      ensures ok ==> active == id && modelPath == Some(path)
      // what is recorded is what runs, even after a start that failed over a running child
      ensures status == Running ==> cmd.Some? && cmd.value in runs && modelPath == Some(runs[cmd.value].path)
                                    && active == runs[cmd.value].model
    {
      hide Inv;
      ClientKeeps(View(), ClientReturns);
      owner := None;
      if ok { active, modelPath := id, Some(path); }
      client := Nobody;
      AssociationFits(View());
    }

    /** Active: forget the association of a runtime that is no longer up. */
    method ActiveModel() returns (id: Option<string>)
      requires Valid() && client == Nobody
      modifies this`active, this`modelPath
      ensures Valid() && Apply(old(View()), ActiveCall) == Some(View())
      ensures id == active && id == (if status in {Starting, Running} then old(active) else None)
      ensures modelPath == if status in {Starting, Running} then old(modelPath) else None
      ensures status == Running ==> cmd.Some? && cmd.value in runs && id == runs[cmd.value].model
    {
      hide ChildrenOk, LogsOk;
      ClientKeeps(View(), ActiveCall);
      if status != Running && status != Starting { active, modelPath := None, None; }
      id := active;
    }

    /** The decision that opens a guarded removal. */
    method GuardModelDeletion(id: string, target: Option<Path>) returns (err: bool)
      requires Valid() && client == Nobody
      modifies this`client
      ensures Valid()
      ensures err <==> GuardStep(old(View()), id, target).None?
      ensures err <==> old(status) in {Starting, Running, Stopping}
                       && (old(active) == Some(id) || (target.Some? && old(modelPath) == target))
      ensures View() == if err then old(View()) else GuardStep(old(View()), id, target).value
      ensures !err ==> client == Removing(id, target)
                       && (status == Running ==> cmd.Some? && cmd.value in runs && Some(runs[cmd.value].path) != target
                                                 && runs[cmd.value].model != Some(id))
    {
      hide ChildrenOk, LogsOk;
      var up := status == Starting || status == Running || status == Stopping;
      var samePath := target.Some? && modelPath.Some? && target.value == modelPath.value;
      if up && (active == Some(id) || samePath) { return true; }
      ClientKeeps(View(), Guard(id, target));
      client := Removing(id, target);
      err := false;
    }

    /** What Restart does with the association once the supervisor has returned. */
    method SettleRestart(path: Path, ok: bool)
      requires Valid() && client == RestartRead(path, ok)
      modifies this`client, this`active, this`modelPath
      ensures Valid() && RestartReadsStep(old(View())) == Some(View())
      ensures client == Nobody
      ensures ok ==> active.None? && modelPath == Some(path)
      // a restart that was refused before it stopped anything keeps the process and its association
      ensures !ok && status == Running ==> active == old(active) && modelPath == old(modelPath)
      ensures status == Running ==> cmd.Some? && cmd.value in runs && modelPath == Some(runs[cmd.value].path)
                                    && active == runs[cmd.value].model
      ensures status != Running && !ok ==> active.None? && modelPath.None?
    {
      hide Inv;
      ClientKeeps(View(), RestartReads);
      if ok { active, modelPath := None, Some(path); }
      else if status != Starting && status != Running { active, modelPath := None, None; }
      client := Nobody;
      AssociationFits(View());
    }
  }

  lemma PublishExitApplies(s: State, r: nat)
    ensures Apply(s, PublishExit(r)) == PublishExitStep(s, r)
  {
  }

  lemma PublishExitShape(s: State, r: nat)
    requires Inv(s) && r in s.runs && s.runs[r].drained && !s.runs[r].published && s.runs[r].exit.Some?
    ensures PublishExitStep(s, r) == Some(
              s.(status := if s.runs[r].exit.value && s.status != Stopping then Failed else Stopped, cmd := None, done := None,
                 runs := s.runs[r := s.runs[r].(closes := s.runs[r].closes + 1, published := true)]))
  {
    hide Inv;
    UnpublishedIsCurrent(s, r);
    var closed := s.runs[r].(closes := s.runs[r].closes + 1);
    assert s.runs[r := closed][r := closed.(published := true)] == s.runs[r := closed.(published := true)];
  }
}

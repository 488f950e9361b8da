/** The runtime supervisor and the switch service as a step system.

    Two mutexes matter beyond the supervisor's own state lock: the switch service's, held by
    one client operation from beginning to end, and the supervisor's operation mutex, held by
    one Start, Stop or Restart.  The shutdown path calls Stop without the switch mutex, and
    the child's exit is noticed by a goroutine of its own.  A step is one section under the
    state lock, one acquisition or release of a mutex, or one event of the child: what it
    prints, when it exits, what the readiness probe answers, which deadline fires. */
module RuntimeProtocol {
  import opened Wrappers
  import opened Utf8
  import opened LogWindow
  import Database

  type Path = Database.Path

  datatype Status = Stopped | Starting | Running | Stopping | Failed

  const MAX_LINES: nat := 1000

  predicate Active(status: Status) { status in {Starting, Running, Stopping} }

  /** One launched child, from its start to the publication of its exit.  `model` is the registered
      model a switch launched it for; `exit` is known once its leader is reaped; `closes` counts
      closings of its done channel. */
  datatype Child = Child(path: Path, model: Option<string>, exit: Option<bool>, readerDone: bool, drained: bool, published: bool,
                         closes: nat, lines: seq<Text>, dropped: nat)

  /** What follows a stop. */
  datatype After = Nothing | ThenStart(path: Path)

  /** The supervisor operation in progress. */
  datatype Call =
    | StartEntry(path: Path, model: Option<string>, valid: bool)
    | Polling(run: nat)
    | Publish(run: nat)
    | Recheck(run: nat)
    | AbortEntry
    | AbortWait(run: nat)
    | StopEntry(after: After)
    | StopWait(run: nat, after: After)
    | Return(ok: bool)

  datatype Who = Client | Direct

  /** The client operation holding the switch mutex. */
  datatype Client =
    | Nobody
    | SwitchRead(id: string, path: Path, valid: bool)
    | SwitchStopping(id: string, path: Path, valid: bool)
    | SwitchStarting(id: string, path: Path, valid: bool)
    | PlainStarting(path: Path, valid: bool)
    | Restarting(path: Path)
    | RestartRead(path: Path, ok: bool)
    | PlainStopping
    | Removing(model: string, target: Option<Path>)

  datatype State = State(status: Status, cmd: Option<nat>, done: Option<nat>, logs: seq<Text>,
                         runs: map<nat, Child>, next: nat,
                         owner: Option<Who>, call: Call,
                         client: Client, active: Option<string>, modelPath: Option<Path>)

  datatype Step =
    // the supervisor
    | StartSection(spawn: bool) | Poll(ok: bool) | PublishSection | RecheckSection
    | AbortSection | AbortDone | StopSection | StopDone | StopGivesUp
    // the child
    | Line(run: nat, text: Text) | ReaderEnds(run: nat) | Reap(run: nat, err: bool) | Drain(run: nat) | PublishExit(run: nat)
    // clients
    | BeginSwitch(id: string, path: Path, valid: bool) | SwitchReads
    | BeginStart(path: Path, valid: bool) | BeginRestart(path: Path, valid: bool) | BeginStop | BeginDirectStop
    | Lock | ClientReturns | RestartReads | DirectReturns
    | ActiveCall | Guard(id: string, target: Option<Path>) | RemovalEnds

  function SetRun(s: State, r: nat, c: Child): State { s.(runs := s.runs[r := c]) }

  // ---- the supervisor's sections ----

  function StartSectionStep(s: State, spawn: bool): Option<State> {
    if s.owner.None? || !s.call.StartEntry? then None
    else if !s.call.valid || Active(s.status) || !spawn then Some(s.(call := Return(false)))
    else Some(s.(status := Starting, cmd := Some(s.next), done := Some(s.next), logs := [], next := s.next + 1,
                 runs := s.runs[s.next := Child(s.call.path, s.call.model, None, false, false, false, 0, [], 0)],
                 call := Polling(s.next)))
  }

  /** The probe may answer, or fail, at any time: it does not know which process it reached. */
  function PollStep(s: State, ok: bool): Option<State> {
    if s.owner.None? || !s.call.Polling? then None
    else Some(s.(call := if ok then Publish(s.call.run) else AbortEntry))
  }

  function PublishSectionStep(s: State): Option<State> {
    if s.owner.None? || !s.call.Publish? then None
    else if s.cmd == Some(s.call.run) && s.status == Starting then Some(s.(status := Running, call := Recheck(s.call.run)))
    else Some(s.(call := Recheck(s.call.run)))
  }

  function RecheckSectionStep(s: State): Option<State> {
    if s.owner.None? || !s.call.Recheck? then None else Some(s.(call := Return(s.status == Running)))
  }

  function AbortSectionStep(s: State): Option<State> {
    if s.owner.None? || !s.call.AbortEntry? then None
    else if s.cmd.None? then Some(s.(call := Return(false)))
    else Some(s.(status := Stopping, call := AbortWait(s.cmd.value)))
  }

  function Continue(after: After): Call {
    match after
    case Nothing => Return(true)
    case ThenStart(path) => StartEntry(path, None, true)
  }

  function StopSectionStep(s: State): Option<State> {
    if s.owner.None? || !s.call.StopEntry? then None
    else if s.cmd.None? then Some(s.(call := Continue(s.call.after)))
    else Some(s.(status := Stopping, call := StopWait(s.cmd.value, s.call.after)))
  }

  function StopDoneStep(s: State): Option<State> {
    if s.owner.None? || !s.call.StopWait? || s.call.run !in s.runs || s.runs[s.call.run].closes == 0 then None
    else Some(s.(call := Continue(s.call.after)))
  }

  // ---- the child ----

  /** One line read from the child's pipe; lines of a run that is no longer current are dropped. */
  function LineStep(s: State, r: nat, text: Text): Option<State> {
    if r !in s.runs || s.runs[r].readerDone then None
    else
      var c := s.runs[r].(lines := s.runs[r].lines + [text]);
      if s.cmd == Some(r) then Some(SetRun(s, r, c).(logs := Window(s.logs + [text], MAX_LINES, MAX_LOG_BYTES)))
      else Some(SetRun(s, r, c.(dropped := c.dropped + 1)))
  }

  function PublishExitStep(s: State, r: nat): Option<State> {
    if r !in s.runs || !s.runs[r].drained || s.runs[r].exit.None? || s.runs[r].published then None
    else if s.cmd != Some(r) then Some(SetRun(s, r, s.runs[r].(published := true)))
    else
      var status := if s.runs[r].exit.value && s.status != Stopping then Failed else Stopped;
      var t := s.(status := status, cmd := None, done := None);
      var closed := if s.done.Some? && s.done.value in s.runs
                    then SetRun(t, s.done.value, s.runs[s.done.value].(closes := s.runs[s.done.value].closes + 1)) else t;
      Some(if r in closed.runs then SetRun(closed, r, closed.runs[r].(published := true)) else closed)
  }

  // ---- the clients ----

  function ClientCall(c: Client): Option<Call> {
    match c
    case SwitchStopping(_, _, _) => Some(StopEntry(Nothing))
    case SwitchStarting(id, path, valid) => Some(StartEntry(path, Some(id), valid))
    case PlainStarting(path, valid) => Some(StartEntry(path, None, valid))
    case Restarting(path) => Some(StopEntry(ThenStart(path)))
    case PlainStopping => Some(StopEntry(Nothing))
    case _ => None
  }

  /** Taking the operation mutex. */
  function LockStep(s: State): Option<State> {
    if s.owner.Some? || ClientCall(s.client).None? then None
    else Some(s.(owner := Some(Who.Client), call := ClientCall(s.client).value))
  }

  function ClearAssociation(s: State): State { s.(active := None, modelPath := None) }

  function SwitchReadsStep(s: State): Option<State> {
    match s.client
    case SwitchRead(id, path, valid) =>
      if Active(s.status) then Some(s.(client := SwitchStopping(id, path, valid)))
      else Some(ClearAssociation(s).(client := SwitchStarting(id, path, valid)))
    case _ => None
  }

  function ClientReturnsStep(s: State): Option<State> {
    if s.owner != Some(Who.Client) || !s.call.Return? then None
    else
      var ok, t := s.call.ok, s.(owner := None);
      match s.client
      case SwitchStopping(id, path, valid) =>
        Some(if ok then ClearAssociation(t).(client := SwitchStarting(id, path, valid)) else t.(client := Nobody))
      case SwitchStarting(id, path, _) =>
        Some(if ok then t.(client := Nobody, active := Some(id), modelPath := Some(path)) else t.(client := Nobody))
      case PlainStarting(path, _) =>
        Some(if ok then t.(client := Nobody, active := None, modelPath := Some(path)) else t.(client := Nobody))
      case Restarting(path) => Some(t.(client := RestartRead(path, ok)))
      case PlainStopping => Some((if ok then ClearAssociation(t) else t).(client := Nobody))
      case _ => None
  }

  function RestartReadsStep(s: State): Option<State> {
    match s.client
    case RestartRead(path, ok) =>
      if ok then Some(s.(client := Nobody, active := None, modelPath := Some(path)))
      else if s.status != Starting && s.status != Running then Some(ClearAssociation(s).(client := Nobody))
      else Some(s.(client := Nobody))
    case _ => None
  }

  /** The decision of the deletion guard.  A refusal changes nothing and is not a step. */
  function GuardStep(s: State, id: string, path: Option<Path>): Option<State> {
    var samePath := path.Some? && s.modelPath == path;
    if s.client != Nobody || (Active(s.status) && (s.active == Some(id) || samePath)) then None
    else Some(s.(client := Removing(id, path)))
  }

  function Apply(s: State, step: Step): Option<State> {
    match step
    case StartSection(spawn) => StartSectionStep(s, spawn)
    case Poll(ok) => PollStep(s, ok)
    case PublishSection => PublishSectionStep(s)
    case RecheckSection => RecheckSectionStep(s)
    case AbortSection => AbortSectionStep(s)
    case AbortDone => if s.owner.Some? && s.call.AbortWait? then Some(s.(call := Return(false))) else None
    case StopSection => StopSectionStep(s)
    case StopDone => StopDoneStep(s)
    case StopGivesUp => if s.owner.Some? && s.call.StopWait? then Some(s.(call := Return(false))) else None
    case Line(r, text) => LineStep(s, r, text)
    case ReaderEnds(r) => if r in s.runs then Some(SetRun(s, r, s.runs[r].(readerDone := true))) else None
    case Reap(r, err) => if r in s.runs && s.runs[r].exit.None? then Some(SetRun(s, r, s.runs[r].(exit := Some(err)))) else None
    case Drain(r) =>
      if r in s.runs && s.runs[r].exit.Some? && s.runs[r].readerDone then Some(SetRun(s, r, s.runs[r].(drained := true))) else None
    case PublishExit(r) => PublishExitStep(s, r)
    case BeginSwitch(id, path, valid) => if s.client == Nobody then Some(s.(client := SwitchRead(id, path, valid))) else None
    case SwitchReads => SwitchReadsStep(s)
    case BeginStart(path, valid) => if s.client == Nobody then Some(s.(client := PlainStarting(path, valid))) else None
    case BeginRestart(path, valid) =>
      // options are checked before anything is stopped
      if s.client == Nobody then Some(s.(client := if valid then Restarting(path) else RestartRead(path, false))) else None
    case BeginStop => if s.client == Nobody then Some(s.(client := PlainStopping)) else None
    case BeginDirectStop => if s.owner.None? then Some(s.(owner := Some(Direct), call := StopEntry(Nothing))) else None
    case Lock => LockStep(s)
    case ClientReturns => ClientReturnsStep(s)
    case RestartReads => RestartReadsStep(s)
    case DirectReturns => if s.owner == Some(Direct) && s.call.Return? then Some(s.(owner := None)) else None
    case ActiveCall =>
      if s.client != Nobody then None
      else if s.status != Running && s.status != Starting then Some(ClearAssociation(s)) else Some(s)
    case Guard(id, target) => GuardStep(s, id, target)
    case RemovalEnds => if s.client.Removing? then Some(s.(client := Nobody)) else None
  }

  function Run(s: State, steps: seq<Step>): Option<State> {
    if steps == [] then Some(s)
    else
      var before := Run(s, steps[..|steps| - 1]);
      if before.None? then None else Apply(before.value, steps[|steps| - 1])
  }

  const FRESH: State := State(Stopped, None, None, [], map[], 0, None, Return(true), Nobody, None, None)
}

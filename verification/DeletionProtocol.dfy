/** Model deletion by quarantine and its crash recovery, as a step system over an abstract
    filesystem.

    A step is one filesystem operation, one transaction, or a crash.  Writing the manifest and
    removing a directory tree are several steps each: a crash can fall between any two.  The
    registry's mutex allows one deletion or one reconciliation at a time; everything else that
    can happen to registered models happens between their steps.

    Model directories are neither nested in one another nor inside the quarantine, and only
    the registry touches the directory of a registered model. */
module DeletionProtocol {
  import opened Wrappers
  import opened Coordinates
  import opened Database
  import opened DeletionManifest

  type Files = set<string>

  /** `Whole` is completely written, whatever its size. */
  datatype Manifest = Missing | Partial | Whole(id: string, original: Path)
  datatype Stage = Stage(manifest: Manifest, files: Option<Files>)

  /** `stages` are the quarantine entries named by a model id, `strangers` all other entries. */
  datatype Fs = Fs(dirs: map<Path, Files>, quarantine: bool, stages: map<string, Stage>, strangers: set<string>)

  /** Why a stage is being removed. */
  datatype Reason = NotStaged | PutBack | Committed

  datatype Op =
    | Idle
    | MakeQuarantine(id: string)
    | MakeStage(id: string)
    | CreateManifest(id: string)
    | FillManifest(id: string)
    | MoveFiles(id: string, original: Path)
    | CommitRow(id: string, original: Path)
    | MoveBack(id: string, original: Path)
    | Clean(id: string, reason: Reason)
    | DropQuarantine
    | Visit(todo: seq<string>, boot: Fs)
    | Restore(todo: seq<string>, original: Path, boot: Fs)
    | Purge(todo: seq<string>, boot: Fs)
    | CloseQuarantine(boot: Fs)

  datatype Verdict = Open | DeleteOk | DeleteErr | ReconcileOk(boot: Fs) | ReconcileErr

  /** `rows` are the registered models with managed files and where those files belong;
      `content` remembers which files each of them owns. */
  datatype State = State(rows: map<string, Path>, content: map<string, Files>, minted: set<string>, fs: Fs, op: Op, verdict: Verdict)

  datatype Piece = ManifestPiece | FilePiece(name: string) | FilesDir | StageDir

  datatype Step =
    | MakeDir(path: Path, files: Files)
    | Register(id: string, path: Path)
    | Stranger(name: string)
    | BeginDelete(id: string)
    | ForgetRow(id: string)
    | Advance(ok: bool)
    | Remove(piece: Piece)
    | GiveUp
    | BeginReconcile(order: seq<string>)
    | Crash

  function SetStage(s: State, id: string, stage: Stage): State {
    s.(fs := s.fs.(stages := s.fs.stages[id := stage]))
  }

  function Finish(s: State, verdict: Verdict): State { s.(op := Idle, verdict := verdict) }

  /** One filesystem operation or transaction of a deletion; `ok` is the operating system's or
      SQLite's answer. */
  function DeleteAdvance(s: State, ok: bool): Option<State> {
    match s.op
    case MakeQuarantine(id) =>
      if ok then Some(s.(fs := s.fs.(quarantine := true), op := MakeStage(id)))
      else Some(Finish(s, DeleteErr))
    case MakeStage(id) =>
      if ok && id !in s.fs.stages then Some(SetStage(s, id, Stage(Missing, None)).(op := CreateManifest(id)))
      else Some(Finish(s, DeleteErr))
    case CreateManifest(id) =>
      if id !in s.fs.stages then None
      else if ok then Some(SetStage(s, id, s.fs.stages[id].(manifest := Partial)).(op := FillManifest(id)))
      else Some(s.(op := Clean(id, NotStaged)))
    case FillManifest(id) =>
      if id !in s.fs.stages || id !in s.rows then None
      else if ok then
        Some(SetStage(s, id, s.fs.stages[id].(manifest := Whole(id, s.rows[id]))).(op := MoveFiles(id, s.rows[id])))
      else Some(s.(op := Clean(id, NotStaged)))
    case MoveFiles(id, original) =>
      if id !in s.fs.stages then None
      else if ok && original in s.fs.dirs && s.fs.stages[id].files.None? then
        var staged := SetStage(s, id, s.fs.stages[id].(files := Some(s.fs.dirs[original])));
        Some(staged.(fs := staged.fs.(dirs := s.fs.dirs - {original}), op := CommitRow(id, original)))
      else Some(s.(op := Clean(id, NotStaged)))
    case CommitRow(id, original) =>
      if ok && id in s.rows then Some(s.(rows := s.rows - {id}, op := Clean(id, Committed)))
      else Some(s.(op := MoveBack(id, original)))
    case MoveBack(id, original) =>
      if ok && id in s.fs.stages && s.fs.stages[id].files.Some? && original !in s.fs.dirs then
        var back := SetStage(s, id, s.fs.stages[id].(files := None));
        Some(back.(fs := back.fs.(dirs := s.fs.dirs[original := s.fs.stages[id].files.value]), op := Clean(id, PutBack)))
      else Some(Finish(s, DeleteErr))
    case DropQuarantine =>
      // best effort: removing the quarantine fails while anything is in it
      var empty := ok && s.fs.stages == map[] && s.fs.strangers == {};
      Some(Finish(if empty then s.(fs := s.fs.(quarantine := false)) else s, DeleteOk))
    case _ => None
  }

  /** The manifest reconciliation can read. */
  predicate Legible(m: Manifest) { m.Whole? && ManifestFits(m.id, m.original) }

  predicate KnownName(s: State, name: string) { ValidModelId(name) && name in s.fs.stages }

  /** What reconciliation decides about one entry, from its manifest and the row. */
  function VisitEntry(s: State, todo: seq<string>, boot: Fs): State
    requires todo != []
  {
    var id := todo[0];
    if !KnownName(s, id) then Finish(s, ReconcileErr)
    else
      var stage := s.fs.stages[id];
      if !Legible(stage.manifest) || stage.manifest.id != id then Finish(s, ReconcileErr)
      else if id !in s.rows then s.(op := Purge(todo, boot))
      else if s.rows[id] != stage.manifest.original then Finish(s, ReconcileErr)
      else if stage.files.None? then
        if s.rows[id] in s.fs.dirs then s.(op := Purge(todo, boot)) else Finish(s, ReconcileErr)
      else if s.rows[id] in s.fs.dirs then Finish(s, ReconcileErr)
      else s.(op := Restore(todo, s.rows[id], boot))
  }

  function ReconcileAdvance(s: State, ok: bool): Option<State> {
    match s.op
    case Visit(todo, boot) =>
      if todo == [] then Some(s.(op := CloseQuarantine(boot)))
      else if ok then Some(VisitEntry(s, todo, boot))
      else Some(Finish(s, ReconcileErr))
    case Restore(todo, original, boot) =>
      if todo == [] || todo[0] !in s.fs.stages || s.fs.stages[todo[0]].files.None? then None
      else if !ok || original in s.fs.dirs then Some(Finish(s, ReconcileErr))
      else
        var back := SetStage(s, todo[0], s.fs.stages[todo[0]].(files := None));
        Some(back.(fs := back.fs.(dirs := s.fs.dirs[original := s.fs.stages[todo[0]].files.value]), op := Purge(todo, boot)))
    case CloseQuarantine(boot) =>
      if ok && s.fs.stages == map[] && s.fs.strangers == {}
      then Some(Finish(s.(fs := s.fs.(quarantine := false)), ReconcileOk(boot)))
      else Some(Finish(s, ReconcileErr))
    case _ => None
  }

  /** The stage directory a tree removal is working on. */
  function Target(op: Op): Option<string> {
    match op
    case Clean(id, _) => Some(id)
    case Purge(todo, _) => if todo != [] then Some(todo[0]) else None
    case _ => None
  }

  function AfterRemoval(s: State): State {
    match s.op
    case Clean(_, Committed) => s.(op := DropQuarantine)
    case Clean(_, _) => Finish(s, DeleteErr)
    case Purge(todo, boot) => if todo == [] then s else s.(op := Visit(todo[1..], boot))
    case _ => s
  }

  /** One unlink or rmdir of a tree removal; the order is the directory's, so any order. */
  function RemovePiece(s: State, piece: Piece): Option<State> {
    var target := Target(s.op);
    if target.None? || target.value !in s.fs.stages then None
    else
      var id := target.value;
      var stage := s.fs.stages[id];
      match piece
      case ManifestPiece => if stage.manifest == Missing then None else Some(SetStage(s, id, stage.(manifest := Missing)))
      case FilePiece(name) =>
        if stage.files.None? || name !in stage.files.value then None
        else Some(SetStage(s, id, stage.(files := Some(stage.files.value - {name}))))
      case FilesDir => if stage.files == Some({}) then Some(SetStage(s, id, stage.(files := None))) else None
      case StageDir =>
        if stage.manifest == Missing && stage.files.None?
        then Some(AfterRemoval(s.(fs := s.fs.(stages := s.fs.stages - {id})))) else None
  }

  /** A tree removal that the operating system stops half way. */
  function GiveUpStep(s: State): Option<State> {
    match s.op
    case Clean(_, _) => Some(Finish(s, DeleteErr))
    case Purge(_, _) => Some(Finish(s, ReconcileErr))
    case _ => None
  }

  function BeginReconcileStep(s: State, order: seq<string>): Option<State> {
    if s.op != Idle then None
    else if !s.fs.quarantine then Some(s.(verdict := ReconcileOk(s.fs)))
    else if Entries(s.fs, order) then Some(s.(op := Visit(order, s.fs), verdict := Open))
    else None
  }

  /** `order` lists the entries of the quarantine directory, each once. */
  predicate Entries(fs: Fs, order: seq<string>) {
    && (forall i :: 0 <= i < |order| ==> order[i] in fs.stages || order[i] in fs.strangers)
    && (forall n :: n in fs.stages.Keys + fs.strangers ==> n in order)
    && (forall i, k :: 0 <= i < k < |order| ==> order[i] != order[k])
  }

  function Apply(s: State, step: Step): Option<State> {
    match step
    case MakeDir(path, files) =>
      if path !in s.fs.dirs && path !in s.rows.Values then Some(s.(fs := s.fs.(dirs := s.fs.dirs[path := files]))) else None
    case Register(id, path) =>
      if id !in s.minted && ValidModelId(id) && path in s.fs.dirs && path !in s.rows.Values
      then Some(s.(rows := s.rows[id := path], content := s.content[id := s.fs.dirs[path]], minted := s.minted + {id})) else None
    case Stranger(name) =>
      if s.op == Idle && s.fs.quarantine && !ValidModelId(name) then Some(s.(fs := s.fs.(strangers := s.fs.strangers + {name}))) else None
    case BeginDelete(id) =>
      if s.op == Idle && id in s.rows && s.rows[id] in s.fs.dirs then Some(s.(op := MakeQuarantine(id), verdict := Open)) else None
    case ForgetRow(id) => if s.op == Idle && id in s.rows then Some(s.(rows := s.rows - {id}, verdict := DeleteOk)) else None
    case Advance(ok) => if s.op.Visit? || s.op.Restore? || s.op.CloseQuarantine? then ReconcileAdvance(s, ok) else DeleteAdvance(s, ok)
    case Remove(piece) => RemovePiece(s, piece)
    case GiveUp => GiveUpStep(s)
    case BeginReconcile(order) => BeginReconcileStep(s, order)
    case Crash => Some(s.(op := Idle, verdict := Open))
  }

  function Run(s: State, steps: seq<Step>): Option<State> {
    if steps == [] then Some(s)
    else
      var before := Run(s, steps[..|steps| - 1]);
      if before.None? then None else Apply(before.value, steps[|steps| - 1])
  }

  const FRESH: State := State(map[], map[], {}, Fs(map[], false, map[], {}), Idle, Open)
}

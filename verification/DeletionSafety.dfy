/** Deletion never loses or duplicates the files of a registered model, whatever fails and
    wherever the process dies; reconciliation settles what it can read and stops at what it
    cannot. */
module DeletionSafety {
  import opened Wrappers
  import opened Coordinates
  import opened Database
  import opened DeletionProtocol

  // ---- where the files of a registered model are ----

  predicate AtHome(s: State, id: string) {
    id in s.rows && id in s.content && s.rows[id] in s.fs.dirs && s.fs.dirs[s.rows[id]] == s.content[id]
  }

  predicate Staged(s: State, id: string) { id in s.fs.stages && s.fs.stages[id].files.Some? }

  predicate AtStage(s: State, id: string) {
    id in s.rows && id in s.content && Staged(s, id) && s.fs.stages[id].files == Some(s.content[id])
    && s.fs.stages[id].manifest == Whole(id, s.rows[id])
  }

  /** All the files are at exactly one of the two places. */
  predicate Located(s: State, id: string) {
    || (AtHome(s, id) && !Staged(s, id))
    || (AtStage(s, id) && s.rows[id] !in s.fs.dirs)
  }

  predicate StageOk(s: State, id: string) {
    && id in s.fs.stages && ValidModelId(id)
    && (s.fs.stages[id].manifest.Whole? ==> s.fs.stages[id].manifest.id == id)
    && (id in s.rows && s.fs.stages[id].manifest.Whole? ==> s.fs.stages[id].manifest.original == s.rows[id])
  }

  predicate OpOk(s: State) {
    match s.op
    case Idle | DropQuarantine => true
    case MakeQuarantine(id) => id in s.rows
    case MakeStage(id) => id in s.rows && s.fs.quarantine
    case CreateManifest(id) => id in s.rows && AtHome(s, id) && id in s.fs.stages && s.fs.stages[id] == Stage(Missing, None)
    case FillManifest(id) => id in s.rows && AtHome(s, id) && id in s.fs.stages && s.fs.stages[id] == Stage(Partial, None)
    case MoveFiles(id, original) =>
      id in s.rows && AtHome(s, id) && original == s.rows[id] && id in s.fs.stages && s.fs.stages[id] == Stage(Whole(id, original), None)
    case CommitRow(id, original) => AtStage(s, id) && original == s.rows[id]
    case MoveBack(id, original) => AtStage(s, id) && original == s.rows[id]
    case Clean(id, reason) =>
      id in s.fs.stages && if reason == Committed then id !in s.rows else AtHome(s, id) && !Staged(s, id)
    case Visit(todo, boot) => Pending(s, todo, boot)
    case Restore(todo, original, boot) =>
      Pending(s, todo, boot) && todo != [] && AtStage(s, todo[0]) && original == s.rows[todo[0]]
      && Legible(boot.stages[todo[0]].manifest)
    case Purge(todo, boot) =>
      todo != [] && todo[0] in s.fs.stages && (todo[0] in s.rows ==> AtHome(s, todo[0]) && !Staged(s, todo[0]))
      && todo[0] in boot.stages && Legible(boot.stages[todo[0]].manifest)
      && Remaining(s, todo[1..], boot) && todo[0] !in todo[1..]
      && (forall n :: n in s.fs.stages.Keys ==> n == todo[0] || n in todo[1..])
    case CloseQuarantine(boot) => Pending(s, [], boot)
  }

  /** Entries still to visit are as the directory listing found them; the visited ones could be read. */
  predicate Remaining(s: State, todo: seq<string>, boot: Fs) {
    && s.fs.quarantine && s.fs.strangers == boot.strangers
    && (forall i :: 0 <= i < |todo| ==> todo[i] in s.fs.stages || todo[i] in s.fs.strangers)
    && (forall i :: 0 <= i < |todo| && todo[i] in s.fs.stages ==>
          todo[i] in boot.stages && s.fs.stages[todo[i]] == boot.stages[todo[i]])
    && (forall i, k :: 0 <= i < k < |todo| ==> todo[i] != todo[k])
    && (forall n :: n in s.fs.strangers ==> n in todo)
    && (forall n :: n in boot.stages.Keys && n !in todo ==> Legible(boot.stages[n].manifest))
  }

  predicate Pending(s: State, todo: seq<string>, boot: Fs) {
    Remaining(s, todo, boot) && forall n :: n in s.fs.stages.Keys ==> n in todo
  }

  predicate VerdictOk(s: State) {
    s.verdict.ReconcileOk? ==>
      && (forall n :: n in s.verdict.boot.stages.Keys ==> Legible(s.verdict.boot.stages[n].manifest))
      && s.verdict.boot.strangers == {}
  }

  predicate RowsOk(s: State) {
    && (forall id :: id in s.rows ==> Located(s, id) && id in s.minted && ValidModelId(id))
    && (forall id, k :: id in s.rows && k in s.rows && s.rows[id] == s.rows[k] ==> id == k)
  }

  predicate QuarantineOk(s: State) {
    && (forall id :: id in s.fs.stages ==> StageOk(s, id) && id in s.minted)
    && (forall n :: n in s.fs.strangers ==> !ValidModelId(n))
    && (s.fs.stages != map[] || s.fs.strangers != {} ==> s.fs.quarantine)
  }

  predicate Inv(s: State) { RowsOk(s) && QuarantineOk(s) && OpOk(s) && VerdictOk(s) }

  // ---- steps of a deletion or a reconciliation touch one id ----

  /** Only the row, the stage and the directory of `id` differ. */
  ghost predicate Confined(s: State, t: State, id: string, home: Path) {
    && t.content == s.content && t.minted == s.minted && t.fs.strangers == s.fs.strangers
    && (s.fs.quarantine ==> t.fs.quarantine)
    && t.rows.Keys <= s.rows.Keys && (forall k :: k in t.rows ==> t.rows[k] == s.rows[k])
    && (forall k :: k in s.rows && k != id ==> k in t.rows && s.rows[k] != home)
    && (forall k :: k != id ==> (k in t.fs.stages <==> k in s.fs.stages))
    && (forall k :: k != id && k in t.fs.stages && k in s.fs.stages ==> t.fs.stages[k] == s.fs.stages[k])
    && (forall p :: p != home ==> (p in t.fs.dirs <==> p in s.fs.dirs))
    && (forall p :: p != home && p in t.fs.dirs && p in s.fs.dirs ==> t.fs.dirs[p] == s.fs.dirs[p])
  }

  lemma ConfinedKeeps(s: State, t: State, id: string, home: Path)
    requires RowsOk(s) && QuarantineOk(s) && Confined(s, t, id, home)
    requires id in t.rows ==> Located(t, id)
    requires id in t.fs.stages ==> StageOk(t, id) && id in t.minted && t.fs.quarantine
    ensures RowsOk(t) && QuarantineOk(t)
  {
    hide ValidModelId;
    forall k | k in t.rows ensures Located(t, k) && k in t.minted && ValidModelId(k) {
      if k != id { assert Located(s, k); }
    }
    forall k | k in t.fs.stages ensures StageOk(t, k) && k in t.minted {
      if k != id { assert StageOk(s, k); }
    }
  }

  lemma HomesDiffer(s: State, id: string)
    requires RowsOk(s) && id in s.rows
    ensures forall k :: k in s.rows && k != id ==> s.rows[k] != s.rows[id]
  {
  }

  function Subject(op: Op): Option<string> {
    match op
    case MakeStage(id) => Some(id)
    case CreateManifest(id) => Some(id)
    case FillManifest(id) => Some(id)
    case MoveFiles(id, _) => Some(id)
    case CommitRow(id, _) => Some(id)
    case MoveBack(id, _) => Some(id)
    case MakeQuarantine(id) => Some(id)
    case _ => None
  }

  lemma DeleteAdvanceOnRow(s: State, ok: bool)
    requires RowsOk(s) && QuarantineOk(s) && OpOk(s) && Subject(s.op).Some? && DeleteAdvance(s, ok).Some?
    ensures var t, id := DeleteAdvance(s, ok).value, Subject(s.op).value;
      && id in s.rows && Confined(s, t, id, s.rows[id])
      && (id in t.rows ==> Located(t, id))
      && (id in t.fs.stages ==> StageOk(t, id) && id in t.minted && t.fs.quarantine)
      && OpOk(t)
  {
    var id := Subject(s.op).value;
    RowOfSubject(s, id);
    hide OpOk, DeleteAdvance, RowsOk, QuarantineOk, Located, StageOk, Confined;
    AdvanceIsConfined(s, ok, id);
    AdvanceLocates(s, ok, id);
    AdvanceKeepsOp(s, ok, id);
  }

  lemma RowOfSubject(s: State, id: string)
    requires RowsOk(s) && QuarantineOk(s) && OpOk(s) && Subject(s.op) == Some(id)
    ensures id in s.rows && Located(s, id) && id in s.minted && ValidModelId(id)
    ensures forall k :: k in s.rows && k != id ==> s.rows[k] != s.rows[id]
    ensures id in s.fs.stages ==> StageOk(s, id) && s.fs.quarantine
  {
    hide ValidModelId, Located, StageOk;
    HomesDiffer(s, id);
  }

  lemma AdvanceIsConfined(s: State, ok: bool, id: string)
    requires Subject(s.op) == Some(id) && id in s.rows && DeleteAdvance(s, ok).Some?
    requires (s.op.MoveFiles? || s.op.CommitRow? || s.op.MoveBack?) ==> s.op.original == s.rows[id]
    requires forall k :: k in s.rows && k != id ==> s.rows[k] != s.rows[id]
    ensures Confined(s, DeleteAdvance(s, ok).value, id, s.rows[id])
  {
    hide Confined, DeleteAdvance;
    if s.op.MoveFiles? || s.op.MoveBack? { RenameIsConfined(s, ok, id); } else { StageOpIsConfined(s, ok, id); }
  }

  lemma RenameIsConfined(s: State, ok: bool, id: string)
    requires id in s.rows && (s.op == MoveFiles(id, s.rows[id]) || s.op == MoveBack(id, s.rows[id]))
    requires DeleteAdvance(s, ok).Some? && forall k :: k in s.rows && k != id ==> s.rows[k] != s.rows[id]
    ensures Confined(s, DeleteAdvance(s, ok).value, id, s.rows[id])
  {
  }

  lemma StageOpIsConfined(s: State, ok: bool, id: string)
    requires Subject(s.op) == Some(id) && !s.op.MoveFiles? && !s.op.MoveBack?
    requires id in s.rows && DeleteAdvance(s, ok).Some? && forall k :: k in s.rows && k != id ==> s.rows[k] != s.rows[id]
    ensures Confined(s, DeleteAdvance(s, ok).value, id, s.rows[id])
  {
  }

  lemma AdvanceLocates(s: State, ok: bool, id: string)
    requires OpOk(s) && Subject(s.op) == Some(id) && id in s.rows && Located(s, id) && id in s.minted && ValidModelId(id)
    requires id in s.fs.stages ==> StageOk(s, id) && s.fs.quarantine
    requires DeleteAdvance(s, ok).Some?
    ensures var t := DeleteAdvance(s, ok).value;
      && (id in t.rows ==> Located(t, id))
      && (id in t.fs.stages ==> StageOk(t, id) && id in t.minted && t.fs.quarantine)
  {
    hide ValidModelId, Pending, Remaining;
  }

  lemma AdvanceKeepsOp(s: State, ok: bool, id: string)
    requires OpOk(s) && Subject(s.op) == Some(id) && id in s.rows && Located(s, id) && DeleteAdvance(s, ok).Some?
    requires id in s.fs.stages ==> StageOk(s, id)
    ensures OpOk(DeleteAdvance(s, ok).value)
  {
    hide ValidModelId, Pending, Remaining;
  }

  lemma DeleteAdvanceKeeps(s: State, ok: bool)
    requires Inv(s) && DeleteAdvance(s, ok).Some?
    ensures Inv(DeleteAdvance(s, ok).value)
  {
    hide RowsOk, QuarantineOk, Located, StageOk, Confined;
    var t := DeleteAdvance(s, ok).value;
    if Subject(s.op).Some? {
      DeleteAdvanceOnRow(s, ok);
      ConfinedKeeps(s, t, Subject(s.op).value, s.rows[Subject(s.op).value]);
    } else {
      DropKeeps(s, ok);
    }
  }

  lemma DropKeeps(s: State, ok: bool)
    requires RowsOk(s) && QuarantineOk(s) && s.op == DropQuarantine && DeleteAdvance(s, ok).Some?
    ensures RowsOk(DeleteAdvance(s, ok).value) && QuarantineOk(DeleteAdvance(s, ok).value)
  {
    hide ValidModelId;
    var t := DeleteAdvance(s, ok).value;
    forall k | k in t.rows ensures Located(t, k) { assert Located(s, k); }
    forall k | k in t.fs.stages ensures StageOk(t, k) { assert StageOk(s, k); }
  }

  // ---- reconciliation ----

  /** A state that differs only in what the registry is doing. */
  lemma SameTablesKeep(s: State, t: State)
    requires RowsOk(s) && QuarantineOk(s)
    requires t.rows == s.rows && t.content == s.content && t.minted == s.minted && t.fs == s.fs
    ensures RowsOk(t) && QuarantineOk(t)
  {
    hide ValidModelId;
    forall k | k in t.rows ensures Located(t, k) { assert Located(s, k); }
    forall k | k in t.fs.stages ensures StageOk(t, k) { assert StageOk(s, k); }
  }

  lemma RemainingTail(s: State, todo: seq<string>, boot: Fs)
    requires Pending(s, todo, boot) && todo != [] && todo[0] in boot.stages && Legible(boot.stages[todo[0]].manifest)
    requires todo[0] !in s.fs.strangers
    ensures Remaining(s, todo[1..], boot) && todo[0] !in todo[1..]
    ensures forall n :: n in s.fs.stages.Keys ==> n == todo[0] || n in todo[1..]
  {
    var rest := todo[1..];
    assert forall i :: 0 <= i < |rest| ==> rest[i] == todo[i + 1];
    forall n | n in todo ensures n == todo[0] || n in rest {
      var i :| 0 <= i < |todo| && todo[i] == n;
      if i > 0 { assert rest[i - 1] == n; }
    }
  }

  lemma RemainingKeeps(s: State, t: State, todo: seq<string>, boot: Fs)
    requires Remaining(s, todo, boot) && (s.fs.quarantine ==> t.fs.quarantine) && t.fs.strangers == s.fs.strangers
    requires forall i :: 0 <= i < |todo| && todo[i] in s.fs.stages ==>
               todo[i] in t.fs.stages && t.fs.stages[todo[i]] == s.fs.stages[todo[i]]
    requires forall i :: 0 <= i < |todo| && todo[i] in t.fs.stages ==> todo[i] in s.fs.stages
    ensures Remaining(t, todo, boot)
  {
  }

  /** What a visit decides, and where the files are when it does. */
  lemma VisitDecides(s: State, todo: seq<string>, boot: Fs)
    requires todo != [] && KnownName(s, todo[0]) && StageOk(s, todo[0]) && (todo[0] in s.rows ==> Located(s, todo[0]))
    ensures var id, v := todo[0], VisitEntry(s, todo, boot);
      && v == s.(op := v.op, verdict := v.verdict)
      && (v.op == Idle
          || (Legible(s.fs.stages[id].manifest) && v.op == Purge(todo, boot) && (id in s.rows ==> AtHome(s, id) && !Staged(s, id)))
          || (Legible(s.fs.stages[id].manifest) && AtStage(s, id) && v.op == DeletionProtocol.Op.Restore(todo, s.rows[id], boot)))
  {
    hide ValidModelId;
  }

  lemma UnknownStops(s: State, todo: seq<string>, boot: Fs)
    requires todo != [] && !KnownName(s, todo[0])
    ensures VisitEntry(s, todo, boot).op == Idle
  {
    hide KnownName;
  }

  lemma VisitKeepsOp(s: State, ok: bool)
    requires RowsOk(s) && QuarantineOk(s) && OpOk(s) && s.op.Visit? && ReconcileAdvance(s, ok).Some?
    ensures OpOk(ReconcileAdvance(s, ok).value)
  {
    hide ValidModelId, Remaining, VisitEntry, Legible, QuarantineOk, StageOk, AtHome, Located;
    var t, todo, boot := ReconcileAdvance(s, ok).value, s.op.todo, s.op.boot;
    if todo == [] { RemainingMoves(s, t, todo, boot); }
    else if ok {
      if KnownName(s, todo[0]) { VisitKnownKeepsOp(s, todo, boot); } else { UnknownStops(s, todo, boot); }
    }
  }

  lemma VisitKnownKeepsOp(s: State, todo: seq<string>, boot: Fs)
    requires RowsOk(s) && QuarantineOk(s) && Pending(s, todo, boot) && todo != [] && KnownName(s, todo[0])
    ensures OpOk(VisitEntry(s, todo, boot))
  {
    hide ValidModelId, Remaining, VisitEntry, Legible, QuarantineOk, StageOk;
    var v := VisitEntry(s, todo, boot);
    VisitedIsSame(s, todo, boot);
    VisitDecides(s, todo, boot);
    if v.op.Purge? {
      RemainingTail(s, todo, boot);
      RemainingMoves(s, v, todo[1..], boot);
    }
    if v.op.Restore? { RemainingMoves(s, v, todo, boot); }
  }

  lemma RemainingMoves(s: State, t: State, todo: seq<string>, boot: Fs)
    requires Remaining(s, todo, boot) && t.fs == s.fs
    ensures Remaining(t, todo, boot)
  {
  }

  lemma VisitedIsSame(s: State, todo: seq<string>, boot: Fs)
    requires QuarantineOk(s) && Remaining(s, todo, boot) && todo != [] && todo[0] in s.fs.stages
    ensures todo[0] in boot.stages && boot.stages[todo[0]] == s.fs.stages[todo[0]]
    ensures ValidModelId(todo[0]) && todo[0] !in s.fs.strangers && StageOk(s, todo[0])
  {
    hide ValidModelId;
    assert StageOk(s, todo[0]);
  }

  lemma VisitKeeps(s: State, ok: bool)
    requires Inv(s) && s.op.Visit? && ReconcileAdvance(s, ok).Some?
    ensures Inv(ReconcileAdvance(s, ok).value)
  {
    hide RowsOk, QuarantineOk, OpOk, ReconcileAdvance;
    VisitKeepsOp(s, ok);
    VisitKeepsTables(s, ok);
    SameTablesKeep(s, ReconcileAdvance(s, ok).value);
  }

  lemma VisitKeepsTables(s: State, ok: bool)
    requires s.op.Visit? && ReconcileAdvance(s, ok).Some?
    ensures var t := ReconcileAdvance(s, ok).value;
      && t.rows == s.rows && t.content == s.content && t.minted == s.minted && t.fs == s.fs
      && (t.verdict == s.verdict || t.verdict == ReconcileErr)
  {
    hide ValidModelId;
  }

  lemma RestoreOnRow(s: State, ok: bool)
    requires RowsOk(s) && QuarantineOk(s) && OpOk(s) && s.op.Restore? && ReconcileAdvance(s, ok).Some?
    ensures var t, id := ReconcileAdvance(s, ok).value, s.op.todo[0];
      && id in s.rows && Confined(s, t, id, s.rows[id])
      && (id in t.rows ==> Located(t, id))
      && (id in t.fs.stages ==> StageOk(t, id) && id in t.minted && t.fs.quarantine)
  {
    hide ValidModelId, Pending, Remaining, Legible;
    var todo := s.op.todo;
    assert Located(s, todo[0]) && StageOk(s, todo[0]);
    HomesDiffer(s, todo[0]);
  }

  lemma RestoreKeepsOp(s: State, ok: bool)
    requires QuarantineOk(s) && OpOk(s) && s.op.Restore? && ReconcileAdvance(s, ok).Some?
    ensures OpOk(ReconcileAdvance(s, ok).value)
  {
    hide ValidModelId, Remaining;
    var t, todo, boot := ReconcileAdvance(s, ok).value, s.op.todo, s.op.boot;
    VisitedIsSame(s, todo, boot);
    RemainingTail(s, todo, boot);
    if t.op.Purge? { RemainingKeeps(s, t, todo[1..], boot); }
  }

  lemma RestoreKeeps(s: State, ok: bool)
    requires Inv(s) && s.op.Restore? && ReconcileAdvance(s, ok).Some?
    ensures Inv(ReconcileAdvance(s, ok).value)
  {
    hide RowsOk, QuarantineOk, Located, StageOk, Confined, OpOk;
    RestoreOnRow(s, ok);
    RestoreKeepsOp(s, ok);
    ConfinedKeeps(s, ReconcileAdvance(s, ok).value, s.op.todo[0], s.rows[s.op.todo[0]]);
  }

  lemma CloseKeeps(s: State, ok: bool)
    requires Inv(s) && s.op.CloseQuarantine? && ReconcileAdvance(s, ok).Some?
    ensures Inv(ReconcileAdvance(s, ok).value)
  {
    hide ValidModelId;
    var t := ReconcileAdvance(s, ok).value;
    assert s.fs.stages == map[];
    forall id | id in t.rows ensures Located(t, id) { assert Located(s, id); }
  }

  // ---- tree removal ----

  /** A removal works on a stage that holds no registered model's files. */
  lemma RemovalKeepsRows(s: State, piece: Piece)
    requires RowsOk(s) && QuarantineOk(s) && OpOk(s) && RemovePiece(s, piece).Some?
    ensures RowsOk(RemovePiece(s, piece).value)
  {
    hide ValidModelId, RemovePiece, OpOk;
    var t, id := RemovePiece(s, piece).value, Target(s.op);
    RemovalShape(s, piece);
    forall k | k in t.rows ensures Located(t, k) {
      assert Located(s, k);
      if Some(k) == id { TargetAtHome(s, k); }
    }
  }

  lemma RemovalShape(s: State, piece: Piece)
    requires RemovePiece(s, piece).Some?
    ensures var t := RemovePiece(s, piece).value;
      && Target(s.op).Some? && Target(s.op).value in s.fs.stages
      && t.rows == s.rows && t.content == s.content && t.minted == s.minted && t.fs.dirs == s.fs.dirs
      && (Staged(t, Target(s.op).value) ==> Staged(s, Target(s.op).value))
      && forall k :: Some(k) != Target(s.op) ==>
           (k in t.fs.stages <==> k in s.fs.stages) && (k in s.fs.stages ==> t.fs.stages[k] == s.fs.stages[k])
  {
  }

  lemma TargetAtHome(s: State, id: string)
    requires OpOk(s) && Target(s.op) == Some(id) && id in s.rows
    ensures AtHome(s, id) && !Staged(s, id)
  {
    hide Remaining;
  }

  lemma RemovalKeepsQuarantine(s: State, piece: Piece)
    requires RowsOk(s) && QuarantineOk(s) && OpOk(s) && RemovePiece(s, piece).Some?
    ensures QuarantineOk(RemovePiece(s, piece).value)
  {
    hide ValidModelId, Remaining, Located;
    var t := RemovePiece(s, piece).value;
    forall k | k in t.fs.stages ensures StageOk(t, k) && k in t.minted { assert StageOk(s, k); }
  }

  lemma RemovalKeepsOp(s: State, piece: Piece)
    requires QuarantineOk(s) && OpOk(s) && RemovePiece(s, piece).Some?
    ensures OpOk(RemovePiece(s, piece).value)
  {
    hide ValidModelId, Remaining;
    var t := RemovePiece(s, piece).value;
    if s.op.Purge? {
      assert forall i :: 0 <= i < |s.op.todo[1..]| ==> s.op.todo[1..][i] in s.op.todo[1..];
      RemainingKeeps(s, t, s.op.todo[1..], s.op.boot);
    }
  }

  lemma RemoveKeeps(s: State, piece: Piece)
    requires Inv(s) && RemovePiece(s, piece).Some?
    ensures Inv(RemovePiece(s, piece).value)
  {
    hide RowsOk, QuarantineOk, OpOk;
    RemovalKeepsRows(s, piece);
    RemovalKeepsQuarantine(s, piece);
    RemovalKeepsOp(s, piece);
  }

  lemma GiveUpKeeps(s: State)
    requires Inv(s) && GiveUpStep(s).Some?
    ensures Inv(GiveUpStep(s).value)
  {
    hide RowsOk, QuarantineOk;
    SameTablesKeep(s, GiveUpStep(s).value);
  }

  // ---- the rest ----

  lemma EnvironmentKeeps(s: State, step: Step)
    requires Inv(s) && Apply(s, step).Some?
    requires step.Stranger? || step.BeginDelete? || step.Crash? || step.BeginReconcile?
    ensures Inv(Apply(s, step).value)
  {
    hide RowsOk, QuarantineOk, ValidModelId;
    var t := Apply(s, step).value;
    QuarantineHoldsAll(s);
    if step.Stranger? { StrangerKeeps(s, step.name); } else { SameTablesKeep(s, t); }
  }

  lemma StrangerKeeps(s: State, name: string)
    requires RowsOk(s) && QuarantineOk(s) && Apply(s, Stranger(name)).Some?
    ensures RowsOk(Apply(s, Stranger(name)).value) && QuarantineOk(Apply(s, Stranger(name)).value)
  {
    hide ValidModelId;
    var t := Apply(s, Stranger(name)).value;
    forall k | k in t.rows ensures Located(t, k) { assert Located(s, k); }
    forall k | k in t.fs.stages ensures StageOk(t, k) { assert StageOk(s, k); }
  }

  lemma ForgetKeeps(s: State, id: string)
    requires Inv(s) && Apply(s, ForgetRow(id)).Some?
    ensures Inv(Apply(s, ForgetRow(id)).value)
  {
    hide RowsOk, QuarantineOk, Located, StageOk;
    ForgetConfined(s, id);
    ConfinedKeeps(s, Apply(s, ForgetRow(id)).value, id, s.rows[id]);
  }

  lemma ForgetConfined(s: State, id: string)
    requires Inv(s) && Apply(s, ForgetRow(id)).Some?
    ensures var t := Apply(s, ForgetRow(id)).value;
      id in s.rows && Confined(s, t, id, s.rows[id])
      && (id in t.fs.stages ==> StageOk(t, id) && id in t.minted && t.fs.quarantine)
  {
    hide ValidModelId, Located;
    if id in s.fs.stages { assert StageOk(s, id); }
  }

  /** New directories and new registrations leave every other model alone. */
  lemma GrowthKeepsTables(s: State, step: Step)
    requires RowsOk(s) && QuarantineOk(s) && (step.MakeDir? || step.Register?) && Apply(s, step).Some?
    ensures RowsOk(Apply(s, step).value) && QuarantineOk(Apply(s, step).value)
  {
    hide ValidModelId;
    var t := Apply(s, step).value;
    forall k | k in t.rows ensures Located(t, k) { if k in s.rows { assert Located(s, k); } }
    forall k | k in t.fs.stages ensures StageOk(t, k) { assert StageOk(s, k); }
  }

  lemma GrowthKeepsOp(s: State, step: Step)
    requires RowsOk(s) && QuarantineOk(s) && OpOk(s) && (step.MakeDir? || step.Register?) && Apply(s, step).Some?
    ensures OpOk(Apply(s, step).value)
  {
    hide AtHome, AtStage, Staged, Remaining, Apply, QuarantineOk, RowsOk;
    var t := Apply(s, step).value;
    MintedIsNotStaged(s);
    RowsAreMinted(s);
    GrowthShape(s, step);
    match s.op
    case Visit(todo, boot) => RemainingKeeps(s, t, todo, boot);
    case Restore(todo, _, boot) => RemainingKeeps(s, t, todo, boot);
    case Purge(todo, boot) => RemainingKeeps(s, t, todo[1..], boot);
    case CloseQuarantine(boot) => RemainingKeeps(s, t, [], boot);
    case _ =>
  }

  lemma RowsAreMinted(s: State)
    requires RowsOk(s)
    ensures forall id :: id in s.rows ==> id in s.minted
  {
    hide Located, ValidModelId;
  }

  lemma GrowthShape(s: State, step: Step)
    requires (step.MakeDir? || step.Register?) && Apply(s, step).Some?
    ensures var t := Apply(s, step).value;
      && t.op == s.op && t.verdict == s.verdict && t.fs == s.fs.(dirs := t.fs.dirs)
      && (forall id :: id in s.rows ==> id in t.rows && (s.rows[id] == t.rows[id] || id !in s.minted))
      && (forall id :: id in t.rows && id !in s.rows ==> id !in s.minted)
      && (forall id :: id in s.minted && AtHome(s, id) ==> AtHome(t, id))
      && (forall id :: id in s.minted && AtStage(s, id) ==> AtStage(t, id))
      && (forall id :: AtStage(s, id) ==> id in s.rows)
      && (forall id :: Staged(s, id) <==> Staged(t, id))
  {
  }

  lemma MintedIsNotStaged(s: State)
    requires QuarantineOk(s)
    ensures forall id :: id in s.fs.stages ==> id in s.minted
  {
    hide StageOk;
  }

  lemma GrowthKeeps(s: State, step: Step)
    requires Inv(s) && (step.MakeDir? || step.Register?) && Apply(s, step).Some?
    ensures Inv(Apply(s, step).value)
  {
    hide RowsOk, QuarantineOk, OpOk;
    GrowthKeepsTables(s, step);
    GrowthKeepsOp(s, step);
  }

  lemma StepKeeps(s: State, step: Step)
    requires Inv(s) && Apply(s, step).Some?
    ensures Inv(Apply(s, step).value)
  {
    hide Inv, DeleteAdvance, ReconcileAdvance, RemovePiece, GiveUpStep, BeginReconcileStep;
    match step
    case Advance(ok) =>
      if s.op.Visit? { VisitKeeps(s, ok); }
      else if s.op.Restore? { RestoreKeeps(s, ok); }
      else if s.op.CloseQuarantine? { CloseKeeps(s, ok); }
      else { DeleteAdvanceKeeps(s, ok); }
    case Remove(piece) => RemoveKeeps(s, piece);
    case GiveUp => GiveUpKeeps(s);
    case ForgetRow(id) => ForgetKeeps(s, id);
    case MakeDir(path, files) => GrowthKeeps(s, step);
    case Register(id, path) => GrowthKeeps(s, step);
    case _ => EnvironmentKeeps(s, step);
  }

  lemma {:induction false} RunKeeps(s: State, steps: seq<Step>)
    requires Inv(s) && Run(s, steps).Some?
    ensures Inv(Run(s, steps).value)
  {
    hide Inv, Apply;
    if steps != [] {
      RunKeeps(s, steps[..|steps| - 1]);
      StepKeeps(Run(s, steps[..|steps| - 1]).value, steps[|steps| - 1]);
    }
  }

  // ---- what it means ----

  ghost predicate Reachable(s: State) { exists steps :: Run(FRESH, steps) == Some(s) }

  lemma ReachableOk(s: State)
    requires Reachable(s)
    ensures Inv(s)
  {
    var steps :| Run(FRESH, steps) == Some(s);
    RunKeeps(FRESH, steps);
  }

  /** In every intermediate, crashed or partly reconciled state, a registered model's files are all
      there, at exactly one of its path and its stage. */
  lemma FilesAreAtExactlyOnePlace(s: State, id: string)
    requires Reachable(s) && id in s.rows
    ensures id in s.content
    ensures (s.rows[id] in s.fs.dirs) != (id in s.fs.stages && s.fs.stages[id].files.Some?)
    ensures s.rows[id] in s.fs.dirs ==> s.fs.dirs[s.rows[id]] == s.content[id]
    ensures id in s.fs.stages && s.fs.stages[id].files.Some? ==>
              s.fs.stages[id].files.value == s.content[id] && s.fs.stages[id].manifest == Whole(id, s.rows[id])
  {
    hide QuarantineOk, OpOk, VerdictOk, ValidModelId;
    ReachableOk(s);
    assert Located(s, id);
  }

  predicate NothingStaged(s: State) { s.fs.stages == map[] && s.fs.strangers == {} }

  /** A nil reconciliation: every registered model has its files at its path and no stage is left. */
  lemma ReconcileOkSettles(s: State, step: Step)
    requires Reachable(s) && Apply(s, step).Some?
    requires s.op.CloseQuarantine? || step.BeginReconcile?
    requires Apply(s, step).value.op == Idle && Apply(s, step).value.verdict.ReconcileOk?
    ensures var t := Apply(s, step).value;
      NothingStaged(t) && t.rows == s.rows && forall id :: id in t.rows ==> AtHome(t, id)
  {
    hide Inv, Apply, AtHome;
    ReachableOk(s);
    StepKeeps(s, step);
    SettledShape(s, step);
    AtHomeAll(Apply(s, step).value);
  }

  lemma SettledShape(s: State, step: Step)
    requires Inv(s) && Apply(s, step).Some? && (s.op.CloseQuarantine? || step.BeginReconcile?)
    requires Apply(s, step).value.op == Idle && Apply(s, step).value.verdict.ReconcileOk?
    ensures NothingStaged(Apply(s, step).value) && Apply(s, step).value.rows == s.rows
  {
    hide RowsOk, OpOk, QuarantineOk, ValidModelId;
    QuarantineHoldsAll(s);
  }

  lemma AtHomeAll(s: State)
    requires Inv(s) && s.fs.stages == map[]
    ensures forall id :: id in s.rows ==> AtHome(s, id)
  {
    hide QuarantineOk, OpOk, VerdictOk, ValidModelId;
    forall id | id in s.rows ensures AtHome(s, id) { assert Located(s, id); }
  }

  lemma QuarantineHoldsAll(s: State)
    requires QuarantineOk(s)
    ensures !s.fs.quarantine ==> NothingStaged(s)
  {
  }

  /** It can only be nil if every stage it found had a manifest it could read, whole and within the
      limit, and nothing unknown was there. */
  lemma ReconcileOkNeedsManifests(s: State)
    requires Reachable(s) && s.verdict.ReconcileOk?
    ensures s.verdict.boot.strangers == {}
    ensures forall n :: n in s.verdict.boot.stages ==> Legible(s.verdict.boot.stages[n].manifest)
  {
    hide RowsOk, QuarantineOk, OpOk;
    ReachableOk(s);
  }

  // ---- convergence ----

  lemma {:induction false} RunConcat(s: State, a: seq<Step>, b: seq<Step>)
    requires Run(s, a).Some?
    ensures Run(s, a + b) == Run(Run(s, a).value, b)
    decreases |b|
  {
    if b == [] {
      assert a + b == a;
    } else {
      RunConcat(s, a, b[..|b| - 1]);
      assert (a + b)[..|a + b| - 1] == a + b[..|b| - 1];
    }
  }

  lemma RunOne(s: State, step: Step)
    ensures Run(s, [step]) == Apply(s, step)
  {
    assert [step][..0] == [];
  }

  lemma RunThen(s: State, a: seq<Step>, step: Step)
    requires Run(s, a).Some?
    ensures Run(s, a + [step]) == Apply(Run(s, a).value, step)
  {
    RunConcat(s, a, [step]);
    RunOne(Run(s, a).value, step);
  }

  /** A tree removal that is not stopped empties the files directory. */
  lemma {:induction false} RemoveFiles(s: State, id: string) returns (steps: seq<Step>)
    requires Target(s.op) == Some(id) && id in s.fs.stages
    ensures Run(s, steps) == Some(SetStage(s, id, s.fs.stages[id].(files := None)))
    decreases if s.fs.stages[id].files.Some? then 1 + |s.fs.stages[id].files.value| else 0
  {
    hide DeleteAdvance, ReconcileAdvance, BeginReconcileStep;
    var stage := s.fs.stages[id];
    if stage.files.None? {
      steps := [];
      assert SetStage(s, id, stage.(files := None)) == s;
    } else if stage.files.value == {} {
      steps := [Remove(FilesDir)];
      RunOne(s, Remove(FilesDir));
    } else {
      var name :| name in stage.files.value;
      var next := SetStage(s, id, stage.(files := Some(stage.files.value - {name})));
      RunOne(s, Remove(FilePiece(name)));
      var rest := RemoveFiles(next, id);
      steps := [Remove(FilePiece(name))] + rest;
      RunConcat(s, [Remove(FilePiece(name))], rest);
      assert SetStage(next, id, next.fs.stages[id].(files := None)) == SetStage(s, id, stage.(files := None));
    }
  }

  lemma RemoveManifest(s: State, id: string) returns (steps: seq<Step>)
    requires Target(s.op) == Some(id) && id in s.fs.stages
    ensures Run(s, steps) == Some(SetStage(s, id, s.fs.stages[id].(manifest := Missing)))
  {
    if s.fs.stages[id].manifest == Missing {
      steps := [];
      assert SetStage(s, id, s.fs.stages[id].(manifest := Missing)) == s;
    } else {
      steps := [Remove(ManifestPiece)];
      RunOne(s, Remove(ManifestPiece));
    }
  }

  lemma RemoveEmptyStage(s: State, id: string)
    requires Target(s.op) == Some(id) && id in s.fs.stages && s.op.Purge? && s.fs.stages[id] == Stage(Missing, None)
    ensures Apply(s, Remove(StageDir)) == Some(s.(fs := s.fs.(stages := s.fs.stages - {id}), op := Visit(s.op.todo[1..], s.op.boot)))
  {
  }

  lemma RemoveStage(s: State, id: string) returns (steps: seq<Step>)
    requires Target(s.op) == Some(id) && id in s.fs.stages && s.op.Purge?
    ensures Run(s, steps) == Some(s.(fs := s.fs.(stages := s.fs.stages - {id}), op := Visit(s.op.todo[1..], s.op.boot)))
  {
    hide Apply;
    var first := RemoveFiles(s, id);
    var a := SetStage(s, id, s.fs.stages[id].(files := None));
    var second := RemoveManifest(a, id);
    var b := SetStage(a, id, Stage(Missing, None));
    RunConcat(s, first, second);
    RemoveEmptyStage(b, id);
    RunThen(s, first + second, Remove(StageDir));
    steps := first + second + [Remove(StageDir)];
    assert b.fs.stages - {id} == s.fs.stages - {id};
  }

  /** The entries found at the start can all be settled. */
  predicate Readable(boot: Fs) {
    boot.strangers == {} && forall n :: n in boot.stages ==> Legible(boot.stages[n].manifest)
  }

  /** An entry whose manifest can be read never makes reconciliation stop. */
  lemma VisitedEntryProceeds(s: State)
    requires Inv(s) && s.op.Visit? && s.op.todo != [] && Readable(s.op.boot)
    ensures s.op.todo[0] in s.fs.stages
    ensures VisitEntry(s, s.op.todo, s.op.boot).op.Purge? || VisitEntry(s, s.op.todo, s.op.boot).op.Restore?
  {
    hide VerdictOk, ValidModelId;
    var id := s.op.todo[0];
    assert id in s.fs.stages || id in s.fs.strangers;
    VisitedIsSame(s, s.op.todo, s.op.boot);
    if id in s.rows { assert Located(s, id); }
  }

  lemma VisitOne(s: State) returns (steps: seq<Step>)
    requires Inv(s) && s.op.Visit? && s.op.todo != [] && Readable(s.op.boot)
    ensures Run(s, steps).Some?
    ensures var t := Run(s, steps).value; t.op == Visit(s.op.todo[1..], s.op.boot) && t.rows == s.rows && Inv(t)
  {
    hide Inv, VisitEntry, DeleteAdvance, BeginReconcileStep, RemovePiece;
    VisitedEntryProceeds(s);
    VisitKeepsShape(s);
    steps := [Advance(true)];
    RunOne(s, Advance(true));
    var v := VisitEntry(s, s.op.todo, s.op.boot);
    VisitKeeps(s, true);
    if v.op.Restore? {
      RestoreSucceeds(v);
      RunThen(s, steps, Advance(true));
      steps := steps + [Advance(true)];
    }
    var p := Run(s, steps).value;
    RunKeeps(s, steps);
    PurgeHasStage(p);
    var more := RemoveStage(p, s.op.todo[0]);
    RunConcat(s, steps, more);
    steps := steps + more;
    RunKeeps(s, steps);
  }

  lemma VisitKeepsShape(s: State)
    requires s.op.Visit? && s.op.todo != []
    ensures var v := VisitEntry(s, s.op.todo, s.op.boot);
      v.rows == s.rows && v.fs == s.fs
      && (v.op.Purge? ==> v.op == Purge(s.op.todo, s.op.boot))
      && (v.op.Restore? ==> v.op.todo == s.op.todo && v.op.boot == s.op.boot)
  {
    hide ValidModelId;
  }

  lemma RestoreSucceeds(v: State)
    requires Inv(v) && v.op.Restore?
    ensures ReconcileAdvance(v, true).Some?
    ensures var t := ReconcileAdvance(v, true).value; t.op == Purge(v.op.todo, v.op.boot) && t.rows == v.rows
  {
    hide QuarantineOk, VerdictOk, ValidModelId, Remaining;
    assert Located(v, v.op.todo[0]);
  }

  lemma PurgeHasStage(p: State)
    requires Inv(p) && p.op.Purge?
    ensures p.op.todo != [] && p.op.todo[0] in p.fs.stages && Target(p.op) == Some(p.op.todo[0])
  {
    hide RowsOk, QuarantineOk, VerdictOk;
  }

  lemma {:induction false} VisitAll(s: State) returns (steps: seq<Step>)
    requires Inv(s) && s.op.Visit? && Readable(s.op.boot)
    ensures Run(s, steps).Some?
    ensures var t := Run(s, steps).value; t.op == Visit([], s.op.boot) && t.rows == s.rows && Inv(t)
    decreases |s.op.todo|
  {
    hide Inv, Apply;
    if s.op.todo == [] {
      steps := [];
    } else {
      var first := VisitOne(s);
      var rest := VisitAll(Run(s, first).value);
      RunConcat(s, first, rest);
      steps := first + rest;
    }
  }

  lemma CloseSucceeds(s: State, boot: Fs)
    requires Inv(s) && s.op == CloseQuarantine(boot) && Readable(boot)
    ensures ReconcileAdvance(s, true) == Some(Finish(s.(fs := s.fs.(quarantine := false)), ReconcileOk(boot)))
    ensures NothingStaged(s) && forall id :: id in s.rows ==> AtHome(s, id)
  {
    hide VerdictOk, ValidModelId;
    assert s.fs.stages.Keys == {};
    forall id | id in s.rows ensures AtHome(s, id) { assert Located(s, id); }
  }

  /** From every crash point at which each stage's manifest is whole and within the limit, a
      reconciliation that the operating system lets through returns nil, in whatever order it meets
      the entries. */
  lemma ReconcileConverges(s: State, order: seq<string>)
    requires Reachable(s) && s.op == Idle && s.fs.quarantine && Entries(s.fs, order) && Readable(s.fs)
    ensures exists steps :: Run(s, [BeginReconcile(order)] + steps).Some?
              && var t := Run(s, [BeginReconcile(order)] + steps).value;
                 t.op == Idle && t.verdict == ReconcileOk(s.fs) && t.rows == s.rows
                 && NothingStaged(t) && forall id :: id in t.rows ==> AtHome(t, id)
  {
    hide Inv, Apply, Entries, AtHome;
    ReachableOk(s);
    BeginReconcileKeeps(s, order);
    var a := s.(op := Visit(order, s.fs), verdict := DeletionProtocol.Verdict.Open);
    RunOne(s, BeginReconcile(order));
    var visits := VisitAll(a);
    var b := Run(a, visits).value;
    var last := CloseRun(b, s.fs);
    RunConcat(a, visits, last);
    RunConcat(s, [BeginReconcile(order)], visits + last);
    var t := Run(b, last).value;
    assert Run(s, [BeginReconcile(order)] + (visits + last)) == Some(t);
  }

  /** Some run that begins with this reconciliation ends with its nil return. */
  ghost predicate CanReconcile(s: State, order: seq<string>) {
    exists steps :: Run(s, [BeginReconcile(order)] + steps).Some?
      && var t := Run(s, [BeginReconcile(order)] + steps).value; t.op == Idle && t.verdict == ReconcileOk(s.fs)
  }

  /** So a start can succeed exactly when all it finds are stages whose manifests are whole and
      within the limit. */
  lemma ReconcileSucceedsIff(s: State, order: seq<string>)
    requires Reachable(s) && s.op == Idle && s.fs.quarantine && Entries(s.fs, order)
    ensures CanReconcile(s, order) <==> Readable(s.fs)
  {
    hide Inv, Run, Entries;
    if Readable(s.fs) { ReconcileConverges(s, order); }
    if CanReconcile(s, order) {
      var steps :| Run(s, [BeginReconcile(order)] + steps).Some?
        && var t := Run(s, [BeginReconcile(order)] + steps).value; t.op == Idle && t.verdict == ReconcileOk(s.fs);
      ReachableThen(s, [BeginReconcile(order)] + steps);
      ReconcileOkNeedsManifests(Run(s, [BeginReconcile(order)] + steps).value);
    }
  }

  lemma ReachableThen(s: State, steps: seq<Step>)
    requires Reachable(s) && Run(s, steps).Some?
    ensures Reachable(Run(s, steps).value)
  {
    hide Run;
    var first :| Run(FRESH, first) == Some(s);
    RunConcat(FRESH, first, steps);
  }

  /** Once every entry is settled the quarantine itself goes. */
  lemma CloseRun(b: State, boot: Fs) returns (steps: seq<Step>)
    requires Inv(b) && b.op == Visit([], boot) && Readable(boot)
    ensures Run(b, steps).Some?
    ensures var t := Run(b, steps).value;
      t.op == Idle && t.verdict == ReconcileOk(boot) && t.rows == b.rows && NothingStaged(t) && forall id :: id in t.rows ==> AtHome(t, id)
  {
    hide Inv, RemovePiece, DeleteAdvance, VisitEntry;
    var c := b.(op := CloseQuarantine(boot));
    RunOne(b, Advance(true));
    VisitKeeps(b, true);
    CloseSucceeds(c, boot);
    steps := [Advance(true)];
    RunThen(b, steps, Advance(true));
    steps := steps + [Advance(true)];
    var t := Finish(c.(fs := c.fs.(quarantine := false)), ReconcileOk(boot));
    assert Run(b, steps) == Some(t);
    assert forall id :: id in t.rows ==> AtHome(c, id) ==> AtHome(t, id);
  }

  lemma BeginReconcileKeeps(s: State, order: seq<string>)
    requires Inv(s) && s.op == Idle && s.fs.quarantine && Entries(s.fs, order)
    ensures BeginReconcileStep(s, order) == Some(s.(op := Visit(order, s.fs), verdict := DeletionProtocol.Verdict.Open))
    ensures Apply(s, BeginReconcile(order)) == BeginReconcileStep(s, order)
    ensures Inv(BeginReconcileStep(s, order).value)
  {
    hide Inv;
    StepKeeps(s, BeginReconcile(order));
  }
}

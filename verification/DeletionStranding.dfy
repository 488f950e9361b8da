/** The one thing reconciliation cannot settle: a stage whose manifest it cannot read.

    The quarantine directory of a deletion exists before its manifest is written, and a tree
    removal may unlink the manifest before the rest.  A process that dies in between leaves a
    stage that no later start can read.  And a manifest can be written that is too large to be
    read: then the files of the model can be lost to it. */
module DeletionStranding {
  import opened Wrappers
  import opened Coordinates
  import opened DeletionManifest
  import opened DeletionProtocol
  import opened DeletionSafety

  /** The model whose stage the registry is filling, or whose files it is moving. */
  predicate WorksOn(op: Op, id: string) {
    match op
    case CreateManifest(k) => k == id
    case FillManifest(k) => k == id
    case MoveFiles(k, _) => k == id
    case CommitRow(k, _) => k == id
    case MoveBack(k, _) => k == id
    case Restore(todo, _, _) => todo != [] && todo[0] == id
    case _ => Target(op) == Some(id)
  }

  /** The stage is unreadable, nobody is at work on it, and no start has succeeded since. */
  predicate Stranded(s: State, id: string) {
    && id in s.fs.stages && !Legible(s.fs.stages[id].manifest)
    && !WorksOn(s.op, id)
    && !s.verdict.ReconcileOk?
  }

  lemma StrandedStays(s: State, step: Step, t: State, id: string)
    requires Inv(s) && Stranded(s, id) && Apply(s, step) == Some(t)
    ensures Stranded(t, id) && t.fs.stages[id] == s.fs.stages[id]
  {
    hide RowsOk, OpOk, VerdictOk, QuarantineOk, DeleteAdvance, ReconcileAdvance, RemovePiece, GiveUpStep, BeginReconcileStep;
    QuarantineHoldsAll(s);
    match step
    case Advance(ok) =>
      if s.op.Visit? || s.op.Restore? || s.op.CloseQuarantine? { ReconcileLeavesIt(s, ok, t, id); } else { DeleteLeavesIt(s, ok, t, id); }
    case Remove(piece) => RemovalLeavesIt(s, piece, t, id);
    case _ => OthersLeaveIt(s, step, t, id);
  }

  lemma DeleteLeavesIt(s: State, ok: bool, t: State, id: string)
    requires Stranded(s, id) && DeleteAdvance(s, ok) == Some(t)
    ensures Stranded(t, id) && t.fs.stages[id] == s.fs.stages[id]
  {
    hide Legible;
  }

  lemma ReconcileLeavesIt(s: State, ok: bool, t: State, id: string)
    requires Stranded(s, id) && ReconcileAdvance(s, ok) == Some(t)
    ensures Stranded(t, id) && t.fs.stages[id] == s.fs.stages[id]
  {
    hide ValidModelId, ManifestFits;
    assert s.fs.stages != map[];
  }

  lemma RemovalLeavesIt(s: State, piece: Piece, t: State, id: string)
    requires Stranded(s, id) && RemovePiece(s, piece) == Some(t)
    ensures Stranded(t, id) && t.fs.stages[id] == s.fs.stages[id]
  {
    hide Legible;
  }

  lemma OthersLeaveIt(s: State, step: Step, t: State, id: string)
    requires Stranded(s, id) && Apply(s, step) == Some(t) && !step.Advance? && !step.Remove?
    requires !s.fs.quarantine ==> NothingStaged(s)
    ensures Stranded(t, id) && t.fs.stages[id] == s.fs.stages[id]
  {
    hide ValidModelId, Entries, Legible;
    assert s.fs.stages != map[];
  }

  lemma {:induction false} StrandedForever(s: State, id: string, steps: seq<Step>, t: State)
    requires Inv(s) && Stranded(s, id) && Run(s, steps) == Some(t)
    ensures Stranded(t, id) && t.fs.stages[id] == s.fs.stages[id]
    decreases |steps|
  {
    hide Inv, Apply, Stranded;
    if steps != [] {
      var before := Run(s, steps[..|steps| - 1]).value;
      StrandedForever(s, id, steps[..|steps| - 1], before);
      RunKeeps(s, steps[..|steps| - 1]);
      StrandedStays(before, steps[|steps| - 1], t, id);
    }
  }

  // ---- what nobody is at work on ----

  /** A deletion or a reconciliation that dies, or gives up a removal, with a stage that cannot be
      read: from then on no start reconciles, and the stage stays as it is. */
  lemma UnreadableStageStays(s: State, id: string, step: Step, later: seq<Step>, u: State)
    requires Reachable(s) && id in s.fs.stages && !Legible(s.fs.stages[id].manifest)
    requires step == Crash || step == GiveUp
    requires Run(s, [step] + later) == Some(u)
    ensures !u.verdict.ReconcileOk? && id in u.fs.stages && u.fs.stages[id] == s.fs.stages[id]
  {
    hide Inv, Legible, Run;
    ReachableOk(s);
    StepThen(s, step, later);
    StepKeeps(s, step);
    var t := Apply(s, step).value;
    assert Stranded(t, id);
    StrandedForever(t, id, later, u);
  }

  lemma StepThen(s: State, step: Step, later: seq<Step>)
    ensures Run(s, [step] + later) == if Apply(s, step).None? then None else Run(Apply(s, step).value, later)
    decreases |later|
  {
    hide Apply;
    if later == [] {
      assert [step] + later == [step];
      RunOne(s, step);
    } else {
      StepThen(s, step, later[..|later| - 1]);
      assert ([step] + later)[..|later|] == [step] + later[..|later| - 1];
    }
  }

  // ---- a manifest that is too large ----

  /** Once the files of a model are in a stage whose manifest is too large, a death leaves them
      there: whatever runs afterwards, no start succeeds, the files stay in the stage, and as long as
      the model is registered its path is empty. */
  lemma OversizedManifestStrandsTheFiles(s: State, id: string, later: seq<Step>, u: State)
    requires Reachable(s) && AtStage(s, id) && !ManifestFits(id, s.rows[id])
    requires Run(s, [Crash] + later) == Some(u)
    ensures !u.verdict.ReconcileOk?
    ensures id in u.fs.stages && u.fs.stages[id].files == Some(s.content[id])
    ensures id in u.rows ==> u.rows[id] !in u.fs.dirs
  {
    hide Inv, ManifestFits, Run;
    UnreadableStageStays(s, id, Crash, later, u);
    ReachableThen(s, [Crash] + later);
    if id in u.rows { FilesAreAtExactlyOnePlace(u, id); }
  }

  /** Every deletion of a model with its files comes to that point. */
  lemma DeletionStagesTheFiles(s: State, id: string) returns (steps: seq<Step>, t: State)
    requires Reachable(s) && s.op == Idle && id in s.rows && s.rows[id] in s.fs.dirs && id !in s.fs.stages
    ensures Run(s, steps) == Some(t) && t.op == CommitRow(id, s.rows[id]) && t.rows == s.rows && AtStage(t, id)
    ensures t.fs.stages == s.fs.stages[id := Stage(Whole(id, s.rows[id]), Some(s.fs.dirs[s.rows[id]]))]
    ensures t.fs.strangers == s.fs.strangers
  {
    hide Inv;
    ReachableOk(s);
    var begun, a := StageMade(s, id);
    RunKeeps(s, begun);
    var written, b := ManifestWritten(a, id);
    RunConcat(s, begun, written);
    RunKeeps(a, written);
    steps := begun + written;
    RunThen(s, steps, Advance(true));
    FilesMoved(b, id);
    t := DeleteAdvance(b, true).value;
    RunKeeps(s, steps + [Advance(true)]);
    steps := steps + [Advance(true)];
    StagedNow(t, id);
  }

  lemma StageMade(s: State, id: string) returns (steps: seq<Step>, t: State)
    requires s.op == Idle && id in s.rows && s.rows[id] in s.fs.dirs && id !in s.fs.stages
    ensures Run(s, steps) == Some(t) && t.op == CreateManifest(id)
    ensures t == s.(op := CreateManifest(id), verdict := DeletionProtocol.Verdict.Open,
                    fs := s.fs.(quarantine := true, stages := s.fs.stages[id := Stage(Missing, None)]))
  {
    hide ReconcileAdvance, RemovePiece;
    var a := s.(op := MakeQuarantine(id), verdict := DeletionProtocol.Verdict.Open);
    var b := a.(fs := a.fs.(quarantine := true), op := MakeStage(id));
    t := SetStage(b, id, Stage(Missing, None)).(op := CreateManifest(id));
    steps := [BeginDelete(id)];
    RunOne(s, BeginDelete(id));
    assert Run(s, steps) == Some(a);
    RunThen(s, steps, Advance(true));
    steps := steps + [Advance(true)];
    assert Run(s, steps) == Some(b);
    RunThen(s, steps, Advance(true));
    steps := steps + [Advance(true)];
  }

  lemma ManifestWritten(s: State, id: string) returns (steps: seq<Step>, t: State)
    requires s.op == CreateManifest(id) && id in s.rows && id in s.fs.stages && s.fs.stages[id] == Stage(Missing, None)
    ensures Run(s, steps) == Some(t)
    ensures t == SetStage(s, id, Stage(Whole(id, s.rows[id]), None)).(op := MoveFiles(id, s.rows[id]))
  {
    hide ReconcileAdvance, RemovePiece;
    var a := SetStage(s, id, Stage(Partial, None)).(op := FillManifest(id));
    t := SetStage(a, id, Stage(Whole(id, s.rows[id]), None)).(op := MoveFiles(id, s.rows[id]));
    steps := [Advance(true)];
    RunOne(s, Advance(true));
    assert Run(s, steps) == Some(a);
    RunThen(s, steps, Advance(true));
    steps := steps + [Advance(true)];
  }

  lemma FilesMoved(s: State, id: string)
    requires id in s.rows && s.op == MoveFiles(id, s.rows[id]) && s.rows[id] in s.fs.dirs
    requires id in s.fs.stages && s.fs.stages[id].files.None?
    ensures Apply(s, Advance(true)) == DeleteAdvance(s, true) && DeleteAdvance(s, true).Some?
    ensures var t := DeleteAdvance(s, true).value;
      && t.op == CommitRow(id, s.rows[id]) && t.rows == s.rows && t.fs.strangers == s.fs.strangers
      && t.fs.stages == s.fs.stages[id := s.fs.stages[id].(files := Some(s.fs.dirs[s.rows[id]]))]
  {
  }

  lemma StagedNow(t: State, id: string)
    requires Inv(t) && id in t.rows && id in t.fs.stages && t.fs.stages[id].files.Some?
    ensures AtStage(t, id)
  {
    hide QuarantineOk, OpOk, VerdictOk, ValidModelId;
    assert Located(t, id);
  }

  /** So with a manifest that does not fit, a deletion can be started that dies after its rename, and
      the files of the registered model are never at its path again while it is registered. */
  lemma CrashCanStrandTheFiles(s: State, id: string)
    requires Reachable(s) && s.op == Idle && id in s.rows && s.rows[id] in s.fs.dirs && id !in s.fs.stages
    requires !ManifestFits(id, s.rows[id])
    ensures exists steps, t ::
              Run(s, steps) == Some(t) && t.op == Idle && t.rows == s.rows && AtStage(t, id)
              && forall later, u :: Run(t, later) == Some(u) ==>
                   && !u.verdict.ReconcileOk?
                   && id in u.fs.stages && u.fs.stages[id].files == Some(t.content[id])
                   && (id in u.rows ==> u.rows[id] !in u.fs.dirs)
  {
    hide Inv, ManifestFits, Run;
    var steps, a := DeletionStagesTheFiles(s, id);
    RunThen(s, steps, Crash);
    var t := Apply(a, Crash).value;
    ReachableThen(s, steps);
    forall later, u | Run(t, later) == Some(u)
      ensures !u.verdict.ReconcileOk?
      ensures id in u.fs.stages && u.fs.stages[id].files == Some(t.content[id])
      ensures id in u.rows ==> u.rows[id] !in u.fs.dirs
    {
      StepThen(a, Crash, later);
      OversizedManifestStrandsTheFiles(a, id, later, u);
    }
    assert Run(s, steps + [Crash]) == Some(t) && AtStage(t, id);
  }

  /** The exact condition: if everything else in the quarantine can be read, then after a death with
      this stage's manifest whole, before or after the rename, the commit or the roll-back, a start
      can succeed exactly when the manifest fits. */
  lemma DyingDeletionRecoversIff(s: State, id: string, order: seq<string>)
    requires Reachable(s) && id in s.fs.stages && s.fs.stages[id].manifest.Whole? && Entries(s.fs, order)
    requires s.fs.strangers == {} && forall k :: k in s.fs.stages && k != id ==> Legible(s.fs.stages[k].manifest)
    ensures id in s.rows ==> s.fs.stages[id].manifest.original == s.rows[id]
    ensures Apply(s, Crash).Some?
    ensures CanReconcile(Apply(s, Crash).value, order) <==> ManifestFits(id, s.fs.stages[id].manifest.original)
  {
    hide Inv, CanReconcile, ManifestFits, Run, Entries;
    WholeManifestIsOwn(s, id);
    RunOne(s, Crash);
    ReachableThen(s, [Crash]);
    ReconcileSucceedsIff(Apply(s, Crash).value, order);
  }

  lemma WholeManifestIsOwn(s: State, id: string)
    requires Reachable(s) && id in s.fs.stages && s.fs.stages[id].manifest.Whole?
    ensures s.fs.quarantine && s.fs.stages[id].manifest.id == id
    ensures id in s.rows ==> s.fs.stages[id].manifest.original == s.rows[id]
  {
    hide RowsOk, OpOk, VerdictOk, ValidModelId;
    ReachableOk(s);
    assert StageOk(s, id);
  }

  // ---- a manifest that is not there ----

  /** From any idle state a deletion can be started and die before its manifest is whole; the model
      is unharmed, but from then on no start ever reconciles, whatever the program does. */
  lemma CrashCanStrandAStage(s: State, id: string)
    requires Reachable(s) && s.op == Idle && id in s.rows && s.rows[id] in s.fs.dirs && id !in s.fs.stages
    ensures exists steps ::
              Run(s, steps).Some?
              && var t := Run(s, steps).value;
                 t.op == Idle && AtHome(t, id)
                 && forall later, u :: Run(t, later) == Some(u) ==> !u.verdict.ReconcileOk?
  {
    hide Inv, Run, Legible;
    var steps, a := StageMade(s, id);
    ReachableThen(s, steps);
    RunThen(s, steps, Crash);
    var t := Apply(a, Crash).value;
    ReachableThen(s, steps + [Crash]);
    HomeNow(t, id);
    assert !Legible(a.fs.stages[id].manifest) by { NoManifest(); }
    forall later, u | Run(t, later) == Some(u) ensures !u.verdict.ReconcileOk? {
      StepThen(a, Crash, later);
      UnreadableStageStays(a, id, Crash, later, u);
    }
    assert Run(s, steps + [Crash]) == Some(t);
  }

  /** A tree removal can die right after it unlinked the manifest: of a committed deletion, of one
      rolled back, or of reconciliation itself.  Then, too, no start ever reconciles again. */
  lemma CrashCanStripAStage(s: State, id: string)
    requires Reachable(s) && Target(s.op) == Some(id) && id in s.fs.stages && s.fs.stages[id].manifest != Missing
    ensures Run(s, [Remove(ManifestPiece), Crash]).Some?
    ensures var t := Run(s, [Remove(ManifestPiece), Crash]).value;
      && t.op == Idle && t.rows == s.rows && t.fs.dirs == s.fs.dirs
      && forall later, u :: Run(t, later) == Some(u) ==> !u.verdict.ReconcileOk?
  {
    hide Inv, Run, Legible;
    var a := SetStage(s, id, s.fs.stages[id].(manifest := Missing));
    RunOne(s, Remove(ManifestPiece));
    ReachableThen(s, [Remove(ManifestPiece)]);
    RunThen(s, [Remove(ManifestPiece)], Crash);
    assert [Remove(ManifestPiece)] + [Crash] == [Remove(ManifestPiece), Crash];
    assert !Legible(a.fs.stages[id].manifest) by { NoManifest(); }
    forall later, u | Run(Apply(a, Crash).value, later) == Some(u) ensures !u.verdict.ReconcileOk? {
      StepThen(a, Crash, later);
      UnreadableStageStays(a, id, Crash, later, u);
    }
  }

  lemma NoManifest()
    ensures !Legible(Missing)
  {
  }

  lemma HomeNow(t: State, id: string)
    requires Reachable(t) && id in t.rows && id in t.fs.stages && t.fs.stages[id].files.None?
    ensures AtHome(t, id)
  {
    hide QuarantineOk, OpOk, VerdictOk, ValidModelId;
    ReachableOk(t);
    assert Located(t, id);
  }
}

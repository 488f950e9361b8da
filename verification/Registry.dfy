/** Deletion and reconciliation as the registry performs them: straight-line sequences of
    filesystem operations and one transaction, each of which may fail, with the process able
    to die before any of them.

    `answers` is what the operating system and SQLite will say, one answer per operation; it
    is arbitrary, so what is proved here holds for every pattern of failures and every crash
    point.  When the answers run out everything succeeds.  The checks that open a deletion (the row
    passes its validators, no download is at work on it, its directory is inside the models root)
    are one answer. */
module RegistryService {
  import opened Wrappers
  import opened Coordinates
  import opened Database
  import opened DeletionManifest
  import opened DeletionProtocol
  import opened DeletionSafety

  datatype Answer = Yes | No | Die
  datatype Result = Nil | Err | Died

  class Registry {
    var rows: map<string, Path>
    var dirs: map<Path, Files>
    var quarantine: bool
    var stages: map<string, Stage>
    var strangers: set<string>
    var answers: seq<Answer>
    // what is remembered only to state the claims
    ghost var content: map<string, Files>
    ghost var minted: set<string>
    ghost var op: Op

    ghost function View(): State reads this {
      State(rows, content, minted, Fs(dirs, quarantine, stages, strangers), op, DeletionProtocol.Verdict.Open)
    }

    ghost predicate Valid() reads this { Inv(View()) }

    /** Between calls the registry is idle. */
    ghost predicate Ready() reads this { Valid() && op == Idle }

    method Ask() returns (a: Answer)
      modifies this`answers
      ensures old(answers) == [] ==> a == Yes && answers == []
      ensures old(answers) != [] ==> a == old(answers)[0] && answers == old(answers)[1..]
    {
      if answers == [] { return Yes; }
      a := answers[0];
      answers := answers[1..];
    }

    ghost function PiecesLeft(id: string): nat reads this`stages {
      if id !in stages then 0
      else 1 + (if stages[id].manifest == Missing then 0 else 1) + (if stages[id].files.None? then 0 else 1 + |stages[id].files.value|)
    }

    /** One unlink or rmdir below the stage, in no particular order. */
    method RemoveSome(id: string)
      requires Valid() && Target(op) == Some(id) && id in stages
      modifies this`stages, this`op
      ensures Valid() && PiecesLeft(id) < old(PiecesLeft(id))
      ensures stages - {id} == old(stages) - {id}
      ensures op == if id in stages then old(op) else AfterRemoval(old(View())).op
    {
      hide Inv;
      ghost var before := View();
      ghost var piece := StageDir;
      var stage := stages[id];
      if {
        case stage.manifest != Missing =>
          stages := stages[id := stage.(manifest := Missing)];
          piece := ManifestPiece;
        case stage.files.Some? && stage.files.value != {} =>
          var name :| name in stage.files.value;
          stages := stages[id := stage.(files := Some(stage.files.value - {name}))];
          piece := FilePiece(name);
        case stage.files == Some({}) =>
          stages := stages[id := stage.(files := None)];
          piece := FilesDir;
        case stage.manifest == Missing && stage.files.None? =>
          stages := stages - {id};
          op := AfterRemoval(before).op;
      }
      RemoveKeeps(before, piece);
      OpenVerdict(RemovePiece(before, piece).value);
    }

    /** RemoveAll of one stage directory, stopped by the first refusal. */
    method RemoveAll(id: string) returns (r: Result)
      requires Valid() && Target(op) == Some(id) && id in stages
      modifies this`stages, this`answers, this`op
      ensures Valid()
      ensures r == Nil ==> stages == old(stages) - {id} && op == AfterRemoval(old(View())).op
      ensures r != Nil ==> op == Idle && id in stages && stages - {id} == old(stages) - {id}
      ensures old(answers) == [] ==> r == Nil && answers == []
    {
      hide Inv, AfterRemoval;
      while id in stages
        invariant Valid()
        invariant op == if id in stages then old(op) else AfterRemoval(old(View())).op
        invariant stages - {id} == old(stages) - {id}
        invariant old(answers) == [] ==> answers == []
        decreases PiecesLeft(id)
      {
        ghost var before := View();
        var a := Ask();
        if a != Yes {
          op := Idle;
          StepKeeps(before, Crash);
          return if a == Die then Died else Err;
        }
        AfterRemovalOp(before, old(View()));
        RemoveSome(id);
      }
      assert stages == stages - {id};
      return Nil;
    }

    // ---- deletion ----

    /** The quarantine and a stage directory that must not exist yet. */
    method MakeStageDir(id: string) returns (r: Result)
      requires Ready() && id in rows && rows[id] in dirs
      modifies this`quarantine, this`stages, this`answers, this`op
      ensures Valid()
      ensures r == Nil ==> op == CreateManifest(id) && id !in old(stages) && stages == old(stages)[id := Stage(Missing, None)]
      ensures r != Nil ==> op == Idle && stages == old(stages)
      ensures old(answers) == [] && id !in old(stages) ==> r == Nil && answers == []
    {
      hide Inv, DeleteAdvance, Apply;
      DeletionBegins(View(), id);
      StepKeeps(View(), BeginDelete(id));
      op := MakeQuarantine(id);
      var a := Ask();
      if a != Yes { Stop(); return if a == Die then Died else Err; }
      QuarantineShape(View(), id);
      DeleteAdvanceKeeps(View(), true);
      quarantine := true;
      op := MakeStage(id);
      a := Ask();
      if a != Yes || id in stages { Stop(); return if a == Die then Died else Err; }
      StageShape(View(), id);
      DeleteAdvanceKeeps(View(), true);
      stages := stages[id := Stage(Missing, None)];
      op := CreateManifest(id);
      return Nil;
    }

    /** Create the manifest exclusively, then write and sync it. */
    method WriteManifest(id: string) returns (r: Result)
      requires Valid() && op == CreateManifest(id) && id in stages && id in rows
      modifies this`stages, this`answers, this`op
      ensures Valid() && stages - {id} == old(stages) - {id}
      ensures r == Nil ==> op == MoveFiles(id, rows[id]) && id in stages && stages[id].manifest == Whole(id, rows[id])
      // nobody looks at the size here, and what does not fit cannot be read back
      ensures r == Nil ==> (Legible(stages[id].manifest) <==> ManifestFits(id, rows[id]))
      ensures r == Err ==> op == Clean(id, NotStaged) && id in stages
      ensures r == Died ==> op == Idle
      ensures old(answers) == [] ==> r == Nil && answers == []
    {
      hide Inv;
      r := OpenManifest(id);
      if r == Nil { r := FillIn(id); }
    }

    /** The exclusive creation of the manifest. */
    method OpenManifest(id: string) returns (r: Result)
      requires Valid() && op == CreateManifest(id) && id in stages
      modifies this`stages, this`answers, this`op
      ensures Valid() && stages - {id} == old(stages) - {id} && id in stages
      ensures op == match r case Nil => FillManifest(id) case Err => Clean(id, NotStaged) case Died => Idle
      ensures stages == if r == Nil then old(stages)[id := old(stages)[id].(manifest := Partial)] else old(stages)
      ensures old(answers) == [] ==> r == Nil && answers == []
    {
      hide Inv;
      var a := Ask();
      if a == Die { Stop(); return Died; }
      DeleteAdvanceKeeps(View(), a == Yes);
      if a == No { op := Clean(id, NotStaged); return Err; }
      stages := stages[id := stages[id].(manifest := Partial)];
      op := FillManifest(id);
      return Nil;
    }

    /** Its content, written and synced. */
    method FillIn(id: string) returns (r: Result)
      requires Valid() && op == FillManifest(id) && id in stages && id in rows
      modifies this`stages, this`answers, this`op
      ensures Valid() && stages - {id} == old(stages) - {id} && id in stages
      ensures op == match r case Nil => MoveFiles(id, rows[id]) case Err => Clean(id, NotStaged) case Died => Idle
      ensures stages == if r == Nil then old(stages)[id := old(stages)[id].(manifest := Whole(id, rows[id]))] else old(stages)
      ensures r == Nil ==> (Legible(stages[id].manifest) <==> ManifestFits(id, rows[id]))
      ensures old(answers) == [] ==> r == Nil && answers == []
    {
      hide Inv;
      var a := Ask();
      if a == Die { Stop(); return Died; }
      DeleteAdvanceKeeps(View(), a == Yes);
      if a == No { op := Clean(id, NotStaged); return Err; }
      stages := stages[id := stages[id].(manifest := Whole(id, rows[id]))];
      op := MoveFiles(id, rows[id]);
      return Nil;
    }

    /** The rename that takes the files out of the way. */
    method MoveToStage(id: string) returns (r: Result)
      requires Valid() && id in rows && op == MoveFiles(id, rows[id])
      modifies this`stages, this`dirs, this`answers, this`op
      ensures Valid() && stages - {id} == old(stages) - {id} && id in stages
      ensures r == Nil ==> op == CommitRow(id, rows[id]) && dirs == old(dirs) - {rows[id]}
      ensures r == Nil ==> rows[id] in old(dirs) && stages[id].files == Some(old(dirs)[rows[id]])
      ensures r == Err ==> op == Clean(id, NotStaged) && dirs == old(dirs)
      ensures r == Died ==> op == Idle && dirs == old(dirs)
      ensures old(answers) == [] ==> r == Nil && answers == []
    {
      hide Inv, DeleteAdvance;
      StageIsReady(View(), id);
      var a := Ask();
      if a == Die { Stop(); return Died; }
      MoveShape(View(), id, a == Yes);
      DeleteAdvanceKeeps(View(), a == Yes);
      if a == No { op := Clean(id, NotStaged); return Err; }
      stages := stages[id := stages[id].(files := Some(dirs[rows[id]]))];
      dirs := dirs - {rows[id]};
      op := CommitRow(id, rows[id]);
      return Nil;
    }

    /** The rename back and the removal of the stage after a refused transaction. */
    method PutFilesBack(id: string) returns (r: Result)
      requires Valid() && id in rows && op == MoveBack(id, rows[id]) && id in stages && stages[id].files.Some? && rows[id] !in dirs
      modifies this`stages, this`dirs, this`answers, this`op
      ensures Ready() && r != Nil && stages - {id} == old(stages) - {id}
      ensures dirs == old(dirs) || dirs == old(dirs)[rows[id] := old(stages)[id].files.value]
      ensures old(answers) == [] ==> r == Err && id !in stages && dirs == old(dirs)[rows[id] := old(stages)[id].files.value]
    {
      hide Inv, DeleteAdvance;
      var a := Ask();
      if a != Yes { Stop(); return if a == Die then Died else Err; }
      BackShape(View(), id);
      DeleteAdvanceKeeps(View(), true);
      dirs := dirs[rows[id] := stages[id].files.value];
      stages := stages[id := stages[id].(files := None)];
      op := Clean(id, PutBack);
      r := Discard(id);
    }

    /** The transaction, with the files put back when SQLite refuses it. */
    method CommitDeletion(id: string) returns (r: Result)
      requires Valid() && id in rows && op == CommitRow(id, rows[id])
      modifies this`rows, this`stages, this`dirs, this`answers, this`op
      ensures Valid() && stages - {id} == old(stages) - {id}
      ensures r == Nil ==> op == Clean(id, Committed) && rows == old(rows) - {id} && dirs == old(dirs) && id in stages
      ensures r != Nil ==> rows == old(rows) && op == Idle
      ensures dirs - {old(rows)[id]} == old(dirs) - {old(rows)[id]}
      ensures old(answers) == [] ==> r == Nil && answers == []
      // refused, and nothing else in the way: the files are home again and the stage is gone
      ensures old(answers) == [No] ==>
                && r == Err && id !in stages && id in old(stages) && old(stages)[id].files.Some?
                && dirs == old(dirs)[old(rows)[id] := old(stages)[id].files.value]
    {
      hide Inv;
      CommitIsReady(View(), id);
      var a := Ask();
      if a == Die { Stop(); return Died; }
      DeleteAdvanceKeeps(View(), a == Yes);
      if a == No {
        op := MoveBack(id, rows[id]);
        r := PutFilesBack(id);
        return;
      }
      rows := rows - {id};
      op := Clean(id, Committed);
      return Nil;
    }

    /** Everything up to and including the rename. */
    method StageModel(id: string) returns (r: Result)
      requires Ready() && id in rows && rows[id] in dirs
      modifies this`quarantine, this`stages, this`dirs, this`answers, this`op
      ensures Valid() && stages - {id} == old(stages) - {id}
      ensures r == Nil ==> op == CommitRow(id, rows[id]) && id in stages && dirs == old(dirs) - {rows[id]}
      ensures r != Nil ==> op == Idle && dirs == old(dirs)
      ensures old(answers) == [] && id !in old(stages) ==> r == Nil && answers == []
    {
      hide Inv;
      r := MakeStageDir(id);
      if r != Nil { return; }
      r := WriteManifest(id);
      if r == Nil { r := MoveToStage(id); }
      if r == Err { r := Discard(id); }
    }

    /** After the commit: remove the stage, then the quarantine if nothing else is in it. */
    method PurgeStage(id: string) returns (r: Result)
      requires Valid() && op == Clean(id, Committed) && id in stages
      modifies this`quarantine, this`stages, this`answers, this`op
      ensures Ready() && stages - {id} == old(stages) - {id}
      ensures r == Nil ==> id !in stages
      ensures old(answers) == [] ==> r == Nil && answers == []
      ensures old(answers) == [] && stages == map[] && strangers == {} ==> !quarantine
    {
      hide Inv;
      r := RemoveAll(id);
      if r != Nil { return; }
      var a := Ask();
      DeleteAdvanceKeeps(View(), a == Yes);
      OpenVerdict(DeleteAdvance(View(), a == Yes).value);
      if a == Yes && stages == map[] && strangers == {} { quarantine := false; }
      op := Idle;
    }

    method ForgetModel(id: string) returns (r: Result)
      requires Ready() && id in rows
      modifies this`rows, this`answers
      ensures Ready()
      ensures rows == if r == Nil then old(rows) - {id} else old(rows)
      ensures old(answers) == [] ==> r == Nil
    {
      hide Inv;
      var a := Ask();
      if a != Yes { return if a == Die then Died else Err; }
      StepKeeps(View(), ForgetRow(id));
      OpenVerdict(Apply(View(), ForgetRow(id)).value);
      rows := rows - {id};
      return Nil;
    }

    /** The deletion of a registered model together with its files. */
    method DeleteFiles(id: string) returns (r: Result)
      requires Ready() && id in rows && rows[id] in dirs
      modifies this`rows, this`stages, this`dirs, this`quarantine, this`answers, this`op
      ensures Ready()
      ensures rows == old(rows) || rows == old(rows) - {id}
      ensures stages - {id} == old(stages) - {id}
      ensures dirs - {old(rows)[id]} == old(dirs) - {old(rows)[id]}
      ensures r == Nil ==> rows == old(rows) - {id} && id !in stages && dirs == old(dirs) - {old(rows)[id]}
      ensures old(answers) == [] && id !in old(stages) ==> r == Nil
      ensures old(answers) == [] && id !in old(stages) && stages == map[] && strangers == {} ==> !quarantine
    {
      hide Inv;
      r := StageModel(id);
      if r == Nil { r := CommitDeletion(id); }
      if r == Nil { r := PurgeStage(id); }
    }

    /** Delete a registered model, with its files when asked.

        Nil: the row is gone, and with it the files and the stage.  Err or death with the row still
        there: its files are all at home or all in the stage.  Err without the row: the deletion is
        committed and what is left of the stage waits for the next start.  No other model, stage or
        directory is touched.

        Files that are left in the stage can be put back by the next start exactly when the manifest
        fits, which a caller can look at beforehand. */
    method Delete(id: string, files: bool) returns (r: Result)
      requires Ready()
      modifies this`rows, this`stages, this`dirs, this`quarantine, this`answers, this`op
      ensures Ready()
      ensures rows == old(rows) || rows == old(rows) - {id}
      ensures stages - {id} == old(stages) - {id}
      ensures id in old(rows) ==> dirs - {old(rows)[id]} == old(dirs) - {old(rows)[id]}
      ensures r == Nil ==> id in old(rows) && rows == old(rows) - {id}
      ensures r == Nil && files ==> id !in stages && dirs == old(dirs) - {old(rows)[id]}
      ensures !files || id !in old(rows) ==> stages == old(stages) && dirs == old(dirs)
      ensures id in rows ==> Located(View(), id)
      ensures id in rows && Staged(View(), id) ==>
                (Settles(View(), id) <==> ManifestFits(id, rows[id])) && PutsBack(View(), id)
      ensures old(answers) == [] && id in old(rows) && old(rows)[id] in old(dirs) && id !in old(stages) ==> r == Nil
      ensures (&& old(answers) == [] && files && id in old(rows) && old(rows)[id] in old(dirs) && id !in old(stages)
               && stages == map[] && strangers == {})
              ==> !quarantine
      ensures id !in old(rows) || (files && old(rows)[id] !in old(dirs)) ==> r != Nil && rows == old(rows) && stages == old(stages)
      ensures old(answers) == [] && id in old(rows) && !files ==> r == Nil
    {
      hide Inv, Located, Settles, ManifestFits;
      if id !in rows { return Err; }
      var a := Ask();
      if a != Yes {
        r := if a == Die then Died else Err;
      } else if !files {
        r := ForgetModel(id);
      } else if rows[id] !in dirs {
        r := Err;
      } else {
        r := DeleteFiles(id);
      }
      if id in rows {
        LocatedNow(View(), id);
        StagedCanBePutBack(View(), id);
      }
    }

    // ---- reconciliation ----

    /** Read an entry's manifest and ask the database: what has to be done with it. */
    method ReadEntry(id: string, ghost todo: seq<string>, ghost boot: Fs) returns (r: Result, back: bool)
      requires Valid() && op == Visit(todo, boot) && todo != [] && todo[0] == id
      modifies this`answers, this`op
      ensures Valid() && (r == Nil ==> Settles(View(), id))
      ensures r == Nil ==> back == PutsBack(View(), id)
                           && op == if back then DeletionProtocol.Op.Restore(todo, rows[id], boot) else Purge(todo, boot)
      ensures r != Nil ==> op == Idle
      ensures old(answers) == [] && Readable(boot) ==> r == Nil && answers == []
      ensures old(answers) == [] ==> answers == [] && (r == Nil <==> Settles(View(), id))
    {
      hide Inv, VisitEntry, Readable;
      back := false;
      if Readable(boot) { VisitedEntryProceeds(View()); }
      VisitEntryCases(View(), todo, boot);
      var a := Ask();
      if a != Yes { Stop(); return if a == Die then Died else Err, back; }
      var known := ValidModelId(id) && id in stages;
      if !known || !Legible(stages[id].manifest) || stages[id].manifest.id != id { Stop(); return Err, back; }
      VisitKeeps(View(), true);
      if id !in rows {
        op := Purge(todo, boot);
      } else {
        if rows[id] != stages[id].manifest.original { Stop(); return Err, back; }
        if stages[id].files.None? {
          if rows[id] !in dirs { Stop(); return Err, back; }
          op := Purge(todo, boot);
        } else {
          if rows[id] in dirs { Stop(); return Err, back; }
          op := DeletionProtocol.Op.Restore(todo, rows[id], boot);
          back := true;
        }
      }
      r := Nil;
    }

    /** One entry: put its files back, or purge it, as its manifest and the database decide. */
    method SettleEntry(id: string, ghost todo: seq<string>, ghost boot: Fs) returns (r: Result)
      requires Valid() && op == Visit(todo, boot) && todo != [] && todo[0] == id
      modifies this`stages, this`dirs, this`answers, this`op
      ensures Valid()
      ensures r == Nil ==> op == Visit(todo[1..], boot)
      ensures r != Nil ==> op == Idle
      ensures old(answers) == [] && Readable(boot) ==> r == Nil && answers == []
      // an entry is settled only if it can be read and, when its model exists, names its path
      ensures !Settles(old(View()), id) ==> r != Nil && dirs == old(dirs) && stages == old(stages)
      ensures old(answers) == [] && Settles(old(View()), id) ==> r == Nil
      // settled: the stage is gone, and its files are back if their model still exists
      ensures r == Nil ==> stages == old(stages) - {id}
      ensures r == Nil ==> dirs == if PutsBack(old(View()), id) then old(dirs)[rows[id] := old(stages)[id].files.value] else old(dirs)
      // stopped: either no file has moved or exactly the staged ones have
      ensures r != Nil ==> stages - {id} == old(stages) - {id}
      ensures r != Nil ==> dirs == old(dirs) || (PutsBack(old(View()), id) && dirs == old(dirs)[rows[id] := old(stages)[id].files.value])
    {
      hide Inv, Readable, Settles;
      ghost var before := View();
      var back;
      r, back := ReadEntry(id, todo, boot);
      SettlesByTables(before, View(), id);
      if r != Nil { return; }
      SettlesHasStage(View(), id);
      r := ActOnEntry(id, back, todo, boot);
    }

    /** Put the files back, if they are to go back, and remove the stage. */
    method ActOnEntry(id: string, back: bool, ghost todo: seq<string>, ghost boot: Fs) returns (r: Result)
      requires Valid() && todo != [] && todo[0] == id && id in stages
      requires back ==> id in rows && stages[id].files.Some? && rows[id] !in dirs
      requires op == if back then DeletionProtocol.Op.Restore(todo, rows[id], boot) else Purge(todo, boot)
      modifies this`stages, this`dirs, this`answers, this`op
      ensures Valid() && op == if r == Nil then Visit(todo[1..], boot) else Idle
      ensures stages - {id} == old(stages) - {id} && (r == Nil ==> stages == old(stages) - {id})
      ensures !back ==> dirs == old(dirs)
      ensures back ==> dirs == old(dirs)[rows[id] := old(stages)[id].files.value] || (r != Nil && dirs == old(dirs))
      ensures old(answers) == [] ==> r == Nil && answers == []
    {
      hide Inv;
      if back {
        r := MoveHome(id, todo, boot);
        if r != Nil { return; }
      }
      r := RemoveAll(id);
    }

    /** The rename that puts the files of an uncommitted deletion back. */
    method MoveHome(id: string, ghost todo: seq<string>, ghost boot: Fs) returns (r: Result)
      requires Valid() && todo != [] && todo[0] == id && id in rows && id in stages && stages[id].files.Some? && rows[id] !in dirs
      requires op == DeletionProtocol.Op.Restore(todo, rows[id], boot)
      modifies this`stages, this`dirs, this`answers, this`op
      ensures Valid() && id in stages
      ensures op == if r == Nil then Purge(todo, boot) else Idle
      ensures dirs == if r == Nil then old(dirs)[rows[id] := old(stages)[id].files.value] else old(dirs)
      ensures stages == if r == Nil then old(stages)[id := old(stages)[id].(files := None)] else old(stages)
      ensures old(answers) == [] ==> r == Nil && answers == []
    {
      hide Inv, ReconcileAdvance;
      var a := Ask();
      if a != Yes { Stop(); return if a == Die then Died else Err; }
      RestoreShape(View(), id, todo, boot);
      RestoreKeeps(View(), true);
      dirs := dirs[rows[id] := stages[id].files.value];
      stages := stages[id := stages[id].(files := None)];
      op := Purge(todo, boot);
      return Nil;
    }

    /** Finish or roll back what an interrupted process left, by what the database says.

        Nil: every registered model has its files at its path and the quarantine is gone; and it
        was possible only because every manifest was whole and within the limit, and nothing unknown
        was there. */
    method Reconcile(order: seq<string>) returns (r: Result)
      requires Ready() && (quarantine ==> Entries(View().fs, order))
      modifies this`stages, this`dirs, this`quarantine, this`answers, this`op
      ensures Ready()
      ensures r == Nil ==> NothingStaged(View()) && !quarantine && forall id :: id in rows ==> AtHome(View(), id)
      ensures r == Nil ==> Readable(old(View()).fs)
      ensures old(answers) == [] && Readable(old(View()).fs) ==> r == Nil
    {
      hide Inv, AtHome, Entries;
      ghost var boot := View().fs;
      if !quarantine {
        QuarantineMissing(View());
        return Nil;
      }
      BeginReconcileKeeps(View(), order);
      op := Visit(order, boot);
      OpenVerdict(View());
      for i := 0 to |order|
        invariant Valid() && op == Visit(order[i..], boot)
        invariant old(answers) == [] && Readable(boot) ==> answers == []
      {
        assert order[i..][1..] == order[i + 1..];
        r := SettleEntry(order[i], order[i..], boot);
        if r != Nil { return; }
      }
      r := RemoveQuarantine(boot);
    }

    /** The last operation: the quarantine directory goes if nothing is left in it. */
    method RemoveQuarantine(ghost boot: Fs) returns (r: Result)
      requires Valid() && op == Visit([], boot)
      modifies this`quarantine, this`answers, this`op
      ensures Ready()
      ensures r == Nil ==> NothingStaged(View()) && !quarantine && Readable(boot) && forall id :: id in rows ==> AtHome(View(), id)
      ensures old(answers) == [] && Readable(boot) ==> r == Nil
    {
      hide Inv, AtHome, VisitEntry;
      VisitKeeps(View(), true);
      op := CloseQuarantine(boot);
      CloseMeans(View(), boot);
      var a := Ask();
      if a != Yes { Stop(); return if a == Die then Died else Err; }
      if strangers != {} { Stop(); return Err; }
      CloseKeeps(View(), true);
      OpenVerdict(ReconcileAdvance(View(), true).value);
      quarantine := false;
      op := Idle;
      AtHomeAll(View());
      return Nil;
    }

    /** The process dies, or the call returns, with the files wherever they are. */
    ghost method Stop()
      requires Valid()
      modifies this`op
      ensures Ready()
    {
      hide Inv;
      StepKeeps(View(), Crash);
      op := Idle;
    }

    /** The best-effort removal on an error path: its own failure is not reported. */
    method Discard(id: string) returns (r: Result)
      requires Valid() && op.Clean? && op.id == id && op.reason != Committed && id in stages
      modifies this`stages, this`answers, this`op
      ensures Ready() && r != Nil
      ensures stages - {id} == old(stages) - {id}
      ensures old(answers) == [] ==> r == Err && id !in stages
    {
      r := RemoveAll(id);
      if r == Nil { r := Err; }
    }
  }

  /** The entry can be acted on: a whole manifest of its own and, if its model still exists, files at
      exactly one of the two places and the path the model is registered with. */
  predicate Settles(s: State, id: string) {
    && ValidModelId(id) && id in s.fs.stages && Legible(s.fs.stages[id].manifest) && s.fs.stages[id].manifest.id == id
    && (id in s.rows ==> s.rows[id] == s.fs.stages[id].manifest.original && (s.fs.stages[id].files.None? <==> s.rows[id] in s.fs.dirs))
  }

  /** The deletion was not committed and the files are staged. */
  predicate PutsBack(s: State, id: string) {
    id in s.rows && id in s.fs.stages && s.fs.stages[id].files.Some?
  }

  lemma SettlesByTables(s: State, t: State, id: string)
    requires t.rows == s.rows && t.fs == s.fs
    ensures Settles(s, id) == Settles(t, id)
  {
    hide ValidModelId;
  }

  lemma SettlesHasStage(s: State, id: string)
    requires Settles(s, id)
    ensures id in s.fs.stages && (PutsBack(s, id) ==> s.rows[id] !in s.fs.dirs)
  {
    hide ValidModelId;
  }

  /** The tests of one visit, as the code makes them. */
  lemma VisitEntryCases(s: State, todo: seq<string>, boot: Fs)
    requires s.op == Visit(todo, boot) && todo != []
    ensures var id := todo[0];
      var v := VisitEntry(s, todo, boot);
      if !KnownName(s, id) || !Legible(s.fs.stages[id].manifest) || s.fs.stages[id].manifest.id != id then v.op == Idle
      else if id !in s.rows then v == s.(op := Purge(todo, boot))
      else if s.rows[id] != s.fs.stages[id].manifest.original then v.op == Idle
      else if s.fs.stages[id].files.None? then
        if s.rows[id] in s.fs.dirs then v == s.(op := Purge(todo, boot)) else v.op == Idle
      else if s.rows[id] in s.fs.dirs then v.op == Idle
      else v == s.(op := DeletionProtocol.Op.Restore(todo, s.rows[id], boot))
  {
    hide ValidModelId;
  }

  // ---- the operations as steps ----

  lemma DeletionBegins(s: State, id: string)
    requires s.op == Idle && id in s.rows && s.rows[id] in s.fs.dirs
    ensures Apply(s, BeginDelete(id)) == Some(s.(op := MakeQuarantine(id), verdict := DeletionProtocol.Verdict.Open))
  {
  }

  lemma QuarantineShape(s: State, id: string)
    requires s.op == MakeQuarantine(id)
    ensures DeleteAdvance(s, true) == Some(s.(fs := s.fs.(quarantine := true), op := MakeStage(id)))
  {
  }

  lemma StageShape(s: State, id: string)
    requires s.op == MakeStage(id) && id !in s.fs.stages
    ensures DeleteAdvance(s, true) ==
              Some(s.(op := CreateManifest(id), fs := s.fs.(stages := s.fs.stages[id := Stage(Missing, None)])))
  {
  }

  lemma MoveShape(s: State, id: string, ok: bool)
    requires id in s.rows && s.op == MoveFiles(id, s.rows[id]) && id in s.fs.stages && s.fs.stages[id].files.None? && s.rows[id] in s.fs.dirs
    ensures DeleteAdvance(s, ok) ==
              Some(if !ok then s.(op := Clean(id, NotStaged))
                   else s.(op := CommitRow(id, s.rows[id]),
                           fs := s.fs.(dirs := s.fs.dirs - {s.rows[id]},
                                       stages := s.fs.stages[id := s.fs.stages[id].(files := Some(s.fs.dirs[s.rows[id]]))])))
  {
  }

  lemma BackShape(s: State, id: string)
    requires id in s.rows && s.op == MoveBack(id, s.rows[id]) && id in s.fs.stages && s.fs.stages[id].files.Some? && s.rows[id] !in s.fs.dirs
    ensures DeleteAdvance(s, true) ==
              Some(s.(op := Clean(id, PutBack), fs := s.fs.(dirs := s.fs.dirs[s.rows[id] := s.fs.stages[id].files.value],
                                                           stages := s.fs.stages[id := s.fs.stages[id].(files := None)])))
  {
  }

  /** The rename that puts the files back, as one step. */
  lemma RestoreShape(s: State, id: string, todo: seq<string>, boot: Fs)
    requires todo != [] && todo[0] == id && id in s.rows && id in s.fs.stages && s.fs.stages[id].files.Some?
    requires s.op == DeletionProtocol.Op.Restore(todo, s.rows[id], boot) && s.rows[id] !in s.fs.dirs
    ensures ReconcileAdvance(s, true) ==
              Some(s.(op := Purge(todo, boot), fs := s.fs.(dirs := s.fs.dirs[s.rows[id] := s.fs.stages[id].files.value],
                                                          stages := s.fs.stages[id := s.fs.stages[id].(files := None)])))
  {
  }

  lemma QuarantineMissing(s: State)
    requires Inv(s) && !s.fs.quarantine
    ensures NothingStaged(s) && Readable(s.fs) && forall id :: id in s.rows ==> AtHome(s, id)
  {
    hide OpOk, VerdictOk, ValidModelId;
    forall id | id in s.rows ensures AtHome(s, id) { assert Located(s, id); }
  }

  lemma CloseMeans(s: State, boot: Fs)
    requires Inv(s) && s.op == CloseQuarantine(boot)
    ensures s.fs.stages == map[] && (s.fs.strangers == {} ==> Readable(boot)) && (Readable(boot) ==> s.fs.strangers == {})
  {
    hide RowsOk, VerdictOk, ValidModelId;
    assert s.fs.stages.Keys == {};
  }

  lemma StageIsReady(s: State, id: string)
    requires Inv(s) && id in s.rows && s.op == MoveFiles(id, s.rows[id])
    ensures id in s.fs.stages && s.fs.stages[id].files.None? && s.rows[id] in s.fs.dirs
  {
    hide QuarantineOk, VerdictOk;
  }

  lemma CommitIsReady(s: State, id: string)
    requires Inv(s) && id in s.rows && s.op == CommitRow(id, s.rows[id])
    ensures id in s.fs.stages && s.fs.stages[id].files.Some? && s.rows[id] !in s.fs.dirs
  {
    hide QuarantineOk, VerdictOk, ValidModelId;
    assert Located(s, id);
  }

  lemma LocatedNow(s: State, id: string)
    requires Inv(s) && id in s.rows
    ensures Located(s, id)
  {
    hide QuarantineOk, VerdictOk, OpOk, ValidModelId;
  }

  /** Files in a stage: reconciliation acts on the entry exactly when its manifest fits. */
  lemma StagedCanBePutBack(s: State, id: string)
    requires Inv(s) && id in s.rows
    ensures Staged(s, id) ==> (Settles(s, id) <==> ManifestFits(id, s.rows[id])) && PutsBack(s, id)
  {
    hide QuarantineOk, VerdictOk, OpOk, ValidModelId, ManifestFits;
    assert Located(s, id);
  }

  lemma OpenVerdict(s: State)
    requires Inv(s)
    ensures Inv(s.(verdict := DeletionProtocol.Verdict.Open))
  {
    hide RowsOk, QuarantineOk, OpOk;
    var t := s.(verdict := DeletionProtocol.Verdict.Open);
    SameTablesKeep(s, t);
    SameOp(s, t);
  }

  lemma SameOp(s: State, t: State)
    requires OpOk(s) && t == s.(verdict := t.verdict)
    ensures OpOk(t)
  {
  }

  lemma AfterRemovalOp(s: State, t: State)
    requires s.op == t.op
    ensures AfterRemoval(s).op == AfterRemoval(t).op
  {
  }
}

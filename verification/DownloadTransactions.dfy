/** Each transaction keeps the two tables consistent with each other and acceptable to a restart. */
module DownloadTransactions {
  import opened Wrappers
  import opened Utf8
  import opened LogWindow
  import opened Coordinates
  import opened Database
  import opened Restart

  predicate ModelsOk(db: Db, clock: nat) {
    && (forall m :: m in db.models ==> ModelAccepted(m, db.models[m]) && db.models[m].updated <= clock)
    && (forall m, n :: (m in db.models && n in db.models && db.models[m].localPath.Some?
                        && db.models[m].localPath == db.models[n].localPath) ==> m == n)
  }

  predicate RowsOk(c: Config, db: Db, clock: nat) {
    && RestoreAccepts(c, db)
    && forall id :: id in db.downloads ==>
         var r := db.downloads[id];
         && r.updated <= clock && (r.started.Some? ==> r.started.value <= clock)
         && (Active(r.state) ==> r.modelId.Some?)
  }

  /** No model has two active downloads. */
  ghost predicate Exclusive(db: Db) {
    forall d, e, m :: Claims(db, d, m) && Claims(db, e, m) ==> d == e
  }

  ghost predicate Claimed(db: Db, m: string) { exists d :: Claims(db, d, m) }

  ghost predicate DownloadingIsClaimed(db: Db) {
    forall m :: m in db.models && db.models[m].status == Downloading ==> Claimed(db, m)
  }

  /** What every durable state satisfies. */
  ghost predicate DbOk(c: Config, db: Db, clock: nat) {
    ModelsOk(db, clock) && RowsOk(c, db, clock) && Exclusive(db) && DownloadingIsClaimed(db)
  }

  /** An active row names a model that is downloading into the row's directory. */
  lemma ActiveRowFacts(c: Config, db: Db, clock: nat, id: string)
    requires DbOk(c, db, clock) && id in db.downloads && Active(db.downloads[id].state)
    ensures var r := db.downloads[id];
      && r.modelId.Some? && r.modelId.value in db.models && Claims(db, id, r.modelId.value)
      && var m := db.models[r.modelId.value];
         m.kind == HuggingFace && m.status == Downloading && m.localPath.None? && m.size == 0
         && m.repository == r.repository && m.revision == r.revision
         && r.destination == Join(c.root, r.modelId.value)
  {
    assert RowAccepted(c, id, db.downloads[id]) && LinkAccepted(c, db, db.downloads[id]);
    assert ModelAccepted(db.downloads[id].modelId.value, db.models[db.downloads[id].modelId.value]);
  }

  lemma TickKeeps(c: Config, db: Db, clock: nat, later: nat)
    requires DbOk(c, db, clock) && clock <= later
    ensures DbOk(c, db, later)
  {
  }

  lemma RegisterKeeps(c: Config, db: Db, clock: nat, id: string, model: Model)
    requires DbOk(c, db, clock) && RegisterTx(db, id, model).Some?
    requires ModelAccepted(id, model) && model.updated <= clock && model.status != Downloading
    ensures DbOk(c, RegisterTx(db, id, model).value, clock)
  {
    hide RowAccepted, ModelAccepted;
    var after := RegisterTx(db, id, model).value;
    forall d | d in after.downloads ensures LinkAccepted(c, after, after.downloads[d]) {
      assert LinkAccepted(c, db, db.downloads[d]);
    }
    forall m | m in after.models && after.models[m].status == Downloading ensures Claimed(after, m) {
      var d :| Claims(db, d, m);
      assert Claims(after, d, m);
    }
    assert forall d, m :: Claims(after, d, m) ==> Claims(db, d, m);
  }

  lemma DeleteKeeps(c: Config, db: Db, clock: nat, id: string)
    requires DbOk(c, db, clock) && DeleteModelTx(db, id).Some?
    ensures DbOk(c, DeleteModelTx(db, id).value, clock)
    ensures forall d :: d in db.downloads && Active(db.downloads[d].state)
              ==> DeleteModelTx(db, id).value.downloads[d] == db.downloads[d]
  {
    hide RowAccepted, LinkAccepted, ModelAccepted, RestoreAccepts, Claims;
    var after := DeleteModelTx(db, id).value;
    DeleteShape(db, id);
    DeletedRowsAccepted(c, db, id);
    DeleteLeavesActive(db, id);
    forall m | m in after.models && after.models[m].status == Downloading ensures Claimed(after, m) {
      assert Claimed(db, m);
      ClaimSurvives(db, id, m);
    }
    forall d, m | Claims(after, d, m) ensures Claims(db, d, m) { ClaimWasThere(db, id, d, m); }
  }

  /** A deletion removes one model and clears at most the link of each row. */
  lemma DeleteShape(db: Db, id: string)
    requires DeleteModelTx(db, id).Some?
    ensures var after := DeleteModelTx(db, id).value;
      && after.models == db.models - {id} && after.downloads.Keys == db.downloads.Keys
      && forall d :: d in db.downloads ==>
           after.downloads[d] == if db.downloads[d].modelId == Some(id) then db.downloads[d].(modelId := None) else db.downloads[d]
  {
    hide DeletionBlocked;
  }

  lemma DeleteLeavesActive(db: Db, id: string)
    requires DeleteModelTx(db, id).Some?
    ensures forall d :: d in db.downloads && Active(db.downloads[d].state) ==> db.downloads[d].modelId != Some(id)
  {
    assert !DeletionBlocked(db, id, db.models[id].localPath);
  }

  lemma DeletedRowsAccepted(c: Config, db: Db, id: string)
    requires RestoreAccepts(c, db) && DeleteModelTx(db, id).Some?
    ensures RestoreAccepts(c, DeleteModelTx(db, id).value)
  {
    hide RowAccepted, LinkAccepted, DeleteModelTx;
    DeleteShape(db, id);
    var after := DeleteModelTx(db, id).value;
    forall d | d in after.downloads ensures RowAccepted(c, d, after.downloads[d]) && LinkAccepted(c, after, after.downloads[d]) {
      RowUnlinked(c, d, db.downloads[d], after.downloads[d]);
      LinkUnlinked(c, db, after, id, db.downloads[d], after.downloads[d]);
    }
  }

  lemma LinkUnlinked(c: Config, db: Db, after: Db, id: string, was: Row, now: Row)
    requires LinkAccepted(c, db, was) && after.models == db.models - {id}
    requires now == if was.modelId == Some(id) then was.(modelId := None) else was
    ensures LinkAccepted(c, after, now)
  {
  }

  lemma ClaimSurvives(db: Db, id: string, m: string)
    requires DeleteModelTx(db, id).Some? && Claimed(db, m)
    ensures Claimed(DeleteModelTx(db, id).value, m)
  {
    hide DeleteModelTx;
    DeleteShape(db, id);
    DeleteLeavesActive(db, id);
    var d :| Claims(db, d, m);
    assert Claims(DeleteModelTx(db, id).value, d, m);
  }

  lemma ClaimWasThere(db: Db, id: string, d: string, m: string)
    requires DeleteModelTx(db, id).Some? && Claims(DeleteModelTx(db, id).value, d, m)
    ensures Claims(db, d, m)
  {
    hide DeleteModelTx;
    DeleteShape(db, id);
    assert d in DeleteModelTx(db, id).value.downloads.Keys;
  }

  lemma RowUnlinked(c: Config, id: string, before: Row, after: Row)
    requires RowAccepted(c, id, before) && (after == before || after == before.(modelId := None))
    ensures RowAccepted(c, id, after)
  {
    hide LogsAccepted, ValidJobId, CanonicalRepository, CanonicalRevision, Valid;
  }

  /** The columns an accepted attempt writes. */
  predicate FreshAttempt(c: Config, db: Db, clock: nat, id: string, j: Row) {
    && ValidJobId(id)
    && Active(j.state) && j.modelId.Some?
    && CanonicalRepository(j.repository) && CanonicalRevision(j.revision)
    && j.destination == Join(c.root, j.modelId.value)
    && (j.modelId.value in db.models ==>
          && db.models[j.modelId.value].kind == HuggingFace
          && db.models[j.modelId.value].repository == j.repository && db.models[j.modelId.value].revision == j.revision)
    && j.progress == 0.0 && j.error == [] && j.logs == []
    && j.finished.None? && (j.started.Some? <==> j.state == Running)
    && (j.started.Some? ==> j.started.value <= clock)
  }

  lemma FreshRow(c: Config, db: Db, clock: nat, id: string, j: Row, created: nat, now: nat)
    requires FreshAttempt(c, db, clock, id, j) && ValidModelId(j.modelId.value) && created <= now
    ensures RowAccepted(c, id, j.(created := created, updated := now))
  {
    assert Bytes([]) == 0;
  }

  lemma RowStamps(c: Config, id: string, r: Row)
    requires RowAccepted(c, id, r)
    ensures r.created <= r.updated
  {
  }

  lemma ModelClaimed(id: string, m: Model, now: nat)
    requires ModelAccepted(id, m) && Claimable(m.status) && m.updated <= now
    ensures ModelAccepted(id, m.(status := Downloading, updated := now)) && m.localPath.None? && ValidModelId(id)
  {
  }

  lemma AcceptKeeps(c: Config, db: Db, clock: nat, id: string, j: Row, retry: bool, now: nat)
    requires DbOk(c, db, clock) && FreshAttempt(c, db, clock, id, j) && clock <= now
    requires AcceptTx(db, id, j, retry, now).Some?
    ensures DbOk(c, AcceptTx(db, id, j, retry, now).value, now)
  {
    hide RowAccepted, LinkAccepted, ModelAccepted, RestoreAccepts, FreshAttempt, AcceptTx;
    var after := AcceptTx(db, id, j, retry, now).value;
    AcceptTables(c, db, clock, id, j, retry, now);
    var own := j.modelId.value;
    ModelClaimed(own, db.models[own], now);
    AcceptedRowsAccepted(c, db, clock, id, j, retry, now);
    assert Claims(after, id, own);
    forall m | m in after.models && after.models[m].status == Downloading ensures Claimed(after, m) {
      if m != own {
        var d :| Claims(db, d, m);
        assert Claims(after, d, m);
      }
    }
    forall d, m | Claims(after, d, m) && d != id ensures Claims(db, d, m) && m != own { ActiveRowFacts(c, db, clock, d); }
  }

  /** An acceptance writes one row, over none or over one that is not at work, and claims one model. */
  lemma AcceptTables(c: Config, db: Db, clock: nat, id: string, j: Row, retry: bool, now: nat)
    requires FreshAttempt(c, db, clock, id, j) && AcceptTx(db, id, j, retry, now).Some?
    ensures var after := AcceptTx(db, id, j, retry, now).value;
      && j.modelId.Some? && Active(j.state) && (j.started.Some? ==> j.started.value <= clock)
      && (id in db.downloads ==> !Active(db.downloads[id].state))
      && j.modelId.value in db.models && Claimable(db.models[j.modelId.value].status)
      && after.models == db.models[j.modelId.value := db.models[j.modelId.value].(status := Downloading, updated := now)]
      && id in after.downloads && after.downloads == db.downloads[id := after.downloads[id]]
      && after.downloads[id] == j.(created := if id in db.downloads then db.downloads[id].created else now, updated := now)
  {
    hide CanonicalRepository, CanonicalRevision, ValidJobId;
  }

  lemma AcceptedRowsAccepted(c: Config, db: Db, clock: nat, id: string, j: Row, retry: bool, now: nat)
    requires DbOk(c, db, clock) && FreshAttempt(c, db, clock, id, j) && clock <= now
    requires AcceptTx(db, id, j, retry, now).Some?
    ensures RestoreAccepts(c, AcceptTx(db, id, j, retry, now).value)
  {
    hide RowAccepted, LinkAccepted, ModelAccepted, FreshAttempt, AcceptTx, Exclusive, DownloadingIsClaimed;
    var after := AcceptTx(db, id, j, retry, now).value;
    AcceptTables(c, db, clock, id, j, retry, now);
    ModelClaimed(j.modelId.value, db.models[j.modelId.value], now);
    if id in db.downloads { RowStamps(c, id, db.downloads[id]); }
    FreshRow(c, db, clock, id, j, after.downloads[id].created, now);
    forall d | d in after.downloads
      ensures RowAccepted(c, d, after.downloads[d]) && LinkAccepted(c, after, after.downloads[d])
    {
      if d == id { FreshLink(c, db, clock, id, j, after, now); }
      else {
        if Active(db.downloads[d].state) { ActiveRowFacts(c, db, clock, d); }
        OtherLink(c, db, after, j.modelId.value, db.downloads[d], now);
      }
    }
  }

  lemma FreshLink(c: Config, db: Db, clock: nat, id: string, j: Row, after: Db, now: nat)
    requires FreshAttempt(c, db, clock, id, j) && j.modelId.value in db.models && db.models[j.modelId.value].localPath.None?
    requires after.models == db.models[j.modelId.value := db.models[j.modelId.value].(status := Downloading, updated := now)]
    requires id in after.downloads && after.downloads[id] == j.(created := after.downloads[id].created, updated := now)
    ensures LinkAccepted(c, after, after.downloads[id])
  {
    hide CanonicalRepository, CanonicalRevision, ValidJobId;
  }

  /** A claim leaves the links of rows that are not at work for the claimed model. */
  lemma OtherLink(c: Config, db: Db, after: Db, m: string, row: Row, now: nat)
    requires LinkAccepted(c, db, row) && m in db.models && (Active(row.state) ==> row.modelId != Some(m))
    requires after.models == db.models[m := db.models[m].(status := Downloading, updated := now)]
    ensures LinkAccepted(c, after, row)
  {
  }

  /** The columns a job at work may write over its own active row. */
  predicate SameAttempt(c: Config, clock: nat, row: Row, j: Row) {
    && j.modelId == row.modelId && j.repository == row.repository && j.revision == row.revision
    && j.destination == row.destination
    && 0.0 <= j.progress <= 100.0 && LogsAccepted(c, j.logs)
    && (j.started.Some? ==> j.started.value <= clock)
  }

  lemma ProgressRow(c: Config, clock: nat, id: string, row: Row, j: Row, now: nat)
    requires RowAccepted(c, id, row) && SameAttempt(c, clock, row, j) && row.updated <= clock <= now
    requires Active(j.state) && j.error == [] && j.finished.None? && (j.started.Some? <==> j.state == Running)
    ensures RowAccepted(c, id, j.(created := row.created, updated := now))
  {
  }

  lemma ProgressKeeps(c: Config, db: Db, clock: nat, id: string, j: Row, now: nat)
    requires DbOk(c, db, clock) && clock <= now
    requires id in db.downloads && Active(db.downloads[id].state) && Active(j.state)
    requires SameAttempt(c, clock, db.downloads[id], j)
    requires j.error == [] && j.finished.None? && (j.started.Some? <==> j.state == Running)
    ensures DbOk(c, UpsertRow(db, id, j, now), now)
  {
    hide RowAccepted, ModelAccepted, LogsAccepted;
    var after := UpsertRow(db, id, j, now);
    ActiveRowFacts(c, db, clock, id);
    ProgressRow(c, clock, id, db.downloads[id], j, now);
    forall d | d in after.downloads
      ensures RowAccepted(c, d, after.downloads[d]) && LinkAccepted(c, after, after.downloads[d])
    {
      if d != id { assert RowAccepted(c, d, db.downloads[d]) && LinkAccepted(c, db, db.downloads[d]); }
    }
    assert forall d, m :: Claims(after, d, m) <==> Claims(db, d, m);
    forall m | m in after.models && after.models[m].status == Downloading ensures Claimed(after, m) {
      var d :| Claims(db, d, m);
      assert Claims(after, d, m);
    }
  }

  /** The terminal columns over the job's own active row. */
  predicate TerminalColumns(c: Config, clock: nat, row: Row, j: Row) {
    && SameAttempt(c, clock, row, j) && !Active(j.state)
    && j.finished == Some(clock)
    && |j.error| <= MAX_ERROR_BYTES && Valid(j.error) && (j.error == [] <==> j.state == Succeeded)
  }

  lemma TerminalRow(c: Config, clock: nat, id: string, row: Row, j: Row, now: nat)
    requires RowAccepted(c, id, row) && TerminalColumns(c, clock, row, j) && row.updated <= clock <= now
    ensures RowAccepted(c, id, j.(created := row.created, updated := now))
  {
  }

  lemma ModelSettled(id: string, m: Model, state: JobState, localPath: Option<Path>, size: nat, now: nat)
    requires ModelAccepted(id, m) && m.kind == HuggingFace && m.status == Downloading && m.updated <= now && !Active(state)
    ensures localPath.Some? ==> ModelAccepted(id, m.(status := Ready, localPath := localPath, size := size, updated := now))
    ensures state != Succeeded ==> ModelAccepted(id, m.(status := TerminalStatus(state, None), updated := now))
  {
  }

  function SettledModel(m: Model, state: JobState, localPath: Option<Path>, size: nat, now: nat): Model {
    if state == Succeeded && localPath.Some? then m.(status := Ready, localPath := localPath, size := size, updated := now)
    else m.(status := TerminalStatus(state, localPath), updated := now)
  }

  /** Only a success can be refused, and only because another model already owns the directory. */
  lemma TerminalResult(c: Config, db: Db, clock: nat, id: string, j: Row, localPath: Option<Path>, size: nat, now: nat)
    requires DbOk(c, db, clock)
    requires id in db.downloads && Active(db.downloads[id].state) && !Active(j.state)
    requires j.modelId == db.downloads[id].modelId
    requires localPath.Some? <==> j.state == Succeeded
    ensures j.modelId.Some? && j.modelId.value in db.models
    ensures var m := j.modelId.value;
      var after := TerminalTx(db, id, j, localPath, size, now);
      if localPath.Some? && PathTakenByOther(db.models, m, localPath.value) then after.None?
      else after == Some(Db(db.models[m := SettledModel(db.models[m], j.state, localPath, size, now)],
                            db.downloads[id := j.(created := db.downloads[id].created, updated := now)]))
  {
    hide RowAccepted, ModelAccepted, LogsAccepted, Valid, Exclusive, DownloadingIsClaimed;
    ActiveRowFacts(c, db, clock, id);
  }

  /** A settled model changes nothing for the rows of others. */
  lemma SettledRowsAccepted(c: Config, db: Db, clock: nat, id: string, j: Row, own: string, after: Db, now: nat)
    requires DbOk(c, db, clock) && clock <= now
    requires id in db.downloads && Active(db.downloads[id].state) && TerminalColumns(c, clock, db.downloads[id], j)
    requires own in db.models && j.modelId == Some(own)
    requires own in after.models && after.models == db.models[own := after.models[own]]
    requires after.models[own].kind == db.models[own].kind && after.models[own].repository == db.models[own].repository
             && after.models[own].revision == db.models[own].revision
    requires after.downloads == db.downloads[id := j.(created := db.downloads[id].created, updated := now)]
    ensures RestoreAccepts(c, after)
  {
    hide RowAccepted, LinkAccepted, ModelAccepted, LogsAccepted, Valid;
    ActiveRowFacts(c, db, clock, id);
    TerminalRow(c, clock, id, db.downloads[id], j, now);
    forall d | d in after.downloads
      ensures RowAccepted(c, d, after.downloads[d]) && LinkAccepted(c, after, after.downloads[d])
    {
      if d == id { TerminalLink(c, after, own, after.downloads[d]); }
      else {
        if Active(db.downloads[d].state) { ActiveRowFacts(c, db, clock, d); }
        SettledLink(c, db, after, own, db.downloads[d]);
      }
    }
  }

  lemma TerminalLink(c: Config, db: Db, m: string, row: Row)
    requires !Active(row.state) && row.modelId == Some(m) && m in db.models && db.models[m].kind == HuggingFace
    ensures LinkAccepted(c, db, row)
  {
  }

  lemma SettledLink(c: Config, db: Db, after: Db, own: string, row: Row)
    requires LinkAccepted(c, db, row) && own in db.models && (Active(row.state) ==> row.modelId != Some(own))
    requires own in after.models && after.models == db.models[own := after.models[own]]
    requires after.models[own].kind == db.models[own].kind && after.models[own].repository == db.models[own].repository
             && after.models[own].revision == db.models[own].revision
    ensures LinkAccepted(c, after, row)
  {
  }

  lemma SettleKeeps(c: Config, db: Db, clock: nat, id: string, j: Row, localPath: Option<Path>, size: nat, now: nat)
    requires DbOk(c, db, clock) && clock <= now
    requires id in db.downloads && Active(db.downloads[id].state)
    requires TerminalColumns(c, clock, db.downloads[id], j)
    requires localPath.Some? <==> j.state == Succeeded
    requires j.modelId.Some? && j.modelId.value in db.models
    requires localPath.Some? ==> !PathTakenByOther(db.models, j.modelId.value, localPath.value)
    ensures DbOk(c, Db(db.models[j.modelId.value := SettledModel(db.models[j.modelId.value], j.state, localPath, size, now)],
                       db.downloads[id := j.(created := db.downloads[id].created, updated := now)]), now)
  {
    hide RowAccepted, LinkAccepted, ModelAccepted, RestoreAccepts, LogsAccepted, Valid;
    var own := j.modelId.value;
    ActiveRowFacts(c, db, clock, id);
    ModelSettled(own, db.models[own], j.state, localPath, size, now);
    var after := Db(db.models[own := SettledModel(db.models[own], j.state, localPath, size, now)],
                    db.downloads[id := j.(created := db.downloads[id].created, updated := now)]);
    SettledRowsAccepted(c, db, clock, id, j, own, after, now);
    forall m | m in after.models && after.models[m].status == Downloading ensures Claimed(after, m) {
      var d :| Claims(db, d, m);
      assert d != id;
      assert Claims(after, d, m);
    }
    assert forall d, m :: Claims(after, d, m) ==> Claims(db, d, m);
  }
}

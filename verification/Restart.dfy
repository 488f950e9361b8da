/** What a restart accepts: the validators `restore` runs on every persisted download before
    it touches anything, as conditions and in the order of the code. */
module Restart {
  import opened Utf8
  import opened LogWindow
  import opened Coordinates
  import opened Database

  /** The fixed parts of a deployment. */
  datatype Config = Config(root: Path, maxWorkers: nat, maxLogs: nat)

  predicate ConfigOk(c: Config) { c.maxWorkers >= 1 && c.maxLogs >= 1 }

  predicate LogsAccepted(c: Config, logs: seq<Text>) {
    && |logs| <= c.maxLogs
    && AllWithin(logs, MAX_LINE_BYTES + |LINE_SUFFIX|)
    && Bytes(logs) <= MAX_LOG_BYTES
  }

  predicate TimesAccepted(r: Row) {
    && r.created <= r.updated
    && (r.finished.Some? ==>
          && (if r.started.Some? then r.started.value else r.created) <= r.finished.value
          && r.finished.value <= r.updated)
  }

  predicate LifecycleAccepted(r: Row) {
    match r.state
    case Pending => r.started.None? && r.finished.None? && r.error == []
    case Running => r.started.Some? && r.finished.None? && r.error == []
    case Succeeded => r.finished.Some? && r.error == []
    case Failed | Canceled => r.finished.Some? && r.error != []
  }

  /** The row taken by itself. */
  predicate RowAccepted(c: Config, id: string, r: Row) {
    && LogsAccepted(c, r.logs)
    && ValidJobId(id)
    && (r.modelId.Some? ==> ValidModelId(r.modelId.value))
    && CanonicalRepository(r.repository) && CanonicalRevision(r.revision)
    && 0.0 <= r.progress <= 100.0
    && TimesAccepted(r)
    && |r.error| <= MAX_ERROR_BYTES && Valid(r.error)
    && LifecycleAccepted(r)
  }

  /** The row against the model it is linked to. */
  predicate LinkAccepted(c: Config, db: Db, r: Row) {
    r.modelId.None? || (
      && r.modelId.value in db.models
      && var m := db.models[r.modelId.value];
      && m.kind == HuggingFace
      && if m.repository != r.repository || m.revision != r.revision then !Active(r.state)
         else !Active(r.state)
              || (r.destination == Join(c.root, r.modelId.value) && m.status == Downloading && m.localPath.None?))
  }

  /** `restore` goes on to write only when every row passes both validators. */
  predicate RestoreAccepts(c: Config, db: Db) {
    forall id :: id in db.downloads ==> RowAccepted(c, id, db.downloads[id]) && LinkAccepted(c, db, db.downloads[id])
  }

  /** A model row the registry's own reads accept. */
  predicate ModelAccepted(id: string, m: Model) {
    && ValidModelId(id)
    && m.created <= m.updated
    && match m.kind {
         case HuggingFace =>
           && CanonicalRepository(m.repository) && CanonicalRevision(m.revision)
           && (if m.status == Ready then m.localPath.Some? else m.localPath.None? && m.size == 0)
         case Local => m.repository == "" && m.revision == "" && m.status == Ready && m.localPath.Some?
       }
  }

  // ---- the validators as the code runs them ----

  /** The row by itself: logs, identity, coordinates, progress, stamps, error, life cycle. */
  method ValidateRestoredJob(c: Config, id: string, r: Row) returns (ok: bool)
    ensures ok <==> RowAccepted(c, id, r)
    ensures ok <==>
              && |r.logs| <= c.maxLogs && Bytes(r.logs) <= 4194304
              && (forall i :: 0 <= i < |r.logs| ==> Valid(r.logs[i]) && |r.logs[i]| <= 65536 + 15)
              && ValidJobId(id) && (r.modelId.Some? ==> ValidModelId(r.modelId.value))
              && CanonicalRepository(r.repository) && CanonicalRevision(r.revision)
              && 0.0 <= r.progress <= 100.0 && r.created <= r.updated
              && |r.error| <= 65536 && Valid(r.error)
              && (r.finished.Some? ==>
                    r.finished.value <= r.updated
                    && r.finished.value >= (if r.started.Some? then r.started.value else r.created))
              && (r.state == Pending ==> r.started.None? && r.finished.None? && r.error == [])
              && (r.state == Running ==> r.started.Some? && r.finished.None? && r.error == [])
              && (r.state == Succeeded ==> r.finished.Some? && r.error == [])
              && (r.state in {JobState.Failed, Canceled} ==> r.finished.Some? && r.error != [])
  {
    hide Valid, Bytes, ValidJobId, ValidModelId, CanonicalRepository, CanonicalRevision;
    if |r.logs| > c.maxLogs { return false; }
    for i := 0 to |r.logs|
      invariant forall j :: 0 <= j < i ==> Valid(r.logs[j]) && |r.logs[j]| <= MAX_LINE_BYTES + |LINE_SUFFIX|
    {
      if !Valid(r.logs[i]) || |r.logs[i]| > MAX_LINE_BYTES + |LINE_SUFFIX| { return false; }
    }
    if Bytes(r.logs) > MAX_LOG_BYTES { return false; }
    if !ValidJobId(id) { return false; }
    if r.modelId.Some? && !ValidModelId(r.modelId.value) { return false; }
    if !CanonicalRepository(r.repository) || !CanonicalRevision(r.revision) { return false; }
    if r.progress < 0.0 || r.progress > 100.0 { return false; }
    if r.updated < r.created { return false; }
    if |r.error| > MAX_ERROR_BYTES || !Valid(r.error) { return false; }
    if r.finished.Some? {
      var minimum := if r.started.Some? then r.started.value else r.created;
      if r.finished.value < minimum || r.updated < r.finished.value { return false; }
    }
    match r.state
    case Pending => ok := r.started.None? && r.finished.None? && r.error == [];
    case Running => ok := r.started.Some? && r.finished.None? && r.error == [];
    case Succeeded => ok := r.finished.Some? && r.error == [];
    case Failed => ok := r.finished.Some? && r.error != [];
    case Canceled => ok := r.finished.Some? && r.error != [];
  }

  /** The row against the model it is linked to. */
  method ValidateLinkedJob(c: Config, db: Db, r: Row) returns (ok: bool)
    ensures ok <==> LinkAccepted(c, db, r)
    ensures ok <==> (r.modelId.Some? ==>
              && r.modelId.value in db.models
              && var m := db.models[r.modelId.value];
              && m.kind == HuggingFace
              && (r.state in {Pending, Running} ==>
                    m.repository == r.repository && m.revision == r.revision && m.status == Downloading && m.localPath.None?
                    && r.destination == Join(c.root, r.modelId.value)))
  {
    if r.modelId.None? { return true; }
    if r.modelId.value !in db.models { return false; }
    var m := db.models[r.modelId.value];
    if m.kind != HuggingFace { return false; }
    if m.repository != r.repository || m.revision != r.revision { return r.state != Pending && r.state != Running; }
    if r.state != Pending && r.state != Running { return true; }
    if r.destination != Join(c.root, r.modelId.value) { return false; }
    if m.status != Downloading { return false; }
    ok := m.localPath.None?;
  }
}

/** The `models` and `downloads` tables and the transactions the services run on them.

    A transaction is atomic: it either yields the next database or yields nothing and
    changes nothing.  Each function below answers what the statements of one transaction
    do when SQLite accepts them; a commit that SQLite refuses is a separate step of the
    protocols.  `None` stands for a statement that fails or an affected-row count the
    code rejects. */
module Database {
  import opened Wrappers
  import opened Utf8

  /** A canonical absolute path. */
  datatype Path = Path(parts: seq<string>)

  function Join(root: Path, name: string): Path { Path(root.parts + [name]) }

  /** How a path below the root directory is written. */
  function PathText(parts: seq<string>): string {
    if parts == [] then "" else PathText(parts[..|parts| - 1]) + "/" + parts[|parts| - 1]
  }

  lemma JoinInjective(root: Path, a: string, b: string)
    requires Join(root, a) == Join(root, b)
    ensures a == b
  {
    assert Join(root, a).parts[|root.parts|] == a;
    assert Join(root, b).parts[|root.parts|] == b;
  }

  datatype Kind = HuggingFace | Local
  datatype Status = Registered | Downloading | Ready | StatusCanceled | StatusFailed | StatusError
  datatype JobState = Pending | Running | Succeeded | Failed | Canceled

  datatype Model = Model(kind: Kind, repository: string, revision: string, status: Status,
                         localPath: Option<Path>, size: nat, created: nat, updated: nat)

  datatype Row = Row(modelId: Option<string>, repository: string, revision: string, destination: Path,
                     state: JobState, progress: real, error: Text, logs: seq<Text>,
                     started: Option<nat>, finished: Option<nat>, created: nat, updated: nat)

  datatype Db = Db(models: map<string, Model>, downloads: map<string, Row>)

  predicate Active(state: JobState) { state == Pending || state == Running }
  predicate Claimable(status: Status) { status in {Registered, StatusError, StatusFailed, StatusCanceled} }

  /** Download row `id` is at work for model `m`. */
  predicate Claims(db: Db, id: string, m: string) {
    id in db.downloads && Active(db.downloads[id].state) && db.downloads[id].modelId == Some(m)
  }

  predicate PathTaken(models: map<string, Model>, path: Path) {
    exists m :: m in models && models[m].localPath == Some(path)
  }

  // ---- the registry's transactions ----

  function RegisterTx(db: Db, id: string, model: Model): Option<Db> {
    if id in db.models || (model.localPath.Some? && PathTaken(db.models, model.localPath.value)) then None
    else Some(db.(models := db.models[id := model]))
  }

  predicate DeletionBlocked(db: Db, id: string, path: Option<Path>) {
    exists d :: d in db.downloads && Active(db.downloads[d].state)
      && (db.downloads[d].modelId == Some(id) || path == Some(db.downloads[d].destination))
  }

  /** Deleting a model clears the foreign keys that point at it. */
  function DeleteModelTx(db: Db, id: string): Option<Db> {
    if id !in db.models || DeletionBlocked(db, id, db.models[id].localPath) then None
    else Some(Db(db.models - {id},
                 map d | d in db.downloads ::
                   if db.downloads[d].modelId == Some(id) then db.downloads[d].(modelId := None) else db.downloads[d]))
  }

  // ---- the downloader's transactions ----

  /** `j` carries the values written; `created` and `updated` come from the transaction's clock reading. */
  function UpsertRow(db: Db, id: string, j: Row, now: nat): Db {
    var created := if id in db.downloads then db.downloads[id].created else now;
    db.(downloads := db.downloads[id := j.(created := created, updated := now)])
  }

  function ClaimModel(db: Db, modelId: Option<string>, now: nat): Option<Db> {
    if modelId.None? then Some(db)
    else if modelId.value !in db.models || !Claimable(db.models[modelId.value].status) then None
    else Some(db.(models := db.models[modelId.value := db.models[modelId.value].(status := Downloading, updated := now)]))
  }

  /** The acceptance transaction: insert or retry the row, then claim the model. */
  function AcceptTx(db: Db, id: string, j: Row, retry: bool, now: nat): Option<Db> {
    var eligible :=
      if retry then id in db.downloads && j.modelId.Some? && db.downloads[id].modelId == j.modelId
                    && db.downloads[id].state in {Failed, Canceled}
      else id !in db.downloads;
    if !eligible then None else ClaimModel(UpsertRow(db, id, j, now), j.modelId, now)
  }

  function TerminalStatus(state: JobState, localPath: Option<Path>): Status {
    match state
    case Pending | Running => Downloading
    case Succeeded => if localPath.Some? then Ready else StatusError
    case Canceled => StatusCanceled
    case Failed => StatusError
  }

  predicate PathTakenByOther(models: map<string, Model>, id: string, path: Path) {
    exists m :: m in models && m != id && models[m].localPath == Some(path)
  }

  function SettleModel(db: Db, id: string, state: JobState, localPath: Option<Path>, size: nat, now: nat): Option<Db> {
    if id !in db.models then None
    else
      var status := TerminalStatus(state, localPath);
      var was := db.models[id];
      if status == Ready && localPath.Some? then
        if PathTakenByOther(db.models, id, localPath.value) then None
        else Some(db.(models := db.models[id := was.(status := Ready, localPath := localPath, size := size, updated := now)]))
      else Some(db.(models := db.models[id := was.(status := status, updated := now)]))
  }

  /** The terminal transaction: publish the row and its model together. */
  function TerminalTx(db: Db, id: string, j: Row, localPath: Option<Path>, size: nat, now: nat): Option<Db> {
    var written := UpsertRow(db, id, j, now);
    if j.modelId.None? then Some(written) else SettleModel(written, j.modelId.value, j.state, localPath, size, now)
  }
}

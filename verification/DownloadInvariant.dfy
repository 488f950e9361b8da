/** The inductive invariant of the download service and the proof that every step keeps it. */
module DownloadInvariant {
  import opened Wrappers
  import opened Coordinates
  import opened Database
  import opened Restart
  import opened DownloadTransactions
  import opened DownloadProtocol

  // ---- one job ----

  function Bit(b: bool): nat { if b then 1 else 0 }

  /** One slot at most, given back exactly when it is no longer held; one finish; one Done. */
  predicate LedgerOk(j: Job) {
    && j.acquired <= 1 && (j.phase == Queued ==> j.acquired == 0)
    && j.acquired == j.released + Bit(Holds(j.phase))
    && j.finishes == Bit(j.phase in {Finished, Gone})
    && j.dones == Bit(j.phase == Gone)
  }

  predicate StateFits(closed: bool, j: Job) {
    match j.phase
    case Queued | Granted => j.data.state == Pending
    case Checked => j.data.state == Running || (j.data.state == Pending && (closed || j.cancelled))
    case Launching | Alive | Waited(_) | Released(_) => j.data.state == Running
    case Finishing(outcome) => Active(j.data.state) && Terminal(outcome)
    case Finished | Gone | Archived => Terminal(j.data.state)
  }

  /** The columns of a job at work are ones its row may take. */
  predicate DataOk(c: Config, clock: nat, j: Job) {
    && j.data.modelId.Some? && j.cancelable && !j.lost
    && 0.0 <= j.data.progress <= 100.0 && LogsAccepted(c, j.data.logs)
    && j.data.error == [] && j.data.finished.None?
    && (j.data.started.Some? <==> j.data.state == Running)
    && (j.data.started.Some? ==> j.data.started.value <= clock)
  }

  /** Memory and row agree on everything but the logs still to be written. */
  predicate RowMatches(row: Row, data: Row) {
    && row.modelId == data.modelId && row.repository == data.repository && row.revision == data.revision
    && row.destination == data.destination && row.state == data.state && row.started == data.started
  }

  predicate OpenOk(c: Config, s: State, a: nat) {
    a in s.jobs && var j := s.jobs[a];
    && j.id in s.index && s.index[j.id] == a
    && j.id in s.db.downloads && RowMatches(s.db.downloads[j.id], j.data)
    && DataOk(c, s.clock, j)
  }

  predicate JobOk(c: Config, s: State, a: nat) {
    a in s.jobs && var j := s.jobs[a];
    && a < s.next && LedgerOk(j) && StateFits(s.closed, j)
    && (Open(j.phase) ==> OpenOk(c, s, a))
  }

  predicate JobsOk(c: Config, s: State) { forall a :: a in s.jobs ==> JobOk(c, s, a) }

  /** The row holds what the job ended with; only its link may have gone with a deleted model. */
  predicate Recorded(row: Row, data: Row) {
    && row.(modelId := None, created := 0, updated := 0) == data.(modelId := None, created := 0, updated := 0)
    && (row.modelId.None? || row.modelId == data.modelId)
  }

  /** The newest attempt of an id agrees with its row, unless its terminal write was refused. */
  predicate EntryOk(s: State, id: string) {
    && id in s.index && s.index[id] in s.jobs && id in s.db.downloads
    && var j := s.jobs[s.index[id]];
    && j.id == id
    && (if j.lost then !Open(j.phase) && s.terminalErr && j.data.state == Failed && Active(s.db.downloads[id].state)
        else s.db.downloads[id].state == j.data.state && (Open(j.phase) || Recorded(s.db.downloads[id], j.data)))
  }

  predicate IndexOk(s: State) { forall id :: id in s.index ==> EntryOk(s, id) }

  // ---- the counters ----

  function Holders(jobs: map<nat, Job>): set<nat> { set a | a in jobs && Holds(jobs[a].phase) }
  function Owners(jobs: map<nat, Job>): set<nat> { set a | a in jobs && Counted(jobs[a].phase) }

  predicate SlotsOk(c: Config, s: State) {
    && s.workers == |Holders(s.jobs)| && s.workers <= c.maxWorkers
    && s.wg == |Owners(s.jobs)|
  }

  lemma OneMember(before: set<nat>, after: set<nat>, a: nat)
    requires before - {a} == after - {a}
    ensures |after| == |before| - Bit(a in before) + Bit(a in after)
  {
    assert |before - {a}| == |before| - Bit(a in before);
    assert |after - {a}| == |after| - Bit(a in after);
  }

  lemma CountersMove(jobs: map<nat, Job>, a: nat, j: Job)
    ensures |Holders(jobs[a := j])| == |Holders(jobs)| - Bit(a in jobs && Holds(jobs[a].phase)) + Bit(Holds(j.phase))
    ensures |Owners(jobs[a := j])| == |Owners(jobs)| - Bit(a in jobs && Counted(jobs[a].phase)) + Bit(Counted(j.phase))
  {
    OneMember(Holders(jobs), Holders(jobs[a := j]), a);
    OneMember(Owners(jobs), Owners(jobs[a := j]), a);
  }

  // ---- requests, identities, modes ----

  predicate RequestOk(s: State, r: Request) {
    && ValidJobId(r.jobId) && r.modelId in s.minted
    && CanonicalRepository(r.repository) && CanonicalRevision(r.revision)
    && (r.modelId in s.db.models ==>
          var m := s.db.models[r.modelId];
          m.kind == HuggingFace && m.repository == r.repository && m.revision == r.revision)
  }

  predicate RequestsOk(s: State) {
    && s.db.models.Keys <= s.minted
    && forall r :: r in s.requests ==> RequestOk(s, r)
  }

  /** What restore has done to row `id` so far. */
  predicate RowRestored(boot: Db, db: Db, id: string) {
    id in boot.downloads && id in db.downloads
    && var was, now := boot.downloads[id], db.downloads[id];
    if Active(was.state) then
      now.finished.Some? && now == was.(state := Canceled, error := INTERRUPTED, finished := now.finished, updated := now.updated)
    else now == was
  }

  predicate ModelRestored(boot: Db, db: Db, m: string) {
    m in boot.models && m in db.models
    && (db.models[m] == boot.models[m]
        || (boot.models[m].status == Downloading
            && db.models[m] == boot.models[m].(status := StatusCanceled, updated := db.models[m].updated)))
  }

  predicate RestoreProgress(boot: Db, db: Db, todo: seq<string>) {
    && db.downloads.Keys == boot.downloads.Keys && db.models.Keys == boot.models.Keys
    && (forall i :: 0 <= i < |todo| ==> todo[i] in boot.downloads && db.downloads[todo[i]] == boot.downloads[todo[i]])
    && (forall id :: id in boot.downloads && id !in todo ==> RowRestored(boot, db, id))
    && (forall m :: m in boot.models ==> ModelRestored(boot, db, m))
  }

  predicate ModeOk(s: State) {
    match s.mode
    case Down => s == CrashStep(s)
    case Restoring(todo, boot) =>
      && s.requests == {} && !s.closed && !s.terminalErr
      && (forall a :: a in s.jobs ==> s.jobs[a].phase == Archived)
      && (forall i, k :: 0 <= i < k < |todo| ==> todo[i] != todo[k])
      && (forall i :: 0 <= i < |todo| ==> todo[i] !in s.index)
      && (forall id :: id in s.db.downloads ==> id in s.index || id in todo)
      && RestoreProgress(boot, s.db, todo)
    case Up => forall id :: id in s.db.downloads ==> id in s.index
  }

  ghost predicate Inv(c: Config, s: State) {
    && ConfigOk(c)
    && DbOk(c, s.db, s.clock)
    && JobsOk(c, s) && IndexOk(s) && SlotsOk(c, s) && RequestsOk(s) && ModeOk(s)
  }

  // ---- steps that move one job ----

  /** The job may take these values without any other part of the state noticing. */
  predicate MayBecome(c: Config, s: State, a: nat, j: Job) {
    && s.mode == Up && a in s.jobs && Open(s.jobs[a].phase) && Open(j.phase)
    && j.id == s.jobs[a].id && RowMatches(j.data, s.jobs[a].data)
    && LedgerOk(j) && StateFits(s.closed, j) && DataOk(c, s.clock, j)
  }

  /** Job `b` sees no change. */
  predicate Undisturbed(s: State, t: State, b: nat) {
    && b in s.jobs && b in t.jobs && t.jobs[b] == s.jobs[b]
    && var id := s.jobs[b].id;
       Open(s.jobs[b].phase) ==>
         (id in s.index && s.index[id] == b ==> id in t.index && t.index[id] == b)
         && (id in s.db.downloads ==> id in t.db.downloads && RowMatches(t.db.downloads[id], s.db.downloads[id]))
  }

  lemma JobKeeps(c: Config, s: State, t: State, b: nat)
    requires JobOk(c, s, b) && Undisturbed(s, t, b)
    requires s.clock <= t.clock && s.next <= t.next && (s.closed ==> t.closed)
    ensures JobOk(c, t, b)
  {
    hide LedgerOk, LogsAccepted;
  }

  lemma MoveKeepsJobs(c: Config, s: State, a: nat, j: Job, workers: int)
    requires JobsOk(c, s) && MayBecome(c, s, a, j)
    ensures JobsOk(c, s.(jobs := s.jobs[a := j], workers := workers))
  {
    hide LedgerOk, DataOk;
    var t := s.(jobs := s.jobs[a := j], workers := workers);
    assert JobOk(c, s, a);
    forall b | b in t.jobs ensures JobOk(c, t, b) {
      if b != a {
        assert JobOk(c, s, b);
        JobKeeps(c, s, t, b);
      }
    }
  }

  lemma MoveKeepsIndex(c: Config, s: State, a: nat, j: Job, workers: int)
    requires JobsOk(c, s) && IndexOk(s) && MayBecome(c, s, a, j)
    ensures IndexOk(s.(jobs := s.jobs[a := j], workers := workers))
  {
    hide LedgerOk, LogsAccepted;
    var t := s.(jobs := s.jobs[a := j], workers := workers);
    assert JobOk(c, s, a);
    forall id | id in t.index ensures EntryOk(t, id) { assert EntryOk(s, id); }
  }

  lemma MoveKeeps(c: Config, s: State, a: nat, j: Job, workers: int)
    requires Inv(c, s) && MayBecome(c, s, a, j)
    requires workers == s.workers - Bit(Holds(s.jobs[a].phase)) + Bit(Holds(j.phase)) && workers <= c.maxWorkers
    ensures Inv(c, s.(jobs := s.jobs[a := j], workers := workers))
  {
    hide DbOk, JobsOk, IndexOk, RequestOk, LedgerOk, DataOk, StateFits, RowMatches;
    var t := s.(jobs := s.jobs[a := j], workers := workers);
    MoveKeepsJobs(c, s, a, j, workers);
    MoveKeepsIndex(c, s, a, j, workers);
    CountersMove(s.jobs, a, j);
    forall r | r in t.requests ensures RequestOk(t, r) { RequestKeeps(s, t, r); }
  }

  lemma JobFacts(c: Config, s: State, a: nat)
    requires Inv(c, s) && a in s.jobs
    ensures LedgerOk(s.jobs[a]) && StateFits(s.closed, s.jobs[a]) && s.workers <= c.maxWorkers
  {
    hide DbOk, IndexOk, RequestsOk, ModeOk, OpenOk;
    assert JobOk(c, s, a);
  }

  /** The common case: the columns stay and only the position of the goroutine changes. */
  lemma PhaseKeeps(c: Config, s: State, a: nat, j: Job, workers: int)
    requires Inv(c, s) && s.mode == Up && a in s.jobs && Open(s.jobs[a].phase) && Open(j.phase)
    requires j == s.jobs[a].(phase := j.phase, acquired := j.acquired, released := j.released, cancelled := j.cancelled)
    requires LedgerOk(j) && StateFits(s.closed, j)
    requires workers == s.workers - Bit(Holds(s.jobs[a].phase)) + Bit(Holds(j.phase)) && workers <= c.maxWorkers
    ensures Inv(c, s.(jobs := s.jobs[a := j], workers := workers))
  {
    hide DbOk, IndexOk, RequestsOk, ModeOk, SlotsOk, LogsAccepted, LedgerOk, StateFits;
    assert JobOk(c, s, a);
    MoveKeeps(c, s, a, j, workers);
  }

  lemma RequestKeeps(s: State, t: State, r: Request)
    requires RequestOk(s, r) && s.minted <= t.minted
    requires r.modelId in t.db.models ==>
               r.modelId in s.db.models && t.db.models[r.modelId].kind == s.db.models[r.modelId].kind
               && t.db.models[r.modelId].repository == s.db.models[r.modelId].repository
               && t.db.models[r.modelId].revision == s.db.models[r.modelId].revision
    ensures RequestOk(t, r)
  {
    hide CanonicalRepository, CanonicalRevision, ValidJobId;
  }
}

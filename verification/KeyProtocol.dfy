/** The API-key table as a step system.

    A verification reads a row, spends a long time deriving a hash, and then commits with one
    conditional update.  Between the two any other step may happen: the key can be disabled,
    enabled, deleted, or used by someone else.  The key-derivation function and SQLite's
    julianday are parameters, gathered in a `World`. */
module KeyProtocol {
  import opened Wrappers
  import opened Utf8
  import opened Coordinates
  import opened KeyMaterial

  type Id = string

  /** A stored timestamp: nanoseconds after the zero time, or text that does not parse. */
  datatype Stamp = At(nanos: nat) | Garbage(text: string)

  datatype Row = Row(name: string, prefix: string, salt: Text, hash: Text, enabled: int, scopes: string,
                     created: Stamp, lastUsed: Option<Stamp>)

  /** The columns a verification holds on to while it derives. */
  datatype Snapshot = Snapshot(name: string, prefix: string, salt: Text, hash: Text, scopes: string, created: Stamp)

  datatype Verification = Verification(secret: string, need: string, id: Id, snapshot: Snapshot, since: nat)

  /** `commits` is the history of a key's committed uses since it was created. */
  datatype State = State(keys: map<Id, Row>, pending: map<nat, Verification>, now: nat, commits: map<Id, seq<nat>>)

  datatype Step =
    | Tick(to: nat)
    | Create(id: Id, name: string, scopeList: seq<string>, secret: string, salt: Text, at: nat)
    | SetEnabled(id: Id, enabled: bool)
    | Delete(id: Id)
    | Lookup(v: nat, id: Id, secret: string, need: string)
    | Commit(v: nat, at: nat)
    | Abandon(v: nat)

  datatype World = World(derive: (string, Text) -> Text, julian: nat -> int, quantum: nat)

  /** All that is used of the two functions: hashes have their length, and julianday is a
      monotone rounding that only identifies instants less than one quantum apart. */
  ghost predicate Sound(w: World) {
    && (forall secret, salt :: |w.derive(secret, salt)| == HASH_SIZE)
    && (forall a: nat, b: nat :: a <= b ==> w.julian(a) <= w.julian(b))
    && (forall a: nat, b: nat :: w.julian(a) == w.julian(b) ==> a < b + w.quantum)
  }

  function SnapshotOf(row: Row): Snapshot {
    Snapshot(row.name, row.prefix, row.salt, row.hash, row.scopes, row.created)
  }

  /** What every reader demands of a stored row. */
  predicate RowReadable(id: Id, row: Row) {
    && ValidKeyId(id) && ValidKeyName(row.name) && ValidPrefix(row.prefix)
    && |row.salt| == SALT_SIZE && |row.hash| == HASH_SIZE
    && (row.enabled == 0 || row.enabled == 1)
    && Decoded(row.scopes).Some?
    && row.created.At? && row.created.nanos > 0
    && (row.lastUsed.Some? ==> row.lastUsed.value.At? && row.lastUsed.value.nanos >= row.created.nanos)
  }

  predicate Granted(row: Row, need: string) {
    need == "" || (Decoded(row.scopes).Some? && Grants(Decoded(row.scopes).value, need))
  }

  /** What it takes to pass with this row: the secret, the switch and the scope. */
  predicate Authenticates(w: World, id: Id, row: Row, secret: string, need: string) {
    && ValidSecret(secret) && row.prefix == secret[..PREFIX_SIZE]
    && RowReadable(id, row)
    && w.derive(secret, row.salt) == row.hash
    && row.enabled == 1
    && Granted(row, need)
  }

  function NewRow(w: World, name: string, scopeList: seq<string>, secret: string, salt: Text, at: nat): Row
    requires ValidSecret(secret)
  {
    Row(TrimSpace(name), secret[..PREFIX_SIZE], salt, w.derive(secret, salt), 1, Join(Normalized(scopeList)), At(at), None)
  }

  /** What CreateNamed checks before it draws anything. */
  predicate Creatable(name: string, scopeList: seq<string>) {
    && Normalized(scopeList) != []
    && (forall s :: s in Normalized(scopeList) ==> ValidScope(s))
    && ValidKeyName(TrimSpace(name))
  }

  /** The primary key and the unique index on prefixes. */
  predicate Insertable(keys: map<Id, Row>, id: Id, prefix: string) {
    id !in keys && forall other :: other in keys ==> keys[other].prefix != prefix
  }

  function CreateStep(w: World, s: State, id: Id, name: string, scopeList: seq<string>, secret: string, salt: Text, at: nat)
    : Option<State>
  {
    if !ValidSecret(secret) || !ValidKeyId(id) || |salt| != SALT_SIZE || !Creatable(name, scopeList)
       || !Insertable(s.keys, id, secret[..PREFIX_SIZE]) || !(1 <= at <= s.now) then None
    else Some(s.(keys := s.keys[id := NewRow(w, name, scopeList, secret, salt, at)], commits := s.commits[id := []]))
  }

  function SetEnabledStep(s: State, id: Id, enabled: bool): Option<State> {
    if id !in s.keys then None
    else Some(s.(keys := s.keys[id := s.keys[id].(enabled := if enabled then 1 else 0)]))
  }

  function DeleteStep(s: State, id: Id): Option<State> {
    if id !in s.keys then None else Some(s.(keys := s.keys - {id}, commits := s.commits - {id}))
  }

  /** A lookup that fails changes nothing and is not a step. */
  function LookupStep(w: World, s: State, v: nat, id: Id, secret: string, need: string): Option<State> {
    if v in s.pending || id !in s.keys || !Authenticates(w, id, s.keys[id], secret, need) then None
    else Some(s.(pending := s.pending[v := Verification(secret, need, id, SnapshotOf(s.keys[id]), s.now)]))
  }

  /** The CASE of the update: the stamp replaces one that julianday puts strictly before it. */
  function LaterUse(w: World, last: Option<Stamp>, at: nat): Option<Stamp> {
    match last
    case None => Some(At(at))
    case Some(At(t)) => if w.julian(t) < w.julian(at) then Some(At(at)) else last
    case Some(Garbage(_)) => last
  }

  /** The WHERE clause of the update. */
  predicate Commits(keys: map<Id, Row>, id: Id, snapshot: Snapshot) {
    id in keys && keys[id].enabled == 1 && SnapshotOf(keys[id]) == snapshot
  }

  function UsedRows(w: World, keys: map<Id, Row>, id: Id, at: nat): map<Id, Row>
    requires id in keys
  {
    keys[id := keys[id].(lastUsed := LaterUse(w, keys[id].lastUsed, at))]
  }

  function CommitStep(w: World, s: State, v: nat, at: nat): Option<State> {
    if v !in s.pending || !(s.pending[v].since <= at <= s.now) then None
    else
      var p, t := s.pending[v], s.(pending := s.pending - {v});
      if Commits(s.keys, p.id, p.snapshot) && p.id in s.commits
      then Some(t.(keys := UsedRows(w, s.keys, p.id, at), commits := s.commits[p.id := s.commits[p.id] + [at]]))
      else Some(t)
  }

  function Apply(w: World, s: State, step: Step): Option<State> {
    match step
    case Tick(to) => if to >= s.now then Some(s.(now := to)) else None
    case Create(id, name, scopeList, secret, salt, at) => CreateStep(w, s, id, name, scopeList, secret, salt, at)
    case SetEnabled(id, enabled) => SetEnabledStep(s, id, enabled)
    case Delete(id) => DeleteStep(s, id)
    case Lookup(v, id, secret, need) => LookupStep(w, s, v, id, secret, need)
    case Commit(v, at) => CommitStep(w, s, v, at)
    case Abandon(v) => Some(s.(pending := s.pending - {v}))
  }

  function Run(w: World, s: State, steps: seq<Step>): Option<State> {
    if steps == [] then Some(s)
    else
      var before := Run(w, s, steps[..|steps| - 1]);
      if before.None? then None else Apply(w, before.value, steps[|steps| - 1])
  }

  const FRESH: State := State(map[], map[], 0, map[])

  ghost predicate Reachable(w: World, s: State) { exists steps :: Run(w, FRESH, steps) == Some(s) }
}

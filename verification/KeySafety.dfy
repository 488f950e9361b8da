/** What holds over every run of the API-key protocol. */
module KeySafety {
  import opened Wrappers
  import opened Utf8
  import opened Coordinates
  import opened KeyMaterial
  import opened KeyProtocol

  predicate UniquePrefixes(keys: map<Id, Row>) {
    forall a, b :: a in keys && b in keys && a != b ==> keys[a].prefix != keys[b].prefix
  }

  /** Commit k is the first of those that julianday puts last. */
  predicate FirstOfLatest(w: World, commits: seq<nat>, k: nat) {
    && k < |commits|
    && (forall j :: 0 <= j < k ==> w.julian(commits[j]) < w.julian(commits[k]))
    && (forall j :: k <= j < |commits| ==> w.julian(commits[j]) <= w.julian(commits[k]))
  }

  /** The recorded use is the first of the commits that julianday cannot tell from the latest. */
  predicate UseTrails(w: World, last: Option<Stamp>, commits: seq<nat>) {
    if last.None? then commits == []
    else last.value.At? && exists k: nat :: k < |commits| && FirstOfLatest(w, commits, k) && commits[k] == last.value.nanos
  }

  predicate RowOk(w: World, s: State, id: Id) {
    && id in s.keys && id in s.commits
    && RowReadable(id, s.keys[id])
    && s.keys[id].created.nanos <= s.now
    && (forall k :: 0 <= k < |s.commits[id]| ==> s.keys[id].created.nanos <= s.commits[id][k] <= s.now)
    && UseTrails(w, s.keys[id].lastUsed, s.commits[id])
  }

  /** A pending verification has checked everything but the switch against its snapshot. */
  predicate PendingOk(w: World, s: State, p: Verification) {
    && ValidSecret(p.secret) && p.snapshot.prefix == p.secret[..PREFIX_SIZE]
    && w.derive(p.secret, p.snapshot.salt) == p.snapshot.hash
    && (p.need == "" || (Decoded(p.snapshot.scopes).Some? && Grants(Decoded(p.snapshot.scopes).value, p.need)))
    && p.snapshot.created.At? && p.snapshot.created.nanos <= p.since <= s.now
  }

  ghost predicate Inv(w: World, s: State) {
    && s.keys.Keys == s.commits.Keys
    && UniquePrefixes(s.keys)
    && (forall id :: id in s.keys ==> RowOk(w, s, id))
    && (forall v :: v in s.pending ==> PendingOk(w, s, s.pending[v]))
  }

  // ---- every step keeps the invariant ----

  lemma NewRowReadable(w: World, id: Id, name: string, scopeList: seq<string>, secret: string, salt: Text, at: nat)
    requires Sound(w) && ValidSecret(secret) && ValidKeyId(id) && |salt| == SALT_SIZE && Creatable(name, scopeList) && at >= 1
    ensures RowReadable(id, NewRow(w, name, scopeList, secret, salt, at))
    ensures Decoded(Join(Normalized(scopeList))) == Some(Normalized(scopeList))
  {
    hide Normalized, Decoded, Join, ValidScope, TrimSpace, ValidKeyName, ValidKeyId, ValidPrefix;
    PrefixOfSecret(secret);
    ScopesRoundTrip(scopeList);
  }

  /** What a creation writes, and that it needs a free id and a free prefix. */
  lemma CreationWrites(w: World, s: State, id: Id, name: string, scopeList: seq<string>, secret: string, salt: Text, at: nat, t: State)
    requires Apply(w, s, Create(id, name, scopeList, secret, salt, at)) == Some(t)
    ensures |secret| == 51 && id !in s.keys && forall k :: k in s.keys ==> s.keys[k].prefix != secret[..11]
    ensures t == s.(commits := s.commits[id := []],
                    keys := s.keys[id := Row(TrimSpace(name), secret[..11], salt, w.derive(secret, salt), 1,
                                             Join(Normalized(scopeList)), At(at), None)])
  {
    hide Creatable, ValidKeyId, TrimSpace, Normalized, Join;
  }

  /** What every reader demands of a row, with its sizes. */
  lemma ReadableIff(id: Id, row: Row)
    ensures RowReadable(id, row) <==>
              && |id| == 24 && (forall i :: 0 <= i < |id| ==> Letter(id[i]) || Digit(id[i]))
              && ByteLength(row.name) <= 100 && (forall i :: 0 <= i < |row.name| ==> !IsControl(row.name[i]))
              && |row.prefix| == 11 && row.prefix[..3] == "vu_" && (forall i :: 3 <= i < 11 ==> Letter(row.prefix[i]) || Digit(row.prefix[i]))
              && |row.salt| == 16 && |row.hash| == 32 && row.enabled in {0, 1} && Decoded(row.scopes).Some?
              && row.created.At? && row.created.nanos > 0
              && (row.lastUsed.Some? ==> row.lastUsed.value.At? && row.lastUsed.value.nanos >= row.created.nanos)
  {
    hide Decoded, ByteLength;
  }

  lemma CreateKeeps(w: World, s: State, step: Step, t: State)
    requires Sound(w) && Inv(w, s) && step.Create? && Apply(w, s, step) == Some(t)
    ensures Inv(w, t)
  {
    hide RowOk, PendingOk, NewRow, Apply, Sound, UniquePrefixes;
    CreateShape(w, s, step, t);
    var row := NewRow(w, step.name, step.scopeList, step.secret, step.salt, step.at);
    NewRowFresh(w, step.name, step.scopeList, step.secret, step.salt, step.at);
    UniqueInsert(s.keys, step.id, row);
    CreatedRowOk(w, s, step, t);
    forall id | id in s.keys ensures RowOk(w, t, id) { SameRow(w, s, t, id); }
    forall v | v in t.pending ensures PendingOk(w, t, t.pending[v]) { SamePending(w, s, t, t.pending[v]); }
  }

  lemma UniqueInsert(keys: map<Id, Row>, id: Id, row: Row)
    requires UniquePrefixes(keys) && Insertable(keys, id, row.prefix)
    ensures UniquePrefixes(keys[id := row])
  {
  }

  lemma CreatedRowOk(w: World, s: State, step: Step, t: State)
    requires Sound(w) && step.Create? && Apply(w, s, step) == Some(t)
    ensures RowOk(w, t, step.id)
  {
    hide RowReadable, UseTrails, NewRow, Apply, ValidSecret, ValidKeyId, Sound, Creatable;
    CreateShape(w, s, step, t);
    NewRowReadable(w, step.id, step.name, step.scopeList, step.secret, step.salt, step.at);
    NewRowFresh(w, step.name, step.scopeList, step.secret, step.salt, step.at);
    assert t.commits[step.id] == [];
  }

  lemma SameRow(w: World, s: State, t: State, id: Id)
    requires RowOk(w, s, id) && t.now >= s.now
    requires id in t.keys && id in t.commits && t.keys[id] == s.keys[id] && t.commits[id] == s.commits[id]
    ensures RowOk(w, t, id)
  {
    hide RowReadable, UseTrails;
  }

  lemma CreateShape(w: World, s: State, step: Step, t: State)
    requires step.Create? && Apply(w, s, step) == Some(t)
    ensures ValidSecret(step.secret) && ValidKeyId(step.id) && |step.salt| == SALT_SIZE && Creatable(step.name, step.scopeList)
    ensures Insertable(s.keys, step.id, step.secret[..PREFIX_SIZE])
    ensures 1 <= step.at <= s.now && t.now == s.now && t.pending == s.pending
    ensures t.keys == s.keys[step.id := NewRow(w, step.name, step.scopeList, step.secret, step.salt, step.at)]
    ensures t.commits == s.commits[step.id := []]
  {
    hide ValidSecret, ValidKeyId, Creatable, NewRow;
  }

  lemma NewRowFresh(w: World, name: string, scopeList: seq<string>, secret: string, salt: Text, at: nat)
    requires ValidSecret(secret)
    ensures var row := NewRow(w, name, scopeList, secret, salt, at);
      && row.prefix == secret[..PREFIX_SIZE] && row.created == At(at) && row.lastUsed == None && row.enabled == 1
      && UseTrails(w, row.lastUsed, [])
  {
  }

  lemma SamePending(w: World, s: State, t: State, p: Verification)
    requires PendingOk(w, s, p) && t.now >= s.now
    ensures PendingOk(w, t, p)
  {
  }

  lemma LaterUseTrails(w: World, last: Option<Stamp>, commits: seq<nat>, at: nat)
    requires UseTrails(w, last, commits)
    ensures UseTrails(w, LaterUse(w, last, at), commits + [at])
    ensures var r := LaterUse(w, last, at); r.Some? && r.value.At? && (r.value.nanos == at || r == last)
  {
    if last.None? {
      assert FirstOfLatest(w, [at], 0) && commits + [at] == [at];
    } else {
      var k: nat :| k < |commits| && FirstOfLatest(w, commits, k) && commits[k] == last.value.nanos;
      LatestAfter(w, commits, k, at);
    }
  }

  lemma LatestAfter(w: World, commits: seq<nat>, k: nat, at: nat)
    requires FirstOfLatest(w, commits, k)
    ensures FirstOfLatest(w, commits + [at], if w.julian(commits[k]) < w.julian(at) then |commits| else k)
  {
    forall j | 0 <= j < |commits| ensures w.julian(commits[j]) <= w.julian(commits[k]) {}
  }

  lemma UseWithin(w: World, last: Option<Stamp>, commits: seq<nat>, low: nat)
    requires UseTrails(w, last, commits) && last.Some? && forall k :: 0 <= k < |commits| ==> low <= commits[k]
    ensures low <= last.value.nanos
  {
  }

  lemma CommitKeeps(w: World, s: State, step: Step, t: State)
    requires Sound(w) && Inv(w, s) && step.Commit? && Apply(w, s, step) == Some(t)
    ensures Inv(w, t)
  {
    hide RowOk, PendingOk, LaterUse, Sound;
    var p := s.pending[step.v];
    forall v | v in t.pending ensures PendingOk(w, t, t.pending[v]) { SamePending(w, s, t, t.pending[v]); }
    forall id | id in t.keys ensures RowOk(w, t, id) {
      if id == p.id && Commits(s.keys, p.id, p.snapshot) { UsedRowOk(w, s, step, t); } else { SameRow(w, s, t, id); }
    }
  }

  lemma UsedRowOk(w: World, s: State, step: Step, t: State)
    requires Sound(w) && step.Commit? && Apply(w, s, step) == Some(t)
    requires var p := s.pending[step.v]; PendingOk(w, s, p) && Commits(s.keys, p.id, p.snapshot) && RowOk(w, s, p.id)
    ensures RowOk(w, t, s.pending[step.v].id)
  {
    hide UseTrails, LaterUse, Decoded, ValidKeyId, ValidKeyName, ValidPrefix, Sound, PendingOk;
    var p := s.pending[step.v];
    SincePending(w, s, p);
    LaterUseTrails(w, s.keys[p.id].lastUsed, s.commits[p.id], step.at);
    UseWithin(w, t.keys[p.id].lastUsed, t.commits[p.id], s.keys[p.id].created.nanos);
  }

  lemma SincePending(w: World, s: State, p: Verification)
    requires PendingOk(w, s, p)
    ensures p.snapshot.created.At? && p.snapshot.created.nanos <= p.since
  {
  }

  lemma OtherKeeps(w: World, s: State, step: Step, t: State)
    requires Inv(w, s) && !step.Create? && !step.Commit? && Apply(w, s, step) == Some(t)
    ensures Inv(w, t)
  {
    hide RowOk, PendingOk, Authenticates;
    forall id | id in t.keys ensures RowOk(w, t, id) {
      if step.SetEnabled? && step.id == id { SwitchedRow(w, s, t, id, step.enabled); } else { SameRow(w, s, t, id); }
    }
    forall v | v in t.pending ensures PendingOk(w, t, t.pending[v]) {
      if step.Lookup? && step.v == v { LookedUp(w, s, step, t); } else { SamePending(w, s, t, t.pending[v]); }
    }
  }

  lemma SwitchedRow(w: World, s: State, t: State, id: Id, enabled: bool)
    requires RowOk(w, s, id) && SetEnabledStep(s, id, enabled) == Some(t)
    ensures RowOk(w, t, id)
  {
    hide UseTrails, ValidKeyId, ValidKeyName, ValidPrefix, Decoded;
  }

  lemma LookedUp(w: World, s: State, step: Step, t: State)
    requires step.Lookup? && Apply(w, s, step) == Some(t) && RowOk(w, s, step.id)
    ensures PendingOk(w, t, t.pending[step.v])
  {
    hide UseTrails, ValidKeyId, ValidKeyName, ValidPrefix, ValidSecret, Decoded, Grants;
  }

  lemma StepKeeps(w: World, s: State, step: Step, t: State)
    requires Sound(w) && Inv(w, s) && Apply(w, s, step) == Some(t)
    ensures Inv(w, t)
  {
    hide Inv, Apply, Sound;
    if step.Create? { CreateKeeps(w, s, step, t); }
    else if step.Commit? { CommitKeeps(w, s, step, t); }
    else { OtherKeeps(w, s, step, t); }
  }

  lemma {:induction false} RunKeeps(w: World, s: State, steps: seq<Step>, t: State)
    requires Sound(w) && Inv(w, s) && Run(w, s, steps) == Some(t)
    ensures Inv(w, t)
  {
    hide Inv, Apply, Sound;
    if steps != [] {
      var before := Run(w, s, steps[..|steps| - 1]).value;
      RunKeeps(w, s, steps[..|steps| - 1], before);
      StepKeeps(w, before, steps[|steps| - 1], t);
    }
  }

  lemma ReachableInv(w: World, s: State)
    requires Sound(w) && Reachable(w, s)
    ensures Inv(w, s)
  {
    var steps :| Run(w, FRESH, steps) == Some(s);
    assert Inv(w, FRESH);
    RunKeeps(w, FRESH, steps, s);
  }

  // ---- linearizability ----

  /** Verification as one indivisible act on the table, with the row it passes on. */
  ghost predicate VerifiesAtOnce(w: World, keys: map<Id, Row>, secret: string, need: string, at: nat, id: Id, after: map<Id, Row>) {
    && id in keys && Authenticates(w, id, keys[id], secret, need)
    && (forall other :: other in keys && other != id ==> keys[other].prefix != secret[..PREFIX_SIZE])
    && after == UsedRows(w, keys, id, at)
  }

  /** A verification that succeeds does, at the instant of its update, all that an indivisible
      verification would: however long ago it looked, the row matches the secret now, is enabled
      now, grants the scope now, is the only row it could have meant, and is stamped now.
      It succeeds exactly when the row it read is still there, unchanged and enabled. */
  lemma SuccessIsLinearizable(w: World, s: State, v: nat, at: nat)
    requires Sound(w) && Reachable(w, s) && v in s.pending && s.pending[v].since <= at <= s.now
    ensures var p, t := s.pending[v], CommitStep(w, s, v, at);
      && t.Some?
      && (Commits(s.keys, p.id, p.snapshot) ==>
            VerifiesAtOnce(w, s.keys, p.secret, p.need, at, p.id, t.value.keys)
            && p.id in s.commits && t.value.commits == s.commits[p.id := s.commits[p.id] + [at]])
      && (!Commits(s.keys, p.id, p.snapshot) ==> t.value.keys == s.keys && t.value.commits == s.commits)
  {
    ReachableInv(w, s);
    hide UseTrails, ValidKeyId, ValidKeyName, ValidPrefix, Decoded, Grants, LaterUse, Sound, Reachable;
    var p := s.pending[v];
    assert PendingOk(w, s, p);
    if Commits(s.keys, p.id, p.snapshot) { assert RowOk(w, s, p.id); }
  }

  // ---- revocation ----

  predicate Revives(step: Step, id: Id) {
    (step.SetEnabled? && step.id == id && step.enabled) || (step.Create? && step.id == id)
  }

  predicate Off(keys: map<Id, Row>, id: Id) { id !in keys || keys[id].enabled != 1 }

  /** Once a key is disabled or deleted no pending verification of it can commit, until someone
      enables it again or creates a key with its id. */
  lemma {:induction false} RevocationStands(w: World, s: State, id: Id, steps: seq<Step>, t: State, v: nat, at: nat)
    requires Off(s.keys, id) && Run(w, s, steps) == Some(t)
    requires forall i :: 0 <= i < |steps| ==> !Revives(steps[i], id)
    ensures Off(t.keys, id)
    ensures v in t.pending && t.pending[v].id == id && CommitStep(w, t, v, at).Some?
            ==> CommitStep(w, t, v, at).value.keys == t.keys
    decreases |steps|
  {
    hide Authenticates, Insertable, Creatable, LaterUse, NewRow;
    if steps != [] {
      var k := |steps| - 1;
      var before := Run(w, s, steps[..k]).value;
      RevocationStands(w, s, id, steps[..k], before, v, at);
      assert !Revives(steps[k], id);
    }
  }

  // ---- a minted key works ----

  predicate Touches(step: Step, id: Id) {
    (step.Delete? && step.id == id) || (step.SetEnabled? && step.id == id && !step.enabled)
  }

  /** A row keeps its identity whatever happens to the others, until it is deleted. */
  lemma RowStays(w: World, s: State, id: Id, step: Step, t: State)
    requires Inv(w, s) && id in s.keys && Apply(w, s, step) == Some(t) && step != Delete(id)
    ensures id in t.keys && SnapshotOf(t.keys[id]) == SnapshotOf(s.keys[id])
    ensures t.keys[id].enabled == s.keys[id].enabled || (step.SetEnabled? && step.id == id)
    ensures s.keys[id].enabled == 1 && !Touches(step, id) ==> t.keys[id].enabled == 1
  {
    hide Inv, Authenticates, Creatable, LaterUse, NewRow;
  }

  lemma {:induction false} EnabledStays(w: World, s: State, id: Id, steps: seq<Step>, t: State)
    requires Sound(w) && Inv(w, s) && id in s.keys && s.keys[id].enabled == 1 && Run(w, s, steps) == Some(t)
    requires forall i :: 0 <= i < |steps| ==> !Touches(steps[i], id)
    ensures id in t.keys && SnapshotOf(t.keys[id]) == SnapshotOf(s.keys[id]) && t.keys[id].enabled == 1
    decreases |steps|
  {
    hide Inv, Apply, Sound;
    if steps != [] {
      var k := |steps| - 1;
      var before := Run(w, s, steps[..k]).value;
      EnabledStays(w, s, id, steps[..k], before);
      RunKeeps(w, s, steps[..k], before);
      assert !Touches(steps[k], id);
      RowStays(w, before, id, steps[k], t);
    }
  }

  /** From its creation until it is disabled or deleted, and whatever is done to other keys, a
      minted key is looked up for each scope it was granted. */
  lemma MintedKeyWorks(w: World, s: State, create: Step, t: State, steps: seq<Step>, u: State, v: nat, need: string)
    requires Sound(w) && Reachable(w, s) && create.Create? && Apply(w, s, create) == Some(t)
    requires Run(w, t, steps) == Some(u) && forall i :: 0 <= i < |steps| ==> !Touches(steps[i], create.id)
    requires need == "" || Grants(Normalized(create.scopeList), need)
    ensures create.id in u.keys && Authenticates(w, create.id, u.keys[create.id], create.secret, need)
    ensures v !in u.pending ==> LookupStep(w, u, v, create.id, create.secret, need).Some?
  {
    ReachableInv(w, s);
    StepKeeps(w, s, create, t);
    NewRowReadable(w, create.id, create.name, create.scopeList, create.secret, create.salt, create.at);
    EnabledStays(w, t, create.id, steps, u);
    RunKeeps(w, t, steps, u);
    hide Sound, Reachable, Run, Creatable, UseTrails, Decoded, Grants, Normalized, Join, TrimSpace, Insertable;
    hide ValidSecret, ValidKeyId, ValidKeyName, ValidPrefix;
    assert RowOk(w, u, create.id);
  }

  /** And a verification that looked at the row since its creation commits. */
  lemma MintedKeyCommits(w: World, s: State, create: Step, t: State, steps: seq<Step>, u: State, v: nat, at: nat)
    requires Sound(w) && Reachable(w, s) && create.Create? && Apply(w, s, create) == Some(t)
    requires Run(w, t, steps) == Some(u) && forall i :: 0 <= i < |steps| ==> !Touches(steps[i], create.id)
    requires v in u.pending && u.pending[v].id == create.id && u.pending[v].since <= at <= u.now
    requires create.id in t.keys && u.pending[v].snapshot == SnapshotOf(t.keys[create.id])
    ensures Commits(u.keys, create.id, u.pending[v].snapshot) && CommitStep(w, u, v, at).Some?
  {
    hide Inv, Apply, Sound, Reachable, Run;
    ReachableInv(w, s);
    StepKeeps(w, s, create, t);
    CreatedIsEnabled(w, s, create, t);
    EnabledStays(w, t, create.id, steps, u);
  }

  lemma CreatedIsEnabled(w: World, s: State, create: Step, t: State)
    requires create.Create? && Apply(w, s, create) == Some(t)
    ensures create.id in t.keys && t.keys[create.id].enabled == 1
  {
    hide NewRow, Apply, Creatable, Insertable, ValidSecret, ValidKeyId;
    CreateShape(w, s, create, t);
    NewRowFresh(w, create.name, create.scopeList, create.secret, create.salt, create.at);
  }

  /** A secret can only ever mean one key. */
  lemma OneKeyPerSecret(w: World, s: State, a: Id, b: Id, secret: string, need: string, other: string)
    requires Sound(w) && Reachable(w, s) && a in s.keys && b in s.keys
    requires Authenticates(w, a, s.keys[a], secret, need) && Authenticates(w, b, s.keys[b], secret, other)
    ensures a == b
  {
    ReachableInv(w, s);
  }

  // ---- last used ----

  /** Over any run in which the key is not deleted its last use never goes back. */
  lemma LastUseNeverGoesBack(w: World, s: State, id: Id, steps: seq<Step>, t: State)
    requires Sound(w) && Reachable(w, s) && id in s.keys && s.keys[id].lastUsed.Some? && Run(w, s, steps) == Some(t)
    requires forall i :: 0 <= i < |steps| ==> steps[i] != Delete(id)
    ensures s.keys[id].lastUsed.value.At? && id in t.keys && t.keys[id].lastUsed.Some? && t.keys[id].lastUsed.value.At?
    ensures s.keys[id].lastUsed.value.nanos <= t.keys[id].lastUsed.value.nanos
  {
    hide Inv, Apply, Sound;
    ReachableInv(w, s);
    LastUseOverRun(w, s, id, steps, t);
    RecordedUse(w, s, id);
    RecordedUse(w, t, id);
  }

  lemma RecordedUse(w: World, s: State, id: Id)
    requires RowOk(w, s, id) && s.keys[id].lastUsed.Some?
    ensures s.keys[id].lastUsed.value.At?
  {
    hide RowReadable;
  }

  lemma {:induction false} LastUseOverRun(w: World, s: State, id: Id, steps: seq<Step>, t: State)
    requires Sound(w) && Inv(w, s) && id in s.keys && s.keys[id].lastUsed.Some? && Run(w, s, steps) == Some(t)
    requires forall i :: 0 <= i < |steps| ==> steps[i] != Delete(id)
    ensures id in t.keys && RowOk(w, s, id) && RowOk(w, t, id) && t.keys[id].lastUsed.Some?
    ensures s.keys[id].lastUsed.value.nanos <= t.keys[id].lastUsed.value.nanos
    decreases |steps|
  {
    hide Apply, UseTrails, PendingOk, Decoded, ValidKeyId, ValidKeyName, ValidPrefix, Sound;
    assert RowOk(w, s, id);
    if steps != [] {
      var k := |steps| - 1;
      var before := Run(w, s, steps[..k]).value;
      LastUseOverRun(w, s, id, steps[..k], before);
      RunKeeps(w, s, steps[..k], before);
      StepKeeps(w, before, steps[k], t);
      RowStays(w, before, id, steps[k], t);
      LastUseStep(w, before, id, steps[k], t);
      assert RowOk(w, t, id);
    }
  }

  lemma LastUseStep(w: World, s: State, id: Id, step: Step, t: State)
    requires Sound(w) && Inv(w, s) && id in s.keys && Apply(w, s, step) == Some(t) && step != Delete(id) && id in t.keys
    requires s.keys[id].lastUsed.Some? && s.keys[id].lastUsed.value.At?
    ensures t.keys[id].lastUsed.Some? && t.keys[id].lastUsed.value.At?
            && s.keys[id].lastUsed.value.nanos <= t.keys[id].lastUsed.value.nanos
  {
    hide Inv, Authenticates, Creatable, NewRow;
  }

  /** The recorded use is one of the committed ones, and the latest is less than a quantum after it. */
  lemma LastUseTrailsByLessThanAQuantum(w: World, s: State, id: Id)
    requires Sound(w) && Reachable(w, s) && id in s.keys
    ensures id in s.commits
    ensures s.keys[id].lastUsed.None? <==> s.commits[id] == []
    ensures s.keys[id].lastUsed.Some? ==>
              s.keys[id].lastUsed.value.At?
              && s.keys[id].lastUsed.value.nanos in s.commits[id]
              && forall k :: 0 <= k < |s.commits[id]| ==> s.commits[id][k] < s.keys[id].lastUsed.value.nanos + w.quantum
  {
    ReachableInv(w, s);
    assert RowOk(w, s, id);
    var last, commits := s.keys[id].lastUsed, s.commits[id];
    hide Inv, RowReadable;
    if last.Some? {
      forall k | 0 <= k < |commits| ensures commits[k] < last.value.nanos + w.quantum {
        assert w.julian(commits[k]) <= w.julian(last.value.nanos);
        if commits[k] >= last.value.nanos { assert w.julian(commits[k]) == w.julian(last.value.nanos); }
      }
    }
  }

  /** Every row the program writes is one that every reader accepts. */
  lemma EveryRowIsReadable(w: World, s: State)
    requires Sound(w) && Reachable(w, s)
    ensures forall id :: id in s.keys ==> RowReadable(id, s.keys[id])
  {
    ReachableInv(w, s);
    forall id | id in s.keys ensures RowReadable(id, s.keys[id]) { assert RowOk(w, s, id); }
  }
}

/** The API-key manager as an object over its table.

    Each method that touches the table is proved to take the step of `KeyProtocol` of the
    same name.  `pending`, `now` and `commits` are the history the claims speak of. */
module KeyManagerService {
  import opened Wrappers
  import opened Utf8
  import opened Coordinates
  import opened KeyMaterial
  import opened KeyProtocol
  import opened KeySafety

  datatype Error = InvalidKey | InvalidKeyId | InsufficientScope | Corrupt | NotFound | BadRequest | NoRandom | StoreFailed | NoPrefix
  datatype Result<T> = Ok(value: T) | Err(error: Error)

  datatype Key = Key(id: Id, name: string, prefix: string, scopes: seq<string>, created: nat, lastUsed: Option<nat>)

  function Principal(id: Id, row: Row): Key
    requires RowReadable(id, row)
  {
    Key(id, row.name, row.prefix, Decoded(row.scopes).value, row.created.nanos,
        if row.lastUsed.None? then None else Some(row.lastUsed.value.nanos))
  }

  /** One pass of the minting loop: what the random source, the clock and the store answer. */
  datatype Attempt = Attempt(tail: seq<Option<Text>>, salt: Option<Text>, id: seq<Option<Text>>, at: nat, dbOk: bool)

  const ATTEMPTS: nat := 5

  function SecretOf(a: Attempt): Option<string> {
    var tail := Draw(SECRET_RANDOM, a.tail);
    if tail.None? then None else Some(SECRET_PREFIX + tail.value)
  }

  predicate Drawn(a: Attempt) { SecretOf(a).Some? && a.salt.Some? && Draw(ID_SIZE, a.id).Some? }

  /** The store refused the row because its id or its prefix is taken. */
  predicate Collides(keys: map<Id, Row>, a: Attempt) {
    Drawn(a) && a.dbOk && !Insertable(keys, Draw(ID_SIZE, a.id).value, SecretOf(a).value[..PREFIX_SIZE])
  }

  lemma DrawnLetters(n: nat, supply: seq<Option<Text>>)
    requires Draw(n, supply).Some?
    ensures var r := Draw(n, supply).value; |r| == n && forall i :: 0 <= i < n ==> InAlphabet(r[i])
  {
    LettersInAlphabet(BytesRead(supply));
  }

  lemma SecretIsValid(a: Attempt)
    requires SecretOf(a).Some?
    ensures ValidSecret(SecretOf(a).value)
    ensures var s := SecretOf(a).value;
      |s| == 51 && s[..3] == "vu_" && forall i :: 3 <= i < 51 ==> 'a' <= s[i] <= 'z' || 'A' <= s[i] <= 'Z' || '0' <= s[i] <= '9'
  {
    DrawnLetters(SECRET_RANDOM, a.tail);
    assert SecretOf(a).value[..|SECRET_PREFIX|] == SECRET_PREFIX;
  }

  /** The scope itself, the write scope for admin reads, the umbrella inside the MCP namespace. */
  predicate MeetsScope(scopes: seq<string>, need: string) {
    need in scopes || (need == "admin.read" && "admin.write" in scopes) || ("mcp." <= need && "mcp.admin" in scopes)
  }

  lemma MeetsIff(scopes: seq<string>, need: string)
    ensures MeetsScope(scopes, need) <==> Grants(scopes, need)
  {
    hide Grants;
    GrantsIff(scopes, need);
  }

  /** The key's own secret, the key switched on, and a scope that meets the need. */
  predicate Passes(w: World, row: Row, secret: string, need: string) {
    && |secret| == 51 && secret[..3] == "vu_" && (forall i :: 3 <= i < 51 ==> Letter(secret[i]) || Digit(secret[i]))
    && row.prefix == secret[..11] && w.derive(secret, row.salt) == row.hash && row.enabled == 1
    && Decoded(row.scopes).Some? && (need == "" || MeetsScope(Decoded(row.scopes).value, need))
  }

  lemma LookupNeeds(w: World, s: State, v: nat, secret: string, need: string)
    ensures forall id :: LookupStep(w, s, v, id, secret, need).Some? ==> id in s.keys && Authenticates(w, id, s.keys[id], secret, need)
  {
    hide Authenticates;
  }

  /** What lets a stored row pass: its secret, its switch, and a scope that meets the need. */
  lemma AuthenticatesIff(w: World, s: State, id: Id, secret: string, need: string)
    requires Inv(w, s) && id in s.keys
    ensures Authenticates(w, id, s.keys[id], secret, need) <==> Passes(w, s.keys[id], secret, need)
  {
    hide Inv, ValidKeyId, ValidKeyName, ValidPrefix, Decoded, Grants, MeetsScope;
    RowsOk(w, s, id);
    MeetsIff(Decoded(s.keys[id].scopes).value, need);
  }

  /** What CreateNamed refuses before it draws: no scope at all, a scope outside the seven, or a name that
      is too long or holds a control character. */
  lemma CreatableIff(name: string, scopeList: seq<string>)
    ensures Creatable(name, scopeList) <==>
              && (exists i :: 0 <= i < |scopeList| && TrimSpace(scopeList[i]) != "")
              && (forall i :: 0 <= i < |scopeList| && TrimSpace(scopeList[i]) != "" ==>
                    TrimSpace(scopeList[i]) in ["inference", "admin.read", "admin.write", "mcp.read", "mcp.runtime", "mcp.models", "mcp.admin"])
              && ByteLength(TrimSpace(name)) <= 100
              && forall i :: 0 <= i < |TrimSpace(name)| ==> !IsControl(TrimSpace(name)[i])
  {
    hide TrimSpace, Normalized, FirstAt, ByteLength;
    NormalizedMeaning(scopeList);
    var n := Normalized(scopeList);
    forall i | 0 <= i < |scopeList| && TrimSpace(scopeList[i]) != "" ensures TrimSpace(scopeList[i]) in n {
      assert FirstAt(scopeList, TrimSpace(scopeList[i])) < |scopeList|;
    }
    forall s | s in n ensures exists i :: 0 <= i < |scopeList| && TrimSpace(scopeList[i]) == s && s != "" {
      assert TrimSpace(scopeList[FirstAt(scopeList, s)]) == s;
    }
    if n != [] { assert n[0] in n; }
  }

  /** The checks a lookup makes on the row it found: a row any reader would refuse never
      authenticates, whatever its hash and scopes say. */
  method CheckRow(w: World, id: Id, row: Row, secret: string, need: string) returns (r: Result<Key>)
    requires ValidSecret(secret) && row.prefix == secret[..PREFIX_SIZE]
    ensures r.Ok? <==> Authenticates(w, id, row, secret, need)
    ensures r.Ok? <==>
              && RowReadable(id, row) && w.derive(secret, row.salt) == row.hash && row.enabled == 1
              && (need == "" || MeetsScope(Decoded(row.scopes).value, need))
    ensures r.Ok? ==> r.value == Principal(id, row)
    ensures r == Err(InvalidKeyId) <==> !ValidKeyId(id)
    ensures r == Err(Corrupt) <==> ValidKeyId(id) && !RowReadable(id, row)
    ensures r == Err(InsufficientScope) <==> Authenticates(w, id, row, secret, "") && !Granted(row, need)
    ensures r.Ok? || r.error in {InvalidKeyId, Corrupt, InvalidKey, InsufficientScope}
  {
    hide ValidKeyId, ValidKeyName, ValidPrefix, ValidSecret, Decoded, Grants, MeetsScope;
    if Decoded(row.scopes).Some? { MeetsIff(Decoded(row.scopes).value, need); }
    if !ValidKeyId(id) { return Err(InvalidKeyId); }
    if !ValidKeyName(row.name) { return Err(Corrupt); }
    if !ValidPrefix(row.prefix) || |row.salt| != SALT_SIZE || |row.hash| != HASH_SIZE { return Err(Corrupt); }
    if row.enabled != 0 && row.enabled != 1 { return Err(Corrupt); }
    var scopes := DecodeScopes(row.scopes);
    if scopes.None? { return Err(Corrupt); }
    if !row.created.At? { return Err(Corrupt); }
    if row.lastUsed.Some? && !row.lastUsed.value.At? { return Err(Corrupt); }
    if row.created.nanos == 0 || (row.lastUsed.Some? && row.lastUsed.value.nanos < row.created.nanos) { return Err(Corrupt); }
    if w.derive(secret, row.salt) != row.hash || row.enabled == 0 { return Err(InvalidKey); }
    if need != "" {
      var granted := Has(scopes.value, need);
      if !granted { return Err(InsufficientScope); }
    }
    r := Ok(Principal(id, row));
  }

  class Manager {
    const w: World
    var keys: map<Id, Row>
    ghost var pending: map<nat, Verification>
    ghost var now: nat
    ghost var commits: map<Id, seq<nat>>

    ghost function View(): State reads this { State(keys, pending, now, commits) }

    ghost predicate Valid() reads this { Sound(w) && Inv(w, View()) }

    constructor (w: World)
      requires Sound(w)
      ensures View() == FRESH && Valid() && this.w == w
    {
      this.w := w;
      keys, pending, now, commits := map[], map[], 0, map[];
    }

    /** Mint a key: normalize and check the request, then try up to five fresh secrets. */
    method CreateNamed(name: string, scopeList: seq<string>, attempts: seq<Attempt>)
      returns (r: Result<(Key, string)>, tries: nat)
      requires Valid() && |attempts| == ATTEMPTS
      requires forall i :: 0 <= i < |attempts| ==>
                 1 <= attempts[i].at <= now && (attempts[i].salt.Some? ==> |attempts[i].salt.value| == SALT_SIZE)
      modifies this`keys, this`commits
      ensures Valid()
      ensures r.Err? ==> View() == old(View())
      ensures r == Err(BadRequest) <==> !Creatable(name, scopeList)
      ensures r == Err(BadRequest) <==>
                !(&& (exists i :: 0 <= i < |scopeList| && TrimSpace(scopeList[i]) != "")
                  && (forall i :: 0 <= i < |scopeList| && TrimSpace(scopeList[i]) != "" ==>
                        TrimSpace(scopeList[i]) in ["inference", "admin.read", "admin.write", "mcp.read", "mcp.runtime", "mcp.models", "mcp.admin"])
                  && ByteLength(TrimSpace(name)) <= 100
                  && forall i :: 0 <= i < |TrimSpace(name)| ==> !IsControl(TrimSpace(name)[i]))
      ensures tries <= ATTEMPTS && forall i :: 0 <= i < tries ==> Collides(old(keys), attempts[i])
      ensures r.Ok? ==> tries < ATTEMPTS && Drawn(attempts[tries])
      ensures r.Ok? ==>
                var a, id := attempts[tries], r.value.0.id;
                && r.value.1 == SecretOf(a).value && id == Draw(ID_SIZE, a.id).value
                && CreateStep(w, old(View()), id, name, scopeList, r.value.1, a.salt.value, a.at) == Some(View())
                && id in keys && RowReadable(id, keys[id]) && r.value.0 == Principal(id, keys[id])
      ensures tries <= 5 && (r == Err(NoPrefix) ==> tries == 5)
      ensures r.Ok? ==> |r.value.0.id| == 24
      ensures r == Err(NoRandom) ==> tries < ATTEMPTS && !Drawn(attempts[tries])
      ensures r == Err(StoreFailed) ==> tries < ATTEMPTS && !attempts[tries].dbOk
      ensures r.Ok? || r.error in {BadRequest, NoPrefix, NoRandom, StoreFailed}
    {
      hide Inv, ValidSecret, ValidKeyId, RowReadable, NewRow, Draw, Sound, Insertable;
      hide Normalized, ValidScope, ValidKeyName, TrimSpace, Join;
      CreatableIff(name, scopeList);
      tries := 0;
      var scopes := NormalizeScopes(scopeList);
      if |scopes| == 0 { return Err(BadRequest), tries; }
      for i := 0 to |scopes|
        invariant forall j :: 0 <= j < i ==> ValidScope(scopes[j])
      {
        if !ValidScope(scopes[i]) { return Err(BadRequest), tries; }
      }
      var trimmed := TrimSpace(name);
      if !ValidKeyName(trimmed) { return Err(BadRequest), tries; }
      assert Creatable(name, scopeList);
      while tries < ATTEMPTS
        invariant tries <= ATTEMPTS && View() == old(View()) && Valid()
        invariant forall i :: 0 <= i < tries ==> Collides(keys, attempts[i])
      {
        var a := attempts[tries];
        var tail, _ := Random(SECRET_RANDOM, a.tail);
        if tail.None? { return Err(NoRandom), tries; }
        var secret := SECRET_PREFIX + tail.value;
        if a.salt.None? { return Err(NoRandom), tries; }
        var h := w.derive(secret, a.salt.value);
        var kid, _ := Random(ID_SIZE, a.id);
        if kid.None? { return Err(NoRandom), tries; }
        if !a.dbOk { return Err(StoreFailed), tries; }
        SecretIsValid(a);
        DrawnLetters(ID_SIZE, a.id);
        assert ValidKeyId(kid.value) by { IdIsValid(kid.value); }
        if Insertable(keys, kid.value, secret[..PREFIX_SIZE]) {
          ghost var step := Create(kid.value, name, scopeList, secret, a.salt.value, a.at);
          CreateApplies(w, View(), step);
          StepKeeps(w, View(), step, Apply(w, View(), step).value);
          NewRowReadable(w, kid.value, name, scopeList, secret, a.salt.value, a.at);
          NewRowFields(w, name, scopeList, secret, a.salt.value, a.at);
          keys := keys[kid.value := Row(trimmed, secret[..PREFIX_SIZE], a.salt.value, h, 1, Join(scopes), At(a.at), None)];
          commits := commits[kid.value := []];
          r := Ok((Key(kid.value, trimmed, secret[..PREFIX_SIZE], scopes, a.at, None), secret));
          return r, tries;
        }
        tries := tries + 1;
      }
      r := Err(NoPrefix);
    }

    /** The read half of a verification; `dbOk` is whether SQLite answers. */
    method LookupVerifiedKey(secret: string, need: string, dbOk: bool, ghost v: nat) returns (r: Result<(Key, Snapshot)>)
      requires Valid() && v !in pending
      modifies this`pending
      ensures Valid()
      ensures r.Ok? ==> r.value.0.id in keys
                        && LookupStep(w, old(View()), v, r.value.0.id, secret, need) == Some(View())
                        && r.value.1 == SnapshotOf(keys[r.value.0.id])
                        && RowReadable(r.value.0.id, keys[r.value.0.id]) && r.value.0 == Principal(r.value.0.id, keys[r.value.0.id])
      ensures r.Err? ==> View() == old(View())
      // a key passes exactly with its own secret, switched on, and with a scope that meets the need
      ensures r.Ok? <==> dbOk && exists id :: id in keys && Passes(w, keys[id], secret, need)
      ensures r.Err? && dbOk ==> forall id :: id in keys ==> !Authenticates(w, id, keys[id], secret, need)
      ensures r == Err(InsufficientScope) ==> exists id :: id in keys && Authenticates(w, id, keys[id], secret, "")
      ensures r.Ok? || r.error in {InvalidKey, InsufficientScope} || (r.error == StoreFailed && !dbOk)
    {
      hide Inv, Authenticates, Passes, RowReadable, LookupStep;
      forall id | id in keys ensures Authenticates(w, id, keys[id], secret, need) <==> Passes(w, keys[id], secret, need) {
        AuthenticatesIff(w, View(), id, secret, need);
      }
      LookupNeeds(w, View(), v, secret, need);
      r := FindRow(secret, need, dbOk, v);
    }

    method FindRow(secret: string, need: string, dbOk: bool, ghost v: nat) returns (r: Result<(Key, Snapshot)>)
      requires Valid() && v !in pending
      modifies this`pending
      ensures Valid()
      ensures r.Ok? ==> dbOk && r.value.0.id in keys
                        && LookupStep(w, old(View()), v, r.value.0.id, secret, need) == Some(View())
                        && r.value.1 == SnapshotOf(keys[r.value.0.id])
                        && RowReadable(r.value.0.id, keys[r.value.0.id]) && r.value.0 == Principal(r.value.0.id, keys[r.value.0.id])
      ensures r.Err? ==> View() == old(View())
      ensures r.Err? && dbOk ==> forall id :: id in keys ==> !Authenticates(w, id, keys[id], secret, need)
      ensures r == Err(InsufficientScope) ==> exists id :: id in keys && Authenticates(w, id, keys[id], secret, "")
      ensures r.Ok? || r.error in {InvalidKey, InsufficientScope} || (r.error == StoreFailed && !dbOk)
    {
      hide PendingOk, UseTrails, Granted, Sound, RowReadable;
      if !ValidSecret(secret) { return Err(InvalidKey); }
      if !dbOk { return Err(StoreFailed); }
      PrefixOfSecret(secret);
      if id :| id in keys && keys[id].prefix == secret[..PREFIX_SIZE] {
        assert RowOk(w, View(), id);
        ReadableId(id, keys[id]);
        var k := CheckRow(w, id, keys[id], secret, need);
        if k.Err? { return Err(k.error); }
        ghost var step := Lookup(v, id, secret, need);
        StepKeeps(w, View(), step, Apply(w, View(), step).value);
        pending := pending[v := Verification(secret, need, id, SnapshotOf(keys[id]), now)];
        r := Ok((k.value, SnapshotOf(keys[id])));
      } else {
        r := Err(InvalidKey);
      }
    }

    /** The conditional update: the one instant at which a verification succeeds or fails. */
    method CommitVerifiedUseAt(id: Id, snapshot: Snapshot, usedAt: nat, dbOk: bool, ghost v: nat) returns (r: Result<nat>)
      requires Valid() && v in pending && pending[v].id == id && pending[v].snapshot == snapshot && pending[v].since <= usedAt <= now
      modifies this
      ensures Valid() && now == old(now)
      ensures Some(View()) == if dbOk then CommitStep(w, old(View()), v, usedAt) else Apply(w, old(View()), Abandon(v))
      ensures r.Ok? <==> dbOk && Commits(old(keys), id, snapshot)
      ensures r.Ok? <==>
                && dbOk && id in old(keys) && old(keys)[id].enabled == 1
                && old(keys)[id].name == snapshot.name && old(keys)[id].prefix == snapshot.prefix
                && old(keys)[id].salt == snapshot.salt && old(keys)[id].hash == snapshot.hash
                && old(keys)[id].scopes == snapshot.scopes && old(keys)[id].created == snapshot.created
      ensures r.Ok? ==> keys == old(keys)[id := old(keys)[id].(lastUsed := Some(At(r.value)))]
                        && (r.value == usedAt || old(keys)[id].lastUsed == Some(At(r.value)))
      ensures r.Ok? ==> id in keys && keys[id].lastUsed == Some(At(r.value)) && usedAt < r.value + w.quantum
      ensures r.Err? ==> r.error == (if dbOk then InvalidKey else StoreFailed) && keys == old(keys)
    {
      hide Inv, RowReadable, PendingOk, UseTrails;
      ghost var s, step := View(), if dbOk then Commit(v, usedAt) else Abandon(v);
      StepKeeps(w, s, step, Apply(w, s, step).value);
      if id in keys {
        RowsOk(w, s, id);
        RowsOk(w, Apply(w, s, step).value, id);
        UseIsRecent(w, s, v, usedAt);
      }
      pending := pending - {v};
      if !dbOk { return Err(StoreFailed); }
      if id !in keys || keys[id].enabled != 1 || SnapshotOf(keys[id]) != snapshot { return Err(InvalidKey); }
      var last := keys[id].lastUsed;
      var stamp := if last.None? then Some(At(usedAt))
                   else if last.value.At? && w.julian(last.value.nanos) < w.julian(usedAt) then Some(At(usedAt))
                   else last;
      keys := keys[id := keys[id].(lastUsed := stamp)];
      commits := commits[id := commits[id] + [usedAt]];
      r := Ok(stamp.value.nanos);
    }

    method SetEnabled(id: Id, enabled: bool, dbOk: bool) returns (r: Option<Error>)
      requires Valid()
      modifies this`keys
      ensures Valid()
      ensures r == None <==> dbOk && id in old(keys)
      ensures r == None ==> SetEnabledStep(old(View()), id, enabled) == Some(View())
      ensures r == None ==> keys == old(keys)[id := old(keys)[id].(enabled := if enabled then 1 else 0)]
      ensures r != None ==> View() == old(View())
      ensures r == Some(NotFound) <==> dbOk && ValidKeyId(id) && id !in old(keys)
    {
      hide Inv, ValidKeyId, Sound;
      if !ValidKeyId(id) {
        if id in keys { RowsOk(w, View(), id); }
        return Some(InvalidKeyId);
      }
      if !dbOk { return Some(StoreFailed); }
      if id !in keys { return Some(NotFound); }
      StepKeeps(w, View(), Step.SetEnabled(id, enabled), Apply(w, View(), Step.SetEnabled(id, enabled)).value);
      keys := keys[id := keys[id].(enabled := if enabled then 1 else 0)];
      r := None;
    }

    method Delete(id: Id, dbOk: bool) returns (r: Option<Error>)
      requires Valid()
      modifies this`keys, this`commits
      ensures Valid()
      ensures r == None <==> dbOk && id in old(keys)
      ensures r == None ==> DeleteStep(old(View()), id) == Some(View())
      ensures r == None ==> keys == old(keys) - {id}
      ensures r != None ==> View() == old(View())
      ensures r == Some(NotFound) <==> dbOk && ValidKeyId(id) && id !in old(keys)
    {
      hide Inv, ValidKeyId, Sound;
      if !ValidKeyId(id) {
        if id in keys { RowsOk(w, View(), id); }
        return Some(InvalidKeyId);
      }
      if !dbOk { return Some(StoreFailed); }
      if id !in keys { return Some(NotFound); }
      StepKeeps(w, View(), Step.Delete(id), Apply(w, View(), Step.Delete(id)).value);
      keys, commits := keys - {id}, commits - {id};
      r := None;
    }
  }

  lemma IdIsValid(id: string)
    requires |id| == ID_SIZE && forall i :: 0 <= i < |id| ==> InAlphabet(id[i])
    ensures ValidKeyId(id)
  {
  }

  lemma ReadableId(id: Id, row: Row)
    requires RowReadable(id, row)
    ensures ValidKeyId(id)
  {
  }

  lemma RowsOk(w: World, s: State, id: Id)
    requires Inv(w, s) && id in s.keys
    ensures RowOk(w, s, id) && RowReadable(id, s.keys[id]) && ValidKeyId(id)
  {
    assert RowOk(w, s, id);
  }

  lemma UseIsRecent(w: World, s: State, v: nat, at: nat)
    requires Sound(w) && Inv(w, s) && v in s.pending && s.pending[v].id in s.keys
    ensures var last := LaterUse(w, s.keys[s.pending[v].id].lastUsed, at);
            last.Some? && last.value.At? && at < last.value.nanos + w.quantum
  {
    var row := s.keys[s.pending[v].id];
    RowsOk(w, s, s.pending[v].id);
    if row.lastUsed.Some? && w.julian(row.lastUsed.value.nanos) >= w.julian(at) {
      var t := row.lastUsed.value.nanos;
      if at >= t { assert w.julian(t) == w.julian(at); }
    }
    assert w.julian(at) == w.julian(at);
  }

  lemma NewRowFields(w: World, name: string, scopeList: seq<string>, secret: string, salt: Text, at: nat)
    requires ValidSecret(secret)
    ensures NewRow(w, name, scopeList, secret, salt, at)
         == Row(TrimSpace(name), secret[..PREFIX_SIZE], salt, w.derive(secret, salt), 1, Join(Normalized(scopeList)), At(at), None)
  {
  }

  lemma CreateApplies(w: World, s: State, step: Step)
    requires step.Create? && ValidSecret(step.secret) && ValidKeyId(step.id) && |step.salt| == SALT_SIZE
    requires Creatable(step.name, step.scopeList)
    requires Insertable(s.keys, step.id, step.secret[..PREFIX_SIZE]) && 1 <= step.at <= s.now
    ensures Apply(w, s, step) == Some(s.(keys := s.keys[step.id := NewRow(w, step.name, step.scopeList, step.secret, step.salt, step.at)],
                                         commits := s.commits[step.id := []]))
    ensures Apply(w, s, step) == CreateStep(w, s, step.id, step.name, step.scopeList, step.secret, step.salt, step.at)
  {
  }
}

/** What an API key is made of: random letters, the displayed prefix, and its scopes. */
module KeyMaterial {
  import opened Wrappers
  import opened Utf8
  import opened Coordinates

  const ALPHABET_SIZE: nat := 62
  const BYTE_LIMIT: nat := 248
  const SECRET_PREFIX := "vu_"
  const SECRET_RANDOM: nat := 48
  const PREFIX_SIZE: nat := 11
  const ID_SIZE: nat := 24
  const SALT_SIZE: nat := 16
  const HASH_SIZE: nat := 32
  const MAX_NAME: nat := 100

  // ---- random letters ----

  predicate InAlphabet(c: char) { Letter(c) || Digit(c) }

  /** Lower-case letters, then upper-case letters, then digits. */
  function LetterAt(i: nat): (c: char)
    requires i < ALPHABET_SIZE
    ensures InAlphabet(c)
  {
    if i < 26 then ('a' as int + i) as char
    else if i < 52 then ('A' as int + i - 26) as char
    else ('0' as int + i - 52) as char
  }

  function PlaceOf(c: char): (i: nat)
    requires InAlphabet(c)
    ensures i < ALPHABET_SIZE
  {
    if 'a' <= c <= 'z' then c as int - 'a' as int
    else if 'A' <= c <= 'Z' then c as int - 'A' as int + 26
    else c as int - '0' as int + 52
  }

  /** The letters a stretch of random bytes stands for: the tail that does not divide evenly is skipped. */
  function Letters(bytes: Text): string {
    if bytes == [] then ""
    else
      var before := Letters(bytes[..|bytes| - 1]);
      var b := bytes[|bytes| - 1];
      if b >= BYTE_LIMIT then before else before + [LetterAt(b % ALPHABET_SIZE)]
  }

  /** No letter is favoured: exactly four accepted bytes stand for each. */
  lemma EachLetterHasFourBytes(c: char)
    requires InAlphabet(c)
    ensures |set b: Byte | b < BYTE_LIMIT && LetterAt(b % ALPHABET_SIZE) == c| == 4
  {
    var k := PlaceOf(c);
    var bytes := set b: Byte | b < BYTE_LIMIT && LetterAt(b % ALPHABET_SIZE) == c;
    var four: set<Byte> := {k, k + 62, k + 124, k + 186};
    forall b: Byte ensures b in bytes <==> b in four {
      PlaceOfLetter(b % ALPHABET_SIZE);
      PlaceOfLetter(k);
      FourBytes(b, k);
    }
    assert bytes == four;
  }

  lemma PlaceOfLetter(i: nat)
    requires i < ALPHABET_SIZE
    ensures PlaceOf(LetterAt(i)) == i
    ensures forall c :: InAlphabet(c) && PlaceOf(c) == i ==> c == LetterAt(i)
  {
  }

  lemma FourBytes(b: Byte, k: nat)
    requires k < ALPHABET_SIZE
    ensures b < BYTE_LIMIT && b % ALPHABET_SIZE == k <==> b == k || b == k + 62 || b == k + 124 || b == k + 186
  {
  }

  lemma {:induction false} LettersConcat(a: Text, b: Text)
    ensures Letters(a + b) == Letters(a) + Letters(b)
    decreases |b|
  {
    if b == [] {
      assert a + b == a;
    } else {
      assert (a + b)[..|a + b| - 1] == a + b[..|b| - 1];
      LettersConcat(a, b[..|b| - 1]);
    }
  }

  lemma {:induction false} LettersInAlphabet(bytes: Text)
    ensures forall i :: 0 <= i < |Letters(bytes)| ==> InAlphabet(Letters(bytes)[i])
  {
    if bytes != [] { LettersInAlphabet(bytes[..|bytes| - 1]); }
  }

  /** The bytes of the reads up to the first that fails. */
  function BytesRead(supply: seq<Option<Text>>): Text {
    if supply == [] || supply[0].None? then [] else supply[0].value + BytesRead(supply[1..])
  }

  /** The first n letters of a supply; a supply that ends too early counts as a failed read. */
  function Draw(n: nat, supply: seq<Option<Text>>): Option<string> {
    var all := Letters(BytesRead(supply));
    if |all| >= n then Some(all[..n]) else None
  }

  lemma {:induction false} BytesReadSplit(supply: seq<Option<Text>>, k: nat)
    requires k <= |supply| && forall i :: 0 <= i < k ==> supply[i].Some?
    ensures BytesRead(supply) == BytesRead(supply[..k]) + BytesRead(supply[k..])
  {
    if k == 0 {
      assert supply[0..] == supply;
    } else {
      BytesReadSplit(supply[1..], k - 1);
      assert supply[..k][1..] == supply[1..][..k - 1] && supply[1..][k - 1..] == supply[k..];
      assert supply[0].value + (BytesRead(supply[1..][..k - 1]) + BytesRead(supply[k..]))
          == supply[0].value + BytesRead(supply[1..][..k - 1]) + BytesRead(supply[k..]);
    }
  }

  /** Draw n letters, reading no block more than that takes. */
  method Random(n: nat, supply: seq<Option<Text>>) returns (r: Option<string>, used: nat)
    ensures r == Draw(n, supply)
    ensures used <= |supply| && forall i :: 0 <= i < used ==> supply[i].Some?
    ensures used > 0 ==> |Letters(BytesRead(supply[..used - 1]))| < n
  {
    hide Letters, BytesRead;
    var b := "";
    used := 0;
    ghost var past: Text := [];
    NothingRead(supply);
    while |b| < n
      invariant used <= |supply| && |b| <= n
      invariant forall i :: 0 <= i < used ==> supply[i].Some?
      invariant past == BytesRead(supply[..used])
      invariant |Letters(past)| >= |b| && b == Letters(past)[..|b|] && (|b| < n ==> b == Letters(past))
      invariant used > 0 ==> |Letters(BytesRead(supply[..used - 1]))| < n
      decreases |supply| - used
    {
      if used == |supply| || supply[used].None? {
        DrawAfter(n, supply, used);
        return None, used;
      }
      b := TakeLetters(n, past, b, supply[used].value);
      OneMoreRead(supply, used);
      past := past + supply[used].value;
      used := used + 1;
    }
    DrawAfter(n, supply, used);
    r := Some(b);
  }

  lemma NothingRead(supply: seq<Option<Text>>)
    ensures BytesRead(supply[..0]) == [] && Letters([]) == ""
  {
  }

  lemma OneMoreRead(supply: seq<Option<Text>>, used: nat)
    requires used < |supply| && forall i :: 0 <= i <= used ==> supply[i].Some?
    ensures BytesRead(supply[..used + 1]) == BytesRead(supply[..used]) + supply[used].value
  {
    BytesReadSplit(supply[..used + 1], used);
    assert supply[..used + 1][..used] == supply[..used] && supply[..used + 1][used..] == [supply[used]];
    assert BytesRead([supply[used]]) == supply[used].value;
  }

  /** What is drawn is settled by the reads so far once they suffice, or once they cannot go on. */
  lemma DrawAfter(n: nat, supply: seq<Option<Text>>, used: nat)
    requires used <= |supply| && forall i :: 0 <= i < used ==> supply[i].Some?
    ensures var so := Letters(BytesRead(supply[..used]));
      && (|so| >= n ==> Draw(n, supply) == Some(so[..n]))
      && (|so| < n && (used == |supply| || supply[used].None?) ==> Draw(n, supply) == None)
  {
    hide Letters;
    BytesReadSplit(supply, used);
    LettersConcat(BytesRead(supply[..used]), BytesRead(supply[used..]));
    var so, more := Letters(BytesRead(supply[..used])), Letters(BytesRead(supply[used..]));
    assert |so| >= n ==> (so + more)[..n] == so[..n];
    if used == |supply| || supply[used].None? {
      assert BytesRead(supply[used..]) == [];
      assert BytesRead(supply) == BytesRead(supply[..used]);
    }
  }

  /** One block: copy its accepted bytes until n letters are written. */
  method TakeLetters(n: nat, ghost past: Text, b: string, block: Text) returns (r: string)
    requires |b| < n && b == Letters(past)
    ensures |b| <= |r| <= n
    ensures var all := Letters(past + block); |all| >= |r| && r == all[..|r|] && (|r| < n ==> r == all)
  {
    hide Letters;
    r := b;
    var i := 0;
    assert past + block[..0] == past;
    while i < |block|
      invariant 0 <= i <= |block| && |b| <= |r| < n
      invariant r == Letters(past + block[..i])
    {
      OneMoreLetter(past, block, i);
      if block[i] < BYTE_LIMIT {
        r := r + [LetterAt(block[i] % ALPHABET_SIZE)];
        if |r| == n {
          LettersConcat(past + block[..i + 1], block[i + 1..]);
          assert past + block[..i + 1] + block[i + 1..] == past + block;
          return;
        }
      }
      i := i + 1;
    }
    assert block[..|block|] == block;
  }

  lemma OneMoreLetter(past: Text, block: Text, i: nat)
    requires i < |block|
    ensures Letters(past + block[..i + 1])
         == Letters(past + block[..i]) + if block[i] < BYTE_LIMIT then [LetterAt(block[i] % ALPHABET_SIZE)] else ""
  {
    assert (past + block[..i + 1])[..|past| + i] == past + block[..i];
  }

  // ---- what readers accept ----

  predicate ValidSecret(s: string) {
    && |s| == |SECRET_PREFIX| + SECRET_RANDOM
    && s[..|SECRET_PREFIX|] == SECRET_PREFIX
    && forall i :: |SECRET_PREFIX| <= i < |s| ==> InAlphabet(s[i])
  }

  predicate ValidPrefix(s: string) {
    && |s| == PREFIX_SIZE
    && s[..|SECRET_PREFIX|] == SECRET_PREFIX
    && forall i :: |SECRET_PREFIX| <= i < |s| ==> InAlphabet(s[i])
  }

  predicate ValidKeyId(s: string) {
    |s| == ID_SIZE && forall i :: 0 <= i < |s| ==> InAlphabet(s[i])
  }

  predicate ValidKeyName(s: string) {
    ByteLength(s) <= MAX_NAME && forall i :: 0 <= i < |s| ==> !IsControl(s[i])
  }

  lemma PrefixOfSecret(secret: string)
    requires ValidSecret(secret)
    ensures ValidPrefix(secret[..PREFIX_SIZE])
  {
    assert secret[..PREFIX_SIZE][..|SECRET_PREFIX|] == secret[..|SECRET_PREFIX|];
  }

  // ---- scopes ----

  predicate ValidScope(s: string) {
    s in ["inference", "admin.read", "admin.write", "mcp.read", "mcp.runtime", "mcp.models", "mcp.admin"]
  }

  /** First occurrences of the trimmed, non-empty entries. */
  function Normalized(scopes: seq<string>): seq<string> {
    if scopes == [] then []
    else
      var before, s := Normalized(scopes[..|scopes| - 1]), TrimSpace(scopes[|scopes| - 1]);
      if s == "" || s in before then before else before + [s]
  }

  /** Where a trimmed entry first occurs. */
  function FirstAt(scopes: seq<string>, s: string): (i: nat)
    ensures i <= |scopes| && (i < |scopes| ==> TrimSpace(scopes[i]) == s)
    ensures forall k :: 0 <= k < i ==> TrimSpace(scopes[k]) != s
  {
    if scopes == [] || TrimSpace(scopes[0]) == s then 0 else 1 + FirstAt(scopes[1..], s)
  }

  predicate Distinct(s: seq<string>) { forall i, j :: 0 <= i < j < |s| ==> s[i] != s[j] }

  lemma FirstAtOfPrefix(scopes: seq<string>, k: nat, s: string)
    requires k <= |scopes|
    ensures FirstAt(scopes[..k], s) < k ==> FirstAt(scopes, s) == FirstAt(scopes[..k], s)
    ensures FirstAt(scopes[..k], s) == k ==> FirstAt(scopes, s) >= k
  {
    hide TrimSpace;
    assert forall m :: 0 <= m < k ==> scopes[..k][m] == scopes[m];
  }

  /** Normalizing keeps every trimmed non-empty entry once, in order of first appearance. */
  lemma {:induction false} NormalizedMeaning(scopes: seq<string>)
    ensures Distinct(Normalized(scopes))
    ensures forall s :: s in Normalized(scopes) <==> s != "" && FirstAt(scopes, s) < |scopes|
    ensures var n := Normalized(scopes);
            forall i, j :: 0 <= i < j < |n| ==> FirstAt(scopes, n[i]) < FirstAt(scopes, n[j])
  {
    hide TrimSpace, FirstAt;
    if scopes != [] {
      var k := |scopes| - 1;
      var before, last := Normalized(scopes[..k]), TrimSpace(scopes[k]);
      NormalizedMeaning(scopes[..k]);
      forall s ensures FirstAt(scopes, s) < |scopes| <==> FirstAt(scopes[..k], s) < k || s == last {
        FirstAtOfPrefix(scopes, k, s);
      }
      forall s | s in before ensures FirstAt(scopes, s) == FirstAt(scopes[..k], s) < k {
        FirstAtOfPrefix(scopes, k, s);
      }
      if last != "" && last !in before {
        FirstAtOfPrefix(scopes, k, last);
      }
    }
  }

  method NormalizeScopes(scopes: seq<string>) returns (out: seq<string>)
    ensures out == Normalized(scopes)
  {
    var seen: set<string> := {};
    out := [];
    for i := 0 to |scopes|
      invariant out == Normalized(scopes[..i])
      invariant seen == set s | s in out
    {
      assert scopes[..i + 1][..i] == scopes[..i];
      var s := TrimSpace(scopes[i]);
      if s != "" && s !in seen {
        seen := seen + {s};
        out := out + [s];
      }
    }
    assert scopes[..|scopes|] == scopes;
  }

  function Join(parts: seq<string>): string {
    if |parts| == 0 then "" else if |parts| == 1 then parts[0] else parts[0] + "," + Join(parts[1..])
  }

  function Split(value: string): (parts: seq<string>)
    ensures |parts| >= 1
    decreases |value|
  {
    var i := IndexOf(value, ',');
    if i == |value| then [value] else [value[..i]] + Split(value[i + 1..])
  }

  lemma {:induction false} SplitOfJoin(parts: seq<string>)
    requires parts != [] && forall i :: 0 <= i < |parts| ==> ',' !in parts[i]
    ensures Split(Join(parts)) == parts
  {
    hide IndexOf;
    assert ',' !in parts[0];
    if |parts| == 1 {
      assert IndexOf(parts[0], ',') == |parts[0]|;
    } else {
      SplitOfJoin(parts[1..]);
      SplitAtFirst(parts[0], Join(parts[1..]));
      assert parts == [parts[0]] + parts[1..];
    }
  }

  lemma SplitAtFirst(head: string, rest: string)
    requires ',' !in head
    ensures Split(head + "," + rest) == [head] + Split(rest)
  {
    hide IndexOf;
    var value, k := head + "," + rest, |head|;
    assert value[k] == ',' && value[..k] == head && value[k + 1..] == rest;
    assert forall j :: 0 <= j < k ==> value[j] == head[j];
    assert IndexOf(value, ',') == k;
  }

  lemma ScopeHasNoComma(s: string)
    requires ValidScope(s)
    ensures s != "" && ',' !in s
  {
  }

  lemma {:induction false} JoinOfSplit(value: string)
    ensures Join(Split(value)) == value
    decreases |value|
  {
    var i := IndexOf(value, ',');
    if i < |value| {
      JoinOfSplit(value[i + 1..]);
      assert value == value[..i] + "," + value[i + 1..];
    }
  }

  predicate Decodable(parts: seq<string>) {
    Distinct(parts) && forall i :: 0 <= i < |parts| ==> ValidScope(parts[i])
  }

  function Decoded(value: string): Option<seq<string>> {
    if Decodable(Split(value)) then Some(Split(value)) else None
  }

  lemma ScopesAreText()
    ensures !ValidScope("")
  {
  }

  method DecodeScopes(value: string) returns (r: Option<seq<string>>)
    ensures r == Decoded(value)
  {
    hide ValidScope, Split;
    ScopesAreText();
    var parts := Split(value);
    var seen: set<string> := {};
    for i := 0 to |parts|
      invariant seen == set s | s in parts[..i]
      invariant Decodable(parts[..i])
    {
      var scope := parts[i];
      if scope == "" || !ValidScope(scope) { return None; }
      if scope in seen {
        assert exists j :: 0 <= j < i && parts[j] == scope;
        return None;
      }
      seen := seen + {scope};
      assert parts[..i + 1] == parts[..i] + [scope];
    }
    assert parts[..|parts|] == parts;
    r := Some(parts);
  }

  /** Every list of valid scopes a key is created with comes back, normalized, from the stored text. */
  lemma ScopesRoundTrip(scopes: seq<string>)
    requires Normalized(scopes) != [] && forall s :: s in Normalized(scopes) ==> ValidScope(s)
    ensures Decoded(Join(Normalized(scopes))) == Some(Normalized(scopes))
  {
    hide ValidScope, Normalized, FirstAt, Split, Join;
    NormalizedMeaning(scopes);
    forall s | s in Normalized(scopes) ensures ',' !in s { ScopeHasNoComma(s); }
    SplitOfJoin(Normalized(scopes));
  }

  /** And a stored text is the only one that decodes to its scopes. */
  lemma DecodedIsInjective(x: string, y: string)
    requires Decoded(x).Some? && Decoded(x) == Decoded(y)
    ensures x == y
  {
    JoinOfSplit(x);
    JoinOfSplit(y);
  }

  // ---- authorization ----

  predicate Covers(scope: string, required: string) {
    || scope == required
    || (scope == "admin.write" && required == "admin.read")
    || (scope == "mcp.admin" && "mcp." <= required)
  }

  predicate Grants(scopes: seq<string>, required: string) {
    exists i :: 0 <= i < |scopes| && Covers(scopes[i], required)
  }

  method Has(scopes: seq<string>, required: string) returns (r: bool)
    ensures r <==> Grants(scopes, required)
    ensures r <==> required in scopes || (required == "admin.read" && "admin.write" in scopes)
                   || ("mcp." <= required && "mcp.admin" in scopes)
  {
    GrantsIff(scopes, required);
    for i := 0 to |scopes|
      invariant !Grants(scopes[..i], required)
    {
      var scope := scopes[i];
      if scope == required || (scope == "admin.write" && required == "admin.read") { return true; }
      if scope == "mcp.admin" && "mcp." <= required { return true; }
      assert scopes[..i + 1] == scopes[..i] + [scope];
    }
    assert scopes[..|scopes|] == scopes;
    r := false;
  }

  /** A requirement is met by its own scope, reads by the write scope, and everything in the MCP
      namespace by its umbrella; by nothing else. */
  lemma GrantsIff(scopes: seq<string>, required: string)
    ensures Grants(scopes, required) <==>
              || required in scopes
              || (required == "admin.read" && "admin.write" in scopes)
              || ("mcp." <= required && "mcp.admin" in scopes)
  {
    if required in scopes {
      var i :| 0 <= i < |scopes| && scopes[i] == required;
      assert Covers(scopes[i], required);
    }
    if required == "admin.read" && "admin.write" in scopes {
      var i :| 0 <= i < |scopes| && scopes[i] == "admin.write";
      assert Covers(scopes[i], required);
    }
    if "mcp." <= required && "mcp.admin" in scopes {
      var i :| 0 <= i < |scopes| && scopes[i] == "mcp.admin";
      assert Covers(scopes[i], required);
    }
  }

  /** Outside the MCP namespace a requirement is met only by its own scope, or by the write scope for reads. */
  lemma UmbrellaStaysInside(scopes: seq<string>, required: string)
    requires !("mcp." <= required)
    ensures Grants(scopes, required) <==> required in scopes || (required == "admin.read" && "admin.write" in scopes)
  {
  }
}

/** Identities and Hub coordinates: the input boundary the registry, the downloader and the
    restart validators share.  A Dafny `string` is a sequence of Unicode scalar values. */
module Coordinates {
  import opened Wrappers

  const MAX_REPOSITORY: nat := 96
  const MAX_REVISION: nat := 255

  predicate Letter(c: char) { 'a' <= c <= 'z' || 'A' <= c <= 'Z' }
  predicate Digit(c: char) { '0' <= c <= '9' }
  predicate LowerHex(c: char) { Digit(c) || 'a' <= c <= 'f' }

  predicate IsSpace(c: char) {
    var n := c as int;
    || 0x09 <= n <= 0x0D || n == 0x20 || n == 0x85 || n == 0xA0 || n == 0x1680
    || 0x2000 <= n <= 0x200A || n == 0x2028 || n == 0x2029 || n == 0x202F || n == 0x205F || n == 0x3000
  }

  predicate IsControl(c: char) { (c as int) < 0x20 || 0x7F <= (c as int) < 0xA0 }

  function Width(c: char): nat {
    var n := c as int;
    if n < 0x80 then 1 else if n < 0x800 then 2 else if n < 0x10000 then 3 else 4
  }

  /** The length of a string in UTF-8 bytes. */
  function ByteLength(s: string): nat { if s == "" then 0 else Width(s[0]) + ByteLength(s[1..]) }

  lemma {:induction false} AsciiBytes(s: string)
    requires forall i :: 0 <= i < |s| ==> (s[i] as int) < 0x80
    ensures ByteLength(s) == |s|
  {
    if s != "" { AsciiBytes(s[1..]); }
  }

  lemma {:induction false} ByteLengthAppend(s: string, t: string)
    ensures ByteLength(s + t) == ByteLength(s) + ByteLength(t)
  {
    if s == "" {
      assert s + t == t;
    } else {
      assert (s + t)[1..] == s[1..] + t;
      ByteLengthAppend(s[1..], t);
    }
  }

  predicate ValidJobId(id: string) {
    && 0 < |id| <= 128
    && (Letter(id[0]) || Digit(id[0]))
    && forall i :: 0 <= i < |id| ==> Letter(id[i]) || Digit(id[i]) || id[i] in "._-"
  }

  predicate ValidModelId(id: string) {
    |id| == 32 && forall i :: 0 <= i < |id| ==> LowerHex(id[i])
  }

  function TrimLeft(s: string): string { if s != "" && IsSpace(s[0]) then TrimLeft(s[1..]) else s }
  function TrimRight(s: string): string { if s != "" && IsSpace(s[|s| - 1]) then TrimRight(s[..|s| - 1]) else s }
  function TrimSpace(s: string): string { TrimRight(TrimLeft(s)) }

  predicate Trimmed(s: string) { s == "" || (!IsSpace(s[0]) && !IsSpace(s[|s| - 1])) }

  lemma {:induction false} TrimLeftEnds(s: string)
    ensures var r := TrimLeft(s); r == "" || !IsSpace(r[0])
  {
    if s != "" && IsSpace(s[0]) { TrimLeftEnds(s[1..]); }
  }

  lemma {:induction false} TrimRightEnds(s: string)
    requires s == "" || !IsSpace(s[0])
    ensures Trimmed(TrimRight(s))
  {
    if s != "" && IsSpace(s[|s| - 1]) {
      assert s[..|s| - 1][0] == s[0];
      TrimRightEnds(s[..|s| - 1]);
    }
  }

  lemma TrimSpaceIdempotent(s: string)
    ensures Trimmed(TrimSpace(s)) && TrimSpace(TrimSpace(s)) == TrimSpace(s)
  {
    TrimLeftEnds(s);
    TrimRightEnds(TrimLeft(s));
  }

  /** Trimming leaves exactly the texts without outer white space alone. */
  lemma TrimmedIsFixed(s: string)
    ensures Trimmed(s) <==> TrimSpace(s) == s
  {
    TrimSpaceIdempotent(s);
  }

  predicate HasPair(s: string, a: char, b: char) {
    exists i :: 0 <= i < |s| - 1 && s[i] == a && s[i + 1] == b
  }

  predicate ValidPart(s: string) {
    && s != ""
    && s[0] !in "-." && s[|s| - 1] !in "-."
    && !HasPair(s, '-', '-') && !HasPair(s, '.', '.')
    && forall i :: 0 <= i < |s| ==> Letter(s[i]) || Digit(s[i]) || s[i] in "-_."
  }

  function IndexOf(s: string, c: char): (i: nat)
    ensures i <= |s| && (i < |s| ==> s[i] == c) && forall k :: 0 <= k < i ==> s[k] != c
  {
    if s == "" || s[0] == c then 0 else 1 + IndexOf(s[1..], c)
  }

  /** `owner/name`: exactly one slash, since a valid part contains none. */
  predicate RepositoryForm(s: string) {
    var slash := IndexOf(s, '/');
    && slash < |s|
    && ValidPart(s[..slash]) && ValidPart(s[slash + 1..])
    && !(|s| >= 4 && s[|s| - 4..] == ".git")
  }

  function NormalizeRepository(value: string): Option<string> {
    var v := TrimSpace(value);
    if v == "" || ByteLength(v) > MAX_REPOSITORY || !RepositoryForm(v) then None else Some(v)
  }

  function NormalizeRevision(value: string): Option<string> {
    var v := TrimSpace(value);
    if ByteLength(v) > MAX_REVISION || (v != "" && v[0] == '-') || (exists i :: 0 <= i < |v| && (IsSpace(v[i]) || IsControl(v[i])))
    then None else Some(v)
  }

  predicate CanonicalRepository(s: string) { NormalizeRepository(s) == Some(s) }
  predicate CanonicalRevision(s: string) { NormalizeRevision(s) == Some(s) }

  /** What registration stores is what the restart validators accept: normalizing is idempotent. */
  lemma NormalizedIsCanonical(repository: string, revision: string)
    ensures NormalizeRepository(repository).Some? ==> CanonicalRepository(NormalizeRepository(repository).value)
    ensures NormalizeRevision(revision).Some? ==> CanonicalRevision(NormalizeRevision(revision).value)
  {
    TrimSpaceIdempotent(repository);
    TrimSpaceIdempotent(revision);
  }

  // ---- what the two normalizations accept ----

  predicate Spaces(s: string) { forall i :: 0 <= i < |s| ==> IsSpace(s[i]) }

  lemma {:induction false} TrimLeftSplits(s: string) returns (a: string)
    ensures Spaces(a) && s == a + TrimLeft(s)
  {
    if s != "" && IsSpace(s[0]) {
      a := TrimLeftSplits(s[1..]);
      a := [s[0]] + a;
      assert s == [s[0]] + s[1..];
    } else {
      a := "";
    }
  }

  lemma {:induction false} TrimRightSplits(s: string) returns (b: string)
    ensures Spaces(b) && s == TrimRight(s) + b
  {
    if s != "" && IsSpace(s[|s| - 1]) {
      b := TrimRightSplits(s[..|s| - 1]);
      b := b + [s[|s| - 1]];
      assert s == s[..|s| - 1] + [s[|s| - 1]];
    } else {
      b := "";
    }
  }

  /** Trimming takes white space from the two ends, all of it, and nothing else. */
  lemma TrimSpaceMeaning(s: string) returns (a: string, b: string)
    ensures s == a + TrimSpace(s) + b && Spaces(a) && Spaces(b) && Trimmed(TrimSpace(s))
  {
    a := TrimLeftSplits(s);
    b := TrimRightSplits(TrimLeft(s));
    TrimSpaceIdempotent(s);
    assert a + (TrimSpace(s) + b) == a + TrimSpace(s) + b;
  }

  /** The owner, or the name, of a repository. */
  predicate RepositoryPart(s: string) {
    && s != "" && s[0] != '-' && s[0] != '.' && s[|s| - 1] != '-' && s[|s| - 1] != '.'
    && (forall i :: 0 <= i < |s| - 1 ==> !(s[i] == '-' && s[i + 1] == '-') && !(s[i] == '.' && s[i + 1] == '.'))
    && forall i :: 0 <= i < |s| ==>
         'a' <= s[i] <= 'z' || 'A' <= s[i] <= 'Z' || '0' <= s[i] <= '9' || s[i] == '-' || s[i] == '_' || s[i] == '.'
  }

  /** A repository is an owner and a name with one slash between, in at most 96 bytes, not ending in .git. */
  lemma RepositoryIff(value: string)
    ensures NormalizeRepository(value).Some? <==>
              var v := TrimSpace(value);
              && ByteLength(v) <= 96 && !(|v| >= 4 && v[|v| - 4..] == ".git")
              && exists k :: 0 <= k < |v| && v[k] == '/' && RepositoryPart(v[..k]) && RepositoryPart(v[k + 1..])
    ensures NormalizeRepository(value).Some? ==> NormalizeRepository(value).value == TrimSpace(value)
  {
    hide TrimSpace, ByteLength, RepositoryForm, RepositoryPart;
    FormIff(TrimSpace(value));
  }

  lemma FormIff(v: string)
    ensures RepositoryForm(v) <==>
              && !(|v| >= 4 && v[|v| - 4..] == ".git")
              && exists k :: 0 <= k < |v| && v[k] == '/' && RepositoryPart(v[..k]) && RepositoryPart(v[k + 1..])
    ensures RepositoryForm(v) ==> v != ""
  {
    hide ValidPart, RepositoryPart, IndexOf;
    var k := IndexOf(v, '/');
    if k < |v| {
      PartIff(v[..k]);
      PartIff(v[k + 1..]);
    }
    if i :| 0 <= i < |v| && v[i] == '/' && RepositoryPart(v[..i]) && RepositoryPart(v[i + 1..]) { OnlySlash(v, i); }
  }

  lemma PartIff(s: string)
    ensures ValidPart(s) <==> RepositoryPart(s)
  {
    if ValidPart(s) {
      forall i | 0 <= i < |s| - 1 ensures !(s[i] == '-' && s[i + 1] == '-') && !(s[i] == '.' && s[i + 1] == '.') {}
    }
  }

  lemma OnlySlash(v: string, k: nat)
    requires k < |v| && v[k] == '/' && RepositoryPart(v[..k])
    ensures IndexOf(v, '/') == k
  {
    assert forall i :: 0 <= i < k ==> v[..k][i] == v[i];
  }

  /** A revision has no white space, no control character and no leading dash, in at most 255 bytes. */
  lemma RevisionIff(value: string)
    ensures NormalizeRevision(value).Some? <==>
              var v := TrimSpace(value);
              && ByteLength(v) <= 255 && (v == "" || v[0] != '-')
              && forall i :: 0 <= i < |v| ==> !IsSpace(v[i]) && !IsControl(v[i])
    ensures NormalizeRevision(value).Some? ==> NormalizeRevision(value).value == TrimSpace(value)
  {
  }
}

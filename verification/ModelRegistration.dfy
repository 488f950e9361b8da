/** What registration writes into a model row, and what every later read of the row demands.

    Nothing updates the name and the source of a row once it is there.  A directory name may hold
    any character but the separator. */
module ModelRegistration {
  import opened Wrappers
  import opened Coordinates
  import opened Database
  import opened Restart
  import opened DeletionManifest
  import opened DownloadProtocol
  import opened DownloadTheorems
  import opened DownloadReadiness

  const MAX_MODEL_NAME: nat := 256
  const MAX_MODEL_PATH: nat := 4096

  /** A row with its texts; `model` holds the columns the downloads work on. */
  datatype Listing = Listing(name: string, source: string, model: Model)

  /** Text that can be shown: bounded, not empty, without control characters. */
  predicate Plain(s: string, max: nat) {
    s != "" && ByteLength(s) <= max && forall i :: 0 <= i < |s| ==> !IsControl(s[i])
  }

  predicate Below(root: Path, p: Path) { root.parts < p.parts }

  function DirectoryName(p: Path): string
    requires p.parts != []
  {
    p.parts[|p.parts| - 1]
  }

  /** The part of a text after its last slash. */
  function Base(s: string): string
    decreases |s|
  {
    var slash := IndexOf(s, '/');
    if slash == |s| then s else Base(s[slash + 1..])
  }

  // ---- what is written ----

  /** `p` is the directory the given path resolves to, below the resolved models root. */
  function RegisterLocal(name: string, p: Path, size: nat, now: nat): Option<Listing>
    requires p.parts != []
  {
    var trimmed := TrimSpace(name);
    var chosen := if trimmed == "" then DirectoryName(p) else trimmed;
    if !Plain(chosen, MAX_MODEL_NAME) then None
    else Some(Listing(chosen, PathText(p.parts), Model(Local, "", "", Ready, Some(p), size, now, now)))
  }

  /** The texts of a Hugging Face row come from its repository, which nothing updates either. */
  function HubListing(m: Model): Listing { Listing(Base(m.repository), m.repository, m) }

  // ---- what is read ----

  predicate SourceFits(l: Listing) {
    match l.model.kind
    case HuggingFace => l.source == l.model.repository
    case Local => l.model.localPath.Some? && l.source == PathText(l.model.localPath.value.parts)
  }

  /** The validator every read of a row runs. */
  predicate Readable(root: Path, id: string, l: Listing) {
    && ModelAccepted(id, l.model)
    && l.name == TrimSpace(l.name) && Plain(l.name, MAX_MODEL_NAME)
    && SourceFits(l)
    && (l.model.localPath.Some? ==>
          Plain(PathText(l.model.localPath.value.parts), MAX_MODEL_PATH) && Below(root, l.model.localPath.value))
  }

  predicate AllReadable(root: Path, rows: seq<(string, Listing)>) {
    forall i :: 0 <= i < |rows| ==> Readable(root, rows[i].0, rows[i].1)
  }

  /** The listing stops at the first row it cannot read, so one such row hides them all. */
  method ListModels(root: Path, rows: seq<(string, Listing)>) returns (out: Option<seq<Listing>>)
    ensures out.Some? <==> AllReadable(root, rows)
    ensures out.Some? ==> |out.value| == |rows| && forall i :: 0 <= i < |rows| ==> out.value[i] == rows[i].1
  {
    hide Readable;
    var read := [];
    for i := 0 to |rows|
      invariant AllReadable(root, rows[..i])
      invariant |read| == i && forall k :: 0 <= k < i ==> read[k] == rows[k].1
    {
      if !Readable(root, rows[i].0, rows[i].1) { return None; }
      read := read + [rows[i].1];
    }
    assert rows[..|rows|] == rows;
    out := Some(read);
  }

  // ---- local models ----

  /** A registration takes the trimmed name, or the directory's name when that is empty, and refuses only a
      name that is empty, longer than 256 bytes or not free of control characters; the path is not looked at. */
  lemma RegisterLocalIff(name: string, p: Path, size: nat, now: nat)
    requires p.parts != []
    ensures var chosen := if TrimSpace(name) == "" then p.parts[|p.parts| - 1] else TrimSpace(name);
      && (RegisterLocal(name, p, size, now).Some? <==>
            chosen != "" && ByteLength(chosen) <= 256 && forall i :: 0 <= i < |chosen| ==> !IsControl(chosen[i]))
      && (RegisterLocal(name, p, size, now).Some? ==>
            RegisterLocal(name, p, size, now).value
            == Listing(chosen, PathText(p.parts), Model(Local, "", "", Ready, Some(p), size, now, now)))
  {
  }

  /** A registered local model can be read back exactly when its name was given, or its directory's
      name has no outer white space, and its path is plain and below the root as configured. */
  lemma LocalReadableIff(root: Path, id: string, name: string, p: Path, size: nat, now: nat)
    requires ValidModelId(id) && p.parts != [] && RegisterLocal(name, p, size, now).Some?
    ensures Readable(root, id, RegisterLocal(name, p, size, now).value) <==>
              && (TrimSpace(name) != "" || Trimmed(DirectoryName(p)))
              && Plain(PathText(p.parts), MAX_MODEL_PATH) && Below(root, p)
  {
    hide TrimSpace, Trimmed, Plain, PathText;
    TrimSpaceIdempotent(name);
    TrimmedIsFixed(DirectoryName(p));
  }

  /** A scan passes the directory's own name: it is lost only when that name is nothing but white space. */
  lemma ScannedReadableIff(root: Path, id: string, p: Path, size: nat, now: nat)
    requires ValidModelId(id) && p.parts != [] && DirectoryName(p) != "" && RegisterLocal(DirectoryName(p), p, size, now).Some?
    ensures Readable(root, id, RegisterLocal(DirectoryName(p), p, size, now).value) <==>
              TrimSpace(DirectoryName(p)) != "" && Plain(PathText(p.parts), MAX_MODEL_PATH) && Below(root, p)
  {
    hide TrimSpace, Plain, PathText;
    LocalReadableIff(root, id, DirectoryName(p), p, size, now);
    TrimmedIsFixed(DirectoryName(p));
  }

  /** A blank name and a directory called " m": the registration succeeds, and from then on no
      listing that holds the row does. */
  lemma BlankNameHidesTheList(root: Path, id: string, size: nat, now: nat, rows: seq<(string, Listing)>, i: nat)
    requires ValidModelId(id) && i < |rows|
    requires var p := Join(root, " m"); rows[i] == (id, RegisterLocal(" ", p, size, now).value)
    ensures RegisterLocal(" ", Join(root, " m"), size, now).Some? && Below(root, Join(root, " m"))
    ensures !AllReadable(root, rows)
  {
  }

  // ---- paths that can be registered and read, but not put into a manifest ----

  /** A directory name as long as file systems allow, of a character the encoder escapes. */
  function Ampersands(): (s: string)
    ensures |s| == 255 && forall i :: 0 <= i < 255 ==> s[i] == '&'
  {
    seq(255, _ => '&')
  }

  lemma LongerPath(parts: seq<string>, name: string)
    requires forall i :: 0 <= i < |PathText(parts)| ==> !IsControl(PathText(parts)[i])
    requires forall i :: 0 <= i < |name| ==> !IsControl(name[i])
    ensures var text := PathText(parts + [name]);
      && ByteLength(text) == ByteLength(PathText(parts)) + 1 + ByteLength(name)
      && JsonBytes(text) == JsonBytes(PathText(parts)) + 1 + JsonBytes(name)
      && forall i :: 0 <= i < |text| ==> !IsControl(text[i])
  {
    hide PathText;
    var before := PathText(parts);
    assert PathText(parts + [name]) == before + "/" + name by { PathTextStep(parts, name); }
    ByteLengthAppend(before + "/", name);
    ByteLengthAppend(before, "/");
    JsonBytesAppend(before + "/", name);
    JsonBytesAppend(before, "/");
    assert ByteLength("/") == 1 && JsonBytes("/") == 1;
  }

  lemma PathTextStep(parts: seq<string>, name: string)
    ensures PathText(parts + [name]) == PathText(parts) + "/" + name
  {
    assert (parts + [name])[..|parts|] == parts;
  }

  /** Three nested directories of that name, under any root that leaves them room: the model can be
      registered and read, and its deletion writes a manifest no start can read. */
  lemma ReadablePathMayNotFit(root: Path, id: string, size: nat, now: nat)
    requires ValidModelId(id) && ByteLength(PathText(root.parts)) <= MAX_MODEL_PATH - 768
    requires forall i :: 0 <= i < |PathText(root.parts)| ==> !IsControl(PathText(root.parts)[i])
    ensures var p := Path(root.parts + [Ampersands()] + [Ampersands()] + [Ampersands()]);
      && RegisterLocal("m", p, size, now).Some?
      && Readable(root, id, RegisterLocal("m", p, size, now).value)
      && !ManifestFits(id, p)
  {
    hide PathText, JsonBytes, ByteLength, Readable, TrimSpace;
    var name := Ampersands();
    var one, two := root.parts + [name], root.parts + [name] + [name];
    var p := Path(two + [name]);
    AsciiBytes(name);
    AmpersandBytes(name);
    LongerPath(root.parts, name);
    LongerPath(one, name);
    LongerPath(two, name);
    PathTextStep(two, name);
    NameIsTrimmed();
    FitsByLength(id, p);
    LocalReadableIff(root, id, "m", p, size, now);
  }

  lemma NameIsTrimmed()
    ensures TrimSpace("m") == "m" && Plain("m", MAX_MODEL_NAME)
  {
    TrimmedIsFixed("m");
  }

  // ---- Hugging Face models ----

  lemma {:induction false} LengthWithinBytes(s: string)
    ensures |s| <= ByteLength(s)
  {
    if s != "" { LengthWithinBytes(s[1..]); }
  }

  /** A canonical repository gives a name every read accepts. */
  lemma RepositoryNames(repository: string)
    requires CanonicalRepository(repository)
    ensures Plain(Base(repository), MAX_MODEL_NAME) && Trimmed(Base(repository))
  {
    hide TrimSpace, ByteLength, Trimmed;
    var slash := IndexOf(repository, '/');
    var name := repository[slash + 1..];
    assert ValidPart(name) && ByteLength(repository) <= MAX_REPOSITORY;
    LengthWithinBytes(repository);
    PartIsPlain(name);
    assert Base(repository) == Base(name) == name;
  }

  lemma PartIsPlain(name: string)
    requires ValidPart(name) && |name| <= MAX_REPOSITORY
    ensures Plain(name, MAX_MODEL_NAME) && Trimmed(name) && IndexOf(name, '/') == |name|
  {
    AsciiBytes(name);
  }

  /** In every state the downloads can reach, a Hugging Face model can be read, unless it is ready
      and the text of its directory under the configured root is too long or not plain. */
  lemma HubModelReadableIff(c: Config, s: State, id: string)
    requires Reachable(c, s) && id in s.db.models && s.db.models[id].kind == HuggingFace
    ensures Readable(c.root, id, HubListing(s.db.models[id])) <==>
              (s.db.models[id].status == Ready ==> Plain(PathText(Join(c.root, id).parts), MAX_MODEL_PATH))
  {
    hide RestoreAccepts, Plain, PathText, Base, CanonicalRepository, CanonicalRevision, TrimSpace, Trimmed;
    var m := s.db.models[id];
    RestartAcceptsEveryDurableState(c, s);
    assert ModelAccepted(id, m);
    RepositoryNames(m.repository);
    TrimmedIsFixed(Base(m.repository));
    if m.status == Ready {
      ReadyMeansOneSuccess(c, s, id);
      var d :| d in s.db.downloads && Produced(s.db, d, id);
      assert m.localPath == Some(Join(c.root, id));
    }
  }
}

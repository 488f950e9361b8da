/** The loop that validates the options and grows the command line. */
module ArgumentsBuilder {
  import opened Wrappers
  import opened Coordinates
  import opened Arguments

  datatype Result<T> = Ok(value: T) | Err(error: Fault)

  method ValidateBoundedArgument(value: string, max: nat, noSpace: bool) returns (ok: bool)
    ensures ok <==> Bounded(value, max, noSpace)
  {
    if value == "" || ByteLength(value) > max || value[0] == '-' { return false; }
    for i := 0 to |value|
      invariant forall j :: 0 <= j < i ==> !IsControl(value[j]) && !(noSpace && IsSpace(value[j]))
    {
      if IsControl(value[i]) || (noSpace && IsSpace(value[i])) { return false; }
    }
    ok := true;
  }

  method ValidGpus(gpus: seq<int>) returns (ok: bool)
    ensures ok <==> GpusOk(gpus)
  {
    var seen: set<int> := {};
    for i := 0 to |gpus|
      invariant GpusOk(gpus[..i]) && seen == set g | g in gpus[..i]
    {
      var device := gpus[i];
      if device < 0 || device > MAX_GPU_INDEX { return false; }
      if device in seen {
        assert exists j :: 0 <= j < i && gpus[j] == device;
        return false;
      }
      seen := seen + {device};
      assert gpus[..i + 1] == gpus[..i] + [device];
    }
    assert gpus[..|gpus|] == gpus;
    ok := true;
  }

  /** The line after the first k options have been dealt with. */
  ghost function LineUpTo(p: Platform, o: Options, k: nat): seq<string>
    requires k <= |NAMES|
  {
    ["serve", o.model] + Flat(Compact(NAMES[..k], Slots(p, o)[..k]))
  }

  function SlotTokens(name: string, slot: Option<seq<string>>): (tokens: seq<string>)
    ensures slot.None? ==> tokens == []
    ensures slot.Some? && slot.value == [] ==> tokens == ["--" + name]
    ensures slot.Some? && |slot.value| == 1 ==> tokens == ["--" + name, slot.value[0]]
  {
    if slot.Some? then ["--" + name] + slot.value else []
  }

  lemma NextSlot(p: Platform, o: Options, k: nat, name: string, slot: Option<seq<string>>)
    requires k < |NAMES| && NAMES[k] == name && Slots(p, o)[k] == slot
    ensures LineUpTo(p, o, k + 1) == LineUpTo(p, o, k) + SlotTokens(name, slot)
  {
    hide Slots, Flat, Compact;
    var names, slots := NAMES[..k + 1], Slots(p, o)[..k + 1];
    assert names[..k] == NAMES[..k] && slots[..k] == Slots(p, o)[..k];
    CompactLast(names, slots);
    var before := Compact(NAMES[..k], Slots(p, o)[..k]);
    if slot.Some? {
      FlatAppend(before, Group(name, slot.value));
    } else {
      assert before + [] == before;
    }
  }

  lemma CompactLast(names: seq<string>, slots: seq<Option<seq<string>>>)
    requires |names| == |slots| > 0
    ensures var k := |slots| - 1;
            Compact(names, slots) == Compact(names[..k], slots[..k]) + if slots[k].Some? then [Group(names[k], slots[k].value)] else []
  {
  }

  lemma FlatAppend(groups: seq<Group>, g: Group)
    ensures Flat(groups + [g]) == Flat(groups) + Tokens(g)
  {
    assert (groups + [g])[..|groups|] == groups;
  }

  lemma FirstTokens(p: Platform, o: Options)
    requires o.port > 0
    ensures LineUpTo(p, o, 2) == ["serve", o.model, "--" + "host", HostOf(o), "--" + "port", Decimal(o.port)]
  {
    hide Slots, Decimal, HostOf, LineUpTo;
    NoTokens(p, o);
    FirstSlots(p, o);
    NextSlot(p, o, 0, "host", Some([HostOf(o)]));
    NextSlot(p, o, 1, "port", Some([Decimal(o.port)]));
  }

  lemma NoFault(p: Platform, o: Options)
    requires !Breaks(p, o, BadModel) && !Breaks(p, o, BadPort) && !Breaks(p, o, BadHost) && !Breaks(p, o, BadParallel)
    requires !Breaks(p, o, ManyGpus) && !Breaks(p, o, BadGpus) && !Breaks(p, o, BadMemory) && !Breaks(p, o, BadMaxLen)
    requires !Breaks(p, o, BadScalar) && !Breaks(p, o, BadServedName) && !Breaks(p, o, ManyExtras) && !Breaks(p, o, BadExtra)
    ensures Accepted(p, o)
  {
    hide Breaks;
    forall fault ensures !Breaks(p, o, fault) {
      match fault
      case BadModel => case BadPort => case BadHost => case BadParallel => case ManyGpus => case BadGpus =>
      case BadMemory => case BadMaxLen => case BadScalar => case BadServedName => case ManyExtras => case BadExtra =>
    }
  }

  lemma NoTokens(p: Platform, o: Options)
    ensures LineUpTo(p, o, 0) == ["serve", o.model]
  {
    assert Compact(NAMES[..0], Slots(p, o)[..0]) == [];
  }

  lemma FirstSlots(p: Platform, o: Options)
    requires o.port > 0
    ensures Slots(p, o)[0] == Some([HostOf(o)]) && Slots(p, o)[1] == Some([Decimal(o.port)])
  {
  }

  // ---- the rules and the line, spelled out ----

  /** Text that may stand on the command line. */
  predicate Argument(s: string, max: nat) {
    s != "" && s[0] != '-' && ByteLength(s) <= max && forall i :: 0 <= i < |s| ==> !IsControl(s[i])
  }

  predicate NoSpaces(s: string) { forall i :: 0 <= i < |s| ==> !IsSpace(s[i]) }

  /** An extra name, without its dashes: letters, and after the first also digits, dashes and underscores. */
  predicate ExtraName(n: string) {
    && 0 < |n| && ByteLength(n) <= 128
    && (forall i :: 0 <= i < |n| ==> Letter(n[i]) || (i > 0 && (Digit(n[i]) || n[i] == '-' || n[i] == '_')))
    && n !in ["model", "host", "port", "tensor-parallel-size", "pipeline-parallel-size", "gpu-memory-utilization", "max-model-len",
              "dtype", "quantization", "trust-remote-code", "tool-call-parser", "reasoning-parser", "enable-auto-tool-choice",
              "served-model-name"]
  }

  function NameOf(x: Extra): string { if |x.name| >= 2 && x.name[0] == '-' && x.name[1] == '-' then x.name[2..] else x.name }

  predicate ExtrasFit(extras: seq<Extra>) {
    && |extras| <= 64
    && (forall i :: 0 <= i < |extras| ==> ExtraName(NameOf(extras[i])) && |extras[i].values| <= 64)
    && (forall i, k :: 0 <= i < |extras| && 0 <= k < |extras[i].values| ==> Argument(extras[i].values[k], 4096))
    && (forall i, j :: 0 <= i < j < |extras| ==> NameOf(extras[i]) != NameOf(extras[j]))
    && (forall i :: 0 <= i < |extras| && extras[i].values != [] ==> Charged(extras[..i + 1]) <= 65536)
  }

  lemma StrippedIsNameOf(x: Extra)
    ensures Stripped(x.name) == NameOf(x)
  {
  }

  lemma ArgumentIff(s: string, max: nat)
    ensures Bounded(s, max, false) <==> Argument(s, max)
    ensures Bounded(s, max, true) <==> Argument(s, max) && NoSpaces(s)
  {
  }

  lemma ExtraIff(x: Extra)
    ensures ExtraOk(x) <==> ExtraName(NameOf(x)) && |x.values| <= 64 && forall k :: 0 <= k < |x.values| ==> Argument(x.values[k], 4096)
  {
    hide Bounded, Argument, ByteLength, Stripped, NameOf;
    StrippedIsNameOf(x);
    forall k | 0 <= k < |x.values| ensures Bounded(x.values[k], MAX_EXTRA_VALUE, false) <==> Argument(x.values[k], 4096) {
      ArgumentIff(x.values[k], 4096);
    }
  }

  lemma ExtrasIff(extras: seq<Extra>)
    requires |extras| <= 64
    ensures ExtrasOk(extras) <==> ExtrasFit(extras)
  {
    hide ExtraOk, ExtraName, Stripped, NameOf, Argument, Charged;
    forall i | 0 <= i < |extras|
      ensures Stripped(extras[i].name) == NameOf(extras[i])
      ensures ExtraOk(extras[i]) <==>
                ExtraName(NameOf(extras[i])) && |extras[i].values| <= 64
                && forall k :: 0 <= k < |extras[i].values| ==> Argument(extras[i].values[k], 4096)
      ensures WithinBudget(extras, i) <==> (extras[i].values != [] ==> Charged(extras[..i + 1]) <= 65536)
    {
      StrippedIsNameOf(extras[i]);
      ExtraIff(extras[i]);
    }
  }

  /** Every rule of the builder, with its numbers. */
  lemma AcceptedIff(p: Platform, o: Options)
    ensures Accepted(p, o) <==>
              && Argument(o.model, 4096) && 1 <= o.port <= 65535
              && (o.host == "localhost" || p.loopback(if o.host == "" then "127.0.0.1" else o.host))
              && 0 <= o.tensor <= 1024 && 0 <= o.pipeline <= 1024
              && |o.gpus| <= 64 && (forall i :: 0 <= i < |o.gpus| ==> 0 <= o.gpus[i] <= 1023)
              && (forall i, j :: 0 <= i < j < |o.gpus| ==> o.gpus[i] != o.gpus[j])
              && o.memory.Finite? && 0 <= o.memory.units <= p.one && 0 <= o.maxLen <= 2147483647
              && (forall s :: s in [o.dtype, o.quantization, o.toolParser, o.reasoningParser] ==>
                    s == "" || (Argument(s, 256) && NoSpaces(s)))
              && (o.servedName == "" || Argument(o.servedName, 512))
              && ExtrasFit(o.extras)
  {
    hide Bounded, Argument, NoSpaces, ExtrasOk, ExtrasFit;
    ArgumentIff(o.model, 4096);
    ArgumentIff(o.servedName, 512);
    forall s | s in [o.dtype, o.quantization, o.toolParser, o.reasoningParser]
      ensures ScalarOk(s) <==> s == "" || (Argument(s, 256) && NoSpaces(s))
    {
      ArgumentIff(s, 256);
    }
    if |o.extras| <= 64 { ExtrasIff(o.extras); }
    AllFaults(p, o);
    if |o.extras| > 64 { FitsMeansFew(o.extras); }
  }

  lemma FitsMeansFew(extras: seq<Extra>)
    ensures ExtrasFit(extras) ==> |extras| <= 64
  {
    hide ExtraName, Argument;
  }

  lemma AllFaults(p: Platform, o: Options)
    ensures Accepted(p, o) <==>
              && !Breaks(p, o, BadModel) && !Breaks(p, o, BadPort) && !Breaks(p, o, BadHost) && !Breaks(p, o, BadParallel)
              && !Breaks(p, o, ManyGpus) && !Breaks(p, o, BadGpus) && !Breaks(p, o, BadMemory) && !Breaks(p, o, BadMaxLen)
              && !Breaks(p, o, BadScalar) && !Breaks(p, o, BadServedName) && !Breaks(p, o, ManyExtras) && !Breaks(p, o, BadExtra)
  {
    hide Breaks;
    if !Breaks(p, o, BadModel) && !Breaks(p, o, BadPort) && !Breaks(p, o, BadHost) && !Breaks(p, o, BadParallel)
       && !Breaks(p, o, ManyGpus) && !Breaks(p, o, BadGpus) && !Breaks(p, o, BadMemory) && !Breaks(p, o, BadMaxLen)
       && !Breaks(p, o, BadScalar) && !Breaks(p, o, BadServedName) && !Breaks(p, o, ManyExtras) && !Breaks(p, o, BadExtra)
    {
      NoFault(p, o);
    }
  }

  function Numbered(flag: string, n: int): seq<string> { if n > 0 then [flag, Decimal(n)] else [] }
  function Texted(flag: string, s: string): seq<string> { if s != "" then [flag, s] else [] }
  function Switched(flag: string, on: bool): seq<string> { if on then [flag] else [] }
  function ExtraTokens(extras: seq<Extra>): seq<string> {
    if extras == [] then []
    else ExtraTokens(extras[..|extras| - 1]) + ["--" + NameOf(extras[|extras| - 1])] + extras[|extras| - 1].values
  }

  /** The command line, flag by flag: the model and the numbers, then the named options, then the extras. */
  function SpelledHead(o: Options): seq<string> {
    ["serve", o.model, "--host", if o.host == "" then "127.0.0.1" else o.host, "--port", if o.port > 0 then Decimal(o.port) else ""]
  }

  function Fractioned(p: Platform, flag: string, x: Double): seq<string> {
    if x.Finite? && x.units > 0 then [flag, p.format(x.units)] else []
  }

  function SpelledNumbers(p: Platform, o: Options): seq<string> {
    SpelledHead(o) + Numbered("--tensor-parallel-size", o.tensor) + Numbered("--pipeline-parallel-size", o.pipeline)
    + Fractioned(p, "--gpu-memory-utilization", o.memory) + Numbered("--max-model-len", o.maxLen)
  }

  function Spelled(p: Platform, o: Options): seq<string> {
    SpelledNumbers(p, o)
    + Texted("--dtype", o.dtype) + Texted("--quantization", o.quantization)
    + Texted("--tool-call-parser", o.toolParser) + Texted("--reasoning-parser", o.reasoningParser)
    + Switched("--trust-remote-code", o.trust) + Switched("--enable-auto-tool-choice", o.autoTool)
    + Texted("--served-model-name", o.servedName) + ExtraTokens(o.extras)
  }

  lemma {:induction false} FlatExtras(known: seq<Group>, extras: seq<Extra>)
    ensures Flat(known + ExtraGroups(extras)) == Flat(known) + ExtraTokens(extras)
    decreases |extras|
  {
    hide Flat, Stripped, NameOf;
    if extras == [] {
      assert known + ExtraGroups(extras) == known;
    } else {
      var k := |extras| - 1;
      FlatExtras(known, extras[..k]);
      StrippedIsNameOf(extras[k]);
      assert ExtraGroups(extras) == ExtraGroups(extras[..k]) + [Group(NameOf(extras[k]), extras[k].values)];
      var g := Group(NameOf(extras[k]), extras[k].values);
      assert known + ExtraGroups(extras) == known + ExtraGroups(extras[..k]) + [g];
      assert Flat(known) + ExtraTokens(extras[..k]) + Tokens(g)
          == Flat(known) + (ExtraTokens(extras[..k]) + ["--" + NameOf(extras[k])] + extras[k].values);
      FlatAppend(known + ExtraGroups(extras[..k]), Group(NameOf(extras[k]), extras[k].values));
    }
  }

  lemma ScalarLines(p: Platform, o: Options)
    ensures LineUpTo(p, o, 7) == LineUpTo(p, o, 6) + SlotTokens("dtype", Named(o.dtype))
    ensures LineUpTo(p, o, 8) == LineUpTo(p, o, 7) + SlotTokens("quantization", Named(o.quantization))
    ensures LineUpTo(p, o, 9) == LineUpTo(p, o, 8) + SlotTokens("tool-call-parser", Named(o.toolParser))
    ensures LineUpTo(p, o, 10) == LineUpTo(p, o, 9) + SlotTokens("reasoning-parser", Named(o.reasoningParser))
  {
    hide LineUpTo, SlotTokens, Slots, Named;
    ScalarSlot(p, o, 0);
    ScalarSlot(p, o, 1);
    ScalarSlot(p, o, 2);
    ScalarSlot(p, o, 3);
    NextSlot(p, o, 6, "dtype", Named(o.dtype));
    NextSlot(p, o, 7, "quantization", Named(o.quantization));
    NextSlot(p, o, 8, "tool-call-parser", Named(o.toolParser));
    NextSlot(p, o, 9, "reasoning-parser", Named(o.reasoningParser));
  }

  lemma NamedTokens(flag: string, name: string, s: string)
    requires flag == "--" + name
    ensures SlotTokens(name, Named(s)) == Texted(flag, s)
  {
  }

  lemma OtherTokens(p: Platform, flag: string, name: string, n: int, x: Double, on: bool)
    requires flag == "--" + name
    ensures SlotTokens(name, Counted(n)) == Numbered(flag, n) && SlotTokens(name, Switch(on)) == Switched(flag, on)
    ensures SlotTokens(name, Fraction(p, x)) == Fractioned(p, flag, x)
  {
    hide Decimal;
  }

  lemma HeadIsSpelled(p: Platform, o: Options)
    requires o.port > 0
    ensures LineUpTo(p, o, 2) == SpelledHead(o)
  {
    hide LineUpTo, Decimal;
    FirstTokens(p, o);
    assert "--" + "host" == "--host" && "--" + "port" == "--port";
  }

  lemma NumbersAreSpelled(p: Platform, o: Options)
    requires o.port > 0
    ensures LineUpTo(p, o, 6) == SpelledNumbers(p, o)
  {
    hide LineUpTo, SlotTokens, Counted, Fraction, Numbered, Fractioned, SpelledHead, SpelledNumbers;
    HeadIsSpelled(p, o);
    var a := TensorToken(p, o);
    var b := PipelineToken(p, o);
    var d := MemoryToken(p, o);
    var e := LengthToken(p, o);
    NumbersJoined(p, o, a, b, d, e);
  }

  lemma TensorToken(p: Platform, o: Options) returns (t: seq<string>)
    ensures t == Numbered("--tensor-parallel-size", o.tensor) && LineUpTo(p, o, 3) == LineUpTo(p, o, 2) + t
  {
    hide LineUpTo, SlotTokens, Counted, Fraction, Numbered, Fractioned;
    LeadingLines(p, o);
    OtherTokens(p, "--tensor-parallel-size", "tensor-parallel-size", o.tensor, o.memory, true);
    t := SlotTokens("tensor-parallel-size", Counted(o.tensor));
  }

  lemma PipelineToken(p: Platform, o: Options) returns (t: seq<string>)
    ensures t == Numbered("--pipeline-parallel-size", o.pipeline) && LineUpTo(p, o, 4) == LineUpTo(p, o, 3) + t
  {
    hide LineUpTo, SlotTokens, Counted, Fraction, Numbered, Fractioned;
    LeadingLines(p, o);
    OtherTokens(p, "--pipeline-parallel-size", "pipeline-parallel-size", o.pipeline, o.memory, true);
    t := SlotTokens("pipeline-parallel-size", Counted(o.pipeline));
  }

  lemma MemoryToken(p: Platform, o: Options) returns (t: seq<string>)
    ensures t == Fractioned(p, "--gpu-memory-utilization", o.memory) && LineUpTo(p, o, 5) == LineUpTo(p, o, 4) + t
  {
    hide LineUpTo, SlotTokens, Counted, Fraction, Numbered, Fractioned;
    LeadingLines(p, o);
    OtherTokens(p, "--gpu-memory-utilization", "gpu-memory-utilization", 0, o.memory, true);
    t := SlotTokens("gpu-memory-utilization", Fraction(p, o.memory));
  }

  lemma LengthToken(p: Platform, o: Options) returns (t: seq<string>)
    ensures t == Numbered("--max-model-len", o.maxLen) && LineUpTo(p, o, 6) == LineUpTo(p, o, 5) + t
  {
    hide LineUpTo, SlotTokens, Counted, Fraction, Numbered, Fractioned;
    LeadingLines(p, o);
    OtherTokens(p, "--max-model-len", "max-model-len", o.maxLen, o.memory, true);
    t := SlotTokens("max-model-len", Counted(o.maxLen));
  }

  lemma NumbersJoined(p: Platform, o: Options, a: seq<string>, b: seq<string>, d: seq<string>, e: seq<string>)
    requires a == Numbered("--tensor-parallel-size", o.tensor) && b == Numbered("--pipeline-parallel-size", o.pipeline)
    requires d == Fractioned(p, "--gpu-memory-utilization", o.memory) && e == Numbered("--max-model-len", o.maxLen)
    ensures SpelledNumbers(p, o) == SpelledHead(o) + a + b + d + e
  {
    hide Numbered, Fractioned, SpelledHead;
  }

  /** An accepted command line is the spelled one. */
  lemma LineIsSpelled(p: Platform, o: Options)
    requires o.port > 0
    ensures CommandLine(p, o) == Spelled(p, o)
  {
    hide LineUpTo, Texted, Switched, ExtraTokens, SpelledNumbers, CommandLine, Spelled;
    NumbersAreSpelled(p, o);
    var a, b := ScalarTokens(p, o);
    var d, e := MoreScalarTokens(p, o);
    var f, g, h := LastTokens(p, o);
    NamedJoined(p, o, a, b, d, e, f, g, h);
    ExtrasFollow(p, o);
  }

  lemma ScalarTokens(p: Platform, o: Options) returns (a: seq<string>, b: seq<string>)
    ensures a == Texted("--dtype", o.dtype) && b == Texted("--quantization", o.quantization)
    ensures LineUpTo(p, o, 8) == LineUpTo(p, o, 6) + a + b
  {
    hide LineUpTo, SlotTokens, Named, Texted;
    ScalarLines(p, o);
    NamedTokens("--dtype", "dtype", o.dtype);
    NamedTokens("--quantization", "quantization", o.quantization);
    a, b := SlotTokens("dtype", Named(o.dtype)), SlotTokens("quantization", Named(o.quantization));
  }

  lemma MoreScalarTokens(p: Platform, o: Options) returns (a: seq<string>, b: seq<string>)
    ensures a == Texted("--tool-call-parser", o.toolParser) && b == Texted("--reasoning-parser", o.reasoningParser)
    ensures LineUpTo(p, o, 10) == LineUpTo(p, o, 8) + a + b
  {
    hide LineUpTo, SlotTokens, Named, Texted;
    ScalarLines(p, o);
    NamedTokens("--tool-call-parser", "tool-call-parser", o.toolParser);
    NamedTokens("--reasoning-parser", "reasoning-parser", o.reasoningParser);
    a, b := SlotTokens("tool-call-parser", Named(o.toolParser)), SlotTokens("reasoning-parser", Named(o.reasoningParser));
  }

  lemma LastTokens(p: Platform, o: Options) returns (a: seq<string>, b: seq<string>, c: seq<string>)
    ensures a == Switched("--trust-remote-code", o.trust) && b == Switched("--enable-auto-tool-choice", o.autoTool)
    ensures c == Texted("--served-model-name", o.servedName)
    ensures LineUpTo(p, o, 13) == LineUpTo(p, o, 10) + a + b + c
  {
    hide LineUpTo, SlotTokens, Named, Switch, Texted, Switched;
    NamedLines(p, o);
    OtherTokens(p, "--trust-remote-code", "trust-remote-code", 0, o.memory, o.trust);
    OtherTokens(p, "--enable-auto-tool-choice", "enable-auto-tool-choice", 0, o.memory, o.autoTool);
    NamedTokens("--served-model-name", "served-model-name", o.servedName);
    a, b := SlotTokens("trust-remote-code", Switch(o.trust)), SlotTokens("enable-auto-tool-choice", Switch(o.autoTool));
    c := SlotTokens("served-model-name", Named(o.servedName));
  }

  lemma NamedJoined(p: Platform, o: Options, a: seq<string>, b: seq<string>, d: seq<string>, e: seq<string>,
                    f: seq<string>, g: seq<string>, h: seq<string>)
    requires a == Texted("--dtype", o.dtype) && b == Texted("--quantization", o.quantization)
    requires d == Texted("--tool-call-parser", o.toolParser) && e == Texted("--reasoning-parser", o.reasoningParser)
    requires f == Switched("--trust-remote-code", o.trust) && g == Switched("--enable-auto-tool-choice", o.autoTool)
    requires h == Texted("--served-model-name", o.servedName)
    ensures Spelled(p, o) == SpelledNumbers(p, o) + a + b + d + e + f + g + h + ExtraTokens(o.extras)
  {
    hide Texted, Switched, ExtraTokens, SpelledNumbers;
  }

  lemma ExtrasFollow(p: Platform, o: Options)
    ensures CommandLine(p, o) == LineUpTo(p, o, 13) + ExtraTokens(o.extras)
  {
    hide Slots, Compact, Flat, LineUpTo, ExtraTokens, ExtraGroups;
    WholeLine(p, o);
    FlatExtras(Compact(NAMES, Slots(p, o)), o.extras);
  }

  /** Build the argument list, or name a rule the options break. */
  method BuildArgs(p: Platform, o: Options) returns (r: Result<seq<string>>)
    ensures r.Err? ==> Breaks(p, o, r.error)
    ensures r.Ok? ==> Accepted(p, o) && r.value == CommandLine(p, o)
    ensures r.Ok? <==> Accepted(p, o)
    ensures r.Ok? ==> r.value == Spelled(p, o)
  {
    r := BuildLine(p, o);
    if r.Ok? {
      assert !Breaks(p, o, BadPort);
      LineIsSpelled(p, o);
    }
  }

  method BuildLine(p: Platform, o: Options) returns (r: Result<seq<string>>)
    ensures r.Err? ==> Breaks(p, o, r.error)
    ensures r.Ok? ==> Accepted(p, o) && r.value == CommandLine(p, o)
  {
    hide LineUpTo, Slots, Compact, Flat, Accepted, ExtraGroups, ExtrasOk, Bounded, GpusOk, ScalarOk;
    r := LeadingArguments(p, o);
    if r.Err? { return; }
    r := NamedArguments(p, o, r.value);
    if r.Err? { return; }
    if |o.extras| > MAX_EXTRAS { return Err(ManyExtras); }
    WholeLine(p, o);
    r := AppendExtras(r.value, ["serve", o.model], Compact(NAMES, Slots(p, o)), o.extras);
    if r.Ok? { NoFault(p, o); }
  }

  /** The model, the numbers, and the checks that come before the named options. */
  method LeadingArguments(p: Platform, o: Options) returns (r: Result<seq<string>>)
    ensures r.Err? ==> Breaks(p, o, r.error)
    ensures r.Ok? ==> r.value == LineUpTo(p, o, 6)
    ensures r.Ok? ==> !Breaks(p, o, BadModel) && !Breaks(p, o, BadPort) && !Breaks(p, o, BadHost) && !Breaks(p, o, BadParallel)
    ensures r.Ok? ==> !Breaks(p, o, ManyGpus) && !Breaks(p, o, BadGpus) && !Breaks(p, o, BadMemory) && !Breaks(p, o, BadMaxLen)
  {
    hide LineUpTo, Decimal, Bounded, GpusOk, Slots, SlotTokens;
    LeadingLines(p, o);
    NoGpus();
    var ok := ValidateBoundedArgument(o.model, MAX_MODEL, false);
    if !ok { return Err(BadModel); }
    if o.port < 1 || o.port > 65535 { return Err(BadPort); }
    var host := if o.host == "" then "127.0.0.1" else o.host;
    if host != "localhost" && !p.loopback(host) { return Err(BadHost); }
    if o.tensor < 0 || o.tensor > MAX_PARALLEL || o.pipeline < 0 || o.pipeline > MAX_PARALLEL { return Err(BadParallel); }
    var a := ["serve", o.model, "--" + "host", host, "--" + "port", Decimal(o.port)];
    FirstTokens(p, o);
    if o.tensor > 0 { a := a + ["--" + "tensor-parallel-size", Decimal(o.tensor)]; }
    assert a == LineUpTo(p, o, 3);
    if o.pipeline > 0 { a := a + ["--" + "pipeline-parallel-size", Decimal(o.pipeline)]; }
    assert a == LineUpTo(p, o, 4);
    if |o.gpus| > MAX_GPUS { return Err(ManyGpus); }
    if |o.gpus| > 0 {
      ok := ValidGpus(o.gpus);
      if !ok { return Err(BadGpus); }
    }
    if !o.memory.Finite? || o.memory.units < 0 || o.memory.units > p.one { return Err(BadMemory); }
    if o.memory.units > 0 { a := a + ["--" + "gpu-memory-utilization", p.format(o.memory.units)]; }
    assert a == LineUpTo(p, o, 5);
    if o.maxLen < 0 || o.maxLen > MAX_MODEL_LEN { return Err(BadMaxLen); }
    if o.maxLen > 0 { a := a + ["--" + "max-model-len", Decimal(o.maxLen)]; }
    assert a == LineUpTo(p, o, 6);
    r := Ok(a);
  }

  /** The four scalar options, the two switches and the served name. */
  method NamedArguments(p: Platform, o: Options, argv: seq<string>) returns (r: Result<seq<string>>)
    requires argv == LineUpTo(p, o, 6)
    ensures r.Err? ==> Breaks(p, o, r.error)
    ensures r.Ok? ==> r.value == LineUpTo(p, o, 13) && !Breaks(p, o, BadScalar) && !Breaks(p, o, BadServedName)
  {
    hide LineUpTo, Bounded, Slots, SlotTokens;
    NamedLines(p, o);
    var a := argv;
    var scalars := [("dtype", o.dtype), ("quantization", o.quantization),
                    ("tool-call-parser", o.toolParser), ("reasoning-parser", o.reasoningParser)];
    for i := 0 to 4
      invariant a == LineUpTo(p, o, 6 + i)
      invariant forall j :: 0 <= j < i ==> ScalarOk(scalars[j].1)
    {
      if scalars[i].1 != "" {
        var ok := ValidateBoundedArgument(scalars[i].1, MAX_SCALAR, true);
        if !ok {
          assert !ScalarOk(scalars[i].1);
          return Err(BadScalar);
        }
        a := a + ["--" + scalars[i].0, scalars[i].1];
      }
      ScalarSlot(p, o, i);
      NextSlot(p, o, 6 + i, scalars[i].0, Named(scalars[i].1));
    }
    assert ScalarOk(scalars[0].1) && ScalarOk(scalars[1].1) && ScalarOk(scalars[2].1) && ScalarOk(scalars[3].1);
    if o.trust { a := a + ["--" + "trust-remote-code"]; }
    assert a == LineUpTo(p, o, 11);
    if o.autoTool { a := a + ["--" + "enable-auto-tool-choice"]; }
    assert a == LineUpTo(p, o, 12);
    if o.servedName != "" {
      var ok := ValidateBoundedArgument(o.servedName, MAX_SERVED_NAME, false);
      if !ok { return Err(BadServedName); }
      a := a + ["--" + "served-model-name", o.servedName];
    }
    r := Ok(a);
  }

  lemma KnownSlots(p: Platform, o: Options)
    ensures var s := Slots(p, o);
      && s[2] == Counted(o.tensor) && s[3] == Counted(o.pipeline) && s[4] == Fraction(p, o.memory) && s[5] == Counted(o.maxLen)
      && s[10] == Switch(o.trust) && s[11] == Switch(o.autoTool) && s[12] == Named(o.servedName)
  {
  }

  lemma LeadingLines(p: Platform, o: Options)
    ensures LineUpTo(p, o, 3) == LineUpTo(p, o, 2) + SlotTokens("tensor-parallel-size", Counted(o.tensor))
    ensures LineUpTo(p, o, 4) == LineUpTo(p, o, 3) + SlotTokens("pipeline-parallel-size", Counted(o.pipeline))
    ensures LineUpTo(p, o, 5) == LineUpTo(p, o, 4) + SlotTokens("gpu-memory-utilization", Fraction(p, o.memory))
    ensures LineUpTo(p, o, 6) == LineUpTo(p, o, 5) + SlotTokens("max-model-len", Counted(o.maxLen))
  {
    hide LineUpTo, SlotTokens, Slots, Counted, Fraction;
    KnownSlots(p, o);
    NextSlot(p, o, 2, "tensor-parallel-size", Counted(o.tensor));
    NextSlot(p, o, 3, "pipeline-parallel-size", Counted(o.pipeline));
    NextSlot(p, o, 4, "gpu-memory-utilization", Fraction(p, o.memory));
    NextSlot(p, o, 5, "max-model-len", Counted(o.maxLen));
  }

  lemma NamedLines(p: Platform, o: Options)
    ensures LineUpTo(p, o, 11) == LineUpTo(p, o, 10) + SlotTokens("trust-remote-code", Switch(o.trust))
    ensures LineUpTo(p, o, 12) == LineUpTo(p, o, 11) + SlotTokens("enable-auto-tool-choice", Switch(o.autoTool))
    ensures LineUpTo(p, o, 13) == LineUpTo(p, o, 12) + SlotTokens("served-model-name", Named(o.servedName))
  {
    hide LineUpTo, SlotTokens, Slots, Switch, Named;
    KnownSlots(p, o);
    NextSlot(p, o, 10, "trust-remote-code", Switch(o.trust));
    NextSlot(p, o, 11, "enable-auto-tool-choice", Switch(o.autoTool));
    NextSlot(p, o, 12, "served-model-name", Named(o.servedName));
  }

  lemma NoGpus()
    ensures GpusOk([])
  {
  }

  lemma ScalarSlot(p: Platform, o: Options, i: nat)
    requires i < 4
    ensures var scalars := [("dtype", o.dtype), ("quantization", o.quantization),
                            ("tool-call-parser", o.toolParser), ("reasoning-parser", o.reasoningParser)];
            NAMES[6 + i] == scalars[i].0 && Slots(p, o)[6 + i] == Named(scalars[i].1)
  {
    hide Named;
    if i == 0 {} else if i == 1 {} else if i == 2 {} else {}
  }

  lemma WholeLine(p: Platform, o: Options)
    ensures LineUpTo(p, o, 13) == ["serve", o.model] + Flat(Compact(NAMES, Slots(p, o)))
  {
    hide Slots;
    assert NAMES[..13] == NAMES && Slots(p, o)[..13] == Slots(p, o);
  }

  /** The last part of the builder: the extra arguments and their budget. */
  method AppendExtras(argv: seq<string>, head: seq<string>, ghost known: seq<Group>, extras: seq<Extra>) returns (r: Result<seq<string>>)
    requires argv == head + Flat(known)
    ensures r.Ok? <==> ExtrasOk(extras)
    ensures r.Ok? ==> r.value == head + Flat(known + ExtraGroups(extras))
    ensures r.Err? ==> r.error == BadExtra
  {
    hide Flat, ExtraOk, ExtrasOk, Charged, ByteLength, SumBytes, Stripped;
    var a, seen, extraBytes := argv, {}, 0;
    NoExtras();
    assert known + ExtraGroups(extras[..0]) == known;
    for k := 0 to |extras|
      invariant a == head + Flat(known + ExtraGroups(extras[..k]))
      invariant ExtrasOk(extras[..k]) && extraBytes == Charged(extras[..k])
      invariant seen == set x | x in extras[..k] :: Stripped(x.name)
    {
      var x := extras[k];
      var n := Stripped(x.name);
      assert extras[..k + 1] == extras[..k] + [x];
      if n in seen {
        ghost var j :| 0 <= j < k && Stripped(extras[j].name) == n;
        RepeatRefused(extras, j, k);
        return Err(BadExtra);
      }
      var ok, total := CheckExtra(x, extraBytes);
      ExtraAccepted(extras, k);
      if !ok { return Err(BadExtra); }
      seen, extraBytes := seen + {n}, total;
      a := a + ["--" + n];
      a := a + x.values;
      FlatAppend(known + ExtraGroups(extras[..k]), Group(n, x.values));
      assert ExtraGroups(extras[..k + 1]) == ExtraGroups(extras[..k]) + [Group(n, x.values)];
      assert known + ExtraGroups(extras[..k + 1]) == known + ExtraGroups(extras[..k]) + [Group(n, x.values)];
    }
    assert extras[..|extras|] == extras;
    r := Ok(a);
  }

  /** One extra: its name, its values, and the budget after each value. */
  method CheckExtra(x: Extra, extraBytes: nat) returns (ok: bool, total: nat)
    ensures var charge := extraBytes + ByteLength(Stripped(x.name)) + 2 + SumBytes(x.values);
      && (ok <==> ExtraOk(x) && (x.values != [] ==> charge <= MAX_EXTRA_BYTES))
      && (ok ==> total == charge)
  {
    hide ByteLength, Bounded, ValidExtraName, Stripped;
    var n := Stripped(x.name);
    total := extraBytes;
    if ByteLength(n) > MAX_EXTRA_NAME || !ValidExtraName(n) || n in RESERVED { return false, total; }
    if |x.values| > MAX_EXTRA_VALUES { return false, total; }
    total := total + ByteLength(n) + 2;
    assert x.values[..0] == [];
    for i := 0 to |x.values|
      invariant total == extraBytes + ByteLength(n) + 2 + SumBytes(x.values[..i])
      invariant i > 0 ==> total <= MAX_EXTRA_BYTES
      invariant forall j :: 0 <= j < i ==> Bounded(x.values[j], MAX_EXTRA_VALUE, false)
    {
      var value := x.values[i];
      ok := ValidateBoundedArgument(value, MAX_EXTRA_VALUE, false);
      if !ok { return false, total; }
      total := total + ByteLength(value);
      assert x.values[..i + 1][..i] == x.values[..i];
      if total > MAX_EXTRA_BYTES {
        SumGrows(x.values, i + 1);
        return false, total;
      }
    }
    assert x.values[..|x.values|] == x.values;
    ok := true;
  }

  lemma {:induction false} SumGrows(values: seq<string>, k: nat)
    requires k <= |values|
    ensures SumBytes(values[..k]) <= SumBytes(values)
    decreases |values|
  {
    if k == |values| {
      assert values[..k] == values;
    } else {
      SumGrows(values[..|values| - 1], k);
      assert values[..|values| - 1][..k] == values[..k];
    }
  }

  /** One more extra is accepted exactly when it is acceptable, new, and within the budget. */
  lemma ExtraAccepted(extras: seq<Extra>, k: nat)
    requires k < |extras| && ExtrasOk(extras[..k])
    requires forall j :: 0 <= j < k ==> Stripped(extras[j].name) != Stripped(extras[k].name)
    ensures var charge := Charged(extras[..k]) + ByteLength(Stripped(extras[k].name)) + 2 + SumBytes(extras[k].values);
      && Charged(extras[..k + 1]) == charge
      && (ExtrasOk(extras[..k + 1]) <==> ExtraOk(extras[k]) && (extras[k].values != [] ==> charge <= MAX_EXTRA_BYTES))
      && (!ExtrasOk(extras[..k + 1]) ==> !ExtrasOk(extras))
  {
    hide ExtraOk, ExtrasOk;
    var longer := extras[..k + 1];
    ChargedNext(extras, k);
    ExtrasPrefix(longer, k);
    assert longer[..k] == extras[..k];
    if ExtrasOk(extras) { ExtrasPrefix(extras, k + 1); }
    assert longer[..k + 1] == longer;
    OneMore(longer, k);
  }

  lemma NoExtras()
    ensures ExtrasOk([]) && Charged([]) == 0
  {
  }

  lemma RepeatRefused(extras: seq<Extra>, j: nat, k: nat)
    requires j < k < |extras| && Stripped(extras[j].name) == Stripped(extras[k].name)
    ensures !ExtrasOk(extras)
  {
    hide Stripped, ExtraOk, WithinBudget;
  }

  lemma ChargedNext(extras: seq<Extra>, k: nat)
    requires k < |extras|
    ensures Charged(extras[..k + 1]) == Charged(extras[..k]) + ByteLength(Stripped(extras[k].name)) + 2 + SumBytes(extras[k].values)
  {
    assert extras[..k + 1][..k] == extras[..k];
  }

  lemma ExtrasPrefix(extras: seq<Extra>, k: nat)
    requires k <= |extras|
    ensures ExtrasOk(extras) ==> ExtrasOk(extras[..k])
    ensures forall i :: 0 <= i < k ==> (WithinBudget(extras[..k], i) <==> WithinBudget(extras, i))
  {
    hide ExtraOk;
    forall i | 0 <= i < k ensures WithinBudget(extras[..k], i) <==> WithinBudget(extras, i) {
      assert extras[..k][..i + 1] == extras[..i + 1];
    }
  }

  lemma OneMore(extras: seq<Extra>, k: nat)
    requires |extras| == k + 1 && ExtrasOk(extras[..k])
    requires forall i :: 0 <= i < k ==> (WithinBudget(extras[..k], i) <==> WithinBudget(extras, i))
    requires forall j :: 0 <= j < k ==> Stripped(extras[j].name) != Stripped(extras[k].name)
    ensures ExtrasOk(extras) <==> ExtraOk(extras[k]) && WithinBudget(extras, k)
  {
    hide ExtraOk, WithinBudget, Stripped;
    var before := extras[..k];
    assert forall i :: 0 <= i < k ==> before[i] == extras[i];
  }
}

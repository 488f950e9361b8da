/** The command line of the runtime: what is accepted, what is emitted, and how to read it back.

    Whether a host is a loopback address and how a fraction is printed are parameters,
    gathered in a `Platform`; a double is counted in units of the smallest positive one. */
module Arguments {
  import opened Wrappers
  import opened Coordinates

  const MAX_MODEL: nat := 4096
  const MAX_SCALAR: nat := 256
  const MAX_SERVED_NAME: nat := 512
  const MAX_PARALLEL: nat := 1024
  const MAX_GPUS: nat := 64
  const MAX_GPU_INDEX: nat := 1023
  const MAX_MODEL_LEN: nat := 2147483647
  const MAX_EXTRAS: nat := 64
  const MAX_EXTRA_NAME: nat := 128
  const MAX_EXTRA_VALUES: nat := 64
  const MAX_EXTRA_VALUE: nat := 4096
  const MAX_EXTRA_BYTES: nat := 65536

  datatype Double = NaN | Infinite(negative: bool) | Finite(units: int)
  datatype Extra = Extra(name: string, values: seq<string>)
  datatype Options = Options(model: string, host: string, port: int, tensor: int, pipeline: int, gpus: seq<int>,
                             memory: Double, maxLen: int, dtype: string, quantization: string, trust: bool,
                             toolParser: string, reasoningParser: string, autoTool: bool, servedName: string,
                             extras: seq<Extra>)

  datatype Platform = Platform(loopback: string -> bool, one: nat, format: nat -> string, parse: string -> nat)

  /** All that is used of the platform: loopback addresses and printed fractions start with no
      dash, and a printed fraction reads back as itself. */
  ghost predicate Sound(p: Platform) {
    && (forall h :: p.loopback(h) ==> h != "" && h[0] != '-')
    && (forall x :: 0 < x <= p.one ==> p.format(x) != "" && p.format(x)[0] != '-' && p.parse(p.format(x)) == x)
  }

  // ---- numbers ----

  function Decimal(n: nat): (s: string)
    ensures s != "" && forall i :: 0 <= i < |s| ==> Digit(s[i])
  {
    var last := [('0' as int + n % 10) as char];
    if n < 10 then last else Decimal(n / 10) + last
  }

  function Number(s: string): nat {
    if s == "" || !Digit(s[|s| - 1]) then 0 else 10 * Number(s[..|s| - 1]) + (s[|s| - 1] as int - '0' as int)
  }

  lemma {:induction false} NumberOfDecimal(n: nat)
    ensures Number(Decimal(n)) == n
  {
    var s := Decimal(n);
    if n >= 10 {
      NumberOfDecimal(n / 10);
      assert s[..|s| - 1] == Decimal(n / 10);
    } else {
      assert s[..|s| - 1] == "";
    }
  }

  // ---- validation ----

  predicate Plain(s: string) { s != "" && s[0] != '-' }

  predicate Bounded(s: string, max: nat, noSpace: bool) {
    && Plain(s) && ByteLength(s) <= max
    && forall i :: 0 <= i < |s| ==> !IsControl(s[i]) && !(noSpace && IsSpace(s[i]))
  }

  predicate ValidExtraName(s: string) {
    && Plain(s)
    && forall i :: 0 <= i < |s| ==> Letter(s[i]) || (i > 0 && (Digit(s[i]) || s[i] == '-' || s[i] == '_'))
  }

  const RESERVED := ["model", "host", "port", "tensor-parallel-size", "pipeline-parallel-size", "gpu-memory-utilization",
                     "max-model-len", "dtype", "quantization", "trust-remote-code", "tool-call-parser", "reasoning-parser",
                     "enable-auto-tool-choice", "served-model-name"]

  /** The optional leading dashes of an extra name are dropped. */
  function Stripped(name: string): string { if "--" <= name then name[2..] else name }

  function SumBytes(values: seq<string>): nat {
    if values == [] then 0 else SumBytes(values[..|values| - 1]) + ByteLength(values[|values| - 1])
  }

  /** What the extras add to the command line, names with their dashes included. */
  function Charged(extras: seq<Extra>): nat {
    if extras == [] then 0
    else
      var x := extras[|extras| - 1];
      Charged(extras[..|extras| - 1]) + ByteLength(Stripped(x.name)) + 2 + SumBytes(x.values)
  }

  predicate ExtraOk(x: Extra) {
    var n := Stripped(x.name);
    && ByteLength(n) <= MAX_EXTRA_NAME && ValidExtraName(n) && n !in RESERVED
    && |x.values| <= MAX_EXTRA_VALUES
    && forall i :: 0 <= i < |x.values| ==> Bounded(x.values[i], MAX_EXTRA_VALUE, false)
  }

  predicate WithinBudget(extras: seq<Extra>, i: nat)
    requires i < |extras|
  {
    extras[i].values != [] ==> Charged(extras[..i + 1]) <= MAX_EXTRA_BYTES
  }

  /** The total is compared with its limit after each value, hence not after a name that has none. */
  predicate ExtrasOk(extras: seq<Extra>) {
    && (forall i :: 0 <= i < |extras| ==> ExtraOk(extras[i]))
    && (forall i, j :: 0 <= i < j < |extras| ==> Stripped(extras[i].name) != Stripped(extras[j].name))
    && (forall i :: 0 <= i < |extras| ==> WithinBudget(extras, i))
  }

  function HostOf(o: Options): string { if o.host == "" then "127.0.0.1" else o.host }

  predicate GpusOk(gpus: seq<int>) {
    && (forall i :: 0 <= i < |gpus| ==> 0 <= gpus[i] <= MAX_GPU_INDEX)
    && (forall i, j :: 0 <= i < j < |gpus| ==> gpus[i] != gpus[j])
  }

  predicate ScalarOk(s: string) { s == "" || Bounded(s, MAX_SCALAR, true) }

  datatype Fault =
    | BadModel | BadPort | BadHost | BadParallel | ManyGpus | BadGpus | BadMemory | BadMaxLen | BadScalar
    | BadServedName | ManyExtras | BadExtra

  /** Whether the options break the rule a fault names. */
  predicate Breaks(p: Platform, o: Options, fault: Fault) {
    match fault
    case BadModel => !Bounded(o.model, MAX_MODEL, false)
    case BadPort => !(1 <= o.port <= 65535)
    case BadHost => HostOf(o) != "localhost" && !p.loopback(HostOf(o))
    case BadParallel => !(0 <= o.tensor <= MAX_PARALLEL && 0 <= o.pipeline <= MAX_PARALLEL)
    case ManyGpus => |o.gpus| > MAX_GPUS
    case BadGpus => !GpusOk(o.gpus)
    case BadMemory => !(o.memory.Finite? && 0 <= o.memory.units <= p.one)
    case BadMaxLen => !(0 <= o.maxLen <= MAX_MODEL_LEN)
    case BadScalar => !(ScalarOk(o.dtype) && ScalarOk(o.quantization) && ScalarOk(o.toolParser) && ScalarOk(o.reasoningParser))
    case BadServedName => o.servedName != "" && !Bounded(o.servedName, MAX_SERVED_NAME, false)
    case ManyExtras => |o.extras| > MAX_EXTRAS
    case BadExtra => !ExtrasOk(o.extras)
  }

  ghost predicate Accepted(p: Platform, o: Options) { forall fault :: !Breaks(p, o, fault) }

  // ---- the command line ----

  /** A flag, by its name without dashes, and the values that follow it. */
  datatype Group = Group(name: string, values: seq<string>)

  function Tokens(g: Group): seq<string> { ["--" + g.name] + g.values }

  function Flat(groups: seq<Group>): seq<string> {
    if groups == [] then [] else Flat(groups[..|groups| - 1]) + Tokens(groups[|groups| - 1])
  }

  const NAMES := ["host", "port", "tensor-parallel-size", "pipeline-parallel-size", "gpu-memory-utilization", "max-model-len",
                  "dtype", "quantization", "tool-call-parser", "reasoning-parser", "trust-remote-code",
                  "enable-auto-tool-choice", "served-model-name"]

  function Counted(n: int): Option<seq<string>> { if n > 0 then Some([Decimal(n)]) else None }
  function Named(s: string): Option<seq<string>> { if s != "" then Some([s]) else None }
  function Switch(b: bool): Option<seq<string>> { if b then Some([]) else None }
  function Fraction(p: Platform, x: Double): Option<seq<string>> {
    if x.Finite? && x.units > 0 then Some([p.format(x.units)]) else None
  }

  /** The values of each option, in the order of `NAMES`; an absent option has none. */
  function Slots(p: Platform, o: Options): (slots: seq<Option<seq<string>>>)
    ensures |slots| == |NAMES|
  {
    [Some([HostOf(o)]), Counted(o.port), Counted(o.tensor), Counted(o.pipeline), Fraction(p, o.memory), Counted(o.maxLen),
     Named(o.dtype), Named(o.quantization), Named(o.toolParser), Named(o.reasoningParser), Switch(o.trust),
     Switch(o.autoTool), Named(o.servedName)]
  }

  function Compact(names: seq<string>, slots: seq<Option<seq<string>>>): seq<Group>
    requires |names| == |slots|
  {
    if slots == [] then []
    else
      var k := |slots| - 1;
      Compact(names[..k], slots[..k]) + (if slots[k].Some? then [Group(names[k], slots[k].value)] else [])
  }

  function ExtraGroups(extras: seq<Extra>): seq<Group> {
    seq(|extras|, i requires 0 <= i < |extras| => Group(Stripped(extras[i].name), extras[i].values))
  }

  function GroupsOf(p: Platform, o: Options): seq<Group> { Compact(NAMES, Slots(p, o)) + ExtraGroups(o.extras) }

  function CommandLine(p: Platform, o: Options): seq<string> { ["serve", o.model] + Flat(GroupsOf(p, o)) }

  // ---- reading it back ----

  predicate IsFlag(token: string) { "--" <= token }

  function Regroup(tokens: seq<string>): seq<Group> {
    if tokens == [] then []
    else
      var before, token := Regroup(tokens[..|tokens| - 1]), tokens[|tokens| - 1];
      if IsFlag(token) then before + [Group(token[2..], [])]
      else if before == [] then []
      else before[..|before| - 1] + [before[|before| - 1].(values := before[|before| - 1].values + [token])]
  }

  function Find(groups: seq<Group>, name: string): Option<seq<string>> {
    if groups == [] then None
    else if groups[0].name == name then Some(groups[0].values)
    else Find(groups[1..], name)
  }

  function TextOf(values: Option<seq<string>>): string {
    if values.Some? && |values.value| == 1 then values.value[0] else ""
  }

  function NumberOf(values: Option<seq<string>>): nat { Number(TextOf(values)) }

  function FractionOf(p: Platform, values: Option<seq<string>>): Double {
    if values.None? then Finite(0) else Finite(p.parse(TextOf(values)))
  }

  /** The groups whose names are not the runtime's own. */
  function ExtrasIn(groups: seq<Group>): seq<Extra> {
    if groups == [] then []
    else
      var g := groups[|groups| - 1];
      ExtrasIn(groups[..|groups| - 1]) + if g.name in RESERVED then [] else [Extra(g.name, g.values)]
  }

  function Read(p: Platform, argv: seq<string>): Options
    requires |argv| >= 2
  {
    var gs := Regroup(argv[2..]);
    Options(argv[1], TextOf(Find(gs, "host")), NumberOf(Find(gs, "port")), NumberOf(Find(gs, "tensor-parallel-size")),
            NumberOf(Find(gs, "pipeline-parallel-size")), [], FractionOf(p, Find(gs, "gpu-memory-utilization")),
            NumberOf(Find(gs, "max-model-len")), TextOf(Find(gs, "dtype")), TextOf(Find(gs, "quantization")),
            Find(gs, "trust-remote-code").Some?, TextOf(Find(gs, "tool-call-parser")), TextOf(Find(gs, "reasoning-parser")),
            Find(gs, "enable-auto-tool-choice").Some?, TextOf(Find(gs, "served-model-name")), ExtrasIn(gs))
  }

  /** What the command line is meant to carry: the default host made explicit, extra names
      without dashes, and no device list, which travels in the environment. */
  function Canonical(o: Options): Options {
    o.(host := HostOf(o), gpus := [],
       extras := seq(|o.extras|, i requires 0 <= i < |o.extras| => Extra(Stripped(o.extras[i].name), o.extras[i].values)))
  }
}

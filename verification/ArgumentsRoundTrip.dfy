/** The command line can be read back: every option is recovered from what is emitted for it. */
module ArgumentsRoundTrip {
  import opened Wrappers
  import opened Coordinates
  import opened Arguments

  predicate PlainGroup(g: Group) { forall i :: 0 <= i < |g.values| ==> Plain(g.values[i]) }

  // ---- grouping ----

  lemma FlagOf(name: string)
    ensures IsFlag("--" + name)
  {
  }

  lemma PlainIsNoFlag(s: string)
    requires Plain(s)
    ensures !IsFlag(s)
  {
  }

  lemma RegroupNext(before: seq<string>, token: string)
    ensures IsFlag(token) ==> Regroup(before + [token]) == Regroup(before) + [Group(token[2..], [])]
    ensures !IsFlag(token) ==>
              forall gs, g :: Regroup(before) == gs + [g] ==> Regroup(before + [token]) == gs + [g.(values := g.values + [token])]
  {
    hide IsFlag;
    assert (before + [token])[..|before|] == before;
  }

  lemma {:induction false} RegroupTokens(before: seq<string>, g: Group)
    requires PlainGroup(g)
    ensures Regroup(before + Tokens(g)) == Regroup(before) + [g]
    decreases |g.values|
  {
    hide Plain, IsFlag, Regroup;
    if g.values == [] {
      FlagOf(g.name);
      assert ("--" + g.name)[2..] == g.name;
      RegroupNext(before, "--" + g.name);
      assert Tokens(g) == ["--" + g.name] && g == Group(g.name, []);
    } else {
      var k := |g.values| - 1;
      var shorter, last := Group(g.name, g.values[..k]), g.values[k];
      assert g.values == shorter.values + [last];
      RegroupTokens(before, shorter);
      PlainIsNoFlag(last);
      RegroupNext(before + Tokens(shorter), last);
      assert before + Tokens(g) == before + Tokens(shorter) + [last];
      assert g == shorter.(values := shorter.values + [last]);
    }
  }

  lemma {:induction false} RegroupFlat(groups: seq<Group>)
    requires forall i :: 0 <= i < |groups| ==> PlainGroup(groups[i])
    ensures Regroup(Flat(groups)) == groups
  {
    hide PlainGroup, Tokens, Regroup;
    if groups == [] {
      assert Regroup([]) == [] by { RegroupNothing(); }
    } else {
      var k := |groups| - 1;
      RegroupFlat(groups[..k]);
      RegroupTokens(Flat(groups[..k]), groups[k]);
      assert groups[..k] + [groups[k]] == groups;
    }
  }

  lemma RegroupNothing()
    ensures Regroup([]) == []
  {
  }

  // ---- looking options up ----

  predicate Distinct(names: seq<string>) { forall i, j :: 0 <= i < j < |names| ==> names[i] != names[j] }

  lemma {:induction false} FindConcat(a: seq<Group>, b: seq<Group>, name: string)
    ensures Find(a + b, name) == if Find(a, name).Some? then Find(a, name) else Find(b, name)
  {
    if a == [] {
      assert a + b == b;
    } else if a[0].name != name {
      assert (a + b)[1..] == a[1..] + b;
      FindConcat(a[1..], b, name);
    }
  }

  lemma {:induction false} FindNone(groups: seq<Group>, name: string)
    requires forall i :: 0 <= i < |groups| ==> groups[i].name != name
    ensures Find(groups, name) == None
  {
    if groups != [] { FindNone(groups[1..], name); }
  }

  lemma {:induction false} CompactNames(names: seq<string>, slots: seq<Option<seq<string>>>)
    requires |names| == |slots|
    ensures forall g :: g in Compact(names, slots) ==> exists k :: 0 <= k < |names| && g.name == names[k] && slots[k] == Some(g.values)
    decreases |slots|
  {
    if slots != [] {
      var k := |slots| - 1;
      CompactNames(names[..k], slots[..k]);
      forall g | g in Compact(names, slots) ensures exists j :: 0 <= j < |names| && g.name == names[j] && slots[j] == Some(g.values) {
        if g in Compact(names[..k], slots[..k]) {
          var j :| 0 <= j < k && g.name == names[..k][j] && slots[..k][j] == Some(g.values);
          assert g.name == names[j] && slots[j] == Some(g.values);
        } else {
          assert g.name == names[k] && slots[k] == Some(g.values);
        }
      }
    }
  }

  /** Among distinct names, each option is found exactly where it was put. */
  lemma {:induction false} FindSlot(names: seq<string>, slots: seq<Option<seq<string>>>, k: nat)
    requires |names| == |slots| && k < |names| && Distinct(names)
    ensures Find(Compact(names, slots), names[k]) == slots[k]
    decreases |slots|
  {
    var last := |slots| - 1;
    var before := Compact(names[..last], slots[..last]);
    var own := if slots[last].Some? then [Group(names[last], slots[last].value)] else [];
    FindConcat(before, own, names[k]);
    if k < last {
      FindSlot(names[..last], slots[..last], k);
      FindNone(own, names[k]);
    } else {
      CompactNames(names[..last], slots[..last]);
      FindNone(before, names[k]);
    }
  }

  // ---- names ----

  lemma NamesAreReserved()
    ensures forall k :: 0 <= k < |NAMES| ==> NAMES[k] in RESERVED
  {
    assert NAMES[0] == RESERVED[1] && NAMES[1] == RESERVED[2] && NAMES[2] == RESERVED[3] && NAMES[3] == RESERVED[4];
    assert NAMES[4] == RESERVED[5] && NAMES[5] == RESERVED[6] && NAMES[6] == RESERVED[7] && NAMES[7] == RESERVED[8];
    assert NAMES[8] == RESERVED[10] && NAMES[9] == RESERVED[11] && NAMES[10] == RESERVED[9];
    assert NAMES[11] == RESERVED[12] && NAMES[12] == RESERVED[13];
  }

  lemma NamesAreDistinct()
    ensures Distinct(NAMES)
  {
    forall i, j | 0 <= i < j < |NAMES| ensures NAMES[i] != NAMES[j] {
      assert |NAMES[i]| != |NAMES[j]| || NAMES[i][0] != NAMES[j][0];
    }
  }

  // ---- the whole line ----

  /** The part of acceptance the round trip rests on. */
  lemma AcceptedParts(p: Platform, o: Options)
    requires Accepted(p, o)
    ensures Plain(o.model) && 1 <= o.port && 0 <= o.tensor && 0 <= o.pipeline && 0 <= o.maxLen
    ensures HostOf(o) == "localhost" || p.loopback(HostOf(o))
    ensures o.memory.Finite? && 0 <= o.memory.units <= p.one
    ensures forall s :: s in [o.dtype, o.quantization, o.toolParser, o.reasoningParser, o.servedName] ==> s == "" || Plain(s)
    ensures ExtrasOk(o.extras)
  {
    hide ExtrasOk, ByteLength;
    assert !Breaks(p, o, BadModel) && !Breaks(p, o, BadPort) && !Breaks(p, o, BadHost) && !Breaks(p, o, BadParallel);
    assert !Breaks(p, o, BadMemory) && !Breaks(p, o, BadMaxLen) && !Breaks(p, o, BadScalar) && !Breaks(p, o, BadServedName);
    assert !Breaks(p, o, BadExtra);
  }

  /** An absent option, a switch, or one value that cannot be taken for a flag. */
  predicate PlainSlot(v: Option<seq<string>>) { v.Some? ==> v.value == [] || (|v.value| == 1 && Plain(v.value[0])) }

  lemma HostIsPlain(p: Platform, o: Options)
    requires Sound(p) && (HostOf(o) == "localhost" || p.loopback(HostOf(o)))
    ensures PlainSlot(Some([HostOf(o)]))
  {
  }

  lemma FractionIsPlain(p: Platform, o: Options)
    requires Sound(p) && o.memory.Finite? && 0 <= o.memory.units <= p.one
    ensures PlainSlot(Fraction(p, o.memory))
  {
  }

  lemma CountedIsPlain(n: int)
    ensures PlainSlot(Counted(n))
  {
  }

  lemma NamedIsPlain(s: string, on: bool)
    requires s == "" || Plain(s)
    ensures PlainSlot(Named(s)) && PlainSlot(Switch(on))
  {
  }

  lemma SlotsArePlain(p: Platform, o: Options)
    requires Sound(p) && Accepted(p, o)
    ensures forall k :: 0 <= k < |NAMES| && Slots(p, o)[k].Some? ==> PlainGroup(Group(NAMES[k], Slots(p, o)[k].value))
  {
    hide Accepted, ExtrasOk, Plain, Counted, Named, Switch, Fraction, Slots, HostOf, Sound;
    var slots := Slots(p, o);
    forall k | 0 <= k < |NAMES| && slots[k].Some? ensures PlainGroup(Group(NAMES[k], slots[k].value)) { SlotIsPlain(p, o, k); }
  }

  lemma SlotIsPlain(p: Platform, o: Options, k: nat)
    requires Sound(p) && Accepted(p, o) && k < |NAMES|
    ensures PlainSlot(Slots(p, o)[k])
  {
    hide Accepted, ExtrasOk, Plain, PlainSlot, Counted, Named, Switch, Fraction, HostOf, Sound;
    AcceptedParts(p, o);
    HostIsPlain(p, o);
    FractionIsPlain(p, o);
    forall n: int ensures PlainSlot(Counted(n)) { CountedIsPlain(n); }
    forall on ensures PlainSlot(Switch(on)) { NamedIsPlain("", on); }
    forall s | s in [o.dtype, o.quantization, o.toolParser, o.reasoningParser, o.servedName] ensures PlainSlot(Named(s)) {
      NamedIsPlain(s, true);
    }
  }

  lemma GroupsArePlain(p: Platform, o: Options)
    requires Sound(p) && Accepted(p, o)
    ensures forall i :: 0 <= i < |GroupsOf(p, o)| ==> PlainGroup(GroupsOf(p, o)[i])
  {
    hide Slots, Accepted, Compact;
    AcceptedParts(p, o);
    SlotsArePlain(p, o);
    CompactNames(NAMES, Slots(p, o));
    var known, extras := Compact(NAMES, Slots(p, o)), ExtraGroups(o.extras);
    forall i | 0 <= i < |known| ensures PlainGroup(known[i]) { assert known[i] in known; }
    forall i | 0 <= i < |extras| ensures PlainGroup(extras[i]) { assert ExtraOk(o.extras[i]); }
  }

  /** Looking a name of the runtime up in the whole line finds its slot. */
  lemma FindKnown(p: Platform, o: Options, k: nat)
    requires Accepted(p, o) && k < |NAMES|
    ensures Find(GroupsOf(p, o), NAMES[k]) == Slots(p, o)[k]
  {
    hide Slots, Accepted, Compact;
    AcceptedParts(p, o);
    NamesAreDistinct();
    NamesAreReserved();
    FindSlot(NAMES, Slots(p, o), k);
    var extras := ExtraGroups(o.extras);
    forall i | 0 <= i < |extras| ensures extras[i].name != NAMES[k] { assert ExtraOk(o.extras[i]); }
    FindNone(extras, NAMES[k]);
    FindConcat(Compact(NAMES, Slots(p, o)), extras, NAMES[k]);
  }

  lemma {:induction false} ExtrasInConcat(a: seq<Group>, b: seq<Group>)
    ensures ExtrasIn(a + b) == ExtrasIn(a) + ExtrasIn(b)
    decreases |b|
  {
    if b == [] {
      assert a + b == a;
    } else {
      assert (a + b)[..|a + b| - 1] == a + b[..|b| - 1];
      ExtrasInConcat(a, b[..|b| - 1]);
    }
  }

  lemma {:induction false} ExtrasInKnown(groups: seq<Group>)
    requires forall i :: 0 <= i < |groups| ==> groups[i].name in RESERVED
    ensures ExtrasIn(groups) == []
  {
    if groups != [] { ExtrasInKnown(groups[..|groups| - 1]); }
  }

  lemma {:induction false} ExtrasInOwn(groups: seq<Group>)
    requires forall i :: 0 <= i < |groups| ==> groups[i].name !in RESERVED
    ensures |ExtrasIn(groups)| == |groups|
    ensures forall i :: 0 <= i < |groups| ==> ExtrasIn(groups)[i] == Extra(groups[i].name, groups[i].values)
  {
    hide Tokens;
    if groups != [] { ExtrasInOwn(groups[..|groups| - 1]); }
  }

  lemma ExtrasRecovered(p: Platform, o: Options)
    requires Accepted(p, o)
    ensures ExtrasIn(GroupsOf(p, o)) == Canonical(o).extras
  {
    hide Slots, Accepted, Compact;
    AcceptedParts(p, o);
    NamesAreReserved();
    CompactNames(NAMES, Slots(p, o));
    var known, extras := Compact(NAMES, Slots(p, o)), ExtraGroups(o.extras);
    forall i | 0 <= i < |known| ensures known[i].name in RESERVED { assert known[i] in known; }
    forall i | 0 <= i < |extras| ensures extras[i].name !in RESERVED { assert ExtraOk(o.extras[i]); }
    ExtrasInKnown(known);
    ExtrasInOwn(extras);
    ExtrasInConcat(known, extras);
  }

  lemma CountedReadsBack(n: int)
    requires n >= 0
    ensures NumberOf(Counted(n)) == n
  {
    if n > 0 { NumberOfDecimal(n); }
  }

  lemma AllFound(p: Platform, o: Options)
    requires Accepted(p, o)
    ensures var gs := GroupsOf(p, o);
      && Find(gs, "host") == Some([HostOf(o)]) && Find(gs, "port") == Counted(o.port)
      && Find(gs, "tensor-parallel-size") == Counted(o.tensor) && Find(gs, "pipeline-parallel-size") == Counted(o.pipeline)
      && Find(gs, "gpu-memory-utilization") == Fraction(p, o.memory) && Find(gs, "max-model-len") == Counted(o.maxLen)
      && Find(gs, "dtype") == Named(o.dtype) && Find(gs, "quantization") == Named(o.quantization)
      && Find(gs, "tool-call-parser") == Named(o.toolParser) && Find(gs, "reasoning-parser") == Named(o.reasoningParser)
      && Find(gs, "trust-remote-code") == Switch(o.trust) && Find(gs, "enable-auto-tool-choice") == Switch(o.autoTool)
      && Find(gs, "served-model-name") == Named(o.servedName)
  {
    hide Accepted, GroupsOf, Find, Counted, Fraction, Named, Switch, HostOf;
    FindKnown(p, o, 0); FindKnown(p, o, 1); FindKnown(p, o, 2); FindKnown(p, o, 3); FindKnown(p, o, 4);
    FindKnown(p, o, 5); FindKnown(p, o, 6); FindKnown(p, o, 7); FindKnown(p, o, 8); FindKnown(p, o, 9);
    FindKnown(p, o, 10); FindKnown(p, o, 11); FindKnown(p, o, 12);
  }

  /** The command line of accepted options carries all of them. */
  lemma ReadsBack(p: Platform, o: Options)
    requires Sound(p) && Accepted(p, o)
    ensures Read(p, CommandLine(p, o)) == Canonical(o)
  {
    hide Accepted, ExtrasOk, Regroup, Flat, Find, Decimal, Number, ExtrasIn, GroupsOf, Slots;
    AcceptedParts(p, o);
    GroupsArePlain(p, o);
    RegroupFlat(GroupsOf(p, o));
    assert CommandLine(p, o)[2..] == Flat(GroupsOf(p, o));
    AllFound(p, o);
    CountedReadsBack(o.port);
    CountedReadsBack(o.tensor);
    CountedReadsBack(o.pipeline);
    CountedReadsBack(o.maxLen);
    ExtrasRecovered(p, o);
  }

  /** Hence two accepted requests share a command line only if they ask for the same thing. */
  lemma LineDeterminesOptions(p: Platform, a: Options, b: Options)
    requires Sound(p) && Accepted(p, a) && Accepted(p, b) && CommandLine(p, a) == CommandLine(p, b)
    ensures Canonical(a) == Canonical(b)
  {
    ReadsBack(p, a);
    ReadsBack(p, b);
  }

  // ---- flags never repeat ----

  predicate NoRepeat(groups: seq<Group>) {
    forall i, j :: 0 <= i < j < |groups| ==> groups[i].name != groups[j].name
  }

  lemma NoRepeatConcat(a: seq<Group>, b: seq<Group>)
    requires NoRepeat(a) && NoRepeat(b)
    requires forall i, j :: 0 <= i < |a| && 0 <= j < |b| ==> a[i].name != b[j].name
    ensures NoRepeat(a + b)
  {
    var c := a + b;
    forall i, j | 0 <= i < j < |c| ensures c[i].name != c[j].name {
      if i < |a| && j >= |a| { assert c[i] == a[i] && c[j] == b[j - |a|]; }
    }
  }

  lemma {:induction false} CompactIsDistinct(names: seq<string>, slots: seq<Option<seq<string>>>)
    requires |names| == |slots| && Distinct(names)
    ensures NoRepeat(Compact(names, slots))
    decreases |slots|
  {
    if slots != [] {
      var k := |slots| - 1;
      var before := Compact(names[..k], slots[..k]);
      CompactIsDistinct(names[..k], slots[..k]);
      CompactNames(names[..k], slots[..k]);
      forall i | 0 <= i < |before| ensures before[i].name != names[k] {
        assert before[i] in before;
        var j :| 0 <= j < k && before[i].name == names[..k][j];
        assert names[..k][j] == names[j];
      }
      var own := if slots[k].Some? then [Group(names[k], slots[k].value)] else [];
      NoRepeatConcat(before, own);
    }
  }

  /** No flag is given twice, and an extra never overrides an option of the runtime. */
  lemma FlagsAreDistinct(p: Platform, o: Options)
    requires Accepted(p, o)
    ensures NoRepeat(GroupsOf(p, o))
  {
    hide Slots, Accepted, Compact;
    AcceptedParts(p, o);
    NamesAreReserved();
    NamesAreDistinct();
    CompactIsDistinct(NAMES, Slots(p, o));
    CompactNames(NAMES, Slots(p, o));
    var known, extras := Compact(NAMES, Slots(p, o)), ExtraGroups(o.extras);
    forall i | 0 <= i < |known| ensures known[i].name in RESERVED { assert known[i] in known; }
    forall i | 0 <= i < |extras| ensures extras[i].name == Stripped(o.extras[i].name) && extras[i].name !in RESERVED {
      assert ExtraOk(o.extras[i]);
    }
    NoRepeatConcat(known, extras);
  }

  // ---- how much the extras add ----

  /** What extras that carry no values add to the command line. */
  function NameBytes(extras: seq<Extra>): nat {
    if extras == [] then 0
    else NameBytes(extras[..|extras| - 1]) + ByteLength(Stripped(extras[|extras| - 1].name)) + 2
  }

  lemma ChargedName(extras: seq<Extra>)
    requires extras != [] && extras[|extras| - 1].values == []
    ensures var last := |extras| - 1; Charged(extras) == Charged(extras[..last]) + ByteLength(Stripped(extras[last].name)) + 2
  {
  }

  lemma {:induction false} ChargedNames(extras: seq<Extra>, k: nat)
    requires k <= |extras|
    requires forall i :: k <= i < |extras| ==> extras[i].values == []
    ensures Charged(extras) == Charged(extras[..k]) + NameBytes(extras[k..])
    decreases |extras|
  {
    hide ByteLength, Stripped, Charged;
    var last := |extras| - 1;
    if |extras| == k {
      assert extras[..k] == extras;
    } else {
      ChargedNames(extras[..last], k);
      ChargedName(extras);
      assert extras[..last][..k] == extras[..k] && extras[k..][..last - k] == extras[..last][k..];
    }
  }

  lemma {:induction false} NamesAreShort(extras: seq<Extra>)
    requires forall i :: 0 <= i < |extras| ==> ExtraOk(extras[i])
    ensures NameBytes(extras) <= |extras| * (MAX_EXTRA_NAME + 2)
  {
    hide ExtraOk, ByteLength, Stripped;
    if extras != [] {
      NamesAreShort(extras[..|extras| - 1]);
      NameIsShort(extras[|extras| - 1]);
    }
  }

  lemma NameIsShort(x: Extra)
    requires ExtraOk(x)
    ensures ByteLength(Stripped(x.name)) <= MAX_EXTRA_NAME
  {
  }

  /** The position after the last extra that carries values. */
  function LastValued(extras: seq<Extra>): (k: nat)
    ensures k <= |extras| && (k > 0 ==> extras[k - 1].values != [])
    ensures forall i :: k <= i < |extras| ==> extras[i].values == []
  {
    if extras == [] || extras[|extras| - 1].values != [] then |extras| else LastValued(extras[..|extras| - 1])
  }

  /** The extras of accepted options stay within 64 KiB when the last of them carries values;
      names after it are never counted against the limit, so in general the bound is larger. */
  lemma ExtrasAreBounded(p: Platform, o: Options)
    requires Accepted(p, o)
    ensures Charged(o.extras) <= MAX_EXTRA_BYTES + 63 * (MAX_EXTRA_NAME + 2)
    ensures o.extras != [] && o.extras[|o.extras| - 1].values != [] ==> Charged(o.extras) <= MAX_EXTRA_BYTES
    ensures (forall i :: 0 <= i < |o.extras| ==> o.extras[i].values == []) ==> Charged(o.extras) <= MAX_EXTRA_BYTES
  {
    hide Accepted, ByteLength, ExtraOk;
    AcceptedParts(p, o);
    FewExtras(p, o);
    var k := LastValued(o.extras);
    ChargedNames(o.extras, k);
    NamesAreShort(o.extras[k..]);
    if k > 0 { assert WithinBudget(o.extras, k - 1); }
    TrailingNames(|o.extras| - k);
    assert o.extras[..|o.extras|] == o.extras;
    assert o.extras[..0] == [];
  }

  /** One accepted request keeps the limit exactly when the names after its last values fit into
      what those values have left of it. */
  lemma LimitIsKeptIff(p: Platform, o: Options)
    requires Accepted(p, o)
    ensures var k := LastValued(o.extras);
      && Charged(o.extras[..k]) <= MAX_EXTRA_BYTES
      && (Charged(o.extras) <= MAX_EXTRA_BYTES <==> NameBytes(o.extras[k..]) <= MAX_EXTRA_BYTES - Charged(o.extras[..k]))
  {
    hide Accepted, ByteLength, ExtraOk;
    AcceptedParts(p, o);
    var k := LastValued(o.extras);
    ChargedNames(o.extras, k);
    if k > 0 { assert WithinBudget(o.extras, k - 1); }
  }

  lemma TrailingNames(n: nat)
    requires n <= MAX_EXTRAS
    ensures n * (MAX_EXTRA_NAME + 2) <= 64 * (MAX_EXTRA_NAME + 2)
    ensures n < MAX_EXTRAS ==> n * (MAX_EXTRA_NAME + 2) <= 63 * (MAX_EXTRA_NAME + 2)
  {
  }

  lemma FewExtras(p: Platform, o: Options)
    requires Accepted(p, o)
    ensures |o.extras| <= MAX_EXTRAS
  {
    assert !Breaks(p, o, ManyExtras);
  }

  function Filler(n: nat): (s: string)
    ensures |s| == n && forall i :: 0 <= i < n ==> s[i] == 'x'
  {
    seq(n, _ => 'x')
  }

  function FullValues(n: nat): (values: seq<string>)
    ensures |values| == n && forall i :: 0 <= i < n ==> values[i] == Filler(MAX_EXTRA_VALUE)
  {
    seq(n, _ => Filler(MAX_EXTRA_VALUE))
  }

  lemma {:induction false} FullValuesBytes(n: nat)
    ensures SumBytes(FullValues(n)) == n * MAX_EXTRA_VALUE
  {
    if n > 0 {
      FullValuesBytes(n - 1);
      assert FullValues(n)[..n - 1] == FullValues(n - 1);
      AsciiBytes(Filler(MAX_EXTRA_VALUE));
    }
  }

  /** An extra that uses the budget up to the last byte. */
  function FullExtra(name: string): Extra { Extra(name, FullValues(15) + [Filler(4093)]) }

  /** The limit of 64 KiB is not kept: any name at all, without values, after an extra that uses it
      up makes an accepted list that is longer.  So the condition of `ExtrasAreBounded` on the last
      extra cannot be weakened. */
  lemma ExtrasCanPassTheLimit(last: string)
    requires ExtraOk(Extra(last, []))
    ensures var full := FullExtra(if Stripped(last) == "a" then "b" else "a");
            ExtrasOk([full, Extra(last, [])]) && Charged([full, Extra(last, [])]) > MAX_EXTRA_BYTES
  {
    hide ExtraOk, FullExtra;
    var name := if Stripped(last) == "a" then "b" else "a";
    var full := FullExtra(name);
    FullExtraFits(name);
    var extras := [full, Extra(last, [])];
    assert extras[..1] == [full] && extras[..|extras| - 1] == [full];
    assert WithinBudget(extras, 0) && WithinBudget(extras, 1);
  }

  /** So every accepted request can be asked with extras that pass the limit and still be accepted. */
  lemma AcceptedRequestsPassTheLimit(p: Platform, o: Options, last: string)
    requires Accepted(p, o) && ExtraOk(Extra(last, []))
    ensures var extras := [FullExtra(if Stripped(last) == "a" then "b" else "a"), Extra(last, [])];
            Accepted(p, o.(extras := extras)) && Charged(extras) > MAX_EXTRA_BYTES
  {
    hide ExtraOk, FullExtra, Charged, Accepted, ExtrasOk;
    ExtrasCanPassTheLimit(last);
    OtherExtras(p, o, [FullExtra(if Stripped(last) == "a" then "b" else "a"), Extra(last, [])]);
  }

  lemma OtherExtras(p: Platform, o: Options, extras: seq<Extra>)
    requires Accepted(p, o) && ExtrasOk(extras) && |extras| <= MAX_EXTRAS
    ensures Accepted(p, o.(extras := extras))
  {
    hide ExtrasOk, Bounded, GpusOk, ScalarOk;
    forall fault ensures !Breaks(p, o.(extras := extras), fault) { assert !Breaks(p, o, fault); }
  }

  lemma FullExtraFits(name: string)
    requires name == "a" || name == "b"
    ensures FullExtra(name).name == name && Stripped(name) == name
    ensures ExtraOk(FullExtra(name)) && Charged([FullExtra(name)]) == MAX_EXTRA_BYTES
  {
    hide FullValues, Filler, Bounded, ByteLength;
    var values := FullValues(15) + [Filler(4093)];
    FullValuesBytes(15);
    AsciiBytes(Filler(4093));
    AsciiBytes(name);
    OneLetterIsFree(name);
    assert values[..|values| - 1] == FullValues(15);
    assert SumBytes(values) == 65533;
    assert [FullExtra(name)][..0] == [];
    forall i | 0 <= i < |values| ensures Bounded(values[i], MAX_EXTRA_VALUE, false) {
      FillerIsBounded(MAX_EXTRA_VALUE);
      FillerIsBounded(4093);
    }
  }

  lemma FillerIsBounded(n: nat)
    requires 0 < n <= MAX_EXTRA_VALUE
    ensures Bounded(Filler(n), MAX_EXTRA_VALUE, false)
  {
    hide ByteLength;
    AsciiBytes(Filler(n));
  }

  lemma OneLetterIsFree(name: string)
    requires name == "a" || name == "b"
    ensures name !in RESERVED && Stripped(name) == name && ValidExtraName(name)
  {
    forall i | 0 <= i < |RESERVED| ensures |RESERVED[i]| > 1 {}
  }
}

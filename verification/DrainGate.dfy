/** The gateway's audit writers and the gate that waits for them.

    A request that is to be audited takes one of the slots without waiting, begins a record,
    writes it in the background, finishes the record, and gives the slot back.  While any
    record is open the gate holds an open channel; the last one to finish closes it. */
module DrainGate {
  import opened Wrappers
  import opened Sets

  const SLOTS: nat := 64

  datatype Phase = Holding | Recording | Finished | Released

  /** `epoch` is the channel that was current when the record began. */
  datatype Record = Record(phase: Phase, epoch: nat)

  /** A call that waits: the channel it took, and the records that had begun by then. */
  datatype Waiter = Waiter(channel: nat, begun: set<nat>)

  datatype State = State(slots: nat, count: int, idle: nat, closes: map<nat, nat>, records: map<nat, Record>, waiters: map<nat, Waiter>)

  datatype Step = Acquire(r: nat) | Begin(r: nat) | Finish(r: nat) | Release(r: nat) | Wait(w: nat) | Drained(w: nat) | GiveUp(w: nat)

  /** The channel the gate starts with is closed already. */
  const FRESH: State := State(0, 0, 0, map[0 := 1], map[], map[])

  predicate Is(s: State, r: nat, phase: Phase) { r in s.records && s.records[r].phase == phase }

  function BeginStep(s: State, r: nat): Option<State> {
    if !Is(s, r, Holding) then None
    else
      var t := if s.count == 0 then s.(idle := |s.closes|, closes := s.closes[|s.closes| := 0]) else s;
      Some(t.(count := t.count + 1, records := t.records[r := Record(Recording, t.idle)]))
  }

  function FinishStep(s: State, r: nat): Option<State> {
    if !Is(s, r, Recording) || s.idle !in s.closes then None
    else
      var t := s.(count := s.count - 1, records := s.records[r := s.records[r].(phase := Finished)]);
      Some(if t.count == 0 then t.(closes := t.closes[t.idle := t.closes[t.idle] + 1]) else t)
  }

  function Begun(s: State): set<nat> { set r | r in s.records && s.records[r].phase != Holding }

  function Apply(s: State, step: Step): Option<State> {
    match step
    case Acquire(r) =>
      if r in s.records || s.slots >= SLOTS then None
      else Some(s.(slots := s.slots + 1, records := s.records[r := Record(Holding, 0)]))
    case Begin(r) => BeginStep(s, r)
    case Finish(r) => FinishStep(s, r)
    case Release(r) =>
      if !Is(s, r, Finished) || s.slots == 0 then None
      else Some(s.(slots := s.slots - 1, records := s.records[r := s.records[r].(phase := Released)]))
    case Wait(w) => if w in s.waiters then None else Some(s.(waiters := s.waiters[w := Waiter(s.idle, Begun(s))]))
    case Drained(w) =>
      if w !in s.waiters || s.waiters[w].channel !in s.closes || s.closes[s.waiters[w].channel] == 0 then None
      else Some(s.(waiters := s.waiters - {w}))
    case GiveUp(w) => Some(s.(waiters := s.waiters - {w}))
  }

  function Run(s: State, steps: seq<Step>): Option<State> {
    if steps == [] then Some(s)
    else
      var before := Run(s, steps[..|steps| - 1]);
      if before.None? then None else Apply(before.value, steps[|steps| - 1])
  }

  ghost predicate Reachable(s: State) { exists steps :: Run(FRESH, steps) == Some(s) }

  function Open(records: map<nat, Record>): set<nat> { set r | r in records && records[r].phase == Recording }
  function Held(records: map<nat, Record>): set<nat> { set r | r in records && records[r].phase != Released }

  ghost predicate ChannelsOk(s: State) {
    && (forall c: nat :: c in s.closes <==> c < |s.closes|)
    && s.idle in s.closes
    && (forall c :: c in s.closes ==> s.closes[c] == if c == s.idle && s.count > 0 then 0 else 1)
  }

  predicate CountsOk(s: State) {
    s.count == |Open(s.records)| && s.slots == |Held(s.records)| <= SLOTS
  }

  predicate EpochsOk(s: State) {
    forall r :: r in s.records && s.records[r].phase == Recording ==> s.records[r].epoch == s.idle
  }

  predicate WaiterOk(s: State, w: Waiter) {
    && w.channel in s.closes
    && forall r :: r in w.begun ==>
         && r in s.records && s.records[r].phase != Holding
         && (s.records[r].phase == Recording ==> s.records[r].epoch == w.channel)
  }

  ghost predicate Inv(s: State) {
    && CountsOk(s) && ChannelsOk(s) && EpochsOk(s)
    && forall w :: w in s.waiters ==> WaiterOk(s, s.waiters[w])
  }

  lemma NoneOpen(s: State)
    requires s.count == |Open(s.records)|
    ensures s.count == 0 <==> forall r :: r in s.records ==> s.records[r].phase != Recording
  {
    assert forall r :: r in s.records && s.records[r].phase == Recording ==> r in Open(s.records);
    if s.count != 0 {
      var r :| r in Open(s.records);
    }
  }

  lemma SetPhase(records: map<nat, Record>, r: nat, rec: Record)
    ensures Open(records[r := rec]) == if rec.phase == Recording then Open(records) + {r} else Open(records) - {r}
    ensures Held(records[r := rec]) == if rec.phase != Released then Held(records) + {r} else Held(records) - {r}
  {
  }

  // Waiters do not care about a record that moves on, nor about one that begins.
  lemma WaiterStays(s: State, t: State, w: Waiter, r: nat)
    requires WaiterOk(s, w) && s.closes.Keys <= t.closes.Keys && s.records.Keys <= t.records.Keys
    requires forall k :: k in s.records && k != r ==> t.records[k] == s.records[k]
    requires r in s.records ==> s.records[r].phase == Holding || t.records[r].phase in {Finished, Released}
    ensures WaiterOk(t, w)
  {
  }

  lemma BeginKeeps(s: State, r: nat, t: State)
    requires Inv(s) && BeginStep(s, r) == Some(t)
    ensures Inv(t)
  {
    hide WaiterOk, ChannelsOk, CountsOk, EpochsOk;
    BeginCounts(s, r, t);
    BeginChannels(s, r, t);
    forall w | w in t.waiters ensures WaiterOk(t, t.waiters[w]) { WaiterStays(s, t, s.waiters[w], r); }
  }

  lemma BeginCounts(s: State, r: nat, t: State)
    requires CountsOk(s) && EpochsOk(s) && BeginStep(s, r) == Some(t)
    ensures CountsOk(t) && EpochsOk(t)
  {
    NoneOpen(s);
    SetPhase(s.records, r, Record(Recording, t.idle));
    assert Held(s.records) + {r} == Held(s.records);
    assert r !in Open(s.records);
  }

  lemma BeginChannels(s: State, r: nat, t: State)
    requires CountsOk(s) && ChannelsOk(s) && BeginStep(s, r) == Some(t)
    ensures ChannelsOk(t) && s.closes.Keys <= t.closes.Keys
  {
    hide Open, Held;
    if s.count == 0 {
      var n := |s.closes|;
      assert n !in s.closes;
      assert t.closes == s.closes[n := 0] && |t.closes| == n + 1;
    }
  }

  lemma FinishKeeps(s: State, r: nat, t: State)
    requires Inv(s) && FinishStep(s, r) == Some(t)
    ensures Inv(t)
  {
    hide WaiterOk;
    SetPhase(s.records, r, s.records[r].(phase := Finished));
    assert Held(s.records) + {r} == Held(s.records);
    assert r in Open(s.records);
    FinishChannels(s, r, t);
    forall w | w in t.waiters ensures WaiterOk(t, t.waiters[w]) { WaiterStays(s, t, s.waiters[w], r); }
  }

  lemma FinishChannels(s: State, r: nat, t: State)
    requires CountsOk(s) && ChannelsOk(s) && r in Open(s.records) && FinishStep(s, r) == Some(t)
    ensures ChannelsOk(t) && t.closes.Keys == s.closes.Keys
  {
    hide Open, Held;
    assert t.closes.Keys == s.closes.Keys;
    KeysSize(s.closes, t.closes);
  }

  lemma KeysSize(a: map<nat, nat>, b: map<nat, nat>)
    requires a.Keys == b.Keys
    ensures |a| == |b|
  {
    assert |a| == |a.Keys| && |b| == |b.Keys|;
  }

  lemma AcquireKeeps(s: State, r: nat, t: State)
    requires Inv(s) && Apply(s, Acquire(r)) == Some(t)
    ensures Inv(t)
  {
    hide WaiterOk, ChannelsOk, CountsOk;
    AcquireCounts(s, r, t);
    SameChannels(s, t);
    forall w | w in t.waiters ensures WaiterOk(t, t.waiters[w]) { WaiterStays(s, t, s.waiters[w], r); }
  }

  lemma AcquireCounts(s: State, r: nat, t: State)
    requires CountsOk(s) && Apply(s, Acquire(r)) == Some(t)
    ensures CountsOk(t)
  {
    SetPhase(s.records, r, Record(Holding, 0));
    assert r !in Held(s.records) && Open(s.records) - {r} == Open(s.records);
  }

  lemma ReleaseKeeps(s: State, r: nat, t: State)
    requires Inv(s) && Apply(s, Release(r)) == Some(t)
    ensures Inv(t)
  {
    hide WaiterOk, ChannelsOk, CountsOk;
    ReleaseCounts(s, r, t);
    SameChannels(s, t);
    forall w | w in t.waiters ensures WaiterOk(t, t.waiters[w]) { WaiterStays(s, t, s.waiters[w], r); }
  }

  lemma ReleaseCounts(s: State, r: nat, t: State)
    requires CountsOk(s) && Apply(s, Release(r)) == Some(t)
    ensures CountsOk(t)
  {
    hide BeginStep, FinishStep, Begun;
    SetPhase(s.records, r, s.records[r].(phase := Released));
    assert Open(s.records) - {r} == Open(s.records) && r in Held(s.records);
  }

  lemma SameChannels(s: State, t: State)
    requires ChannelsOk(s) && t.closes == s.closes && t.idle == s.idle && t.count == s.count
    ensures ChannelsOk(t)
  {
  }

  lemma WaitStepKeeps(s: State, step: Step, t: State)
    requires Inv(s) && (step.Wait? || step.Drained? || step.GiveUp?) && Apply(s, step) == Some(t)
    ensures Inv(t)
  {
    hide Open, Held;
    forall w | w in t.waiters ensures WaiterOk(t, t.waiters[w]) {
      if w in s.waiters { assert WaiterOk(s, s.waiters[w]); }
    }
  }

  lemma StepKeeps(s: State, step: Step, t: State)
    requires Inv(s) && Apply(s, step) == Some(t)
    ensures Inv(t)
  {
    hide Inv, BeginStep, FinishStep;
    match step
    case Begin(r) => BeginKeeps(s, r, t);
    case Finish(r) => FinishKeeps(s, r, t);
    case Acquire(r) => AcquireKeeps(s, r, t);
    case Release(r) => ReleaseKeeps(s, r, t);
    case Wait(_) => WaitStepKeeps(s, step, t);
    case Drained(_) => WaitStepKeeps(s, step, t);
    case GiveUp(_) => WaitStepKeeps(s, step, t);
  }

  lemma {:induction false} RunKeeps(s: State, steps: seq<Step>, t: State)
    requires Inv(s) && Run(s, steps) == Some(t)
    ensures Inv(t)
  {
    hide Inv, Apply;
    if steps != [] {
      var before := Run(s, steps[..|steps| - 1]).value;
      RunKeeps(s, steps[..|steps| - 1], before);
      StepKeeps(before, steps[|steps| - 1], t);
    }
  }

  lemma FreshInv()
    ensures Inv(FRESH)
  {
    var none: map<nat, Record>, closes: map<nat, nat> := map[], map[0 := 1];
    assert Open(none) == {} && Held(none) == {};
    assert |closes| == |closes.Keys| && closes.Keys == {0};
  }

  lemma ReachableInv(s: State)
    requires Reachable(s)
    ensures Inv(s)
  {
    hide Run, Apply, Inv;
    var steps :| Run(FRESH, steps) == Some(s);
    FreshInv();
    RunKeeps(FRESH, steps, s);
  }

  /** Over any sequence of busy epochs: the current channel is closed exactly when no record is
      open, no channel is ever closed twice, and open records never exceed the slots. */
  lemma GateIsExact(s: State)
    requires Reachable(s)
    ensures s.idle in s.closes && (s.closes[s.idle] == 1 <==> s.count == 0)
    ensures forall c :: c in s.closes ==> s.closes[c] <= 1
    ensures 0 <= s.count == |Open(s.records)| <= s.slots <= SLOTS
  {
    ReachableInv(s);
    SubsetSize(Open(s.records), Held(s.records));
  }

  lemma DrainedMeansFinished(s: State, w: nat, t: State)
    requires Inv(s) && Apply(s, Drained(w)) == Some(t)
    ensures forall r :: r in s.waiters[w].begun ==> Is(t, r, Finished) || Is(t, r, Released)
  {
    NoneOpen(s);
  }

  lemma WaiterStaysPut(s: State, w: nat, step: Step, t: State)
    requires w in s.waiters && step != Drained(w) && step != GiveUp(w) && Apply(s, step) == Some(t)
    ensures w in t.waiters && t.waiters[w] == s.waiters[w]
  {
    hide Begun, Is;
  }

  lemma {:induction false} WaiterUnmoved(s: State, w: nat, steps: seq<Step>, t: State)
    requires w in s.waiters && Drained(w) !in steps && GiveUp(w) !in steps && Run(s, steps) == Some(t)
    ensures w in t.waiters && t.waiters[w] == s.waiters[w]
  {
    hide Apply;
    if steps != [] {
      var n := |steps| - 1;
      var before := Run(s, steps[..n]).value;
      WaiterUnmoved(s, w, steps[..n], before);
      WaiterStaysPut(before, w, steps[n], t);
    }
  }

  /** Whatever requests and writers do while the call waits, a wait that returns without giving
      up means that every record begun before the call has finished. */
  lemma WaitMeansFinished(called: State, w: nat, asked: State, steps: seq<Step>, ready: State, t: State)
    requires Reachable(called) && Apply(called, Wait(w)) == Some(asked)
    requires Run(asked, steps) == Some(ready) && Drained(w) !in steps && GiveUp(w) !in steps
    requires Apply(ready, Drained(w)) == Some(t)
    ensures forall r :: r in called.records && !Is(called, r, Holding) ==> Is(t, r, Finished) || Is(t, r, Released)
  {
    hide Inv, Run;
    ReachableInv(called);
    StepKeeps(called, Wait(w), asked);
    RunKeeps(asked, steps, ready);
    WaiterUnmoved(asked, w, steps, ready);
    DrainedMeansFinished(ready, w, t);
    assert asked.waiters[w].begun == Begun(called);
  }

  /** And it can return as soon as none of the records sharing its channel is open. */
  lemma WaitCanReturn(s: State, w: nat)
    requires Reachable(s) && w in s.waiters
    ensures Apply(s, Drained(w)).Some? <==>
              forall r :: r in s.records && s.records[r].epoch == s.waiters[w].channel ==> s.records[r].phase != Recording
  {
    ReachableInv(s);
    NoneOpen(s);
  }

  // ---- every slot comes back ----

  lemma RunThen(s: State, steps: seq<Step>, step: Step)
    requires Run(s, steps).Some?
    ensures Run(s, steps + [step]) == Apply(Run(s, steps).value, step)
  {
    assert (steps + [step])[..|steps|] == steps;
  }

  ghost predicate Reaches(s: State, t: State) { exists steps :: Run(s, steps) == Some(t) }

  lemma ReachesNext(s: State, t: State, step: Step, u: State)
    requires Inv(t) && Reaches(s, t) && Apply(t, step) == Some(u)
    ensures Reaches(s, u) && Inv(u)
  {
    hide Apply, Inv;
    StepKeeps(t, step, u);
    var steps :| Run(s, steps) == Some(t);
    RunThen(s, steps, step);
  }

  /** A record that holds a slot can begin, finish and give the slot back. */
  lemma RecordEnds(s: State, t: State, r: nat) returns (u: State)
    requires Inv(t) && Reaches(s, t) && r in Held(t.records)
    ensures Reaches(s, u) && Inv(u) && Held(u.records) == Held(t.records) - {r} && u.slots == t.slots - 1
  {
    hide Inv, Reaches, BeginStep, FinishStep, Held;
    u := t;
    HeldMeans(t, r);
    if Is(u, r, Holding) {
      BeginShape(u, r);
      ReachesNext(s, u, Begin(r), BeginStep(u, r).value);
      u := BeginStep(u, r).value;
    }
    if Is(u, r, Recording) {
      FinishShape(u, r);
      ReachesNext(s, u, Finish(r), FinishStep(u, r).value);
      u := FinishStep(u, r).value;
    }
    SlotHeld(u, r);
    var v := u.(slots := u.slots - 1, records := u.records[r := u.records[r].(phase := Released)]);
    ReachesNext(s, u, Release(r), v);
    SetPhase(u.records, r, u.records[r].(phase := Released));
    u := v;
  }

  lemma HeldMeans(s: State, r: nat)
    ensures r in Held(s.records) <==> Is(s, r, Holding) || Is(s, r, Recording) || Is(s, r, Finished)
  {
  }

  lemma BeginShape(s: State, r: nat)
    requires Is(s, r, Holding)
    ensures BeginStep(s, r).Some?
    ensures var t := BeginStep(s, r).value; Is(t, r, Recording) && Held(t.records) == Held(s.records) && t.slots == s.slots
  {
    var t := BeginStep(s, r).value;
    SetPhase(s.records, r, t.records[r]);
    assert Held(s.records) + {r} == Held(s.records);
  }

  lemma FinishShape(s: State, r: nat)
    requires Inv(s) && Is(s, r, Recording)
    ensures FinishStep(s, r).Some?
    ensures var t := FinishStep(s, r).value; Is(t, r, Finished) && Held(t.records) == Held(s.records) && t.slots == s.slots
  {
    hide WaiterOk;
    var t := FinishStep(s, r).value;
    SetPhase(s.records, r, t.records[r]);
    assert Held(s.records) + {r} == Held(s.records);
  }

  lemma SlotHeld(s: State, r: nat)
    requires Inv(s) && Is(s, r, Finished)
    ensures s.slots > 0
  {
    hide WaiterOk, ChannelsOk;
    assert r in Held(s.records);
  }

  lemma {:induction false} AllEnd(s: State, t: State) returns (u: State)
    requires Inv(t) && Reaches(s, t)
    ensures Reaches(s, u) && Inv(u) && Held(u.records) == {}
    decreases |Held(t.records)|
  {
    hide Inv, Reaches;
    if Held(t.records) == {} {
      u := t;
    } else {
      var r :| r in Held(t.records);
      var v := RecordEnds(s, t, r);
      u := AllEnd(s, v);
    }
  }

  /** From every reachable state a run leads to one in which every slot is back, no record is open and
      every waiter can return. */
  lemma SlotsComeBack(s: State)
    requires Reachable(s)
    ensures exists t :: Reaches(s, t) && t.slots == 0 && t.count == 0 && forall w :: w in t.waiters ==> Apply(t, Drained(w)).Some?
  {
    hide Reaches, WaiterOk, EpochsOk;
    ReachableInv(s);
    assert Reaches(s, s) by { ReachesSelf(s); }
    var t := AllEnd(s, s);
    AllClosed(t);
  }

  lemma ReachesSelf(s: State)
    ensures Reaches(s, s)
  {
    assert Run(s, []) == Some(s);
  }

  lemma AllClosed(t: State)
    requires Inv(t) && Held(t.records) == {}
    ensures t.slots == 0 && t.count == 0 && forall w :: w in t.waiters ==> Apply(t, Drained(w)).Some?
  {
    SubsetSize(Open(t.records), Held(t.records));
  }

  /** The gate as an object: the four sections under its mutex.  `closes`, `records` and
      `waiters` are history. */
  class Gateway {
    var slots: nat
    var count: int
    var idle: nat
    ghost var closes: map<nat, nat>
    ghost var records: map<nat, Record>
    ghost var waiters: map<nat, Waiter>

    ghost function View(): State reads this { State(slots, count, idle, closes, records, waiters) }
    ghost predicate Valid() reads this { Inv(View()) }

    constructor ()
      ensures View() == FRESH && Valid()
    {
      slots, count, idle := 0, 0, 0;
      closes, records, waiters := map[0 := 1], map[], map[];
      new;
      hide Inv;
      FreshInv();
    }

    /** Take a slot without waiting; a full house means the request goes unaudited. */
    method TryAcquire(ghost r: nat) returns (ok: bool)
      requires Valid() && r !in records
      modifies this`slots, this`records
      ensures Valid()
      ensures ok <==> old(slots) < 64
      ensures ok ==> slots == old(slots) + 1
      ensures View() == if ok then Apply(old(View()), Acquire(r)).value else old(View())
    {
      hide Inv;
      if slots >= SLOTS { return false; }
      StepKeeps(View(), Acquire(r), Apply(View(), Acquire(r)).value);
      slots := slots + 1;
      records := records[r := Record(Holding, 0)];
      ok := true;
    }

    /** `made` is the fresh channel the runtime would hand out. */
    method BeginRecord(ghost r: nat, made: nat)
      requires Valid() && Is(View(), r, Holding) && made == |closes|
      modifies this
      ensures Valid() && BeginStep(old(View()), r) == Some(View())
    {
      hide Inv;
      BeginKeeps(View(), r, BeginStep(View(), r).value);
      if count == 0 {
        idle := made;
        closes := closes[made := 0];
      }
      count := count + 1;
      records := records[r := Record(Recording, idle)];
    }

    method FinishRecord(ghost r: nat)
      requires Valid() && Is(View(), r, Recording)
      modifies this
      ensures Valid() && FinishStep(old(View()), r) == Some(View())
      // closing a closed channel would panic
      ensures count == 0 ==> idle in old(closes) && old(closes)[idle] == 0
    {
      NoneOpen(View());
      hide Open, Held;
      FinishKeeps(View(), r, FinishStep(View(), r).value);
      count := count - 1;
      records := records[r := records[r].(phase := Finished)];
      if count == 0 { closes := closes[idle := closes[idle] + 1]; }
    }

    /** Give the slot back, after the record is finished. */
    method ReleaseSlot(ghost r: nat)
      requires Valid() && Is(View(), r, Finished)
      modifies this`slots, this`records
      ensures Valid() && Apply(old(View()), Release(r)) == Some(View())
      ensures slots + 1 == old(slots) && count == old(count) && idle == old(idle)
    {
      hide Inv;
      SlotHeld(View(), r);
      StepKeeps(View(), Release(r), Apply(View(), Release(r)).value);
      slots := slots - 1;
      records := records[r := records[r].(phase := Released)];
    }

    /** The section that opens a wait: remember the current channel. */
    method TakeIdle(ghost w: nat) returns (channel: nat)
      requires Valid() && w !in waiters
      modifies this`waiters
      ensures Valid() && Apply(old(View()), Wait(w)) == Some(View())
      ensures channel == waiters[w].channel
    {
      hide Inv;
      StepKeeps(View(), Wait(w), Apply(View(), Wait(w)).value);
      channel := idle;
      waiters := waiters[w := Waiter(idle, Begun(View()))];
    }
  }
}

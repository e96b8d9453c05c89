/** The plugin's lifecycle: native calls, scan slots, plugin calls, register, init, quiesce
    and shutdown as atomic steps that interleave freely. */
module Lifecycle {

  const SCAN_CONCURRENCY := 4

  /** What a call in progress currently holds. */
  datatype Call = Call(native: bool, slot: bool, plugin: bool)

  datatype Stage = AwaitNative | AwaitPlugin | Idle

  /** A quiesce or shutdown in progress. `epoch` is the one in which it closed the door;
      a shutdown remembers the runtime it took. */
  datatype Control = Control(stage: Stage, epoch: nat, shutdown: bool, runtime: nat)

  /** `epoch` counts the register and init steps, which open the door again. Runtime 0 is none.
      `born` is the epoch in which each call was let in. `registering` are the registrations between their two locked sections, in which anything
      may happen, a shutdown that clears the runtime included. */
  datatype State = State(
    shuttingDown: bool, registered: bool, runtime: nat, runtimes: nat,
    nativeInFlight: int, inFlight: int, slots: int,
    calls: map<nat, Call>, controls: map<nat, Control>, registering: set<nat>, epoch: nat,
    born: map<nat, nat>)

  const INITIAL := State(false, false, 0, 0, 0, 0, 0, map[], map[], {}, 0, map[])

  datatype Step =
    | BeginNative(c: nat)
    | AcquireSlot(c: nat)
    | BeginPlugin(c: nat)
    | BeginPlain(c: nat)
    | EndPlugin(c: nat)
    | ReleaseSlot(c: nat)
    | EndNative(c: nat)
    | StartRegister(r: nat)
    | FailRegister(r: nat)
    | Register(r: nat)
    | Init
    | StartQuiesce(k: nat)
    | StartShutdown(k: nat)
    | NativeDrained(k: nat)
    | PluginDrained(k: nat)
    | ClearRuntime(k: nat)

  predicate Open(s: State) { !s.shuttingDown && s.registered }

  predicate Enabled(s: State, step: Step) {
    match step
    case BeginNative(c) => Open(s) && c !in s.calls
    case AcquireSlot(c) => c in s.calls && s.calls[c] == Call(true, false, false) && s.slots < SCAN_CONCURRENCY
    case BeginPlugin(c) => Open(s) && c in s.calls && s.calls[c] == Call(true, true, false)
    case BeginPlain(c) => Open(s) && c !in s.calls
    case EndPlugin(c) => c in s.calls && s.calls[c].plugin
    case ReleaseSlot(c) => c in s.calls && s.calls[c] == Call(true, true, false)
    case EndNative(c) => c in s.calls && s.calls[c] == Call(true, false, false)
    case StartRegister(r) => r !in s.registering
    case FailRegister(r) => r in s.registering
    case Register(r) => r in s.registering
    case Init => true
    case StartQuiesce(k) => k !in s.controls
    case StartShutdown(k) => k !in s.controls
    case NativeDrained(k) => k in s.controls && s.controls[k].stage == AwaitNative && s.nativeInFlight == 0
    case PluginDrained(k) => k in s.controls && s.controls[k].stage == AwaitPlugin && s.inFlight == 0
    case ClearRuntime(k) => k in s.controls && s.controls[k].stage == Idle && s.controls[k].shutdown
  }

  function Next(s: State, step: Step): State
    requires Enabled(s, step)
  {
    match step
    case BeginNative(c) =>
      s.(calls := s.calls[c := Call(true, false, false)], nativeInFlight := s.nativeInFlight + 1, born := s.born[c := s.epoch])
    case AcquireSlot(c) => s.(calls := s.calls[c := Call(true, true, false)], slots := s.slots + 1)
    case BeginPlugin(c) => s.(calls := s.calls[c := Call(true, true, true)], inFlight := s.inFlight + 1)
    case BeginPlain(c) =>
      s.(calls := s.calls[c := Call(false, false, true)], inFlight := s.inFlight + 1, born := s.born[c := s.epoch])
    case EndPlugin(c) =>
      s.(calls := if s.calls[c].native then s.calls[c := s.calls[c].(plugin := false)] else s.calls - {c},
         inFlight := s.inFlight - 1)
    case ReleaseSlot(c) => s.(calls := s.calls[c := Call(true, false, false)], slots := s.slots - 1)
    case EndNative(c) => s.(calls := s.calls - {c}, nativeInFlight := s.nativeInFlight - 1)
    case StartRegister(r) =>
      var more := s.(registering := s.registering + {r});
      if s.runtime == 0 then more.(runtime := s.runtimes + 1, runtimes := s.runtimes + 1) else more
    case FailRegister(r) => s.(registering := s.registering - {r})
    case Register(r) =>
      s.(registered := true, shuttingDown := false, registering := s.registering - {r}, epoch := s.epoch + 1)
    case Init => s.(shuttingDown := false, epoch := s.epoch + 1)
    case StartQuiesce(k) => s.(shuttingDown := true, controls := s.controls[k := Control(AwaitNative, s.epoch, false, 0)])
    case StartShutdown(k) =>
      s.(shuttingDown := true, registered := false, controls := s.controls[k := Control(AwaitNative, s.epoch, true, s.runtime)])
    case NativeDrained(k) => s.(controls := s.controls[k := s.controls[k].(stage := AwaitPlugin)])
    case PluginDrained(k) => s.(controls := s.controls[k := s.controls[k].(stage := Idle)])
    case ClearRuntime(k) => s.(controls := s.controls - {k}, runtime := if s.runtime == s.controls[k].runtime then 0 else s.runtime)
  }

  // ----- the invariant ----------------------------------------------------

  function Natives(calls: map<nat, Call>): set<nat> { set c | c in calls && calls[c].native }

  function Holders(calls: map<nat, Call>): set<nat> { set c | c in calls && calls[c].slot }

  function Plugins(calls: map<nat, Call>): set<nat> { set c | c in calls && calls[c].plugin }

  /** The counters count what the calls hold. */
  predicate Numbers(s: State) {
    s.nativeInFlight == |Natives(s.calls)| && s.inFlight == |Plugins(s.calls)| && s.slots == |Holders(s.calls)|
    && s.slots <= SCAN_CONCURRENCY
  }

  /** A slot belongs to a counted native call, and a native call enters the plugin with its slot. */
  predicate Shape(s: State) {
    forall c :: c in s.calls ==>
      var call := s.calls[c];
      (call.native || call.plugin) && (call.slot ==> call.native) && (call.plugin && call.native ==> call.slot)
  }

  predicate Counted(s: State) { Numbers(s) && Shape(s) }

  /** What a quiesce or shutdown has waited for still holds while its epoch lasts. */
  predicate Settled(s: State, k: Control) {
    k.epoch <= s.epoch
    && (k.epoch == s.epoch ==>
          s.shuttingDown && (k.stage != AwaitNative ==> s.nativeInFlight == 0) && (k.stage == Idle ==> s.inFlight == 0))
  }

  /** Every call was let in in some epoch so far. */
  predicate Dated(s: State) {
    forall c :: c in s.calls ==> c in s.born && s.born[c] <= s.epoch
  }

  /** Past its first wait there is no native call from its epoch or before, and past its second
      no call at all. */
  predicate Outlived(s: State, k: Control) {
    forall c :: c in s.calls && c in s.born && (k.stage == Idle || (k.stage == AwaitPlugin && s.calls[c].native)) ==>
      k.epoch < s.born[c]
  }

  predicate Inv(s: State) {
    Counted(s) && Dated(s) && forall k :: k in s.controls ==> Settled(s, s.controls[k]) && Outlived(s, s.controls[k])
  }

  lemma SetCall(calls: map<nat, Call>, c: nat, call: Call)
    ensures var now := calls[c := call];
            Natives(now) == (if call.native then Natives(calls) + {c} else Natives(calls) - {c})
            && Holders(now) == (if call.slot then Holders(calls) + {c} else Holders(calls) - {c})
            && Plugins(now) == if call.plugin then Plugins(calls) + {c} else Plugins(calls) - {c}
  {
  }

  lemma DropCall(calls: map<nat, Call>, c: nat)
    ensures var now := calls - {c};
            Natives(now) == Natives(calls) - {c} && Holders(now) == Holders(calls) - {c} && Plugins(now) == Plugins(calls) - {c}
  {
  }

  lemma Cards(s: set<nat>, c: nat)
    ensures |s + {c}| == |s| + (if c in s then 0 else 1)
    ensures |s - {c}| == |s| - (if c in s then 1 else 0)
  {
    if c in s {
      assert s + {c} == s && s == (s - {c}) + {c};
    } else {
      assert s - {c} == s;
    }
  }

  lemma CallSets(calls: map<nat, Call>, c: nat)
    ensures c in Natives(calls) <==> c in calls && calls[c].native
    ensures c in Holders(calls) <==> c in calls && calls[c].slot
    ensures c in Plugins(calls) <==> c in calls && calls[c].plugin
  {
  }

  function One(b: bool): int { if b then 1 else 0 }

  /** How the three counts move when one call changes what it holds. */
  lemma Recount(calls: map<nat, Call>, c: nat, call: Call)
    ensures var now := calls[c := call]; var was := if c in calls then calls[c] else Call(false, false, false);
            |Natives(now)| == |Natives(calls)| + One(call.native) - One(was.native)
            && |Holders(now)| == |Holders(calls)| + One(call.slot) - One(was.slot)
            && |Plugins(now)| == |Plugins(calls)| + One(call.plugin) - One(was.plugin)
  {
    hide Natives, Holders, Plugins;
    CallSets(calls, c);
    SetCall(calls, c, call);
    Cards(Natives(calls), c);
    Cards(Holders(calls), c);
    Cards(Plugins(calls), c);
  }

  lemma Discount(calls: map<nat, Call>, c: nat)
    requires c in calls
    ensures var now := calls - {c};
            |Natives(now)| == |Natives(calls)| - One(calls[c].native)
            && |Holders(now)| == |Holders(calls)| - One(calls[c].slot)
            && |Plugins(now)| == |Plugins(calls)| - One(calls[c].plugin)
  {
    hide Natives, Holders, Plugins;
    CallSets(calls, c);
    DropCall(calls, c);
    Cards(Natives(calls), c);
    Cards(Holders(calls), c);
    Cards(Plugins(calls), c);
  }

  lemma CountsKept(s: State, step: Step)
    requires Counted(s) && Enabled(s, step)
    ensures Counted(Next(s, step))
  {
    hide Natives, Holders, Plugins, Enabled, Next, Numbers, Shape;
    match step
    case BeginNative(c) => StartCounts(s, step, c, Call(true, false, false));
    case AcquireSlot(c) => StartCounts(s, step, c, Call(true, true, false));
    case BeginPlugin(c) => StartCounts(s, step, c, Call(true, true, true));
    case BeginPlain(c) => StartCounts(s, step, c, Call(false, false, true));
    case EndPlugin(c) => EndCounts(s, step, c);
    case ReleaseSlot(c) => EndCounts(s, step, c);
    case EndNative(c) => EndCounts(s, step, c);
    case _ => OtherCounts(s, step);
  }

  lemma StartCounts(s: State, step: Step, c: nat, call: Call)
    requires Counted(s) && Enabled(s, step)
    requires step == BeginNative(c) || step == AcquireSlot(c) || step == BeginPlugin(c) || step == BeginPlain(c)
    requires call == Call(!step.BeginPlain?, step.AcquireSlot? || step.BeginPlugin?, step.BeginPlugin? || step.BeginPlain?)
    ensures Counted(Next(s, step))
  {
    hide Natives, Holders, Plugins;
    Recount(s.calls, c, call);
  }

  lemma EndCounts(s: State, step: Step, c: nat)
    requires Counted(s) && Enabled(s, step) && (step == EndPlugin(c) || step == ReleaseSlot(c) || step == EndNative(c))
    ensures Counted(Next(s, step))
  {
    hide Natives, Holders, Plugins;
    if step.ReleaseSlot? {
      Recount(s.calls, c, Call(true, false, false));
    } else {
      Recount(s.calls, c, s.calls[c].(plugin := false));
      Discount(s.calls, c);
    }
  }

  lemma OtherCounts(s: State, step: Step)
    requires Counted(s) && Enabled(s, step)
    requires !(step.BeginNative? || step.AcquireSlot? || step.BeginPlugin? || step.BeginPlain? || step.EndPlugin? || step.ReleaseSlot?
               || step.EndNative?)
    ensures Counted(Next(s, step))
  {
    hide Natives, Holders, Plugins;
  }

  /** While the door stays closed no counter grows. */
  lemma ClosedDoor(s: State, step: Step)
    requires s.shuttingDown && Enabled(s, step) && Next(s, step).epoch == s.epoch
    ensures Next(s, step).shuttingDown
    ensures Next(s, step).nativeInFlight <= s.nativeInFlight && Next(s, step).inFlight <= s.inFlight
  {
  }

  lemma StepKeeps(s: State, step: Step)
    requires Inv(s) && Enabled(s, step)
    ensures Inv(Next(s, step))
  {
    hide Counted, Enabled, Next, Settled, Outlived, Dated;
    CountsKept(s, step);
    DatedKept(s, step);
    forall k | k in Next(s, step).controls
      ensures Settled(Next(s, step), Next(s, step).controls[k]) && Outlived(Next(s, step), Next(s, step).controls[k])
    {
      ControlKept(s, step, k);
      OutlivedKept(s, step, k);
    }
  }

  lemma DatedKept(s: State, step: Step)
    requires Enabled(s, step) && Dated(s)
    ensures Dated(Next(s, step))
  {
  }

  lemma OutlivedKept(s: State, step: Step, k: nat)
    requires Enabled(s, step) && Counted(s) && Dated(s) && k in Next(s, step).controls
    requires k in s.controls ==> Settled(s, s.controls[k]) && Outlived(s, s.controls[k])
    ensures Outlived(Next(s, step), Next(s, step).controls[k])
  {
    hide Numbers;
    if step.NativeDrained? || step.PluginDrained? {
      NoneOf(s);
    }
  }

  /** A count of zero means there is no such call. */
  lemma NoneOf(s: State)
    requires Counted(s)
    ensures s.nativeInFlight == 0 ==> forall c :: c in s.calls ==> !s.calls[c].native
    ensures s.inFlight == 0 ==> forall c :: c in s.calls ==> !s.calls[c].plugin
  {
    assert forall c :: c in s.calls && s.calls[c].native ==> c in Natives(s.calls);
    assert forall c :: c in s.calls && s.calls[c].plugin ==> c in Plugins(s.calls);
  }

  lemma ControlKept(s: State, step: Step, k: nat)
    requires Enabled(s, step) && Counted(Next(s, step)) && k in Next(s, step).controls && (k in s.controls ==> Settled(s, s.controls[k]))
    ensures Settled(Next(s, step), Next(s, step).controls[k])
  {
    hide Natives, Holders, Plugins, Shape;
    var t := Next(s, step);
    if k in s.controls && s.controls[k].epoch == s.epoch && t.epoch == s.epoch {
      ClosedDoor(s, step);
    }
  }

  // ----- runs -------------------------------------------------------------

  /** The state after a run of steps, when each of them was possible in its turn. */
  function Run(s: State, steps: seq<Step>): (r: State)
    requires Runs(s, steps)
    decreases |steps|
  {
    if steps == [] then s else Run(Next(s, steps[0]), steps[1..])
  }

  predicate Runs(s: State, steps: seq<Step>)
    decreases |steps|
  {
    steps == [] || (Enabled(s, steps[0]) && Runs(Next(s, steps[0]), steps[1..]))
  }

  lemma {:induction false} RunKeeps(s: State, steps: seq<Step>)
    requires Inv(s) && Runs(s, steps)
    ensures Inv(Run(s, steps)) && s.epoch <= Run(s, steps).epoch
    decreases |steps|
  {
    hide Inv, Enabled, Next;
    if steps != [] {
      StepKeeps(s, steps[0]);
      EpochGrows(s, steps[0]);
      RunKeeps(Next(s, steps[0]), steps[1..]);
    }
  }

  lemma EpochGrows(s: State, step: Step)
    requires Enabled(s, step)
    ensures s.epoch <= Next(s, step).epoch
  {
  }

  lemma InitialInv()
    ensures Inv(INITIAL)
  {
    assert Natives(INITIAL.calls) == {} && Holders(INITIAL.calls) == {} && Plugins(INITIAL.calls) == {};
  }

  /** In every interleaving: at most four slots are held, each by a counted native call. */
  lemma SlotsBounded(steps: seq<Step>)
    requires Runs(INITIAL, steps)
    ensures var s := Run(INITIAL, steps);
            |Holders(s.calls)| == s.slots <= SCAN_CONCURRENCY && Holders(s.calls) <= Natives(s.calls)
  {
    InitialInv();
    RunKeeps(INITIAL, steps);
  }

  /** In every interleaving: when a quiesce has returned, or a shutdown is about to clear the
      cache, every call in flight was let in after a register or init had opened the door again. */
  lemma QuiesceOutlived(steps: seq<Step>, k: nat)
    requires Runs(INITIAL, steps)
    requires var s := Run(INITIAL, steps); k in s.controls && s.controls[k].stage == Idle
    ensures var s := Run(INITIAL, steps);
            s.controls[k].epoch <= s.epoch
            && forall c :: c in s.calls ==> c in s.born && s.controls[k].epoch < s.born[c] <= s.epoch
  {
    hide Run, Runs, Counted;
    InitialInv();
    RunKeeps(INITIAL, steps);
  }

  /** So nothing is in flight when nothing has opened the door since the quiesce closed it. */
  lemma QuiesceIsSafe(steps: seq<Step>, k: nat)
    requires Runs(INITIAL, steps)
    requires var s := Run(INITIAL, steps); k in s.controls && s.controls[k].stage == Idle && s.controls[k].epoch == s.epoch
    ensures var s := Run(INITIAL, steps);
            s.nativeInFlight == 0 && s.inFlight == 0 && s.slots == 0 && s.calls == map[]
  {
    hide Run, Runs;
    QuiesceOutlived(steps, k);
    InitialInv();
    RunKeeps(INITIAL, steps);
    NothingHeld(Run(INITIAL, steps));
  }

  lemma {:induction false} ClosedRun(s: State, steps: seq<Step>)
    requires Inv(s) && s.shuttingDown && Runs(s, steps) && Run(s, steps).epoch == s.epoch
    ensures Run(s, steps).shuttingDown
    ensures Run(s, steps).nativeInFlight <= s.nativeInFlight && Run(s, steps).inFlight <= s.inFlight
    decreases |steps|
  {
    hide Inv;
    if steps != [] {
      StepKeeps(s, steps[0]);
      EpochGrows(s, steps[0]);
      RunKeeps(Next(s, steps[0]), steps[1..]);
      ClosedDoor(s, steps[0]);
      ClosedRun(Next(s, steps[0]), steps[1..]);
    }
  }

  /** A register that comes in while a quiesce waits lets new calls in, and the quiesce may
      then return with one in flight: the epoch condition cannot be dropped. */
  lemma QuiesceOvertaken()
    ensures exists steps, k ::
              Runs(INITIAL, steps) && k in Run(INITIAL, steps).controls
              && Run(INITIAL, steps).controls[k].stage == Idle && Run(INITIAL, steps).nativeInFlight == 1
  {
    hide Run, Runs, Next, Enabled;
    var s1, s2, s3, s4, s5, s6 := Overtaking();
    RunsNone(s6);
    var r5 := [PluginDrained(0)] + [];
    RunsCons(s5, PluginDrained(0), []);
    var r4 := [BeginNative(7)] + r5;
    RunsCons(s4, BeginNative(7), r5);
    var r3 := [Register(3)] + r4;
    RunsCons(s3, Register(3), r4);
    var r2 := [NativeDrained(0)] + r3;
    RunsCons(s2, NativeDrained(0), r3);
    var r1 := [StartQuiesce(0)] + r2;
    RunsCons(s1, StartQuiesce(0), r2);
    RunsCons(INITIAL, StartRegister(3), r1);
    assert Run(INITIAL, [StartRegister(3)] + r1) == s6;
  }

  lemma Overtaking() returns (s1: State, s2: State, s3: State, s4: State, s5: State, s6: State)
    ensures Enabled(INITIAL, StartRegister(3)) && s1 == Next(INITIAL, StartRegister(3))
    ensures Enabled(s1, StartQuiesce(0)) && s2 == Next(s1, StartQuiesce(0))
    ensures Enabled(s2, NativeDrained(0)) && s3 == Next(s2, NativeDrained(0))
    ensures Enabled(s3, Register(3)) && s4 == Next(s3, Register(3))
    ensures Enabled(s4, BeginNative(7)) && s5 == Next(s4, BeginNative(7))
    ensures Enabled(s5, PluginDrained(0)) && s6 == Next(s5, PluginDrained(0))
    ensures 0 in s6.controls && s6.controls[0].stage == Idle && s6.nativeInFlight == 1
  {
    s1 := Next(INITIAL, StartRegister(3));
    s2 := Next(s1, StartQuiesce(0));
    s3 := Next(s2, NativeDrained(0));
    s4 := Next(s3, Register(3));
    s5 := Next(s4, BeginNative(7));
    s6 := Next(s5, PluginDrained(0));
  }

  lemma RunsNone(s: State)
    ensures Runs(s, []) && Run(s, []) == s
  {
  }

  lemma RunsCons(s: State, step: Step, steps: seq<Step>)
    requires Enabled(s, step) && Runs(Next(s, step), steps)
    ensures Runs(s, [step] + steps) && Run(s, [step] + steps) == Run(Next(s, step), steps)
  {
    assert ([step] + steps)[1..] == steps;
  }

  lemma NothingHeld(s: State)
    requires Counted(s) && s.calls == map[]
    ensures s.nativeInFlight == 0 && s.inFlight == 0 && s.slots == 0
  {
    assert Natives(s.calls) == {} && Holders(s.calls) == {} && Plugins(s.calls) == {};
  }
}

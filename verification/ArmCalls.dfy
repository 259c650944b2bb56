/** Cross-CPU function calls on Arm: one slot of function and data for each CPU, and a mask of the CPUs that
    wait in do_idle. Each step below is one access to shared memory or one local action; the steps of all
    callers and all idling CPUs interleave in any order. */
module ArmCalls {

  import opened Options

  type Cpu = nat
  type CallId = nat

  /** A call by context caller; sync is for on_cpu, which waits for the target afterwards. */
  datatype Call = Call(caller: nat, target: Cpu, func: nat, arg: nat, sync: bool)

  /** Where a caller stands in on_cpu_async, and in the wait of on_cpu after it. */
  datatype Pc =
    | Out
    | BootLock(call: Call)    // take the lock to start the target if it is offline
    | BootWait(call: Call)    // lock held: the target has been started, wait for it to be online
    | BootUnlock(call: Call)  // lock held
    | Wait(call: Call)        // wait for the target to be idle
    | CheckLock(call: Call)
    | Check(call: Call)       // lock held: is the slot free?
    | Retry(call: Call)       // lock held: it is not
    | SetFunc(id: CallId)     // lock held: it is; the call gets its id
    | SetData(id: CallId)     // lock held
    | Unlock(id: CallId)      // lock held
    | Wake(id: CallId)        // clear the idle bit of the target
    | Await(id: CallId)       // wait for the target to be idle again

  /** The loop of on_cpus: CPUs before next are done. issued holds the calls it has made, mine the one that the
      caller has run itself. */
  datatype Loop = Loop(next: nat, func: nat, arg: nat, mine: Option<CallId>, issued: set<CallId>)

  datatype Context = Context(cpu: Cpu, pc: Pc, loop: Option<Loop>)

  /** Where a CPU stands in do_idle. */
  datatype Idler =
    | Off                            // not started
    | Other                          // online, running something else
    | Waiting                        // waiting for its idle bit to be cleared
    | GotFunc(func: Option<nat>)     // has read the function
    | GotBoth(func: Option<nat>, arg: nat)
    | Running                        // in the function
    | Cleared                        // has reset the slot; sets its idle bit next
    | Crashed                        // has called NULL

  /** What is shared about a CPU. For specifications, owner is the call last stored in the slot. */
  datatype Slot = Slot(pc: Idler, online: bool, idle: bool, func: Option<nat>, data: nat, owner: CallId)

  datatype Event = Event(id: CallId, cpu: Cpu, func: nat, arg: nat)

  /** For specifications: started lists the CPUs in the order they were started, calls and runs are the calls
      stored and the functions run, and missed holds the calls whose caller found the idle bit already clear
      when it came to clear it. */
  datatype State = State(
    contexts: map<nat, Context>,
    lock: Option<nat>,
    slots: map<Cpu, Slot>,
    started: seq<Cpu>,
    calls: map<CallId, Call>,
    runs: seq<Event>,
    missed: set<CallId>)

  // ---- steps ----

  datatype Action =
    | Begin(k: nat, call: Call)
    | RunHere(k: nat, call: Call, id: CallId)
    | BeginAll(k: nat, func: nat, arg: nat)
    | NextCpu(k: nat)
    | RunMine(k: nat, id: CallId)
    | EndAll(k: nat)
    | Caller(k: nat, id: CallId)
    | Online(t: Cpu)
    | EnterIdle(t: Cpu)
    | Serve(t: Cpu)

  function WithPc(s: State, k: nat, pc: Pc): State
    requires k in s.contexts
  {
    s.(contexts := s.contexts[k := s.contexts[k].(pc := pc)])
  }

  function WithLoop(s: State, k: nat, loop: Option<Loop>): State
    requires k in s.contexts
  {
    s.(contexts := s.contexts[k := s.contexts[k].(loop := loop)])
  }

  function WithSlot(s: State, t: Cpu, l: Slot): State {
    s.(slots := s.slots[t := l])
  }

  function IdleCpus(s: State): set<Cpu> {
    set t | t in s.slots && s.slots[t].idle
  }

  /** Before the call has its id. */
  predicate Posting(pc: Pc) {
    pc.BootLock? || pc.BootWait? || pc.BootUnlock? || pc.Wait? || pc.CheckLock? || pc.Check? || pc.Retry?
  }

  /** The context k is outside any call. */
  predicate Ready(s: State, k: nat) {
    k in s.contexts && s.contexts[k].pc == Out
  }

  predicate CallerEnabled(s: State, k: nat, id: CallId) {
    && k in s.contexts
    && var pc := s.contexts[k].pc;
    && (Posting(pc) ==> pc.call.target in s.slots)
    && (!Posting(pc) && !pc.Out? ==> pc.id in s.calls && s.calls[pc.id].target in s.slots)
    && match pc
       case Out => false
       case BootLock(_) => s.lock == None
       case BootWait(call) => s.slots[call.target].online
       case Wait(call) => s.slots[call.target].idle
       case CheckLock(_) => s.lock == None
       case Check(_) => id !in s.calls
       case Await(i) => s.slots[s.calls[i].target].idle
       case _ => true
  }

  predicate Enabled(s: State, a: Action) {
    match a
    case Begin(k, call) =>
      && Ready(s, k) && s.contexts[k].loop == None
      && call.caller == k && call.target in s.slots && call.target != s.contexts[k].cpu
    case RunHere(k, call, id) =>
      && Ready(s, k) && s.contexts[k].loop == None && id !in s.calls
      && call.caller == k && call.target == s.contexts[k].cpu
    case BeginAll(k, _, _) => Ready(s, k) && s.contexts[k].loop == None
    case NextCpu(k) => Ready(s, k) && s.contexts[k].loop.Some? && s.contexts[k].loop.value.next in s.slots
    case RunMine(k, id) =>
      && Ready(s, k) && s.contexts[k].loop.Some? && id !in s.calls
      && s.contexts[k].loop.value.next !in s.slots && s.contexts[k].loop.value.mine == None
    case EndAll(k) =>
      // the caller is running, so its own CPU is not waiting in do_idle
      && Ready(s, k) && s.contexts[k].loop.Some? && s.contexts[k].loop.value.mine.Some? && s.contexts[k].cpu !in IdleCpus(s)
      && |s.slots| - 1 <= |IdleCpus(s)|
    case Caller(k, id) => CallerEnabled(s, k, id)
    case Online(t) => t in s.slots && s.slots[t].pc == Off && t in s.started
    case EnterIdle(t) => t in s.slots && s.slots[t].pc == Other
    case Serve(t) =>
      && t in s.slots
      && match s.slots[t].pc {
           case Off | Other | Crashed => false
           case Waiting => !s.slots[t].idle
           case _ => true
         }
  }

  function TakeBootLock(s: State, k: nat): State
    requires k in s.contexts && s.contexts[k].pc.BootLock? && s.contexts[k].pc.call.target in s.slots
  {
    var call := s.contexts[k].pc.call;
    if s.slots[call.target].online then
      WithPc(s, k, BootUnlock(call)).(lock := Some(k))
    else
      WithPc(s, k, BootWait(call)).(lock := Some(k), started := s.started + [call.target])
  }

  function CheckSlot(s: State, k: nat, id: CallId): State
    requires k in s.contexts && s.contexts[k].pc.Check? && s.contexts[k].pc.call.target in s.slots
  {
    var call := s.contexts[k].pc.call;
    if s.slots[call.target].func == None then
      WithPc(s, k, SetFunc(id)).(calls := s.calls[id := call])
    else
      WithPc(s, k, Retry(call))
  }

  /** After the bit is cleared, on_cpu waits, and the loop of on_cpus goes on. */
  function WakeTarget(s: State, k: nat, id: CallId): State
    requires k in s.contexts && id in s.calls && s.calls[id].target in s.slots
  {
    var t, c := s.calls[id].target, s.contexts[k];
    var pc := if s.calls[id].sync then Await(id) else Out;
    var loop := if c.loop.Some? then Some(c.loop.value.(issued := c.loop.value.issued + {id})) else None;
    s.(contexts := s.contexts[k := Context(c.cpu, pc, loop)],
       slots := s.slots[t := s.slots[t].(idle := false)],
       missed := if s.slots[t].idle then s.missed else s.missed + {id})
  }

  function CallerStep(s: State, k: nat, id: CallId): State
    requires CallerEnabled(s, k, id)
  {
    match s.contexts[k].pc
    case BootLock(_) => TakeBootLock(s, k)
    case BootWait(call) => WithPc(s, k, BootUnlock(call))
    case BootUnlock(call) => WithPc(s, k, Wait(call)).(lock := None)
    case Wait(call) => WithPc(s, k, CheckLock(call))
    case CheckLock(call) => WithPc(s, k, Check(call)).(lock := Some(k))
    case Check(_) => CheckSlot(s, k, id)
    case Retry(call) => WithPc(s, k, Wait(call)).(lock := None)
    case SetFunc(i) =>
      var t := s.calls[i].target;
      WithSlot(WithPc(s, k, SetData(i)), t, s.slots[t].(func := Some(s.calls[i].func), owner := i))
    case SetData(i) =>
      var t := s.calls[i].target;
      WithSlot(WithPc(s, k, Unlock(i)), t, s.slots[t].(data := s.calls[i].arg))
    case Unlock(i) => WithPc(s, k, Wake(i)).(lock := None)
    case Wake(i) => WakeTarget(s, k, i)
    case Await(_) => WithPc(s, k, Out)
  }

  /** One step of do_idle on CPU t. */
  function IdlerStep(s: State, t: Cpu): State
    requires Enabled(s, Serve(t))
  {
    var l := s.slots[t];
    match l.pc
    case Waiting => WithSlot(s, t, l.(pc := GotFunc(l.func)))
    case GotFunc(f) => WithSlot(s, t, l.(pc := GotBoth(f, l.data)))
    case GotBoth(f, d) =>
      if f == None then WithSlot(s, t, l.(pc := Crashed))
      else WithSlot(s, t, l.(pc := Running)).(runs := s.runs + [Event(l.owner, t, f.value, d)])
    case Running => WithSlot(s, t, l.(pc := Cleared, func := None))
    case Cleared => WithSlot(s, t, l.(pc := Waiting, idle := true))
  }

  function NextStep(s: State, k: nat): State
    requires Enabled(s, NextCpu(k))
  {
    var c := s.contexts[k];
    var l := c.loop.value;
    var pc := if l.next == c.cpu then Out else BootLock(Call(k, l.next, l.func, l.arg, false));
    s.(contexts := s.contexts[k := Context(c.cpu, pc, Some(l.(next := l.next + 1)))])
  }

  function Step(s: State, a: Action): State
    requires Enabled(s, a)
  {
    match a
    case Begin(k, call) => WithPc(s, k, BootLock(call))
    case RunHere(k, call, id) =>
      s.(calls := s.calls[id := call], runs := s.runs + [Event(id, call.target, call.func, call.arg)])
    case BeginAll(k, f, d) => WithLoop(s, k, Some(Loop(0, f, d, None, {})))
    case NextCpu(k) => NextStep(s, k)
    case RunMine(k, id) =>
      var c := s.contexts[k];
      var l := c.loop.value;
      WithLoop(s, k, Some(l.(mine := Some(id))))
        .(calls := s.calls[id := Call(k, c.cpu, l.func, l.arg, false)], runs := s.runs + [Event(id, c.cpu, l.func, l.arg)])
    case EndAll(k) => WithLoop(s, k, None)
    case Caller(k, id) => CallerStep(s, k, id)
    case Online(t) => WithSlot(s, t, s.slots[t].(pc := Other, online := true))
    case EnterIdle(t) => WithSlot(s, t, s.slots[t].(pc := Waiting, idle := true))
    case Serve(t) => IdlerStep(s, t)
  }

  // ---- invariants ----

  ghost predicate HasRun(runs: seq<Event>, id: CallId) {
    exists i :: 0 <= i < |runs| && runs[i].id == id
  }

  predicate HoldsLock(pc: Pc) {
    || pc.BootWait? || pc.BootUnlock? || pc.Check? || pc.Retry? || pc.SetFunc? || pc.SetData? || pc.Unlock?
  }

  /** The function is in the slot and the idle bit not yet cleared. */
  predicate HoldsSlot(pc: Pc) {
    pc.SetData? || pc.Unlock? || pc.Wake?
  }

  predicate Holding(contexts: map<nat, Context>, k: nat, id: CallId) {
    k in contexts && HoldsSlot(contexts[k].pc) && contexts[k].pc.id == id
  }

  /** The slot holds a call that has not run. */
  ghost predicate Stored(s: State, t: Cpu)
    requires t in s.slots
  {
    var l := s.slots[t];
    && l.func.Some? && l.owner in s.calls && s.calls[l.owner].target == t
    && l.func.value == s.calls[l.owner].func && !HasRun(s.runs, l.owner)
  }

  /** Its caller has yet to clear the idle bit. */
  ghost predicate Held(s: State, t: Cpu)
    requires t in s.slots
  {
    var l := s.slots[t];
    && Stored(s, t) && Holding(s.contexts, s.calls[l.owner].caller, l.owner) && l.owner !in s.missed
    && (!s.contexts[s.calls[l.owner].caller].pc.SetData? ==> l.data == s.calls[l.owner].arg)
  }

  /** Its caller is through; missed says whether the caller's clearing of the idle bit had an effect. */
  ghost predicate Left(s: State, t: Cpu, missed: bool)
    requires t in s.slots
  {
    var l := s.slots[t];
    && Stored(s, t) && !Holding(s.contexts, s.calls[l.owner].caller, l.owner)
    && (l.owner in s.missed <==> missed) && l.data == s.calls[l.owner].arg
  }

  ghost predicate SlotOk(s: State, t: Cpu)
    requires t in s.slots
  {
    var l := s.slots[t];
    && (l.idle ==> l.pc == Waiting)
    && (l.online <==> l.pc != Off)
    && match l.pc
       case Off => l.func == None
       case Other => l.func == None
       case Waiting => if l.idle then l.func == None || Held(s, t) || Left(s, t, true) else Left(s, t, false)
       case GotFunc(f) => Left(s, t, false) && f == l.func
       case GotBoth(f, d) => Left(s, t, false) && f == l.func && d == l.data
       case Running =>
         && l.func.Some? && l.owner in s.calls && s.calls[l.owner].target == t
         && HasRun(s.runs, l.owner) && l.owner !in s.missed
       case Cleared => l.func == None || Held(s, t) || Left(s, t, true)
       case Crashed => false
  }

  /** The target has entered do_idle. */
  predicate Looping(s: State, t: Cpu) {
    t in s.slots && s.slots[t].pc != Off && s.slots[t].pc != Other
  }

  /** The call is on its way: its target has been woken and will run it. */
  ghost predicate InProgress(s: State, id: CallId) {
    && id in s.calls && s.calls[id].target in s.slots
    && var l := s.slots[s.calls[id].target];
    && l.owner == id && l.func.Some? && !l.idle && (l.pc.Waiting? || l.pc.GotFunc? || l.pc.GotBoth?)
  }

  ghost predicate Settled(s: State, id: CallId) {
    id in s.calls && (HasRun(s.runs, id) || id in s.missed || InProgress(s, id))
  }

  /** The loop of on_cpus has made its call for CPU t. */
  ghost predicate Covered(s: State, l: Loop, t: Cpu) {
    exists id :: id in l.issued && id in s.calls && SameWork(s.calls[id], t, l)
  }

  predicate SameWork(call: Call, t: Cpu, l: Loop) {
    call.target == t && call.func == l.func && call.arg == l.arg && !call.sync
  }

  predicate InHand(s: State, pc: Pc, t: Cpu, l: Loop) {
    if Posting(pc) then SameWork(pc.call, t, l)
    else !pc.Out? && pc.id in s.calls && SameWork(s.calls[pc.id], t, l)
  }

  /** All other CPUs below next have been called, but for the last, whose call may still be in hand. */
  ghost predicate LoopOk(s: State, cpu: Cpu, pc: Pc, l: Loop) {
    && l.next <= |s.slots|
    && (forall id :: id in l.issued ==>
         Settled(s, id) && id in s.calls && s.calls[id].target in s.slots && s.calls[id].target != cpu)
    && (forall t: nat :: t + 1 < l.next && t != cpu ==> Covered(s, l, t))
    && (pc.Out? && 0 < l.next && l.next - 1 != cpu ==> Covered(s, l, l.next - 1))
    && (!pc.Out? ==> 0 < l.next && InHand(s, pc, l.next - 1, l) && !pc.Await?)
    && (l.mine.Some? ==> l.next == |s.slots| && pc.Out? && RanOn(s.runs, l.mine.value, cpu, l.func, l.arg))
  }

  ghost predicate RanOn(runs: seq<Event>, id: CallId, t: Cpu, func: nat, arg: nat) {
    Event(id, t, func, arg) in runs
  }

  ghost predicate PcOk(s: State, k: nat, cpu: Cpu, pc: Pc) {
    && (Posting(pc) ==> pc.call.caller == k && pc.call.target in s.slots && pc.call.target != cpu)
    && (!Posting(pc) && !pc.Out? ==>
         && pc.id in s.calls && s.calls[pc.id].caller == k && s.calls[pc.id].target in s.slots
         && s.calls[pc.id].target != cpu)
    && match pc
       case Out => true
       case BootLock(_) => true
       case BootWait(call) => call.target in s.started
       case BootUnlock(call) => s.slots[call.target].online
       case Wait(call) => s.slots[call.target].online
       case CheckLock(call) => Looping(s, call.target)
       case Check(call) => Looping(s, call.target)
       case Retry(call) => Looping(s, call.target)
       case SetFunc(id) =>
         && Looping(s, s.calls[id].target) && s.slots[s.calls[id].target].func == None
         && !HasRun(s.runs, id) && id !in s.missed
       case Await(id) => Settled(s, id)
       case _ =>
         var l := s.slots[s.calls[pc.id].target];
         l.func.Some? && l.owner == pc.id && l.pc != Running
  }

  ghost predicate ContextOk(s: State, k: nat)
    requires k in s.contexts
  {
    var c := s.contexts[k];
    && c.cpu in s.slots
    && (HoldsLock(c.pc) <==> s.lock == Some(k))
    && PcOk(s, k, c.cpu, c.pc)
    && (c.loop.Some? ==> LoopOk(s, c.cpu, c.pc, c.loop.value))
  }

  ghost predicate EventOk(calls: map<CallId, Call>, runs: seq<Event>, i: nat)
    requires i < |runs|
  {
    var e := runs[i];
    && e.id in calls && e.cpu == calls[e.id].target && e.func == calls[e.id].func && e.arg == calls[e.id].arg
    && forall j :: 0 <= j < i ==> runs[j].id != e.id
  }

  ghost predicate EventsOk(calls: map<CallId, Call>, runs: seq<Event>) {
    forall i: nat :: i < |runs| ==> EventOk(calls, runs, i)
  }

  /** A missed call stays in its slot, and no other call can take its place. */
  ghost predicate MissedOk(s: State, id: CallId) {
    && id in s.calls && s.calls[id].target in s.slots && !HasRun(s.runs, id)
    && var l := s.slots[s.calls[id].target];
    && l.owner == id && l.func.Some? && (if l.idle then l.pc == Waiting else l.pc == Cleared)
  }

  /** A CPU that has been started and is not yet online is awaited by the holder of the lock. */
  ghost predicate StartOk(s: State, i: nat)
    requires i < |s.started|
  {
    var t := s.started[i];
    && t in s.slots && (forall j :: 0 <= j < i ==> s.started[j] != t)
    && (s.slots[t].online || (s.lock.Some? && s.lock.value in s.contexts
                              && s.contexts[s.lock.value].pc.BootWait? && s.contexts[s.lock.value].pc.call.target == t))
  }

  ghost predicate SlotsOk(s: State) {
    forall t :: t in s.slots ==> SlotOk(s, t)
  }

  ghost predicate ContextsOk(s: State) {
    forall k :: k in s.contexts ==> ContextOk(s, k)
  }

  ghost predicate AllMissedOk(s: State) {
    forall id :: id in s.missed ==> MissedOk(s, id)
  }

  ghost predicate StartsOk(s: State) {
    forall i: nat :: i < |s.started| ==> StartOk(s, i)
  }

  ghost predicate Inv(s: State) {
    && (forall t: nat :: t in s.slots <==> t < |s.slots|)
    && (s.lock.Some? ==> s.lock.value in s.contexts)
    && EventsOk(s.calls, s.runs)
    && SlotsOk(s) && ContextsOk(s) && AllMissedOk(s) && StartsOk(s)
  }

  // ---- what a step leaves alone ----

  ghost predicate CallsGrow(calls: map<CallId, Call>, calls': map<CallId, Call>) {
    forall id :: id in calls ==> id in calls' && calls'[id] == calls[id]
  }

  ghost predicate OnlyContext(s: State, s': State, k: nat) {
    && s'.contexts.Keys == s.contexts.Keys && k in s.contexts
    && (forall j :: j in s.contexts && j != k ==> s'.contexts[j] == s.contexts[j])
  }

  /** Facts that no step takes back. */
  ghost predicate Grows(s: State, s': State) {
    && s'.slots.Keys == s.slots.Keys && |s'.slots| == |s.slots|
    && CallsGrow(s.calls, s'.calls)
    && (forall t :: t in s.started ==> t in s'.started)
    && (forall t :: t in s.slots && s.slots[t].online ==> s'.slots[t].online)
    && (forall t :: Looping(s, t) ==> Looping(s', t))
    && (forall id :: Settled(s, id) ==> Settled(s', id))
    && (forall i, t, f, d :: RanOn(s.runs, i, t, f, d) ==> RanOn(s'.runs, i, t, f, d))
  }

  /** The slot that a caller has found free, or has filled, is as the caller left it. */
  ghost predicate Undisturbed(s: State, s': State, pc: Pc) {
    !Posting(pc) && !pc.Out? && pc.id in s.calls ==>
      && var t := s.calls[pc.id].target;
      && (pc.SetFunc? && t in s.slots && t in s'.slots ==>
           && (s.slots[t].func == None ==> s'.slots[t].func == None)
           && (HasRun(s'.runs, pc.id) ==> HasRun(s.runs, pc.id)) && (pc.id in s'.missed ==> pc.id in s.missed))
      && (HoldsSlot(pc) && t in s.slots && t in s'.slots ==>
           && s'.slots[t].func == s.slots[t].func && s'.slots[t].owner == s.slots[t].owner
           && (s'.slots[t].pc == Running ==> s.slots[t].pc == Running))
  }

  lemma PcKept(s: State, s': State, k: nat, cpu: Cpu, pc: Pc)
    requires PcOk(s, k, cpu, pc) && Grows(s, s') && Undisturbed(s, s', pc)
    ensures PcOk(s', k, cpu, pc)
  {
    hide HasRun, Settled, RanOn;
    if Posting(pc) {
      assert pc.call.target in s'.slots.Keys;
    } else if !pc.Out? {
      assert s.calls[pc.id].target in s'.slots.Keys;
    }
  }

  lemma LoopKept(s: State, s': State, cpu: Cpu, pc: Pc, l: Loop)
    requires LoopOk(s, cpu, pc, l) && Grows(s, s')
    ensures LoopOk(s', cpu, pc, l)
  {
    hide HasRun, Settled, RanOn, SameWork, Looping;
    forall t | Covered(s, l, t) ensures Covered(s', l, t) {
      var id :| id in l.issued && id in s.calls && SameWork(s.calls[id], t, l);
      assert id in s'.calls && s'.calls[id] == s.calls[id];
    }
    if !pc.Out? {
      assert InHand(s', pc, l.next - 1, l);
    }
  }

  lemma OtherContext(s: State, s': State, j: nat)
    requires j in s.contexts && ContextOk(s, j) && j in s'.contexts && s'.contexts[j] == s.contexts[j]
    requires s'.lock == Some(j) <==> s.lock == Some(j)
    requires Grows(s, s') && Undisturbed(s, s', s.contexts[j].pc)
    ensures ContextOk(s', j)
  {
    hide PcOk, LoopOk, Settled, HasRun, Looping, RanOn;
    var c := s.contexts[j];
    PcKept(s, s', j, c.cpu, c.pc);
    assert c.cpu in s'.slots.Keys;
    if c.loop.Some? {
      LoopKept(s, s', c.cpu, c.pc, c.loop.value);
    }
  }

  /** Context k goes on; the lock is free or its own, before and after. */
  lemma OtherContexts(s: State, s': State, k: nat)
    requires ContextsOk(s) && OnlyContext(s, s', k) && Grows(s, s')
    requires s'.lock == s.lock || (s.lock == None && s'.lock == Some(k)) || (s.lock == Some(k) && s'.lock == None)
    requires forall j :: j in s.contexts && j != k ==> Undisturbed(s, s', s.contexts[j].pc)
    requires k in s'.contexts && ContextOk(s', k)
    ensures ContextsOk(s')
  {
    hide ContextOk, Grows, Undisturbed;
    forall j | j in s'.contexts && j != k ensures ContextOk(s', j) {
      assert j in s.contexts.Keys;
      OtherContext(s, s', j);
    }
  }

  /** A slot is in order as long as itself, its call and the caller's hold on it are the same. */
  lemma SlotKept(s: State, s': State, t: Cpu)
    requires t in s.slots && SlotOk(s, t) && t in s'.slots && s'.slots[t] == s.slots[t]
    requires CallsGrow(s.calls, s'.calls)
    requires
      var o := s.slots[t].owner;
      && (HasRun(s'.runs, o) <==> HasRun(s.runs, o)) && (o in s'.missed <==> o in s.missed)
      && (o in s.calls ==>
           var k := s.calls[o].caller;
           if k in s'.contexts && k in s.contexts && s'.contexts[k].pc == s.contexts[k].pc then true
           else Holding(s'.contexts, k, o) == Holding(s.contexts, k, o) == false)
    ensures SlotOk(s', t)
  {
    hide HasRun;
  }

  /** Calls, slots and runs are the same. */
  ghost predicate SameCalls(s: State, s': State) {
    && s'.slots == s.slots && s'.calls == s.calls && s'.runs == s.runs && s'.missed == s.missed
  }

  lemma SameGrows(s: State, s': State)
    requires SameCalls(s, s') && s.started <= s'.started
    ensures Grows(s, s') && forall pc :: Undisturbed(s, s', pc)
  {
    hide HasRun, RanOn;
    assert forall t :: t in s.started ==> t in s'.started;
  }

  /** Steps of a caller that does not hold a slot, before or after. */
  lemma SlotsSame(s: State, s': State, k: nat)
    requires SlotsOk(s) && SameCalls(s, s') && OnlyContext(s, s', k)
    requires k in s'.contexts && !HoldsSlot(s.contexts[k].pc) && !HoldsSlot(s'.contexts[k].pc)
    ensures SlotsOk(s')
  {
    hide HasRun;
    hide SlotOk;
    forall t | t in s'.slots ensures SlotOk(s', t) {
      assert s.slots[t].owner in s.calls ==>
        (s.calls[s.slots[t].owner].caller in s'.contexts.Keys <==> s.calls[s.slots[t].owner].caller in s.contexts.Keys);
      SlotKept(s, s', t);
    }
  }

  // ---- steps up to the slot ----

  /** The call of a point in on_cpu. */
  function CallAt(s: State, pc: Pc): Option<Call> {
    if Posting(pc) then Some(pc.call)
    else if !pc.Out? && pc.id in s.calls then Some(s.calls[pc.id]) else None
  }

  lemma LoopAdvances(s: State, cpu: Cpu, pc: Pc, pc': Pc, l: Loop)
    requires LoopOk(s, cpu, pc, l) && !pc.Out? && !pc'.Out? && !pc'.Await?
    requires CallAt(s, pc) == CallAt(s, pc') && CallAt(s, pc).Some?
    ensures LoopOk(s, cpu, pc', l)
  {
    hide HasRun, Settled, RanOn, SameWork, Covered;
  }

  /** Context k advances within its call, nothing stored changes. */
  lemma AdvanceKeeps(s: State, s': State, k: nat, pc: Pc)
    requires Inv(s) && k in s.contexts && OnlyContext(s, s', k) && SameCalls(s, s') && s.started <= s'.started
    requires k in s'.contexts && s'.contexts[k] == s.contexts[k].(pc := pc)
    requires s'.lock == s.lock || (s.lock == None && s'.lock == Some(k)) || (s.lock == Some(k) && s'.lock == None)
    requires HoldsLock(pc) <==> s'.lock == Some(k)
    requires !s.contexts[k].pc.Out? && !pc.Out? && !pc.Await? && !HoldsSlot(s.contexts[k].pc) && !HoldsSlot(pc)
    requires CallAt(s, s.contexts[k].pc) == CallAt(s, pc) && CallAt(s, pc).Some?
    requires PcOk(s', k, s.contexts[k].cpu, pc)
    requires StartsOk(s')
    ensures Inv(s')
  {
    hide EventsOk, SlotsOk, StartsOk, PcOk, LoopOk, HasRun, Settled, RanOn, MissedOk, HoldsSlot, HoldsLock, CallAt;
    assert ContextOk(s, k);
    var c := s.contexts[k];
    SameGrows(s, s');
    SlotsSame(s, s', k);
    if c.loop.Some? {
      LoopAdvances(s, c.cpu, c.pc, pc, c.loop.value);
      LoopKept(s, s', c.cpu, pc, c.loop.value);
    }
    OtherContexts(s, s', k);
    MissedSame(s, s');
  }

  lemma MissedSame(s: State, s': State)
    requires AllMissedOk(s) && SameCalls(s, s')
    ensures AllMissedOk(s')
  {
    hide HasRun;
    forall id | id in s'.missed ensures MissedOk(s', id) {
      assert MissedOk(s, id);
    }
  }

  /** Only the holder of the lock awaits a started CPU, so its other steps and those of others leave the
      started CPUs in order. */
  lemma StartsSame(s: State, s': State, k: nat)
    requires StartsOk(s) && s'.slots.Keys == s.slots.Keys && s'.started == s.started
    requires forall t :: t in s.slots && s.slots[t].online ==> s'.slots[t].online
    requires s'.contexts.Keys == s.contexts.Keys && k in s.contexts
    requires forall j :: j in s.contexts && j != k ==> s'.contexts[j].pc == s.contexts[j].pc
    requires s.lock == s'.lock || s.lock == None || s.lock == Some(k)
    requires s.lock == Some(k) && s.contexts[k].pc.BootWait? ==>
      && s.contexts[k].pc.call.target in s.slots
      && (s.slots[s.contexts[k].pc.call.target].online || (s'.lock == s.lock && s'.contexts[k].pc == s.contexts[k].pc))
    ensures StartsOk(s')
  {
    forall i: nat | i < |s'.started| ensures StartOk(s', i) {
      assert StartOk(s, i);
      assert s.started[i] in s'.slots.Keys;
      assert s.lock.Some? && s.lock.value in s.contexts ==> s.lock.value in s'.contexts.Keys;
    }
  }

  lemma BootLockKeeps(s: State, k: nat)
    requires Inv(s) && k in s.contexts && s.contexts[k].pc.BootLock? && s.lock == None
    ensures s.contexts[k].pc.call.target in s.slots && Inv(TakeBootLock(s, k))
  {
    hide EventsOk, SlotsOk, LoopOk, HasRun, Settled, RanOn, MissedOk, SlotOk, StartsOk;
    assert ContextOk(s, k);
    var s' := TakeBootLock(s, k);
    BootStarts(s, k);
    AdvanceKeeps(s, s', k, s'.contexts[k].pc);
  }

  lemma BootStarts(s: State, k: nat)
    requires StartsOk(s) && k in s.contexts && s.contexts[k].pc.BootLock? && s.lock == None
    requires s.contexts[k].pc.call.target in s.slots
    ensures StartsOk(TakeBootLock(s, k)) && s.started <= TakeBootLock(s, k).started
  {
    var s' := TakeBootLock(s, k);
    forall j: nat | j < |s.started| ensures s.started[j] in s.slots && s.slots[s.started[j]].online {
      assert StartOk(s, j);
    }
    forall i: nat | i < |s'.started| ensures StartOk(s', i) {
      if i < |s.started| {
        assert StartOk(s, i);
      }
    }
  }

  lemma BootWaitKeeps(s: State, k: nat)
    requires Inv(s) && CallerEnabled(s, k, 0) && s.contexts[k].pc.BootWait?
    ensures Inv(CallerStep(s, k, 0))
  {
    hide EventsOk, SlotsOk, LoopOk, HasRun, Settled, RanOn, MissedOk, SlotOk, StartsOk;
    assert ContextOk(s, k);
    var s' := CallerStep(s, k, 0);
    StartsSame(s, s', k);
    AdvanceKeeps(s, s', k, s'.contexts[k].pc);
  }

  /** The remaining steps before the slot is found free. */
  predicate Plain(pc: Pc) {
    pc.BootUnlock? || pc.Wait? || pc.CheckLock? || pc.Retry?
  }

  lemma PlainPc(s: State, k: nat)
    requires CallerEnabled(s, k, 0) && Plain(s.contexts[k].pc) && PcOk(s, k, s.contexts[k].cpu, s.contexts[k].pc)
    requires SlotOk(s, s.contexts[k].pc.call.target)
    ensures PcOk(CallerStep(s, k, 0), k, s.contexts[k].cpu, CallerStep(s, k, 0).contexts[k].pc)
  {
    hide HasRun, Settled, Held, Left;
  }

  lemma PlainKeeps(s: State, k: nat)
    requires Inv(s) && CallerEnabled(s, k, 0) && Plain(s.contexts[k].pc)
    ensures Inv(CallerStep(s, k, 0))
  {
    hide EventsOk, LoopOk, HasRun, Settled, RanOn, MissedOk, SlotOk, StartsOk, PcOk;
    assert ContextOk(s, k);
    var s' := CallerStep(s, k, 0);
    StartsSame(s, s', k);
    PlainPc(s, k);
    AdvanceKeeps(s, s', k, s'.contexts[k].pc);
  }

  // the slot is checked

  lemma EventsKept(calls: map<CallId, Call>, calls': map<CallId, Call>, runs: seq<Event>)
    requires EventsOk(calls, runs) && CallsGrow(calls, calls')
    ensures EventsOk(calls', runs)
  {
    forall i: nat | i < |runs| ensures EventOk(calls', runs, i) {
      assert EventOk(calls, runs, i);
    }
  }

  lemma EventsExtended(calls: map<CallId, Call>, runs: seq<Event>, e: Event)
    requires EventsOk(calls, runs) && !HasRun(runs, e.id)
    requires e.id in calls && calls[e.id].target == e.cpu && calls[e.id].func == e.func && calls[e.id].arg == e.arg
    ensures EventsOk(calls, runs + [e])
    ensures MoreRuns(runs, runs + [e], e.id) && HasRun(runs + [e], e.id)
  {
    forall i: nat | i < |runs + [e]| ensures EventOk(calls, runs + [e], i) {
      if i < |runs| {
        assert EventOk(calls, runs, i);
      }
    }
    assert (runs + [e])[|runs|] == e;
    forall i: CallId | i != e.id ensures HasRun(runs + [e], i) <==> HasRun(runs, i) {
      forall j | 0 <= j < |runs| ensures (runs + [e])[j] == runs[j] {
      }
    }
  }

  lemma Unused(s: State, id: CallId)
    requires EventsOk(s.calls, s.runs) && AllMissedOk(s) && id !in s.calls
    ensures !HasRun(s.runs, id) && id !in s.missed
  {
    forall i: nat | i < |s.runs| ensures s.runs[i].id != id {
      assert EventOk(s.calls, s.runs, i);
    }
    assert id in s.missed ==> MissedOk(s, id);
  }

  /** A new id is given to a call, which may be run at once: nothing else changes. */
  ghost predicate NewCall(s: State, s': State, id: CallId, call: Call) {
    && id !in s.calls && s'.calls == s.calls[id := call] && MoreRuns(s.runs, s'.runs, id)
    && s'.slots == s.slots && s'.missed == s.missed && s'.started == s.started && s'.lock == s.lock
  }

  ghost predicate MoreRuns(runs: seq<Event>, runs': seq<Event>, id: CallId) {
    && runs <= runs'
    && (forall i: CallId :: i != id ==> (HasRun(runs', i) <==> HasRun(runs, i)))
  }

  lemma MoreRunsGrow(runs: seq<Event>, runs': seq<Event>)
    requires runs <= runs'
    ensures forall i, t, f, d :: RanOn(runs, i, t, f, d) ==> RanOn(runs', i, t, f, d)
    ensures forall i: CallId :: HasRun(runs, i) ==> HasRun(runs', i)
  {
    forall i: CallId | HasRun(runs, i) ensures HasRun(runs', i) {
      var j :| 0 <= j < |runs| && runs[j].id == i;
      assert runs'[j] == runs[j];
    }
  }

  lemma NewCallGrows(s: State, s': State, id: CallId, call: Call)
    requires NewCall(s, s', id, call)
    ensures Grows(s, s') && forall pc: Pc :: Posting(pc) || pc.Out? || pc.id in s.calls ==> Undisturbed(s, s', pc)
  {
    hide HasRun, RanOn;
    MoreRunsGrow(s.runs, s'.runs);
  }

  lemma NewCallSlots(s: State, s': State, k: nat, id: CallId, call: Call)
    requires NewCall(s, s', id, call) && SlotsOk(s) && OnlyContext(s, s', k) && k in s'.contexts
    requires !HoldsSlot(s.contexts[k].pc) && !HoldsSlot(s'.contexts[k].pc)
    ensures SlotsOk(s')
  {
    hide HasRun;
    forall t | t in s'.slots ensures SlotOk(s', t) {
      NewCallSlot(s, s', k, id, call, t);
    }
  }

  lemma NewCallSlot(s: State, s': State, k: nat, id: CallId, call: Call, t: Cpu)
    requires NewCall(s, s', id, call) && t in s.slots && SlotOk(s, t) && OnlyContext(s, s', k) && k in s'.contexts
    requires !HoldsSlot(s.contexts[k].pc) && !HoldsSlot(s'.contexts[k].pc)
    ensures SlotOk(s', t)
  {
    hide HasRun;
    var o := s.slots[t].owner;
    assert o in s.calls ==> (s.calls[o].caller in s'.contexts.Keys <==> s.calls[o].caller in s.contexts.Keys);
    if o in s.calls {
      assert o != id;
    }
  }

  /** Other contexts in the presence of a new call. */
  lemma NewCallContexts(s: State, s': State, k: nat, id: CallId, call: Call)
    requires NewCall(s, s', id, call) && ContextsOk(s) && OnlyContext(s, s', k) && k in s'.contexts && ContextOk(s', k)
    ensures ContextsOk(s')
  {
    hide HasRun, RanOn, Settled, LoopOk, Undisturbed;
    NewCallGrows(s, s', id, call);
    forall j | j in s.contexts && j != k ensures Undisturbed(s, s', s.contexts[j].pc) {
      assert ContextOk(s, j);
    }
    OtherContexts(s, s', k);
  }

  lemma NewCallRest(s: State, s': State, k: nat, id: CallId, call: Call)
    requires NewCall(s, s', id, call) && OnlyContext(s, s', k) && k in s'.contexts
    requires AllMissedOk(s) && StartsOk(s)
    requires !s.contexts[k].pc.BootWait?
    ensures AllMissedOk(s') && StartsOk(s')
  {
    hide HasRun;
    forall i | i in s'.missed ensures MissedOk(s', i) {
      assert MissedOk(s, i);
    }
    StartsSame(s, s', k);
  }

  lemma CheckFreeContext(s: State, k: nat, id: CallId)
    requires CallerEnabled(s, k, id) && s.contexts[k].pc.Check? && ContextOk(s, k)
    requires s.slots[s.contexts[k].pc.call.target].func == None && !HasRun(s.runs, id) && id !in s.missed
    ensures ContextOk(CheckSlot(s, k, id), k)
  {
    hide HasRun, RanOn, Settled;
    var c := s.contexts[k];
    var s' := CheckSlot(s, k, id);
    NewCallGrows(s, s', id, c.pc.call);
    if c.loop.Some? {
      LoopKept(s, s', c.cpu, c.pc, c.loop.value);
      LoopAdvances(s', c.cpu, c.pc, SetFunc(id), c.loop.value);
    }
  }

  lemma CheckKeeps(s: State, k: nat, id: CallId)
    requires Inv(s) && CallerEnabled(s, k, id) && s.contexts[k].pc.Check?
    ensures Inv(CheckSlot(s, k, id))
  {
    hide EventsOk, LoopOk, HasRun, Settled, RanOn, MissedOk, SlotOk, StartsOk, PcOk;
    assert ContextOk(s, k);
    var s' := CheckSlot(s, k, id);
    var call := s.contexts[k].pc.call;
    Unused(s, id);
    if s.slots[call.target].func == None {
      EventsKept(s.calls, s'.calls, s.runs);
      CheckFreeContext(s, k, id);
      NewCallSlots(s, s', k, id, call);
      NewCallContexts(s, s', k, id, call);
      NewCallRest(s, s', k, id, call);
    } else {
      StartsSame(s, s', k);
      RetryPc(s, k, id);
      AdvanceKeeps(s, s', k, Retry(call));
    }
  }

  lemma RetryPc(s: State, k: nat, id: CallId)
    requires CallerEnabled(s, k, id) && s.contexts[k].pc.Check? && ContextOk(s, k)
    requires s.slots[s.contexts[k].pc.call.target].func != None
    ensures PcOk(CheckSlot(s, k, id), k, s.contexts[k].cpu, Retry(s.contexts[k].pc.call))
  {
    hide HasRun, RanOn, Settled, LoopOk;
  }

  // ---- filling the slot ----

  /** The slot of one CPU changes, and the holder of that slot or the CPU itself moves on. */
  ghost predicate OnlySlot(s: State, s': State, t: Cpu) {
    && t in s.slots && s'.slots.Keys == s.slots.Keys && |s'.slots| == |s.slots|
    && (forall u :: u in s.slots && u != t ==> s'.slots[u] == s.slots[u])
  }

  /** Another slot is held by another caller, or by none. */
  lemma OtherSlot(s: State, s': State, k: nat, id: CallId, t: Cpu, u: Cpu)
    requires OnlySlot(s, s', t) && OnlyContext(s, s', k) && id in s.calls && s.calls[id].target == t
    requires s'.calls == s.calls && s'.runs == s.runs
    requires forall i: CallId :: i != id ==> (i in s'.missed <==> i in s.missed)
    requires forall i: CallId :: i != id ==> !Holding(s.contexts, k, i) && !Holding(s'.contexts, k, i)
    requires u in s.slots && u != t && SlotOk(s, u)
    ensures u in s'.slots && SlotOk(s', u)
  {
    hide HasRun;
    assert u in s'.slots.Keys;
    var o := s.slots[u].owner;
    assert o in s.calls ==> (s.calls[o].caller in s'.contexts.Keys <==> s.calls[o].caller in s.contexts.Keys);
  }

  /** Context k, with call id for CPU t, changes the slot of t. */
  ghost predicate Touches(s: State, s': State, k: nat, id: CallId, t: Cpu) {
    && OnlySlot(s, s', t) && OnlyContext(s, s', k) && k in s'.contexts && id in s.calls && s.calls[id].target == t
    && s'.calls == s.calls && s'.runs == s.runs && s'.started == s.started
    && (forall i: CallId :: i != id ==> (i in s'.missed <==> i in s.missed))
    && (forall i: CallId :: i != id ==> !Holding(s.contexts, k, i) && !Holding(s'.contexts, k, i))
    && (s'.lock == s.lock || (s.lock == Some(k) && s'.lock == None))
    && (s'.slots[t].online <==> s.slots[t].online)
    && !s.contexts[k].pc.BootWait?
  }

  lemma TouchKeeps(s: State, s': State, k: nat, id: CallId, t: Cpu)
    requires Inv(s) && Touches(s, s', k, id, t) && Grows(s, s')
    requires SlotOk(s', t) && ContextOk(s', k) && AllMissedOk(s')
    requires forall j :: j in s.contexts && j != k ==> Undisturbed(s, s', s.contexts[j].pc)
    ensures Inv(s')
  {
    hide SlotOk, ContextOk, AllMissedOk, HasRun, EventsOk, StartsOk, Undisturbed, Grows;
    forall u | u in s'.slots && u != t ensures SlotOk(s', u) {
      assert u in s.slots.Keys;
      OtherSlot(s, s', k, id, t, u);
    }
    OtherContexts(s, s', k);
    StartsSame(s, s', k);
    assert forall u: nat :: u in s'.slots <==> u in s'.slots.Keys;
  }

  lemma MissedElsewhere(s: State, s': State, i: CallId)
    requires MissedOk(s, i) && s'.calls == s.calls && s'.runs == s.runs
    requires s.calls[i].target in s'.slots && s'.slots[s.calls[i].target] == s.slots[s.calls[i].target]
    ensures MissedOk(s', i)
  {
    hide HasRun;
  }

  // the function is stored

  lemma FreeSlot(s: State, t: Cpu)
    requires t in s.slots && SlotOk(s, t) && Looping(s, t) && s.slots[t].func == None
    ensures if s.slots[t].idle then s.slots[t].pc == Waiting else s.slots[t].pc == Cleared
  {
    hide HasRun;
  }

  lemma StoreSlot(s: State, k: nat, id: CallId)
    requires CallerEnabled(s, k, id) && s.contexts[k].pc == SetFunc(id) && PcOk(s, k, s.contexts[k].cpu, SetFunc(id))
    requires SlotOk(s, s.calls[id].target)
    ensures SlotOk(CallerStep(s, k, id), s.calls[id].target)
  {
    hide HasRun;
    FreeSlot(s, s.calls[id].target);
  }

  lemma StoreContext(s: State, k: nat, id: CallId)
    requires CallerEnabled(s, k, id) && s.contexts[k].pc == SetFunc(id) && ContextOk(s, k)
    requires SlotOk(s, s.calls[id].target) && Grows(s, CallerStep(s, k, id))
    ensures ContextOk(CallerStep(s, k, id), k)
  {
    hide HasRun, RanOn, Settled, Grows, Held, Left;
    FreeSlot(s, s.calls[id].target);
    var c := s.contexts[k];
    var s' := CallerStep(s, k, id);
    if c.loop.Some? {
      LoopKept(s, s', c.cpu, c.pc, c.loop.value);
      LoopAdvances(s', c.cpu, c.pc, SetData(id), c.loop.value);
    }
  }

  lemma StoreGrows(s: State, k: nat, id: CallId)
    requires CallerEnabled(s, k, id) && s.contexts[k].pc == SetFunc(id)
    requires s.slots[s.calls[id].target].func == None
    ensures Grows(s, CallerStep(s, k, id))
  {
    hide HasRun, RanOn;
  }

  lemma StoreTouches(s: State, k: nat, id: CallId)
    requires CallerEnabled(s, k, id) && s.contexts[k].pc == SetFunc(id)
    requires s.slots[s.calls[id].target].func == None
    ensures Touches(s, CallerStep(s, k, id), k, id, s.calls[id].target)
  {
    hide HasRun, RanOn;
  }

  lemma StoreUndisturbs(s: State, k: nat, id: CallId, j: nat)
    requires CallerEnabled(s, k, id) && s.contexts[k].pc == SetFunc(id) && ContextOk(s, k)
    requires j in s.contexts && j != k && ContextOk(s, j)
    ensures Undisturbed(s, CallerStep(s, k, id), s.contexts[j].pc)
  {
    hide HasRun, RanOn, Settled, LoopOk;
  }

  lemma StoreMissed(s: State, k: nat, id: CallId)
    requires CallerEnabled(s, k, id) && s.contexts[k].pc == SetFunc(id) && AllMissedOk(s)
    requires s.slots[s.calls[id].target].func == None
    ensures AllMissedOk(CallerStep(s, k, id))
  {
    hide HasRun;
    var s' := CallerStep(s, k, id);
    forall i | i in s'.missed ensures MissedOk(s', i) {
      assert MissedOk(s, i);
      MissedElsewhere(s, s', i);
    }
  }

  lemma StoreKeeps(s: State, k: nat, id: CallId)
    requires Inv(s) && CallerEnabled(s, k, id) && s.contexts[k].pc == SetFunc(id)
    ensures Inv(CallerStep(s, k, id))
  {
    hide SlotOk, HasRun, EventsOk, StartsOk, Undisturbed, Grows, CallerStep, LoopOk, MissedOk, AllMissedOk, Touches;
    assert ContextOk(s, k);
    var t, s' := s.calls[id].target, CallerStep(s, k, id);
    StoreGrows(s, k, id);
    StoreTouches(s, k, id);
    StoreSlot(s, k, id);
    StoreContext(s, k, id);
    forall j | j in s.contexts && j != k ensures Undisturbed(s, s', s.contexts[j].pc) {
      StoreUndisturbs(s, k, id, j);
    }
    StoreMissed(s, k, id);
    TouchKeeps(s, s', k, id, t);
  }

  // the argument is stored, the lock released

  predicate Filling(pc: Pc) {
    pc.SetData? || pc.Unlock?
  }

  /** A slot that a caller holds is not being read: its CPU waits, or has not yet set its idle bit again. */
  lemma HeldFacts(s: State, k: nat, cpu: Cpu, pc: Pc)
    requires k in s.contexts && s.contexts[k].pc == pc && HoldsSlot(pc) && PcOk(s, k, cpu, pc)
    requires SlotOk(s, s.calls[pc.id].target)
    ensures
      var t := s.calls[pc.id].target;
      Held(s, t) && s.slots[t].owner == pc.id && (if s.slots[t].idle then s.slots[t].pc == Waiting else s.slots[t].pc == Cleared)
  {
    hide HasRun;
  }

  lemma FillSlot(s: State, k: nat, id: CallId)
    requires CallerEnabled(s, k, id) && Filling(s.contexts[k].pc) && s.contexts[k].pc.id == id
    requires PcOk(s, k, s.contexts[k].cpu, s.contexts[k].pc)
    requires SlotOk(s, s.calls[id].target)
    ensures SlotOk(CallerStep(s, k, id), s.calls[id].target)
  {
    hide HasRun;
    HeldFacts(s, k, s.contexts[k].cpu, s.contexts[k].pc);
  }

  lemma FillGrows(s: State, k: nat, id: CallId)
    requires CallerEnabled(s, k, id) && Filling(s.contexts[k].pc) && s.contexts[k].pc.id == id && s.lock == Some(k)
    ensures Grows(s, CallerStep(s, k, id))
  {
    hide HasRun, RanOn;
  }

  lemma FillTouches(s: State, k: nat, id: CallId)
    requires CallerEnabled(s, k, id) && Filling(s.contexts[k].pc) && s.contexts[k].pc.id == id && s.lock == Some(k)
    ensures Touches(s, CallerStep(s, k, id), k, id, s.calls[id].target)
    ensures forall pc :: Undisturbed(s, CallerStep(s, k, id), pc)
  {
    hide HasRun, RanOn;
  }

  lemma FillPc(s: State, k: nat, id: CallId)
    requires CallerEnabled(s, k, id) && Filling(s.contexts[k].pc) && s.contexts[k].pc.id == id && ContextOk(s, k)
    ensures
      var s' := CallerStep(s, k, id);
      var pc := s'.contexts[k].pc;
      && PcOk(s', k, s.contexts[k].cpu, pc) && (HoldsLock(pc) <==> s'.lock == Some(k)) && s.lock == Some(k)
      && CallAt(s', s.contexts[k].pc) == CallAt(s', pc) && CallAt(s', pc).Some? && !pc.Await? && !pc.Out?
      && s'.contexts[k] == s.contexts[k].(pc := pc)
  {
    hide HasRun, RanOn, Settled, LoopOk;
  }

  lemma FillContext(s: State, k: nat, id: CallId)
    requires CallerEnabled(s, k, id) && Filling(s.contexts[k].pc) && s.contexts[k].pc.id == id && ContextOk(s, k)
    requires Grows(s, CallerStep(s, k, id))
    ensures ContextOk(CallerStep(s, k, id), k)
  {
    hide HasRun, RanOn, Settled, LoopOk, PcOk, CallAt, HoldsLock;
    var c := s.contexts[k];
    var s' := CallerStep(s, k, id);
    FillPc(s, k, id);
    assert k in s'.contexts;
    assert c.cpu in s'.slots.Keys;
    if c.loop.Some? {
      LoopKept(s, s', c.cpu, c.pc, c.loop.value);
      LoopAdvances(s', c.cpu, c.pc, s'.contexts[k].pc, c.loop.value);
    }
  }

  lemma FillMissed(s: State, k: nat, id: CallId)
    requires CallerEnabled(s, k, id) && Filling(s.contexts[k].pc) && s.contexts[k].pc.id == id && AllMissedOk(s)
    ensures AllMissedOk(CallerStep(s, k, id))
  {
    hide HasRun;
    var s' := CallerStep(s, k, id);
    forall i | i in s'.missed ensures MissedOk(s', i) {
      assert MissedOk(s, i);
    }
  }

  lemma FillKeeps(s: State, k: nat, id: CallId)
    requires Inv(s) && CallerEnabled(s, k, id) && Filling(s.contexts[k].pc) && s.contexts[k].pc.id == id
    ensures Inv(CallerStep(s, k, id))
  {
    hide SlotOk, HasRun, EventsOk, StartsOk, Undisturbed, Grows, CallerStep, LoopOk, MissedOk, AllMissedOk, Touches;
    assert ContextOk(s, k);
    var t, s' := s.calls[id].target, CallerStep(s, k, id);
    FillGrows(s, k, id);
    FillTouches(s, k, id);
    FillSlot(s, k, id);
    FillContext(s, k, id);
    FillMissed(s, k, id);
    TouchKeeps(s, s', k, id, t);
  }

  // the idle bit is cleared

  lemma WakeSlot(s: State, k: nat, id: CallId)
    requires CallerEnabled(s, k, id) && s.contexts[k].pc == Wake(id) && PcOk(s, k, s.contexts[k].cpu, Wake(id))
    requires SlotOk(s, s.calls[id].target)
    ensures SlotOk(WakeTarget(s, k, id), s.calls[id].target)
  {
    hide HasRun;
    HeldFacts(s, k, s.contexts[k].cpu, s.contexts[k].pc);
  }

  lemma WakeGrows(s: State, k: nat, id: CallId)
    requires CallerEnabled(s, k, id) && s.contexts[k].pc == Wake(id)
    ensures Grows(s, WakeTarget(s, k, id))
  {
    hide HasRun, RanOn;
  }

  lemma WakeTouches(s: State, k: nat, id: CallId)
    requires CallerEnabled(s, k, id) && s.contexts[k].pc == Wake(id)
    ensures Touches(s, WakeTarget(s, k, id), k, id, s.calls[id].target)
  {
    hide HasRun, RanOn;
  }

  lemma WakeUndisturbs(s: State, k: nat, id: CallId, j: nat)
    requires CallerEnabled(s, k, id) && s.contexts[k].pc == Wake(id) && ContextOk(s, k)
    requires j in s.contexts && j != k && ContextOk(s, j)
    ensures Undisturbed(s, WakeTarget(s, k, id), s.contexts[j].pc)
  {
    hide HasRun, RanOn, Settled, LoopOk;
  }

  lemma WakeMissed(s: State, k: nat, id: CallId)
    requires CallerEnabled(s, k, id) && s.contexts[k].pc == Wake(id) && PcOk(s, k, s.contexts[k].cpu, Wake(id))
    requires SlotOk(s, s.calls[id].target) && AllMissedOk(s)
    ensures AllMissedOk(WakeTarget(s, k, id))
  {
    hide HasRun;
    HeldFacts(s, k, s.contexts[k].cpu, s.contexts[k].pc);
    var s' := WakeTarget(s, k, id);
    forall i | i in s'.missed ensures MissedOk(s', i) {
      if i != id {
        assert MissedOk(s, i);
        MissedElsewhere(s, s', i);
      }
    }
  }

  lemma WakeSettles(s: State, k: nat, id: CallId)
    requires CallerEnabled(s, k, id) && s.contexts[k].pc == Wake(id) && PcOk(s, k, s.contexts[k].cpu, Wake(id))
    requires SlotOk(s, s.calls[id].target)
    ensures Settled(WakeTarget(s, k, id), id)
  {
    hide HasRun;
    HeldFacts(s, k, s.contexts[k].cpu, s.contexts[k].pc);
  }

  /** The call just made joins those issued. */
  lemma LoopIssued(s: State, cpu: Cpu, id: CallId, l: Loop)
    requires LoopOk(s, cpu, Wake(id), l) && Settled(s, id)
    requires id in s.calls && s.calls[id].target in s.slots && s.calls[id].target != cpu
    ensures LoopOk(s, cpu, Out, l.(issued := l.issued + {id}))
  {
    hide HasRun, Settled, RanOn, SameWork;
    var l' := l.(issued := l.issued + {id});
    forall t | Covered(s, l, t) ensures Covered(s, l', t) {
      var i :| i in l.issued && i in s.calls && SameWork(s.calls[i], t, l);
      assert i in l'.issued;
      SameWorkFrom(s.calls[i], t, l, l');
    }
    assert id in l'.issued;
    SameWorkFrom(s.calls[id], l.next - 1, l, l');
    assert Covered(s, l', l.next - 1);
  }

  lemma SameWorkFrom(call: Call, t: Cpu, l: Loop, l': Loop)
    requires SameWork(call, t, l) && l'.func == l.func && l'.arg == l.arg
    ensures SameWork(call, t, l')
  {
  }

  lemma WakeContext(s: State, k: nat, id: CallId)
    requires CallerEnabled(s, k, id) && s.contexts[k].pc == Wake(id) && ContextOk(s, k)
    requires Grows(s, WakeTarget(s, k, id)) && Settled(WakeTarget(s, k, id), id)
    ensures ContextOk(WakeTarget(s, k, id), k)
  {
    hide HasRun, RanOn, Settled, Covered;
    var c := s.contexts[k];
    var s' := WakeTarget(s, k, id);
    if c.loop.Some? {
      LoopKept(s, s', c.cpu, c.pc, c.loop.value);
      LoopIssued(s', c.cpu, id, c.loop.value);
    }
  }

  lemma WakeKeeps(s: State, k: nat, id: CallId)
    requires Inv(s) && CallerEnabled(s, k, id) && s.contexts[k].pc == Wake(id)
    ensures Inv(WakeTarget(s, k, id))
  {
    hide SlotOk, HasRun, EventsOk, StartsOk, Undisturbed, Grows, WakeTarget, LoopOk, MissedOk, AllMissedOk, Touches;
    assert ContextOk(s, k);
    var t, s' := s.calls[id].target, WakeTarget(s, k, id);
    WakeGrows(s, k, id);
    WakeTouches(s, k, id);
    WakeSlot(s, k, id);
    WakeSettles(s, k, id);
    WakeContext(s, k, id);
    WakeMissed(s, k, id);
    forall j | j in s.contexts && j != k ensures Undisturbed(s, s', s.contexts[j].pc) {
      WakeUndisturbs(s, k, id, j);
    }
    TouchKeeps(s, s', k, id, t);
  }

  // ---- steps outside the slots ----

  /** Context k goes on without touching a call. */
  lemma FlowKeeps(s: State, s': State, k: nat)
    requires Inv(s) && SameCalls(s, s') && OnlyContext(s, s', k) && s'.lock == s.lock && s'.started == s.started
    requires k in s'.contexts && ContextOk(s', k)
    requires !HoldsSlot(s.contexts[k].pc) && !HoldsSlot(s'.contexts[k].pc) && !s.contexts[k].pc.BootWait?
    ensures Inv(s')
  {
    hide ContextOk, EventsOk, SlotsOk, StartsOk, AllMissedOk, HoldsSlot, SameCalls, Undisturbed;
    assert s'.slots == s.slots && s'.calls == s.calls && s'.runs == s.runs by { SameParts(s, s'); }
    SameGrows(s, s');
    SlotsSame(s, s', k);
    StartsSame(s, s', k);
    MissedSame(s, s');
    OtherContexts(s, s', k);
  }

  lemma SameParts(s: State, s': State)
    requires SameCalls(s, s')
    ensures s'.slots == s.slots && s'.calls == s.calls && s'.runs == s.runs && s'.missed == s.missed
  {
  }

  lemma AwaitKeeps(s: State, k: nat, id: CallId)
    requires Inv(s) && CallerEnabled(s, k, id) && s.contexts[k].pc.Await?
    ensures Inv(CallerStep(s, k, id))
  {
    hide EventsOk, SlotsOk, StartsOk, AllMissedOk, Covered, Settled, HasRun, RanOn;
    assert ContextOk(s, k);
    FlowKeeps(s, CallerStep(s, k, id), k);
  }

  lemma BeginKeeps(s: State, k: nat, call: Call)
    requires Inv(s) && Enabled(s, Begin(k, call))
    ensures Inv(Step(s, Begin(k, call)))
  {
    hide EventsOk, SlotsOk, StartsOk, AllMissedOk, Covered, Settled, HasRun, RanOn;
    assert ContextOk(s, k);
    FlowKeeps(s, Step(s, Begin(k, call)), k);
  }

  lemma BeginAllKeeps(s: State, k: nat, func: nat, arg: nat)
    requires Inv(s) && Enabled(s, BeginAll(k, func, arg))
    ensures Inv(Step(s, BeginAll(k, func, arg)))
  {
    hide EventsOk, SlotsOk, StartsOk, AllMissedOk, Covered, Settled, HasRun, RanOn;
    assert ContextOk(s, k);
    FlowKeeps(s, Step(s, BeginAll(k, func, arg)), k);
  }

  lemma EndAllKeeps(s: State, k: nat)
    requires Inv(s) && Enabled(s, EndAll(k))
    ensures Inv(Step(s, EndAll(k)))
  {
    hide EventsOk, SlotsOk, StartsOk, AllMissedOk, Covered, Settled, HasRun, RanOn;
    assert ContextOk(s, k);
    FlowKeeps(s, Step(s, EndAll(k)), k);
  }

  lemma NextLoop(s: State, k: nat)
    requires Enabled(s, NextCpu(k)) && ContextOk(s, k) && (forall t: nat :: t in s.slots <==> t < |s.slots|)
    ensures ContextOk(NextStep(s, k), k)
  {
    hide HasRun, RanOn, Settled, SameWork;
    var c, s' := s.contexts[k], NextStep(s, k);
    var l, l' := c.loop.value, s'.contexts[k].loop.value;
    forall t | Covered(s, l, t) ensures Covered(s', l', t) {
      var i :| i in l.issued && i in s.calls && SameWork(s.calls[i], t, l);
      SameWorkFrom(s.calls[i], t, l, l');
      assert i in l'.issued;
    }
    forall id | id in l'.issued ensures Settled(s', id) {
      SettledSame(s, s', id);
    }
    NextInHand(s', k, c.cpu, l, l');
  }

  lemma SettledSame(s: State, s': State, id: CallId)
    requires SameCalls(s, s') && Settled(s, id)
    ensures Settled(s', id)
  {
    hide HasRun;
  }

  lemma NextInHand(s: State, k: nat, cpu: Cpu, l: Loop, l': Loop)
    requires l' == l.(next := l.next + 1)
    ensures InHand(s, BootLock(Call(k, l.next, l.func, l.arg, false)), l'.next - 1, l')
  {
  }

  lemma NextCpuKeeps(s: State, k: nat)
    requires Inv(s) && Enabled(s, NextCpu(k))
    ensures Inv(Step(s, NextCpu(k)))
  {
    hide EventsOk, SlotsOk, StartsOk, AllMissedOk, LoopOk, ContextOk;
    NextLoop(s, k);
    FlowKeeps(s, Step(s, NextCpu(k)), k);
  }

  // calls for the caller's own CPU

  lemma DirectKeeps(s: State, s': State, k: nat, id: CallId, call: Call)
    requires Inv(s) && NewCall(s, s', id, call) && OnlyContext(s, s', k) && k in s'.contexts && ContextOk(s', k)
    requires EventsOk(s'.calls, s'.runs)
    requires !HoldsSlot(s.contexts[k].pc) && !HoldsSlot(s'.contexts[k].pc) && !s.contexts[k].pc.BootWait?
    ensures Inv(s')
  {
    hide ContextOk, EventsOk, SlotOk, StartsOk, AllMissedOk, HoldsSlot, HasRun;
    NewCallSlots(s, s', k, id, call);
    NewCallContexts(s, s', k, id, call);
    NewCallRest(s, s', k, id, call);
  }

  lemma NewEvent(s: State, id: CallId, call: Call)
    requires EventsOk(s.calls, s.runs) && AllMissedOk(s) && id !in s.calls
    ensures
      var e := Event(id, call.target, call.func, call.arg);
      EventsOk(s.calls[id := call], s.runs + [e]) && MoreRuns(s.runs, s.runs + [e], id)
  {
    hide HasRun;
    Unused(s, id);
    EventsKept(s.calls, s.calls[id := call], s.runs);
    EventsExtended(s.calls[id := call], s.runs, Event(id, call.target, call.func, call.arg));
  }

  lemma RunHereKeeps(s: State, k: nat, call: Call, id: CallId)
    requires Inv(s) && Enabled(s, RunHere(k, call, id))
    ensures Inv(Step(s, RunHere(k, call, id)))
  {
    hide EventsOk, SlotsOk, StartsOk, AllMissedOk, Covered, Settled, HasRun, RanOn, MoreRuns;
    assert ContextOk(s, k);
    var s' := Step(s, RunHere(k, call, id));
    NewEvent(s, id, call);
    NewCallGrows(s, s', id, call);
    DirectKeeps(s, s', k, id, call);
  }

  lemma MineLoop(s: State, k: nat, id: CallId)
    requires Enabled(s, RunMine(k, id)) && ContextOk(s, k) && Grows(s, Step(s, RunMine(k, id)))
    requires forall t: nat :: t in s.slots <==> t < |s.slots|
    ensures ContextOk(Step(s, RunMine(k, id)), k)
  {
    hide HasRun, Settled, SameWork, Undisturbed;
    var c, s' := s.contexts[k], Step(s, RunMine(k, id));
    var l, l' := c.loop.value, s'.contexts[k].loop.value;
    LoopKept(s, s', c.cpu, c.pc, l);
    forall t | Covered(s', l, t) ensures Covered(s', l', t) {
      var i :| i in l.issued && i in s'.calls && SameWork(s'.calls[i], t, l);
      SameWorkFrom(s'.calls[i], t, l, l');
      assert i in l'.issued;
    }
    assert s'.runs[|s.runs|] == Event(id, c.cpu, l.func, l.arg);
    assert RanOn(s'.runs, id, c.cpu, l.func, l.arg);
  }

  lemma RunMineKeeps(s: State, k: nat, id: CallId)
    requires Inv(s) && Enabled(s, RunMine(k, id))
    ensures Inv(Step(s, RunMine(k, id)))
  {
    hide EventsOk, SlotsOk, StartsOk, AllMissedOk, ContextOk, LoopOk, Settled, HasRun, RanOn, MoreRuns;
    var s' := Step(s, RunMine(k, id));
    var l := s.contexts[k].loop.value;
    var call := Call(k, s.contexts[k].cpu, l.func, l.arg, false);
    NewEvent(s, id, call);
    NewCallGrows(s, s', id, call);
    MineLoop(s, k, id);
    DirectKeeps(s, s', k, id, call);
  }

  // ---- the idling CPUs ----

  /** CPU t goes on: only its slot changes, and the call it serves may get run. */
  ghost predicate Serves(s: State, s': State, t: Cpu) {
    && OnlySlot(s, s', t) && s'.contexts == s.contexts && s'.lock == s.lock && s'.calls == s.calls
    && s'.missed == s.missed && s'.started == s.started
    && MoreRuns(s.runs, s'.runs, s.slots[t].owner)
    && (s'.runs == s.runs || s.slots[t].pc.GotBoth?)
  }

  lemma ServedOthers(s: State, s': State, t: Cpu, u: Cpu)
    requires Serves(s, s', t) && u in s.slots && u != t && SlotOk(s, u) && SlotOk(s, t)
    ensures u in s'.slots && SlotOk(s', u)
  {
    hide HasRun;
    assert u in s'.slots.Keys;
  }

  lemma ServedContexts(s: State, s': State)
    requires ContextsOk(s) && s'.contexts == s.contexts && s'.lock == s.lock && Grows(s, s')
    requires forall j :: j in s.contexts ==> Undisturbed(s, s', s.contexts[j].pc)
    ensures ContextsOk(s')
  {
    hide ContextOk, Grows, Undisturbed;
    forall j | j in s'.contexts ensures ContextOk(s', j) {
      OtherContext(s, s', j);
    }
  }

  lemma ServesKeeps(s: State, s': State, t: Cpu)
    requires Inv(s) && Serves(s, s', t) && Grows(s, s')
    requires SlotOk(s', t) && AllMissedOk(s') && EventsOk(s'.calls, s'.runs)
    requires forall j :: j in s.contexts ==> Undisturbed(s, s', s.contexts[j].pc)
    ensures Inv(s')
  {
    hide SlotOk, ContextOk, AllMissedOk, HasRun, EventsOk, Undisturbed, MoreRuns;
    forall u | u in s'.slots && u != t ensures SlotOk(s', u) {
      assert u in s.slots.Keys;
      ServedOthers(s, s', t, u);
    }
    hide Grows;
    ServedContexts(s, s');
    assert forall u: nat :: u in s'.slots <==> u in s'.slots.Keys;
    StartsServed(s, s');
  }

  lemma StartsServed(s: State, s': State)
    requires StartsOk(s) && s'.slots.Keys == s.slots.Keys && s'.started == s.started
    requires Grows(s, s')
    requires s'.contexts == s.contexts && s'.lock == s.lock
    ensures StartsOk(s')
  {
    hide Settled, RanOn, Looping;
    forall i: nat | i < |s'.started| ensures StartOk(s', i) {
      assert StartOk(s, i);
      assert s.started[i] in s'.slots.Keys;
    }
  }

  /** Of the steps of CPU t, all but the call of the function. */
  predicate Quiet(a: Action, s: State) {
    match a
    case Online(_) => true
    case EnterIdle(_) => true
    case Serve(t) => t in s.slots && !s.slots[t].pc.GotBoth?
    case _ => false
  }

  lemma QuietServes(s: State, a: Action, t: Cpu)
    requires Enabled(s, a) && Quiet(a, s) && a.t == t && SlotOk(s, t)
    ensures Serves(s, Step(s, a), t)
  {
    hide HasRun, RanOn;
  }

  lemma QuietGrows(s: State, a: Action, t: Cpu)
    requires Enabled(s, a) && Quiet(a, s) && a.t == t && SlotOk(s, t)
    ensures Grows(s, Step(s, a))
  {
    hide HasRun, RanOn;
  }

  lemma QuietSlot(s: State, a: Action, t: Cpu)
    requires Enabled(s, a) && Quiet(a, s) && a.t == t && SlotOk(s, t)
    ensures SlotOk(Step(s, a), t)
  {
    hide HasRun, RanOn;
  }

  lemma QuietUndisturbs(s: State, a: Action, t: Cpu, k: nat)
    requires Enabled(s, a) && Quiet(a, s) && a.t == t && SlotOk(s, t) && k in s.contexts && ContextOk(s, k)
    ensures Undisturbed(s, Step(s, a), s.contexts[k].pc)
  {
    hide HasRun, RanOn, LoopOk, Settled;
  }

  lemma QuietMissed(s: State, a: Action, t: Cpu)
    requires Enabled(s, a) && Quiet(a, s) && a.t == t && SlotOk(s, t) && AllMissedOk(s)
    ensures AllMissedOk(Step(s, a))
  {
    hide HasRun;
    forall i | i in Step(s, a).missed ensures MissedOk(Step(s, a), i) {
      assert MissedOk(s, i);
    }
  }

  lemma QuietKeeps(s: State, a: Action, t: Cpu)
    requires Inv(s) && Enabled(s, a) && Quiet(a, s) && a.t == t
    ensures Inv(Step(s, a))
  {
    hide SlotOk, ContextOk, AllMissedOk, HasRun, EventsOk, Undisturbed, Grows, Step, StartsOk;
    var s' := Step(s, a);
    QuietServes(s, a, t);
    QuietGrows(s, a, t);
    QuietSlot(s, a, t);
    QuietMissed(s, a, t);
    forall j | j in s.contexts ensures Undisturbed(s, s', s.contexts[j].pc) {
      QuietUndisturbs(s, a, t, j);
    }
    ServesKeeps(s, s', t);
  }

  // the function is called

  lemma ReadyToCall(s: State, t: Cpu)
    requires Enabled(s, Serve(t)) && s.slots[t].pc.GotBoth? && SlotOk(s, t)
    ensures
      var l := s.slots[t];
      && l.pc.func.Some? && l.owner in s.calls && s.calls[l.owner].target == t && !HasRun(s.runs, l.owner)
      && l.pc.func.value == s.calls[l.owner].func && l.pc.arg == s.calls[l.owner].arg && l.owner !in s.missed && !l.idle
      && l.online && l.func.Some? && !Holding(s.contexts, s.calls[l.owner].caller, l.owner)
  {
    hide HasRun;
  }

  lemma CallSlot(s: State, t: Cpu)
    requires Enabled(s, Serve(t)) && s.slots[t].pc.GotBoth? && SlotOk(s, t) && s.slots[t].pc.func.Some?
    requires MoreRuns(s.runs, IdlerStep(s, t).runs, s.slots[t].owner) && HasRun(IdlerStep(s, t).runs, s.slots[t].owner)
    ensures Serves(s, IdlerStep(s, t), t) && Grows(s, IdlerStep(s, t)) && SlotOk(IdlerStep(s, t), t)
  {
    hide HasRun, RanOn;
    MoreRunsGrow(s.runs, IdlerStep(s, t).runs);
  }

  lemma CallUndisturbs(s: State, t: Cpu, k: nat)
    requires Enabled(s, Serve(t)) && s.slots[t].pc.GotBoth? && SlotOk(s, t) && s.slots[t].pc.func.Some?
    requires MoreRuns(s.runs, IdlerStep(s, t).runs, s.slots[t].owner) && k in s.contexts && ContextOk(s, k)
    ensures Undisturbed(s, IdlerStep(s, t), s.contexts[k].pc)
  {
    hide HasRun, RanOn, LoopOk, Settled;
  }

  lemma CallMissed(s: State, t: Cpu)
    requires Enabled(s, Serve(t)) && s.slots[t].pc.GotBoth? && SlotOk(s, t) && s.slots[t].pc.func.Some?
    requires MoreRuns(s.runs, IdlerStep(s, t).runs, s.slots[t].owner) && AllMissedOk(s)
    ensures AllMissedOk(IdlerStep(s, t))
  {
    hide HasRun;
    forall i | i in IdlerStep(s, t).missed ensures MissedOk(IdlerStep(s, t), i) {
      assert MissedOk(s, i);
    }
  }

  lemma CallKeeps(s: State, t: Cpu)
    requires Inv(s) && Enabled(s, Serve(t)) && s.slots[t].pc.GotBoth?
    ensures Inv(IdlerStep(s, t))
  {
    hide SlotOk, ContextOk, AllMissedOk, HasRun, EventsOk, Undisturbed, Grows, StartsOk, Serves, MoreRuns;
    var s', l := IdlerStep(s, t), s.slots[t];
    ReadyToCall(s, t);
    EventsExtended(s.calls, s.runs, Event(l.owner, t, l.pc.func.value, l.pc.arg));
    CallSlot(s, t);
    CallMissed(s, t);
    forall j | j in s.contexts ensures Undisturbed(s, s', s.contexts[j].pc) {
      CallUndisturbs(s, t, j);
    }
    ServesKeeps(s, s', t);
  }

  // ---- all steps, whole runs ----

  lemma CallerKeeps(s: State, k: nat, id: CallId)
    requires Inv(s) && CallerEnabled(s, k, id)
    ensures Inv(CallerStep(s, k, id))
  {
    hide Inv;
    match s.contexts[k].pc
    case BootLock(_) => BootLockKeeps(s, k);
    case BootWait(_) => BootWaitKeeps(s, k);
    case BootUnlock(_) => PlainKeeps(s, k);
    case Wait(_) => PlainKeeps(s, k);
    case CheckLock(_) => PlainKeeps(s, k);
    case Check(_) => CheckKeeps(s, k, id);
    case Retry(_) => PlainKeeps(s, k);
    case SetFunc(i) => StoreKeeps(s, k, i);
    case SetData(i) => FillKeeps(s, k, i);
    case Unlock(i) => FillKeeps(s, k, i);
    case Wake(i) => WakeKeeps(s, k, i);
    case Await(_) => AwaitKeeps(s, k, id);
  }

  /** Every step of every caller and every idling CPU keeps the invariant. */
  lemma StepKeeps(s: State, a: Action)
    requires Inv(s) && Enabled(s, a)
    ensures Inv(Step(s, a))
  {
    hide Inv, CallerStep, IdlerStep, CallerEnabled;
    match a
    case Begin(k, call) => BeginKeeps(s, k, call);
    case RunHere(k, call, id) => RunHereKeeps(s, k, call, id);
    case BeginAll(k, f, d) => BeginAllKeeps(s, k, f, d);
    case NextCpu(k) => NextCpuKeeps(s, k);
    case RunMine(k, id) => RunMineKeeps(s, k, id);
    case EndAll(k) => EndAllKeeps(s, k);
    case Caller(k, id) => CallerKeeps(s, k, id);
    case Online(t) => QuietKeeps(s, a, t);
    case EnterIdle(t) => QuietKeeps(s, a, t);
    case Serve(t) =>
      if s.slots[t].pc.GotBoth? {
        CallKeeps(s, t);
      } else {
        QuietKeeps(s, a, t);
      }
  }

  /** At first no slot is filled, no CPU has entered do_idle, and no call is being made. */
  ghost predicate Initial(s: State) {
    && s.lock == None && s.started == [] && s.calls == map[] && s.runs == [] && s.missed == {}
    && (forall t: nat :: t in s.slots <==> t < |s.slots|)
    && (forall t :: t in s.slots ==>
         && !s.slots[t].idle && s.slots[t].func == None
         && s.slots[t].pc == (if s.slots[t].online then Other else Off))
    && (forall k :: k in s.contexts ==> s.contexts[k].pc == Out && s.contexts[k].loop == None && s.contexts[k].cpu in s.slots)
  }

  ghost predicate IsStep(s: State, s': State) {
    exists a :: Enabled(s, a) && s' == Step(s, a)
  }

  /** A run: any interleaving of steps. */
  ghost predicate IsRun(run: seq<State>) {
    && |run| > 0 && Initial(run[0])
    && forall i :: 0 <= i < |run| - 1 ==> IsStep(run[i], run[i + 1])
  }

  lemma {:induction false} RunKeepsInv(run: seq<State>, i: nat)
    requires IsRun(run) && i < |run|
    ensures Inv(run[i])
  {
    hide Step, Enabled;
    if i > 0 {
      RunKeepsInv(run, i - 1);
      assert IsStep(run[i - 1], run[i - 1 + 1]);
      var a :| Enabled(run[i - 1], a) && run[i] == Step(run[i - 1], a);
      StepKeeps(run[i - 1], a);
    }
  }

  // ---- what the calls promise ----

  /** No CPU ever calls NULL, and none is started twice. */
  lemma NeverCallsNull(run: seq<State>, i: nat, t: Cpu)
    requires IsRun(run) && i < |run| && t in run[i].slots
    ensures run[i].slots[t].pc != Crashed
    ensures run[i].slots[t].pc.GotBoth? ==> run[i].slots[t].pc.func.Some?
  {
    RunKeepsInv(run, i);
    assert SlotOk(run[i], t);
  }

  lemma StartedOnce(run: seq<State>, i: nat, j: nat, l: nat)
    requires IsRun(run) && i < |run| && j < l < |run[i].started|
    ensures run[i].started[j] != run[i].started[l]
  {
    RunKeepsInv(run, i);
    assert StartOk(run[i], l);
  }

  /** Each function run is one that was posted, with its argument and on its CPU; no call runs twice. */
  lemma RunsAreAsPosted(run: seq<State>, i: nat, j: nat)
    requires IsRun(run) && i < |run| && j < |run[i].runs|
    ensures
      var s, e := run[i], run[i].runs[j];
      && e.id in s.calls && e.cpu == s.calls[e.id].target && e.func == s.calls[e.id].func && e.arg == s.calls[e.id].arg
      && forall l :: 0 <= l < |s.runs| && l != j ==> s.runs[l].id != e.id
  {
    RunKeepsInv(run, i);
    var s := run[i];
    assert EventOk(s.calls, s.runs, j);
    forall l: nat | l < |s.runs| && l != j ensures s.runs[l].id != s.runs[j].id {
      assert EventOk(s.calls, s.runs, l);
    }
  }

  /** A call is stored only in a slot that is empty: whatever was there has run. */
  lemma NothingOverwritten(run: seq<State>, i: nat, k: nat)
    requires IsRun(run) && i < |run| && k in run[i].contexts && run[i].contexts[k].pc.SetFunc?
    ensures
      var s := run[i];
      var id := s.contexts[k].pc.id;
      && id in s.calls && s.calls[id].target in s.slots && s.slots[s.calls[id].target].func == None
      && forall other :: other in s.calls && s.calls[other].target == s.calls[id].target && !HasRun(s.runs, other) ==>
           !InProgress(s, other) && other !in s.missed
           && !Holding(s.contexts, s.calls[other].caller, other)
  {
    RunKeepsInv(run, i);
    var s := run[i];
    assert ContextOk(s, k);
    var id := s.contexts[k].pc.id;
    forall other | other in s.calls && s.calls[other].target == s.calls[id].target && !HasRun(s.runs, other)
      ensures !InProgress(s, other) && other !in s.missed && !Holding(s.contexts, s.calls[other].caller, other)
    {
      assert other in s.missed ==> MissedOk(s, other);
      var c := s.calls[other].caller;
      assert c in s.contexts ==> ContextOk(s, c);
    }
  }

  /** When on_cpu is about to return: the function has been run, if and only if the clearing of the idle bit
      was not missed. */
  lemma OnCpuReturnsIff(run: seq<State>, i: nat, k: nat, id: CallId)
    requires IsRun(run) && i < |run| && k in run[i].contexts && run[i].contexts[k].pc == Await(id)
    requires Enabled(run[i], Caller(k, id))
    ensures HasRun(run[i].runs, id) <==> id !in run[i].missed
  {
    hide HasRun;
    RunKeepsInv(run, i);
    var s := run[i];
    assert ContextOk(s, k);
    assert id in s.missed ==> MissedOk(s, id);
  }

  lemma {:induction false} MissedGrows(run: seq<State>, i: nat, j: nat)
    requires IsRun(run) && i <= j < |run|
    ensures run[i].missed <= run[j].missed
  {
    hide Step, Enabled;
    if i < j {
      MissedGrows(run, i, j - 1);
      assert IsStep(run[j - 1], run[j - 1 + 1]);
      var a :| Enabled(run[j - 1], a) && run[j] == Step(run[j - 1], a);
      MissedStep(run[j - 1], a);
    }
  }

  lemma MissedStep(s: State, a: Action)
    requires Enabled(s, a)
    ensures s.missed <= Step(s, a).missed
  {
  }

  /** A call that is missed is never run, and its CPU never serves another. */
  lemma MissedForever(run: seq<State>, i: nat, j: nat, id: CallId)
    requires IsRun(run) && i <= j < |run| && id in run[i].missed
    ensures
      var s := run[j];
      && !HasRun(s.runs, id) && id in s.calls && s.calls[id].target in s.slots
      && var l := s.slots[s.calls[id].target];
      && l.owner == id && (l.pc == Waiting || l.pc == Cleared)
  {
    MissedGrows(run, i, j);
    RunKeepsInv(run, j);
    assert MissedOk(run[j], id);
  }

  /** The loop of on_cpus has made a call of its own for CPU t, which has been run as posted, unless it was missed. */
  ghost predicate Called(s: State, l: Loop, t: Cpu) {
    exists id :: id in l.issued && id in s.calls && SameWork(s.calls[id], t, l)
      && (Event(id, t, l.func, l.arg) in s.runs <==> id !in s.missed)
  }

  /** When on_cpus is about to return: it has made a call for every other CPU, which has been run as posted if and
      only if it was not missed; and it has run the function itself. */
  lemma OnCpusReturns(run: seq<State>, i: nat, k: nat)
    requires IsRun(run) && i < |run| && Enabled(run[i], EndAll(k))
    ensures
      var s, c := run[i], run[i].contexts[k];
      var l := c.loop.value;
      && (forall t: nat :: t < |s.slots| && t != c.cpu ==> Called(s, l, t))
      && (forall id :: id in l.issued ==> id in s.calls && (HasRun(s.runs, id) <==> id !in s.missed))
      && Event(l.mine.value, c.cpu, l.func, l.arg) in s.runs
  {
    hide HasRun;
    var s, c := run[i], run[i].contexts[k];
    var l := c.loop.value;
    RunKeepsInv(run, i);
    assert ContextOk(s, k);
    AllOthersIdle(s, c.cpu);
    forall id | id in l.issued ensures id in s.calls && (HasRun(s.runs, id) <==> id !in s.missed) {
      assert Settled(s, id);
      assert id in s.missed ==> MissedOk(s, id);
    }
    forall t: nat | t < |s.slots| && t != c.cpu ensures Called(s, l, t) {
      assert Covered(s, l, t);
      var id :| id in l.issued && id in s.calls && SameWork(s.calls[id], t, l);
      RunEvent(run, i, id);
    }
  }

  lemma RunEvent(run: seq<State>, i: nat, id: CallId)
    requires IsRun(run) && i < |run|
    ensures
      var s := run[i];
      HasRun(s.runs, id) <==>
        id in s.calls && Event(id, s.calls[id].target, s.calls[id].func, s.calls[id].arg) in s.runs
  {
    if HasRun(run[i].runs, id) {
      var j :| 0 <= j < |run[i].runs| && run[i].runs[j].id == id;
      RunsAreAsPosted(run, i, j);
    }
  }

  /** As many idle bits as there are other CPUs: all other CPUs are idle. */
  lemma AllOthersIdle(s: State, me: Cpu)
    requires me in s.slots && me !in IdleCpus(s) && |s.slots| - 1 <= |IdleCpus(s)|
    ensures forall t :: t in s.slots && t != me ==> s.slots[t].idle
  {
    assert |s.slots.Keys - {me}| == |s.slots| - 1;
    SubsetSize(IdleCpus(s), s.slots.Keys - {me});
    forall t | t in s.slots && t != me ensures s.slots[t].idle {
      assert t in s.slots.Keys - {me};
    }
  }

  lemma {:induction false} SubsetSize<T>(a: set<T>, b: set<T>)
    requires a <= b && |b| <= |a|
    ensures a == b
  {
    if a == {} {
      assert b == {};
    } else {
      var x :| x in a;
      SubsetSize(a - {x}, b - {x});
    }
  }

  // ---- one caller for a CPU ----

  /** Context k makes a call for CPU t. */
  predicate Calling(s: State, k: nat, t: Cpu) {
    k in s.contexts && CallAt(s, s.contexts[k].pc).Some? && CallAt(s, s.contexts[k].pc).value.target == t
  }

  /** No context but k makes calls for CPU t. */
  ghost predicate OnlyCaller(s: State, t: Cpu, k: nat) {
    forall j :: j in s.contexts && j != k ==> !Calling(s, j, t)
  }

  /** The caller has seen the idle bit, and not yet cleared it. */
  predicate SeenIdle(pc: Pc) {
    pc.CheckLock? || pc.Check? || pc.Retry? || pc.SetFunc? || HoldsSlot(pc)
  }

  ghost predicate Careful(s: State, t: Cpu, k: nat) {
    && t in s.slots
    && (k in s.contexts && SeenIdle(s.contexts[k].pc) && Calling(s, k, t) ==> s.slots[t].idle)
    && (forall id :: id in s.missed && id in s.calls ==> s.calls[id].target != t)
  }

  lemma OwnStepCareful(s: State, id: CallId, t: Cpu, k: nat)
    requires CallerEnabled(s, k, id) && Careful(s, t, k) && s.missed <= s.calls.Keys
    ensures Careful(CallerStep(s, k, id), t, k)
  {
  }

  lemma OtherStepCareful(s: State, j: nat, id: CallId, t: Cpu, k: nat)
    requires CallerEnabled(s, j, id) && j != k && !Calling(s, j, t) && Careful(s, t, k) && s.missed <= s.calls.Keys
    requires k in s.contexts && !Posting(s.contexts[k].pc) && !s.contexts[k].pc.Out? ==> s.contexts[k].pc.id in s.calls
    ensures Careful(CallerStep(s, j, id), t, k)
  {
  }

  predicate IsFlow(a: Action) {
    a.Begin? || a.RunHere? || a.BeginAll? || a.NextCpu? || a.RunMine? || a.EndAll?
  }

  lemma FlowCareful(s: State, a: Action, t: Cpu, k: nat)
    requires Enabled(s, a) && IsFlow(a) && Careful(s, t, k) && s.missed <= s.calls.Keys
    requires k in s.contexts && !Posting(s.contexts[k].pc) && !s.contexts[k].pc.Out? ==> s.contexts[k].pc.id in s.calls
    ensures Careful(Step(s, a), t, k)
  {
    hide CallerStep, IdlerStep, CallerEnabled;
  }

  lemma IdlerCareful(s: State, a: Action, t: Cpu, k: nat)
    requires Enabled(s, a) && (a.Online? || a.EnterIdle? || a.Serve?) && Careful(s, t, k)
    ensures Careful(Step(s, a), t, k)
  {
    hide CallerStep, CallerEnabled;
  }

  lemma StepCareful(s: State, a: Action, t: Cpu, k: nat)
    requires Enabled(s, a) && OnlyCaller(s, t, k) && Careful(s, t, k) && Inv(s)
    ensures Careful(Step(s, a), t, k)
  {
    hide SlotsOk, ContextsOk, EventsOk, StartsOk, CallerStep, Careful, IdlerStep, CallerEnabled;
    forall id | id in s.missed ensures id in s.calls {
      assert MissedOk(s, id);
    }
    KnownId(s, k);
    if a.Caller? {
      if a.k == k {
        OwnStepCareful(s, a.id, t, k);
      } else {
        OtherStepCareful(s, a.k, a.id, t, k);
      }
    } else if IsFlow(a) {
      FlowCareful(s, a, t, k);
    } else {
      IdlerCareful(s, a, t, k);
    }
  }

  lemma KnownId(s: State, k: nat)
    requires ContextsOk(s)
    ensures k in s.contexts && !Posting(s.contexts[k].pc) && !s.contexts[k].pc.Out? ==> s.contexts[k].pc.id in s.calls
  {
    hide LoopOk, HasRun, Settled;
    assert k in s.contexts ==> ContextOk(s, k);
  }

  lemma {:induction false} RunCareful(run: seq<State>, i: nat, t: Cpu, k: nat)
    requires IsRun(run) && i < |run| && t in run[0].slots
    requires forall j :: 0 <= j < i ==> OnlyCaller(run[j], t, k)
    ensures Careful(run[i], t, k)
  {
    hide Step, Enabled, OnlyCaller;
    if i > 0 {
      RunCareful(run, i - 1, t, k);
      RunKeepsInv(run, i - 1);
      assert IsStep(run[i - 1], run[i - 1 + 1]);
      var a :| Enabled(run[i - 1], a) && run[i] == Step(run[i - 1], a);
      StepCareful(run[i - 1], a, t, k);
    }
  }

  /** Where only one context makes calls for a CPU, on_cpu for that CPU returns only after the function has been
      run there, once and as posted. */
  lemma SoleCallerReturnsAfterRun(run: seq<State>, i: nat, k: nat, id: CallId)
    requires IsRun(run) && i < |run| && k in run[i].contexts && run[i].contexts[k].pc == Await(id)
    requires Enabled(run[i], Caller(k, id)) && run[i].calls[id].target in run[0].slots
    requires forall j :: 0 <= j < i ==> OnlyCaller(run[j], run[i].calls[id].target, k)
    ensures
      var s := run[i];
      exists j :: 0 <= j < |s.runs| && s.runs[j] == Event(id, s.calls[id].target, s.calls[id].func, s.calls[id].arg)
  {
    var s := run[i];
    var t := s.calls[id].target;
    RunCareful(run, i, t, k);
    OnCpuReturnsIff(run, i, k, id);
    var j :| 0 <= j < |s.runs| && s.runs[j].id == id;
    RunsAreAsPosted(run, i, j);
  }

  // ---- two callers for a CPU ----

  /** A run that ends in state s. */
  ghost predicate Ends(run: seq<State>, s: State) {
    IsRun(run) && run[|run| - 1] == s
  }

  lemma Extend(run: seq<State>, s: State, a: Action) returns (run': seq<State>)
    requires Ends(run, s) && Enabled(s, a)
    ensures Ends(run', Step(s, a))
  {
    hide Step, Enabled, Initial;
    run' := run + [Step(s, a)];
    assert IsStep(s, Step(s, a));
    forall i | 0 <= i < |run'| - 1 ensures IsStep(run'[i], run'[i + 1]) {
      if i < |run| - 1 {
        assert IsStep(run[i], run[i + 1]);
      }
    }
  }

  const FIRST := Call(0, 1, 7, 8, true)
  const SECOND := Call(2, 1, 9, 10, true)

  function Cast(a: Pc, b: Pc): map<nat, Context> {
    map[0 := Context(0, a, None), 2 := Context(2, b, None)]
  }

  function Cpus(target: Slot): map<Cpu, Slot> {
    map[0 := Slot(Other, true, false, None, 0, 0), 1 := target, 2 := Slot(Other, true, false, None, 0, 0)]
  }

  /** CPUs 0 and 2 make a call each for CPU 1. */
  function Scene(a: Pc, b: Pc, lock: Option<nat>, target: Slot, calls: map<CallId, Call>, runs: seq<Event>,
                 missed: set<CallId>): State {
    State(Cast(a, b), lock, Cpus(target), [], calls, runs, missed)
  }

  lemma ThreeCpus(target: Slot)
    ensures |Cpus(target)| == 3 && forall t: nat :: t in Cpus(target) <==> t < 3
  {
    var m := Cpus(target);
    assert m.Keys == {0, 1, 2};
    assert |m| == |m.Keys|;
  }

  lemma CpuSlots(target: Slot, t: Cpu)
    requires t in Cpus(target)
    ensures Cpus(target)[t] == target || Cpus(target)[t] == Slot(Other, true, false, None, 0, 0)
  {
  }

  lemma StartScene()
    ensures Initial(Scene(Out, Out, None, Slot(Other, true, false, None, 0, 0), map[], [], {}))
  {
    hide Cpus;
    var l := Slot(Other, true, false, None, 0, 0);
    ThreeCpus(l);
    forall t | t in Cpus(l) ensures Cpus(l)[t] == l {
      CpuSlots(l, t);
    }
  }

  lemma StartRun(s: State) returns (run: seq<State>)
    requires Initial(s)
    ensures Ends(run, s)
  {
    hide Initial, Step, Enabled;
    run := [s];
  }

  lemma Move(run: seq<State>, a: Action, s: State, s': State) returns (run': seq<State>)
    requires Ends(run, s) && Enabled(s, a) && Step(s, a) == s'
    ensures Ends(run', s')
  {
    hide Step, Enabled, Ends;
    run' := Extend(run, s, a);
  }

  lemma CastUpdates()
    ensures forall a, b, c :: Cast(a, b)[0 := Context(0, c, None)] == Cast(c, b)
    ensures forall a, b, c :: Cast(a, b)[2 := Context(2, c, None)] == Cast(a, c)
    ensures forall l, l' :: Cpus(l)[1 := l'] == Cpus(l')
  {
  }

  /** CPU 1 waits in do_idle. */
  const IDLE := Slot(Waiting, true, true, None, 0, 0)

  lemma TargetIdles() returns (run: seq<State>)
    ensures Ends(run, Scene(BootLock(FIRST), Out, None, IDLE, map[], [], {}))
  {
    hide Ends, Initial;
    StartScene();
    CastUpdates();
    var s0 := Scene(Out, Out, None, Slot(Other, true, false, None, 0, 0), map[], [], {});
    var s1 := Scene(Out, Out, None, IDLE, map[], [], {});
    var s2 := Scene(BootLock(FIRST), Out, None, IDLE, map[], [], {});
    run := StartRun(s0);
    run := Move(run, EnterIdle(1), s0, s1);
    run := Move(run, Begin(0, FIRST), s1, s2);
  }

  lemma FirstBegins() returns (run: seq<State>)
    ensures Ends(run, Scene(Wait(FIRST), Out, None, IDLE, map[], [], {}))
  {
    hide Ends, Initial;
    CastUpdates();
    var s0 := Scene(BootLock(FIRST), Out, None, IDLE, map[], [], {});
    var s1 := Scene(BootUnlock(FIRST), Out, Some(0), IDLE, map[], [], {});
    var s2 := Scene(Wait(FIRST), Out, None, IDLE, map[], [], {});
    run := TargetIdles();
    run := Move(run, Caller(0, 0), s0, s1);
    run := Move(run, Caller(0, 0), s1, s2);
  }

  lemma SecondSeesIdle(run: seq<State>) returns (run': seq<State>)
    requires Ends(run, Scene(Wait(FIRST), Out, None, IDLE, map[], [], {}))
    ensures Ends(run', Scene(Wait(FIRST), CheckLock(SECOND), None, IDLE, map[], [], {}))
  {
    hide Ends;
    CastUpdates();
    var s0 := Scene(Wait(FIRST), Out, None, IDLE, map[], [], {});
    var s1 := Scene(Wait(FIRST), BootLock(SECOND), None, IDLE, map[], [], {});
    var s2 := Scene(Wait(FIRST), BootUnlock(SECOND), Some(2), IDLE, map[], [], {});
    var s3 := Scene(Wait(FIRST), Wait(SECOND), None, IDLE, map[], [], {});
    var s4 := Scene(Wait(FIRST), CheckLock(SECOND), None, IDLE, map[], [], {});
    run' := Move(run, Begin(2, SECOND), s0, s1);
    run' := Move(run', Caller(2, 0), s1, s2);
    run' := Move(run', Caller(2, 0), s2, s3);
    run' := Move(run', Caller(2, 0), s3, s4);
  }

  lemma FirstFindsSlotFree(run: seq<State>) returns (run': seq<State>)
    requires Ends(run, Scene(Wait(FIRST), CheckLock(SECOND), None, IDLE, map[], [], {}))
    ensures Ends(run', Scene(SetFunc(0), CheckLock(SECOND), Some(0), IDLE, map[0 := FIRST], [], {}))
  {
    hide Ends;
    CastUpdates();
    var s0 := Scene(Wait(FIRST), CheckLock(SECOND), None, IDLE, map[], [], {});
    var s1 := Scene(CheckLock(FIRST), CheckLock(SECOND), None, IDLE, map[], [], {});
    var s2 := Scene(Check(FIRST), CheckLock(SECOND), Some(0), IDLE, map[], [], {});
    var s3 := Scene(SetFunc(0), CheckLock(SECOND), Some(0), IDLE, map[0 := FIRST], [], {});
    run' := Move(run, Caller(0, 0), s0, s1);
    run' := Move(run', Caller(0, 0), s1, s2);
    run' := Move(run', Caller(0, 0), s2, s3);
  }

  lemma FirstStores(run: seq<State>) returns (run': seq<State>)
    requires Ends(run, Scene(SetFunc(0), CheckLock(SECOND), Some(0), IDLE, map[0 := FIRST], [], {}))
    ensures Ends(run', Scene(Unlock(0), CheckLock(SECOND), Some(0), Slot(Waiting, true, true, Some(7), 8, 0),
        map[0 := FIRST], [], {}))
  {
    hide Ends;
    CastUpdates();
    var s0 := Scene(SetFunc(0), CheckLock(SECOND), Some(0), IDLE, map[0 := FIRST], [], {});
    var s1 := Scene(SetData(0), CheckLock(SECOND), Some(0), Slot(Waiting, true, true, Some(7), 0, 0),
        map[0 := FIRST], [], {});
    var s2 := Scene(Unlock(0), CheckLock(SECOND), Some(0), Slot(Waiting, true, true, Some(7), 8, 0),
        map[0 := FIRST], [], {});
    run' := Move(run, Caller(0, 0), s0, s1);
    run' := Move(run', Caller(0, 0), s1, s2);
  }

  lemma FirstWakes(run: seq<State>) returns (run': seq<State>)
    requires Ends(run, Scene(Unlock(0), CheckLock(SECOND), Some(0), Slot(Waiting, true, true, Some(7), 8, 0),
        map[0 := FIRST], [], {}))
    ensures Ends(run', Scene(Await(0), CheckLock(SECOND), None, Slot(Waiting, true, false, Some(7), 8, 0),
        map[0 := FIRST], [], {}))
  {
    hide Ends;
    CastUpdates();
    var s0 := Scene(Unlock(0), CheckLock(SECOND), Some(0), Slot(Waiting, true, true, Some(7), 8, 0),
        map[0 := FIRST], [], {});
    var s1 := Scene(Wake(0), CheckLock(SECOND), None, Slot(Waiting, true, true, Some(7), 8, 0),
        map[0 := FIRST], [], {});
    var s2 := Scene(Await(0), CheckLock(SECOND), None, Slot(Waiting, true, false, Some(7), 8, 0),
        map[0 := FIRST], [], {});
    run' := Move(run, Caller(0, 0), s0, s1);
    run' := Move(run', Caller(0, 0), s1, s2);
  }

  lemma FirstIsRead(run: seq<State>) returns (run': seq<State>)
    requires Ends(run, Scene(Await(0), CheckLock(SECOND), None, Slot(Waiting, true, false, Some(7), 8, 0),
        map[0 := FIRST], [], {}))
    ensures Ends(run', Scene(Await(0), CheckLock(SECOND), None, Slot(GotBoth(Some(7), 8), true, false, Some(7), 8, 0),
        map[0 := FIRST], [], {}))
  {
    hide Ends;
    CastUpdates();
    var s0 := Scene(Await(0), CheckLock(SECOND), None, Slot(Waiting, true, false, Some(7), 8, 0),
        map[0 := FIRST], [], {});
    var s1 := Scene(Await(0), CheckLock(SECOND), None, Slot(GotFunc(Some(7)), true, false, Some(7), 8, 0),
        map[0 := FIRST], [], {});
    var s2 := Scene(Await(0), CheckLock(SECOND), None, Slot(GotBoth(Some(7), 8), true, false, Some(7), 8, 0),
        map[0 := FIRST], [], {});
    run' := Move(run, Serve(1), s0, s1);
    run' := Move(run', Serve(1), s1, s2);
  }

  lemma FirstIsRun(run: seq<State>) returns (run': seq<State>)
    requires Ends(run, Scene(Await(0), CheckLock(SECOND), None, Slot(GotBoth(Some(7), 8), true, false, Some(7), 8, 0),
        map[0 := FIRST], [], {}))
    ensures Ends(run', Scene(Await(0), CheckLock(SECOND), None, Slot(Cleared, true, false, None, 8, 0),
        map[0 := FIRST], [Event(0, 1, 7, 8)], {}))
  {
    hide Ends;
    CastUpdates();
    var s0 := Scene(Await(0), CheckLock(SECOND), None, Slot(GotBoth(Some(7), 8), true, false, Some(7), 8, 0),
        map[0 := FIRST], [], {});
    var s1 := Scene(Await(0), CheckLock(SECOND), None, Slot(Running, true, false, Some(7), 8, 0),
        map[0 := FIRST], [Event(0, 1, 7, 8)], {});
    var s2 := Scene(Await(0), CheckLock(SECOND), None, Slot(Cleared, true, false, None, 8, 0),
        map[0 := FIRST], [Event(0, 1, 7, 8)], {});
    run' := Move(run, Serve(1), s0, s1);
    run' := Move(run', Serve(1), s1, s2);
  }

  lemma SecondFindsSlotFree(run: seq<State>) returns (run': seq<State>)
    requires Ends(run, Scene(Await(0), CheckLock(SECOND), None, Slot(Cleared, true, false, None, 8, 0),
        map[0 := FIRST], [Event(0, 1, 7, 8)], {}))
    ensures Ends(run', Scene(Await(0), SetFunc(1), Some(2), Slot(Cleared, true, false, None, 8, 0),
        map[0 := FIRST, 1 := SECOND], [Event(0, 1, 7, 8)], {}))
  {
    hide Ends;
    CastUpdates();
    var s0 := Scene(Await(0), CheckLock(SECOND), None, Slot(Cleared, true, false, None, 8, 0),
        map[0 := FIRST], [Event(0, 1, 7, 8)], {});
    var s1 := Scene(Await(0), Check(SECOND), Some(2), Slot(Cleared, true, false, None, 8, 0),
        map[0 := FIRST], [Event(0, 1, 7, 8)], {});
    var s2 := Scene(Await(0), SetFunc(1), Some(2), Slot(Cleared, true, false, None, 8, 0),
        map[0 := FIRST, 1 := SECOND], [Event(0, 1, 7, 8)], {});
    run' := Move(run, Caller(2, 1), s0, s1);
    run' := Move(run', Caller(2, 1), s1, s2);
  }

  lemma SecondStores(run: seq<State>) returns (run': seq<State>)
    requires Ends(run, Scene(Await(0), SetFunc(1), Some(2), Slot(Cleared, true, false, None, 8, 0),
        map[0 := FIRST, 1 := SECOND], [Event(0, 1, 7, 8)], {}))
    ensures Ends(run', Scene(Await(0), Unlock(1), Some(2), Slot(Cleared, true, false, Some(9), 10, 1),
        map[0 := FIRST, 1 := SECOND], [Event(0, 1, 7, 8)], {}))
  {
    hide Ends;
    CastUpdates();
    var s0 := Scene(Await(0), SetFunc(1), Some(2), Slot(Cleared, true, false, None, 8, 0),
        map[0 := FIRST, 1 := SECOND], [Event(0, 1, 7, 8)], {});
    var s1 := Scene(Await(0), SetData(1), Some(2), Slot(Cleared, true, false, Some(9), 8, 1),
        map[0 := FIRST, 1 := SECOND], [Event(0, 1, 7, 8)], {});
    var s2 := Scene(Await(0), Unlock(1), Some(2), Slot(Cleared, true, false, Some(9), 10, 1),
        map[0 := FIRST, 1 := SECOND], [Event(0, 1, 7, 8)], {});
    run' := Move(run, Caller(2, 1), s0, s1);
    run' := Move(run', Caller(2, 1), s1, s2);
  }

  lemma SecondUnlocks(run: seq<State>) returns (run': seq<State>)
    requires Ends(run, Scene(Await(0), Unlock(1), Some(2), Slot(Cleared, true, false, Some(9), 10, 1),
        map[0 := FIRST, 1 := SECOND], [Event(0, 1, 7, 8)], {}))
    ensures Ends(run', Scene(Await(0), Wake(1), None, Slot(Cleared, true, false, Some(9), 10, 1),
        map[0 := FIRST, 1 := SECOND], [Event(0, 1, 7, 8)], {}))
  {
    hide Ends;
    CastUpdates();
    var s0 := Scene(Await(0), Unlock(1), Some(2), Slot(Cleared, true, false, Some(9), 10, 1),
        map[0 := FIRST, 1 := SECOND], [Event(0, 1, 7, 8)], {});
    var s1 := Scene(Await(0), Wake(1), None, Slot(Cleared, true, false, Some(9), 10, 1),
        map[0 := FIRST, 1 := SECOND], [Event(0, 1, 7, 8)], {});
    run' := Move(run, Caller(2, 1), s0, s1);
  }

  lemma SecondIsMissed(run: seq<State>) returns (run': seq<State>)
    requires Ends(run, Scene(Await(0), Wake(1), None, Slot(Cleared, true, false, Some(9), 10, 1),
        map[0 := FIRST, 1 := SECOND], [Event(0, 1, 7, 8)], {}))
    ensures Ends(run', Scene(Await(0), Await(1), None, Slot(Cleared, true, false, Some(9), 10, 1),
        map[0 := FIRST, 1 := SECOND], [Event(0, 1, 7, 8)], {1}))
  {
    hide Ends;
    CastUpdates();
    var s0 := Scene(Await(0), Wake(1), None, Slot(Cleared, true, false, Some(9), 10, 1),
        map[0 := FIRST, 1 := SECOND], [Event(0, 1, 7, 8)], {});
    var s1 := Scene(Await(0), Await(1), None, Slot(Cleared, true, false, Some(9), 10, 1),
        map[0 := FIRST, 1 := SECOND], [Event(0, 1, 7, 8)], {1});
    run' := Move(run, Caller(2, 1), s0, s1);
  }

  lemma IdleAgain(run: seq<State>) returns (run': seq<State>)
    requires Ends(run, Scene(Await(0), Await(1), None, Slot(Cleared, true, false, Some(9), 10, 1),
        map[0 := FIRST, 1 := SECOND], [Event(0, 1, 7, 8)], {1}))
    ensures Ends(run', Scene(Await(0), Await(1), None, Slot(Waiting, true, true, Some(9), 10, 1),
        map[0 := FIRST, 1 := SECOND], [Event(0, 1, 7, 8)], {1}))
  {
    hide Ends;
    CastUpdates();
    var s0 := Scene(Await(0), Await(1), None, Slot(Cleared, true, false, Some(9), 10, 1),
        map[0 := FIRST, 1 := SECOND], [Event(0, 1, 7, 8)], {1});
    var s1 := Scene(Await(0), Await(1), None, Slot(Waiting, true, true, Some(9), 10, 1),
        map[0 := FIRST, 1 := SECOND], [Event(0, 1, 7, 8)], {1});
    run' := Move(run, Serve(1), s0, s1);
  }

  /** With two callers for one CPU, on_cpu can return although its function has not been run, and never will be:
      the second caller stores its function after the first one has been run, and clears the idle bit before
      the CPU sets it again. */
  lemma OnCpuCanReturnTooEarly() returns (run: seq<State>)
    ensures IsRun(run)
    ensures
      var s := run[|run| - 1];
      && Enabled(s, Caller(2, 1)) && s.contexts[2].pc == Await(1) && s.calls[1] == SECOND && !HasRun(s.runs, 1)
      && 1 in s.missed
  {
    run := FirstBegins();
    run := SecondSeesIdle(run);
    run := FirstFindsSlotFree(run);
    run := FirstStores(run);
    run := FirstWakes(run);
    run := FirstIsRead(run);
    run := FirstIsRun(run);
    run := SecondFindsSlotFree(run);
    run := SecondStores(run);
    run := SecondUnlocks(run);
    run := SecondIsMissed(run);
    run := IdleAgain(run);
  }

  // ---- from what was asked for to what was run ----

  ghost predicate Takes(s: State, a: Action, s': State) {
    Enabled(s, a) && s' == Step(s, a)
  }

  /** A run, with the step taken in each of its states. */
  ghost predicate IsTrace(run: seq<State>, acts: seq<Action>) {
    && |run| == |acts| + 1 && Initial(run[0])
    && forall i :: 0 <= i < |acts| ==> Takes(run[i], acts[i], run[i + 1])
  }

  lemma TraceIsRun(run: seq<State>, acts: seq<Action>)
    requires IsTrace(run, acts)
    ensures IsRun(run)
  {
    hide Step, Enabled;
    forall i | 0 <= i < |run| - 1 ensures IsStep(run[i], run[i + 1]) {
      assert Takes(run[i], acts[i], run[i + 1]);
    }
  }

  /** Context k is in a call that was asked for when the calls stored were those in before: it is this one. */
  ghost predicate InCall(s: State, k: nat, call: Call, before: set<CallId>) {
    && k in s.contexts && before <= s.calls.Keys && !s.contexts[k].pc.Out?
    && var pc := s.contexts[k].pc;
       if Posting(pc) then pc.call == call else pc.id in s.calls && s.calls[pc.id] == call && pc.id !in before
  }

  /** Context k comes out of its call: from clearing the idle bit, or from the wait of on_cpu after it. */
  ghost predicate CameOut(s: State, s': State, k: nat) {
    && k in s.contexts && (s.contexts[k].pc.Wake? || s.contexts[k].pc.Await?)
    && var id := s.contexts[k].pc.id;
    && CallerEnabled(s, k, id)
    && if s.contexts[k].pc.Wake? then !s.calls[id].sync && s' == WakeTarget(s, k, id) else s' == WithPc(s, k, Out)
  }

  /** The context that takes the step. */
  function Actor(a: Action): Option<nat> {
    match a
    case Begin(k, _) => Some(k)
    case RunHere(k, _, _) => Some(k)
    case BeginAll(k, _, _) => Some(k)
    case NextCpu(k) => Some(k)
    case RunMine(k, _) => Some(k)
    case EndAll(k) => Some(k)
    case Caller(k, _) => Some(k)
    case _ => None
  }

  /** A step of on_cpu, by which context k gets to pc, changes no other context and no call already stored. */
  ghost predicate Moves(s: State, s': State, k: nat, pc: Pc) {
    && k in s.contexts && k in s'.contexts && OnlyContext(s, s', k)
    && s'.contexts[k].cpu == s.contexts[k].cpu && s'.contexts[k].pc == pc
    && forall i :: i in s.calls ==> i in s'.calls && s'.calls[i] == s.calls[i]
  }

  lemma PlainMoves(s: State, k: nat, pc: Pc)
    requires k in s.contexts
    ensures Moves(s, WithPc(s, k, pc), k, pc)
  {
  }

  lemma CheckMoves(s: State, k: nat, id: CallId)
    requires k in s.contexts && s.contexts[k].pc.Check? && s.contexts[k].pc.call.target in s.slots && id !in s.calls
    ensures
      var call, s' := s.contexts[k].pc.call, CheckSlot(s, k, id);
      k in s'.contexts && Moves(s, s', k, s'.contexts[k].pc)
      && (s'.contexts[k].pc == Retry(call) || (s'.contexts[k].pc == SetFunc(id) && s'.calls == s.calls[id := call]))
  {
  }

  lemma BootMoves(s: State, k: nat)
    requires k in s.contexts && s.contexts[k].pc.BootLock? && s.contexts[k].pc.call.target in s.slots
    ensures
      var call, s' := s.contexts[k].pc.call, TakeBootLock(s, k);
      k in s'.contexts && Moves(s, s', k, s'.contexts[k].pc)
      && (s'.contexts[k].pc == BootUnlock(call) || s'.contexts[k].pc == BootWait(call))
  {
  }

  lemma WakeMoves(s: State, k: nat, id: CallId)
    requires k in s.contexts && id in s.calls && s.calls[id].target in s.slots
    ensures Moves(s, WakeTarget(s, k, id), k, if s.calls[id].sync then Await(id) else Out)
    ensures WakeTarget(s, k, id).calls == s.calls && WakeTarget(s, k, id).runs == s.runs
  {
  }

  lemma StoreMoves(s: State, k: nat, pc: Pc, t: Cpu, l: Slot)
    requires k in s.contexts
    ensures Moves(s, WithSlot(WithPc(s, k, pc), t, l), k, pc)
  {
  }

  lemma CallerFrame(s: State, k: nat, id: CallId)
    requires CallerEnabled(s, k, id)
    ensures
      var s' := CallerStep(s, k, id);
      && k in s.contexts && k in s'.contexts && Moves(s, s', k, s'.contexts[k].pc)
      && var pc, pc' := s.contexts[k].pc, s'.contexts[k].pc;
      && !pc.Out? && (Posting(pc) && Posting(pc') ==> pc'.call == pc.call)
      && (Posting(pc) && !Posting(pc') ==> pc' == SetFunc(id) && s'.calls == s.calls[id := pc.call] && id !in s.calls)
      && (!Posting(pc) && !pc'.Out? ==> !Posting(pc') && pc'.id == pc.id)
  {
    hide Moves, CheckSlot, TakeBootLock, WakeTarget;
    var c := s.contexts[k];
    match c.pc
    case BootLock(_) => BootMoves(s, k);
    case Check(_) => CheckMoves(s, k, id);
    case Wake(i) => WakeMoves(s, k, i);
    case SetFunc(i) => StoreMoves(s, k, SetData(i), s.calls[i].target, CallerStep(s, k, id).slots[s.calls[i].target]);
    case SetData(i) => StoreMoves(s, k, Unlock(i), s.calls[i].target, CallerStep(s, k, id).slots[s.calls[i].target]);
    case _ => LockMoves(s, k, id);
  }

  lemma LockMoves(s: State, k: nat, id: CallId)
    requires CallerEnabled(s, k, id)
    requires
      var pc := s.contexts[k].pc;
      pc.BootWait? || pc.BootUnlock? || pc.Wait? || pc.CheckLock? || pc.Retry? || pc.Unlock? || pc.Await?
    ensures CallerStep(s, k, id).contexts.Keys == s.contexts.Keys
    ensures Moves(s, CallerStep(s, k, id), k, CallerStep(s, k, id).contexts[k].pc)
  {
  }

  lemma OutFrame(s: State, k: nat, id: CallId)
    requires CallerEnabled(s, k, id) && k in CallerStep(s, k, id).contexts && CallerStep(s, k, id).contexts[k].pc == Out
    ensures CameOut(s, CallerStep(s, k, id), k)
  {
  }

  lemma StepOfOther(s: State, a: Action, k: nat)
    requires Enabled(s, a) && k in s.contexts && Actor(a) != Some(k)
    ensures k in Step(s, a).contexts && Step(s, a).contexts[k] == s.contexts[k]
  {
    hide CallerStep, CallerEnabled;
    if a.Caller? {
      CallerFrame(s, a.k, a.id);
    }
  }

  lemma CallsStay(s: State, a: Action)
    requires Enabled(s, a)
    ensures forall id :: id in s.calls ==> id in Step(s, a).calls && Step(s, a).calls[id] == s.calls[id]
    ensures Step(s, a).contexts.Keys == s.contexts.Keys
  {
    hide CallerStep, CallerEnabled;
    if a.Caller? {
      CallerFrame(s, a.k, a.id);
    }
  }

  lemma StaysInCall(s: State, a: Action, k: nat, call: Call, before: set<CallId>)
    requires Enabled(s, a) && InCall(s, k, call, before)
    ensures
      var s' := Step(s, a);
      && k in s'.contexts && s'.contexts[k].cpu == s.contexts[k].cpu
      && if s'.contexts[k].pc != Out then InCall(s', k, call, before) else CameOut(s, s', k)
  {
    hide CallerStep, CallerEnabled, IdlerStep, CameOut;
    if Actor(a) != Some(k) {
      CallsStay(s, a);
      StepOfOther(s, a, k);
    } else {
      CallerFrame(s, k, a.id);
      if CallerStep(s, k, a.id).contexts[k].pc == Out {
        OutFrame(s, k, a.id);
      }
    }
  }

  lemma CallBegun(run: seq<State>, acts: seq<Action>, j: nat, k: nat, call: Call)
    requires IsTrace(run, acts) && j < |acts| && acts[j] == Begin(k, call)
    ensures InCall(run[j + 1], k, call, run[j].calls.Keys)
    ensures k in run[j + 1].contexts && run[j + 1].contexts[k].pc != Out
  {
    hide Initial, CallerStep, IdlerStep;
    assert Takes(run[j], acts[j], run[j + 1]);
  }

  lemma {:induction false} HeldSince(run: seq<State>, acts: seq<Action>, j: nat, i: nat, k: nat, call: Call)
    requires IsTrace(run, acts) && j < i <= |acts| && acts[j] == Begin(k, call)
    requires forall m :: j < m <= i ==> k in run[m].contexts && run[m].contexts[k].pc != Out
    ensures InCall(run[i], k, call, run[j].calls.Keys)
  {
    hide Initial, InCall, Step, Enabled;
    if i == j + 1 {
      CallBegun(run, acts, j, k, call);
    } else {
      HeldSince(run, acts, j, i - 1, k, call);
      assert Takes(run[i - 1], acts[i - 1], run[i - 1 + 1]);
      StaysInCall(run[i - 1], acts[i - 1], k, call, run[j].calls.Keys);
    }
  }

  lemma HandId(s: State, k: nat, call: Call, before: set<CallId>)
    requires InCall(s, k, call, before) && !Posting(s.contexts[k].pc)
    ensures s.contexts[k].pc.id in s.calls && s.calls[s.contexts[k].pc.id] == call && s.contexts[k].pc.id !in before
  {
  }

  /** A context asks for a call to another CPU, and comes back from it. A new call was made, and it is the one that was
      asked for. When on_cpu comes back, the function has been run there with the argument if and only if the call was
      not missed; when on_cpu_async does, it has been run, was missed or is on its way. */
  lemma CallReturns(run: seq<State>, acts: seq<Action>, j: nat, i: nat, k: nat, call: Call) returns (id: CallId)
    requires IsTrace(run, acts) && j < i <= |acts| && acts[j] == Begin(k, call)
    requires forall m :: j < m < i ==> k in run[m].contexts && run[m].contexts[k].pc != Out
    requires k in run[i].contexts && run[i].contexts[k].pc == Out
    ensures id !in run[j].calls && id in run[i].calls && run[i].calls[id] == call
    ensures call.sync ==> (Event(id, call.target, call.func, call.arg) in run[i].runs <==> id !in run[i].missed)
    ensures Event(id, call.target, call.func, call.arg) in run[i].runs || id in run[i].missed || InProgress(run[i], id)
    ensures call.sync ==>
      run[i - 1].contexts[k].pc == Await(id) && Enabled(run[i - 1], Caller(k, id)) && run[i].runs == run[i - 1].runs
      && run[i - 1].calls == run[i].calls
  {
    hide Initial, InCall, Step, Enabled, InProgress, HasRun, CallerEnabled, WakeTarget, Inv;
    TraceIsRun(run, acts);
    CallBegun(run, acts, j, k, call);
    HeldSince(run, acts, j, i - 1, k, call);
    assert Takes(run[i - 1], acts[i - 1], run[i - 1 + 1]);
    StaysInCall(run[i - 1], acts[i - 1], k, call, run[j].calls.Keys);
    id := run[i - 1].contexts[k].pc.id;
    RunKeepsInv(run, i - 1);
    HandId(run[i - 1], k, call, run[j].calls.Keys);
    OutSettles(run[i - 1], run[i], k, id);
    RunEvent(run, i, id);
    if call.sync {
      OnCpuReturnsIff(run, i - 1, k, id);
      RunEvent(run, i - 1, id);
    }
  }

  lemma OutSettles(s: State, s': State, k: nat, id: CallId)
    requires Inv(s) && CameOut(s, s', k) && s.contexts[k].pc.id == id
    ensures Settled(s', id) && s'.calls == s.calls && s'.runs == s.runs
    ensures id in s.calls && s.calls[id].sync ==>
      s.contexts[k].pc == Await(id) && Enabled(s, Caller(k, id)) && s'.missed == s.missed
  {
    hide HasRun, WakeTarget, SlotsOk, EventsOk, StartsOk, AllMissedOk, LoopOk, SlotOk;
    assert ContextOk(s, k);
    if s.contexts[k].pc.Wake? {
      assert SlotOk(s, s.calls[id].target) by { SlotIsOk(s, s.calls[id].target); }
      WakeSettles(s, k, id);
      WakeMoves(s, k, id);
    }
  }

  lemma SlotIsOk(s: State, t: Cpu)
    requires SlotsOk(s) && t in s.slots
    ensures SlotOk(s, t)
  {
    hide SlotOk;
  }

  /** With one caller for the CPU, on_cpu comes back only after the function it was given has been run there, with the
      argument it was given. */
  lemma SoleCallReturns(run: seq<State>, acts: seq<Action>, j: nat, i: nat, k: nat, call: Call) returns (id: CallId)
    requires IsTrace(run, acts) && j < i <= |acts| && acts[j] == Begin(k, call) && call.sync
    requires forall m :: j < m < i ==> k in run[m].contexts && run[m].contexts[k].pc != Out
    requires k in run[i].contexts && run[i].contexts[k].pc == Out
    requires call.target in run[0].slots && forall m :: 0 <= m < i - 1 ==> OnlyCaller(run[m], call.target, k)
    ensures id !in run[j].calls && Event(id, call.target, call.func, call.arg) in run[i].runs
  {
    hide Initial, Step, Enabled, InProgress, HasRun, OnlyCaller;
    TraceIsRun(run, acts);
    id := CallReturns(run, acts, j, i, k, call);
    SoleCallerReturnsAfterRun(run, i - 1, k, id);
  }

  /** A call for the caller's own CPU is run at once, as it was asked for. */
  lemma OwnCallRuns(run: seq<State>, acts: seq<Action>, j: nat, k: nat, call: Call, id: CallId)
    requires IsTrace(run, acts) && j < |acts| && acts[j] == RunHere(k, call, id)
    ensures id !in run[j].calls && Event(id, call.target, call.func, call.arg) in run[j + 1].runs
    ensures k in run[j].contexts && call.target == run[j].contexts[k].cpu
  {
    hide Initial;
    assert Takes(run[j], acts[j], run[j + 1]);
  }

  // the loop of on_cpus

  /** The loop works with the function and argument it was given, and makes new calls. */
  ghost predicate LoopSince(s: State, k: nat, func: nat, arg: nat, before: set<CallId>) {
    && k in s.contexts && before <= s.calls.Keys && s.contexts[k].loop.Some?
    && var c := s.contexts[k];
    && c.loop.value.func == func && c.loop.value.arg == arg
    && (forall id :: id in c.loop.value.issued ==> id !in before)
    && (c.loop.value.mine.Some? ==> c.loop.value.mine.value !in before)
    && (!Posting(c.pc) && !c.pc.Out? ==> c.pc.id !in before)
  }

  /** A step of the call in hand, in the loop. */
  lemma LoopCallStep(s: State, k: nat, i: CallId, func: nat, arg: nat, before: set<CallId>)
    requires CallerEnabled(s, k, i) && LoopSince(s, k, func, arg, before)
    ensures LoopSince(CallerStep(s, k, i), k, func, arg, before)
  {
    hide CallerEnabled, CallerStep;
    CallerFrame(s, k, i);
    LoopFrame(s, k, i);
    var c, c' := s.contexts[k], CallerStep(s, k, i).contexts[k];
    assert Posting(c.pc) && !Posting(c'.pc) ==> i !in s.calls.Keys;
  }

  /** Only clearing the idle bit changes the loop: the call is then one of those issued. */
  lemma LoopFrame(s: State, k: nat, i: CallId)
    requires CallerEnabled(s, k, i)
    ensures
      var c, s' := s.contexts[k], CallerStep(s, k, i);
      && k in s'.contexts && (c.loop.None? <==> s'.contexts[k].loop.None?)
      && (c.loop.Some? ==>
           s'.contexts[k].loop.value == if c.pc.Wake? then c.loop.value.(issued := c.loop.value.issued + {c.pc.id}) else c.loop.value)
  {
  }

  lemma LoopGoesOn(s: State, a: Action, k: nat, func: nat, arg: nat, before: set<CallId>)
    requires Enabled(s, a) && LoopSince(s, k, func, arg, before) && a != EndAll(k)
    ensures LoopSince(Step(s, a), k, func, arg, before)
  {
    hide CallerStep, CallerEnabled, IdlerStep;
    if Actor(a) != Some(k) {
      CallsStay(s, a);
      StepOfOther(s, a, k);
    } else if a.Caller? {
      LoopCallStep(s, k, a.id, func, arg, before);
    }
  }

  lemma LoopBegun(s: State, k: nat, func: nat, arg: nat)
    requires Enabled(s, BeginAll(k, func, arg))
    ensures LoopSince(Step(s, BeginAll(k, func, arg)), k, func, arg, s.calls.Keys)
  {
  }

  lemma {:induction false} LoopHeld(run: seq<State>, acts: seq<Action>, j: nat, i: nat, k: nat, func: nat, arg: nat)
    requires IsTrace(run, acts) && j < i <= |acts| && acts[j] == BeginAll(k, func, arg)
    requires forall m :: j < m < i ==> acts[m] != EndAll(k)
    ensures LoopSince(run[i], k, func, arg, run[j].calls.Keys)
  {
    hide Initial, CallerStep, LoopSince, Step, Enabled;
    assert Takes(run[i - 1], acts[i - 1], run[i - 1 + 1]);
    if i == j + 1 {
      LoopBegun(run[j], k, func, arg);
    } else {
      LoopHeld(run, acts, j, i - 1, k, func, arg);
      LoopGoesOn(run[i - 1], acts[i - 1], k, func, arg, run[j].calls.Keys);
    }
  }

  /** By a call that is not one of those before, the function has been run on CPU t with the argument, unless that call
      was missed. */
  ghost predicate RanSince(before: set<CallId>, s: State, t: Cpu, func: nat, arg: nat) {
    exists id :: id !in before && id in s.calls && s.calls[id].target == t && s.calls[id].func == func
      && s.calls[id].arg == arg && (Event(id, t, func, arg) in s.runs <==> id !in s.missed)
  }

  /** From its begin to its end, on_cpus has called every other CPU with the function and argument it was given, and each
      of these calls has been run unless it was missed; on its own CPU the function has been run. */
  lemma OnCpusRanEverywhere(run: seq<State>, acts: seq<Action>, j: nat, i: nat, k: nat, func: nat, arg: nat)
    requires IsTrace(run, acts) && j < i < |acts| && acts[j] == BeginAll(k, func, arg) && acts[i] == EndAll(k)
    requires forall m :: j < m < i ==> acts[m] != EndAll(k)
    ensures k in run[i].contexts
    ensures forall t: nat :: t < |run[i].slots| && t != run[i].contexts[k].cpu ==>
      RanSince(run[j].calls.Keys, run[i], t, func, arg)
    ensures exists id :: id !in run[j].calls && Event(id, run[i].contexts[k].cpu, func, arg) in run[i].runs
  {
    hide Initial, Step;
    TraceIsRun(run, acts);
    assert Takes(run[i], acts[i], run[i + 1]);
    LoopHeld(run, acts, j, i, k, func, arg);
    OnCpusReturns(run, i, k);
    var s, c := run[i], run[i].contexts[k];
    var l := c.loop.value;
    forall t: nat | t < |s.slots| && t != c.cpu ensures RanSince(run[j].calls.Keys, s, t, func, arg) {
      assert Called(s, l, t);
      var id :| id in l.issued && id in s.calls && SameWork(s.calls[id], t, l)
        && (Event(id, t, l.func, l.arg) in s.runs <==> id !in s.missed);
    }
    assert Event(l.mine.value, c.cpu, func, arg) in s.runs;
  }

  // nothing else is run

  ghost predicate AsksFor(a: Action, call: Call) {
    match a
    case Begin(_, c) => c == call
    case RunHere(_, c, _) => c == call
    case BeginAll(k, f, d) => call.caller == k && call.func == f && call.arg == d && !call.sync
    case _ => false
  }

  ghost predicate Asked(acts: seq<Action>, call: Call) {
    exists j :: 0 <= j < |acts| && AsksFor(acts[j], call)
  }

  /** What context k has in hand was asked for. */
  ghost predicate HandAsked(s: State, k: nat, acts: seq<Action>) {
    k in s.contexts ==>
      && (Posting(s.contexts[k].pc) ==> Asked(acts, s.contexts[k].pc.call))
      && (s.contexts[k].loop.Some? ==> forall t ::
           Asked(acts, Call(k, t, s.contexts[k].loop.value.func, s.contexts[k].loop.value.arg, false)))
  }

  ghost predicate AllAsked(s: State, acts: seq<Action>) {
    && (forall id :: id in s.calls ==> Asked(acts, s.calls[id]))
    && (forall k :: k in s.contexts ==> HandAsked(s, k, acts))
  }

  lemma AskedLater(acts: seq<Action>, a: Action)
    ensures forall call :: Asked(acts, call) || AsksFor(a, call) ==> Asked(acts + [a], call)
  {
    forall call | Asked(acts, call) || AsksFor(a, call) ensures Asked(acts + [a], call) {
      if AsksFor(a, call) {
        assert (acts + [a])[|acts|] == a;
      } else {
        var j :| 0 <= j < |acts| && AsksFor(acts[j], call);
        assert (acts + [a])[j] == acts[j];
      }
    }
  }

  lemma OwnStepAsked(s: State, acts: seq<Action>, a: Action, k: nat)
    requires Enabled(s, a) && HandAsked(s, k, acts) && Actor(a) == Some(k)
    ensures HandAsked(Step(s, a), k, acts + [a])
  {
    hide Asked, CallerStep, CallerEnabled;
    AskedLater(acts, a);
    if a.Caller? {
      CallerFrame(s, k, a.id);
      LoopFrame(s, k, a.id);
    }
  }

  lemma NewCallAsked(s: State, acts: seq<Action>, a: Action, id: CallId)
    requires Enabled(s, a) && id in Step(s, a).calls && id !in s.calls
    requires forall k :: k in s.contexts ==> HandAsked(s, k, acts)
    ensures Asked(acts, Step(s, a).calls[id]) || AsksFor(a, Step(s, a).calls[id])
  {
    hide Asked, IdlerStep;
    if a.Caller? {
      CallAdded(s, a.k, a.id, id);
      assert HandAsked(s, a.k, acts);
    } else if a.RunMine? {
      assert HandAsked(s, a.k, acts);
    } else if a.Serve? {
      ServeCalls(s, a.t);
    }
  }

  lemma CallAdded(s: State, k: nat, i: CallId, id: CallId)
    requires CallerEnabled(s, k, i) && id in CallerStep(s, k, i).calls && id !in s.calls
    ensures Posting(s.contexts[k].pc) && CallerStep(s, k, i).calls[id] == s.contexts[k].pc.call
  {
  }

  lemma ServeCalls(s: State, t: Cpu)
    requires Enabled(s, Serve(t))
    ensures IdlerStep(s, t).calls == s.calls
  {
  }

  lemma StaysAsked(s: State, acts: seq<Action>, a: Action)
    requires Enabled(s, a) && AllAsked(s, acts)
    ensures AllAsked(Step(s, a), acts + [a])
  {
    hide Asked, Step, Enabled, AsksFor;
    AskedLater(acts, a);
    CallsStay(s, a);
    var s' := Step(s, a);
    forall id | id in s'.calls ensures Asked(acts + [a], s'.calls[id]) {
      if id !in s.calls {
        NewCallAsked(s, acts, a, id);
      }
    }
    forall k | k in s'.contexts ensures HandAsked(s', k, acts + [a]) {
      assert k in s.contexts.Keys && HandAsked(s, k, acts);
      if Actor(a) == Some(k) {
        OwnStepAsked(s, acts, a, k);
      } else {
        StepOfOther(s, a, k);
      }
    }
  }

  lemma {:induction false} TraceAsked(run: seq<State>, acts: seq<Action>, i: nat)
    requires IsTrace(run, acts) && i <= |acts|
    ensures AllAsked(run[i], acts[..i])
  {
    hide Step, Enabled, Asked;
    if i > 0 {
      TraceAsked(run, acts, i - 1);
      assert Takes(run[i - 1], acts[i - 1], run[i - 1 + 1]);
      StaysAsked(run[i - 1], acts[..i - 1], acts[i - 1]);
      assert acts[..i] == acts[..i - 1] + [acts[i - 1]];
    }
  }

  /** What is run on a CPU was asked for by some caller, with this function, this argument and this CPU. */
  lemma RunsWereAskedFor(run: seq<State>, acts: seq<Action>, i: nat, l: nat) returns (call: Call)
    requires IsTrace(run, acts) && i <= |acts| && l < |run[i].runs|
    ensures
      var e := run[i].runs[l];
      Asked(acts[..i], call) && call.target == e.cpu && call.func == e.func && call.arg == e.arg
  {
    hide Asked, Initial;
    TraceIsRun(run, acts);
    TraceAsked(run, acts, i);
    RunsAreAsPosted(run, i, l);
    call := run[i].calls[run[i].runs[l].id];
  }
}

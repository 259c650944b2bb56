/** Cross-CPU function calls on x86: any number of CPUs post calls through one set of shared variables
    and an inter-processor interrupt. Each step below is one access to shared memory or one local
    action; the steps of all contexts interleave in any order. */
module IpiCalls {

  import opened Options

  type Cpu = nat
  type CallId = nat

  datatype Call = Call(target: Cpu, func: nat, arg: nat, wait: bool)

  /** Where a caller stands in __on_cpu. */
  datatype Pc =
    | Out                   // not in a call
    | Acquire(call: Call)   // waiting for the lock
    | Decide(id: CallId)    // lock held: own CPU or another one?
    | Clear(id: CallId)     // counted; clear ipi_done next
    | SetFunc(id: CallId)
    | SetData(id: CallId)
    | SetWait(id: CallId)
    | Send(id: CallId)      // write the interrupt command register next
    | Spin(id: CallId)      // waiting for ipi_done
    | Unlock(id: CallId)

  /** The loop of on_cpus: CPUs next, next-1, ..., 0 are still to be called. */
  datatype Loop = Loop(next: int, func: nat, arg: nat, issued: set<CallId>)

  /** An execution context that makes calls, on a CPU: its main flow, or a function run by an interrupt. */
  datatype Context = Context(cpu: Cpu, pc: Pc, loop: Option<Loop>)

  /** Where the interrupt handler of a CPU stands; func, arg and wait are its local copies. */
  datatype Handler =
    | Rest
    | ReadFunc(id: CallId)
    | ReadData(id: CallId, func: nat)
    | ReadWait(id: CallId, func: nat, arg: nat)
    | AckEarly(id: CallId, func: nat, arg: nat)
    | Run(id: CallId, func: nat, arg: nat, wait: bool)
    | Retire(id: CallId, wait: bool)
    | AckLate(id: CallId)

  /** A function that was run. */
  datatype Event = Event(id: CallId, cpu: Cpu, func: nat, arg: nat)

  /** The shared variables, the interrupt in flight, all contexts and handlers, and for specifications:
      the calls made, the functions run, the calls counted in active and not yet retired, and the
      retired ones. */
  datatype State = State(
    n: nat,
    lock: Option<nat>,
    ipiFunc: nat,
    ipiData: nat,
    ipiWait: bool,
    ipiDone: bool,
    active: int,
    pending: Option<CallId>,
    contexts: map<nat, Context>,
    handlers: map<Cpu, Handler>,
    calls: map<CallId, Call>,
    runs: seq<Event>,
    outstanding: set<CallId>,
    retired: set<CallId>)

  predicate InSection(pc: Pc) {
    !pc.Out? && !pc.Acquire?
  }

  /** The call of this context has been counted, and its handler has not begun. */
  predicate Preparing(pc: Pc) {
    pc.Clear? || pc.SetFunc? || pc.SetData? || pc.SetWait? || pc.Send?
  }

  // ---- steps ----

  datatype Action =
    | BeginCall(k: nat, call: Call)
    | BeginAll(k: nat, func: nat, arg: nat)
    | NextCpu(k: nat)
    | EndAll(k: nat)
    | Caller(k: nat, id: CallId)
    | Interrupt(t: Cpu)
    | Serve(t: Cpu)

  function WithPc(s: State, k: nat, pc: Pc): State
    requires k in s.contexts
  {
    s.(contexts := s.contexts[k := s.contexts[k].(pc := pc)])
  }

  function WithHandler(s: State, t: Cpu, h: Handler): State {
    s.(handlers := s.handlers[t := h])
  }

  ghost predicate Enabled(s: State, a: Action) {
    match a
    case BeginCall(k, call) =>
      k in s.contexts && s.contexts[k].pc == Out && s.contexts[k].loop == None && call.target < s.n
    case BeginAll(k, func, arg) =>
      k in s.contexts && s.contexts[k].pc == Out && s.contexts[k].loop == None
    case NextCpu(k) =>
      k in s.contexts && s.contexts[k].pc == Out && s.contexts[k].loop.Some? && s.contexts[k].loop.value.next >= 0
    case EndAll(k) =>
      && k in s.contexts && s.contexts[k].pc == Out && s.contexts[k].loop.Some? && s.contexts[k].loop.value.next < 0
      && s.active <= 1
    case Caller(k, id) =>
      && k in s.contexts
      && match s.contexts[k].pc {
           case Out => false
           case Acquire(_) => s.lock == None && id !in s.calls
           case Spin(i) => s.ipiDone && i in s.calls
           case pc => pc.id in s.calls
         }
    case Interrupt(t) =>
      t in s.handlers && s.handlers[t] == Rest && s.pending.Some? && s.pending.value in s.calls
      && s.calls[s.pending.value].target == t
    case Serve(t) =>
      t in s.handlers && s.handlers[t] != Rest
  }

  /** The call is given its id as the lock is taken. */
  function TakeLock(s: State, k: nat, id: CallId): State
    requires k in s.contexts && s.contexts[k].pc.Acquire?
  {
    WithPc(s, k, Decide(id)).(lock := Some(k), calls := s.calls[id := s.contexts[k].pc.call])
  }

  /** A call for the caller's own CPU is run at once; any other is counted. */
  function RunHere(s: State, k: nat, id: CallId): State
    requires k in s.contexts && id in s.calls
  {
    WithPc(s, k, Unlock(id)).(runs := s.runs + [Event(id, s.contexts[k].cpu, s.calls[id].func, s.calls[id].arg)])
  }

  function Count(s: State, k: nat, id: CallId): State
    requires k in s.contexts
  {
    WithPc(s, k, Clear(id)).(active := s.active + 1, outstanding := s.outstanding + {id})
  }

  /** Filling in the message, and sending the interrupt. */
  function Prepare(s: State, k: nat): State
    requires k in s.contexts && Preparing(s.contexts[k].pc) && s.contexts[k].pc.id in s.calls
  {
    match s.contexts[k].pc
    case Clear(i) => WithPc(s, k, SetFunc(i)).(ipiDone := false)
    case SetFunc(i) => WithPc(s, k, SetData(i)).(ipiFunc := s.calls[i].func)
    case SetData(i) => WithPc(s, k, SetWait(i)).(ipiData := s.calls[i].arg)
    case SetWait(i) => WithPc(s, k, Send(i)).(ipiWait := s.calls[i].wait)
    case Send(i) => WithPc(s, k, Spin(i)).(pending := Some(i))
  }

  function Release(s: State, k: nat, id: CallId): State
    requires k in s.contexts
  {
    var c := s.contexts[k];
    var loop := if c.loop.Some? then Some(c.loop.value.(issued := c.loop.value.issued + {id})) else None;
    s.(lock := None, contexts := s.contexts[k := Context(c.cpu, Out, loop)])
  }

  /** One step of __on_cpu by context k. The id is used when a call is given one. */
  function CallerStep(s: State, k: nat, id: CallId): State
    requires Enabled(s, Caller(k, id))
  {
    match s.contexts[k].pc
    case Acquire(_) => TakeLock(s, k, id)
    case Decide(i) => if s.calls[i].target == s.contexts[k].cpu then RunHere(s, k, i) else Count(s, k, i)
    case Spin(i) => WithPc(s, k, Unlock(i))
    case Unlock(i) => Release(s, k, i)
    case Clear(_) | SetFunc(_) | SetData(_) | SetWait(_) | Send(_) => Prepare(s, k)
  }

  /** One step of the interrupt handler of CPU t. */
  function HandlerStep(s: State, t: Cpu): State
    requires Enabled(s, Serve(t))
  {
    match s.handlers[t]
    case ReadFunc(i) => WithHandler(s, t, ReadData(i, s.ipiFunc))
    case ReadData(i, f) => WithHandler(s, t, ReadWait(i, f, s.ipiData))
    case ReadWait(i, f, d) => WithHandler(s, t, if s.ipiWait then Run(i, f, d, true) else AckEarly(i, f, d))
    case AckEarly(i, f, d) => WithHandler(s, t, Run(i, f, d, false)).(ipiDone := true)
    case Run(i, f, d, w) => WithHandler(s, t, Retire(i, w)).(runs := s.runs + [Event(i, t, f, d)])
    case Retire(i, w) =>
      WithHandler(s, t, if w then AckLate(i) else Rest)
        .(active := s.active - 1, outstanding := s.outstanding - {i}, retired := s.retired + {i})
    case AckLate(i) => WithHandler(s, t, Rest).(ipiDone := true)
  }

  function Step(s: State, a: Action): State
    requires Enabled(s, a)
  {
    match a
    case BeginCall(k, call) => WithPc(s, k, Acquire(call))
    case BeginAll(k, f, d) =>
      s.(contexts := s.contexts[k := s.contexts[k].(loop := Some(Loop(s.n - 1, f, d, {})))])
    case NextCpu(k) =>
      var l := s.contexts[k].loop.value;
      s.(contexts := s.contexts[k := Context(s.contexts[k].cpu, Acquire(Call(l.next, l.func, l.arg, false)),
                                             Some(l.(next := l.next - 1)))])
    case EndAll(k) => s.(contexts := s.contexts[k := s.contexts[k].(loop := None)])
    case Caller(k, id) => CallerStep(s, k, id)
    case Interrupt(t) => WithHandler(s, t, ReadFunc(s.pending.value)).(pending := None)
    case Serve(t) => HandlerStep(s, t)
  }

  // ---- invariants ----

  ghost predicate HasRun(runs: seq<Event>, id: CallId) {
    exists i :: 0 <= i < |runs| && runs[i].id == id
  }

  /** The handler has not yet told the sender to go on. */
  predicate NotAcked(h: Handler) {
    match h
    case Rest => false
    case Run(_, _, _, w) => w
    case Retire(_, w) => w
    case _ => true
  }

  /** The shared variables that a handler reads hold the values of the call. */
  predicate Registers(s: State, id: CallId) {
    id in s.calls && s.ipiFunc == s.calls[id].func && s.ipiData == s.calls[id].arg && s.ipiWait == s.calls[id].wait
  }

  predicate BeingServed(s: State, id: CallId) {
    && id in s.calls && s.calls[id].target in s.handlers
    && !s.handlers[s.calls[id].target].Rest? && s.handlers[s.calls[id].target].id == id
    && NotAcked(s.handlers[s.calls[id].target])
  }

  /** A handler has taken the call and is not back at rest. */
  predicate Serving(s: State, id: CallId) {
    && id in s.calls && s.calls[id].target in s.handlers
    && !s.handlers[s.calls[id].target].Rest? && s.handlers[s.calls[id].target].id == id
  }

  /** The call has been run and retired. */
  ghost predicate Finished(s: State, id: CallId) {
    HasRun(s.runs, id) && id in s.retired && id !in s.outstanding
  }

  /** The call is run, or counted, or retired: it has been dealt with. */
  ghost predicate Known(s: State, id: CallId) {
    HasRun(s.runs, id) || id in s.outstanding || id in s.retired
  }

  /** The loop of on_cpus has made its call for CPU t. */
  ghost predicate Covered(s: State, l: Loop, t: Cpu) {
    exists id :: id in l.issued && id in s.calls && s.calls[id] == Call(t, l.func, l.arg, false)
  }

  /** All CPUs above the one in hand have been called, and the call in hand is the one the loop asks for. */
  ghost predicate LoopOk(s: State, pc: Pc, l: Loop) {
    && -1 <= l.next < s.n
    && (forall id :: id in l.issued ==> Known(s, id))
    && (forall t: nat :: l.next + 1 < t < s.n ==> Covered(s, l, t))
    && match pc
       case Out => l.next + 1 < s.n ==> Covered(s, l, l.next + 1)
       case Acquire(call) => l.next + 1 < s.n && call == Call(l.next + 1, l.func, l.arg, false)
       case _ => l.next + 1 < s.n && pc.id in s.calls && s.calls[pc.id] == Call(l.next + 1, l.func, l.arg, false)
  }

  ghost predicate SectionOk(s: State, cpu: Cpu, pc: Pc)
    requires InSection(pc)
  {
    && pc.id in s.calls
    && match pc
       case Decide(i) => !HasRun(s.runs, i) && i !in s.outstanding && i !in s.retired && s.pending == None && !Serving(s, i)
       case Unlock(i) =>
         && s.pending == None
         && Known(s, i)
         && (s.calls[i].target == cpu ==> HasRun(s.runs, i))
         && (s.calls[i].target != cpu && s.calls[i].wait ==> Finished(s, i))
       case Spin(i) =>
         && Registers(s, i) && s.calls[i].target != cpu
         && (i in s.outstanding || i in s.retired)
         && (s.pending != None ==>
              && s.pending == Some(i) && !s.ipiDone && !Serving(s, i)
              && i in s.outstanding && i !in s.retired && !HasRun(s.runs, i))
         && (s.pending == None && !s.ipiDone ==> BeingServed(s, i))
         && (s.ipiDone ==> !BeingServed(s, i) && (s.calls[i].wait ==> Finished(s, i)))
       case _ =>
         && s.pending == None && s.calls[pc.id].target != cpu
         && !HasRun(s.runs, pc.id) && pc.id in s.outstanding && pc.id !in s.retired && !Serving(s, pc.id)
         && (!pc.Clear? ==> !s.ipiDone)
         && (pc.SetData? || pc.SetWait? || pc.Send? ==> s.ipiFunc == s.calls[pc.id].func)
         && (pc.SetWait? || pc.Send? ==> s.ipiData == s.calls[pc.id].arg)
         && (pc.Send? ==> s.ipiWait == s.calls[pc.id].wait)
  }

  ghost predicate ContextOk(s: State, k: nat)
    requires k in s.contexts
  {
    var c := s.contexts[k];
    && (InSection(c.pc) <==> s.lock == Some(k))
    && (c.pc.Acquire? ==> c.pc.call.target < s.n)
    && (c.loop.Some? ==> LoopOk(s, c.pc, c.loop.value))
    && (InSection(c.pc) ==> SectionOk(s, c.cpu, c.pc))
  }

  /** The call that the lock holder is making. */
  ghost predicate HolderSpins(s: State, id: CallId) {
    s.lock.Some? && s.lock.value in s.contexts && s.contexts[s.lock.value].pc == Spin(id)
  }

  ghost predicate HandlerOk(s: State, t: Cpu)
    requires t in s.handlers
  {
    var h := s.handlers[t];
    h != Rest ==>
      && h.id in s.calls && s.calls[h.id].target == t && s.pending != Some(h.id)
      && (NotAcked(h) ==> HolderSpins(s, h.id) && !s.ipiDone && s.pending == None)
      && (h.AckLate? ==> Finished(s, h.id))
      && (!h.AckLate? ==> h.id in s.outstanding && h.id !in s.retired)
      && (!h.AckLate? && !h.Retire? ==> !HasRun(s.runs, h.id))
      && (h.Retire? ==> HasRun(s.runs, h.id) && h.wait == s.calls[h.id].wait)
      && (h.AckLate? ==> s.calls[h.id].wait)
      && (h.AckEarly? ==> !s.calls[h.id].wait)
      && (h.Run? ==> h.wait == s.calls[h.id].wait)
      && (h.ReadData? || h.ReadWait? || h.AckEarly? || h.Run? ==> h.func == s.calls[h.id].func)
      && (h.ReadWait? || h.AckEarly? || h.Run? ==> h.arg == s.calls[h.id].arg)
  }

  /** A function is run as it was posted, on the CPU it was posted for, and once. */
  ghost predicate EventOk(calls: map<CallId, Call>, runs: seq<Event>, i: nat)
    requires i < |runs|
  {
    var e := runs[i];
    && e.id in calls && e.cpu == calls[e.id].target && e.func == calls[e.id].func && e.arg == calls[e.id].arg
    && forall j :: 0 <= j < i ==> runs[j].id != e.id
  }

  ghost predicate ContextsOk(s: State) {
    forall k :: k in s.contexts ==> ContextOk(s, k)
  }

  ghost predicate HandlersOk(s: State) {
    forall t :: t in s.handlers ==> HandlerOk(s, t)
  }

  ghost predicate EventsOk(calls: map<CallId, Call>, runs: seq<Event>) {
    forall i: nat :: i < |runs| ==> EventOk(calls, runs, i)
  }

  /** Every call is for an existing CPU, and the counters agree with the sets of calls they count. */
  ghost predicate CountsOk(s: State) {
    && s.active == 1 + |s.outstanding|
    && (forall id :: id in s.retired ==> id !in s.outstanding && HasRun(s.runs, id))
    && (forall id :: id in s.outstanding ==> id in s.calls)
    && (forall id :: id in s.calls ==> s.calls[id].target < s.n)
    && (forall t: nat :: t in s.handlers <==> t < s.n)
  }

  ghost predicate Inv(s: State) {
    && CountsOk(s)
    && (s.lock.Some? ==> s.lock.value in s.contexts)
    && (s.pending.Some? ==> HolderSpins(s, s.pending.value))
    && EventsOk(s.calls, s.runs)
    && ContextsOk(s)
    && HandlersOk(s)
  }

  // ---- every step keeps the invariant ----

  /** Calls are never changed, and what has been dealt with stays so. */
  ghost predicate Monotone(s: State, s': State) {
    && s'.n == s.n
    && (forall id :: id in s.calls ==> id in s'.calls && s'.calls[id] == s.calls[id])
    && (forall id :: Known(s, id) ==> Known(s', id))
  }

  lemma LoopKept(s: State, s': State, pc: Pc, l: Loop)
    requires Monotone(s, s') && LoopOk(s, pc, l)
    ensures LoopOk(s', pc, l)
  {
    hide Known;
    forall t | Covered(s, l, t) ensures Covered(s', l, t) {
      var id :| id in l.issued && id in s.calls && s.calls[id] == Call(t, l.func, l.arg, false);
    }
  }

  /** The loop's call in hand moves from one point of __on_cpu to the next. */
  lemma LoopAdvances(s: State, pc: Pc, pc': Pc, l: Loop)
    requires InSection(pc) && InSection(pc') && pc.id == pc'.id && LoopOk(s, pc, l)
    ensures LoopOk(s, pc', l)
  {
    hide Known, Covered;
  }

  /** A context outside the section is unaffected by what others do. */
  lemma BystanderOk(s: State, s': State, j: nat)
    requires j in s.contexts && ContextOk(s, j) && !InSection(s.contexts[j].pc)
    requires j in s'.contexts && s'.contexts[j] == s.contexts[j]
    requires s'.lock != Some(j) && Monotone(s, s')
    ensures ContextOk(s', j)
  {
    hide LoopOk, SectionOk;
    var c := s.contexts[j];
    if c.loop.Some? {
      LoopKept(s, s', c.pc, c.loop.value);
    }
  }

  ghost predicate OnlyContext(s: State, s': State, k: nat) {
    && s'.contexts.Keys == s.contexts.Keys
    && (forall j :: j in s.contexts && j != k ==> s'.contexts[j] == s.contexts[j])
  }

  /** The section is held by at most one context: what it does leaves all other contexts in order. */
  lemma BystandersOk(s: State, s': State, k: nat)
    requires ContextsOk(s) && OnlyContext(s, s', k) && k in s.contexts
    requires s.lock == None || s.lock == Some(k)
    requires s'.lock == None || s'.lock == Some(k)
    requires Monotone(s, s')
    requires k in s'.contexts && ContextOk(s', k)
    ensures ContextsOk(s')
  {
    hide LoopOk, SectionOk, Monotone;
    forall j | j in s'.contexts && j != k ensures ContextOk(s', j) {
      assert j in s'.contexts.Keys && j in s.contexts;
      assert ContextOk(s, j);
      BystanderOk(s, s', j);
    }
  }

  /** Context k, inside the section, goes from one point of __on_cpu to the next. */
  ghost predicate Advances(s: State, s': State, k: nat, pc: Pc) {
    && k in s.contexts && k in s'.contexts && OnlyContext(s, s', k)
    && s'.contexts[k] == s.contexts[k].(pc := pc)
    && s.lock == Some(k) && s'.lock == Some(k)
    && InSection(s.contexts[k].pc) && InSection(pc) && s.contexts[k].pc.id == pc.id
  }

  lemma HolderContexts(s: State, s': State, k: nat, pc: Pc)
    requires ContextsOk(s) && Advances(s, s', k, pc)
    requires Monotone(s, s') && SectionOk(s', s.contexts[k].cpu, pc)
    ensures ContextsOk(s')
  {
    hide LoopOk, SectionOk, Monotone;
    var c := s.contexts[k];
    assert ContextOk(s, k);
    if c.loop.Some? {
      LoopAdvances(s, c.pc, pc, c.loop.value);
      LoopKept(s, s', pc, c.loop.value);
    }
    BystandersOk(s, s', k);
  }

  /** Nothing but the variables of the message and contexts differ. */
  ghost predicate SameCalls(s: State, s': State) {
    && s'.n == s.n && s'.calls == s.calls && s'.runs == s.runs && s'.active == s.active
    && s'.outstanding == s.outstanding && s'.retired == s.retired && s'.handlers == s.handlers
  }

  // -- preparing a call --

  /** The holder of the section is not spinning, so no handler owes it an acknowledgement. */
  lemma NoneOwes(s: State, t: Cpu)
    requires t in s.handlers && HandlerOk(s, t) && !s.handlers[t].Rest?
    requires s.lock == None || (s.lock.value in s.contexts && !s.contexts[s.lock.value].pc.Spin?)
    ensures !NotAcked(s.handlers[t])
  {
    hide HasRun, Finished;
  }

  lemma PreparingHandler(s: State, s': State, id: CallId, t: Cpu)
    requires t in s.handlers && HandlerOk(s, t)
    requires s.lock.Some? && s.lock.value in s.contexts && Preparing(s.contexts[s.lock.value].pc)
    requires id in s.calls && !Serving(s, id)
    requires SameCalls(s, s') && (s'.pending == None || s'.pending == Some(id))
    ensures HandlerOk(s', t)
  {
    hide HasRun;
    if !s.handlers[t].Rest? {
      NoneOwes(s, t);
    }
  }

  /** What Prepare does apart from filling in the message. */
  lemma PrepareAdvances(s: State, k: nat)
    requires k in s.contexts && Preparing(s.contexts[k].pc) && s.contexts[k].pc.id in s.calls && s.lock == Some(k)
    ensures
      var s' := Prepare(s, k);
      && SameCalls(s, s') && k in s'.contexts && Advances(s, s', k, s'.contexts[k].pc)
      && (s'.pending == s.pending || (s'.pending == Some(s.contexts[k].pc.id) && s'.contexts[k].pc == Spin(s.contexts[k].pc.id)))
  {
  }

  lemma PrepareSection(s: State, k: nat)
    requires k in s.contexts && Preparing(s.contexts[k].pc)
    requires SectionOk(s, s.contexts[k].cpu, s.contexts[k].pc)
    ensures SectionOk(Prepare(s, k), s.contexts[k].cpu, Prepare(s, k).contexts[k].pc)
  {
    hide HasRun;
  }

  lemma PrepareKeeps(s: State, k: nat)
    requires Inv(s) && k in s.contexts && Preparing(s.contexts[k].pc)
    ensures s.contexts[k].pc.id in s.calls && Inv(Prepare(s, k))
  {
    hide HandlerOk, EventsOk, LoopOk, SectionOk, HasRun, Prepare;
    assert ContextOk(s, k);
    PreparingFacts(s, k);
    var s' := Prepare(s, k);
    PrepareAdvances(s, k);
    forall t | t in s'.handlers ensures HandlerOk(s', t) {
      PreparingHandler(s, s', s.contexts[k].pc.id, t);
    }
    PrepareSection(s, k);
    assert Monotone(s, s');
    HolderContexts(s, s', k, s'.contexts[k].pc);
  }

  lemma PreparingFacts(s: State, k: nat)
    requires k in s.contexts && Preparing(s.contexts[k].pc)
    requires SectionOk(s, s.contexts[k].cpu, s.contexts[k].pc)
    ensures s.contexts[k].pc.id in s.calls && !Serving(s, s.contexts[k].pc.id) && s.pending == None
  {
  }

  // -- taking the lock --

  lemma TakeLockKeeps(s: State, k: nat, id: CallId)
    requires Inv(s) && k in s.contexts && s.contexts[k].pc.Acquire? && s.lock == None && id !in s.calls
    ensures Inv(TakeLock(s, k, id))
  {
    hide HandlerOk, LoopOk, SectionOk, HasRun;
    assert ContextOk(s, k);
    var s' := TakeLock(s, k, id);
    Unused(s, id);
    forall t | t in s'.handlers ensures HandlerOk(s', t) {
      HandlerBeforeTake(s, s', t);
    }
    assert Monotone(s, s');
    TakeSection(s, k, id);
    TakeContext(s, k, id);
    BystandersOk(s, s', k);
    EventsKept(s.calls, s'.calls, s.runs);
  }

  lemma EventsKept(calls: map<CallId, Call>, calls': map<CallId, Call>, runs: seq<Event>)
    requires EventsOk(calls, runs)
    requires forall id :: id in calls ==> id in calls' && calls'[id] == calls[id]
    ensures EventsOk(calls', runs)
  {
    forall i: nat | i < |runs| ensures EventOk(calls', runs, i) {
      assert EventOk(calls, runs, i);
    }
  }

  lemma Unused(s: State, id: CallId)
    requires CountsOk(s) && EventsOk(s.calls, s.runs) && id !in s.calls
    ensures !HasRun(s.runs, id) && id !in s.outstanding && id !in s.retired
  {
    forall i: nat | i < |s.runs| ensures s.runs[i].id != id {
      assert EventOk(s.calls, s.runs, i);
    }
  }

  lemma HandlerBeforeTake(s: State, s': State, t: Cpu)
    requires t in s.handlers && HandlerOk(s, t) && s.lock == None
    requires s'.handlers == s.handlers && s'.runs == s.runs && s'.pending == s.pending
    requires s'.outstanding == s.outstanding && s'.retired == s.retired
    requires forall id :: id in s.calls ==> id in s'.calls && s'.calls[id] == s.calls[id]
    ensures HandlerOk(s', t)
  {
    hide HasRun;
    if !s.handlers[t].Rest? {
      NoneOwes(s, t);
    }
  }

  lemma TakeSection(s: State, k: nat, id: CallId)
    requires k in s.contexts && s.contexts[k].pc.Acquire? && id !in s.calls && s.pending == None
    requires !HasRun(s.runs, id) && id !in s.outstanding && id !in s.retired
    requires HandlersOk(s)
    ensures SectionOk(TakeLock(s, k, id), s.contexts[k].cpu, Decide(id))
  {
    hide HasRun;
    var t := s.contexts[k].pc.call.target;
    assert t in s.handlers ==> HandlerOk(s, t);
  }

  lemma TakeContext(s: State, k: nat, id: CallId)
    requires k in s.contexts && ContextOk(s, k) && s.contexts[k].pc.Acquire? && id !in s.calls
    requires SectionOk(TakeLock(s, k, id), s.contexts[k].cpu, Decide(id))
    requires Monotone(s, TakeLock(s, k, id))
    ensures ContextOk(TakeLock(s, k, id), k)
  {
    hide SectionOk;
    var c := s.contexts[k];
    var s' := TakeLock(s, k, id);
    if c.loop.Some? {
      LoopKept(s, s', c.pc, c.loop.value);
      assert LoopOk(s', Decide(id), c.loop.value);
    }
  }

  // -- running a function --

  lemma EventsExtended(calls: map<CallId, Call>, runs: seq<Event>, e: Event)
    requires EventsOk(calls, runs) && !HasRun(runs, e.id)
    requires e.id in calls && calls[e.id].target == e.cpu && calls[e.id].func == e.func && calls[e.id].arg == e.arg
    ensures EventsOk(calls, runs + [e])
  {
    forall i: nat | i < |runs + [e]| ensures EventOk(calls, runs + [e], i) {
      if i < |runs| {
        assert EventOk(calls, runs, i);
      }
    }
  }

  lemma RunAdds(runs: seq<Event>, e: Event, id: CallId)
    ensures HasRun(runs + [e], id) <==> HasRun(runs, id) || id == e.id
  {
    assert (runs + [e])[|runs|] == e;
    forall i | 0 <= i < |runs| ensures (runs + [e])[i] == runs[i] {
    }
  }

  lemma RunHereKeeps(s: State, k: nat, id: CallId)
    requires Inv(s) && k in s.contexts && s.contexts[k].pc == Decide(id)
    requires id in s.calls && s.calls[id].target == s.contexts[k].cpu
    ensures Inv(RunHere(s, k, id))
  {
    hide HandlerOk, LoopOk, SectionOk, HasRun, EventsOk;
    assert ContextOk(s, k);
    var s' := RunHere(s, k, id);
    var e := Event(id, s.contexts[k].cpu, s.calls[id].func, s.calls[id].arg);
    DecideFacts(s, k, id);
    EventsExtended(s.calls, s.runs, e);
    forall i: CallId ensures HasRun(s'.runs, i) <==> HasRun(s.runs, i) || i == id {
      RunAdds(s.runs, e, i);
    }
    forall t | t in s'.handlers ensures HandlerOk(s', t) {
      HandlerAfterRun(s, s', id, t);
    }
    assert Monotone(s, s');
    assert SectionOk(s', s.contexts[k].cpu, Unlock(id)) by { RanHere(s', s.contexts[k].cpu, id); }
    HolderContexts(s, s', k, Unlock(id));
  }

  lemma DecideFacts(s: State, k: nat, id: CallId)
    requires k in s.contexts && ContextOk(s, k) && s.contexts[k].pc == Decide(id)
    ensures id in s.calls && !HasRun(s.runs, id) && id !in s.outstanding && id !in s.retired
    ensures s.pending == None && !Serving(s, id) && s.lock == Some(k)
  {
    hide LoopOk, HasRun;
  }

  lemma RanHere(s: State, cpu: Cpu, id: CallId)
    requires id in s.calls && s.calls[id].target == cpu && s.pending == None && HasRun(s.runs, id)
    ensures SectionOk(s, cpu, Unlock(id))
  {
    hide HasRun;
  }

  /** A run of another call, or another call's count, leaves a handler in order. */
  lemma HandlerAfterRun(s: State, s': State, id: CallId, t: Cpu)
    requires t in s.handlers && HandlerOk(s, t) && id in s.calls && !Serving(s, id)
    requires s.lock.Some? && s.lock.value in s.contexts && !s.contexts[s.lock.value].pc.Spin?
    requires s'.handlers == s.handlers && s'.calls == s.calls && s'.pending == s.pending && s'.retired == s.retired
    requires forall i: CallId :: i != id ==> (i in s'.outstanding <==> i in s.outstanding)
    requires forall i: CallId :: i != id ==> (HasRun(s'.runs, i) <==> HasRun(s.runs, i))
    ensures HandlerOk(s', t)
  {
    hide HasRun;
    if !s.handlers[t].Rest? {
      NoneOwes(s, t);
    }
  }

  // -- counting a call --

  lemma CountKeeps(s: State, k: nat, id: CallId)
    requires Inv(s) && k in s.contexts && s.contexts[k].pc == Decide(id)
    requires id in s.calls && s.calls[id].target != s.contexts[k].cpu
    ensures Inv(Count(s, k, id))
  {
    hide HandlerOk, LoopOk, SectionOk, HasRun, EventsOk;
    assert ContextOk(s, k);
    var s' := Count(s, k, id);
    DecideFacts(s, k, id);
    forall t | t in s'.handlers ensures HandlerOk(s', t) {
      HandlerAfterRun(s, s', id, t);
    }
    assert Monotone(s, s');
    assert SectionOk(s', s.contexts[k].cpu, Clear(id)) by { Counted(s', s.contexts[k].cpu, id); }
    HolderContexts(s, s', k, Clear(id));
  }

  lemma Counted(s: State, cpu: Cpu, id: CallId)
    requires id in s.calls && s.calls[id].target != cpu && s.pending == None && !HasRun(s.runs, id)
    requires id in s.outstanding && id !in s.retired && !Serving(s, id)
    ensures SectionOk(s, cpu, Clear(id))
  {
    hide HasRun;
  }

  // -- acknowledged --

  lemma GoOnKeeps(s: State, k: nat, id: CallId)
    requires Inv(s) && k in s.contexts && s.contexts[k].pc == Spin(id) && s.ipiDone
    ensures Inv(WithPc(s, k, Unlock(id)))
  {
    hide HandlerOk, LoopOk, SectionOk, HasRun, EventsOk;
    assert ContextOk(s, k);
    var s' := WithPc(s, k, Unlock(id));
    forall t | t in s'.handlers ensures HandlerOk(s', t) {
      HandlerAfterDone(s, s', t);
    }
    assert Monotone(s, s');
    GoOnSection(s, s', s.contexts[k].cpu, id);
    HolderContexts(s, s', k, Unlock(id));
  }

  lemma HandlerAfterDone(s: State, s': State, t: Cpu)
    requires t in s.handlers && HandlerOk(s, t) && s.ipiDone
    requires SameCalls(s, s') && s'.pending == s.pending
    ensures HandlerOk(s', t)
  {
    hide HasRun, HolderSpins;
  }

  lemma GoOnSection(s: State, s': State, cpu: Cpu, id: CallId)
    requires SectionOk(s, cpu, Spin(id)) && s.ipiDone
    requires SameCalls(s, s') && s'.pending == s.pending
    ensures SectionOk(s', cpu, Unlock(id)) && s.pending == None
  {
    hide HasRun;
  }

  // -- releasing the lock --

  lemma ReleaseKeeps(s: State, k: nat, id: CallId)
    requires Inv(s) && k in s.contexts && s.contexts[k].pc == Unlock(id)
    ensures Inv(Release(s, k, id))
  {
    hide HandlerOk, LoopOk, SectionOk, HasRun, EventsOk;
    assert ContextOk(s, k);
    var s' := Release(s, k, id);
    UnlockFacts(s, k, id);
    forall t | t in s'.handlers ensures HandlerOk(s', t) {
      HandlerAfterRelease(s, s', t);
    }
    assert Monotone(s, s');
    ReleasedLoop(s, k, id);
    BystandersOk(s, s', k);
  }

  lemma UnlockFacts(s: State, k: nat, id: CallId)
    requires k in s.contexts && ContextOk(s, k) && s.contexts[k].pc == Unlock(id)
    ensures s.pending == None && s.lock == Some(k) && id in s.calls && Known(s, id)
  {
    hide LoopOk, HasRun, Finished;
  }

  lemma HandlerAfterRelease(s: State, s': State, t: Cpu)
    requires t in s.handlers && HandlerOk(s, t)
    requires s.lock.Some? && s.lock.value in s.contexts && !s.contexts[s.lock.value].pc.Spin?
    requires SameCalls(s, s') && s'.pending == s.pending
    ensures HandlerOk(s', t)
  {
    hide HasRun;
    if !s.handlers[t].Rest? {
      NoneOwes(s, t);
    }
  }

  lemma ReleasedLoop(s: State, k: nat, id: CallId)
    requires k in s.contexts && ContextOk(s, k) && s.contexts[k].pc == Unlock(id) && Known(s, id)
    ensures ContextOk(Release(s, k, id), k)
  {
    hide SectionOk, HasRun;
    var c := s.contexts[k];
    var s' := Release(s, k, id);
    if c.loop.Some? {
      var l, l' := c.loop.value, s'.contexts[k].loop.value;
      assert LoopOk(s, Unlock(id), l);
      forall t | Covered(s, l, t) ensures Covered(s', l', t) {
        var i :| i in l.issued && i in s.calls && s.calls[i] == Call(t, l.func, l.arg, false);
        assert i in l'.issued;
      }
      assert id in l'.issued;
      assert Covered(s', l', l.next + 1);
      assert LoopOk(s', Out, l');
    }
  }

  // -- steps outside the section --

  /** The message and the interrupt in flight are the same. */
  ghost predicate SameMessage(s: State, s': State) {
    && s'.ipiFunc == s.ipiFunc && s'.ipiData == s.ipiData && s'.ipiWait == s.ipiWait && s'.ipiDone == s.ipiDone
    && s'.pending == s.pending
  }

  lemma SectionSame(s: State, s': State, cpu: Cpu, pc: Pc)
    requires InSection(pc) && SectionOk(s, cpu, pc) && SameCalls(s, s') && SameMessage(s, s')
    ensures SectionOk(s', cpu, pc)
  {
    hide HasRun;
  }

  lemma OutsideContext(s: State, s': State, k: nat, j: nat)
    requires ContextsOk(s) && SameCalls(s, s') && SameMessage(s, s') && s'.lock == s.lock
    requires OnlyContext(s, s', k) && j in s'.contexts && j != k
    ensures ContextOk(s', j)
  {
    hide LoopOk, SectionOk;
    assert j in s.contexts.Keys && ContextOk(s, j);
    var c := s.contexts[j];
    if c.loop.Some? {
      LoopKept(s, s', c.pc, c.loop.value);
    }
    if InSection(c.pc) {
      SectionSame(s, s', c.cpu, c.pc);
    }
  }

  lemma OutsideHandler(s: State, s': State, k: nat, t: Cpu)
    requires t in s.handlers && HandlerOk(s, t) && SameCalls(s, s') && SameMessage(s, s') && s'.lock == s.lock
    requires OnlyContext(s, s', k) && k in s.contexts && !InSection(s.contexts[k].pc)
    ensures HandlerOk(s', t)
  {
    hide HasRun;
    assert s.lock.Some? && s.lock.value in s.contexts ==> s.lock.value in s'.contexts.Keys;
  }

  lemma OutsideKeeps(s: State, s': State, k: nat)
    requires Inv(s) && SameCalls(s, s') && SameMessage(s, s') && s'.lock == s.lock
    requires OnlyContext(s, s', k) && k in s.contexts && !InSection(s.contexts[k].pc)
    requires k in s'.contexts && ContextOk(s', k)
    ensures Inv(s')
  {
    hide HandlerOk, ContextOk, HasRun, EventsOk;
    forall j | j in s'.contexts && j != k ensures ContextOk(s', j) {
      OutsideContext(s, s', k, j);
    }
    forall t | t in s'.handlers ensures HandlerOk(s', t) {
      OutsideHandler(s, s', k, t);
    }
    assert s.lock.Some? ==> s.lock.value in s'.contexts.Keys;
  }

  lemma BeginCallKeeps(s: State, k: nat, call: Call)
    requires Inv(s) && Enabled(s, BeginCall(k, call))
    ensures Inv(Step(s, BeginCall(k, call)))
  {
    hide HandlersOk, LoopOk, SectionOk, EventsOk, CountsOk;
    assert ContextOk(s, k);
    OutsideKeeps(s, WithPc(s, k, Acquire(call)), k);
  }

  lemma BeginAllKeeps(s: State, k: nat, func: nat, arg: nat)
    requires Inv(s) && Enabled(s, BeginAll(k, func, arg))
    ensures Inv(Step(s, BeginAll(k, func, arg)))
  {
    hide HandlersOk, SectionOk, EventsOk, CountsOk;
    assert ContextOk(s, k);
    OutsideKeeps(s, Step(s, BeginAll(k, func, arg)), k);
  }

  lemma NextCpuKeeps(s: State, k: nat)
    requires Inv(s) && Enabled(s, NextCpu(k))
    ensures Inv(Step(s, NextCpu(k)))
  {
    hide HandlersOk, SectionOk, EventsOk, CountsOk;
    assert ContextOk(s, k);
    var s' := Step(s, NextCpu(k));
    var l := s.contexts[k].loop.value;
    var l' := l.(next := l.next - 1);
    forall t | Covered(s, l, t) ensures Covered(s', l', t) {
      var i :| i in l.issued && i in s.calls && s.calls[i] == Call(t, l.func, l.arg, false);
      assert i in l'.issued;
    }
    OutsideKeeps(s, s', k);
  }

  lemma EndAllKeeps(s: State, k: nat)
    requires Inv(s) && Enabled(s, EndAll(k))
    ensures Inv(Step(s, EndAll(k)))
  {
    hide HandlersOk, LoopOk, SectionOk, EventsOk, CountsOk;
    assert ContextOk(s, k);
    OutsideKeeps(s, Step(s, EndAll(k)), k);
  }

  // -- handler steps --

  /** The handler of CPU t, serving call id, goes on; no other call is touched. */
  ghost predicate Serves(s: State, s': State, t: Cpu, id: CallId, h: Handler) {
    && t in s.handlers && s'.handlers == s.handlers[t := h]
    && s'.n == s.n && s'.calls == s.calls && s'.lock == s.lock && s'.contexts == s.contexts
    && s'.ipiFunc == s.ipiFunc && s'.ipiData == s.ipiData && s'.ipiWait == s.ipiWait
    && (forall i: CallId :: i != id ==> (i in s'.outstanding <==> i in s.outstanding))
    && (forall i: CallId :: i != id ==> (i in s'.retired <==> i in s.retired))
    && (forall i: CallId :: i != id ==> (HasRun(s'.runs, i) <==> HasRun(s.runs, i)))
  }

  /** The handlers of two CPUs serve different calls, and at most one of them owes an acknowledgement. */
  lemma OtherHandler(s: State, s': State, t: Cpu, id: CallId, h: Handler, u: Cpu)
    requires Serves(s, s', t, id, h) && id in s.calls && s.calls[id].target == t
    requires s'.pending == s.pending || s'.pending == None
    requires s'.ipiDone == s.ipiDone || HolderSpins(s, id)
    requires u in s.handlers && u != t && HandlerOk(s, u)
    ensures HandlerOk(s', u)
  {
    hide HasRun;
  }

  lemma OtherHandlers(s: State, s': State, t: Cpu, id: CallId, h: Handler)
    requires Serves(s, s', t, id, h) && id in s.calls && s.calls[id].target == t
    requires s'.pending == s.pending || s'.pending == None
    requires s'.ipiDone == s.ipiDone || HolderSpins(s, id)
    requires HandlersOk(s) && HandlerOk(s', t)
    ensures HandlersOk(s')
  {
    hide HandlerOk, Serves;
    assert s'.handlers == s.handlers[t := h] by { ServesHandlers(s, s', t, id, h); }
    forall u | u in s'.handlers && u != t ensures HandlerOk(s', u) {
      OtherHandler(s, s', t, id, h, u);
    }
  }

  lemma ServesHandlers(s: State, s': State, t: Cpu, id: CallId, h: Handler)
    requires Serves(s, s', t, id, h)
    ensures t in s.handlers && s'.handlers == s.handlers[t := h]
  {
  }

  lemma ServedContexts(s: State, s': State)
    requires ContextsOk(s) && Monotone(s, s') && s'.contexts == s.contexts && s'.lock == s.lock
    requires s'.n == s.n
    requires forall k :: k in s.contexts && InSection(s.contexts[k].pc) ==> SectionOk(s', s.contexts[k].cpu, s.contexts[k].pc)
    ensures ContextsOk(s')
  {
    hide LoopOk, SectionOk, Monotone;
    forall k | k in s'.contexts ensures ContextOk(s', k) {
      assert ContextOk(s, k);
      var c := s.contexts[k];
      if c.loop.Some? {
        LoopKept(s, s', c.pc, c.loop.value);
      }
    }
  }

  // the interrupt arrives

  lemma SpinFacts(s: State, k: nat, id: CallId)
    requires k in s.contexts && ContextOk(s, k) && s.contexts[k].pc == Spin(id)
    ensures SectionOk(s, s.contexts[k].cpu, Spin(id)) && Registers(s, id) && s.lock == Some(k)
    ensures s.pending != None ==>
      && s.pending == Some(id) && !s.ipiDone && id in s.outstanding && id !in s.retired && !HasRun(s.runs, id)
  {
    hide LoopOk, HasRun;
  }

  lemma InterruptKeeps(s: State, t: Cpu)
    requires Inv(s) && Enabled(s, Interrupt(t))
    ensures Inv(Step(s, Interrupt(t)))
  {
    hide HandlerOk, ContextOk, SectionOk, HasRun, EventsOk, LoopOk;
    var s' := Step(s, Interrupt(t));
    var id, k := s.pending.value, s.lock.value;
    assert ContextOk(s, k);
    SpinFacts(s, k, id);
    assert Serves(s, s', t, id, ReadFunc(id));
    Taken(s', t, id);
    OtherHandlers(s, s', t, id, ReadFunc(id));
    InterruptSection(s, s', t, s.contexts[k].cpu, id);
    HolderOnly(s, k);
    ServedContexts(s, s');
  }

  /** Only the holder of the lock is in the section. */
  lemma HolderOnly(s: State, k: nat)
    requires ContextsOk(s) && s.lock == Some(k)
    ensures forall j :: j in s.contexts && InSection(s.contexts[j].pc) ==>
        j == k && SectionOk(s, s.contexts[j].cpu, s.contexts[j].pc)
  {
    hide LoopOk, SectionOk;
    forall j | j in s.contexts && InSection(s.contexts[j].pc)
      ensures j == k && SectionOk(s, s.contexts[j].cpu, s.contexts[j].pc)
    {
      assert ContextOk(s, j);
    }
  }

  lemma Taken(s: State, t: Cpu, id: CallId)
    requires t in s.handlers && s.handlers[t] == ReadFunc(id) && id in s.calls && s.calls[id].target == t
    requires s.pending == None && HolderSpins(s, id) && !s.ipiDone
    requires id in s.outstanding && id !in s.retired && !HasRun(s.runs, id)
    ensures HandlerOk(s, t)
  {
    hide HasRun;
  }

  lemma InterruptSection(s: State, s': State, t: Cpu, cpu: Cpu, id: CallId)
    requires SectionOk(s, cpu, Spin(id)) && s.pending == Some(id) && id in s.calls && s.calls[id].target == t
    requires Serves(s, s', t, id, ReadFunc(id)) && s'.pending == None && s'.ipiDone == s.ipiDone
    requires s'.outstanding == s.outstanding && s'.retired == s.retired && s'.runs == s.runs
    ensures SectionOk(s', cpu, Spin(id))
  {
    hide HasRun;
  }

  // the handler reads the message

  /** These points come before the acknowledgement, and only the handler's own copies change. */
  predicate Reading(h: Handler) {
    h.ReadFunc? || h.ReadData? || h.ReadWait?
  }

  lemma ReadingHandler(s: State, t: Cpu)
    requires Enabled(s, Serve(t)) && Reading(s.handlers[t]) && HandlerOk(s, t)
    requires HolderSpins(s, s.handlers[t].id) ==> Registers(s, s.handlers[t].id)
    ensures HandlerOk(HandlerStep(s, t), t)
  {
    hide HasRun;
  }

  lemma ReadingSection(s: State, t: Cpu, cpu: Cpu, pc: Pc)
    requires Enabled(s, Serve(t)) && Reading(s.handlers[t]) && InSection(pc) && SectionOk(s, cpu, pc)
    ensures SectionOk(HandlerStep(s, t), cpu, pc)
  {
    hide HasRun;
  }

  lemma ReadingKeeps(s: State, t: Cpu)
    requires Inv(s) && Enabled(s, Serve(t)) && Reading(s.handlers[t])
    ensures Inv(HandlerStep(s, t))
  {
    hide HandlerOk, ContextOk, SectionOk, HasRun, EventsOk, LoopOk;
    var s' := HandlerStep(s, t);
    var id := s.handlers[t].id;
    OwingFacts(s, t);
    var k := s.lock.value;
    assert ContextOk(s, k);
    SpinFacts(s, k, id);
    ReadingHandler(s, t);
    assert Serves(s, s', t, id, s'.handlers[t]);
    OtherHandlers(s, s', t, id, s'.handlers[t]);
    HolderOnly(s, k);
    ReadingSection(s, t, s.contexts[k].cpu, Spin(id));
    ServedContexts(s, s');
  }

  lemma OwingFacts(s: State, t: Cpu)
    requires t in s.handlers && HandlerOk(s, t) && NotAcked(s.handlers[t])
    ensures HolderSpins(s, s.handlers[t].id) && !s.ipiDone && s.pending == None
    ensures s.handlers[t].id in s.calls && s.calls[s.handlers[t].id].target == t
  {
    hide HasRun;
  }

  // the acknowledgements

  lemma AckHandler(s: State, t: Cpu)
    requires Enabled(s, Serve(t)) && (s.handlers[t].AckEarly? || s.handlers[t].AckLate?) && HandlerOk(s, t)
    ensures HandlerOk(HandlerStep(s, t), t)
  {
    hide HasRun;
  }

  lemma AckSection(s: State, t: Cpu, cpu: Cpu, id: CallId)
    requires Enabled(s, Serve(t)) && (s.handlers[t].AckEarly? || s.handlers[t].AckLate?) && s.handlers[t].id == id
    requires HandlerOk(s, t) && SectionOk(s, cpu, Spin(id))
    ensures SectionOk(HandlerStep(s, t), cpu, Spin(id))
  {
    hide HasRun;
  }

  lemma AckKeeps(s: State, t: Cpu)
    requires Inv(s) && Enabled(s, Serve(t)) && (s.handlers[t].AckEarly? || s.handlers[t].AckLate?)
    ensures Inv(HandlerStep(s, t))
  {
    hide HandlerOk, ContextOk, SectionOk, HasRun, EventsOk, LoopOk;
    var s' := HandlerStep(s, t);
    var id := s.handlers[t].id;
    OwingFacts(s, t);
    var k := s.lock.value;
    assert ContextOk(s, k);
    SpinFacts(s, k, id);
    AckHandler(s, t);
    assert Serves(s, s', t, id, s'.handlers[t]);
    OtherHandlers(s, s', t, id, s'.handlers[t]);
    HolderOnly(s, k);
    AckSection(s, t, s.contexts[k].cpu, id);
    ServedContexts(s, s');
  }

  // the function runs

  lemma RunHandler(s: State, t: Cpu)
    requires Enabled(s, Serve(t)) && s.handlers[t].Run? && HandlerOk(s, t)
    ensures HandlerOk(HandlerStep(s, t), t)
  {
    hide HasRun;
    var h := s.handlers[t];
    RunAdds(s.runs, Event(h.id, t, h.func, h.arg), h.id);
  }

  lemma RunSection(s: State, s': State, t: Cpu, id: CallId, h: Handler, cpu: Cpu, pc: Pc)
    requires Serves(s, s', t, id, h) && s.handlers[t].Run? && s.handlers[t].id == id && HandlerOk(s, t)
    requires h == Retire(id, s.handlers[t].wait)
    requires s'.ipiDone == s.ipiDone && s'.pending == s.pending
    requires s'.outstanding == s.outstanding && s'.retired == s.retired && HasRun(s'.runs, id)
    requires InSection(pc) && SectionOk(s, cpu, pc)
    ensures SectionOk(s', cpu, pc)
  {
    hide HasRun;
  }

  lemma RunFacts(s: State, t: Cpu)
    requires t in s.handlers && HandlerOk(s, t) && s.handlers[t].Run?
    ensures
      var h := s.handlers[t];
      && h.id in s.calls && s.calls[h.id].target == t && !HasRun(s.runs, h.id)
      && h.func == s.calls[h.id].func && h.arg == s.calls[h.id].arg
  {
    hide HasRun;
  }

  lemma RunKeeps(s: State, t: Cpu)
    requires Inv(s) && Enabled(s, Serve(t)) && s.handlers[t].Run?
    ensures Inv(HandlerStep(s, t))
  {
    hide HandlerOk, ContextOk, SectionOk, HasRun, EventsOk, LoopOk;
    var s' := HandlerStep(s, t);
    var h := s.handlers[t];
    var e := Event(h.id, t, h.func, h.arg);
    RunFacts(s, t);
    EventsExtended(s.calls, s.runs, e);
    forall i: CallId ensures HasRun(s'.runs, i) <==> HasRun(s.runs, i) || i == h.id {
      RunAdds(s.runs, e, i);
    }
    RunHandler(s, t);
    assert Serves(s, s', t, h.id, s'.handlers[t]);
    OtherHandlers(s, s', t, h.id, s'.handlers[t]);
    forall k | k in s.contexts && InSection(s.contexts[k].pc)
      ensures SectionOk(s', s.contexts[k].cpu, s.contexts[k].pc)
    {
      InSectionOk(s, k);
      RunSection(s, s', t, h.id, s'.handlers[t], s.contexts[k].cpu, s.contexts[k].pc);
    }
    ServedContexts(s, s');
  }

  lemma InSectionOk(s: State, k: nat)
    requires ContextsOk(s) && k in s.contexts && InSection(s.contexts[k].pc)
    ensures SectionOk(s, s.contexts[k].cpu, s.contexts[k].pc)
  {
    hide LoopOk, SectionOk;
    assert ContextOk(s, k);
  }

  // the call is retired

  lemma RetireHandler(s: State, t: Cpu)
    requires Enabled(s, Serve(t)) && s.handlers[t].Retire? && HandlerOk(s, t)
    ensures HandlerOk(HandlerStep(s, t), t)
  {
    hide HasRun;
  }

  lemma RetireSection(s: State, t: Cpu, cpu: Cpu, pc: Pc)
    requires Enabled(s, Serve(t)) && s.handlers[t].Retire? && HandlerOk(s, t)
    requires InSection(pc) && SectionOk(s, cpu, pc)
    ensures SectionOk(HandlerStep(s, t), cpu, pc)
  {
    hide HasRun;
  }

  lemma RetireFacts(s: State, t: Cpu)
    requires t in s.handlers && HandlerOk(s, t) && s.handlers[t].Retire?
    ensures
      var id := s.handlers[t].id;
      id in s.calls && s.calls[id].target == t && HasRun(s.runs, id) && id in s.outstanding && id !in s.retired
  {
    hide HasRun;
  }

  lemma RetireKeeps(s: State, t: Cpu)
    requires Inv(s) && Enabled(s, Serve(t)) && s.handlers[t].Retire?
    ensures Inv(HandlerStep(s, t))
  {
    hide HandlerOk, ContextOk, SectionOk, HasRun, EventsOk, LoopOk;
    var s' := HandlerStep(s, t);
    var id := s.handlers[t].id;
    RetireFacts(s, t);
    RetireHandler(s, t);
    assert Serves(s, s', t, id, s'.handlers[t]);
    OtherHandlers(s, s', t, id, s'.handlers[t]);
    forall k | k in s.contexts && InSection(s.contexts[k].pc)
      ensures SectionOk(s', s.contexts[k].cpu, s.contexts[k].pc)
    {
      InSectionOk(s, k);
      RetireSection(s, t, s.contexts[k].cpu, s.contexts[k].pc);
    }
    ServedContexts(s, s');
  }

  // ---- all steps ----

  lemma CallerKeeps(s: State, k: nat, id: CallId)
    requires Inv(s) && Enabled(s, Caller(k, id))
    ensures Inv(CallerStep(s, k, id))
  {
    hide Inv, TakeLock, RunHere, Count, Prepare, Release, WithPc;
    match s.contexts[k].pc
    case Acquire(_) => TakeLockKeeps(s, k, id);
    case Decide(i) =>
      if s.calls[i].target == s.contexts[k].cpu {
        RunHereKeeps(s, k, i);
      } else {
        CountKeeps(s, k, i);
      }
    case Spin(i) => GoOnKeeps(s, k, i);
    case Unlock(i) => ReleaseKeeps(s, k, i);
    case Clear(_) | SetFunc(_) | SetData(_) | SetWait(_) | Send(_) => PrepareKeeps(s, k);
  }

  lemma HandlerKeeps(s: State, t: Cpu)
    requires Inv(s) && Enabled(s, Serve(t))
    ensures Inv(HandlerStep(s, t))
  {
    hide Inv, HandlerStep;
    match s.handlers[t]
    case ReadFunc(_) | ReadData(_, _) | ReadWait(_, _, _) => ReadingKeeps(s, t);
    case AckEarly(_, _, _) | AckLate(_) => AckKeeps(s, t);
    case Run(_, _, _, _) => RunKeeps(s, t);
    case Retire(_, _) => RetireKeeps(s, t);
  }

  /** Every step of every context and handler keeps the invariant. */
  lemma StepKeeps(s: State, a: Action)
    requires Inv(s) && Enabled(s, a)
    ensures Inv(Step(s, a))
  {
    hide Inv, CallerStep, HandlerStep;
    match a
    case BeginCall(k, call) => BeginCallKeeps(s, k, call);
    case BeginAll(k, func, arg) => BeginAllKeeps(s, k, func, arg);
    case NextCpu(k) => NextCpuKeeps(s, k);
    case EndAll(k) => EndAllKeeps(s, k);
    case Caller(k, id) => CallerKeeps(s, k, id);
    case Interrupt(t) => InterruptKeeps(s, t);
    case Serve(t) => HandlerKeeps(s, t);
  }

  // ---- whole runs ----

  /** At boot one CPU is active, no call has been made, and no interrupt handler is running. */
  ghost predicate Boot(s: State) {
    && s.lock == None && s.active == 1 && s.pending == None
    && s.calls == map[] && s.runs == [] && s.outstanding == {} && s.retired == {}
    && (forall t: nat :: t in s.handlers <==> t < s.n)
    && (forall t :: t in s.handlers ==> s.handlers[t] == Rest)
    && (forall k :: k in s.contexts ==> s.contexts[k].pc == Out && s.contexts[k].loop == None)
  }

  ghost predicate IsStep(s: State, s': State) {
    exists a :: Enabled(s, a) && s' == Step(s, a)
  }

  /** A run: any interleaving of steps from boot. */
  ghost predicate IsRun(run: seq<State>) {
    && |run| > 0 && Boot(run[0])
    && forall i :: 0 <= i < |run| - 1 ==> IsStep(run[i], run[i + 1])
  }

  lemma {:induction false} RunKeepsInv(run: seq<State>, i: nat)
    requires IsRun(run) && i < |run|
    ensures Inv(run[i])
  {
    hide Step, Enabled;
    if i > 0 {
      RunKeepsInv(run, i - 1);
      assert IsStep(run[i - 1], run[i - 1 + 1]);
      var a :| Enabled(run[i - 1], a) && run[i] == Step(run[i - 1], a);
      StepKeeps(run[i - 1], a);
    }
  }

  // ---- what the calls promise ----

  /** active_cpus is one more than the calls posted to other CPUs and not yet retired, in every state of
      every run. */
  lemma ActiveCounts(run: seq<State>, i: nat)
    requires IsRun(run) && i < |run|
    ensures run[i].active == 1 + |run[i].outstanding|
  {
    RunKeepsInv(run, i);
  }

  // ---- no call is lost ----

  /** A counted call is with its sender, in flight, or with its target's handler. */
  ghost predicate Placed(s: State, id: CallId) {
    || (s.lock.Some? && s.lock.value in s.contexts
        && Preparing(s.contexts[s.lock.value].pc) && s.contexts[s.lock.value].pc.id == id)
    || s.pending == Some(id)
    || Serving(s, id)
  }

  ghost predicate AllPlaced(s: State) {
    forall id :: id in s.outstanding ==> Placed(s, id)
  }

  /** Whoever has a call keeps it, as the holder of the lock goes on. */
  lemma HolderPlaces(s: State, s': State, k: nat, pc: Pc)
    requires AllPlaced(s) && Advances(s, s', k, pc) && s'.handlers == s.handlers
    requires forall i :: i in s.calls ==> i in s'.calls && s'.calls[i] == s.calls[i]
    requires s'.outstanding == s.outstanding || (s'.outstanding == s.outstanding + {pc.id} && Preparing(pc))
    requires s'.pending == s.pending || (s.pending == None && s'.pending == Some(pc.id))
    requires Preparing(s.contexts[k].pc) ==> Preparing(pc) || s'.pending == Some(pc.id)
    ensures AllPlaced(s')
  {
    forall i | i in s'.outstanding ensures Placed(s', i) {
      assert i in s.outstanding ==> Placed(s, i);
    }
  }

  lemma CallerPlaces(s: State, k: nat, id: CallId)
    requires Inv(s) && AllPlaced(s) && Enabled(s, Caller(k, id))
    ensures AllPlaced(CallerStep(s, k, id))
  {
    hide HandlersOk, EventsOk, LoopOk, HasRun, AllPlaced, SectionOk;
    assert ContextOk(s, k);
    match s.contexts[k].pc
    case Acquire(_) => TakeLockPlaces(s, k, id);
    case Decide(i) => DecidePlaces(s, k, i);
    case Spin(i) => SpinPlaces(s, k, i);
    case Unlock(i) => ReleasePlaces(s, k, i);
    case Clear(i) => PreparePlaces(s, k);
    case SetFunc(i) => PreparePlaces(s, k);
    case SetData(i) => PreparePlaces(s, k);
    case SetWait(i) => PreparePlaces(s, k);
    case Send(i) => PreparePlaces(s, k);
  }

  lemma TakeLockPlaces(s: State, k: nat, id: CallId)
    requires AllPlaced(s) && CountsOk(s) && k in s.contexts && s.contexts[k].pc.Acquire? && s.lock == None
    requires id !in s.calls
    ensures AllPlaced(TakeLock(s, k, id))
  {
    var s' := TakeLock(s, k, id);
    forall i | i in s'.outstanding ensures Placed(s', i) {
      assert Placed(s, i);
    }
  }

  lemma DecidePlaces(s: State, k: nat, id: CallId)
    requires AllPlaced(s) && k in s.contexts && s.contexts[k].pc == Decide(id) && id in s.calls && s.lock == Some(k)
    ensures AllPlaced(RunHere(s, k, id)) && AllPlaced(Count(s, k, id))
  {
    hide AllPlaced;
    HolderPlaces(s, RunHere(s, k, id), k, Unlock(id));
    HolderPlaces(s, Count(s, k, id), k, Clear(id));
  }

  lemma SpinPlaces(s: State, k: nat, id: CallId)
    requires AllPlaced(s) && k in s.contexts && s.contexts[k].pc == Spin(id) && s.lock == Some(k)
    ensures AllPlaced(WithPc(s, k, Unlock(id)))
  {
    hide AllPlaced;
    HolderPlaces(s, WithPc(s, k, Unlock(id)), k, Unlock(id));
  }

  lemma PreparePlaces(s: State, k: nat)
    requires AllPlaced(s) && k in s.contexts && Preparing(s.contexts[k].pc) && s.contexts[k].pc.id in s.calls
    requires s.lock == Some(k)
    requires s.pending == None
    ensures AllPlaced(Prepare(s, k))
  {
    hide AllPlaced;
    PrepareAdvances(s, k);
    var s' := Prepare(s, k);
    HolderPlaces(s, s', k, s'.contexts[k].pc);
  }

  lemma ReleasePlaces(s: State, k: nat, id: CallId)
    requires AllPlaced(s) && k in s.contexts && s.contexts[k].pc == Unlock(id) && s.lock == Some(k)
    ensures AllPlaced(Release(s, k, id))
  {
    var s' := Release(s, k, id);
    forall i | i in s'.outstanding ensures Placed(s', i) {
      assert Placed(s, i);
    }
  }

  lemma ServingKept(s: State, s': State, t: Cpu, h: Handler)
    requires AllPlaced(s) && t in s.handlers && s.handlers[t] != Rest && s'.handlers == s.handlers[t := h]
    requires s'.calls == s.calls && s'.contexts == s.contexts && s'.lock == s.lock && s'.pending == s.pending
    requires s'.outstanding <= s.outstanding
    requires if h.Rest? then s.handlers[t].id !in s'.outstanding else h.id == s.handlers[t].id
    ensures AllPlaced(s')
  {
    forall i | i in s'.outstanding ensures Placed(s', i) {
      assert Placed(s, i);
    }
  }

  lemma HandlerPlaces(s: State, t: Cpu)
    requires AllPlaced(s) && Enabled(s, Serve(t)) && HandlerOk(s, t)
    ensures AllPlaced(HandlerStep(s, t))
  {
    hide AllPlaced, HasRun;
    var s' := HandlerStep(s, t);
    ServingKept(s, s', t, s'.handlers[t]);
  }

  lemma StepPlaces(s: State, a: Action)
    requires Inv(s) && AllPlaced(s) && Enabled(s, a)
    ensures AllPlaced(Step(s, a))
  {
    hide AllPlaced;
    match a
    case Caller(k, id) => CallerPlaces(s, k, id);
    case Serve(t) => HandlerPlaces(s, t);
    case Interrupt(t) => InterruptPlaces(s, t);
    case BeginCall(k, _) => OutsidePlaces(s, Step(s, a), k);
    case BeginAll(k, _, _) => OutsidePlaces(s, Step(s, a), k);
    case NextCpu(k) => OutsidePlaces(s, Step(s, a), k);
    case EndAll(k) => OutsidePlaces(s, Step(s, a), k);
  }

  lemma InterruptPlaces(s: State, t: Cpu)
    requires AllPlaced(s) && Enabled(s, Interrupt(t))
    ensures AllPlaced(Step(s, Interrupt(t)))
  {
    var s' := Step(s, Interrupt(t));
    forall i | i in s'.outstanding ensures Placed(s', i) {
      assert Placed(s, i);
    }
  }

  lemma OutsidePlaces(s: State, s': State, k: nat)
    requires AllPlaced(s) && SameCalls(s, s') && SameMessage(s, s') && s'.lock == s.lock
    requires OnlyContext(s, s', k) && k in s.contexts && !InSection(s.contexts[k].pc)
    ensures AllPlaced(s')
  {
    forall i | i in s'.outstanding ensures Placed(s', i) {
      assert Placed(s, i);
      assert s.lock.Some? && s.lock.value in s.contexts ==> s.lock.value in s'.contexts.Keys;
    }
  }

  lemma {:induction false} RunPlaces(run: seq<State>, i: nat)
    requires IsRun(run) && i < |run|
    ensures AllPlaced(run[i])
  {
    hide Step, Enabled;
    if i > 0 {
      RunPlaces(run, i - 1);
      RunKeepsInv(run, i - 1);
      assert IsStep(run[i - 1], run[i - 1 + 1]);
      var a :| Enabled(run[i - 1], a) && run[i] == Step(run[i - 1], a);
      StepPlaces(run[i - 1], a);
    }
  }

  /** In every state of every run, a call that is counted and not yet retired can be moved on at once: by its
      sender, by the interrupt, or by the handler of its target. */
  lemma OutstandingCanMove(run: seq<State>, i: nat, id: CallId)
    requires IsRun(run) && i < |run| && id in run[i].outstanding
    ensures
      var s := run[i];
      && id in s.calls
      && (|| (s.lock.Some? && Enabled(s, Caller(s.lock.value, id)))
          || Enabled(s, Interrupt(s.calls[id].target))
          || Enabled(s, Serve(s.calls[id].target)))
  {
    var s := run[i];
    RunKeepsInv(run, i);
    RunPlaces(run, i);
    assert Placed(s, id);
    var t := s.calls[id].target;
    assert t in s.handlers;
    if s.lock.Some? && Preparing(s.contexts[s.lock.value].pc) {
      assert ContextOk(s, s.lock.value);
    }
  }

  /** Each function run is one that was posted, with its argument and on its CPU; no call runs twice. */
  lemma RunsAreAsPosted(run: seq<State>, i: nat, j: nat)
    requires IsRun(run) && i < |run| && j < |run[i].runs|
    ensures
      var s, e := run[i], run[i].runs[j];
      && e.id in s.calls && e.cpu == s.calls[e.id].target && e.func == s.calls[e.id].func && e.arg == s.calls[e.id].arg
      && forall l :: 0 <= l < |s.runs| && l != j ==> s.runs[l].id != e.id
  {
    RunKeepsInv(run, i);
    var s := run[i];
    assert EventOk(s.calls, s.runs, j);
    forall l: nat | l < |s.runs| && l != j ensures s.runs[l].id != s.runs[j].id {
      assert EventOk(s.calls, s.runs, l);
    }
  }

  lemma RunEvent(run: seq<State>, i: nat, id: CallId) returns (j: nat)
    requires IsRun(run) && i < |run| && HasRun(run[i].runs, id)
    ensures id in run[i].calls && j < |run[i].runs|
    ensures run[i].runs[j] == Event(id, run[i].calls[id].target, run[i].calls[id].func, run[i].calls[id].arg)
  {
    j :| 0 <= j < |run[i].runs| && run[i].runs[j].id == id;
    RunsAreAsPosted(run, i, j);
  }

  /** When __on_cpu is about to release the lock: a call that waits, or one for the caller's own CPU, has been
      run as posted; and a call that does not wait has been run, or the handler holds its own copy of
      function and argument, so that the message may be overwritten. */
  lemma OnCpuReturns(run: seq<State>, i: nat, k: nat, id: CallId)
    requires IsRun(run) && i < |run| && k in run[i].contexts && run[i].contexts[k].pc == Unlock(id)
    ensures
      var s := run[i];
      && id in s.calls
      && var call := s.calls[id];
      && (call.wait || call.target == s.contexts[k].cpu || id !in s.outstanding
          ==> Event(id, call.target, call.func, call.arg) in s.runs)
      && (call.wait ==> id !in s.outstanding || call.target == s.contexts[k].cpu)
      && (id in s.outstanding && !HasRun(s.runs, id) ==>
           call.target in s.handlers && s.handlers[call.target] == Run(id, call.func, call.arg, false))
  {
    var s := run[i];
    RunKeepsInv(run, i);
    RunPlaces(run, i);
    InSectionOk(s, k);
    assert ContextOk(s, k);
    var call := s.calls[id];
    if HasRun(s.runs, id) {
      var j := RunEvent(run, i, id);
    }
    if id in s.outstanding {
      assert Placed(s, id);
      assert HandlerOk(s, call.target);
      NoneOwes(s, call.target);
    }
  }

  /** The loop of on_cpus has made a call of its own for CPU t, which has been run there as posted. */
  ghost predicate Done(s: State, l: Loop, t: Cpu) {
    exists id :: id in l.issued && Event(id, t, l.func, l.arg) in s.runs
  }

  /** When on_cpus is about to return, no call of any caller is outstanding, and for every CPU the loop has made a
      call of its own, which has been run there as posted. */
  lemma OnCpusReturns(run: seq<State>, i: nat, k: nat)
    requires IsRun(run) && i < |run| && Enabled(run[i], EndAll(k))
    ensures
      var s, l := run[i], run[i].contexts[k].loop.value;
      && s.outstanding == {}
      && forall t: nat :: t < s.n ==> Done(s, l, t)
  {
    var s, l := run[i], run[i].contexts[k].loop.value;
    RunKeepsInv(run, i);
    assert ContextOk(s, k);
    forall t: nat | t < s.n ensures Done(s, l, t) {
      assert Covered(s, l, t);
      var id :| id in l.issued && id in s.calls && s.calls[id] == Call(t, l.func, l.arg, false);
      assert Known(s, id);
      var j := RunEvent(run, i, id);
      assert s.runs[j] == Event(id, t, l.func, l.arg);
    }
  }

  // ---- from what was asked for to what was run ----

  ghost predicate Takes(s: State, a: Action, s': State) {
    Enabled(s, a) && s' == Step(s, a)
  }

  /** A run from boot, with the step taken in each of its states. */
  ghost predicate IsTrace(run: seq<State>, acts: seq<Action>) {
    && |run| == |acts| + 1 && Boot(run[0])
    && forall i :: 0 <= i < |acts| ==> Takes(run[i], acts[i], run[i + 1])
  }

  lemma TraceIsRun(run: seq<State>, acts: seq<Action>)
    requires IsTrace(run, acts)
    ensures IsRun(run)
  {
    hide Step, Enabled;
    forall i | 0 <= i < |run| - 1 ensures IsStep(run[i], run[i + 1]) {
      assert Takes(run[i], acts[i], run[i + 1]);
    }
  }

  /** Context k is in a call that was asked for when the calls made were those in before: it is this one. */
  ghost predicate InHand(s: State, k: nat, call: Call, before: set<CallId>) {
    && k in s.contexts && before <= s.calls.Keys
    && match s.contexts[k].pc
       case Out => false
       case Acquire(c) => c == call
       case pc => pc.id in s.calls && s.calls[pc.id] == call && pc.id !in before
  }

  /** The context that takes the step. */
  function Actor(a: Action): Option<nat> {
    match a
    case BeginCall(k, _) => Some(k)
    case BeginAll(k, _, _) => Some(k)
    case NextCpu(k) => Some(k)
    case EndAll(k) => Some(k)
    case Caller(k, _) => Some(k)
    case _ => None
  }

  /** A step of __on_cpu, by which context k gets to pc, changes no other context and no call already made. */
  ghost predicate Moves(s: State, s': State, k: nat, pc: Pc) {
    && k in s.contexts && k in s'.contexts && OnlyContext(s, s', k)
    && s'.contexts[k].cpu == s.contexts[k].cpu && s'.contexts[k].pc == pc
    && forall i :: i in s.calls ==> i in s'.calls && s'.calls[i] == s.calls[i]
  }

  lemma TakeLockMoves(s: State, k: nat, id: CallId)
    requires k in s.contexts && s.contexts[k].pc.Acquire? && id !in s.calls
    ensures Moves(s, TakeLock(s, k, id), k, Decide(id))
  {
  }

  lemma DecideMoves(s: State, k: nat, id: CallId)
    requires k in s.contexts && id in s.calls
    ensures Moves(s, RunHere(s, k, id), k, Unlock(id)) && Moves(s, Count(s, k, id), k, Clear(id))
  {
  }

  lemma PrepareMoves(s: State, k: nat)
    requires k in s.contexts && Preparing(s.contexts[k].pc) && s.contexts[k].pc.id in s.calls
    ensures
      var s' := Prepare(s, k);
      k in s'.contexts && Moves(s, s', k, s'.contexts[k].pc) && InSection(s'.contexts[k].pc)
      && s'.contexts[k].pc.id == s.contexts[k].pc.id
  {
  }

  lemma ReleaseMoves(s: State, k: nat, id: CallId)
    requires k in s.contexts && s.contexts[k].pc == Unlock(id)
    ensures Moves(s, Release(s, k, id), k, Out) && CameOut(s, Release(s, k, id), k)
  {
  }

  lemma CallerFrame(s: State, k: nat, id: CallId)
    requires Enabled(s, Caller(k, id))
    ensures
      var s' := CallerStep(s, k, id);
      && k in s.contexts && k in s'.contexts && Moves(s, s', k, s'.contexts[k].pc)
      && var pc, pc' := s.contexts[k].pc, s'.contexts[k].pc;
      && (pc.Acquire? ==> pc' == Decide(id) && s'.calls == s.calls[id := pc.call] && id !in s.calls)
      && (InSection(pc) && !pc.Unlock? ==> InSection(pc') && pc'.id == pc.id)
      && (pc.Unlock? ==> pc' == Out && CameOut(s, s', k))
  {
    hide Moves, CameOut, Prepare, Release, Count, RunHere;
    match s.contexts[k].pc
    case Acquire(_) => TakeLockMoves(s, k, id);
    case Decide(i) => DecideMoves(s, k, i);
    case Unlock(i) => ReleaseMoves(s, k, i);
    case Spin(i) => SpinMoves(s, k, i);
    case _ => PrepareMoves(s, k);
  }

  lemma SpinMoves(s: State, k: nat, id: CallId)
    requires k in s.contexts
    ensures Moves(s, WithPc(s, k, Unlock(id)), k, Unlock(id))
  {
  }

  lemma HandlerFrame(s: State, t: Cpu)
    requires Enabled(s, Serve(t))
    ensures HandlerStep(s, t).contexts == s.contexts && HandlerStep(s, t).calls == s.calls
  {
    hide Enabled;
  }

  lemma StepOfOther(s: State, a: Action, k: nat)
    requires Enabled(s, a) && k in s.contexts && Actor(a) != Some(k)
    ensures k in Step(s, a).contexts && Step(s, a).contexts[k] == s.contexts[k]
  {
    hide CallerStep, HandlerStep;
    match a
    case Caller(j, id) => CallerFrame(s, j, id);
    case Serve(t) => HandlerFrame(s, t);
    case _ =>
  }

  lemma CallsStay(s: State, a: Action)
    requires Enabled(s, a)
    ensures forall id :: id in s.calls ==> id in Step(s, a).calls && Step(s, a).calls[id] == s.calls[id]
    ensures Step(s, a).contexts.Keys == s.contexts.Keys
  {
    hide CallerStep, HandlerStep;
    match a
    case Caller(j, id) => CallerFrame(s, j, id);
    case Serve(t) => HandlerFrame(s, t);
    case _ =>
  }

  lemma OwnStep(s: State, k: nat, i: CallId, call: Call, before: set<CallId>)
    requires Enabled(s, Caller(k, i)) && InHand(s, k, call, before)
    ensures
      var s' := CallerStep(s, k, i);
      && k in s'.contexts && s'.contexts[k].cpu == s.contexts[k].cpu
      && if s'.contexts[k].pc != Out then InHand(s', k, call, before) else CameOut(s, s', k)
  {
    hide CallerStep, CameOut, Enabled;
    CallerFrame(s, k, i);
  }

  /** The lock is released, and context k is out of its call. */
  predicate CameOut(s: State, s': State, k: nat) {
    && k in s.contexts && s.contexts[k].pc.Unlock? && s'.n == s.n
    && s'.runs == s.runs && s'.calls == s.calls && s'.outstanding == s.outstanding && s'.retired == s.retired
  }

  lemma StaysInHand(s: State, a: Action, k: nat, call: Call, before: set<CallId>)
    requires Enabled(s, a) && InHand(s, k, call, before)
    ensures
      var s' := Step(s, a);
      && k in s'.contexts && s'.contexts[k].cpu == s.contexts[k].cpu
      && if s'.contexts[k].pc != Out then InHand(s', k, call, before) else CameOut(s, s', k)
  {
    hide CallerStep, HandlerStep;
    if Actor(a) != Some(k) {
      CallsStay(s, a);
      StepOfOther(s, a, k);
    } else {
      OwnStep(s, k, a.id, call, before);
    }
  }

  lemma {:induction false} HeldSince(run: seq<State>, acts: seq<Action>, j: nat, i: nat, k: nat, call: Call)
    requires IsTrace(run, acts) && j < i <= |acts| && acts[j] == BeginCall(k, call)
    requires forall m :: j < m <= i ==> k in run[m].contexts && run[m].contexts[k].pc != Out
    ensures InHand(run[i], k, call, run[j].calls.Keys) && k in run[j].contexts
    ensures run[i].contexts[k].cpu == run[j].contexts[k].cpu
  {
    hide Boot, InHand, CallerStep, HandlerStep;
    assert Takes(run[i - 1], acts[i - 1], run[i - 1 + 1]);
    if i == j + 1 {
      Begun(run[j], k, call);
    } else {
      HeldSince(run, acts, j, i - 1, k, call);
      hide Step, Enabled;
      StaysInHand(run[i - 1], acts[i - 1], k, call, run[j].calls.Keys);
    }
  }

  lemma Begun(s: State, k: nat, call: Call)
    requires Enabled(s, BeginCall(k, call))
    ensures InHand(Step(s, BeginCall(k, call)), k, call, s.calls.Keys)
    ensures k in s.contexts && Step(s, BeginCall(k, call)).contexts[k].cpu == s.contexts[k].cpu
  {
  }

  /** A context asks for a call, and comes back from it. A new call was made, and it is the one that was asked for.
      Where the caller waits, or calls its own CPU, the function has been run there with the argument; otherwise
      it has been run, or is on its way. */
  lemma CallReturns(run: seq<State>, acts: seq<Action>, j: nat, i: nat, k: nat, call: Call) returns (id: CallId)
    requires IsTrace(run, acts) && j < i <= |acts| && acts[j] == BeginCall(k, call)
    requires forall m :: j < m < i ==> k in run[m].contexts && run[m].contexts[k].pc != Out
    requires k in run[i].contexts && run[i].contexts[k].pc == Out
    ensures id !in run[j].calls && id in run[i].calls && run[i].calls[id] == call && k in run[j].contexts
    ensures call.wait || call.target == run[j].contexts[k].cpu ==>
      Event(id, call.target, call.func, call.arg) in run[i].runs
    ensures call.wait && call.target != run[j].contexts[k].cpu ==> id !in run[i].outstanding
    ensures Event(id, call.target, call.func, call.arg) in run[i].runs || id in run[i].outstanding
  {
    hide Boot, InHand, CallerStep, HandlerStep;
    TraceIsRun(run, acts);
    hide Step;
    NotYetOut(run, acts, j, k, call);
    assert Takes(run[i - 1], acts[i - 1], run[i - 1 + 1]);
    HeldSince(run, acts, j, i - 1, k, call);
    StaysInHand(run[i - 1], acts[i - 1], k, call, run[j].calls.Keys);
    id := run[i - 1].contexts[k].pc.id;
    HandId(run[i - 1], k, call, run[j].calls.Keys);
    OnCpuReturns(run, i - 1, k, id);
  }

  lemma NotYetOut(run: seq<State>, acts: seq<Action>, j: nat, k: nat, call: Call)
    requires IsTrace(run, acts) && j < |acts| && acts[j] == BeginCall(k, call)
    ensures k in run[j + 1].contexts && run[j + 1].contexts[k].pc != Out
  {
    hide Boot, CallerStep, HandlerStep;
    assert Takes(run[j], acts[j], run[j + 1]);
  }

  lemma HandId(s: State, k: nat, call: Call, before: set<CallId>)
    requires InHand(s, k, call, before) && InSection(s.contexts[k].pc)
    ensures s.contexts[k].pc.id in s.calls && s.calls[s.contexts[k].pc.id] == call && s.contexts[k].pc.id !in before
  {
  }

  /** The loop of on_cpus works with the function and argument it was given, and makes new calls. */
  ghost predicate LoopSince(s: State, k: nat, func: nat, arg: nat, before: set<CallId>) {
    && k in s.contexts && before <= s.calls.Keys && s.contexts[k].loop.Some?
    && var c := s.contexts[k];
    && c.loop.value.func == func && c.loop.value.arg == arg
    && (forall id :: id in c.loop.value.issued ==> id !in before)
    && (InSection(c.pc) ==> c.pc.id !in before)
  }

  lemma OwnLoopStep(s: State, a: Action, k: nat, func: nat, arg: nat, before: set<CallId>)
    requires Enabled(s, a) && LoopSince(s, k, func, arg, before) && Actor(a) == Some(k) && a != EndAll(k)
    ensures LoopSince(Step(s, a), k, func, arg, before)
  {
  }

  lemma LoopGoesOn(s: State, a: Action, k: nat, func: nat, arg: nat, before: set<CallId>)
    requires Enabled(s, a) && LoopSince(s, k, func, arg, before) && a != EndAll(k)
    ensures LoopSince(Step(s, a), k, func, arg, before)
  {
    hide CallerStep, HandlerStep;
    if Actor(a) != Some(k) {
      CallsStay(s, a);
      StepOfOther(s, a, k);
    } else {
      OwnLoopStep(s, a, k, func, arg, before);
    }
  }

  lemma {:induction false} LoopHeld(run: seq<State>, acts: seq<Action>, j: nat, i: nat, k: nat, func: nat, arg: nat)
    requires IsTrace(run, acts) && j < i <= |acts| && acts[j] == BeginAll(k, func, arg)
    requires forall m :: j < m < i ==> acts[m] != EndAll(k)
    ensures LoopSince(run[i], k, func, arg, run[j].calls.Keys)
  {
    hide Boot, CallerStep, HandlerStep, LoopSince;
    assert Takes(run[i - 1], acts[i - 1], run[i - 1 + 1]);
    if i == j + 1 {
      LoopBegun(run[j], k, func, arg);
    } else {
      LoopHeld(run, acts, j, i - 1, k, func, arg);
      LoopGoesOn(run[i - 1], acts[i - 1], k, func, arg, run[j].calls.Keys);
    }
  }

  lemma LoopBegun(s: State, k: nat, func: nat, arg: nat)
    requires Enabled(s, BeginAll(k, func, arg))
    ensures LoopSince(Step(s, BeginAll(k, func, arg)), k, func, arg, s.calls.Keys)
  {
  }

  /** The function has been run on CPU t with the argument, by a call that is not one of those before. */
  ghost predicate RanSince(before: set<CallId>, runs: seq<Event>, t: Cpu, func: nat, arg: nat) {
    exists id :: id !in before && Event(id, t, func, arg) in runs
  }

  /** From its begin to its end, on_cpus has had the function it was given run on every CPU, with the argument it was
      given, and no call of any caller is outstanding. */
  lemma OnCpusRanEverywhere(run: seq<State>, acts: seq<Action>, j: nat, i: nat, k: nat, func: nat, arg: nat)
    requires IsTrace(run, acts) && j < i < |acts| && acts[j] == BeginAll(k, func, arg) && acts[i] == EndAll(k)
    requires forall m :: j < m < i ==> acts[m] != EndAll(k)
    ensures run[i].outstanding == {}
    ensures forall t: nat :: t < run[i].n ==> RanSince(run[j].calls.Keys, run[i].runs, t, func, arg)
  {
    hide Boot, Step;
    TraceIsRun(run, acts);
    assert Takes(run[i], acts[i], run[i + 1]);
    LoopHeld(run, acts, j, i, k, func, arg);
    OnCpusReturns(run, i, k);
    var s, l := run[i], run[i].contexts[k].loop.value;
    forall t: nat | t < s.n ensures RanSince(run[j].calls.Keys, s.runs, t, func, arg) {
      assert Done(s, l, t);
      var id :| id in l.issued && Event(id, t, l.func, l.arg) in s.runs;
    }
  }

  /** Step j of the trace asks for this call: alone, or as one of the calls of on_cpus. */
  ghost predicate AsksFor(a: Action, call: Call) {
    match a
    case BeginCall(_, c) => c == call
    case BeginAll(_, f, d) => call.func == f && call.arg == d && !call.wait
    case _ => false
  }

  ghost predicate Asked(acts: seq<Action>, call: Call) {
    exists j :: 0 <= j < |acts| && AsksFor(acts[j], call)
  }

  ghost predicate AllAsked(s: State, acts: seq<Action>) {
    && (forall id :: id in s.calls ==> Asked(acts, s.calls[id]))
    && (forall k :: k in s.contexts ==> HandAsked(s, k, acts))
  }

  lemma AskedLater(acts: seq<Action>, a: Action)
    ensures forall call :: Asked(acts, call) || AsksFor(a, call) ==> Asked(acts + [a], call)
  {
    forall call | Asked(acts, call) || AsksFor(a, call) ensures Asked(acts + [a], call) {
      if AsksFor(a, call) {
        assert (acts + [a])[|acts|] == a;
      } else {
        var j :| 0 <= j < |acts| && AsksFor(acts[j], call);
        assert (acts + [a])[j] == acts[j];
      }
    }
  }

  /** What context k has in hand was asked for. */
  ghost predicate HandAsked(s: State, k: nat, acts: seq<Action>) {
    k in s.contexts ==>
      && (s.contexts[k].pc.Acquire? ==> Asked(acts, s.contexts[k].pc.call))
      && (s.contexts[k].loop.Some? ==> forall t ::
           Asked(acts, Call(t, s.contexts[k].loop.value.func, s.contexts[k].loop.value.arg, false)))
  }

  lemma OwnStepAsked(s: State, acts: seq<Action>, a: Action, k: nat)
    requires Enabled(s, a) && HandAsked(s, k, acts) && Actor(a) == Some(k)
    ensures HandAsked(Step(s, a), k, acts + [a])
  {
    hide Asked;
    AskedLater(acts, a);
  }

  lemma NewCallAsked(s: State, acts: seq<Action>, a: Action, id: CallId)
    requires Enabled(s, a) && id in Step(s, a).calls && id !in s.calls
    requires forall k :: k in s.contexts ==> HandAsked(s, k, acts)
    ensures Asked(acts, Step(s, a).calls[id])
  {
    hide Asked;
    assert a.Caller? && HandAsked(s, a.k, acts);
  }

  lemma StaysAsked(s: State, acts: seq<Action>, a: Action)
    requires Enabled(s, a) && AllAsked(s, acts)
    ensures AllAsked(Step(s, a), acts + [a])
  {
    hide Asked, Step, Enabled, AsksFor;
    AskedLater(acts, a);
    CallsStay(s, a);
    var s' := Step(s, a);
    forall id | id in s'.calls ensures Asked(acts + [a], s'.calls[id]) {
      if id !in s.calls {
        NewCallAsked(s, acts, a, id);
      }
    }
    forall k | k in s'.contexts ensures HandAsked(s', k, acts + [a]) {
      assert k in s.contexts.Keys && HandAsked(s, k, acts);
      if Actor(a) == Some(k) {
        OwnStepAsked(s, acts, a, k);
      } else {
        StepOfOther(s, a, k);
      }
    }
  }

  lemma {:induction false} TraceAsked(run: seq<State>, acts: seq<Action>, i: nat)
    requires IsTrace(run, acts) && i <= |acts|
    ensures AllAsked(run[i], acts[..i])
  {
    hide Step, Enabled, Asked;
    if i > 0 {
      TraceAsked(run, acts, i - 1);
      assert Takes(run[i - 1], acts[i - 1], run[i - 1 + 1]);
      StaysAsked(run[i - 1], acts[..i - 1], acts[i - 1]);
      assert acts[..i] == acts[..i - 1] + [acts[i - 1]];
    }
  }

  /** What is run on a CPU was asked for, with this function, this argument and this CPU. */
  lemma RunsWereAskedFor(run: seq<State>, acts: seq<Action>, i: nat, l: nat) returns (call: Call)
    requires IsTrace(run, acts) && i <= |acts| && l < |run[i].runs|
    ensures
      var e := run[i].runs[l];
      Asked(acts[..i], call) && call.target == e.cpu && call.func == e.func && call.arg == e.arg
  {
    hide Asked, Boot;
    TraceIsRun(run, acts);
    TraceAsked(run, acts, i);
    RunsAreAsPosted(run, i, l);
    call := run[i].calls[run[i].runs[l].id];
  }
}

/**
 The completion token that turns an Asio operation into a sender: the frames open on the call stack, the
 completion handler, and the first exception that escaped from a frame, under one recursive mutex.

 Handlers may be moved, dropped or invoked on any thread, inside any number of frames.
 */
module CompletionToken {
  import opened Options
  import opened Basics

  type Tid = nat
  type Fid = nat
  type Hid = nat

  datatype Ex = Raised(e: nat) | ConversionThrew

  datatype Signal = Value(v: nat) | Error(ex: Ex) | Halted

  // ---------------------------------------------------------------- what the mutex guards

  // Frames are listed from the outermost to the innermost, the one at `frames_`.
  datatype Core<F, H> = Core(frames: seq<F>, h: Option<H>, ex: Option<Ex>, sent: seq<Signal>) {
    function Pushed(f: F): Core<F, H> { this.(frames := frames + [f]) }

    function Popped(): Core<F, H> {
      var rest := if frames == [] then [] else frames[..|frames| - 1];
      this.(frames := rest,
            sent := if rest != [] || h.Some? then sent else sent + [if ex.Some? then Error(ex.value) else Halted])
    }

    function Recorded(e: Ex): Core<F, H> { if ex.Some? then this else this.(ex := Some(e)) }

    function Held(holder: H): Core<F, H> { this.(h := Some(holder)) }

    // The handler's destructor opens a frame of its own.
    function Dropped(f: F): Core<F, H> { Pushed(f).(h := None).Popped() }

    function Released(): Core<F, H> { this.(frames := []) }

    function Invoked(v: nat, throws: bool): Core<F, H> {
      this.(sent := sent + [if ex.Some? then Error(ex.value) else if throws then Error(ConversionThrew) else Value(v)])
    }
  }

  // ---------------------------------------------------------------- the steps

  // `Live`: its `self_` is not null. `Sending`: invoked, past the release of the frames.
  datatype Handler = Live | Sending(v: nat) | Empty | Gone

  // `stacks` holds the open frames of each thread, `locked` those whose lock is still owned. `raised` and
  // `invoked` are history: exceptions caught by frames, in order, and the value of an invocation.
  datatype State = State(core: Core<Fid, Hid>, mutex: Mutex, begun: bool, stacks: map<Tid, seq<Fid>>, locked: set<Fid>,
    handlers: map<Hid, Handler>, raised: seq<Ex>, invoked: Option<nat>)

  // The recursive mutex.
  datatype Mutex = Free | Owned(t: Tid, depth: nat) {
    predicate Admits(u: Tid) { Free? || t == u }

    function Lock(u: Tid): Mutex { Owned(u, if Free? then 1 else depth + 1) }

    function Unlock(): Mutex { if Free? || depth <= 1 then Free else Owned(t, depth - 1) }

    function UnlockAll(n: nat): Mutex
      decreases n
    {
      if n == 0 then this else Unlock().UnlockAll(n - 1)
    }
  }

  datatype Action =
    | Begin(t: Tid, f: Fid, h: Hid)
    | Push(t: Tid, f: Fid) | Record(t: Tid, e: Ex) | Pop(t: Tid)
    | Move(t: Tid, h: Hid, to: Hid) | MoveEmpty(h: Hid, to: Hid)
    | Drop(t: Tid, h: Hid, f: Fid) | DropEmpty(h: Hid)
    | Invoke(t: Tid, h: Hid, v: nat) | Send(h: Hid, throws: bool)

  function Stack(s: State, t: Tid): seq<Fid> { if t in s.stacks then s.stacks[t] else [] }

  ghost predicate Fresh(s: State, f: Fid) { forall t | t in s.stacks :: f !in s.stacks[t] }

  predicate TopIsLocked(s: State, t: Tid) { Stack(s, t) != [] && Stack(s, t)[|Stack(s, t)| - 1] in s.locked }

  predicate HandlerIs(s: State, h: Hid, p: Handler) { h in s.handlers && s.handlers[h] == p }

  ghost predicate SomeLive(s: State) { exists h | h in s.handlers :: s.handlers[h].Live? }

  ghost predicate Enabled(s: State, a: Action) {
    match a
    case Begin(_, _, _) => !s.begun
    // a frame is opened inside another one, or while there is a handler
    case Push(t, f) => s.mutex.Admits(t) && Fresh(s, f) && (TopIsLocked(s, t) || SomeLive(s))
    case Record(t, _) => TopIsLocked(s, t)
    case Pop(t) => Stack(s, t) != []
    case Move(t, h, to) => HandlerIs(s, h, Live) && s.mutex.Admits(t) && to !in s.handlers
    case MoveEmpty(h, to) => HandlerIs(s, h, Empty) && to !in s.handlers
    case Drop(t, h, f) => HandlerIs(s, h, Live) && s.mutex.Admits(t) && Fresh(s, f)
    case DropEmpty(h) => HandlerIs(s, h, Empty)
    case Invoke(t, h, _) => HandlerIs(s, h, Live) && s.mutex.Admits(t)
    case Send(h, _) => h in s.handlers && s.handlers[h].Sending?
  }

  // The frame's destructor; its `prev_` is null once it is released.
  function PopApply(s: State, t: Tid): State
    requires Stack(s, t) != []
  {
    var n := |Stack(s, t)| - 1;
    var f := Stack(s, t)[n];
    var s' := s.(stacks := s.stacks[t := Stack(s, t)[..n]]);
    if f in s.locked then s'.(core := s.core.Popped(), locked := s.locked - {f}, mutex := s.mutex.Unlock()) else s'
  }

  function Apply(s: State, a: Action): State
    requires Enabled(s, a)
  {
    match a
    case Begin(t, f, h) =>
      s.(begun := true, core := s.core.Pushed(f).Held(h), mutex := s.mutex.Lock(t), stacks := s.stacks[t := [f]],
         locked := {f}, handlers := s.handlers[h := Live])
    case Push(t, f) =>
      s.(core := s.core.Pushed(f), mutex := s.mutex.Lock(t), stacks := s.stacks[t := Stack(s, t) + [f]],
         locked := s.locked + {f})
    case Record(t, e) => s.(core := s.core.Recorded(e), raised := s.raised + [e])
    case Pop(t) => PopApply(s, t)
    case Move(t, h, to) => s.(core := s.core.Held(to), handlers := s.handlers[h := Empty][to := Live])
    case MoveEmpty(h, to) => s.(handlers := s.handlers[to := Empty])
    case Drop(t, h, f) => s.(core := s.core.Dropped(f), handlers := s.handlers[h := Gone])
    case DropEmpty(h) => s.(handlers := s.handlers[h := Gone])
    case Invoke(t, h, v) =>
      s.(core := s.core.Released(), mutex := s.mutex.UnlockAll(|s.core.frames|),
         locked := s.locked - Elements(s.core.frames),
         handlers := s.handlers[h := Sending(v)], invoked := Some(v))
    case Send(h, throws) => s.(core := s.core.Invoked(s.handlers[h].v, throws), handlers := s.handlers[h := Empty])
  }

  function Elements(l: seq<Fid>): set<Fid> { set f | f in l }

  ghost predicate Init(s: State) {
    && s.core == Core([], None, None, []) && !s.begun && s.stacks == map[] && s.locked == {} && s.handlers == map[]
    && s.mutex == Free && s.raised == [] && s.invoked == None
  }

  // ---------------------------------------------------------------- the invariant

  predicate Holds(p: Handler) { p.Live? || p.Sending? }

  // The receiver will still be completed by somebody.
  ghost predicate Pending(s: State) { s.core.frames != [] || exists h | h in s.handlers :: Holds(s.handlers[h]) }

  // The stack of the owner is the list at `frames_`; the frames open elsewhere were released.
  predicate StackOk(s: State, t: Tid) {
    t in s.stacks ==>
      if s.mutex.Owned? && s.mutex.t == t then s.stacks[t] == s.core.frames else s.stacks[t] == [] || s.invoked.Some?
  }

  predicate HandlerOk(s: State, h: Hid) {
    h in s.handlers ==>
      && (s.handlers[h].Live? ==> s.core.h == Some(h) && s.invoked == None)
      && (s.handlers[h].Sending? ==> s.invoked == Some(s.handlers[h].v) && s.core.h == Some(h) && s.core.frames == [])
  }

  predicate SentOk(s: State) {
    s.core.sent != [] ==>
      |s.core.sent| == 1 &&
      if s.raised != [] then s.core.sent[0] == Error(s.raised[0])
      else if s.invoked.Some? then s.core.sent[0] in {Value(s.invoked.value), Error(ConversionThrew)}
      else s.core.sent[0] == Halted
  }

  ghost predicate MutexOk(s: State) {
    && Distinct(s.core.frames)
    && (forall f :: f in s.locked <==> f in s.core.frames)
    && (s.mutex.Free? <==> s.core.frames == [])
    && (s.mutex.Owned? ==> s.mutex.depth == |s.core.frames| && s.mutex.t in s.stacks)
  }

  ghost predicate CoreOk(s: State) {
    && (s.begun && s.invoked == None && s.core.h.Some? ==> HandlerIs(s, s.core.h.value, Live))
    && (s.core.ex == if s.raised == [] then None else Some(s.raised[0]))
    && PendingOk(s)
    && (!s.begun ==> s.core == Core([], None, None, []) && s.handlers == map[] && s.stacks == map[])
    && (s.invoked.Some? ==> s.core.frames == [] && s.core.h.Some?)
    && SentOk(s)
  }

  ghost predicate Inv(s: State) {
    && MutexOk(s) && CoreOk(s)
    && (forall t :: StackOk(s, t))
    && (forall h :: HandlerOk(s, h))
  }

  lemma {:induction false} UnlockAllFrees(m: Mutex)
    ensures m.Owned? ==> m.UnlockAll(m.depth).Free? || m.depth == 0
    decreases if m.Owned? then m.depth else 0
  {
    if m.Owned? && m.depth > 1 { UnlockAllFrees(m.Unlock()); }
  }

  lemma HandlerStep(s: State, a: Action, h: Hid)
    requires Inv(s) && Enabled(s, a)
    ensures HandlerOk(Apply(s, a), h)
  {
    assert HandlerOk(s, h);
    if a.Move? || a.Drop? || a.Invoke? || a.Send? { assert HandlerOk(s, a.h); }
    if a.Push? && TopIsLocked(s, a.t) { assert StackOk(s, a.t); }
    if a.Push? && !TopIsLocked(s, a.t) {
      var l :| l in s.handlers && s.handlers[l].Live?;
      assert HandlerOk(s, l);
    }
    if a.Pop? { assert StackOk(s, a.t); }
  }

  lemma StackStep(s: State, a: Action, t: Tid)
    requires Inv(s) && Enabled(s, a)
    ensures StackOk(Apply(s, a), t)
  {
    assert StackOk(s, t);
    match a
    case Begin(_, f, _) => assert s.core.frames + [f] == [f];
    case Invoke(_, _, _) => UnlockAllFrees(s.mutex);
    case Push(u, f) =>
      assert StackOk(s, u);
      PushIsBefore(s, u, f);
    case Pop(u) => PopStack(s, u, t);
    case Drop(_, h, f) =>
      assert HandlerOk(s, h);
      AppendDropsLast(s.core.frames, f);
    case _ =>
  }

  lemma PopStack(s: State, u: Tid, t: Tid)
    requires MutexOk(s) && StackOk(s, u) && StackOk(s, t) && Stack(s, u) != []
      && (s.invoked.Some? ==> s.core.frames == [])
    ensures StackOk(PopApply(s, u), t)
  {
    if TopIsLocked(s, u) { assert s.core.frames == Stack(s, u); }
  }

  lemma AppendDropsLast(l: seq<Fid>, f: Fid)
    ensures l + [f] != [] && (l + [f])[..|l|] == l
  {
  }

  // Frames are opened only while the handler has not been invoked.
  lemma PushIsBefore(s: State, t: Tid, f: Fid)
    requires Inv(s) && Enabled(s, Push(t, f))
    ensures s.invoked == None && s.begun && s.core.sent == []
  {
    assert StackOk(s, t);
    if !TopIsLocked(s, t) {
      var l :| l in s.handlers && s.handlers[l].Live?;
      assert HandlerOk(s, l);
      assert Pending(s);
    }
  }

  lemma PushMutex(s: State, t: Tid, f: Fid)
    requires MutexOk(s) && StackOk(s, t) && Enabled(s, Push(t, f)) && s.invoked == None
    ensures MutexOk(Apply(s, Push(t, f)))
  {}

  lemma PopMutex(s: State, t: Tid)
    requires MutexOk(s) && StackOk(s, t) && Enabled(s, Pop(t)) && (s.invoked.Some? ==> s.core.frames == [])
    ensures MutexOk(Apply(s, Pop(t)))
  {}

  lemma InvokeMutex(s: State, t: Tid, h: Hid, v: nat)
    requires MutexOk(s) && Enabled(s, Invoke(t, h, v))
    ensures MutexOk(Apply(s, Invoke(t, h, v)))
  {
    UnlockAllFrees(s.mutex);
  }

  lemma MutexStep(s: State, a: Action)
    requires Inv(s) && Enabled(s, a)
    ensures MutexOk(Apply(s, a))
  {
    match a
    case Push(t, f) =>
      assert StackOk(s, t);
      PushIsBefore(s, t, f);
      PushMutex(s, t, f);
    case Pop(t) =>
      assert StackOk(s, t);
      PopMutex(s, t);
    case Invoke(t, h, v) => InvokeMutex(s, t, h, v);
    case Drop(_, _, f) => AppendDropsLast(s.core.frames, f);
    case _ =>
  }

  lemma StillHeld(s: State, s': State)
    requires s'.core == s.core &&
      forall h | h in s.handlers && Holds(s.handlers[h]) :: h in s'.handlers && Holds(s'.handlers[h])
    requires forall h | h in s'.handlers && Holds(s'.handlers[h]) :: h in s.handlers && Holds(s.handlers[h])
    ensures Pending(s) <==> Pending(s')
  {
  }

  // Somebody is left to complete the receiver, unless it has just been done.
  ghost predicate PendingOk(s: State) { s.begun ==> (s.core.sent != [] <==> !Pending(s)) }

  lemma PopPending(s: State, t: Tid)
    requires PendingOk(s) && s.begun && Enabled(s, Pop(t)) && MutexOk(s) && StackOk(s, t)
    requires s.invoked == None && s.core.h.Some? ==> HandlerIs(s, s.core.h.value, Live)
    requires forall h | h in s.handlers :: HandlerOk(s, h)
    requires s.invoked.Some? ==> s.core.frames == []
    ensures PendingOk(PopApply(s, t))
  {
    var s' := PopApply(s, t);
    if TopIsLocked(s, t) && s'.core.frames == [] {
      assert s.core.h.Some? ==> HandlerIs(s', s.core.h.value, Live);
    }
  }

  lemma MovePending(s: State, t: Tid, h: Hid, to: Hid)
    requires PendingOk(s) && Enabled(s, Move(t, h, to))
    ensures PendingOk(Apply(s, Move(t, h, to)))
  {
    var s' := Apply(s, Move(t, h, to));
    assert Holds(s.handlers[h]) && Holds(s'.handlers[to]);
  }

  lemma DropPending(s: State, t: Tid, h: Hid, f: Fid)
    requires PendingOk(s) && Enabled(s, Drop(t, h, f)) && forall k | k in s.handlers :: HandlerOk(s, k)
    ensures PendingOk(Apply(s, Drop(t, h, f)))
  {
    assert Holds(s.handlers[h]);
    AppendDropsLast(s.core.frames, f);
  }

  lemma SendPending(s: State, h: Hid, throws: bool)
    requires PendingOk(s) && Enabled(s, Send(h, throws)) && forall k | k in s.handlers :: HandlerOk(s, k)
    ensures PendingOk(Apply(s, Send(h, throws)))
  {
    assert Holds(s.handlers[h]);
  }

  lemma InvokePending(s: State, t: Tid, h: Hid, v: nat)
    requires PendingOk(s) && Enabled(s, Invoke(t, h, v))
    ensures PendingOk(Apply(s, Invoke(t, h, v)))
  {
    assert Holds(s.handlers[h]) && Holds(Apply(s, Invoke(t, h, v)).handlers[h]);
  }

  lemma PendingStep(s: State, a: Action)
    requires Inv(s) && Enabled(s, a)
    ensures PendingOk(Apply(s, a))
  {
    match a
    case Push(t, f) => PushIsBefore(s, t, f);
    case Pop(t) =>
      assert StackOk(s, t) && s.begun;
      PopPending(s, t);
    case Move(t, h, to) => MovePending(s, t, h, to);
    case MoveEmpty(_, _) => StillHeld(s, Apply(s, a));
    case Drop(t, h, f) => DropPending(s, t, h, f);
    case DropEmpty(_) => StillHeld(s, Apply(s, a));
    case Invoke(t, h, v) => InvokePending(s, t, h, v);
    case Send(h, throws) => SendPending(s, h, throws);
    case _ =>
  }

  lemma CoreStep(s: State, a: Action)
    requires Inv(s) && Enabled(s, a)
    ensures CoreOk(Apply(s, a))
  {
    PendingStep(s, a);
    if a.Push? || a.Pop? || a.Record? { assert StackOk(s, a.t); }
    if a.Push? { PushIsBefore(s, a.t, a.f); }
    if a.Move? || a.Drop? || a.Invoke? || a.Send?
      { assert HandlerOk(s, a.h) && (Holds(s.handlers[a.h]) ==> Pending(s)); }
    if a.Drop? { AppendDropsLast(s.core.frames, a.f); }
  }

  lemma StepInv(s: State, a: Action)
    requires Inv(s) && Enabled(s, a)
    ensures Inv(Apply(s, a))
  {
    MutexStep(s, a);
    CoreStep(s, a);
    forall t ensures StackOk(Apply(s, a), t) { StackStep(s, a, t); }
    forall h ensures HandlerOk(Apply(s, a), h) { HandlerStep(s, a, h); }
  }

  /** Any run. */
  ghost predicate IsRun(run: seq<State>, acts: seq<Action>) {
    && |run| == |acts| + 1 && Init(run[0])
    && forall i | 0 <= i < |acts| :: Enabled(run[i], acts[i]) && run[i + 1] == Apply(run[i], acts[i])
  }

  lemma {:induction false} RunInv(run: seq<State>, acts: seq<Action>, i: nat)
    requires IsRun(run, acts) && i < |run|
    ensures Inv(run[i])
  {
    if i > 0 {
      RunInv(run, acts, i - 1);
      StepInv(run[i - 1], acts[i - 1]);
    }
  }

  // ---------------------------------------------------------------- what holds over whole runs

  /** The receiver gets exactly one completion by the time no handler is left that could be invoked or
      dropped and no frame is open that was not neutralised, and none before. */
  lemma CompletedWhenIdle(run: seq<State>, acts: seq<Action>, i: nat)
    requires IsRun(run, acts) && i < |run| && run[i].begun
    ensures |run[i].core.sent| <= 1
    ensures |run[i].core.sent| == 1 <==>
                run[i].locked == {} && forall h | h in run[i].handlers :: !Holds(run[i].handlers[h])
  {
    RunInv(run, acts, i);
    var s := run[i];
    assert s.locked == {} <==> s.core.frames == [] by {
      if s.core.frames != [] { assert s.core.frames[0] in s.locked; }
    }
  }

  /** The first exception that escaped from a frame is the completion, even of an invoked handler; without
      one an invocation sends its value, or the exception thrown while converting it, and a drop sends
      stopped. */
  lemma FirstExceptionWins(run: seq<State>, acts: seq<Action>, i: nat)
    requires IsRun(run, acts) && i < |run| && run[i].core.sent != []
    ensures run[i].raised != [] ==> run[i].core.sent == [Error(run[i].raised[0])]
    ensures run[i].raised == [] && run[i].invoked.Some? ==>
                run[i].core.sent == [Value(run[i].invoked.value)] || run[i].core.sent == [Error(ConversionThrew)]
    ensures run[i].raised == [] && run[i].invoked == None ==> run[i].core.sent == [Halted]
  {
    RunInv(run, acts, i);
  }

  /** An invocation neutralises every open frame: it leaves the mutex free before the receiver is completed,
      and closing those frames afterwards touches nothing. */
  lemma InvocationNeutralises(run: seq<State>, acts: seq<Action>, i: nat)
    requires IsRun(run, acts) && i < |run| && run[i].invoked.Some?
    ensures run[i].locked == {} && run[i].mutex == Free
    ensures i < |acts| ==> !acts[i].Push? && !acts[i].Record? && !acts[i].Drop? && !acts[i].Move? && !acts[i].Invoke?
    ensures i < |acts| && acts[i].Pop? ==> run[i + 1] == run[i].(stacks := run[i + 1].stacks)
  {
    RunInv(run, acts, i);
    var s := run[i];
    assert forall f :: f !in s.locked;
    if i < |acts| {
      var a := acts[i];
      if a.Push? { PushIsBefore(s, a.t, a.f); }
      assert a.Drop? || a.Move? || a.Invoke? ==> HandlerOk(s, a.h);
    }
  }

  /** Once the receiver is completed the operation may be destroyed: what remains is to close neutralised
      frames and to move or drop handlers that no longer refer to it. In particular `start` is right to
      take a frame that owns its lock for a proof that the operation is still there. */
  lemma CompletedIsUntouched(run: seq<State>, acts: seq<Action>, i: nat)
    requires IsRun(run, acts) && i < |acts| && run[i].core.sent != []
    ensures run[i].locked == {}
    ensures acts[i].Pop? || acts[i].MoveEmpty? || acts[i].DropEmpty?
    ensures run[i + 1].core == run[i].core && run[i + 1].mutex == run[i].mutex
  {
    RunInv(run, acts, i);
    var s, a := run[i], acts[i];
    assert forall f :: f !in s.locked;
    if a.Push? { PushIsBefore(s, a.t, a.f); }
    assert a.Drop? || a.Move? || a.Invoke? || a.Send? ==> !Holds(s.handlers[a.h]);
  }

  /** The frame that is closed or catches is the one at `frames_`, and when a handler is invoked the open
      frames are those of its own thread, all owning the mutex. */
  lemma FramesNest(run: seq<State>, acts: seq<Action>, i: nat)
    requires IsRun(run, acts) && i < |acts|
    ensures (acts[i].Pop? || acts[i].Record?) && TopIsLocked(run[i], acts[i].t) ==>
                run[i].core.frames == Stack(run[i], acts[i].t)
    ensures (acts[i].Invoke? || acts[i].Drop?) && run[i].core.frames != [] ==>
                run[i].core.frames == Stack(run[i], acts[i].t)
    ensures acts[i].Invoke? ==> run[i].locked == Elements(run[i].core.frames) && run[i + 1].mutex == Free
  {
    RunInv(run, acts, i);
    var s, a := run[i], acts[i];
    if a.Pop? || a.Record? || a.Invoke? || a.Drop? { assert StackOk(s, a.t); }
    if a.Invoke? { UnlockAllFrees(s.mutex); }
  }

  /** The catch block of `start` writes `ex_` without the test of its frame that the code after it makes. When an
      exception gets there, no handler being in its call, that write is to a completed operation exactly if the
      handler was invoked before; the frame's test would have told. */
  lemma CatchIff(run: seq<State>, acts: seq<Action>, i: nat, t: Tid)
    requires IsRun(run, acts) && i < |run| && Stack(run[i], t) != []
    requires forall h | h in run[i].handlers :: !run[i].handlers[h].Sending?
    ensures run[i].core.sent != [] <==> run[i].invoked.Some?
    ensures TopIsLocked(run[i], t) <==> run[i].invoked == None
  {
    RunInv(run, acts, i);
    var s := run[i];
    assert StackOk(s, t);
    if s.invoked == None {
      assert s.core.frames == Stack(s, t) && Pending(s);
    } else {
      forall h | h in s.handlers ensures !Holds(s.handlers[h]) { assert HandlerOk(s, h); }
      assert !Pending(s);
    }
  }

  /** An initiation that invokes its handler at once and then throws. */
  lemma InvokeThenThrow() returns (run: seq<State>, acts: seq<Action>)
    ensures IsRun(run, acts)
    ensures run[|acts|].core.sent != [] && Stack(run[|acts|], 0) != [] && !TopIsLocked(run[|acts|], 0)
  {
    var s0 := State(Core([], None, None, []), Free, false, map[], {}, map[], [], None);
    acts := [Begin(0, 1, 2), Invoke(0, 2, 7), Send(2, false)];
    var s1 := Apply(s0, acts[0]);
    var s2 := Apply(s1, acts[1]);
    run := [s0, s1, s2, Apply(s2, acts[2])];
  }

  // ---------------------------------------------------------------- in place

  class Frame {
    var prev: Frame?
    var locked: bool                  // `l_` owns the mutex

    constructor ()
      ensures prev == null && !locked
    {
      prev, locked := null, false;
    }
  }

  // Following `prev` from `top` goes through the frames of `stack`, all owning the mutex, from the last.
  ghost predicate Linked(top: Frame?, stack: seq<Frame>)
    reads stack
  {
    if stack == [] then top == null
    else
      var rest := stack[..|stack| - 1];
      top == stack[|stack| - 1] && top.locked && top !in rest && Linked(top.prev, rest)
  }

  lemma LinkedOn(f: Frame, stack: seq<Frame>)
    requires f.locked && f !in stack && Linked(f.prev, stack)
    ensures Linked(f, stack + [f])
  {
    assert (stack + [f])[..|stack|] == stack;
  }

  // A frame inside another one leaves only what was recorded.
  lemma Nested(c: Core<Frame, Hid>, f: Frame)
    ensures c.Pushed(f).Popped().frames == c.frames
    ensures c.frames != [] ==> c.Dropped(f) == c.(h := None)
  {
    assert (c.frames + [f])[..|c.frames|] == c.frames;
  }

  predicate IsFirst(throws: seq<Option<Ex>>, k: nat) {
    k < |throws| && throws[k].Some? && forall j | 0 <= j < k :: throws[j] == None
  }

  class OperationState {
    var frames: Frame?
    var h: Option<Hid>
    var ex: Option<Ex>
    var sent: seq<Signal>
    ghost var stack: seq<Frame>       // the frames reached from `frames`, the outermost first

    ghost predicate Valid()
      reads this, stack
    {
      Linked(frames, stack)
    }

    ghost function View(): Core<Frame, Hid>
      reads this
    {
      Core(stack, h, ex, sent)
    }

    constructor ()
      ensures Valid() && View() == Core([], None, None, [])
    {
      frames, h, ex, sent, stack := null, None, None, [], [];
    }

    // The frame's constructor and destructor.
    method Open(f: Frame)
      requires Valid() && f !in stack
      modifies this`frames, this`stack, f
      ensures Valid() && View() == old(View()).Pushed(f)
    {
      f.prev, f.locked := frames, true;
      LinkedOn(f, stack);
      frames, stack := f, stack + [f];
    }

    method Close(f: Frame)
      requires Valid() && (f.locked ==> f == frames)
      modifies this`frames, this`stack, this`sent, f`locked
      ensures Valid() && !f.locked
      ensures View() == if old(f.locked) then old(View()).Popped() else old(View())
    {
      if f.locked {
        frames, stack := f.prev, stack[..|stack| - 1];
        f.locked := false;
        if frames == null && h == None {
          sent := sent + [match ex case Some(e) => Error(e) case None => Halted];
        }
      }
    }

    // `release`, called on the innermost frame.
    method Release()
      requires Valid() && frames != null
      modifies this`frames, this`stack, stack
      ensures Valid() && View() == old(View()).Released()
      ensures forall f | f in old(stack) :: !f.locked && f.prev == null
    {
      ghost var released: seq<Frame> := [];
      while frames != null
        invariant Valid() && old(stack) == stack + released
        invariant forall f | f in released :: !f.locked && f.prev == null
        decreases |stack|
      {
        assert frames in old(stack);
        released := [frames] + released;
        ReleaseTop();
      }
    }

    method ReleaseTop()
      requires Valid() && frames != null
      modifies this`frames, this`stack, frames
      ensures Valid() && stack == old(stack)[..|old(stack)| - 1]
      ensures !old(frames).locked && old(frames).prev == null && old(frames) == old(stack)[|old(stack)| - 1]
    {
      var top := frames;
      frames, stack := top.prev, stack[..|stack| - 1];
      top.locked, top.prev := false, null;
    }

    // The catch block of `run_` and of `start`.
    method Catch(e: Ex)
      requires Valid()
      modifies this`ex
      ensures Valid() && View() == old(View()).Recorded(e)
    {
      if ex == None {
        ex := Some(e);
      }
    }

    // `run_`: a call inside a frame of its own.
    method Run(f: Frame, throws: Option<Ex>)
      requires Valid() && f !in stack
      modifies this`frames, this`stack, this`ex, this`sent, f
      ensures Valid()
      ensures View() == if throws.Some? then old(View()).Pushed(f).Recorded(throws.value).Popped()
                        else old(View()).Pushed(f).Popped()
      ensures old(stack) != [] ==> stack == old(stack) && sent == old(sent)
      ensures ex == if old(ex).Some? then old(ex) else throws
    {
      Nested(View(), f);
      Open(f);
      if throws.Some? {
        Catch(throws.value);
      }
      Close(f);
    }

    // The handler is dropped inside `start`'s frame and calls are run before that frame is closed. The
    // receiver is completed by the frame, with the first exception that any of them let out.
    method DropThenRun(throws: seq<Option<Ex>>)
      requires Valid() && stack == [] && ex == None
      modifies this
      ensures Valid() && stack == [] && |sent| == |old(sent)| + 1 && sent[..|sent| - 1] == old(sent)
      ensures sent[|sent| - 1] == Halted <==> forall k | 0 <= k < |throws| :: throws[k] == None
      ensures sent[|sent| - 1] != Halted ==>
                exists k :: 0 <= k < |throws| && IsFirst(throws, k) && sent[|sent| - 1] == Error(throws[k].value)
    {
      var outer := new Frame();
      Open(outer);
      var own := new Frame();
      Nested(View(), own);
      DropHandler(own);
      RunAll(throws);
      Close(outer);
    }

    method RunAll(throws: seq<Option<Ex>>)
      requires Valid() && stack != [] && ex == None
      modifies this`frames, this`stack, this`ex, this`sent
      ensures Valid() && stack == old(stack) && sent == old(sent)
      ensures ex == None ==> forall k | 0 <= k < |throws| :: throws[k] == None
      ensures ex.Some? ==> exists k :: 0 <= k < |throws| && IsFirst(throws, k) && ex == throws[k]
    {
      for i := 0 to |throws|
        invariant Valid() && stack == old(stack) && sent == old(sent)
        invariant ex == None ==> forall k | 0 <= k < i :: throws[k] == None
        invariant ex.Some? ==> exists k :: 0 <= k < i && IsFirst(throws, k) && ex == throws[k]
      {
        var f := new Frame();
        Run(f, throws[i]);
      }
    }

    // The handler's destructor, when its `self_` is not null.
    method DropHandler(f: Frame)
      requires Valid() && f !in stack
      modifies this`frames, this`stack, this`h, this`sent, f
      ensures Valid() && View() == old(View()).Dropped(f)
    {
      Open(f);
      h := None;
      Close(f);
    }

    // The handler's call operator.
    method Invoke(v: nat, throws: bool)
      requires Valid()
      modifies this`frames, this`stack, this`sent, stack
      ensures Valid() && View() == old(View()).Released().Invoked(v, throws)
      ensures |sent| == |old(sent)| + 1 && sent[..|old(sent)|] == old(sent)
      ensures old(ex) == None && !throws ==> sent[|sent| - 1] == Value(v)
      ensures old(ex) == None && throws ==> sent[|sent| - 1] == Error(ConversionThrew)
      ensures old(ex).Some? ==> sent[|sent| - 1] == Error(old(ex).value)
      ensures forall f | f in old(stack) :: !f.locked
    {
      if frames != null {
        Release();
      }
      var signal := match ex case Some(e) => Error(e) case None => if throws then Error(ConversionThrew) else Value(v);
      sent := sent + [signal];
    }
  }
}

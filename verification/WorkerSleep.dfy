/**
 How a `static_thread_pool` worker goes to sleep and is woken, and the packed counter of awake and
 stealing workers.

 A state machine over any number of workers and any number of other threads ("agents") that enqueue,
 notify or stop. The mutex of a worker is held by the worker exactly at the program points `Holds` lists;
 the critical sections of agents are single steps. `cv_.wait` may return without a notification, and the
 weak exchange may fail for no reason.
 */
module WorkerSleep {
  import opened Options

  type Wid = nat
  type Aid = nat

  datatype Flag = Running | Sleeping | Notified

  // Where a worker is in `pop()`. `Drain` and `CheckRemote` are the two calls of `try_remote`, which empties
  // the submitters' queues one at a time into the worker's own queues; `seen` are the ones visited. Whether a
  // task then comes out is open: thieves may have been faster, or an earlier call may have left one
  // behind. `Exec` is the task it returned, `Exited` the stop request.
  datatype Pc =
    | TryPop | Drain(seen: set<nat>) | SetStealing | Stealing | ClearStealing(found: bool) | Lock
    | TestStop | Cas | CheckRemote(seen: set<nat>) | SetSleeping | Wait
    | Blocked | Woken | StoreRunning | Exec | Exited

  // Where an agent is in `notify()` (after pushing to remote queue `q`, if it enqueues) or `request_stop()`.
  datatype APc = Idle | Exchange(w: Wid, pushed: Option<nat>)
    | LockUnlock(w: Wid) | NotifyOne(w: Wid) | StopNotify(w: Wid)

  // `remote[w][q]` counts the tasks that submitter queue `q` holds for worker `w`.
  datatype State = State(
    pcs: seq<Pc>, flags: seq<Flag>, stops: seq<bool>, remote: seq<seq<nat>>, agents: map<Aid, APc>, numActive: nat)

  datatype WStep =
    | PopLocal(hit: bool) | DrainDone(hit: bool) | BeginSteal | Steal(found: bool) | EndSteal | TakeLock | ReadStop
    | TryCas(spurious: bool) | Visit(q: nat) | CheckDone(hit: bool) | BeginSleep
    | Block | SpuriousWake | WakeUp | StoreBack | Done

  datatype AStep = Push(w: Wid, q: nat) | Call(w: Wid) | DoExchange | DoLock | DoNotify | Stop(w: Wid) | DoStopNotify

  datatype Action = OfWorker(w: Wid, step: WStep) | OfAgent(g: Aid, act: AStep)

  // ---------------------------------------------------------------- the packed counter

  const TWO16: nat := 0x1_0000
  const TWO32: nat := 0x1_0000_0000

  function Add32(a: nat, b: nat): nat { (a + b) % TWO32 }

  function Sub32(a: nat, b: nat): nat
    requires b < TWO32
  {
    (a + TWO32 - b) % TWO32
  }

  // `1u - (1u << 16u)` in 32 bits.
  const DIFF: nat := TWO32 + 1 - TWO16

  function Victims(numActive: nat): nat { numActive / TWO16 }

  function Thieves(numActive: nat): nat { numActive % TWO16 }

  // The tests of `clear_stealing` and `clear_sleeping` on the value before the update.
  predicate WakesAfterSteal(numActive: nat) { Thieves(numActive) == 1 && Victims(numActive) != 0 }

  predicate WakesAfterSleep(numActive: nat) { numActive == 0 }

  datatype Kind = Awake | Thief | Asleep

  function KindOf(p: Pc): Kind {
    match p
    case Stealing | ClearStealing(_) => Thief
    case Wait | Blocked | Woken => Asleep
    case _ => Awake
  }

  function Count(pcs: seq<Pc>, k: Kind): (n: nat)
    ensures n <= |pcs|
  {
    if pcs == [] then 0 else (if KindOf(pcs[0]) == k then 1 else 0) + Count(pcs[1..], k)
  }

  lemma {:induction false} CountSet(pcs: seq<Pc>, i: nat, p: Pc, k: Kind)
    requires i < |pcs|
    ensures Count(pcs[i := p], k) + (if KindOf(pcs[i]) == k then 1 else 0)
            == Count(pcs, k) + (if KindOf(p) == k then 1 else 0)
  {
    if i == 0 {
      assert pcs[0 := p][1..] == pcs[1..];
    } else {
      CountSet(pcs[1..], i - 1, p, k);
      assert pcs[i := p][1..] == pcs[1..][i - 1 := p];
    }
  }

  lemma {:induction false} CountTotal(pcs: seq<Pc>)
    ensures Count(pcs, Awake) + Count(pcs, Thief) + Count(pcs, Asleep) == |pcs|
  {
    if pcs != [] { CountTotal(pcs[1..]); }
  }

  // ---------------------------------------------------------------- the steps

  predicate WellFormed(s: State) {
    |s.flags| == |s.stops| == |s.remote| == |s.pcs|
  }

  // Program points at which the worker holds its mutex.
  predicate Holds(p: Pc) { p.TestStop? || p.Cas? || p.CheckRemote? || p.SetSleeping? || p.Wait? }

  function AgentPc(s: State, g: Aid): APc { if g in s.agents then s.agents[g] else Idle }

  function Move(s: State, w: Wid, p: Pc): State
    requires w < |s.pcs|
  {
    s.(pcs := s.pcs[w := p])
  }

  predicate WEnabled(s: State, w: Wid, k: WStep) {
    WellFormed(s) && w < |s.pcs| &&
    match k
    case PopLocal(_) => s.pcs[w].TryPop?
    case DrainDone(_) => s.pcs[w].Drain? && forall q :: 0 <= q < |s.remote[w]| ==> q in s.pcs[w].seen
    case BeginSteal => s.pcs[w].SetStealing?
    case Steal(_) => s.pcs[w].Stealing?
    case EndSteal => s.pcs[w].ClearStealing?
    case TakeLock => s.pcs[w].Lock?
    case ReadStop => s.pcs[w].TestStop?
    case TryCas(_) => s.pcs[w].Cas?
    case Visit(q) => (s.pcs[w].CheckRemote? || s.pcs[w].Drain?) && q < |s.remote[w]| && q !in s.pcs[w].seen
    case CheckDone(_) => s.pcs[w].CheckRemote? && forall q :: 0 <= q < |s.remote[w]| ==> q in s.pcs[w].seen
    case BeginSleep => s.pcs[w].SetSleeping?
    case Block => s.pcs[w].Wait?
    case SpuriousWake => s.pcs[w].Blocked?
    case WakeUp => s.pcs[w].Woken?
    case StoreBack => s.pcs[w].StoreRunning?
    case Done => s.pcs[w].Exec?
  }

  function WApply(s: State, w: Wid, k: WStep): State
    requires WEnabled(s, w, k)
  {
    match k
    case PopLocal(hit) => Move(s, w, if hit then Exec else Drain({}))
    case DrainDone(hit) => Move(s, w, if hit then Exec else SetStealing)
    case BeginSteal => Move(s, w, Stealing).(numActive := Add32(s.numActive, DIFF))
    case Steal(found) => Move(s, w, ClearStealing(found))
    case EndSteal =>
      Move(s, w, if s.pcs[w].found then Exec else Lock).(numActive := Sub32(s.numActive, DIFF))
    case TakeLock => Move(s, w, TestStop)
    case ReadStop => Move(s, w, if s.stops[w] then Exited else Cas)
    case TryCas(spurious) =>
      if s.flags[w] == Running && !spurious then Move(s, w, CheckRemote({})).(flags := s.flags[w := Sleeping])
      else Move(s, w, StoreRunning)
    case Visit(q) =>
      var seen := s.pcs[w].seen + {q};
      Move(s, w, if s.pcs[w].Drain? then Drain(seen) else CheckRemote(seen))
        .(remote := s.remote[w := s.remote[w][q := 0]])
    case CheckDone(hit) => Move(s, w, if hit then Exec else SetSleeping)
    case BeginSleep => Move(s, w, Wait).(numActive := Sub32(s.numActive, TWO16))
    case Block => Move(s, w, Blocked)
    case SpuriousWake => Move(s, w, Woken)
    case WakeUp => Move(s, w, StoreRunning).(numActive := Add32(s.numActive, TWO16))
    case StoreBack => Move(s, w, TryPop).(flags := s.flags[w := Running])
    case Done => Move(s, w, TryPop)
  }

  predicate AEnabled(s: State, g: Aid, k: AStep) {
    WellFormed(s) &&
    match k
    case Push(w, q) => AgentPc(s, g).Idle? && w < |s.pcs| && q < |s.remote[w]|
    case Call(w) => AgentPc(s, g).Idle? && w < |s.pcs|
    case DoExchange => AgentPc(s, g).Exchange? && AgentPc(s, g).w < |s.pcs|
    case DoLock => AgentPc(s, g).LockUnlock? && AgentPc(s, g).w < |s.pcs| && !Holds(s.pcs[AgentPc(s, g).w])
    case DoNotify => AgentPc(s, g).NotifyOne? && AgentPc(s, g).w < |s.pcs|
    case Stop(w) => AgentPc(s, g).Idle? && w < |s.pcs| && !Holds(s.pcs[w])
    case DoStopNotify => AgentPc(s, g).StopNotify? && AgentPc(s, g).w < |s.pcs|
  }

  function AApply(s: State, g: Aid, k: AStep): State
    requires AEnabled(s, g, k)
  {
    var p := AgentPc(s, g);
    match k
    case Push(w, q) =>
      s.(remote := s.remote[w := s.remote[w][q := s.remote[w][q] + 1]], agents := s.agents[g := Exchange(w, Some(q))])
    case Call(w) => s.(agents := s.agents[g := Exchange(w, None)])
    case DoExchange =>
      s.(flags := s.flags[p.w := Notified],
         agents := s.agents[g := if s.flags[p.w] == Sleeping then LockUnlock(p.w) else Idle])
    case DoLock => s.(agents := s.agents[g := NotifyOne(p.w)])
    case DoNotify => Signalled(s, p.w).(agents := s.agents[g := Idle])
    case Stop(w) => s.(stops := s.stops[w := true], agents := s.agents[g := StopNotify(w)])
    case DoStopNotify => Signalled(s, p.w).(agents := s.agents[g := Idle])
  }

  // `cv_.notify_one()`: only the worker itself ever waits on its condition variable.
  function Signalled(s: State, w: Wid): State
    requires w < |s.pcs|
  {
    if s.pcs[w].Blocked? then Move(s, w, Woken) else s
  }

  predicate Enabled(s: State, a: Action) {
    match a
    case OfWorker(w, k) => WEnabled(s, w, k)
    case OfAgent(g, k) => AEnabled(s, g, k)
  }

  function Apply(s: State, a: Action): State
    requires Enabled(s, a)
  {
    match a
    case OfWorker(w, k) => WApply(s, w, k)
    case OfAgent(g, k) => AApply(s, g, k)
  }

  ghost predicate Init(s: State) {
    && WellFormed(s) && s.agents == map[]
    && (forall w | 0 <= w < |s.pcs| :: s.pcs[w] == TryPop && s.flags[w] == Running && !s.stops[w])
    && s.numActive == (|s.pcs| * TWO16) % TWO32
  }

  // ---------------------------------------------------------------- no lost wakeup

  ghost predicate SomeAgent(s: State, p: APc) { exists g :: g in s.agents && s.agents[g] == p }

  // Between the exchange and the wait, and while blocked, somebody still owes this worker a signal.
  ghost predicate Owed(s: State, w: Wid)
    requires w < |s.pcs|
  {
    SomeAgent(s, LockUnlock(w)) || (s.pcs[w].Blocked? && SomeAgent(s, NotifyOne(w)))
  }

  predicate Committed(p: Pc) { p.CheckRemote? || p.SetSleeping? || p.Wait? || p.Blocked? }

  predicate Checked(p: Pc, q: nat) { p.CheckRemote? ==> q in p.seen }

  ghost predicate FlagOk(s: State, w: Wid)
    requires WellFormed(s) && w < |s.pcs|
  {
    Committed(s.pcs[w]) ==> s.flags[w] == Sleeping || Owed(s, w)
  }

  ghost predicate RemoteOk(s: State, w: Wid)
    requires WellFormed(s) && w < |s.pcs|
  {
    forall q | 0 <= q < |s.remote[w]| :: Committed(s.pcs[w]) && Checked(s.pcs[w], q) && s.remote[w][q] > 0 ==>
      SomeAgent(s, Exchange(w, Some(q))) || Owed(s, w)
  }

  ghost predicate StopOk(s: State, w: Wid)
    requires WellFormed(s) && w < |s.pcs|
  {
    && (Holds(s.pcs[w]) && !s.pcs[w].TestStop? ==> !s.stops[w])
    && (s.pcs[w].Blocked? && s.stops[w] ==> SomeAgent(s, StopNotify(w)))
  }

  ghost predicate Inv(s: State) {
    WellFormed(s) && forall w | 0 <= w < |s.pcs| :: FlagOk(s, w) && RemoteOk(s, w) && StopOk(s, w)
  }

  // An agent's entry changes; every other entry is a witness still.
  lemma AgentMoves(s: State, g: Aid, p: APc, r: APc)
    requires SomeAgent(s, p) && AgentPc(s, g) != p
    ensures SomeAgent(s.(agents := s.agents[g := r]), p)
  {
    var h :| h in s.agents && s.agents[h] == p;
    assert s.agents[g := r][h] == p;
  }

  lemma WorkerStepInv(s: State, w: Wid, k: WStep, v: Wid)
    requires WEnabled(s, w, k) && v < |s.pcs| && FlagOk(s, v) && RemoteOk(s, v) && StopOk(s, v)
    ensures var s' := WApply(s, w, k); FlagOk(s', v) && RemoteOk(s', v) && StopOk(s', v)
  {
    var s' := WApply(s, w, k);
    assert s'.agents == s.agents;
    assert forall p :: SomeAgent(s', p) <==> SomeAgent(s, p);
  }

  lemma AgentStepInv(s: State, g: Aid, k: AStep, v: Wid)
    requires AEnabled(s, g, k) && v < |s.pcs| && FlagOk(s, v) && RemoteOk(s, v) && StopOk(s, v)
    ensures var s' := AApply(s, g, k); FlagOk(s', v) && RemoteOk(s', v) && StopOk(s', v)
  {
    var s' := AApply(s, g, k);
    assert s'.agents[g] == AgentPc(s', g);
    assert SomeAgent(s', s'.agents[g]);
    forall p | SomeAgent(s, p) && AgentPc(s, g) != p ensures SomeAgent(s', p) {
      AgentMoves(s, g, p, s'.agents[g]);
    }
  }

  lemma InitInv(s: State)
    requires Init(s)
    ensures Inv(s)
  {}

  /** Every step of every worker and every agent keeps the invariant. */
  lemma StepInv(s: State, a: Action)
    requires Inv(s) && Enabled(s, a)
    ensures Inv(Apply(s, a))
  {
    forall v | 0 <= v < |s.pcs|
      ensures FlagOk(Apply(s, a), v) && RemoteOk(Apply(s, a), v) && StopOk(Apply(s, a), v)
    {
      match a
      case OfWorker(w, k) => WorkerStepInv(s, w, k, v);
      case OfAgent(g, k) => AgentStepInv(s, g, k, v);
    }
  }

  /** Any interleaving of workers and agents. */
  ghost predicate IsRun(run: seq<State>, acts: seq<Action>) {
    |run| == |acts| + 1 && Init(run[0]) && forall i: nat | i < |acts| :: StepAt(run, acts, i)
  }

  ghost predicate StepAt(run: seq<State>, acts: seq<Action>, i: nat)
    requires i < |acts| < |run|
  {
    Enabled(run[i], acts[i]) && run[i + 1] == Apply(run[i], acts[i])
  }

  lemma {:induction false} RunInv(run: seq<State>, acts: seq<Action>, i: nat)
    requires IsRun(run, acts) && i < |run|
    ensures Inv(run[i])
  {
    if i == 0 {
      InitInv(run[0]);
    } else {
      RunInv(run, acts, i - 1);
      assert StepAt(run, acts, i - 1);
      StepInv(run[i - 1], acts[i - 1]);
    }
  }

  /** No lost wakeup. A blocked worker with a task in one of its remote queues either has a signal on
      its way, or the enqueuer of that very queue has not begun its `notify()`; a blocked worker whose stop
      flag is set still has the `notify_one` of `request_stop` to come. */
  lemma NoLostWakeup(run: seq<State>, acts: seq<Action>, i: nat, w: Wid, q: nat)
    requires IsRun(run, acts) && i < |run| && w < |run[i].pcs| == |run[i].remote| == |run[i].stops|
      && run[i].pcs[w].Blocked?
    ensures q < |run[i].remote[w]| && run[i].remote[w][q] > 0 ==>
              || SomeAgent(run[i], Exchange(w, Some(q)))
              || SomeAgent(run[i], LockUnlock(w)) || SomeAgent(run[i], NotifyOne(w))
    ensures run[i].stops[w] ==> SomeAgent(run[i], StopNotify(w))
  {
    RunInv(run, acts, i);
    assert RemoteOk(run[i], w) && StopOk(run[i], w);
  }

  // A sequence of steps of one agent.
  ghost predicate AgentCan(s: State, g: Aid, ks: seq<AStep>)
    decreases |ks|
  {
    ks == [] || (AEnabled(s, g, ks[0]) && AgentCan(AApply(s, g, ks[0]), g, ks[1..]))
  }

  ghost function AfterAgent(s: State, g: Aid, ks: seq<AStep>): State
    requires AgentCan(s, g, ks)
    decreases |ks|
  {
    if ks == [] then s else AfterAgent(AApply(s, g, ks[0]), g, ks[1..])
  }

  /** What is owed arrives: from any reachable state in which a worker is blocked although it has a remote
      task or a stop request, some one agent can wake it by at most three steps of its own. */
  lemma WakeupDelivered(run: seq<State>, acts: seq<Action>, i: nat, w: Wid) returns (g: Aid, ks: seq<AStep>)
    requires IsRun(run, acts) && i < |run| && w < |run[i].pcs| == |run[i].remote| == |run[i].stops|
      && run[i].pcs[w].Blocked?
    requires run[i].stops[w] || exists q :: 0 <= q < |run[i].remote[w]| && run[i].remote[w][q] > 0
    ensures |ks| <= 3 && AgentCan(run[i], g, ks)
    ensures var s' := AfterAgent(run[i], g, ks); w < |s'.pcs| && s'.pcs[w] == Woken
  {
    RunInv(run, acts, i);
    var s := run[i];
    assert FlagOk(s, w) && RemoteOk(s, w) && StopOk(s, w);
    if s.stops[w] {
      g :| g in s.agents && s.agents[g] == StopNotify(w);
      ks := [DoStopNotify];
      Unfold(s, g, ks);
    } else if SomeAgent(s, NotifyOne(w)) {
      g :| g in s.agents && s.agents[g] == NotifyOne(w);
      ks := [DoNotify];
      Unfold(s, g, ks);
    } else if SomeAgent(s, LockUnlock(w)) {
      g :| g in s.agents && s.agents[g] == LockUnlock(w);
      ks := LockThenNotify(s, g, w);
    } else {
      var q :| 0 <= q < |s.remote[w]| && s.remote[w][q] > 0;
      g :| g in s.agents && s.agents[g] == Exchange(w, Some(q));
      var rest := LockThenNotify(AApply(s, g, DoExchange), g, w);
      ks := [DoExchange] + rest;
      assert ks[1..] == rest;
    }
  }

  lemma Unfold(s: State, g: Aid, ks: seq<AStep>)
    requires |ks| == 1 && AEnabled(s, g, ks[0])
    ensures AgentCan(s, g, ks) && AfterAgent(s, g, ks) == AApply(s, g, ks[0])
  {
    assert ks[1..] == [];
  }

  lemma LockThenNotify(s: State, g: Aid, w: Wid) returns (ks: seq<AStep>)
    requires WellFormed(s) && w < |s.pcs| && s.pcs[w].Blocked? && AgentPc(s, g) == LockUnlock(w)
    ensures |ks| == 2 && AgentCan(s, g, ks)
    ensures var s' := AfterAgent(s, g, ks); w < |s'.pcs| && s'.pcs[w] == Woken
  {
    ks := [DoLock, DoNotify];
    Unfold(AApply(s, g, DoLock), g, [DoNotify]);
    assert ks[1..] == [DoNotify];
  }

  // ---------------------------------------------------------------- the counter is exact

  predicate Exact(s: State) {
    && Victims(s.numActive) == Count(s.pcs, Awake)
    && Thieves(s.numActive) == Count(s.pcs, Thief)
    && s.numActive < TWO32
  }

  lemma PackedSum(numActive: nat, v: nat, t: nat)
    requires v + t < TWO16
    ensures numActive < TWO32 && Victims(numActive) == v && Thieves(numActive) == t <==> numActive == TWO16 * v + t
  {}

  // How a step moves one worker between the kinds, and what it does to the counter.
  predicate Shift(s: State, s': State, w: Wid) {
    w < |s.pcs| && |s'.pcs| == |s.pcs| && s'.pcs == s.pcs[w := s'.pcs[w]] &&
    match (KindOf(s.pcs[w]), KindOf(s'.pcs[w]))
    case (Awake, Thief) => s'.numActive == Add32(s.numActive, DIFF)
    case (Thief, Awake) => s'.numActive == Sub32(s.numActive, DIFF)
    case (Awake, Asleep) => s'.numActive == Sub32(s.numActive, TWO16)
    case (Asleep, Awake) => s'.numActive == Add32(s.numActive, TWO16)
    case (k, k') => k == k' && s'.numActive == s.numActive
  }

  lemma WorkerShift(s: State, w: Wid, k: WStep)
    requires WEnabled(s, w, k)
    ensures Shift(s, WApply(s, w, k), w)
  {}

  lemma AgentShift(s: State, g: Aid, k: AStep)
    requires AEnabled(s, g, k)
    ensures exists w :: Shift(s, AApply(s, g, k), w)
  {
    var w := if AgentPc(s, g).Idle? then k.w else AgentPc(s, g).w;
    assert Shift(s, AApply(s, g, k), w);
  }

  lemma PackedUpdates(n: nat, v: nat, t: nat)
    requires n == TWO16 * v + t && v + t < TWO16
    ensures v > 0 ==> Add32(n, DIFF) == TWO16 * (v - 1) + (t + 1) && Sub32(n, TWO16) == TWO16 * (v - 1) + t
    ensures t > 0 ==> Sub32(n, DIFF) == TWO16 * (v + 1) + (t - 1)
    ensures v + t + 1 < TWO16 ==> Add32(n, TWO16) == TWO16 * (v + 1) + t
  {
    if v > 0 {
      assert n + DIFF == TWO32 + (TWO16 * (v - 1) + (t + 1));
      assert n + TWO32 - TWO16 == TWO32 + (TWO16 * (v - 1) + t);
    }
  }

  lemma ExactShift(s: State, s': State, w: Wid)
    requires Shift(s, s', w) && Exact(s) && |s.pcs| < TWO16
    ensures Exact(s')
  {
    var v, t := Count(s.pcs, Awake), Count(s.pcs, Thief);
    var v', t' := Count(s'.pcs, Awake), Count(s'.pcs, Thief);
    CountSet(s.pcs, w, s'.pcs[w], Awake);
    CountSet(s.pcs, w, s'.pcs[w], Thief);
    CountTotal(s.pcs);
    CountTotal(s'.pcs);
    PackedSum(s.numActive, v, t);
    PackedUpdates(s.numActive, v, t);
    assert s'.numActive == TWO16 * v' + t';
    PackedSum(s'.numActive, v', t');
  }

  lemma ExactStep(s: State, a: Action)
    requires Enabled(s, a) && Exact(s) && |s.pcs| < TWO16
    ensures Exact(Apply(s, a)) && |Apply(s, a).pcs| == |s.pcs|
  {
    var w: Wid;
    match a {
      case OfWorker(v, k) => WorkerShift(s, v, k); w := v;
      case OfAgent(g, k) => AgentShift(s, g, k); w :| Shift(s, AApply(s, g, k), w);
    }
    ExactShift(s, Apply(s, a), w);
  }

  lemma {:induction false} AllTryPop(pcs: seq<Pc>)
    requires forall i | 0 <= i < |pcs| :: pcs[i] == TryPop
    ensures Count(pcs, Awake) == |pcs| && Count(pcs, Thief) == 0
  {
    if pcs != [] { AllTryPop(pcs[1..]); }
  }

  /** With at most 65535 workers the halves of the counter are, in every reachable state and in spite of
      the 32-bit wrap-around, the numbers of awake and of stealing workers: no borrow crosses. */
  lemma {:induction false} CounterExact(run: seq<State>, acts: seq<Action>, i: nat)
    requires IsRun(run, acts) && i < |run| && |run[0].pcs| < TWO16
    ensures Exact(run[i]) && |run[i].pcs| == |run[0].pcs|
  {
    if i == 0 {
      AllTryPop(run[0].pcs);
      PackedSum(run[0].numActive, |run[0].pcs|, 0);
    } else {
      CounterExact(run, acts, i - 1);
      assert StepAt(run, acts, i - 1);
      ExactStep(run[i - 1], acts[i - 1]);
    }
  }

  /** The bound is the right one: from 65536 workers on, the counter is wrong from the first moment. */
  lemma CounterExactIff(s: State)
    requires Init(s)
    ensures Exact(s) <==> |s.pcs| < TWO16
  {
    AllTryPop(s.pcs);
    if |s.pcs| < TWO16 { PackedSum(s.numActive, |s.pcs|, 0); }
  }

  /** So the two wake-up tests mean what their comments say: after stealing a worker wakes another iff it
      is the only thief while somebody is awake, after sleeping iff nobody else is awake or stealing. */
  lemma WakeTestsMean(run: seq<State>, acts: seq<Action>, i: nat)
    requires IsRun(run, acts) && i < |run| && |run[0].pcs| < TWO16
    ensures WakesAfterSteal(run[i].numActive) <==> Count(run[i].pcs, Thief) == 1 && Count(run[i].pcs, Awake) != 0
    ensures WakesAfterSleep(run[i].numActive) <==> Count(run[i].pcs, Asleep) == |run[i].pcs|
  {
    CounterExact(run, acts, i);
    CountTotal(run[i].pcs);
  }

  // ---------------------------------------------------------------- in place

  // `numActive_`. `victims` and `thieves` are what its halves stand for.
  class ActiveCounter {
    var numActive: nat
    ghost var victims: nat
    ghost var thieves: nat

    ghost predicate Valid()
      reads this
    {
      victims + thieves < TWO16 && numActive == TWO16 * victims + thieves
    }

    constructor (threadCount: nat)
      requires threadCount < TWO16
      ensures Valid() && victims == threadCount && thieves == 0
    {
      numActive := (threadCount * TWO16) % TWO32;
      victims, thieves := threadCount, 0;
    }

    method SetStealing()
      requires Valid() && victims > 0
      modifies this
      ensures Valid() && victims == old(victims) - 1 && thieves == old(thieves) + 1
    {
      numActive := Add32(numActive, DIFF);
      victims, thieves := victims - 1, thieves + 1;
    }

    method ClearStealing() returns (wake: bool)
      requires Valid() && thieves > 0
      modifies this
      ensures Valid() && victims == old(victims) + 1 && thieves == old(thieves) - 1
      ensures wake <==> old(thieves) == 1 && old(victims) != 0
    {
      wake := WakesAfterSteal(numActive);
      numActive := Sub32(numActive, DIFF);
      victims, thieves := victims + 1, thieves - 1;
    }

    method SetSleeping()
      requires Valid() && victims > 0
      modifies this
      ensures Valid() && victims == old(victims) - 1 && thieves == old(thieves)
    {
      numActive := Sub32(numActive, TWO16);
      victims := victims - 1;
    }

    method ClearSleeping() returns (wake: bool)
      requires Valid() && victims + thieves + 1 < TWO16
      modifies this
      ensures Valid() && victims == old(victims) + 1 && thieves == old(thieves)
      ensures wake <==> old(victims) == 0 && old(thieves) == 0
    {
      wake := WakesAfterSleep(numActive);
      numActive := Add32(numActive, TWO16);
      victims := victims + 1;
    }
  }

  // The turn at which a cyclic scan of `n` entries from `start` reaches entry `j`.
  function Turn(start: nat, j: nat, n: nat): int {
    if j >= start then j - start else j + n - start
  }

  // `notify_one_sleeping` of worker `self`: `states` are the workers' `state_` words. One sleeping worker
  // is signalled iff another one sleeps; the scan marks everybody it passes, and nobody it does not reach.
  method NotifyOneSleeping(states: array<Flag>, self: nat, start: nat) returns (woken: Option<nat>)
    requires self < states.Length && start < states.Length
    modifies states
    ensures woken.Some? ==> woken.value < states.Length && woken.value != self && old(states[woken.value]) == Sleeping
    ensures woken.None? ==> forall j | 0 <= j < states.Length && j != self :: old(states[j]) != Sleeping
    ensures forall j | 0 <= j < states.Length ::
              states[j] ==
              if j != self && (woken.None? || Turn(start, j, states.Length) <= Turn(start, woken.value, states.Length))
              then Notified else old(states[j])
    ensures woken.Some? ==> forall j | 0 <= j < states.Length && j != self && j != woken.value ::
              Turn(start, j, states.Length) < Turn(start, woken.value, states.Length) ==> old(states[j]) != Sleeping
  {
    var n := states.Length;
    for i := 0 to n
      invariant forall j | 0 <= j < n && j != self && Turn(start, j, n) < i ::
                old(states[j]) != Sleeping && states[j] == Notified
      invariant forall j | 0 <= j < n && (j == self || Turn(start, j, n) >= i) :: states[j] == old(states[j])
    {
      var index := (start + i) % n;
      TurnOf(start, i, n);
      if index != self {
        var was := states[index];
        states[index] := Notified;
        if was == Sleeping {
          return Some(index);
        }
      }
    }
    woken := None;
  }

  lemma TurnOf(start: nat, i: nat, n: nat)
    requires start < n && i < n
    ensures (start + i) % n == (if start + i < n then start + i else start + i - n)
  {
    if start + i >= n { assert start + i == n + (start + i - n); }
  }
}

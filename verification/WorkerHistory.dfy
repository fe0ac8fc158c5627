/**
 What the state of the workers says about the past: which tasks a remote queue holds, who set a stop flag or a
 `state_` word last, and that every worker goes through `pop()`, and every agent through `notify()` or
 `request_stop()`, in program order.
 */
module WorkerHistory {
  import opened Options
  import opened WorkerSleep

  // ---------------------------------------------------------------- the shape of the pool

  predicate SameSize(s: State, t: State) { WellFormed(s) && WellFormed(t) && |s.pcs| == |t.pcs| }

  lemma SizeStep(s: State, a: Action)
    requires WellFormed(s) && Enabled(s, a)
    ensures SameSize(Apply(s, a), s)
  {}

  lemma {:induction false} SizeStays(run: seq<State>, acts: seq<Action>, i: nat)
    requires IsRun(run, acts) && i < |run|
    ensures SameSize(run[i], run[0])
  {
    if i > 0 {
      SizeStays(run, acts, i - 1);
      assert StepAt(run, acts, i - 1);
      SizeStep(run[i - 1], acts[i - 1]);
    }
  }

  lemma StepOf(run: seq<State>, acts: seq<Action>, i: nat)
    requires IsRun(run, acts) && i < |acts|
    ensures WellFormed(run[i]) && Enabled(run[i], acts[i]) && run[i + 1] == Apply(run[i], acts[i])
  {
    SizeStays(run, acts, i);
    assert StepAt(run, acts, i);
  }

  // ---------------------------------------------------------------- remote queues and stop flags

  predicate IsPush(a: Action, w: Wid, q: nat) { a.OfAgent? && a.act == Push(w, q) }

  predicate IsVisit(a: Action, w: Wid, q: nat) { a == OfWorker(w, Visit(q)) }

  predicate IsStop(a: Action, w: Wid) { a.OfAgent? && a.act == Stop(w) }

  function Pushes(acts: seq<Action>, lo: nat, hi: nat, w: Wid, q: nat): nat
    requires lo <= hi <= |acts|
  {
    if lo == hi then 0 else Pushes(acts, lo, hi - 1, w, q) + if IsPush(acts[hi - 1], w, q) then 1 else 0
  }

  // Submitter queue `q` of worker `w`, if there is one.
  function Queue(s: State, w: Wid, q: nat): nat { if w < |s.remote| && q < |s.remote[w]| then s.remote[w][q] else 0 }

  lemma RemoteStep(s: State, a: Action, w: Wid, q: nat)
    requires WellFormed(s) && Enabled(s, a)
    ensures Queue(Apply(s, a), w, q) ==
            if IsPush(a, w, q) then Queue(s, w, q) + 1 else if IsVisit(a, w, q) then 0 else Queue(s, w, q)
  {}

  /** A remote queue holds the tasks pushed since its worker last emptied it, or since the start, and what was
      there then if it never did: no enqueue loses its task, and no task goes but with a visit. */
  lemma {:induction false} RemoteCounts(run: seq<State>, acts: seq<Action>, lo: nat, i: nat, w: Wid, q: nat)
    requires IsRun(run, acts) && lo <= i < |run|
    requires lo == 0 || IsVisit(acts[lo - 1], w, q)
    requires forall k | lo <= k < i :: !IsVisit(acts[k], w, q)
    ensures Queue(run[i], w, q) == (if lo == 0 then Queue(run[0], w, q) else 0) + Pushes(acts, lo, i, w, q)
    decreases i - lo
  {
    if i > lo {
      RemoteCounts(run, acts, lo, i - 1, w, q);
    }
    if i > 0 {
      StepOf(run, acts, i - 1);
      RemoteStep(run[i - 1], acts[i - 1], w, q);
    }
  }

  lemma StopStep(s: State, a: Action, w: Wid)
    requires WellFormed(s) && Enabled(s, a) && w < |s.pcs|
    ensures w < |Apply(s, a).stops| && (Apply(s, a).stops[w] <==> s.stops[w] || IsStop(a, w))
  {}

  /** A stop flag is set exactly if a stop was requested of that worker. */
  lemma {:induction false} StopMeans(run: seq<State>, acts: seq<Action>, i: nat, w: Wid)
    requires IsRun(run, acts) && i < |run| && w < |run[0].pcs|
    ensures w < |run[i].stops| && (run[i].stops[w] <==> exists k | 0 <= k < i :: IsStop(acts[k], w))
  {
    SizeStays(run, acts, i);
    if i > 0 {
      SizeStays(run, acts, i - 1);
      StopMeans(run, acts, i - 1, w);
      StepOf(run, acts, i - 1);
      StopStep(run[i - 1], acts[i - 1], w);
    }
  }

  // What an action stores in the `state_` of `w`: the worker on its way to sleep and back, or a notification.
  function Stores(s: State, a: Action, w: Wid): Option<Flag>
    requires WellFormed(s) && w < |s.pcs|
  {
    match a
    case OfWorker(v, StoreBack) => if v == w then Some(Running) else None
    case OfWorker(v, TryCas(spurious)) => if v == w && s.flags[w] == Running && !spurious then Some(Sleeping) else None
    case OfAgent(g, DoExchange) => if AgentPc(s, g).Exchange? && AgentPc(s, g).w == w then Some(Notified) else None
    case _ => None
  }

  lemma FlagStep(s: State, a: Action, w: Wid)
    requires WellFormed(s) && Enabled(s, a) && w < |s.pcs|
    ensures w < |Apply(s, a).flags|
    ensures Apply(s, a).flags[w] == if Stores(s, a, w).Some? then Stores(s, a, w).value else s.flags[w]
  {}

  // Action `k` is the last of the first `i` to store in the `state_` of `w`.
  ghost predicate LastStore(run: seq<State>, acts: seq<Action>, k: nat, i: nat, w: Wid)
    requires IsRun(run, acts) && k < i < |run| && w < |run[0].pcs|
  {
    && (forall m | k <= m < i :: WellFormed(run[m]) && w < |run[m].pcs|)
    && Stores(run[k], acts[k], w).Some? && forall m | k < m < i :: Stores(run[m], acts[m], w) == None
  }

  /** A `state_` word holds what was stored in it last. */
  lemma {:induction false} FlagMeans(run: seq<State>, acts: seq<Action>, k: nat, i: nat, w: Wid)
    requires IsRun(run, acts) && k < i < |run| && w < |run[0].pcs| && LastStore(run, acts, k, i, w)
    ensures w < |run[i].flags| && run[i].flags[w] == Stores(run[k], acts[k], w).value
    decreases i - k
  {
    if i - 1 > k { FlagMeans(run, acts, k, i - 1, w); }
    StepOf(run, acts, i - 1);
    FlagStep(run[i - 1], acts[i - 1], w);
  }

  // ---------------------------------------------------------------- program order of a worker

  predicate Own(a: Action, w: Wid) { a.OfWorker? && a.w == w }

  // Two actions of `w` with none of its own between.
  ghost predicate Consecutive(acts: seq<Action>, i: nat, j: nat, w: Wid) {
    i < j < |acts| && Own(acts[i], w) && Own(acts[j], w) && forall k | i < k < j :: !Own(acts[k], w)
  }

  // `pop()` as it is written: the step `next` may come after step `k`, taken in state `s`.
  predicate Follows(s: State, w: Wid, k: WStep, next: WStep)
    requires WellFormed(s) && w < |s.pcs|
  {
    match k
    case PopLocal(hit) => if hit then next == Done else next.Visit? || next.DrainDone?
    case Visit(_) => next.Visit? || if s.pcs[w].Drain? then next.DrainDone? else next.CheckDone?
    case DrainDone(hit) => next == if hit then Done else BeginSteal
    case BeginSteal => next.Steal?
    case Steal(_) => next == EndSteal
    case EndSteal => next == if s.pcs[w] == ClearStealing(true) then Done else TakeLock
    case TakeLock => next == ReadStop
    case ReadStop => !s.stops[w] && next.TryCas?
    case TryCas(spurious) =>
      if s.flags[w] == Running && !spurious then next.Visit? || next.CheckDone? else next == StoreBack
    case CheckDone(hit) => next == if hit then Done else BeginSleep
    case BeginSleep => next == Block
    case Block => next == SpuriousWake || next == WakeUp
    case SpuriousWake => next == WakeUp
    case WakeUp => next == StoreBack
    case StoreBack => next.PopLocal?
    case Done => next.PopLocal?
  }

  lemma OthersLeavePc(s: State, a: Action, w: Wid)
    requires WellFormed(s) && Enabled(s, a) && w < |s.pcs| && !Own(a, w)
    ensures w < |Apply(s, a).pcs| && PcKept(s.pcs[w], Apply(s, a).pcs[w])
  {}

  // A notification is all that can happen to a worker while it takes no step.
  predicate PcKept(p: Pc, p': Pc) { p' == p || (p.Blocked? && p'.Woken?) }

  lemma {:induction false} PcStays(run: seq<State>, acts: seq<Action>, i: nat, j: nat, w: Wid)
    requires IsRun(run, acts) && i <= j < |run| && w < |run[0].pcs| && forall k | i <= k < j :: !Own(acts[k], w)
    ensures w < |run[i].pcs| && w < |run[j].pcs| && PcKept(run[i].pcs[w], run[j].pcs[w])
    decreases j - i
  {
    SizeStays(run, acts, i);
    if i < j {
      PcStays(run, acts, i, j - 1, w);
      StepOf(run, acts, j - 1);
      OthersLeavePc(run[j - 1], acts[j - 1], w);
    }
  }

  // One step, and the step that its outcome enables.
  lemma StepThen(s: State, w: Wid, k: WStep, t: State, next: WStep)
    requires WEnabled(s, w, k) && WEnabled(t, w, next)
    requires PcKept(WApply(s, w, k).pcs[w], t.pcs[w])
    ensures Follows(s, w, k, next)
  {}

  /** The actions of a worker follow one another as the code of `pop()` does: it runs a task exactly if it got one,
      goes for the lock only empty-handed, leaves exactly if it reads its stop flag set, looks at the remote
      queues again exactly if it went to sleep, and goes back to the start after that. */
  lemma ProgramOrder(run: seq<State>, acts: seq<Action>, i: nat, j: nat, w: Wid)
    requires IsRun(run, acts) && Consecutive(acts, i, j, w)
    ensures WellFormed(run[i]) && w < |run[i].pcs| && Follows(run[i], w, acts[i].step, acts[j].step)
  {
    StepOf(run, acts, i);
    StepOf(run, acts, j);
    SizeStays(run, acts, i);
    PcStays(run, acts, i + 1, j, w);
    StepThen(run[i], w, acts[i].step, run[j], acts[j].step);
  }

  lemma StealStep(s: State, w: Wid, found: bool)
    requires WEnabled(s, w, Steal(found))
    ensures WApply(s, w, Steal(found)).pcs[w] == ClearStealing(found)
  {}

  /** What a steal found is what the next step goes by. */
  lemma StealKept(run: seq<State>, acts: seq<Action>, i: nat, j: nat, w: Wid, found: bool)
    requires IsRun(run, acts) && Consecutive(acts, i, j, w) && acts[i].step == Steal(found)
    ensures w < |run[j].pcs| && run[j].pcs[w] == ClearStealing(found)
  {
    StepOf(run, acts, i);
    SizeStays(run, acts, i);
    PcStays(run, acts, i + 1, j, w);
    StealStep(run[i], w, found);
  }

  /** A worker begins with a look at its own queue. */
  lemma FirstStep(run: seq<State>, acts: seq<Action>, j: nat, w: Wid)
    requires IsRun(run, acts) && j < |acts| && Own(acts[j], w) && forall k | 0 <= k < j :: !Own(acts[k], w)
    ensures acts[j].step.PopLocal?
  {
    StepOf(run, acts, j);
    SizeStays(run, acts, j);
    PcStays(run, acts, 0, j, w);
  }

  /** Every worker that has not left can take its next step. */
  lemma NeverStuck(run: seq<State>, acts: seq<Action>, i: nat, w: Wid)
    requires IsRun(run, acts) && i < |run| && w < |run[i].pcs| && !run[i].pcs[w].Exited?
    ensures exists k :: WEnabled(run[i], w, k)
  {
    SizeStays(run, acts, i);
    var s := run[i];
    match s.pcs[w]
    case TryPop => assert WEnabled(s, w, PopLocal(true));
    case Drain(seen) =>
      if q :| 0 <= q < |s.remote[w]| && q !in seen {
        assert WEnabled(s, w, Visit(q));
      } else {
        assert WEnabled(s, w, DrainDone(true));
      }
    case SetStealing => assert WEnabled(s, w, BeginSteal);
    case Stealing => assert WEnabled(s, w, Steal(true));
    case ClearStealing(_) => assert WEnabled(s, w, EndSteal);
    case Lock => assert WEnabled(s, w, TakeLock);
    case TestStop => assert WEnabled(s, w, ReadStop);
    case Cas => assert WEnabled(s, w, TryCas(true));
    case CheckRemote(seen) =>
      if q :| 0 <= q < |s.remote[w]| && q !in seen {
        assert WEnabled(s, w, Visit(q));
      } else {
        assert WEnabled(s, w, CheckDone(true));
      }
    case SetSleeping => assert WEnabled(s, w, BeginSleep);
    case Wait => assert WEnabled(s, w, Block);
    case Blocked => assert WEnabled(s, w, SpuriousWake);
    case Woken => assert WEnabled(s, w, WakeUp);
    case StoreRunning => assert WEnabled(s, w, StoreBack);
    case Exec => assert WEnabled(s, w, WStep.Done);
    case Exited =>
  }

  // ---------------------------------------------------------------- the calls of `try_remote`

  function Seen(p: Pc): set<nat> {
    match p
    case Drain(seen) => seen
    case CheckRemote(seen) => seen
    case _ => {}
  }

  lemma SeenStep(s: State, a: Action, w: Wid)
    requires WellFormed(s) && Enabled(s, a) && w < |s.pcs|
    ensures w < |Apply(s, a).pcs|
    ensures Seen(Apply(s, a).pcs[w]) ==
            if !Own(a, w) then Seen(s.pcs[w]) else if a.step.Visit? then Seen(s.pcs[w]) + {a.step.q} else {}
  {
    if Own(a, w) { OwnSeen(s, w, a.step); } else { OthersLeavePc(s, a, w); }
  }

  lemma OwnSeen(s: State, w: Wid, k: WStep)
    requires WEnabled(s, w, k)
    ensures Seen(WApply(s, w, k).pcs[w]) == if k.Visit? then Seen(s.pcs[w]) + {k.q} else {}
  {}

  // Since action `lo`, which was no visit, `w` has visited queue `q`.
  ghost predicate Visited(acts: seq<Action>, lo: nat, i: nat, w: Wid, q: nat)
    requires i <= |acts|
  {
    exists k | lo < k < i :: IsVisit(acts[k], w, q)
  }

  ghost predicate OnlyVisits(acts: seq<Action>, lo: nat, i: nat, w: Wid)
    requires i <= |acts|
  {
    && lo < i && Own(acts[lo], w) && !acts[lo].step.Visit?
    && forall k | lo < k < i && Own(acts[k], w) :: acts[k].step.Visit?
  }

  lemma {:induction false} SeenMeans(run: seq<State>, acts: seq<Action>, lo: nat, i: nat, w: Wid)
    requires IsRun(run, acts) && i <= |acts| && w < |run[0].pcs| && OnlyVisits(acts, lo, i, w)
    ensures w < |run[i].pcs| && forall q: nat :: q in Seen(run[i].pcs[w]) <==> Visited(acts, lo, i, w, q)
    decreases i - lo
  {
    StepOf(run, acts, i - 1);
    SizeStays(run, acts, i - 1);
    SeenStep(run[i - 1], acts[i - 1], w);
    if i - 1 > lo {
      SeenMeans(run, acts, lo, i - 1, w);
      forall q: nat
        ensures Visited(acts, lo, i, w, q) <==> Visited(acts, lo, i - 1, w, q) || IsVisit(acts[i - 1], w, q)
      {}
    }
  }

  /** A call of `try_remote` empties each of the submitters' queues once: none twice, and none is left out when
      it ends. */
  lemma VisitsEachOnce(run: seq<State>, acts: seq<Action>, lo: nat, j: nat, w: Wid)
    requires IsRun(run, acts) && j < |acts| && w < |run[0].pcs| && OnlyVisits(acts, lo, j, w) && Own(acts[j], w)
    ensures w < |run[j].remote|
    ensures acts[j].step.Visit? ==> !Visited(acts, lo, j, w, acts[j].step.q)
    ensures acts[j].step.DrainDone? || acts[j].step.CheckDone? ==>
              forall q: nat | q < |run[j].remote[w]| :: Visited(acts, lo, j, w, q)
  {
    StepOf(run, acts, j);
    SizeStays(run, acts, j);
    SeenMeans(run, acts, lo, j, w);
  }

  // ---------------------------------------------------------------- program order of an agent

  predicate OfG(a: Action, g: Aid) { a.OfAgent? && a.g == g }

  predicate Begins(k: AStep) { k.Push? || k.Call? || k.Stop? }

  // `notify()` and `request_stop()`: a notification goes on exactly if it found the worker asleep.
  predicate FollowsA(s: State, g: Aid, k: AStep, next: AStep)
    requires WellFormed(s) && AEnabled(s, g, k)
  {
    match k
    case Push(_, _) => next == DoExchange
    case Call(_) => next == DoExchange
    case DoExchange => if s.flags[AgentPc(s, g).w] == Sleeping then next == DoLock else Begins(next)
    case DoLock => next == DoNotify
    case DoNotify => Begins(next)
    case Stop(_) => next == DoStopNotify
    case DoStopNotify => Begins(next)
  }

  ghost predicate ConsecutiveA(acts: seq<Action>, i: nat, j: nat, g: Aid) {
    i < j < |acts| && OfG(acts[i], g) && OfG(acts[j], g) && forall k | i < k < j :: !OfG(acts[k], g)
  }

  lemma OthersLeaveAgent(s: State, a: Action, g: Aid)
    requires Enabled(s, a) && !OfG(a, g)
    ensures AgentPc(Apply(s, a), g) == AgentPc(s, g)
  {}

  lemma {:induction false} AgentStays(run: seq<State>, acts: seq<Action>, i: nat, j: nat, g: Aid)
    requires IsRun(run, acts) && i <= j < |run| && forall k | i <= k < j :: !OfG(acts[k], g)
    ensures AgentPc(run[j], g) == AgentPc(run[i], g)
    decreases j - i
  {
    if i < j {
      AgentStays(run, acts, i, j - 1, g);
      StepOf(run, acts, j - 1);
      OthersLeaveAgent(run[j - 1], acts[j - 1], g);
    }
  }

  // The worker an agent's step is about.
  function Target(s: State, g: Aid, k: AStep): Wid {
    match k
    case Push(w, _) => w
    case Call(w) => w
    case Stop(w) => w
    case _ => if AgentPc(s, g).Idle? then 0 else AgentPc(s, g).w
  }

  lemma AgentThen(s: State, g: Aid, k: AStep, t: State, next: AStep)
    requires AEnabled(s, g, k) && AEnabled(t, g, next) && AgentPc(t, g) == AgentPc(AApply(s, g, k), g)
    ensures FollowsA(s, g, k, next)
    ensures !Begins(next) ==> Target(t, g, next) == Target(s, g, k)
  {}

  /** The actions of an agent follow one another as the code does, and stay with the same worker. */
  lemma AgentOrder(run: seq<State>, acts: seq<Action>, i: nat, j: nat, g: Aid)
    requires IsRun(run, acts) && ConsecutiveA(acts, i, j, g)
    ensures WellFormed(run[i]) && AEnabled(run[i], g, acts[i].act) && FollowsA(run[i], g, acts[i].act, acts[j].act)
    ensures !Begins(acts[j].act) ==> Target(run[j], g, acts[j].act) == Target(run[i], g, acts[i].act)
  {
    StepOf(run, acts, i);
    StepOf(run, acts, j);
    AgentStays(run, acts, i + 1, j, g);
    AgentThen(run[i], g, acts[i].act, run[j], acts[j].act);
  }

  /** An agent can go on unless the mutex it wants is held. */
  lemma AgentNeverStuck(run: seq<State>, acts: seq<Action>, i: nat, g: Aid)
    requires IsRun(run, acts) && i < |run| && !AgentPc(run[i], g).Idle?
    ensures WellFormed(run[i]) && AgentPc(run[i], g).w < |run[i].pcs|
    ensures (exists k :: AEnabled(run[i], g, k)) ||
            (AgentPc(run[i], g).LockUnlock? && Holds(run[i].pcs[AgentPc(run[i], g).w]))
  {
    SizeStays(run, acts, i);
    TargetInPool(run, acts, i, g);
    var s, p := run[i], AgentPc(run[i], g);
    match p
    case Exchange(_, _) => assert AEnabled(s, g, DoExchange);
    case LockUnlock(w) => assert !Holds(s.pcs[w]) ==> AEnabled(s, g, DoLock);
    case NotifyOne(_) => assert AEnabled(s, g, DoNotify);
    case StopNotify(_) => assert AEnabled(s, g, DoStopNotify);
    case Idle =>
  }

  lemma {:induction false} TargetInPool(run: seq<State>, acts: seq<Action>, i: nat, g: Aid)
    requires IsRun(run, acts) && i < |run|
    ensures AgentPc(run[i], g).Idle? || AgentPc(run[i], g).w < |run[0].pcs|
  {
    if i > 0 {
      TargetInPool(run, acts, i - 1, g);
      SizeStays(run, acts, i - 1);
      StepOf(run, acts, i - 1);
      TargetStep(run[i - 1], acts[i - 1], g);
    }
  }

  lemma TargetStep(s: State, a: Action, g: Aid)
    requires WellFormed(s) && Enabled(s, a) && (AgentPc(s, g).Idle? || AgentPc(s, g).w < |s.pcs|)
    ensures AgentPc(Apply(s, a), g).Idle? || AgentPc(Apply(s, a), g).w < |s.pcs|
  {}
}

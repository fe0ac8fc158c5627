/**
 What the state of the older thread pool says about the past: which tasks a queue has given out and still holds, what
 its stop flag and the history fields mean, and the order of a worker's steps.
 */
module PoolHistory {
  import opened OldThreadPool

  lemma StepOf(run: seq<State>, acts: seq<Action>, i: nat)
    requires IsRun(run, acts) && i < |acts|
    ensures |run[i].queues| == |run[i].workers| && Enabled(run[i], acts[i]) && run[i + 1] == Apply(run[i], acts[i])
  {}

  lemma {:induction false} SizeStays(run: seq<State>, acts: seq<Action>, i: nat)
    requires IsRun(run, acts) && i < |run|
    ensures |run[i].queues| == |run[i].workers| == |run[0].workers|
  {
    if i > 0 {
      SizeStays(run, acts, i - 1);
      StepOf(run, acts, i - 1);
    }
  }

  // ---------------------------------------------------------------- what a queue gives out

  function PushedTo(acts: seq<Action>, i: nat, q: nat): seq<Task>
    requires i <= |acts|
  {
    if i == 0 then [] else
      PushedTo(acts, i - 1, q) + if acts[i - 1].Push? && acts[i - 1].q == q then [acts[i - 1].t] else []
  }

  // The task that a worker begins to execute with an action on queue `q`.
  function Begun(s: State, a: Action, s': State, q: nat): seq<Task> {
    if (a.Probe? || a.Pop?) && a.w < |s.workers| && a.w < |s'.workers| && s'.workers[a.w].Executing?
       && q == (if a.Probe? && s.workers[a.w].Probing? then s.workers[a.w].q else a.w)
    then [s'.workers[a.w].t] else []
  }

  function GivenOut(run: seq<State>, acts: seq<Action>, i: nat, q: nat): seq<Task>
    requires i <= |acts| < |run|
  {
    if i == 0 then [] else GivenOut(run, acts, i - 1, q) + Begun(run[i - 1], acts[i - 1], run[i], q)
  }

  lemma TasksStep(s: State, a: Action, q: nat)
    requires |s.queues| == |s.workers| && Enabled(s, a) && q < |s.queues|
    ensures Begun(s, a, Apply(s, a), q) + Apply(s, a).queues[q].tasks ==
            s.queues[q].tasks + if a.Push? && a.q == q then [a.t] else []
  {}

  /** First in, first out: the tasks that workers took from a queue, own or another's, and then those it holds, are
      the tasks pushed to it, in that order. */
  lemma {:induction false} FirstInFirstOut(run: seq<State>, acts: seq<Action>, i: nat, q: nat)
    requires IsRun(run, acts) && i < |run| && q < |run[i].queues|
    ensures GivenOut(run, acts, i, q) + run[i].queues[q].tasks == PushedTo(acts, i, q)
  {
    SizeStays(run, acts, i);
    if i > 0 {
      SizeStays(run, acts, i - 1);
      FirstInFirstOut(run, acts, i - 1, q);
      StepOf(run, acts, i - 1);
      TasksStep(run[i - 1], acts[i - 1], q);
      Regroup(GivenOut(run, acts, i - 1, q), Begun(run[i - 1], acts[i - 1], run[i], q), run[i].queues[q].tasks,
        run[i - 1].queues[q].tasks, if acts[i - 1].Push? && acts[i - 1].q == q then [acts[i - 1].t] else []);
    }
  }

  lemma Regroup<T>(a: seq<T>, b: seq<T>, c: seq<T>, d: seq<T>, e: seq<T>)
    requires b + c == d + e
    ensures (a + b) + c == (a + d) + e
  {
    assert (a + b) + c == a + (b + c) && (a + d) + e == a + (d + e);
  }

  // ---------------------------------------------------------------- the flags and the history fields

  lemma FlagStep(s: State, a: Action, q: nat)
    requires |s.queues| == |s.workers| && Enabled(s, a) && q < |s.queues|
    ensures Apply(s, a).queues[q].stop <==> s.queues[q].stop || a == StopAt(q)
    ensures q in Apply(s, a).late <==> q in s.late || (a.Push? && a.q == q && s.queues[q].stop)
    ensures Apply(s, a).pushed == s.pushed + if a.Push? then multiset{a.t} else multiset{}
    ensures Apply(s, a).executed ==
            s.executed + if a.Finish? && s.workers[a.w].Executing? then multiset{s.workers[a.w].t} else multiset{}
  {}

  ghost predicate Stopped(acts: seq<Action>, i: nat, q: nat)
    requires i <= |acts|
  {
    exists k | 0 <= k < i :: acts[k] == StopAt(q)
  }

  ghost predicate PushedLate(acts: seq<Action>, i: nat, q: nat)
    requires i <= |acts|
  {
    exists k | 0 <= k < i :: acts[k].Push? && acts[k].q == q && Stopped(acts, k, q)
  }

  lemma LateStep(acts: seq<Action>, i: nat, q: nat)
    requires i < |acts|
    ensures Stopped(acts, i + 1, q) <==> Stopped(acts, i, q) || acts[i] == StopAt(q)
    ensures PushedLate(acts, i + 1, q) <==>
            PushedLate(acts, i, q) || (acts[i].Push? && acts[i].q == q && Stopped(acts, i, q))
  {}

  /** A queue's flag is set exactly if a stop was requested of it, and `late` holds exactly the queues pushed to after
      that. */
  lemma {:induction false} FlagMeans(run: seq<State>, acts: seq<Action>, i: nat, q: nat)
    requires IsRun(run, acts) && i < |run| && q < |run[i].queues|
    ensures run[i].queues[q].stop <==> Stopped(acts, i, q)
    ensures q in run[i].late <==> PushedLate(acts, i, q)
  {
    SizeStays(run, acts, i);
    if i > 0 {
      SizeStays(run, acts, i - 1);
      FlagMeans(run, acts, i - 1, q);
      StepOf(run, acts, i - 1);
      FlagStep(run[i - 1], acts[i - 1], q);
      LateStep(acts, i - 1, q);
    }
  }

  function Pushes(acts: seq<Action>, i: nat): multiset<Task>
    requires i <= |acts|
  {
    if i == 0 then multiset{} else
      Pushes(acts, i - 1) + if acts[i - 1].Push? then multiset{acts[i - 1].t} else multiset{}
  }

  // The tasks whose execution has ended.
  function Ended(run: seq<State>, acts: seq<Action>, i: nat): multiset<Task>
    requires i <= |acts| < |run|
  {
    if i == 0 then multiset{} else
      var s, a := run[i - 1], acts[i - 1];
      Ended(run, acts, i - 1) +
      if a.Finish? && a.w < |s.workers| && s.workers[a.w].Executing? then multiset{s.workers[a.w].t} else multiset{}
  }

  /** `pushed` and `executed`, of which `Conservation` speaks. */
  lemma {:induction false} HistoryMeans(run: seq<State>, acts: seq<Action>, i: nat)
    requires IsRun(run, acts) && i < |run|
    ensures run[i].pushed == Pushes(acts, i) && run[i].executed == Ended(run, acts, i)
  {
    if i > 0 {
      HistoryMeans(run, acts, i - 1);
      RunInv(run, acts, i - 1);
      StepOf(run, acts, i - 1);
      FlagStep(run[i - 1], acts[i - 1], 0);
    }
  }

  // ---------------------------------------------------------------- the order of a worker's steps

  predicate Own(a: Action, w: nat) { !a.Push? && !a.StopAt? && a.w == w }

  ghost predicate Consecutive(acts: seq<Action>, i: nat, j: nat, w: nat) {
    i < j < |acts| && Own(acts[i], w) && Own(acts[j], w) && forall k | i < k < j :: !Own(acts[k], w)
  }

  // The worker's loop as it is written: `next` may come after `a`, taken in state `s`.
  predicate Follows(s: State, a: Action, next: Action)
    requires |s.queues| == |s.workers| && Enabled(s, a)
  {
    match a
    case Probe(w, locked) =>
      var q := s.workers[w].q;
      if locked && s.queues[q].tasks != [] then next == Finish(w)
      else if |s.workers[w].visited| + 1 == |s.queues| then next == Pop(w)
      else next.Probe?
    case Pop(w) => if s.queues[w].tasks != [] then next == Finish(w) else !s.queues[w].stop && next == Wake(w)
    case Wake(w) => next == Pop(w)
    case Finish(_) => next.Probe?
    case _ => true
  }

  // Nobody else changes what a worker is about, but a notification.
  predicate Kept(x: Worker, y: Worker) { y == x || (x.Waiting? && y.Waiting?) }

  lemma OthersLeaveIt(s: State, a: Action, w: nat)
    requires |s.queues| == |s.workers| && Enabled(s, a) && !Own(a, w) && w < |s.workers|
    ensures Kept(s.workers[w], Apply(s, a).workers[w])
  {
    OnlyThose(s, a);
  }

  lemma {:induction false} WorkerStays(run: seq<State>, acts: seq<Action>, i: nat, j: nat, w: nat)
    requires IsRun(run, acts) && i <= j < |run| && w < |run[0].workers| && forall k | i <= k < j :: !Own(acts[k], w)
    ensures w < |run[i].workers| && w < |run[j].workers| && Kept(run[i].workers[w], run[j].workers[w])
    decreases j - i
  {
    SizeStays(run, acts, i);
    if i < j {
      WorkerStays(run, acts, i, j - 1, w);
      StepOf(run, acts, j - 1);
      OthersLeaveIt(run[j - 1], acts[j - 1], w);
    }
  }

  lemma After(s: State, a: Action, s': State, next: Action, w: nat)
    requires |s.queues| == |s.workers| && Enabled(s, a) && Own(a, w) && WorkerOk(s, w)
    requires |s'.queues| == |s'.workers| && Enabled(s', next) && Own(next, w)
    requires Kept(Apply(s, a).workers[w], s'.workers[w])
    ensures Follows(s, a, next)
    ensures next.Probe? ==> s'.workers[w].q == if a.Finish? then w else Succ(s.workers[w].q, |s.queues|)
  {
    if a.Probe? { NextInRound(|s.queues|, w, s.workers[w].q, s.workers[w].visited); }
  }

  /** A worker executes what it got, tries the queues one after the other until it got something or has tried all,
      then pops from its own and leaves exactly if that is empty and stopped, or waits and pops again. */
  lemma ProgramOrder(run: seq<State>, acts: seq<Action>, i: nat, j: nat, w: nat)
    requires IsRun(run, acts) && Consecutive(acts, i, j, w)
    ensures |run[i].queues| == |run[i].workers| && Enabled(run[i], acts[i]) && Follows(run[i], acts[i], acts[j])
  {
    StepOf(run, acts, i);
    StepOf(run, acts, j);
    SizeStays(run, acts, i);
    WorkerStays(run, acts, i + 1, j, w);
    WorkerOkRun(run, acts, i, w);
    After(run[i], acts[i], run[j], acts[j], w);
  }

  lemma WorkerOkRun(run: seq<State>, acts: seq<Action>, i: nat, w: nat)
    requires IsRun(run, acts) && i < |run| && w < |run[i].workers|
    ensures |run[i].queues| == |run[i].workers| && WorkerOk(run[i], w)
  {
    RunInv(run, acts, i);
  }

  /** It begins with a round of the queues. */
  lemma FirstStep(run: seq<State>, acts: seq<Action>, j: nat, w: nat)
    requires IsRun(run, acts) && j < |acts| && Own(acts[j], w) && forall k | 0 <= k < j :: !Own(acts[k], w)
    ensures acts[j].Probe?
  {
    StepOf(run, acts, j);
    SizeStays(run, acts, j);
    WorkerStays(run, acts, 0, j, w);
  }

  // A push to the worker's queue, or a stop of it.
  predicate Wakes(a: Action, w: nat) { (a.Push? || a.StopAt?) && a.q == w }

  ghost predicate SomeWakes(acts: seq<Action>, lo: nat, hi: nat, w: nat)
    requires hi <= |acts|
  {
    exists k | lo < k < hi :: Wakes(acts[k], w)
  }

  lemma SignalStep(s: State, a: Action, w: nat)
    requires |s.queues| == |s.workers| && Enabled(s, a) && !Own(a, w) && w < |s.workers| && s.workers[w].Waiting?
    requires WorkerOk(s, w)
    ensures Apply(s, a).workers[w] == Waiting(s.workers[w].signalled || Wakes(a, w))
  {
    OnlyThose(s, a);
  }

  lemma GoesToWait(s: State, w: nat)
    requires |s.queues| == |s.workers| && Enabled(s, Pop(w)) && s.queues[w] == Queue([], false)
    ensures Apply(s, Pop(w)).workers[w] == Waiting(false)
  {}

  lemma SignalAt(run: seq<State>, acts: seq<Action>, i: nat, w: nat)
    requires IsRun(run, acts) && i < |acts| && !Own(acts[i], w) && w < |run[i].workers| && run[i].workers[w].Waiting?
    ensures w < |run[i + 1].workers|
    ensures run[i + 1].workers[w] == Waiting(run[i].workers[w].signalled || Wakes(acts[i], w))
  {
    StepOf(run, acts, i);
    WorkerOkRun(run, acts, i, w);
    SignalStep(run[i], acts[i], w);
  }

  lemma GoesToWaitAt(run: seq<State>, acts: seq<Action>, i: nat, w: nat)
    requires IsRun(run, acts) && i < |acts| && acts[i] == Pop(w)
    requires w < |run[i].queues| && run[i].queues[w] == Queue([], false)
    ensures w < |run[i + 1].workers| && run[i + 1].workers[w] == Waiting(false)
  {
    StepOf(run, acts, i);
    GoesToWait(run[i], w);
  }

  /** `signalled`, of which `NoLostWakeup` speaks, says that the queue was pushed to or stopped since the worker began
      to wait. */
  lemma {:induction false} SignalMeans(run: seq<State>, acts: seq<Action>, i: nat, j: nat, w: nat)
    requires IsRun(run, acts) && i < j < |run| && acts[i] == Pop(w) && forall k | i < k < j :: !Own(acts[k], w)
    requires w < |run[i].queues| && run[i].queues[w] == Queue([], false)
    ensures w < |run[j].workers| && run[j].workers[w] == Waiting(SomeWakes(acts, i, j, w))
    decreases j
  {
    if j == i + 1 {
      GoesToWaitAt(run, acts, i, w);
    } else {
      SignalMeans(run, acts, i, j - 1, w);
      SignalAt(run, acts, j - 1, w);
      assert SomeWakes(acts, i, j, w) <==> SomeWakes(acts, i, j - 1, w) || Wakes(acts[j - 1], w);
    }
  }

  /** A worker that has not left can take its next step; a blocked one is owed that only if it was signalled. */
  lemma NeverStuck(run: seq<State>, acts: seq<Action>, i: nat, w: nat)
    requires IsRun(run, acts) && i < |run| && w < |run[i].workers| && !run[i].workers[w].Exited?
    ensures |run[i].queues| == |run[i].workers| && exists a :: Own(a, w) && Enabled(run[i], a)
  {
    WorkerOkRun(run, acts, i, w);
    var s := run[i];
    match s.workers[w]
    case Probing(_, _) => assert Own(Probe(w, true), w) && Enabled(s, Probe(w, true));
    case Popping => assert Own(Pop(w), w) && Enabled(s, Pop(w));
    case Waiting(_) => assert Own(Wake(w), w) && Enabled(s, Wake(w));
    case Executing(_) => assert Own(Finish(w), w) && Enabled(s, Finish(w));
  }
}

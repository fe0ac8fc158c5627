/**
 A bulk operation told by its past alone: which task can do what after a sequence of actions, which exception is kept,
 and that no task is stuck.
 */
module BulkHistory {
  import opened Bulk

  lemma StepOf(run: seq<State>, acts: seq<Action>, i: nat)
    requires IsRun(run, acts) && i < |acts|
    ensures Enabled(run[i], acts[i]) && run[i + 1] == Apply(run[i], acts[i])
  {}

  // ---------------------------------------------------------------- the past

  // How many tasks have been pushed, how often the index of the thrower was exchanged, how many tasks are counted.
  datatype Tally = Tally(pushed: nat, exchanged: nat, counted: nat)

  function TallyOf(acts: seq<Action>, i: nat): Tally
    requires i <= |acts|
  {
    if i == 0 then Tally(0, 0, 0) else
      var y := TallyOf(acts, i - 1);
      match acts[i - 1]
      case Push => y.(pushed := y.pushed + 1)
      case Exchange(_) => y.(exchanged := y.exchanged + 1)
      case Count(_) => y.(counted := y.counted + 1)
      case _ => y
  }

  // A task waits to be pushed, is in the submitter's queue or the worker's, inside the function, has thrown, keeps
  // the exception, leaves, and the last one completes the operation.
  datatype Stage = Waiting | Far | Near | Inside | Threw | Keeping | Leaving | Closing | Over

  // The stage of task `k` of `n` after an action. Tasks are pushed in order; the first to exchange keeps its exception,
  // and the one that completes the count closes.
  function Turn(l: Stage, y: Tally, a: Action, k: nat, n: nat): Stage {
    if a.Push? then (if y.pushed == k then Far else l)
    else if a.k != k then l
    else match a
      case Take(_) => Near
      case PopOwn(_) => Inside
      case Steal(_, _) => Inside
      case Return(_) => Leaving
      case Throw(_) => Threw
      case Exchange(_) => if y.exchanged == 0 then Keeping else Leaving
      case Store(_) => Leaving
      case Count(_) => if y.counted + 1 == n then Closing else Stage.Over
      case _ => Stage.Over
  }

  function StageBy(acts: seq<Action>, i: nat, k: nat, n: nat): Stage
    requires i <= |acts|
  {
    if i == 0 then Waiting else Turn(StageBy(acts, i - 1, k, n), TallyOf(acts, i - 1), acts[i - 1], k, n)
  }

  // What may come next. A task is stolen by another worker than that of its queue, which has its own number.
  predicate Due(l: Stage, y: Tally, a: Action, n: nat, par: nat) {
    match a
    case Push => y.pushed < n
    case Take(_) => l.Far?
    case PopOwn(_) => l.Near?
    case Steal(k, thief) => l.Near? && thief < par && thief != k
    case Return(_) => l.Inside?
    case Throw(_) => l.Inside?
    case Exchange(_) => l.Threw?
    case Store(_) => l.Keeping?
    case Count(_) => l.Leaving?
    case Complete(_) => l.Closing?
  }

  // ---------------------------------------------------------------- the state told by the past

  function StageOf(p: TaskPc): Stage {
    match p
    case Ready => Waiting
    case Remote(_) => Far
    case Local(_) => Near
    case Running(_, _) => Inside
    case Caught(_) => Threw
    case Storing(_) => Keeping
    case Counting(_) => Leaving
    case Last(_) => Closing
    case Finished => Stage.Over
  }

  predicate Tallied(s: State, y: Tally) {
    && s.pushed == y.pushed && s.finished == y.counted
    && (s.threadWithException == |s.tasks| <==> y.exchanged == 0)
  }

  lemma TallyStep(acts: seq<Action>, i: nat, s: State)
    requires i < |acts| && Enabled(s, acts[i]) && CallsOk(s) && SharedOk(s) && Tallied(s, TallyOf(acts, i))
    requires acts[i].Push? || TaskOk(s, acts[i].k)
    requires acts[i].Count? ==> s.finished < |s.tasks|
    ensures Tallied(Apply(s, acts[i]), TallyOf(acts, i + 1))
  {}

  lemma NotYetCounted(s: State, k: nat)
    requires SharedOk(s) && k < |s.tasks| && !Bulk.Over(s.tasks[k])
    ensures s.finished < |s.tasks|
  {
    CountOverFull(s.tasks);
  }

  lemma TallyAt(run: seq<State>, acts: seq<Action>, i: nat)
    requires IsRun(run, acts) && i < |acts| && Tallied(run[i], TallyOf(acts, i))
    ensures Tallied(run[i + 1], TallyOf(acts, i + 1))
  {
    RunInv(run, acts, i);
    StepOf(run, acts, i);
    if acts[i].Count? { NotYetCounted(run[i], acts[i].k); }
    TallyStep(acts, i, run[i]);
  }

  lemma {:induction false} TallyMeans(run: seq<State>, acts: seq<Action>, i: nat)
    requires IsRun(run, acts) && i < |run|
    ensures Tallied(run[i], TallyOf(acts, i))
  {
    if i > 0 {
      TallyMeans(run, acts, i - 1);
      TallyAt(run, acts, i - 1);
    }
  }

  lemma StageStep(s: State, a: Action, y: Tally, k: nat)
    requires Enabled(s, a) && k < |s.tasks| && Tallied(s, y)
    ensures k < |Apply(s, a).tasks|
    ensures StageOf(Apply(s, a).tasks[k]) == Turn(StageOf(s.tasks[k]), y, a, k, |s.tasks|)
  {}

  lemma TasksOf(run: seq<State>, acts: seq<Action>, i: nat)
    requires IsRun(run, acts) && i < |run|
    ensures |run[i].tasks| == |run[0].tasks| && run[i].par == run[0].par
  {
    JobStays(run, acts, i);
  }

  /** The stage of every task is the one its past gives. */
  lemma {:induction false} StageMeans(run: seq<State>, acts: seq<Action>, i: nat, k: nat)
    requires IsRun(run, acts) && i < |run| && k < |run[0].tasks|
    ensures k < |run[i].tasks| && StageOf(run[i].tasks[k]) == StageBy(acts, i, k, |run[0].tasks|)
  {
    TasksOf(run, acts, i);
    if i > 0 {
      StageMeans(run, acts, i - 1, k);
      TasksOf(run, acts, i - 1);
      TallyMeans(run, acts, i - 1);
      StepOf(run, acts, i - 1);
      StageStep(run[i - 1], acts[i - 1], TallyOf(acts, i - 1), k);
    }
  }

  /** The operation in terms of its past: an action is possible exactly if it is due. */
  lemma EnabledIff(run: seq<State>, acts: seq<Action>, i: nat, a: Action)
    requires IsRun(run, acts) && i < |run|
    ensures var n := |run[0].tasks|;
            Enabled(run[i], a) <==>
            if a.Push? then Due(Waiting, TallyOf(acts, i), a, n, run[0].par)
            else a.k < n && Due(StageBy(acts, i, a.k, n), TallyOf(acts, i), a, n, run[0].par)
  {
    TasksOf(run, acts, i);
    TallyMeans(run, acts, i);
    if !a.Push? && a.k < |run[0].tasks| {
      StageMeans(run, acts, i, a.k);
      PlaceOf(run, acts, i, a.k);
    }
    ParPositive(run, acts, i);
    DueIff(run[i], a, TallyOf(acts, i));
  }

  lemma PlaceOf(run: seq<State>, acts: seq<Action>, i: nat, k: nat)
    requires IsRun(run, acts) && i < |run| && k < |run[i].tasks|
    ensures TaskOk(run[i], k)
  {
    RunInv(run, acts, i);
  }

  lemma ParPositive(run: seq<State>, acts: seq<Action>, i: nat)
    requires IsRun(run, acts) && i < |run|
    ensures run[i].par > 0
  {
    RunInv(run, acts, i);
  }

  lemma DueIff(s: State, a: Action, y: Tally)
    requires s.par > 0 && s.pushed == y.pushed && (a.Push? || a.k >= |s.tasks| || TaskOk(s, a.k))
    ensures Enabled(s, a) <==>
            if a.Push? then Due(Waiting, y, a, |s.tasks|, s.par)
            else a.k < |s.tasks| && Due(StageOf(s.tasks[a.k]), y, a, |s.tasks|, s.par)
  {}

  // ---------------------------------------------------------------- what the history fields hold

  function Began(acts: seq<Action>, i: nat): seq<nat>
    requires i <= |acts|
  {
    if i == 0 then [] else
      Began(acts, i - 1) + if acts[i - 1].PopOwn? || acts[i - 1].Steal? then [acts[i - 1].k] else []
  }

  ghost predicate HasThrown(acts: seq<Action>, i: nat, k: nat)
    requires i <= |acts|
  {
    exists j | 0 <= j < i :: acts[j] == Throw(k)
  }

  lemma HistoryStep(s: State, a: Action, k: nat)
    requires Enabled(s, a)
    ensures Apply(s, a).callers == s.callers + if a.PopOwn? || a.Steal? then [a.k] else []
    ensures k in Apply(s, a).thrown <==> k in s.thrown || a == Throw(k)
  {}

  /** The tasks that called the function did so in the order in which they were popped or stolen, and those that
      threw are those that did. */
  lemma {:induction false} HistoryMeans(run: seq<State>, acts: seq<Action>, i: nat, k: nat)
    requires IsRun(run, acts) && i < |run|
    ensures run[i].callers == Began(acts, i)
    ensures k in run[i].thrown <==> HasThrown(acts, i, k)
  {
    if i > 0 {
      HistoryMeans(run, acts, i - 1, k);
      StepOf(run, acts, i - 1);
      HistoryStep(run[i - 1], acts[i - 1], k);
      assert HasThrown(acts, i, k) <==> HasThrown(acts, i - 1, k) || acts[i - 1] == Throw(k);
    }
  }

  lemma ExchangeStays(s: State, a: Action)
    requires Enabled(s, a)
    ensures s.threadWithException != |s.tasks| ==> Apply(s, a).threadWithException == s.threadWithException
    ensures |Apply(s, a).tasks| == |s.tasks|
  {}

  lemma FirstExchange(s: State, k: nat)
    requires Enabled(s, Exchange(k)) && TaskOk(s, k) && s.threadWithException == |s.tasks|
    ensures Apply(s, Exchange(k)).threadWithException == k
  {}

  lemma NoExchangeBefore(acts: seq<Action>, j: nat)
    requires j <= |acts| && forall m | 0 <= m < j :: !acts[m].Exchange?
    ensures TallyOf(acts, j).exchanged == 0
  {
    if j > 0 { NoExchangeBefore(acts, j - 1); }
  }

  lemma ThrowerIs(run: seq<State>, acts: seq<Action>, j: nat)
    requires IsRun(run, acts) && j < |acts| && acts[j].Exchange? && forall m | 0 <= m < j :: !acts[m].Exchange?
    ensures run[j + 1].threadWithException == acts[j].k < |run[j + 1].tasks|
  {
    StepOf(run, acts, j);
    RunInv(run, acts, j);
    NoExchangeBefore(acts, j);
    TallyMeans(run, acts, j);
    FirstExchange(run[j], acts[j].k);
  }

  lemma {:induction false} ThrowerStays(run: seq<State>, acts: seq<Action>, j: nat, i: nat)
    requires IsRun(run, acts) && j < i < |run| && run[j + 1].threadWithException < |run[j + 1].tasks|
    ensures run[i].threadWithException == run[j + 1].threadWithException < |run[i].tasks|
    decreases i
  {
    if i - 1 > j {
      ThrowerStays(run, acts, j, i - 1);
      StepOf(run, acts, i - 1);
      ExchangeStays(run[i - 1], acts[i - 1]);
    }
  }

  /** The exception that is kept, and sent at the end, is that of the first task to reach the exchange. */
  lemma FirstIsKept(run: seq<State>, acts: seq<Action>, j: nat, i: nat)
    requires IsRun(run, acts) && j < i < |run| && acts[j].Exchange? && forall m | 0 <= m < j :: !acts[m].Exchange?
    ensures run[i].exception.Some? ==> run[i].exception.value == acts[j].k
    ensures forall e | e in run[i].completions ::
              if run[i].exception.Some? then e == Error(acts[j].k) else e == Value
  {
    RunInv(run, acts, i);
    ThrowerIs(run, acts, j);
    ThrowerStays(run, acts, j, i);
  }

  // ---------------------------------------------------------------- no task is stuck

  function NextOf(s: State, k: nat): Action
    requires k < |s.tasks|
  {
    match s.tasks[k]
    case Remote(_) => Take(k)
    case Local(_) => PopOwn(k)
    case Running(_, _) => Return(k)
    case Caught(_) => Exchange(k)
    case Storing(_) => Store(k)
    case Counting(_) => Count(k)
    case Last(_) => Complete(k)
    case _ => Push
  }

  /** Every task that has not finished can take a step, or the enqueuer can push one. */
  lemma NeverStuck(run: seq<State>, acts: seq<Action>, i: nat, k: nat)
    requires IsRun(run, acts) && i < |run| && k < |run[i].tasks| && !run[i].tasks[k].Finished?
    ensures Enabled(run[i], NextOf(run[i], k)) && (NextOf(run[i], k).Push? ==> run[i].tasks[k].Ready?)
  {
    RunInv(run, acts, i);
    assert TaskOk(run[i], k);
  }
}

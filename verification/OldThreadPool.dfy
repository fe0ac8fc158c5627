/**
 The older, mutex-based thread pool: a queue for each worker, workers that probe all the queues before they
 block on their own, and a stop flag for each queue.

 Any number of threads push and request stop while the workers run. A critical section of a queue's mutex
 is one step; `try_to_lock` may fail at any time, and a wait may end without a notification.
 */
module OldThreadPool {
  import opened Options
  import opened Basics

  type Task = nat

  const WRAP: nat := 0x1_0000_0000

  // ---------------------------------------------------------------- what a queue's mutex guards

  datatype Queue = Queue(tasks: seq<Task>, stop: bool) {
    function Pushed(t: Task): Queue { this.(tasks := tasks + [t]) }

    function Popped(): (Queue, Option<Task>) {
      if tasks == [] then (this, None) else (this.(tasks := tasks[1..]), Some(tasks[0]))
    }

    function Stopped(): Queue { this.(stop := true) }
  }

  // `++queueIndex %= threadCount_`
  function Succ(q: nat, n: nat): (r: nat)
    requires q < n
    ensures r == Ring(q + 1, n)
  {
    ModIsRing(q + 1, n);
    (q + 1) % n
  }

  // ---------------------------------------------------------------- the steps

  // `Probing(q, visited)`: about to try queue `q`, having tried `visited` in this round.
  datatype Worker =
    | Probing(q: nat, visited: seq<nat>)
    | Popping
    | Waiting(signalled: bool)
    | Executing(t: Task)
    | Exited

  // `pushed`, `executed` and `late` are history; `late` is the queues pushed to after their stop flag was set.
  datatype State = State(queues: seq<Queue>, workers: seq<Worker>,
    pushed: multiset<Task>, executed: multiset<Task>, late: set<nat>)

  datatype Action =
    | Push(q: nat, t: Task) | StopAt(q: nat)
    | Probe(w: nat, locked: bool) | Pop(w: nat) | Wake(w: nat) | Finish(w: nat)

  predicate Enabled(s: State, a: Action)
    requires |s.queues| == |s.workers|
  {
    match a
    case Push(q, _) => q < |s.queues|
    case StopAt(q) => q < |s.queues|
    case Probe(w, _) => w < |s.workers| && s.workers[w].Probing? && s.workers[w].q < |s.queues|
    case Pop(w) => w < |s.workers| && s.workers[w].Popping?
    case Wake(w) => w < |s.workers| && s.workers[w].Waiting?
    case Finish(w) => w < |s.workers| && s.workers[w].Executing?
  }

  // `notify_one` on the condition variable of a queue, on which only its own worker waits.
  function Notified(w: Worker): Worker { if w.Waiting? then Waiting(true) else w }

  function Apply(s: State, a: Action): State
    requires |s.queues| == |s.workers| && Enabled(s, a)
  {
    match a
    case Push(q, t) =>
      s.(queues := s.queues[q := s.queues[q].Pushed(t)],
         workers := if s.queues[q].tasks == [] then s.workers[q := Notified(s.workers[q])] else s.workers,
         pushed := s.pushed + multiset{t},
         late := if s.queues[q].stop then s.late + {q} else s.late)
    case StopAt(q) => s.(queues := s.queues[q := s.queues[q].Stopped()],
         workers := s.workers[q := Notified(s.workers[q])])
    case Probe(w, locked) =>
      var q := s.workers[w].q;
      var (queue, task) := if locked then s.queues[q].Popped() else (s.queues[q], None);
      var next := Succ(q, |s.queues|);
      s.(queues := s.queues[q := queue],
         workers := s.workers[w := match task
                                   case Some(t) => Executing(t)
                                   case None => if next != w then Probing(next, s.workers[w].visited + [q])
                                                else Popping])
    case Pop(w) =>
      var (queue, task) := s.queues[w].Popped();
      s.(queues := s.queues[w := queue],
         workers := s.workers[w := match task
                                   case Some(t) => Executing(t)
                                   case None => if s.queues[w].stop then Exited else Waiting(false)])
    case Wake(w) => s.(workers := s.workers[w := Popping])
    case Finish(w) => s.(workers := s.workers[w := Probing(w, [])], executed := s.executed + multiset{s.workers[w].t})
  }

  predicate Init(s: State) {
    && |s.queues| == |s.workers| > 0
    && (forall w | 0 <= w < |s.workers| :: s.queues[w] == Queue([], false) && s.workers[w] == Probing(w, []))
    && s.pushed == multiset{} && s.executed == multiset{} && s.late == {}
  }

  // ---------------------------------------------------------------- the invariant

  function Queued(qs: seq<Queue>): multiset<Task> {
    if qs == [] then multiset{} else multiset(qs[0].tasks) + Queued(qs[1..])
  }

  function Held(w: Worker): multiset<Task> { if w.Executing? then multiset{w.t} else multiset{} }

  function InHand(ws: seq<Worker>): multiset<Task> {
    if ws == [] then multiset{} else Held(ws[0]) + InHand(ws[1..])
  }

  // How often `t` is queued, and in hand.
  function TimesQueued(qs: seq<Queue>, t: Task): nat {
    if qs == [] then 0 else multiset(qs[0].tasks)[t] + TimesQueued(qs[1..], t)
  }

  function TimesHeld(w: Worker, t: Task): nat { if w.Executing? && w.t == t then 1 else 0 }

  function TimesInHand(ws: seq<Worker>, t: Task): nat {
    if ws == [] then 0 else TimesHeld(ws[0], t) + TimesInHand(ws[1..], t)
  }

  lemma {:induction false} QueuedCounts(qs: seq<Queue>, t: Task)
    ensures Queued(qs)[t] == TimesQueued(qs, t)
  {
    if qs != [] { QueuedCounts(qs[1..], t); }
  }

  lemma {:induction false} InHandCounts(ws: seq<Worker>, t: Task)
    ensures InHand(ws)[t] == TimesInHand(ws, t)
  {
    if ws != [] {
      InHandCounts(ws[1..], t);
      assert Held(ws[0])[t] == TimesHeld(ws[0], t);
    }
  }

  lemma {:induction false} TimesQueuedUpdate(qs: seq<Queue>, i: nat, q: Queue, t: Task)
    requires i < |qs|
    ensures TimesQueued(qs[i := q], t) + multiset(qs[i].tasks)[t] == TimesQueued(qs, t) + multiset(q.tasks)[t]
  {
    if i == 0 {
      assert qs[i := q][1..] == qs[1..];
    } else {
      assert qs[i := q][1..] == qs[1..][i - 1 := q];
      TimesQueuedUpdate(qs[1..], i - 1, q, t);
    }
  }

  lemma {:induction false} TimesInHandUpdate(ws: seq<Worker>, i: nat, w: Worker, t: Task)
    requires i < |ws|
    ensures TimesInHand(ws[i := w], t) + TimesHeld(ws[i], t) == TimesInHand(ws, t) + TimesHeld(w, t)
  {
    if i == 0 {
      assert ws[i := w][1..] == ws[1..];
    } else {
      assert ws[i := w][1..] == ws[1..][i - 1 := w];
      TimesInHandUpdate(ws[1..], i - 1, w, t);
    }
  }

  lemma QueuedUpdate(qs: seq<Queue>, i: nat, q: Queue, t: Task)
    requires i < |qs|
    ensures Queued(qs[i := q])[t] + multiset(qs[i].tasks)[t] == Queued(qs)[t] + multiset(q.tasks)[t]
  {
    QueuedCounts(qs, t);
    QueuedCounts(qs[i := q], t);
    TimesQueuedUpdate(qs, i, q, t);
  }

  lemma InHandUpdate(ws: seq<Worker>, i: nat, w: Worker, t: Task)
    requires i < |ws|
    ensures InHand(ws[i := w])[t] + Held(ws[i])[t] == InHand(ws)[t] + Held(w)[t]
  {
    InHandCounts(ws, t);
    InHandCounts(ws[i := w], t);
    TimesInHandUpdate(ws, i, w, t);
  }

  // The round of worker `w` starts at its own queue and goes on in order.
  predicate RoundOk(n: nat, w: nat, q: nat, visited: seq<nat>)
    requires w < n
  {
    && |visited| < n
    && q == Ring(w + |visited|, n)
    && forall i | 0 <= i < |visited| :: visited[i] == Ring(w + i, n)
  }

  // What a worker that waits or has left says about its own queue.
  predicate WorkerOk(s: State, w: nat)
    requires w < |s.queues| == |s.workers|
  {
    match s.workers[w]
    case Probing(q, visited) => RoundOk(|s.queues|, w, q, visited)
    case Waiting(signalled) => signalled || s.queues[w] == Queue([], false)
    case Exited => s.queues[w].stop && (s.queues[w].tasks == [] || w in s.late)
    case _ => true
  }

  predicate Balance(s: State, t: Task) { s.pushed[t] == s.executed[t] + InHand(s.workers)[t] + Queued(s.queues)[t] }

  ghost predicate Inv(s: State) {
    && |s.queues| == |s.workers| > 0
    && (forall t :: Balance(s, t))
    && forall w: nat | w < |s.workers| :: WorkerOk(s, w)
  }

  lemma TakesFirst(q: Queue, t: Task)
    ensures var (rest, task) := q.Popped();
            multiset(q.tasks)[t] == multiset(rest.tasks)[t] + if task == Some(t) then 1 else 0
  {
    if q.tasks != [] { assert q.tasks == [q.tasks[0]] + q.tasks[1..]; }
  }

  // The queue and the worker that a step may change.
  function QueueOf(s: State, a: Action): nat
    requires |s.queues| == |s.workers| && Enabled(s, a)
  {
    match a
    case Push(q, _) => q
    case StopAt(q) => q
    case Probe(w, _) => s.workers[w].q
    case Pop(w) => w
    case Wake(w) => w
    case Finish(w) => w
  }

  function WorkerOf(a: Action): nat {
    match a
    case Push(q, _) => q
    case StopAt(q) => q
    case Probe(w, _) => w
    case Pop(w) => w
    case Wake(w) => w
    case Finish(w) => w
  }

  lemma OnlyThose(s: State, a: Action)
    requires |s.queues| == |s.workers| && Enabled(s, a)
    ensures var s' := Apply(s, a); var (q, w) := (QueueOf(s, a), WorkerOf(a));
            s'.queues == s.queues[q := s'.queues[q]] && s'.workers == s.workers[w := s'.workers[w]]
  {
  }

  function One(x: Task, t: Task): nat { if x == t then 1 else 0 }

  lemma AddsLast(l: seq<Task>, x: Task, t: Task)
    ensures multiset(l + [x])[t] == multiset(l)[t] + One(x, t)
  {}

  // What a step takes from a queue, a worker or the outside it gives to another of these.
  ghost predicate Moved(s: State, s': State, q: nat, w: nat, t: Task)
    requires q < |s.queues| == |s'.queues| && w < |s.workers| == |s'.workers|
  {
    multiset(s'.queues[q].tasks)[t] + Held(s'.workers[w])[t] + s'.executed[t] + s.pushed[t]
    == multiset(s.queues[q].tasks)[t] + Held(s.workers[w])[t] + s.executed[t] + s'.pushed[t]
  }

  lemma PushMoves(s: State, q: nat, x: Task, t: Task)
    requires |s.queues| == |s.workers| && Enabled(s, Push(q, x))
    ensures Moved(s, Apply(s, Push(q, x)), q, q, t)
  {
    AddsLast(s.queues[q].tasks, x, t);
    assert (s.pushed + multiset{x})[t] == s.pushed[t] + One(x, t);
  }

  lemma ProbeMoves(s: State, w: nat, locked: bool, t: Task)
    requires |s.queues| == |s.workers| && Enabled(s, Probe(w, locked))
    ensures Moved(s, Apply(s, Probe(w, locked)), s.workers[w].q, w, t)
  {
    TakesFirst(s.queues[s.workers[w].q], t);
  }

  lemma PopMoves(s: State, w: nat, t: Task)
    requires |s.queues| == |s.workers| && Enabled(s, Pop(w))
    ensures Moved(s, Apply(s, Pop(w)), w, w, t)
  {
    TakesFirst(s.queues[w], t);
  }

  lemma FinishMoves(s: State, w: nat, t: Task)
    requires |s.queues| == |s.workers| && Enabled(s, Finish(w))
    ensures Moved(s, Apply(s, Finish(w)), w, w, t)
  {
    assert (s.executed + multiset{s.workers[w].t})[t] == s.executed[t] + One(s.workers[w].t, t);
  }

  lemma BalanceStep(s: State, a: Action, t: Task)
    requires |s.queues| == |s.workers| && Enabled(s, a) && Balance(s, t)
    ensures Balance(Apply(s, a), t)
  {
    var s' := Apply(s, a);
    var (q, w) := (QueueOf(s, a), WorkerOf(a));
    OnlyThose(s, a);
    QueuedUpdate(s.queues, q, s'.queues[q], t);
    InHandUpdate(s.workers, w, s'.workers[w], t);
    match a
    case Push(_, x) => PushMoves(s, q, x, t);
    case Probe(_, locked) => ProbeMoves(s, w, locked, t);
    case Pop(_) => PopMoves(s, w, t);
    case Finish(_) => FinishMoves(s, w, t);
    case _ =>
  }

  lemma NextInRound(n: nat, w: nat, q: nat, visited: seq<nat>)
    requires w < n && RoundOk(n, w, q, visited)
    ensures Succ(q, n) == w <==> |visited| + 1 == n
    ensures Succ(q, n) != w ==> RoundOk(n, w, Succ(q, n), visited + [q])
  {
  }

  lemma WorkerStep(s: State, a: Action, w: nat)
    requires |s.queues| == |s.workers| && Enabled(s, a) && w < |s.workers| && WorkerOk(s, w)
    ensures WorkerOk(Apply(s, a), w)
  {
    OnlyThose(s, a);
    var n := |s.queues|;
    if a.Probe? && a.w == w {
      NextInRound(n, w, s.workers[w].q, s.workers[w].visited);
    }
  }

  lemma StepInv(s: State, a: Action)
    requires Inv(s) && Enabled(s, a)
    ensures Inv(Apply(s, a))
  {
    forall t ensures Balance(Apply(s, a), t) {
      assert Balance(s, t);
      BalanceStep(s, a, t);
    }
    forall w: nat | w < |s.workers| ensures WorkerOk(Apply(s, a), w) { WorkerStep(s, a, w); }
  }

  lemma {:induction false} NothingYet(qs: seq<Queue>, ws: seq<Worker>)
    requires (forall i | 0 <= i < |qs| :: qs[i].tasks == []) && forall i | 0 <= i < |ws| :: !ws[i].Executing?
    ensures Queued(qs) == multiset{} && InHand(ws) == multiset{}
    decreases |qs| + |ws|
  {
    if qs != [] { NothingYet(qs[1..], ws); }
    if ws != [] { NothingYet(qs, ws[1..]); }
  }

  lemma InitInv(s: State)
    requires Init(s)
    ensures Inv(s)
  {
    NothingYet(s.queues, s.workers);
    assert forall w: nat | w < |s.workers| :: WorkerOk(s, w);
  }

  /** Any interleaving. */
  ghost predicate IsRun(run: seq<State>, acts: seq<Action>) {
    && |run| == |acts| + 1 && Init(run[0])
    && forall i | 0 <= i < |acts| ::
         |run[i].queues| == |run[i].workers| && Enabled(run[i], acts[i]) && run[i + 1] == Apply(run[i], acts[i])
  }

  lemma {:induction false} RunInv(run: seq<State>, acts: seq<Action>, i: nat)
    requires IsRun(run, acts) && i < |run|
    ensures Inv(run[i])
  {
    if i == 0 {
      InitInv(run[0]);
    } else {
      RunInv(run, acts, i - 1);
      StepInv(run[i - 1], acts[i - 1]);
    }
  }

  // ---------------------------------------------------------------- what holds over whole runs

  /** Every task pushed has been executed, is being executed or is queued: nothing is lost or doubled. */
  lemma Conservation(run: seq<State>, acts: seq<Action>, i: nat)
    requires IsRun(run, acts) && i < |run|
    ensures run[i].pushed == run[i].executed + InHand(run[i].workers) + Queued(run[i].queues)
  {
    RunInv(run, acts, i);
    var s := run[i];
    forall t: Task ensures s.pushed[t] == (s.executed + InHand(s.workers) + Queued(s.queues))[t]
      { assert Balance(s, t); }
  }

  /** When all workers have returned, a queue still holds a task only if it was pushed to after its stop
      flag was set; without such a push, everything pushed was executed, exactly as often as pushed. */
  lemma NothingLeftBehind(run: seq<State>, acts: seq<Action>, i: nat)
    requires IsRun(run, acts) && i < |run|
    requires AllExited(run[i].workers)
    ensures forall q | 0 <= q < |run[i].queues| && run[i].queues[q].tasks != [] :: q in run[i].late
    ensures run[i].late == {} ==> run[i].executed == run[i].pushed
  {
    RunInv(run, acts, i);
    var s := run[i];
    forall q | 0 <= q < |s.queues| && s.queues[q].tasks != [] ensures q in s.late { assert WorkerOk(s, q); }
    if s.late == {} {
      NothingYet(s.queues, s.workers);
      Conservation(run, acts, i);
    }
  }

  /** The condition is needed: a pool of one worker that has returned accepts a task and never runs it. */
  lemma LatePushIsLost() returns (run: seq<State>, acts: seq<Action>)
    ensures IsRun(run, acts) && run[|acts|].late == {0}
    ensures run[|acts|].workers == [Exited] && run[|acts|].pushed == multiset{7} && run[|acts|].executed == multiset{}
  {
    var s0 := State([Queue([], false)], [Probing(0, [])], multiset{}, multiset{}, {});
    var s1 := Apply(s0, Probe(0, true));
    var s2 := Apply(s1, StopAt(0));
    var s3 := Apply(s2, Pop(0));
    var s4 := Apply(s3, Push(0, 7));
    run, acts := [s0, s1, s2, s3, s4], [Probe(0, true), StopAt(0), Pop(0), Push(0, 7)];
  }

  ghost predicate AllExited(ws: seq<Worker>) { forall w | 0 <= w < |ws| :: ws[w].Exited? }

  lemma ExitedStep(s: State, a: Action)
    requires |s.queues| == |s.workers| && Enabled(s, a) && AllExited(s.workers)
    ensures var s' := Apply(s, a); s'.workers == s.workers && s'.executed == s.executed && s.pushed <= s'.pushed
  {
  }

  lemma {:induction false} NothingMoves(run: seq<State>, acts: seq<Action>, i: nat, k: nat)
    requires IsRun(run, acts) && i <= k < |run| && AllExited(run[i].workers)
    ensures run[k].workers == run[i].workers && run[k].executed == run[i].executed && run[i].pushed <= run[k].pushed
  {
    if i < k {
      NothingMoves(run, acts, i, k - 1);
      ExitedStep(run[k - 1], acts[k - 1]);
    }
  }

  /** It is needed in general: whatever is pushed once all workers have returned stays in its queue. */
  lemma LaterIsLost(run: seq<State>, acts: seq<Action>, i: nat, k: nat)
    requires IsRun(run, acts) && i <= k < |run| && AllExited(run[i].workers)
    ensures run[k].executed == run[i].executed
    ensures run[k].pushed - run[i].pushed <= Queued(run[k].queues)
  {
    NothingMoves(run, acts, i, k);
    NobodyHolds(run[i].workers);
    RunInv(run, acts, i);
    RunInv(run, acts, k);
    forall t: Task ensures (run[k].pushed - run[i].pushed)[t] <= Queued(run[k].queues)[t] {
      assert Balance(run[i], t) && Balance(run[k], t);
    }
  }

  lemma {:induction false} NobodyHolds(ws: seq<Worker>)
    requires AllExited(ws)
    ensures InHand(ws) == multiset{}
  {
    if ws != [] { NobodyHolds(ws[1..]); }
  }

  /** A round of probes tries no queue twice, and a worker blocks only after it has tried all of them. */
  lemma ProbesOnce(run: seq<State>, acts: seq<Action>, i: nat, w: nat)
    requires IsRun(run, acts) && i < |run| && w < |run[i].workers| && run[i].workers[w].Probing?
    ensures var tried := run[i].workers[w].visited + [run[i].workers[w].q];
            && (forall j, k | 0 <= j < k < |tried| :: tried[j] != tried[k])
            && (i < |acts| && acts[i].Probe? && acts[i].w == w && run[i + 1].workers[w].Popping? ==>
                  |tried| == |run[i].queues|)
  {
    RunInv(run, acts, i);
    var s := run[i];
    assert WorkerOk(s, w);
    var n := |s.queues|;
    NextInRound(n, w, s.workers[w].q, s.workers[w].visited);
    var tried := s.workers[w].visited + [s.workers[w].q];
  }

  /** No lost wakeup: a worker waits without a notification on its way only while its queue is empty and
      its stop flag is clear. */
  lemma NoLostWakeup(run: seq<State>, acts: seq<Action>, i: nat, w: nat)
    requires IsRun(run, acts) && i < |run| && w < |run[i].workers| && run[i].workers[w] == Waiting(false)
    ensures |run[i].queues| == |run[i].workers| && run[i].queues[w] == Queue([], false)
  {
    RunInv(run, acts, i);
    assert WorkerOk(run[i], w);
  }

  // ---------------------------------------------------------------- where `enqueue` looks

  // `startIndex + i`, less `threadCount` when it reaches that, in 32 bits.
  function Index(start: nat, i: nat, n: nat): (r: nat)
    requires start < n < WRAP && i < n
    ensures r < n
  {
    var sum := (start + i) % WRAP;
    if sum < n then sum else sum - n
  }

  /** The probe goes round the queues in order exactly as long as the sum does not wrap, which no pool of
      up to half of 2^32 threads can make it do. */
  lemma IndexIff(start: nat, i: nat, n: nat)
    requires start < n < WRAP && i < n
    ensures Index(start, i, n) == (start + i) % n <==> start + i < WRAP
    ensures n <= WRAP / 2 ==> start + i < WRAP
  {
    ModIsRing(start + i, n);
    ModIsRing(start + i, WRAP);
  }

  // ---------------------------------------------------------------- in place

  class Pool {
    var queues: seq<Queue>
    var nextThread: nat

    ghost predicate Valid()
      reads this
    {
      0 < |queues| < WRAP && nextThread < WRAP
    }

    constructor (n: nat)
      requires 0 < n < WRAP
      ensures Valid() && |queues| == n && forall q | 0 <= q < n :: queues[q] == Queue([], false)
    {
      queues, nextThread := seq(n, i => Queue([], false)), 0;
    }

    // `enqueue`: the task goes to the first queue on the way whose mutex is not `busy`, or to the first of
    // all if every one is.
    method Enqueue(t: Task, busy: seq<bool>) returns (q: nat, failed: nat)
      requires Valid() && |busy| == |queues|
      modifies this
      ensures Valid() && q < |queues| == old(|queues|)
      ensures queues == old(queues)[q := old(queues)[q].Pushed(t)]
      ensures nextThread == (old(nextThread) + 1) % WRAP
      ensures failed <= |queues| && forall j: nat | j < failed :: busy[Index(old(nextThread) % |queues|, j, |queues|)]
      ensures q == if failed == |queues| then old(nextThread) % |queues|
                else Index(old(nextThread) % |queues|, failed, |queues|)
      ensures failed < |queues| ==> !busy[q]
    {
      var start := nextThread % |queues|;
      nextThread := (nextThread + 1) % WRAP;
      failed := 0;
      while failed < |queues|
        invariant failed <= |queues| && queues == old(queues)
        invariant forall j: nat | j < failed :: busy[Index(start, j, |queues|)]
      {
        q := Index(start, failed, |queues|);
        if !busy[q] {
          queues := queues[q := queues[q].Pushed(t)];
          return;
        }
        failed := failed + 1;
      }
      q := start;
      queues := queues[q := queues[q].Pushed(t)];
    }

    // `bulk_enqueue`: task `i` of the array goes to queue `i` modulo the number of threads.
    method BulkEnqueue(tasks: seq<Task>)
      requires Valid()
      modifies this`queues
      ensures Valid() && queues == Spread(old(queues), tasks)
    {
      for i := 0 to |tasks|
        invariant Valid() && |queues| == old(|queues|) && queues == Spread(old(queues), tasks[..i])
      {
        var q := QueueFor(i, |queues|);
        queues := queues[q := queues[q].Pushed(tasks[i])];
        assert tasks[..i + 1][..i] == tasks[..i];
      }
      assert tasks[..|tasks|] == tasks;
    }

    // The probe loop of `run` for worker `w`; `busy` says whose mutex the try-lock does not get.
    method ProbeRound(w: nat, busy: seq<bool>) returns (task: Option<Task>, q: nat)
      requires Valid() && w < |queues| == |busy|
      modifies this`queues
      ensures Valid() && |queues| == old(|queues|) && q < |queues|
      ensures task == None ==>
                queues == old(queues) && q == w && forall k: nat | k < |queues| :: Fruitless(queues, busy, k)
      ensures task.Some? ==> !busy[q] && old(queues)[q].tasks != [] && task == old(queues)[q].Popped().1
      ensures task.Some? ==> queues == old(queues)[q := old(queues)[q].Popped().0]
    {
      var n := |queues|;
      task, q := None, w;
      ghost var visited: seq<nat> := [];
      while true
        invariant queues == old(queues) && task == None && q < n
        invariant RoundOk(n, w, q, visited)
        invariant forall i | 0 <= i < |visited| :: Fruitless(queues, busy, visited[i])
        decreases n - |visited|
      {
        if !busy[q] {
          task := queues[q].Popped().1;
          queues := queues[q := queues[q].Popped().0];
        }
        if task.Some? {
          return;
        }
        assert queues == old(queues);
        NextInRound(n, w, q, visited);
        visited, q := visited + [q], Succ(q, n);
        if q == w {
          AllVisited(queues, busy, w, visited);
          return;
        }
      }
    }
  }

  // A try that gets nothing.
  predicate Fruitless(qs: seq<Queue>, busy: seq<bool>, k: nat) {
    k < |qs| && k < |busy| && (busy[k] || qs[k].tasks == [])
  }

  lemma AllVisited(qs: seq<Queue>, busy: seq<bool>, w: nat, visited: seq<nat>)
    requires w < |qs| == |visited| && forall i | 0 <= i < |qs| :: visited[i] == Ring(w + i, |qs|)
    requires forall i | 0 <= i < |visited| :: Fruitless(qs, busy, visited[i])
    ensures forall k: nat | k < |qs| :: Fruitless(qs, busy, k)
  {
    forall k: nat | k < |qs| ensures Fruitless(qs, busy, k) {
      var i := if k >= w then k - w else k - w + |qs|;
      assert visited[i] == k;
    }
  }

  // Tasks pushed round the queues, starting from the first.
  function Spread(qs: seq<Queue>, tasks: seq<Task>): (r: seq<Queue>)
    requires qs != []
    ensures |r| == |qs|
    decreases |tasks|
  {
    if tasks == [] then qs else
      var before := Spread(qs, tasks[..|tasks| - 1]);
      var q := QueueFor(|tasks| - 1, |qs|);
      before[q := before[q].Pushed(tasks[|tasks| - 1])]
  }

  lemma PushKeeps(before: seq<Queue>, q: nat, x: Task, t: Task)
    requires q < |before|
    ensures Queued(before[q := before[q].Pushed(x)])[t] == Queued(before)[t] + One(x, t)
  {
    QueuedUpdate(before, q, before[q].Pushed(x), t);
    AddsLast(before[q].tasks, x, t);
  }

  // `Spread` one task at a time.
  lemma SpreadLast(qs: seq<Queue>, init: seq<Task>, x: Task, t: Task)
    requires qs != []
    ensures Queued(Spread(qs, init + [x]))[t] == Queued(Spread(qs, init))[t] + One(x, t)
  {
    assert (init + [x])[..|init|] == init;
    PushKeeps(Spread(qs, init), QueueFor(|init|, |qs|), x, t);
  }

  lemma {:induction false} SpreadKeeps(qs: seq<Queue>, tasks: seq<Task>, t: Task)
    requires qs != []
    ensures Queued(Spread(qs, tasks))[t] == Queued(qs)[t] + multiset(tasks)[t]
    decreases |tasks|
  {
    if tasks != [] {
      var init, x := tasks[..|tasks| - 1], tasks[|tasks| - 1];
      assert tasks == init + [x];
      SpreadKeeps(qs, init, t);
      SpreadLast(qs, init, x, t);
      AddsLast(init, x, t);
    }
  }

  lemma {:induction false} SpreadPlaces(qs: seq<Queue>, tasks: seq<Task>, i: nat)
    requires qs != [] && i < |tasks|
    ensures tasks[i] in Spread(qs, tasks)[QueueFor(i, |qs|)].tasks
    decreases |tasks|
  {
    if i < |tasks| - 1 { SpreadPlaces(qs, tasks[..|tasks| - 1], i); }
  }

  /** Task `i` ends up in queue `i` modulo the number of queues, and none is lost or doubled. */
  lemma SpreadMeans(qs: seq<Queue>, tasks: seq<Task>)
    requires qs != []
    ensures Queued(Spread(qs, tasks)) == Queued(qs) + multiset(tasks)
    ensures forall i: nat | i < |tasks| :: tasks[i] in Spread(qs, tasks)[QueueFor(i, |qs|)].tasks
  {
    forall t: Task ensures Queued(Spread(qs, tasks))[t] == (Queued(qs) + multiset(tasks))[t]
      { SpreadKeeps(qs, tasks, t); }
    forall i: nat | i < |tasks| ensures tasks[i] in Spread(qs, tasks)[QueueFor(i, |qs|)].tasks
      { SpreadPlaces(qs, tasks, i); }
  }
}

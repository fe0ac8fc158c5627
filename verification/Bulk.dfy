/**
 Parallel `bulk` on `static_thread_pool`: `n` agents are pushed one to a queue, taken or stolen by any
 worker in any order, and the last one to finish completes the operation.

 A task is given the index of the queue it was found in as its rank, not the index of the worker that
 runs it; everything below rests on those being the index of the queue it was pushed to.
 */
module Bulk {
  import opened Options
  import opened Basics
  import opened EvenShare

  // ---------------------------------------------------------------- how many agents

  // `Shape` is any integral type: `half` is one more than the largest value of a signed type, `modulus`
  // that of an unsigned one.
  datatype ShapeType = Signed(half: nat) | Unsigned(modulus: nat) {
    predicate Valid() {
      match this
      case Signed(half) => half in {0x80, 0x8000, 0x8000_0000, 0x8000_0000_0000_0000}
      case Unsigned(modulus) => modulus in {0x100, 0x1_0000, 0x1_0000_0000, 0x1_0000_0000_0000_0000}
    }

    predicate Holds(x: int) {
      match this
      case Signed(half) => 0 <= x + half && x < half
      case Unsigned(modulus) => 0 <= x < modulus
    }

    // `static_cast<Shape>` of an unsigned value
    function Convert(x: nat): int
      requires Valid()
    {
      match this
      case Signed(half) => (x + half) % (2 * half) - half
      case Unsigned(modulus) => x % modulus
    }
  }

  // How many values a type has.
  function Width(ty: ShapeType): nat { if ty.Signed? then 2 * ty.half else ty.modulus }

  /** The conversion is the one that keeps the value modulo the width of the type, and lands in its range. */
  lemma ConvertMeans(ty: ShapeType, x: nat, y: int)
    requires ty.Valid()
    ensures y == ty.Convert(x) <==> ty.Holds(y) && (x - y) % Width(ty) == 0
  {
    match ty
    case Signed(half) =>
      Congruent(x + half, 2 * half, y + half);
      assert x + half - (y + half) == x - y;
    case Unsigned(modulus) => Congruent(x, modulus, y);
  }

  lemma Congruent(x: nat, n: nat, r: int)
    requires n > 0
    ensures r == x % n <==> 0 <= r < n && (x - r) % n == 0
  {
    if r == x % n {
      Remainder(x - r, x / n, 0, n);
    } else if 0 <= r < n && (x - r) % n == 0 {
      var q := (x - r) / n;
      assert x == q * n + r;
      Remainder(x, q, r, n);
    }
  }

  const WRAP: nat := 0x1_0000_0000

  function Min(a: int, b: int): int { if a < b then a else b }

  // `num_agents_required()` when `parallelize`.
  function NumAgents(ty: ShapeType, shape: nat, par: nat): nat
    requires ty.Valid()
  {
    Min(shape, ty.Convert(par)) % WRAP
  }

  /** The number of agents is the minimum of shape and parallelism exactly when the thread count survives
      its conversion to `Shape`, or what it turns into is at least the shape anyway. */
  lemma NumAgentsIff(ty: ShapeType, shape: nat, par: nat)
    requires ty.Valid() && ty.Holds(shape) && 0 < par < WRAP
    ensures NumAgents(ty, shape, par) == Min(shape, par) <==> ty.Holds(par) || shape <= ty.Convert(par)
  {
    match ty
    case Signed(half) => SignedAgents(half, shape, par);
    case Unsigned(modulus) => UnsignedAgents(modulus, shape, par);
  }

  lemma SignedAgents(half: nat, shape: nat, par: nat)
    requires Signed(half).Valid() && shape < half && 0 < par < WRAP
    ensures NumAgents(Signed(half), shape, par) == Min(shape, par) <==> par < half || shape <= Signed(half).Convert(par)
  {}

  lemma UnsignedAgents(modulus: nat, shape: nat, par: nat)
    requires Unsigned(modulus).Valid() && shape < modulus && 0 < par < WRAP
    ensures NumAgents(Unsigned(modulus), shape, par) == Min(shape, par) <==> par < modulus || shape <= par % modulus
  {}

  /** A non-empty shape gets at least one agent and at most one for each thread exactly when the converted
      thread count is positive, or is negative and comes out as the count itself in 32 bits. */
  lemma UsableIff(ty: ShapeType, shape: nat, par: nat)
    requires ty.Valid() && ty.Holds(shape) && 0 < par < WRAP && shape > 0
    ensures 0 < NumAgents(ty, shape, par) <= par <==> ty.Convert(par) > 0 || par == WRAP + ty.Convert(par)
  {
    match ty
    case Signed(half) => SignedUsable(half, shape, par);
    case Unsigned(modulus) => UnsignedUsable(modulus, shape, par);
  }

  lemma SignedUsable(half: nat, shape: nat, par: nat)
    requires Signed(half).Valid() && 0 < shape < half && 0 < par < WRAP
    ensures 0 < NumAgents(Signed(half), shape, par) <= par <==>
            Signed(half).Convert(par) > 0 || par == WRAP + Signed(half).Convert(par)
  {}

  lemma UnsignedUsable(modulus: nat, shape: nat, par: nat)
    requires Unsigned(modulus).Valid() && 0 < shape < modulus && 0 < par < WRAP
    ensures 0 < NumAgents(Unsigned(modulus), shape, par) <= par <==> par % modulus > 0
  {}

  /** A pool of 200 threads and an 8-bit shape: the cast makes the count -56, which is this in 32 bits. */
  lemma NumAgentsWrong()
    ensures NumAgents(Signed(0x80), 100, 200) == 4294967240
  {}

  /** A pool of 256 threads and an unsigned 8-bit shape: the cast makes the count zero. */
  lemma NumAgentsZero()
    ensures NumAgents(Unsigned(0x100), 5, 256) == 0
  {}

  // ---------------------------------------------------------------- the steps

  datatype TaskPc =
    | Ready
    | Remote(q: nat) | Local(q: nat)               // in a queue of worker `q`
    | Running(rank: nat, worker: nat)
    | Caught(rank: nat) | Storing(rank: nat)       // in the catch block, before and after the exchange
    | Counting(rank: nat)                          // before `finished_threads_.fetch_add`
    | Last(rank: nat)                              // it was the last
    | Finished

  datatype Completion = Value | Error(from: nat)

  // `calls` is the ranks handed to the function, in call order; `callers`, the tasks that made those calls, and
  // `thrown`, the tasks whose call threw, are history.
  datatype State = State(
    ty: ShapeType, shape: nat, par: nat, tasks: seq<TaskPc>, pushed: nat,
    finished: nat, threadWithException: nat, exception: Option<nat>,
    calls: seq<nat>, callers: seq<nat>, thrown: set<nat>, completions: seq<Completion>)

  datatype Action =
    | Push | Take(k: nat) | PopOwn(k: nat) | Steal(k: nat, thief: nat)
    | Return(k: nat) | Throw(k: nat) | Exchange(k: nat) | Store(k: nat) | Count(k: nat) | Complete(k: nat)

  predicate Enabled(s: State, a: Action) {
    if a.Push? then s.pushed < |s.tasks| && s.par > 0 else
    a.k < |s.tasks| &&
    match a
    case Take(k) => s.tasks[k].Remote?
    case PopOwn(k) => s.tasks[k].Local?
    case Steal(k, thief) => s.tasks[k].Local? && thief < s.par && thief != s.tasks[k].q
    case Return(k) => s.tasks[k].Running?
    case Throw(k) => s.tasks[k].Running?
    case Exchange(k) => s.tasks[k].Caught?
    case Store(k) => s.tasks[k].Storing?
    case Count(k) => s.tasks[k].Counting?
    case Complete(k) => s.tasks[k].Last?
  }

  function Put(s: State, k: nat, p: TaskPc): State
    requires k < |s.tasks|
  {
    s.(tasks := s.tasks[k := p])
  }

  // `worker` runs task `k` with the index of the queue it was in.
  function Run(s: State, k: nat, worker: nat): State
    requires k < |s.tasks| && s.tasks[k].Local?
  {
    var rank := s.tasks[k].q;
    Put(s, k, Running(rank, worker)).(calls := s.calls + [rank], callers := s.callers + [k])
  }

  function Apply(s: State, a: Action): State
    requires Enabled(s, a)
  {
    match a
    case Push => Put(s, s.pushed, Remote(QueueFor(s.pushed, s.par))).(pushed := s.pushed + 1)
    case Take(k) => Put(s, k, Local(s.tasks[k].q))
    case PopOwn(k) => Run(s, k, s.tasks[k].q)
    case Steal(k, thief) => Run(s, k, thief)
    case Return(k) => Put(s, k, Counting(s.tasks[k].rank))
    case Throw(k) => Put(s, k, Caught(s.tasks[k].rank)).(thrown := s.thrown + {k})
    case Exchange(k) =>
      var r := s.tasks[k].rank;
      if s.threadWithException == |s.tasks| then Put(s, k, Storing(r)).(threadWithException := r)
      else Put(s, k, Counting(r))
    case Store(k) => Put(s, k, Counting(s.tasks[k].rank)).(exception := Some(s.tasks[k].rank))
    case Count(k) =>
      Put(s, k, if s.finished == |s.tasks| - 1 then Last(s.tasks[k].rank) else Finished)
        .(finished := (s.finished + 1) % 0x1_0000_0000)
    case Complete(k) =>
      Put(s, k, Finished).(completions := s.completions +
        [if s.exception.Some? then Error(s.exception.value) else Value])
  }

  // `bulk_receiver::set_value`: for an empty shape nothing is enqueued, and the value has been sent straight away.
  ghost predicate Start(s: State) {
    && s.ty.Valid() && s.ty.Holds(s.shape) && 0 < s.par < WRAP
    && |s.tasks| == (if s.shape == 0 then 0 else NumAgents(s.ty, s.shape, s.par))
    && (forall k | 0 <= k < |s.tasks| :: s.tasks[k] == Ready)
    && s.pushed == 0 && s.finished == 0 && s.threadWithException == |s.tasks| && s.exception == None
    && s.calls == [] && s.callers == [] && s.thrown == {} && s.completions == if s.shape == 0 then [Value] else []
  }

  // The thread count survives its conversion to the shape's type, or one of the other conditions of
  // `UsableIff` holds.
  predicate Usable(s: State)
    requires s.ty.Valid()
  {
    s.ty.Convert(s.par) > 0 || s.par == WRAP + s.ty.Convert(s.par)
  }

  ghost predicate Init(s: State) { Start(s) && (s.shape == 0 || Usable(s)) }

  lemma AgentsOfInit(s: State)
    requires Start(s)
    ensures s.shape == 0 ==> s.tasks == []
    ensures s.shape > 0 ==> (Usable(s) <==> 0 < |s.tasks| <= s.par)
  {
    if s.shape > 0 { UsableIff(s.ty, s.shape, s.par); }
  }

  // ---------------------------------------------------------------- the invariant

  predicate Over(p: TaskPc) { p.Last? || p.Finished? }

  predicate Started(p: TaskPc) { !p.Ready? && !p.Remote? && !p.Local? }

  function CountOver(tasks: seq<TaskPc>): (c: nat)
    ensures c <= |tasks|
  {
    if tasks == [] then 0 else (if Over(tasks[0]) then 1 else 0) + CountOver(tasks[1..])
  }

  lemma {:induction false} CountOverSet(tasks: seq<TaskPc>, k: nat, p: TaskPc)
    requires k < |tasks|
    ensures CountOver(tasks[k := p]) + (if Over(tasks[k]) then 1 else 0)
            == CountOver(tasks) + (if Over(p) then 1 else 0)
  {
    if k == 0 {
      assert tasks[0 := p][1..] == tasks[1..];
    } else {
      CountOverSet(tasks[1..], k - 1, p);
      assert tasks[k := p][1..] == tasks[1..][k - 1 := p];
    }
  }

  lemma {:induction false} CountOverFull(tasks: seq<TaskPc>)
    ensures CountOver(tasks) == |tasks| <==> forall k | 0 <= k < |tasks| :: Over(tasks[k])
  {
    if tasks != [] {
      CountOverFull(tasks[1..]);
      assert forall k | 1 <= k < |tasks| :: tasks[k] == tasks[1..][k - 1];
    }
  }

  // The queue a task lies in, and the rank it runs with, are its own index.
  predicate TaskOk(s: State, k: nat)
    requires k < |s.tasks|
  {
    var p := s.tasks[k];
    && (p.Ready? <==> s.pushed <= k)
    && (p.Remote? || p.Local? ==> p.q == k)
    && (p.Running? || p.Caught? || p.Storing? || p.Counting? || p.Last? ==> p.rank == k)
    && (Started(p) <==> k in s.calls)
    && (!Started(p) || p.Running? ==> k !in s.thrown)
    && (p.Caught? || p.Storing? ==> k in s.thrown)
    && (p.Storing? ==> s.threadWithException == k && s.exception == None)
    && (s.threadWithException == |s.tasks| && k in s.thrown ==> p.Caught?)
  }

  // The calls made so far, ...
  ghost predicate CallsOk(s: State) {
    && (s.shape > 0 ==> 0 < |s.tasks|) && |s.tasks| <= s.par < WRAP && s.pushed <= |s.tasks|
    && Distinct(s.calls) && (forall r | r in s.calls :: r < |s.tasks|)
    && (forall k | k in s.thrown :: k < |s.tasks|)
  }

  // ... and the fields of the shared state.
  ghost predicate SharedOk(s: State) {
    && s.finished == CountOver(s.tasks)
    && (s.exception.Some? ==> s.exception.value == s.threadWithException < |s.tasks|)
    && s.threadWithException <= |s.tasks|
    && (s.threadWithException < |s.tasks| ==> s.threadWithException in s.thrown)
    && (s.threadWithException < |s.tasks| ==> s.exception.Some? || s.tasks[s.threadWithException].Storing?)
  }

  ghost predicate CompletionOk(s: State) {
    && |s.completions| <= 1
    && (forall k | 0 <= k < |s.tasks| && s.tasks[k].Last? :: s.finished == |s.tasks| && s.completions == [])
    && (forall k, j | 0 <= k < j < |s.tasks| :: !(s.tasks[k].Last? && s.tasks[j].Last?))
    && (s.completions != [] ==> s.finished == |s.tasks|)
    && (s.finished == |s.tasks| && s.completions == [] ==> exists k :: 0 <= k < |s.tasks| && s.tasks[k].Last?)
    && (forall e | e in s.completions :: e == if s.exception.Some? then Error(s.exception.value) else Value)
  }

  ghost predicate Inv(s: State) {
    CallsOk(s) && SharedOk(s) && CompletionOk(s) && forall k | 0 <= k < |s.tasks| :: TaskOk(s, k)
  }

  lemma {:induction false} NoneOver(tasks: seq<TaskPc>)
    requires forall k | 0 <= k < |tasks| :: tasks[k] == Ready
    ensures CountOver(tasks) == 0
  {
    if tasks != [] { NoneOver(tasks[1..]); }
  }

  lemma InitInv(s: State)
    requires Init(s)
    ensures Inv(s)
  {
    AgentsOfInit(s);
    NoneOver(s.tasks);
  }

  // The task an action is about.
  function Actor(s: State, a: Action): nat { if a.Push? then s.pushed else a.k }

  lemma CallsStep(s: State, a: Action)
    requires CallsOk(s) && Enabled(s, a) && TaskOk(s, Actor(s, a))
    ensures CallsOk(Apply(s, a))
  {}

  lemma CountStep(s: State, a: Action)
    requires CallsOk(s) && Enabled(s, a) && s.finished == CountOver(s.tasks) && TaskOk(s, Actor(s, a))
    ensures Apply(s, a).finished == CountOver(Apply(s, a).tasks)
  {
    CountOverSet(s.tasks, Actor(s, a), Apply(s, a).tasks[Actor(s, a)]);
  }

  lemma SharedStep(s: State, a: Action)
    requires CallsOk(s) && SharedOk(s) && Enabled(s, a) && TaskOk(s, Actor(s, a))
    ensures SharedOk(Apply(s, a))
  {
    CountStep(s, a);
  }

  lemma ActorStep(s: State, a: Action)
    requires CallsOk(s) && SharedOk(s) && Enabled(s, a) && TaskOk(s, Actor(s, a))
    ensures TaskOk(Apply(s, a), Actor(s, a))
  {}

  lemma OtherStep(s: State, a: Action, k: nat)
    requires SharedOk(s) && Enabled(s, a) && TaskOk(s, Actor(s, a)) && k < |s.tasks| && TaskOk(s, k) && k != Actor(s, a)
    requires |s.tasks| <= s.par
    ensures TaskOk(Apply(s, a), k)
  {}

  lemma AllOver(s: State, k: nat)
    requires SharedOk(s) && k < |s.tasks| && s.finished == |s.tasks|
    ensures Over(s.tasks[k])
  {
    CountOverFull(s.tasks);
  }

  // The agents' last steps.
  lemma FinishStep(s: State, k: nat)
    requires CallsOk(s) && SharedOk(s) && CompletionOk(s) && Enabled(s, Count(k))
    ensures CompletionOk(Apply(s, Count(k)))
  {
    var s' := Apply(s, Count(k));
    if s.finished == |s.tasks| { AllOver(s, k); }
    assert s'.finished == |s.tasks| ==> s'.tasks[k].Last?;
  }

  lemma CompleteStep(s: State, k: nat)
    requires CompletionOk(s) && Enabled(s, Complete(k))
    ensures CompletionOk(Apply(s, Complete(k)))
  {}

  lemma CompletionStep(s: State, a: Action)
    requires CallsOk(s) && SharedOk(s) && CompletionOk(s) && Enabled(s, a) && TaskOk(s, Actor(s, a))
    ensures CompletionOk(Apply(s, a))
  {
    match a
    case Count(k) => FinishStep(s, k);
    case Complete(k) => CompleteStep(s, k);
    case _ =>
      if s.finished == |s.tasks| { AllOver(s, Actor(s, a)); }
  }

  /** Every step keeps the invariant. */
  lemma StepInv(s: State, a: Action)
    requires Inv(s) && Enabled(s, a)
    ensures Inv(Apply(s, a))
  {
    CallsStep(s, a);
    SharedStep(s, a);
    CompletionStep(s, a);
    forall k | 0 <= k < |s.tasks| ensures TaskOk(Apply(s, a), k) {
      if k == Actor(s, a) { ActorStep(s, a); } else { OtherStep(s, a, k); }
    }
  }

  // Any interleaving of the enqueuer and the workers, whatever the number of agents ...
  ghost predicate Steps(run: seq<State>, acts: seq<Action>) {
    && |run| == |acts| + 1 && Start(run[0])
    && forall i | 0 <= i < |acts| :: Enabled(run[i], acts[i]) && run[i + 1] == Apply(run[i], acts[i])
  }

  /** ... and from a usable number of them. */
  ghost predicate IsRun(run: seq<State>, acts: seq<Action>) { Steps(run, acts) && Init(run[0]) }

  predicate SameJob(s: State, t: State) {
    s.ty == t.ty && s.shape == t.shape && s.par == t.par && |s.tasks| == |t.tasks|
  }

  lemma {:induction false} JobStays(run: seq<State>, acts: seq<Action>, i: nat)
    requires Steps(run, acts) && i < |run|
    ensures SameJob(run[i], run[0])
  {
    if i > 0 { JobStays(run, acts, i - 1); }
  }

  lemma {:induction false} RunInv(run: seq<State>, acts: seq<Action>, i: nat)
    requires IsRun(run, acts) && i < |run|
    ensures Inv(run[i]) && SameJob(run[i], run[0])
  {
    JobStays(run, acts, i);
    if i == 0 {
      InitInv(run[0]);
    } else {
      RunInv(run, acts, i - 1);
      StepInv(run[i - 1], acts[i - 1]);
    }
  }

  // ---------------------------------------------------------------- numbers of agents that do not work

  // The queue a task lies in, and the rank it runs with, when there may be more tasks than queues.
  predicate Placed(s: State, k: nat)
    requires k < |s.tasks| && s.par > 0
  {
    match s.tasks[k]
    case Remote(q) => q == QueueFor(k, s.par)
    case Local(q) => q == QueueFor(k, s.par)
    case Running(rank, _) => rank == QueueFor(k, s.par)
    case _ => true
  }

  /** Whichever worker runs a task, and however often it was moved, its rank is the index of the queue
      it was pushed to. */
  lemma {:induction false} RankIsOrigin(run: seq<State>, acts: seq<Action>, i: nat, k: nat)
    requires Steps(run, acts) && i < |run| && k < |run[i].tasks|
    ensures run[i].par > 0 && Placed(run[i], k)
  {
    JobStays(run, acts, i);
    if i > 0 {
      JobStays(run, acts, i - 1);
      RankIsOrigin(run, acts, i - 1, k);
      PlacedStep(run[i - 1], acts[i - 1], k);
    }
  }

  lemma PlacedStep(s: State, a: Action, k: nat)
    requires Enabled(s, a) && s.par > 0 && k < |s.tasks| && Placed(s, k)
    ensures Placed(Apply(s, a), k)
  {}

  // Every call is made with the rank its task was placed at, and every task that has started has made one.
  ghost predicate CallsFollow(s: State) {
    && s.par > 0 && |s.callers| == |s.calls|
    && (forall d | 0 <= d < |s.calls| :: s.calls[d] == QueueFor(s.callers[d], s.par))
    && (forall k | 0 <= k < |s.tasks| && Started(s.tasks[k]) :: k in s.callers)
  }

  lemma CallsFollowStep(s: State, a: Action)
    requires CallsFollow(s) && Enabled(s, a) && (a.Push? || Placed(s, a.k))
    ensures CallsFollow(Apply(s, a))
  {}

  lemma {:induction false} CallsFollowRun(run: seq<State>, acts: seq<Action>, i: nat)
    requires Steps(run, acts) && i < |run|
    ensures CallsFollow(run[i])
  {
    if i > 0 {
      CallsFollowRun(run, acts, i - 1);
      if !acts[i - 1].Push? { RankIsOrigin(run, acts, i - 1, acts[i - 1].k); }
      CallsFollowStep(run[i - 1], acts[i - 1]);
    }
  }

  /** So with more agents than threads, the tasks 0 and `par` make two calls with the same rank, and its share of
      the shape is handed to the function twice. */
  lemma TooManyAgents(run: seq<State>, acts: seq<Action>, i: nat)
    requires Steps(run, acts) && i < |run| && 0 < run[i].par < |run[i].tasks|
    requires Started(run[i].tasks[0]) && Started(run[i].tasks[run[i].par])
    ensures exists d, e | 0 <= d < |run[i].calls| && 0 <= e < |run[i].calls| && d != e ::
              run[i].calls[d] == run[i].calls[e] == 0
    ensures !Distinct(run[i].calls)
  {
    CallsFollowRun(run, acts, i);
    var s := run[i];
    var d :| 0 <= d < |s.callers| && s.callers[d] == 0;
    var e :| 0 <= e < |s.callers| && s.callers[e] == s.par;
    ModIsRing(s.par, s.par);
    assert s.calls[d] == 0 && s.calls[e] == 0 && d != e;
    assert s.calls[if d < e then d else e] == s.calls[if d < e then e else d];
  }

  /** And with none for a shape that is not empty, nothing happens and the operation never completes. */
  lemma NoAgents(run: seq<State>, acts: seq<Action>, i: nat)
    requires Steps(run, acts) && i < |run| && run[0].tasks == [] && run[0].shape > 0
    ensures i == 0 && run[i].completions == []
  {
    assert i > 0 ==> Enabled(run[0], acts[0]);
  }

  // ---------------------------------------------------------------- what holds over whole runs

  /** Each task runs with its own index as its rank, and at most once. */
  lemma RanksAreOwn(run: seq<State>, acts: seq<Action>, i: nat, k: nat)
    requires IsRun(run, acts) && i < |run| && k < |run[i].tasks|
    ensures run[i].tasks[k].Running? ==> run[i].tasks[k].rank == k
    ensures run[i].tasks[k].Local? || run[i].tasks[k].Remote? ==> run[i].tasks[k].q == k
    ensures Distinct(run[i].calls)
  {
    RunInv(run, acts, i);
    assert TaskOk(run[i], k);
  }

  /** At most one completion is sent, and only when every agent has finished; once they all have, it has
      been sent, or the last of them is about to send it. */
  lemma CompletesOnce(run: seq<State>, acts: seq<Action>, i: nat)
    requires IsRun(run, acts) && i < |run|
    ensures |run[i].completions| <= 1
    ensures run[i].completions != [] ==> forall k | 0 <= k < |run[i].tasks| :: run[i].tasks[k] == Finished
    ensures (forall k | 0 <= k < |run[i].tasks| :: run[i].tasks[k] == Finished) ==> |run[i].completions| == 1
  {
    RunInv(run, acts, i);
    var s := run[i];
    CountOverFull(s.tasks);
    if s.completions != [] {
      forall k | 0 <= k < |s.tasks| ensures s.tasks[k] == Finished { assert Over(s.tasks[k]); }
    }
  }

  /** The completion is an error exactly when some agent threw, and the error reported is one of theirs. */
  lemma ErrorIffThrown(run: seq<State>, acts: seq<Action>, i: nat)
    requires IsRun(run, acts) && i < |run| && run[i].completions != []
    ensures run[i].completions[0].Error? <==> run[i].thrown != {}
    ensures run[i].completions[0].Error? ==> run[i].completions[0].from in run[i].thrown
  {
    CompletesOnce(run, acts, i);
    RunInv(run, acts, i);
    var s := run[i];
    assert s.completions[0] in s.completions;
    if s.thrown != {} {
      var k :| k in s.thrown;
      assert TaskOk(s, k) && s.tasks[k] == Finished;
    }
  }

  /** When the operation completes, every element of the shape has been handed to the function by one
      call, and by no other. */
  lemma ShapeCoveredOnce(run: seq<State>, acts: seq<Action>, i: nat, x: nat) returns (c: nat)
    requires IsRun(run, acts) && i < |run| && run[i].completions != [] && x < run[i].shape
    ensures c < |run[i].calls| && |run[i].tasks| > 0
    ensures forall d | 0 <= d < |run[i].calls| ::
              var (begin, end) := Share(run[i].shape, run[i].calls[d], |run[i].tasks|); begin <= x < end <==> d == c
  {
    RunInv(run, acts, i);
    CompletesOnce(run, acts, i);
    var s, n := run[i], |run[i].tasks|;
    var owner := Tiles(x, s.shape, n);
    assert TaskOk(s, owner);
    c :| 0 <= c < |s.calls| && s.calls[c] == owner;
    forall d | 0 <= d < |s.calls|
      ensures var (begin, end) := Share(s.shape, s.calls[d], n); begin <= x < end <==> d == c
    {
      assert s.calls[d] in s.calls;
      assert d != c ==> s.calls[d] != owner;
      OwnerOnly(x, s.shape, s.calls[d], n, owner);
    }
  }

  lemma OwnerOnly(x: nat, shape: nat, rank: nat, n: nat, owner: nat)
    requires shape < TWO64 && rank < n < TWO64 && (InShare(x, shape, rank, n) <==> rank == owner)
    ensures var (begin, end) := Share(shape, rank, n); begin <= x < end <==> rank == owner
  {
    ShareIsExact(shape, rank, n);
  }

  // ---------------------------------------------------------------- in place

  predicate FirstThrow(order: seq<nat>, threw: set<nat>, i: nat)
    requires i < |order|
  {
    order[i] in threw && forall j | 0 <= j < i :: order[j] !in threw
  }

  // The members of `bulk_shared_state` the agents update.
  class BulkSharedState {
    var finishedThreads: nat
    var threadWithException: nat
    var exception: Option<nat>
    const total: nat

    constructor (total: nat)
      requires 0 < total < 0x1_0000_0000
      ensures this.total == total && finishedThreads == 0 && threadWithException == total && exception == None
    {
      this.total := total;
      finishedThreads, threadWithException, exception := 0, total, None;
    }

    // The agents' sequel to the function call, run to its end without interference.
    method FinishAgent(tid: nat, threw: bool) returns (done: Option<Completion>)
      requires tid < total < 0x1_0000_0000 && finishedThreads < total
      modifies this
      ensures finishedThreads == old(finishedThreads) + 1
      ensures old(threadWithException) != total || !threw ==>
                exception == old(exception) && threadWithException == old(threadWithException)
      ensures old(threadWithException) == total && threw ==> exception == Some(tid) && threadWithException == tid
      ensures done.Some? <==> finishedThreads == total
      ensures done.Some? ==> done.value == if exception.Some? then Error(exception.value) else Value
    {
      if threw && threadWithException == total {
        threadWithException := tid;
        exception := Some(tid);
      }
      var isLast := finishedThreads == total - 1;
      finishedThreads := (finishedThreads + 1) % 0x1_0000_0000;
      done := if !isLast then None else Some(if exception.Some? then Error(exception.value) else Value);
    }

    // All agents one after another, in any order: an error iff one threw, the first of them reported.
    method FinishAll(order: seq<nat>, threw: set<nat>) returns (done: Option<Completion>)
      requires 0 < total < 0x1_0000_0000 && |order| == total
      requires finishedThreads == 0 && threadWithException == total && exception == None
      requires forall k | k in order :: k < total
      modifies this
      ensures done.Some?
      ensures done.value.Value? <==> forall k | k in order :: k !in threw
      ensures done.value.Error? ==>
                exists i :: 0 <= i < |order| && order[i] == done.value.from && FirstThrow(order, threw, i)
    {
      done := None;
      var i := 0;
      while i < |order|
        invariant 0 <= i <= |order| && finishedThreads == i
        invariant done.Some? <==> i == total
        invariant threadWithException == total ==> exception == None && forall j | 0 <= j < i :: order[j] !in threw
        invariant threadWithException != total ==> exception == Some(threadWithException)
        invariant threadWithException != total ==>
                  exists f :: 0 <= f < i && order[f] == threadWithException && FirstThrow(order, threw, f)
        invariant done.Some? ==> done.value == if exception.Some? then Error(exception.value) else Value
      {
        assert order[i] in order;
        done := FinishAgent(order[i], order[i] in threw);
        i := i + 1;
      }
    }
  }
}
